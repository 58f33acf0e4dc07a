/**
 * The organization routes (/api/org): the body of a new opportunity is
 * shaped into a row (majors split from a comma-separated string, the link
 * stored as `apply_link`, the owner taken from the caller), and deleting
 * an opportunity only marks it closed.
 */
module OrgRoutes {
  import opened Wrappers
  import opened Text
  import opened Json
  import opened Identity

  const OrgNotFound := "Supabase org not found"

  /**
   * `majors.split(",").map(m => m.trim())` as JSON strings: item i is the
   * i-th comma-separated piece of `s`, trimmed.
   */
  function SplitMajors(s: string): (items: seq<Json>)
    ensures |items| == Count(s, ',') + 1
    ensures exists pieces :: && PiecesOf(pieces, s, ',') && |pieces| == |items|
                             && forall i :: 0 <= i < |items| ==> items[i] == JString(Trim(pieces[i]))
    ensures forall i :: 0 <= i < |items| ==>
      && items[i].JString? && ',' !in items[i].s
      && (items[i].s == [] || (!IsSpace(items[i].s[0]) && !IsSpace(items[i].s[|items[i].s| - 1])))
  {
    var pieces := Split(s, ',');
    SplitIsUniquePieces(pieces, s, ',');
    seq(|pieces|, i requires 0 <= i < |pieces| =>
      TrimKeepsOut(pieces[i], ',');
      JString(Trim(pieces[i])))
  }

  /** Trimming never introduces a character, in particular not a separator. */
  lemma {:induction false} TrimKeepsOut(s: string, c: char)
    requires c !in s
    ensures c !in Trim(s)
  {
    TrimStartKeepsOut(s, c);
    TrimEndKeepsOut(TrimStart(s), c);
  }

  lemma {:induction false} TrimStartKeepsOut(s: string, c: char)
    requires c !in s
    ensures c !in TrimStart(s)
  {
    var r := TrimStart(s);
    forall i | 0 <= i < |r| ensures r[i] != c {
      assert r[i] == s[|s| - |r| + i];
    }
  }

  lemma {:induction false} TrimEndKeepsOut(s: string, c: char)
    requires c !in s
    ensures c !in TrimEnd(s)
  {
    var r := TrimEnd(s);
    forall i | 0 <= i < |r| ensures r[i] != c {
      assert r[i] == s[i];
    }
  }

  /**
   * `formattedMajors`: a string becomes its comma-separated pieces, each
   * trimmed; any other value, a missing one included, is passed through.
   */
  function FormatMajors(majors: Option<Json>): (r: Option<Json>)
    ensures majors.Some? && majors.value.JString? ==>
      r == Some(JArray(SplitMajors(majors.value.s)))
    ensures !(majors.Some? && majors.value.JString?) ==> r == majors
  {
    if majors.Some? && majors.value.JString? then Some(JArray(SplitMajors(majors.value.s))) else majors
  }

  /** An empty majors string becomes one empty major, not an empty list. */
  lemma EmptyMajorsString()
    ensures FormatMajors(Some(JString(""))) == Some(JArray([JString("")]))
  {
    SingleMajor("");
  }

  /** A majors string without a comma becomes the single trimmed major. */
  lemma SingleMajor(s: string)
    requires ',' !in s
    ensures FormatMajors(Some(JString(s))) == Some(JArray([JString(Trim(s))]))
  {
    SplitWithoutSeparator(s, ',');
    var items := SplitMajors(s);
    assert items[0] == JString(Trim(s));
    assert items == [items[0]];
  }

  /** The body member `key` as a row field: a missing member is left out of the row. */
  function Field(body: map<string, Json>, key: string): Option<Json> {
    if key in body then Some(body[key]) else None
  }

  /** Sets `key` to a defined value; an undefined value is not sent, so the row is unchanged. */
  function Put(row: map<string, Json>, key: string, value: Option<Json>): (r: map<string, Json>)
    ensures value.Some? ==> Field(r, key) == value
    ensures value.None? ==> r == row
    ensures forall k :: k != key ==> Field(r, k) == Field(row, k)
    ensures r.Keys <= row.Keys + {key}
  {
    if value.Some? then row[key := value.value] else row
  }

  /**
   * The row a new opportunity is inserted as: title, description and GPA
   * requirement from the body, `apply_link` from the body's `link`, the
   * formatted majors, and the caller's id as `org_id`.
   */
  function NewOpportunityRow(body: map<string, Json>, orgId: string): (row: map<string, Json>)
    ensures row.Keys <= {"org_id", "title", "description", "gpa_requirement", "apply_link", "majors"}
    ensures Field(row, "org_id") == Some(JString(orgId))
    ensures Field(row, "title") == Field(body, "title")
    ensures Field(row, "description") == Field(body, "description")
    ensures Field(row, "gpa_requirement") == Field(body, "gpa_requirement")
    ensures Field(row, "apply_link") == Field(body, "link")
    ensures Field(row, "majors") == FormatMajors(Field(body, "majors"))
  {
    var r0 := map["org_id" := JString(orgId)];
    var r1 := Put(r0, "title", Field(body, "title"));
    var r2 := Put(r1, "description", Field(body, "description"));
    var r3 := Put(r2, "gpa_requirement", Field(body, "gpa_requirement"));
    var r4 := Put(r3, "apply_link", Field(body, "link"));
    var r5 := Put(r4, "majors", FormatMajors(Field(body, "majors")));
    assert Field(r0, "org_id") == Some(JString(orgId));
    assert Field(r5, "org_id") == Field(r0, "org_id");
    assert Field(r5, "title") == Field(r1, "title");
    assert Field(r5, "description") == Field(r2, "description");
    assert Field(r5, "gpa_requirement") == Field(r3, "gpa_requirement");
    assert Field(r5, "apply_link") == Field(r4, "apply_link");
    r5
  }

  /** The body cannot choose the owner: its `org_id`, if any, is ignored. */
  lemma OwnerNotFromBody(body: map<string, Json>, orgId: string, claimed: Json)
    ensures NewOpportunityRow(body["org_id" := claimed], orgId) == NewOpportunityRow(body, orgId)
  {
    var b := body["org_id" := claimed];
    assert forall k :: k != "org_id" ==> Field(b, k) == Field(body, k);
  }

  /**
   * What the POST route's collaborators answer: the userinfo body for a
   * token (None when it is not JSON; the status is not checked), the users
   * table's ids by auth_id, and whether the lookup and the insert fail.
   */
  datatype OrgEnv = OrgEnv(
    userinfo: string -> Option<Profile>,
    idsByAuthId: map<string, string>,
    lookupFails: bool,
    insertFails: bool)

  /** `getSupabaseOrgId`: the caller's users row id, whatever that row's role. */
  function OrgId(header: Option<string>, env: OrgEnv): (r: Result<string, string>)
    ensures var p := env.userinfo(TokenText(BearerToken(header)));
      && (r.Ok? <==> p.Some? && p.value.Object? && p.value.claims.sub.Some?
                     && p.value.claims.sub.value in env.idsByAuthId && !env.lookupFails)
      && (r.Ok? ==> r.value == env.idsByAuthId[p.value.claims.sub.value])
      && (p.Some? && p.value.Object? && r.Err? ==> r == Err(OrgNotFound))
  {
    match env.userinfo(TokenText(BearerToken(header)))
    case None => Err("Unexpected token in JSON")
    case Some(NullProfile) => Err("Cannot read properties of null")
    case Some(Object(claims)) =>
      if env.lookupFails || claims.sub.None? || claims.sub.value !in env.idsByAuthId then Err(OrgNotFound)
      else Ok(env.idsByAuthId[claims.sub.value])
  }

  /** The opportunities table, keyed by row id. */
  class OpportunityTable {
    var rows: map<string, map<string, Json>>

    constructor()
      ensures rows == map[]
    {
      rows := map[];
    }

    /**
     * POST /opportunities: the shaped row is inserted under the store's
     * fresh id `newId`. An unresolved caller or a failed insert is a 500
     * and inserts nothing.
     */
    method Create(header: Option<string>, body: map<string, Json>, env: OrgEnv, newId: string)
      returns (status: nat)
      requires newId !in rows
      modifies this
      ensures status == 200 <==> OrgId(header, env).Ok? && !env.insertFails
      ensures status != 200 ==> status == 500 && rows == old(rows)
      ensures status == 200 ==> rows == old(rows)[newId := NewOpportunityRow(body, OrgId(header, env).value)]
    {
      var orgId := OrgId(header, env);
      if orgId.Err? || env.insertFails {
        return 500;
      }
      rows := rows[newId := NewOpportunityRow(body, orgId.value)];
      return 200;
    }

    /**
     * DELETE /opportunities/:id: no row is removed; the row with that id,
     * if any, has its status set to "closed". There is no caller or owner
     * check. A failed update is a 500 and changes nothing.
     */
    method Delete(id: string, updateFails: bool) returns (status: nat)
      modifies this
      ensures updateFails ==> status == 500 && rows == old(rows)
      ensures !updateFails ==> status == 200 && rows == SoftDeleted(old(rows), id)
    {
      if updateFails {
        return 500;
      }
      rows := SoftDeleted(rows, id);
      return 200;
    }
  }

  /** The table after the soft delete of `id`. */
  function SoftDeleted(rows: map<string, map<string, Json>>, id: string): (r: map<string, map<string, Json>>)
    ensures r.Keys == rows.Keys
    ensures id in rows ==> r[id] == rows[id]["status" := JString("closed")]
    ensures forall k :: k in rows && k != id ==> r[k] == rows[k]
  {
    if id in rows then rows[id := rows[id]["status" := JString("closed")]] else rows
  }

  /** Deleting twice is deleting once. */
  lemma SoftDeleteIdempotent(rows: map<string, map<string, Json>>, id: string)
    ensures SoftDeleted(SoftDeleted(rows, id), id) == SoftDeleted(rows, id)
  {
    if id in rows {
      var closed := rows[id]["status" := JString("closed")];
      assert closed["status" := JString("closed")] == closed;
    }
  }
}
