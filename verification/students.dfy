/**
 * The student profile update route (PATCH /api/students): the caller is
 * resolved through the identity provider's userinfo endpoint to a users
 * row id, the request body's empty-string fields are dropped, and whatever
 * remains is written to the caller's row.
 */
module Students {
  import opened Wrappers
  import opened Json
  import opened Identity

  const StudentNotFound := "Supabase student not found"
  const UpdateFailed := "Failed to update student"

  /**
   * `updates` once every key whose value is exactly "" has been deleted:
   * the other keys stay with their values, whatever they are (null, 0 and
   * false included).
   */
  function WithoutEmptyStrings(updates: map<string, Json>): (kept: map<string, Json>)
    ensures kept.Keys <= updates.Keys
    ensures forall k :: k in kept ==> kept[k] != JString("") && kept[k] == updates[k]
    ensures forall k :: k in updates && updates[k] != JString("") ==> k in kept
  {
    map k | k in updates && updates[k] != JString("") :: updates[k]
  }

  /** Dropping empty strings a second time changes nothing. */
  lemma WithoutEmptyStringsIdempotent(updates: map<string, Json>)
    ensures WithoutEmptyStrings(WithoutEmptyStrings(updates)) == WithoutEmptyStrings(updates)
  {
  }

  /**
   * The handler's loop over the body's keys, deleting each key whose value
   * is "". The loop visits every key once; deleting a key it has visited
   * does not disturb the keys still to come.
   */
  method DropEmptyStrings(body: map<string, Json>) returns (updates: map<string, Json>)
    ensures updates == WithoutEmptyStrings(body)
  {
    updates := body;
    var pending := body.Keys;
    while pending != {}
      invariant pending <= body.Keys
      invariant updates.Keys <= body.Keys
      invariant forall k :: k in updates ==> updates[k] == body[k]
      invariant forall k :: k in body && (k in pending || body[k] != JString("")) ==> k in updates
      invariant forall k :: k in updates && k !in pending ==> updates[k] != JString("")
      decreases pending
    {
      var key :| key in pending;
      if updates[key] == JString("") {
        updates := updates - {key};
      }
      pending := pending - {key};
    }
  }

  /**
   * Fields are not restricted: any field the body sets to something other
   * than "" reaches the update, the role and the verified flag included.
   */
  lemma AnyFieldReachesUpdate(body: map<string, Json>, key: string)
    requires key in body && body[key] != JString("")
    ensures key in WithoutEmptyStrings(body) && WithoutEmptyStrings(body)[key] == body[key]
  {
  }

  /**
   * What the route's collaborators answer: the userinfo body for a token
   * (None when the response is not ok), the users table's ids by auth_id,
   * and whether the lookup and the update fail.
   */
  datatype StudentEnv = StudentEnv(
    userinfo: string -> Option<Profile>,
    idsByAuthId: map<string, string>,
    lookupFails: bool,
    updateFails: bool)

  /**
   * `getSupabaseStudentId`: the caller's users row id. A userinfo response
   * that is not ok, a null body, a missing subject and a missing row all
   * end in an error (the null body as the TypeError of reading `sub`).
   */
  function StudentId(header: Option<string>, env: StudentEnv): (r: Result<string, string>)
    ensures var p := env.userinfo(TokenText(BearerToken(header)));
      && (r.Ok? <==> p.Some? && p.value.Object? && p.value.claims.sub.Some?
                     && p.value.claims.sub.value in env.idsByAuthId && !env.lookupFails)
      && (r.Ok? ==> r.value == env.idsByAuthId[p.value.claims.sub.value])
      && (p.None? ==> r == Err(StudentNotFound))
      && (p.Some? && p.value.Object? && r.Err? ==> r == Err(StudentNotFound))
  {
    match env.userinfo(TokenText(BearerToken(header)))
    case None => Err(StudentNotFound)
    case Some(NullProfile) => Err("Cannot read properties of null")
    case Some(Object(claims)) =>
      if env.lookupFails || claims.sub.None? || claims.sub.value !in env.idsByAuthId then Err(StudentNotFound)
      else Ok(env.idsByAuthId[claims.sub.value])
  }

  /** The PATCH route's outcome: a 500 with its message, or the update written to a row. */
  datatype PatchOutcome = PatchFailed(status: nat, error: string) | Updated(id: string, updates: map<string, Json>)

  /**
   * The PATCH route: every failure (caller not resolved, update error) is a
   * 500 "Failed to update student"; otherwise the caller's row receives the
   * body without its empty-string fields.
   */
  function PatchStudent(header: Option<string>, body: map<string, Json>, env: StudentEnv): (o: PatchOutcome)
    ensures o.PatchFailed? <==> StudentId(header, env).Err? || env.updateFails
    ensures o.PatchFailed? ==> o.status == 500 && o.error == UpdateFailed
    ensures o.Updated? ==> o.id == StudentId(header, env).value && o.updates == WithoutEmptyStrings(body)
  {
    var id := StudentId(header, env);
    if id.Err? || env.updateFails then PatchFailed(500, UpdateFailed)
    else Updated(id.value, WithoutEmptyStrings(body))
  }

  /** A student can change their own role: a non-empty `role` in the body is written. */
  lemma RoleIsWritable(header: Option<string>, body: map<string, Json>, env: StudentEnv)
    requires StudentId(header, env).Ok? && !env.updateFails
    requires "role" in body && body["role"] != JString("")
    ensures PatchStudent(header, body, env).Updated?
    ensures PatchStudent(header, body, env).updates["role"] == body["role"]
  {
  }
}
