/**
 * The organization's opportunity form, shared by the page that creates an
 * opportunity and the page that edits one: the form object, the list of
 * majors that the "add" and "remove" buttons maintain, the normalisation
 * of a stored opportunity into the edit form, and the payload sent on
 * submit.
 *
 * The form is the JavaScript object the pages keep in state, a map from
 * field names to JSON values; its `majors` member is an array of strings
 * unless the stored opportunity held something else there.
 */
module OpportunityForm {
  import opened Wrappers
  import opened Text
  import opened Lists
  import opened Json

  type Form = map<string, Json>

  /** The create page's initial form: every field "", no majors. */
  const BlankCreateForm: Form := map[
    "title" := JString(""), "description" := JString(""), "gpa_requirement" := JString(""),
    "majors" := JArray([]), "location" := JString(""), "apply_link" := JString(""),
    "deadline" := JString(""), "compensation" := JString("")]

  /** The edit page's initial form: the create form and an empty banner URL. */
  const BlankEditForm: Form := BlankCreateForm["banner_url" := JString("")]

  /** `formData.majors`: undefined (read here as null) when the member is missing. */
  function Majors(form: Form): Json {
    if "majors" in form then form["majors"] else JNull
  }

  /**
   * `handleAddMajor`'s effect on the majors value: the trimmed input is
   * appended when it is non-empty and `majors.includes` does not find it.
   * None when nothing changes: an empty input, an input already there, or
   * a majors value without `includes` (null, a number, a boolean or an
   * object), on which the handler throws. A string's `includes` is a
   * substring test, and spreading it gives its characters.
   */
  function AddMajor(majors: Json, input: string): (r: Option<Json>)
    ensures r.Some? ==> Trim(input) != "" && r.value.JArray?
    ensures majors.JArray? ==>
      (r.Some? <==> Trim(input) != "" && JString(Trim(input)) !in majors.items)
    ensures majors.JArray? && r.Some? ==> r.value.items == majors.items + [JString(Trim(input))]
    ensures !majors.JArray? && !majors.JString? ==> r.None?
  {
    var t := Trim(input);
    if t == "" then None
    else match majors
      case JArray(items) => if JString(t) in items then None else Some(JArray(items + [JString(t)]))
      case JString(s) =>
        if Contains(s, t) then None
        else Some(JArray(seq(|s|, i requires 0 <= i < |s| => JString([s[i]])) + [JString(t)]))
      case _ => None
  }

  /**
   * `handleRemoveMajor`'s effect: every entry equal to `major` is dropped,
   * the rest kept in order. None when the majors value is not an array
   * (it has no `filter` and the handler throws).
   */
  function RemoveMajor(majors: Json, major: string): (r: Option<Json>)
    ensures r.Some? <==> majors.JArray?
    ensures r.Some? ==>
      && r.value.JArray? && JString(major) !in r.value.items
      && IsSubsequence(r.value.items, majors.items)
      && (forall m :: m != JString(major) ==> multiset(r.value.items)[m] == multiset(majors.items)[m])
  {
    if majors.JArray? then Some(JArray(RemoveAll(majors.items, JString(major)))) else None
  }

  /** Adding to a duplicate-free list of majors keeps it duplicate-free. */
  lemma AddKeepsNoDuplicates(items: seq<Json>, input: string)
    requires NoDuplicates(items)
    requires AddMajor(JArray(items), input).Some?
    ensures NoDuplicates(AddMajor(JArray(items), input).value.items)
  {
    ToggleNoDuplicates(items, JString(Trim(input)));
  }

  /** Removing a major that was just added restores the list. */
  lemma AddThenRemove(items: seq<Json>, input: string)
    requires AddMajor(JArray(items), input).Some?
    ensures RemoveMajor(AddMajor(JArray(items), input).value, Trim(input)) == Some(JArray(items))
  {
    var x := JString(Trim(input));
    RemoveAppended(items, x);
    RemoveAbsent(items, x);
  }

  /**
   * The submitted payload: the form as it is, except that a falsy
   * `gpa_requirement` (also a missing one) is sent as null.
   */
  function Payload(form: Form): (p: map<string, Json>)
    ensures p.Keys == form.Keys + {"gpa_requirement"}
    ensures forall k :: k in form && k != "gpa_requirement" ==> p[k] == form[k]
    ensures !Falsy(p["gpa_requirement"]) || p["gpa_requirement"] == JNull
    ensures "gpa_requirement" in form && !Falsy(form["gpa_requirement"]) ==>
      p["gpa_requirement"] == form["gpa_requirement"]
    ensures !("gpa_requirement" in form && !Falsy(form["gpa_requirement"])) ==>
      p["gpa_requirement"] == JNull
  {
    var gpa := if "gpa_requirement" in form then Some(form["gpa_requirement"]) else None;
    form["gpa_requirement" := Or(gpa, JNull)]
  }

  /** Building the payload of a payload changes nothing. */
  lemma PayloadIdempotent(form: Form)
    ensures Payload(Payload(form)) == Payload(form)
  {
  }

  /** A blank create form is submitted with a null GPA requirement. */
  lemma BlankGpaSubmittedAsNull()
    ensures Payload(BlankCreateForm)["gpa_requirement"] == JNull
  {
  }

  /**
   * `oppData.deadline ? oppData.deadline.split('T')[0] : ""`: None when the
   * deadline is truthy but not a string (it has no `split`, so the load
   * throws).
   */
  function LoadDeadline(deadline: Option<Json>): (r: Option<Json>)
    ensures deadline.None? || Falsy(deadline.value) ==> r == Some(JString(""))
    ensures deadline.Some? && !Falsy(deadline.value) && !deadline.value.JString? ==> r.None?
    ensures deadline.Some? && deadline.value.JString? && deadline.value.s != "" ==>
      var s := deadline.value.s;
      && r.Some? && r.value.JString? && 'T' !in r.value.s
      && StartsWith(s, r.value.s) && (|r.value.s| < |s| ==> s[|r.value.s|] == 'T')
  {
    if deadline.None? || Falsy(deadline.value) then Some(JString(""))
    else match deadline.value
      case JString(s) =>
        FirstPiece(s, 'T');
        Some(JString(Split(s, 'T')[0]))
      case _ => None
  }

  /** The edit form's fields other than the deadline and the majors, which default to "". */
  const PlainFields: set<string> :=
    {"title", "description", "gpa_requirement", "location", "apply_link", "compensation", "banner_url"}

  /**
   * The edit page's normalisation of a stored opportunity: each field is
   * the stored value when that is truthy and "" otherwise, the majors
   * default to [] and the deadline keeps only its date part. None when the
   * load throws: the stored value is null, or its deadline is truthy but
   * not a string; the form is then left as it was.
   */
  function LoadForm(opp: Json): (r: Option<Form>)
    ensures r.None? <==> opp.JNull? || LoadDeadline(Property(opp, "deadline")).None?
    ensures r.Some? ==> r.value.Keys == PlainFields + {"majors", "deadline"}
    ensures r.Some? ==> r.value.Keys == BlankEditForm.Keys
    ensures r.Some? ==> forall k :: k in PlainFields ==>
      if Property(opp, k).Some? && !Falsy(Property(opp, k).value) then r.value[k] == Property(opp, k).value
      else r.value[k] == JString("")
    ensures r.Some? ==> r.value["majors"] == Or(Property(opp, "majors"), JArray([]))
    ensures r.Some? ==> Some(r.value["deadline"]) == LoadDeadline(Property(opp, "deadline"))
  {
    var deadline := LoadDeadline(Property(opp, "deadline"));
    EditFormFields();
    if opp.JNull? || deadline.None? then None
    else
      var plain := map k | k in PlainFields :: Or(Property(opp, k), JString(""));
      Some(plain["majors" := Or(Property(opp, "majors"), JArray([]))]["deadline" := deadline.value])
  }

  /** The blank edit form has the plain fields, the majors and the deadline. */
  lemma EditFormFields()
    ensures BlankEditForm.Keys == PlainFields + {"majors", "deadline"}
  {
  }

  /**
   * A stored GPA requirement of 0 is loaded as "" and therefore submitted
   * as null: saving the edit form clears it.
   */
  lemma ZeroGpaSubmittedAsNull(opp: Json)
    requires Property(opp, "gpa_requirement") == Some(JNumber("0"))
    requires LoadForm(opp).Some?
    ensures LoadForm(opp).value["gpa_requirement"] == JString("")
    ensures Payload(LoadForm(opp).value)["gpa_requirement"] == JNull
  {
    assert "gpa_requirement" in PlainFields;
  }

  /**
   * `fetchOrgData`'s choice of organization: the first element of a
   * non-empty response (for a non-empty string, its first character); any
   * other response keeps the current one.
   */
  function PickOrganization(current: Option<Json>, data: Json): (r: Option<Json>)
    ensures data.JArray? && data.items != [] ==> r == Some(data.items[0])
    ensures (data.JArray? && data.items == []) || data.JNull? || data.JNumber? || data.JBool? || data.JObject? ==>
      r == current
  {
    match data
    case JArray(items) => if |items| > 0 then Some(items[0]) else current
    case JString(s) => if |s| > 0 then Some(JString([s[0]])) else current
    case _ => current
  }

  /** The page state that the form's handlers change. */
  class OpportunityEditor {
    var form: Form
    var majorInput: string
    var organization: Option<Json>

    /** The create page's state. */
    constructor ForCreate()
      ensures form == BlankCreateForm && majorInput == "" && organization.None?
    {
      form := BlankCreateForm;
      majorInput := "";
      organization := None;
    }

    /** The edit page's state before its data arrives. */
    constructor ForEdit()
      ensures form == BlankEditForm && majorInput == "" && organization.None?
    {
      form := BlankEditForm;
      majorInput := "";
      organization := None;
    }

    /**
     * `handleAddMajor`: when the trimmed input is added, only the majors
     * change and the input is cleared; otherwise nothing changes.
     */
    method HandleAddMajor()
      modifies this
      ensures organization == old(organization)
      ensures var r := AddMajor(Majors(old(form)), old(majorInput));
        && (r.Some? ==> form == old(form)["majors" := r.value] && majorInput == "")
        && (r.None? ==> form == old(form) && majorInput == old(majorInput))
    {
      var added := AddMajor(Majors(form), majorInput);
      if added.Some? {
        form := form["majors" := added.value];
        majorInput := "";
      }
    }

    /** `handleRemoveMajor`: only the majors change, as `RemoveMajor` says. */
    method HandleRemoveMajor(major: string)
      modifies this
      ensures organization == old(organization) && majorInput == old(majorInput)
      ensures var r := RemoveMajor(Majors(old(form)), major);
        && (r.Some? ==> form == old(form)["majors" := r.value])
        && (r.None? ==> form == old(form))
    {
      var removed := RemoveMajor(Majors(form), major);
      if removed.Some? {
        form := form["majors" := removed.value];
      }
    }

    /** The edit page's `fetchData`: the form becomes the normalised opportunity, unless loading throws. */
    method LoadOpportunity(opp: Json)
      modifies this
      ensures organization == old(organization) && majorInput == old(majorInput)
      ensures LoadForm(opp).Some? ==> form == LoadForm(opp).value
      ensures LoadForm(opp).None? ==> form == old(form)
    {
      var loaded := LoadForm(opp);
      if loaded.Some? {
        form := loaded.value;
      }
    }

    /**
     * The edit page's banner callback. The upload widget holds the callback
     * of the render in which the upload started, so the form it spreads is
     * `captured`, the form of that render, not the current one: edits made
     * while the upload was in flight are lost, and only `banner_url` differs
     * from `captured`.
     */
    method HandleBannerUploaded(captured: Form, url: string)
      modifies this
      ensures organization == old(organization) && majorInput == old(majorInput)
      ensures form == captured["banner_url" := JString(url)]
      ensures forall k :: k in captured && k != "banner_url" ==> form[k] == captured[k]
    {
      form := captured["banner_url" := JString(url)];
    }

    /** The create page's `fetchOrgData`, given the parsed response. */
    method FetchOrgData(data: Json)
      modifies this
      ensures form == old(form) && majorInput == old(majorInput)
      ensures organization == PickOrganization(old(organization), data)
    {
      organization := PickOrganization(organization, data);
    }
  }
}
