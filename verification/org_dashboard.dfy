/**
 * The organization dashboard: a form that posts a new opportunity and the
 * list of the organization's active opportunities, each with a button
 * that closes it.
 */
module OrgDashboard {
  import opened Wrappers
  import opened Lists
  import opened Identity
  import opened Listings

  /** What the page renders. */
  datatype View = PleaseLogIn | AccessDenied | Dashboard

  /**
   * The page's gate: sign-in first; then a user object whose role claim is
   * not "org" is denied. With no user object at all the dashboard shows.
   */
  function OrgView(isAuthenticated: bool, user: Option<Claims>): (v: View)
    ensures v == PleaseLogIn <==> !isAuthenticated
    ensures v == AccessDenied <==> isAuthenticated && user.Some? && user.value.role != Some("org")
    ensures isAuthenticated && user.None? ==> v == Dashboard
  {
    if !isAuthenticated then PleaseLogIn
    else if user.Some? && user.value.role != Some("org") then AccessDenied
    else Dashboard
  }

  /** The create form: title, description, GPA requirement, link and comma-separated majors. */
  type OrgForm = map<string, string>

  /** The form's initial value, which a successful create restores. */
  const BlankOrgForm: OrgForm :=
    map["title" := "", "description" := "", "gpa_requirement" := "", "link" := "", "majors" := ""]

  /** The dashboard's state. */
  class OrgPage {
    var opportunities: seq<Listing>
    var form: OrgForm

    constructor()
      ensures opportunities == [] && form == BlankOrgForm
    {
      opportunities := [];
      form := BlankOrgForm;
    }

    /**
     * The load after sign-in: the active listings of the response, in
     * order. None stands for a response that is not an array (its `filter`
     * throws), which leaves the list as it was.
     */
    method Load(isAuthenticated: bool, data: Option<seq<Listing>>)
      modifies this
      ensures form == old(form)
      ensures isAuthenticated && data.Some? ==> opportunities == ActiveOnly(data.value)
      ensures !isAuthenticated || data.None? ==> opportunities == old(opportunities)
    {
      if !isAuthenticated || data.None? {
        return;
      }
      opportunities := ActiveOnly(data.value);
    }

    /**
     * `handleSubmit`: the first row of the response is appended at the end
     * and the form is reset. None stands for a request or a response body
     * that throws, which changes nothing.
     */
    method HandleCreate(response: Option<seq<Listing>>)
      requires response.Some? ==> response.value != []
      modifies this
      ensures response.Some? ==> opportunities == old(opportunities) + [response.value[0]] && form == BlankOrgForm
      ensures response.None? ==> opportunities == old(opportunities) && form == old(form)
    {
      if response.None? {
        return;
      }
      opportunities := opportunities + [response.value[0]];
      form := BlankOrgForm;
    }

    /**
     * The close button: the listing leaves the list (the server only marks
     * it closed); a request that throws leaves the list as it was.
     */
    method Close(id: string, requestThrows: bool)
      modifies this
      ensures form == old(form)
      ensures !requestThrows ==> opportunities == WithoutListing(old(opportunities), id)
      ensures requestThrows ==> opportunities == old(opportunities)
    {
      if requestThrows {
        return;
      }
      opportunities := WithoutListing(opportunities, id);
    }
  }

  /** Closing from the dashboard keeps a list of active listings active, minus the closed one. */
  lemma CloseKeepsActive(listings: seq<Listing>, id: string)
    requires forall l :: l in listings ==> IsActive(l)
    ensures forall l :: l in WithoutListing(listings, id) ==> IsActive(l) && l.id != id
  {
  }
}
