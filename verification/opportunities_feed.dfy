/**
 * The opportunities feed: the list of opportunities narrowed by a search
 * term, and the bookmark button that saves or unsaves an opportunity for
 * the signed-in user.
 */
module OpportunitiesFeed {
  import opened Wrappers
  import opened Text
  import opened Lists
  import opened Identity

  /**
   * An opportunity as the feed reads it; a missing (null or undefined)
   * field is None. The GPA requirement is kept as the text its toString
   * gives.
   */
  datatype Opportunity = Opportunity(
    id: string,
    title: Option<string>,
    description: Option<string>,
    gpaRequirement: Option<string>,
    majors: Option<seq<string>>)

  /** `debouncedSearch?.toLowerCase() || ""`: the lowercased term, "" when missing. */
  function SearchTerm(search: Option<string>): (term: string)
    ensures search.None? ==> term == ""
    ensures search.Some? ==> |term| == |search.value|
    ensures search.Some? ==> forall i :: 0 <= i < |term| ==> term[i] == LowerChar(search.value[i])
  {
    if search.Some? then ToLower(search.value) else ""
  }

  /** `field?.toLowerCase().includes(term)`: false when the field is missing. */
  predicate FieldMatches(field: Option<string>, term: string) {
    field.Some? && Contains(ToLower(field.value), term)
  }

  /**
   * An opportunity matches when the term occurs in its lowercased title,
   * description or one of its majors, or in its GPA requirement as written.
   */
  predicate Matches(o: Opportunity, term: string) {
    || FieldMatches(o.title, term)
    || FieldMatches(o.description, term)
    || (o.gpaRequirement.Some? && Contains(o.gpaRequirement.value, term))
    || (o.majors.Some? && exists i :: 0 <= i < |o.majors.value| && Contains(ToLower(o.majors.value[i]), term))
  }

  /**
   * The feed's `filtered` list: the matching opportunities, in their
   * order, each kept as often as it occurs.
   */
  function Filtered(opportunities: seq<Opportunity>, search: Option<string>): (r: seq<Opportunity>)
    ensures IsSubsequence(r, opportunities)
    ensures forall o :: o in r <==> o in opportunities && Matches(o, SearchTerm(search))
    ensures forall o :: multiset(r)[o] == if Matches(o, SearchTerm(search)) then multiset(opportunities)[o] else 0
  {
    Filter(opportunities, o => Matches(o, SearchTerm(search)))
  }

  /** With no search term, every opportunity that has a title is listed. */
  lemma EmptySearchKeepsTitled(opportunities: seq<Opportunity>, search: Option<string>)
    requires search.None? || search.value == ""
    ensures forall o :: o in opportunities && o.title.Some? ==> o in Filtered(opportunities, search)
  {
    assert SearchTerm(search) == "";
    forall o | o in opportunities && o.title.Some?
      ensures Matches(o, "")
    {
      ContainsEmpty(ToLower(o.title.value));
    }
  }

  /** Searching is case-insensitive in the term: "GPA" and "gpa" list the same opportunities. */
  lemma SearchIgnoresTermCase(opportunities: seq<Opportunity>, a: string, b: string)
    requires ToLower(a) == ToLower(b)
    ensures Filtered(opportunities, Some(a)) == Filtered(opportunities, Some(b))
  {
  }

  /** The feed's bookmark state. */
  class Feed {
    var saved: seq<string>
    var userId: Option<string>

    constructor()
      ensures saved == [] && userId.None?
    {
      saved := [];
      userId := None;
    }

    /**
     * `handleSave`: for a signed-in user whose id is known, a saved id is
     * unsaved (every copy dropped, the rest in order) and an unsaved one
     * appended at the end. A signed-out user, an unknown user id or a
     * request that throws leaves the list as it was. A response that is
     * not ok still updates the list, as the component does not check it.
     */
    method HandleSave(isAuthenticated: bool, opportunityId: string, requestThrows: bool)
      modifies this
      ensures userId == old(userId)
      ensures !isAuthenticated || !Present(userId) || requestThrows ==> saved == old(saved)
      ensures isAuthenticated && Present(userId) && !requestThrows ==>
        saved == Toggle(old(saved), opportunityId)
    {
      if !isAuthenticated || !Present(userId) {
        return;
      }
      var isAlreadySaved := opportunityId in saved;
      if requestThrows {
        return;
      }
      if isAlreadySaved {
        saved := RemoveAll(saved, opportunityId);
      } else {
        saved := saved + [opportunityId];
      }
    }
  }
}
