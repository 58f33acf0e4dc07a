/**
 * Opportunity listings as the dashboards hold them, and the list updates
 * the dashboards apply to them: keeping the active ones, closing one by
 * id in place, and dropping one by id.
 */
module Listings {
  import opened Lists

  /** An opportunity row as a dashboard lists it. */
  datatype Listing = Listing(id: string, title: string, status: string)

  /** `status === "active"`: only these are offered a close button. */
  predicate IsActive(l: Listing) {
    l.status == "active"
  }

  /** `data.filter(opp => opp.status === "active")`. */
  function ActiveOnly(listings: seq<Listing>): (r: seq<Listing>)
    ensures IsSubsequence(r, listings)
    ensures forall l :: l in r <==> l in listings && IsActive(l)
    ensures forall l :: multiset(r)[l] == if IsActive(l) then multiset(listings)[l] else 0
  {
    Filter(listings, IsActive)
  }

  /**
   * `prev.map(o => o.id === id ? { ...o, status: "closed" } : o)`: every
   * listing with that id is closed, the others are kept, in place.
   */
  function CloseListing(listings: seq<Listing>, id: string): (r: seq<Listing>)
    ensures |r| == |listings|
    ensures forall i :: 0 <= i < |r| ==>
      && r[i].id == listings[i].id && r[i].title == listings[i].title
      && (listings[i].id == id ==> r[i].status == "closed")
      && (listings[i].id != id ==> r[i] == listings[i])
  {
    if listings == [] then []
    else
      var l := listings[0];
      [if l.id == id then l.(status := "closed") else l] + CloseListing(listings[1..], id)
  }

  /** After closing, no listing with that id is active, so none offers a close button. */
  lemma ClosedIsNotActive(listings: seq<Listing>, id: string)
    ensures forall l :: l in CloseListing(listings, id) && l.id == id ==> !IsActive(l)
  {
  }

  /** Closing twice is closing once. */
  lemma {:induction false} CloseIdempotent(listings: seq<Listing>, id: string)
    ensures CloseListing(CloseListing(listings, id), id) == CloseListing(listings, id)
  {
    if listings != [] {
      CloseIdempotent(listings[1..], id);
      assert CloseListing(listings, id)[1..] == CloseListing(listings[1..], id);
    }
  }

  /** `prev.filter(o => o.id !== id)`: the listings with that id dropped, the rest kept in order. */
  function WithoutListing(listings: seq<Listing>, id: string): (r: seq<Listing>)
    ensures IsSubsequence(r, listings)
    ensures forall l :: l in r <==> l in listings && l.id != id
    ensures forall l :: multiset(r)[l] == if l.id != id then multiset(listings)[l] else 0
  {
    Filter(listings, (l: Listing) => l.id != id)
  }
}
