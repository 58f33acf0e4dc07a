/**
 * The admin dashboard: visible only to a signed-in user whose role claim
 * is "admin"; it lists the users not yet verified, with a button that
 * verifies one, and every opportunity, with a button that closes an
 * active one.
 */
module AdminDashboard {
  import opened Wrappers
  import opened Lists
  import opened Identity
  import opened Listings

  /** A users row as the dashboard lists it; a null `verified` is None. */
  datatype Account = Account(id: string, name: string, email: string, role: string, verified: Option<bool>)

  /** `user?.[role claim] === "admin"`: a missing user or claim is not an admin. */
  predicate IsAdmin(user: Option<Claims>) {
    user.Some? && user.value.role == Some("admin")
  }

  /** What the page renders. */
  datatype View = PleaseLogIn | AccessDenied | Dashboard

  /** The page's gate: sign-in first, then the admin role. */
  function AdminView(isAuthenticated: bool, user: Option<Claims>): (v: View)
    ensures v == Dashboard <==> isAuthenticated && IsAdmin(user)
    ensures v == PleaseLogIn <==> !isAuthenticated
  {
    if !isAuthenticated then PleaseLogIn
    else if !IsAdmin(user) then AccessDenied
    else Dashboard
  }

  /** `!u.verified`. */
  predicate Unverified(a: Account) {
    a.verified != Some(true)
  }

  /** The rows of the users table: the accounts not yet verified, in order. */
  function UnverifiedAccounts(accounts: seq<Account>): (r: seq<Account>)
    ensures IsSubsequence(r, accounts)
    ensures forall a :: a in r <==> a in accounts && Unverified(a)
    ensures forall a :: multiset(r)[a] == if Unverified(a) then multiset(accounts)[a] else 0
  {
    Filter(accounts, Unverified)
  }

  /**
   * `prev.map(user => user.id === id ? { ...user, verified: true } : user)`:
   * every account with that id is verified, the others are kept, in place.
   */
  function MarkVerified(accounts: seq<Account>, id: string): (r: seq<Account>)
    ensures |r| == |accounts|
    ensures forall i :: 0 <= i < |r| ==>
      && (accounts[i].id == id ==> r[i] == accounts[i].(verified := Some(true)))
      && (accounts[i].id != id ==> r[i] == accounts[i])
  {
    if accounts == [] then []
    else
      var a := accounts[0];
      [if a.id == id then a.(verified := Some(true)) else a] + MarkVerified(accounts[1..], id)
  }

  /**
   * Verifying an account takes it, and only it, off the unverified list:
   * the list afterwards is the list before without that id.
   */
  lemma {:induction false} VerifyLeavesList(accounts: seq<Account>, id: string)
    ensures UnverifiedAccounts(MarkVerified(accounts, id))
         == Filter(UnverifiedAccounts(accounts), (a: Account) => a.id != id)
  {
    if accounts != [] {
      VerifyLeavesList(accounts[1..], id);
      var a := accounts[0];
      var rest := MarkVerified(accounts[1..], id);
      assert MarkVerified(accounts, id) == [if a.id == id then a.(verified := Some(true)) else a] + rest;
      assert MarkVerified(accounts, id)[1..] == rest;
      var u := UnverifiedAccounts(accounts[1..]);
      if Unverified(a) {
        assert UnverifiedAccounts(accounts) == [a] + u;
        assert ([a] + u)[1..] == u;
      }
    }
  }

  /** The dashboard's state once the admin's data has loaded. */
  class AdminPage {
    var accounts: seq<Account>
    var opportunities: seq<Listing>

    constructor()
      ensures accounts == [] && opportunities == []
    {
      accounts := [];
      opportunities := [];
    }

    /** The data load: it happens only for a signed-in admin. */
    method Load(isAuthenticated: bool, user: Option<Claims>, accountsData: seq<Account>, listingsData: seq<Listing>)
      modifies this
      ensures isAuthenticated && IsAdmin(user) ==> accounts == accountsData && opportunities == listingsData
      ensures !(isAuthenticated && IsAdmin(user)) ==> accounts == old(accounts) && opportunities == old(opportunities)
    {
      if !isAuthenticated || !IsAdmin(user) {
        return;
      }
      accounts := accountsData;
      opportunities := listingsData;
    }

    /**
     * The "Not verified" button: an ok response verifies the account; a
     * response that is not ok, or a request that throws, changes nothing.
     */
    method Verify(id: string, ok: bool)
      modifies this
      ensures opportunities == old(opportunities)
      ensures ok ==> accounts == MarkVerified(old(accounts), id)
      ensures !ok ==> accounts == old(accounts)
    {
      if !ok {
        return;
      }
      accounts := MarkVerified(accounts, id);
    }

    /**
     * The "Close" button: the listing is closed whatever the response says;
     * only a request that throws (token or network) leaves it as it was.
     */
    method Close(id: string, requestThrows: bool)
      modifies this
      ensures accounts == old(accounts)
      ensures !requestThrows ==> opportunities == CloseListing(old(opportunities), id)
      ensures requestThrows ==> opportunities == old(opportunities)
    {
      if requestThrows {
        return;
      }
      opportunities := CloseListing(opportunities, id);
    }
  }
}
