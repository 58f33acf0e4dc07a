/**
 * The user sync handler (POST /api/auth/sync): it turns the caller's bearer
 * token into the caller's row of the users table, inserting a row with
 * placeholder fields on the first request for a subject, returning the
 * stored row on later ones, and refusing a request whose claimed role
 * differs from the stored role. A process-wide lock table keeps two
 * requests for one subject from both inserting.
 *
 * The handler is modelled sequentially: `SyncService` holds the users table
 * and the lock table; a request that finds its subject locked (which in the
 * running server means another request for it is in flight) does a fresh
 * lookup instead of waiting. `Reconcile` is the specification of one
 * request, and the lemmas relate several.
 */
module AuthSync {
  import opened Wrappers
  import opened Identity

  /** A row of the users table as the sync handler reads and creates it. */
  datatype UserRow = UserRow(id: nat, authId: string, email: string, name: string, role: string)

  /** The placeholder a new row carries for its email and name. */
  const Placeholder := "N/A"

  /** The row inserted on a subject's first sync. */
  function NewUser(id: nat, sub: string, role: string): UserRow {
    UserRow(id, sub, Placeholder, Placeholder, role)
  }

  /**
   * What the identity provider answers for a token: `userinfo` is the body
   * of a successful userinfo response (None when the response is not ok),
   * `decodeLocal` the payload decoded from the token itself (None when
   * splitting, base64 decoding or JSON parsing throws).
   */
  datatype Upstream = Upstream(userinfo: string -> Option<Profile>, decodeLocal: string -> Option<Profile>)

  /** Whether the store's lookup and insert fail for this request. */
  datatype StoreFaults = StoreFaults(lookupFails: bool, insertFails: bool)

  /** One request: its Authorization header and what its collaborators answer. */
  datatype SyncRequest = SyncRequest(header: Option<string>, upstream: Upstream, faults: StoreFaults)

  /** How a request's caller is identified, or why it is not. */
  datatype Caller =
    | NoHeader            // no Authorization header, or an empty one
    | NoProfile           // userinfo failed and the token does not decode
    | NullPayload         // the profile is JSON null: reading `sub` throws
    | NoSubject           // the profile has no (truthy) `sub`
    | Caller(sub: string, role: string)

  /** The handler's responses. */
  datatype SyncOutcome =
    | NoToken                                                 // 401 "No token provided"
    | ProfileFailed                                           // 401 "Failed to fetch user info from Auth0"
    | SubjectMissing                                          // 400 "Auth0 user missing sub"
    | SyncCrashed                                             // 500 "Failed to sync user"
    | LookupFailed                                            // 500 "Database error checking user"
    | InsertFailed                                            // 500 "User insert failed"
    | RoleConflict(existingRole: string, claimedRole: string) // 409 "role_conflict"
    | Synced(data: Option<UserRow>)                           // 200 "User synced"

  /** The HTTP status of each response. */
  function Status(o: SyncOutcome): (code: nat)
    ensures code == 200 <==> o.Synced?
    ensures code == 409 <==> o.RoleConflict?
    ensures code == 401 <==> o.NoToken? || o.ProfileFailed?
  {
    match o
    case NoToken => 401
    case ProfileFailed => 401
    case SubjectMissing => 400
    case SyncCrashed => 500
    case LookupFailed => 500
    case InsertFailed => 500
    case RoleConflict(_, _) => 409
    case Synced(_) => 200
  }

  /**
   * The message of a role conflict: it names the stored role and the kind
   * of account the caller asked for.
   */
  function ConflictMessage(existingRole: string, claimedRole: string): (m: string)
    ensures Text.StartsWith(m, "This email is already registered as a " + existingRole + ".")
    ensures claimedRole == "org" ==> Text.EndsWith(m, "sign up as an organization.")
    ensures claimedRole != "org" ==> Text.EndsWith(m, "sign up as a student.")
  {
    var opening := "This email is already registered as a " + existingRole + ".";
    var closing := if claimedRole == "org" then "sign up as an organization." else "sign up as a student.";
    var m := opening + " Please use a different email to " + closing;
    assert m[..|opening|] == opening;
    assert m[|m| - |closing|..] == closing;
    m
  }

  /**
   * The profile the handler works from: the userinfo response when it is
   * ok, and only otherwise the payload decoded from the token. Without a
   * token there is nothing to decode (`token.split` throws).
   */
  function FetchProfile(token: Option<string>, up: Upstream): (p: Option<Profile>)
    ensures up.userinfo(TokenText(token)).Some? ==> p == up.userinfo(TokenText(token))
    ensures up.userinfo(TokenText(token)).None? && token.Some? ==> p == up.decodeLocal(token.value)
    ensures up.userinfo(TokenText(token)).None? && token.None? ==> p.None?
  {
    match up.userinfo(TokenText(token))
    case Some(p) => Some(p)
    case None => if token.Some? then up.decodeLocal(token.value) else None
  }

  /** Identifies the caller: header check, profile, subject, claimed role. */
  function Identify(header: Option<string>, up: Upstream): (c: Caller)
    ensures c == NoHeader <==> !Present(header)
    ensures var p := FetchProfile(BearerToken(header), up);
      && (c == NoProfile <==> Present(header) && p.None?)
      && (c == NullPayload <==> Present(header) && p == Some(NullProfile))
      && (c == NoSubject <==> Present(header) && p.Some? && p.value.Object? && !Present(p.value.claims.sub))
      && (c.Caller? <==> Present(header) && p.Some? && p.value.Object? && Present(p.value.claims.sub))
      && (c.Caller? ==> c.sub == p.value.claims.sub.value && c.role == ClaimedRole(p.value.claims))
    ensures c.Caller? ==> c.sub != "" && c.role != ""
  {
    if !Present(header) then NoHeader
    else
      match FetchProfile(BearerToken(header), up)
      case None => NoProfile
      case Some(NullProfile) => NullPayload
      case Some(Object(claims)) =>
        if !Present(claims.sub) then NoSubject else Caller(claims.sub.value, ClaimedRole(claims))
  }

  /** When userinfo answers, the locally decoded payload plays no part. */
  lemma UserinfoFirst(header: Option<string>, up: Upstream, decode: string -> Option<Profile>)
    requires up.userinfo(TokenText(BearerToken(header))).Some?
    ensures Identify(header, up) == Identify(header, Upstream(up.userinfo, decode))
  {
  }

  /** The users table (keyed by auth_id) and the next id the store hands out. */
  datatype Users = Users(rows: map<string, UserRow>, nextId: nat)

  /**
   * The table's invariant: each row sits under its own auth_id, so there is
   * at most one row per subject, and ids are distinct and below `nextId`.
   */
  predicate WellFormed(u: Users) {
    && (forall k :: k in u.rows ==> u.rows[k].authId == k && u.rows[k].id < u.nextId)
    && (forall k, k' :: k in u.rows && k' in u.rows && k != k' ==> u.rows[k].id != u.rows[k'].id)
  }

  /** `.select("*").eq("auth_id", sub)`: the row of a subject, if any. */
  function Find(u: Users, sub: string): Option<UserRow> {
    if sub in u.rows then Some(u.rows[sub]) else None
  }

  /** A response with the table after the request. */
  datatype Step = Step(outcome: SyncOutcome, users: Users)

  /**
   * One request, as the handler runs it when `locks` are the subjects
   * whose sync is in flight.
   */
  function Reconcile(u: Users, locks: set<string>, req: SyncRequest): (r: Step)
    // No Authorization header: 401, and nothing is read or written.
    ensures !Present(req.header) ==> r == Step(NoToken, u)
    // An unidentified caller gets 401, 400 or 500 and writes nothing.
    ensures !Identify(req.header, req.upstream).Caller? ==> r.users == u && Status(r.outcome) in {400, 401, 500}
    // No existing row is ever changed: in particular its role is not.
    ensures forall k :: k in u.rows ==> k in r.users.rows && r.users.rows[k] == u.rows[k]
    // At most one row is added: the caller's, with placeholder fields and the claimed role.
    ensures r.users != u ==>
      var c := Identify(req.header, req.upstream);
      && c.Caller? && c.sub !in u.rows && c.sub !in locks
      && r.users == Users(u.rows[c.sub := NewUser(u.nextId, c.sub, c.role)], u.nextId + 1)
      && r.outcome == Synced(Some(NewUser(u.nextId, c.sub, c.role)))
    // A conflict leaves the table alone and reports the stored and the claimed role.
    ensures r.outcome.RoleConflict? ==>
      var c := Identify(req.header, req.upstream);
      && r.users == u && c.Caller? && c.sub in u.rows
      && r.outcome == RoleConflict(u.rows[c.sub].role, c.role) && c.role != u.rows[c.sub].role
    // A subject with a sync in flight only reads, without comparing roles.
    ensures Identify(req.header, req.upstream).Caller? && Identify(req.header, req.upstream).sub in locks ==>
      r == Step(Synced(if req.faults.lookupFails then None else Find(u, Identify(req.header, req.upstream).sub)), u)
    // A stored row with the claimed role is returned as it is.
    ensures var c := Identify(req.header, req.upstream);
      c.Caller? && c.sub !in locks && !req.faults.lookupFails && c.sub in u.rows && u.rows[c.sub].role == c.role ==>
        r == Step(Synced(Some(u.rows[c.sub])), u)
    // A failed lookup, or a failed insert for an unseen subject, is a 500 that writes nothing.
    ensures var c := Identify(req.header, req.upstream);
      c.Caller? && c.sub !in locks && req.faults.lookupFails ==> r == Step(LookupFailed, u) && Status(r.outcome) == 500
    ensures var c := Identify(req.header, req.upstream);
      c.Caller? && c.sub !in locks && !req.faults.lookupFails && c.sub !in u.rows && req.faults.insertFails ==>
        r == Step(InsertFailed, u) && Status(r.outcome) == 500
    ensures WellFormed(u) ==> WellFormed(r.users)
  {
    match Identify(req.header, req.upstream)
    case NoHeader => Step(NoToken, u)
    case NoProfile => Step(ProfileFailed, u)
    case NullPayload => Step(SyncCrashed, u)
    case NoSubject => Step(SubjectMissing, u)
    case Caller(sub, role) =>
      if sub in locks then
        Step(Synced(if req.faults.lookupFails then None else Find(u, sub)), u)
      else if req.faults.lookupFails then
        Step(LookupFailed, u)
      else if sub in u.rows then
        if u.rows[sub].role != role then Step(RoleConflict(u.rows[sub].role, role), u)
        else Step(Synced(Some(u.rows[sub])), u)
      else if req.faults.insertFails then
        Step(InsertFailed, u)
      else
        var row := NewUser(u.nextId, sub, role);
        Step(Synced(Some(row)), Users(u.rows[sub := row], u.nextId + 1))
  }

  /**
   * A first request for an unseen subject that meets no store failure and
   * no sync in flight creates the row: auth_id is the subject, email and
   * name are "N/A", and the role is the claimed role.
   */
  lemma FirstSyncCreates(u: Users, locks: set<string>, req: SyncRequest)
    requires Identify(req.header, req.upstream).Caller?
    requires Identify(req.header, req.upstream).sub !in u.rows.Keys + locks
    requires req.faults == StoreFaults(false, false)
    ensures var c := Identify(req.header, req.upstream);
      var r := Reconcile(u, locks, req);
      && r.outcome.Synced? && r.outcome.data.Some?
      && r.outcome.data.value.authId == c.sub
      && r.outcome.data.value.email == "N/A" && r.outcome.data.value.name == "N/A"
      && r.outcome.data.value.role == c.role
      && Find(r.users, c.sub) == r.outcome.data
  {
  }

  /**
   * Idempotent sync: repeating a request that succeeded (with no sync in
   * flight and no store failure) returns the same row, with the same id,
   * and writes nothing.
   */
  lemma SyncIdempotent(u: Users, locks: set<string>, req: SyncRequest)
    requires Identify(req.header, req.upstream).Caller?
    requires Identify(req.header, req.upstream).sub !in locks
    requires req.faults == StoreFaults(false, false)
    requires Reconcile(u, locks, req).outcome.Synced?
    ensures var first := Reconcile(u, locks, req);
      Reconcile(first.users, locks, req) == Step(first.outcome, first.users)
  {
  }

  /** The table after a run of requests, one after the other. */
  function Replay(u: Users, locks: set<string>, reqs: seq<SyncRequest>): Users
    decreases |reqs|
  {
    if reqs == [] then u else Replay(Reconcile(u, locks, reqs[0]).users, locks, reqs[1..])
  }

  /**
   * However many requests run, every row present at the start is still
   * there unchanged (its role in particular), and the table keeps one row
   * per subject.
   */
  lemma {:induction false} ReplayKeepsRows(u: Users, locks: set<string>, reqs: seq<SyncRequest>)
    requires WellFormed(u)
    ensures WellFormed(Replay(u, locks, reqs))
    ensures forall k :: k in u.rows ==> k in Replay(u, locks, reqs).rows && Replay(u, locks, reqs).rows[k] == u.rows[k]
    decreases |reqs|
  {
    if reqs != [] {
      ReplayKeepsRows(Reconcile(u, locks, reqs[0]).users, locks, reqs[1..]);
    }
  }

  /**
   * Role immutability across requests: once a subject has a row, a later
   * request claiming another role is refused with 409, however many
   * requests ran in between.
   */
  lemma {:induction false} RoleNeverChanges(u: Users, locks: set<string>, reqs: seq<SyncRequest>, req: SyncRequest)
    requires WellFormed(u)
    requires Identify(req.header, req.upstream).Caller?
    requires Identify(req.header, req.upstream).sub in u.rows
    requires Identify(req.header, req.upstream).sub !in locks
    requires !req.faults.lookupFails
    requires u.rows[Identify(req.header, req.upstream).sub].role != Identify(req.header, req.upstream).role
    ensures var later := Reconcile(Replay(u, locks, reqs), locks, req);
      && later.outcome == RoleConflict(u.rows[Identify(req.header, req.upstream).sub].role, Identify(req.header, req.upstream).role)
      && Status(later.outcome) == 409
  {
    ReplayKeepsRows(u, locks, reqs);
  }

  /** The handler's process: the users table and the lock table. */
  class SyncService {
    var users: map<string, UserRow>
    var nextId: nat
    var syncLocks: set<string>

    ghost predicate Valid()
      reads this
    {
      WellFormed(Users(users, nextId))
    }

    constructor()
      ensures Valid()
      ensures users == map[] && nextId == 0 && syncLocks == {}
    {
      users := map[];
      nextId := 0;
      syncLocks := {};
    }

    /**
     * POST /sync. Returns the response; the users table changes as
     * `Reconcile` says, and the lock table is as before on every exit
     * (a lock registered by this request is released, other subjects'
     * locks are untouched).
     */
    method Sync(req: SyncRequest) returns (outcome: SyncOutcome)
      requires Valid()
      modifies this
      ensures Valid()
      ensures syncLocks == old(syncLocks)
      ensures Step(outcome, Users(users, nextId)) == Reconcile(old(Users(users, nextId)), old(syncLocks), req)
    {
      var caller := IdentifyCaller(req);
      match caller {
        case NoHeader => return NoToken;
        case NoProfile => return ProfileFailed;
        case NullPayload => return SyncCrashed;
        case NoSubject => return SubjectMissing;
        case Caller(sub, role) =>
          if sub in syncLocks {
            // Another sync for this subject is in flight: read what it wrote.
            var found := if req.faults.lookupFails then None else Find(Users(users, nextId), sub);
            return Synced(found);
          }
          syncLocks := syncLocks + {sub};
          if req.faults.lookupFails {
            outcome := LookupFailed;
          } else if sub in users {
            var existing := users[sub];
            if existing.role != role {
              outcome := RoleConflict(existing.role, role);
            } else {
              outcome := Synced(Some(existing));
            }
          } else if req.faults.insertFails {
            outcome := InsertFailed;
          } else {
            var row := InsertUser(sub, role);
            outcome := Synced(Some(row));
          }
          // finally: release the lock
          syncLocks := syncLocks - {sub};
      }
    }

    /**
     * The handler's first steps: the header check, the userinfo request,
     * the local decode when userinfo fails, the subject and the claimed role.
     */
    static method IdentifyCaller(req: SyncRequest) returns (caller: Caller)
      ensures caller == Identify(req.header, req.upstream)
    {
      if !Present(req.header) {
        return NoHeader;
      }
      var token := BearerToken(req.header);
      var profile: Profile;
      var answer := req.upstream.userinfo(TokenText(token));
      if answer.Some? {
        profile := answer.value;
      } else {
        if token.None? {
          return NoProfile;
        }
        var decoded := req.upstream.decodeLocal(token.value);
        if decoded.None? {
          return NoProfile;
        }
        profile := decoded.value;
      }
      if profile.NullProfile? {
        return NullPayload;
      }
      if !Present(profile.claims.sub) {
        return NoSubject;
      }
      caller := Caller(profile.claims.sub.value, ClaimedRole(profile.claims));
    }

    /** The insert, which only runs while the subject's lock is held. */
    method InsertUser(sub: string, role: string) returns (row: UserRow)
      requires Valid()
      requires sub in syncLocks && sub !in users
      modifies this`users, this`nextId
      ensures Valid()
      ensures row == NewUser(old(nextId), sub, role)
      ensures users == old(users)[sub := row] && nextId == old(nextId) + 1
    {
      row := NewUser(nextId, sub, role);
      users := users[sub := row];
      nextId := nextId + 1;
    }
  }
}
