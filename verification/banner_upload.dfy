/**
 * The banner upload route (POST /api/upload/banner). A multipart body
 * carries an image and the entity (an organization or one of its
 * opportunities) whose banner it becomes. The multipart stage filters the
 * file by type and size; the handler then resolves the caller to an
 * organization user, validates the form fields, checks ownership, stores
 * the image under a path derived from the entity and records the image's
 * public URL on the entity's row.
 *
 * `Decide` is the validation and ownership chain as a function of the
 * request and the store's answers; `BannerStore.PostBanner` performs the
 * storage upload and the row update that follow it.
 */
module BannerUpload {
  import opened Wrappers
  import opened Text
  import opened Identity

  /** The image types the file filter accepts. */
  const AllowedMimeTypes: seq<string> := ["image/jpeg", "image/png", "image/webp", "image/gif"]

  /** The largest accepted file, in bytes (5 MB). */
  const SizeLimit: nat := 5 * 1024 * 1024

  const InvalidTypeMessage := "Invalid file type. Only JPEG, PNG, WebP, and GIF are allowed."
  const FileTooLargeMessage := "File too large"
  const UserinfoFailedMessage := "Failed to fetch Auth0 userinfo"
  const UserNotFoundMessage := "User not found"
  const NotOrgMessage := "Only organizations can upload banners"
  /** The TypeError reading `sub` of a null userinfo body (its text belongs to the JavaScript engine). */
  const NullUserMessage := "Cannot read properties of null"
  const FallbackMessage := "Failed to upload banner"
  const MissingTokenMessage := "Missing auth token"
  const FieldsRequiredMessage := "entity_type and entity_id are required"
  const BadEntityTypeMessage := "entity_type must be 'org' or 'opportunity'"
  const NoFileMessage := "No image file provided"
  const ForeignOrgMessage := "You can only upload banners for your own organization"
  const OpportunityNotFoundMessage := "Opportunity not found"
  const ForeignOpportunityMessage := "You can only upload banners for your own opportunities"

  /** An uploaded file: its client-side name, declared type and size in bytes. */
  datatype File = File(originalName: string, mimeType: string, size: nat)

  /** The file filter: exactly the four image types pass. */
  function FileFilter(mimeType: string): (accepted: bool)
    ensures accepted <==> (mimeType == "image/jpeg" || mimeType == "image/png"
                           || mimeType == "image/webp" || mimeType == "image/gif")
  {
    mimeType in AllowedMimeTypes
  }

  /**
   * The multipart stage, which runs before the handler: a rejected file
   * (wrong type, then too large) is an error that never reaches the
   * handler's own error mapping. None when the body passes.
   */
  function MultipartError(file: Option<File>): (err: Option<string>)
    ensures err.None? <==> file.None? || (FileFilter(file.value.mimeType) && file.value.size <= SizeLimit)
  {
    match file
    case None => None
    case Some(f) =>
      if !FileFilter(f.mimeType) then Some(InvalidTypeMessage)
      else if f.size > SizeLimit then Some(FileTooLargeMessage)
      else None
  }

  /**
   * The handler's catch block: an error whose message includes
   * "Invalid file type" is a 400, every other thrown error a 500.
   */
  function ErrorStatus(message: string): (status: nat)
    ensures status == 400 <==> Contains(message, "Invalid file type")
    ensures status == 400 || status == 500
  {
    if Contains(message, "Invalid file type") then 400 else 500
  }

  /** A message without a capital I cannot name an invalid file type: it is a 500. */
  lemma {:induction false} WithoutCapitalIIs500(message: string)
    requires 'I' !in message
    ensures ErrorStatus(message) == 500
  {
    NotContainsFirstChar(message, "Invalid file type");
  }

  /** A users row as `getOrgUser` selects it. */
  datatype StoredUser = StoredUser(id: string, role: string)

  /**
   * What the route's collaborators answer: the token's locally decoded
   * payload (None when decoding throws), the userinfo body (None when the
   * response is not ok), the users table by auth_id, the opportunities'
   * owning org ids, whether each select fails, and the storage's public URL
   * for a path.
   */
  datatype Env = Env(
    decodeLocal: string -> Option<Profile>,
    userinfo: string -> Option<Profile>,
    users: map<string, StoredUser>,
    userLookupFails: bool,
    opportunityOwners: map<string, string>,
    opportunityLookupFails: bool,
    publicUrl: string -> string)

  /** The subject the token itself carries: `decoded?.sub`. */
  function LocalSub(token: string, env: Env): Option<string> {
    match env.decodeLocal(token)
    case None => None
    case Some(NullProfile) => None
    case Some(Object(claims)) => claims.sub
  }

  /**
   * The subject `getOrgUser` looks up: the token's own `sub` when it is
   * truthy, and otherwise the `sub` of the userinfo body (possibly missing).
   * A userinfo response that is not ok, and a null body, are errors.
   */
  function TokenSubject(token: string, env: Env): (s: Result<Option<string>, string>)
    ensures Present(LocalSub(token, env)) ==> s == Ok(LocalSub(token, env))
    ensures !Present(LocalSub(token, env)) ==>
      && (env.userinfo(token).None? ==> s == Err(UserinfoFailedMessage))
      && (env.userinfo(token) == Some(NullProfile) ==> s == Err(NullUserMessage))
      && (env.userinfo(token).Some? && env.userinfo(token).value.Object? ==>
            s == Ok(env.userinfo(token).value.claims.sub))
  {
    var local := LocalSub(token, env);
    if Present(local) then Ok(local)
    else match env.userinfo(token)
      case None => Err(UserinfoFailedMessage)
      case Some(NullProfile) => Err(NullUserMessage)
      case Some(Object(claims)) => Ok(claims.sub)
  }

  /**
   * `getOrgUser`: the row of the token's subject, which must exist and
   * have role "org".
   */
  function GetOrgUser(token: string, env: Env): (r: Result<StoredUser, string>)
    ensures var s := TokenSubject(token, env);
      && (s.Err? ==> r == Err(s.error))
      && (s.Ok? && (env.userLookupFails || s.value.None? || s.value.value !in env.users) ==>
            r == Err(UserNotFoundMessage))
      && (r.Ok? <==> s.Ok? && s.value.Some? && !env.userLookupFails && s.value.value in env.users
                     && env.users[s.value.value].role == "org")
      && (r.Ok? ==> r.value == env.users[s.value.value])
    ensures r.Ok? ==> r.value.role == "org"
    ensures r.Err? ==> r.error in {UserinfoFailedMessage, NullUserMessage, UserNotFoundMessage, NotOrgMessage}
  {
    var sub := TokenSubject(token, env);
    if sub.Err? then Err(sub.error)
    else if env.userLookupFails || sub.value.None? || sub.value.value !in env.users then Err(UserNotFoundMessage)
    else
      var row := env.users[sub.value.value];
      if row.role != "org" then Err(NotOrgMessage) else Ok(row)
  }

  /** A token that decodes to a subject never consults userinfo. */
  lemma LocalDecodeFirst(token: string, env: Env, userinfo: string -> Option<Profile>)
    requires Present(LocalSub(token, env))
    ensures GetOrgUser(token, env) == GetOrgUser(token, env.(userinfo := userinfo))
  {
  }

  /** A caller whose row is not an organization's is refused, whatever else holds. */
  lemma NonOrgRefused(token: string, env: Env)
    requires Present(LocalSub(token, env)) && !env.userLookupFails
    requires LocalSub(token, env).value in env.users
    requires env.users[LocalSub(token, env).value].role != "org"
    ensures GetOrgUser(token, env) == Err(NotOrgMessage)
  {
  }

  /** Every error `getOrgUser` throws ends as a 500, never as the 400 of an invalid file type. */
  lemma OrgUserErrorsAre500(token: string, env: Env)
    requires GetOrgUser(token, env).Err?
    ensures ErrorStatus(GetOrgUser(token, env).error) == 500
  {
    var m := GetOrgUser(token, env).error;
    if m == UserinfoFailedMessage {
      assert 'I' !in UserinfoFailedMessage;
    } else if m == NullUserMessage {
      assert 'I' !in NullUserMessage;
    } else if m == UserNotFoundMessage {
      assert 'I' !in UserNotFoundMessage;
    } else {
      assert 'I' !in NotOrgMessage;
    }
    WithoutCapitalIIs500(m);
  }

  /**
   * `originalname.split(".").pop() || "jpg"`: the text after the last dot
   * (the whole name when it has none), or "jpg" when that text is empty.
   */
  function Extension(name: string): (ext: string)
    ensures ext != "" && '.' !in ext
    ensures name == [] || name[|name| - 1] == '.' ==> ext == "jpg"
    ensures name != [] && name[|name| - 1] != '.' ==>
      EndsWith(name, ext) && (|ext| < |name| ==> name[|name| - |ext| - 1] == '.')
    ensures '.' !in name && name != [] ==> ext == name
  {
    var pieces := Split(name, '.');
    var last := pieces[|pieces| - 1];
    LastPiece(name, '.');
    if '.' !in name then
      SplitWithoutSeparator(name, '.');
      if last == "" then "jpg" else last
    else if last == "" then "jpg" else last
  }

  /** The storage path `<entity_type>s/<entity_id>/banner.<ext>`. */
  function StoragePath(entityType: string, entityId: string, ext: string): (path: string)
    ensures StartsWith(path, entityType + "s/")
    ensures EndsWith(path, "/banner." + ext)
  {
    var path := entityType + "s/" + entityId + "/banner." + ext;
    assert path[..|entityType + "s/"|] == entityType + "s/";
    assert path[|path| - |"/banner." + ext|..] == "/banner." + ext;
    path
  }

  /**
   * The path splits back into its entity folder, the entity id and the
   * file name, so entities whose ids contain no slash never share a path.
   */
  lemma StoragePathParts(entityType: string, entityId: string, ext: string)
    requires '/' !in entityType && '/' !in entityId && '/' !in ext
    ensures Split(StoragePath(entityType, entityId, ext), '/') == [entityType + "s", entityId, "banner." + ext]
  {
    var folder := entityType + "s";
    var file := "banner." + ext;
    var inner := entityId + ['/'] + file;
    assert '/' !in file;
    assert '/' !in folder;
    SplitWithoutSeparator(file, '/');
    SplitAfterPiece(entityId, '/', file);
    SplitAfterPiece(folder, '/', inner);
    StoragePathShape(entityType, entityId, ext);
  }

  /** The path regrouped as folder, slash, id, slash, file name. */
  lemma StoragePathShape(entityType: string, entityId: string, ext: string)
    ensures StoragePath(entityType, entityId, ext)
         == (entityType + "s") + ['/'] + (entityId + ['/'] + ("banner." + ext))
  {
    assert "s/" == "s" + ['/'];
    assert "/banner." == ['/'] + "banner.";
  }

  /** Distinct entities get distinct storage paths. */
  lemma StoragePathInjective(t1: string, id1: string, e1: string, t2: string, id2: string, e2: string)
    requires '/' !in t1 && '/' !in id1 && '/' !in e1
    requires '/' !in t2 && '/' !in id2 && '/' !in e2
    requires StoragePath(t1, id1, e1) == StoragePath(t2, id2, e2)
    ensures t1 == t2 && id1 == id2 && e1 == e2
  {
    StoragePathParts(t1, id1, e1);
    StoragePathParts(t2, id2, e2);
    var p1 := [t1 + "s", id1, "banner." + e1];
    var p2 := [t2 + "s", id2, "banner." + e2];
    assert p1 == p2;
    assert t1 + "s" == t2 + "s";
    assert t1 == (t1 + "s")[..|t1|] && t2 == (t2 + "s")[..|t2|];
    assert e1 == ("banner." + e1)[7..] && e2 == ("banner." + e2)[7..];
  }

  /** The multipart body of an upload request and its Authorization header. */
  datatype BannerRequest = BannerRequest(
    header: Option<string>,
    entityType: Option<string>,
    entityId: Option<string>,
    file: Option<File>)

  /** The table a banner URL is recorded in. */
  datatype Table = UsersTable | OpportunitiesTable

  /**
   * The outcome of the checks: a response, or the go-ahead to store the
   * file under `path` and record its URL on row `id` of `table`.
   */
  datatype Decision =
    | Reject(status: nat, message: string)
    | Proceed(path: string, table: Table, id: string, file: File)

  /** The request passes the multipart stage and its token resolves to an organization user. */
  predicate SignedInOrg(req: BannerRequest, env: Env) {
    && MultipartError(req.file).None?
    && Present(BearerToken(req.header))
    && GetOrgUser(BearerToken(req.header).value, env).Ok?
  }

  /** Both form fields are truthy and the entity type is one of the two known ones. */
  predicate FieldsValid(req: BannerRequest) {
    && Present(req.entityType) && Present(req.entityId)
    && (req.entityType.value == "org" || req.entityType.value == "opportunity")
  }

  /**
   * The caller owns the entity: its own organization row, or an
   * opportunity the store finds and whose org_id is the caller's id.
   */
  predicate Owns(kind: string, id: string, caller: StoredUser, env: Env) {
    || (kind == "org" && id == caller.id)
    || (kind == "opportunity" && !env.opportunityLookupFails
        && id in env.opportunityOwners && env.opportunityOwners[id] == caller.id)
  }

  /**
   * The checks in the order the route runs them: multipart stage (500),
   * token (401), `getOrgUser` (500), missing fields (400), unknown entity
   * type (400), missing file (400), then the ownership checks of
   * `Authorize`. The request proceeds exactly when every check passes.
   */
  function Decide(req: BannerRequest, env: Env): (d: Decision)
    ensures d.Reject? ==> d.status in {400, 401, 403, 404, 500}
    ensures MultipartError(req.file).Some? ==> d == Reject(500, MultipartError(req.file).value)
    ensures MultipartError(req.file).None? && !Present(BearerToken(req.header)) ==>
      d == Reject(401, MissingTokenMessage)
    ensures MultipartError(req.file).None? && Present(BearerToken(req.header))
            && GetOrgUser(BearerToken(req.header).value, env).Err? ==>
      d == Reject(500, GetOrgUser(BearerToken(req.header).value, env).error)
    ensures SignedInOrg(req, env) && (!Present(req.entityType) || !Present(req.entityId)) ==>
      d == Reject(400, FieldsRequiredMessage)
    ensures SignedInOrg(req, env) && Present(req.entityType) && Present(req.entityId) && !FieldsValid(req) ==>
      d == Reject(400, BadEntityTypeMessage)
    ensures SignedInOrg(req, env) && FieldsValid(req) && req.file.None? ==> d == Reject(400, NoFileMessage)
    ensures d.Proceed? <==>
      && SignedInOrg(req, env) && FieldsValid(req) && req.file.Some?
      && Owns(req.entityType.value, req.entityId.value, GetOrgUser(BearerToken(req.header).value, env).value, env)
    ensures d.Proceed? ==>
      && req.file == Some(d.file)
      && FileFilter(d.file.mimeType) && d.file.size <= SizeLimit
      && d.id == req.entityId.value
      && d.path == StoragePath(req.entityType.value, d.id, Extension(d.file.originalName))
  {
    var multipart := MultipartError(req.file);
    var token := BearerToken(req.header);
    if multipart.Some? then Reject(500, multipart.value)
    else if !Present(token) then Reject(401, MissingTokenMessage)
    else
      var caller := GetOrgUser(token.value, env);
      if caller.Err? then
        OrgUserErrorsAre500(token.value, env);
        Reject(ErrorStatus(caller.error), caller.error)
      else if !Present(req.entityType) || !Present(req.entityId) then
        Reject(400, FieldsRequiredMessage)
      else
        var kind := req.entityType.value;
        var id := req.entityId.value;
        if kind != "org" && kind != "opportunity" then Reject(400, BadEntityTypeMessage)
        else if req.file.None? then Reject(400, NoFileMessage)
        else Authorize(kind, id, caller.value, req.file.value, env)
  }

  /**
   * The ownership checks once the caller and the fields are valid: an
   * organization's own banner (403 otherwise), or an existing opportunity
   * (404 otherwise) of that organization (403 otherwise). The go-ahead
   * names the path, the table and the row the banner is recorded on.
   */
  function Authorize(kind: string, id: string, caller: StoredUser, f: File, env: Env): (d: Decision)
    requires kind == "org" || kind == "opportunity"
    ensures d.Proceed? <==> Owns(kind, id, caller, env)
    ensures kind == "org" && id != caller.id ==> d == Reject(403, ForeignOrgMessage)
    ensures kind == "opportunity" && (env.opportunityLookupFails || id !in env.opportunityOwners) ==>
      d == Reject(404, OpportunityNotFoundMessage)
    ensures kind == "opportunity" && !env.opportunityLookupFails && id in env.opportunityOwners
            && env.opportunityOwners[id] != caller.id ==>
      d == Reject(403, ForeignOpportunityMessage)
    ensures d.Proceed? ==> d.file == f && d.id == id && d.path == StoragePath(kind, id, Extension(f.originalName))
    ensures d.Proceed? ==> d.table == (if kind == "org" then UsersTable else OpportunitiesTable)
  {
    if kind == "org" && id != caller.id then
      Reject(403, ForeignOrgMessage)
    else if kind == "opportunity" && (env.opportunityLookupFails || id !in env.opportunityOwners) then
      Reject(404, OpportunityNotFoundMessage)
    else if kind == "opportunity" && env.opportunityOwners[id] != caller.id then
      Reject(403, ForeignOpportunityMessage)
    else
      Proceed(StoragePath(kind, id, Extension(f.originalName)),
              if kind == "org" then UsersTable else OpportunitiesTable, id, f)
  }

  /** Without a token, only the multipart stage's rejection comes before the 401. */
  lemma MissingTokenIs401(req: BannerRequest, env: Env)
    requires !Present(BearerToken(req.header))
    ensures Decide(req, env).Reject?
    ensures Decide(req, env).status == 401 <==> MultipartError(req.file).None?
  {
    if MultipartError(req.file).Some? {
      assert Decide(req, env).status == 500;
    }
  }

  /** Every upload that proceeds is for an entity the caller owns. */
  lemma ProceedOnlyForOwner(req: BannerRequest, env: Env)
    requires Decide(req, env).Proceed?
    ensures var d := Decide(req, env); var caller := GetOrgUser(BearerToken(req.header).value, env).value;
      && (d.table == UsersTable ==> req.entityType == Some("org") && d.id == caller.id)
      && (d.table == OpportunitiesTable ==>
            req.entityType == Some("opportunity") && d.id in env.opportunityOwners
            && env.opportunityOwners[d.id] == caller.id)
  {
  }

  /** The field checks come before the file check: a missing field is reported even without a file. */
  lemma FieldsCheckedBeforeFile(req: BannerRequest, env: Env)
    requires MultipartError(req.file).None? && Present(BearerToken(req.header))
    requires GetOrgUser(BearerToken(req.header).value, env).Ok?
    requires !Present(req.entityType) || !Present(req.entityId)
    ensures Decide(req, env) == Reject(400, FieldsRequiredMessage)
  {
  }

  /** The handler's response: a status and either an error or the banner URL. */
  datatype Reply = ErrorReply(status: nat, error: string) | BannerUrl(url: string)

  /** The status of a reply. */
  function ReplyStatus(r: Reply): nat {
    if r.ErrorReply? then r.status else 200
  }

  /** What the storage upload and the row update fail with, if they do. */
  datatype WriteFaults = WriteFaults(uploadError: Option<string>, updateError: Option<string>)

  /** The reply to an error thrown after the checks: mapped as the catch block does. */
  function Thrown(message: string): (r: Reply)
    ensures r.ErrorReply? && r.status == ErrorStatus(message)
    ensures message != "" ==> r.error == message
  {
    ErrorReply(ErrorStatus(message), if message != "" then message else FallbackMessage)
  }

  /**
   * The bucket of banner images and the banner_url columns of the users
   * and opportunities rows, keyed by row id.
   */
  class BannerStore {
    var objects: map<string, File>
    var userBanners: map<string, string>
    var opportunityBanners: map<string, string>

    constructor()
      ensures objects == map[] && userBanners == map[] && opportunityBanners == map[]
    {
      objects := map[];
      userBanners := map[];
      opportunityBanners := map[];
    }

    /**
     * The handler: a rejected request writes nothing; otherwise the file is
     * stored (overwriting) under the decided path, and only when that
     * succeeds is the public URL recorded on the entity's row. A failed row
     * update leaves the stored object in place.
     */
    method PostBanner(req: BannerRequest, env: Env, faults: WriteFaults) returns (reply: Reply)
      modifies this
      ensures ReplyStatus(reply) == 200 <==>
        Decide(req, env).Proceed? && faults.uploadError.None? && faults.updateError.None?
      ensures var d := Decide(req, env);
        && (d.Reject? ==>
              reply == ErrorReply(d.status, d.message)
              && objects == old(objects) && userBanners == old(userBanners)
              && opportunityBanners == old(opportunityBanners))
        && (d.Proceed? && faults.uploadError.Some? ==>
              reply == Thrown(faults.uploadError.value)
              && objects == old(objects) && userBanners == old(userBanners)
              && opportunityBanners == old(opportunityBanners))
        && (d.Proceed? && faults.uploadError.None? ==>
              objects == old(objects)[d.path := d.file])
        && (d.Proceed? && faults.uploadError.None? && faults.updateError.Some? ==>
              reply == Thrown(faults.updateError.value)
              && userBanners == old(userBanners) && opportunityBanners == old(opportunityBanners))
        && (d.Proceed? && faults.uploadError.None? && faults.updateError.None? ==>
              reply == BannerUrl(env.publicUrl(d.path))
              && (d.table == UsersTable ==>
                    userBanners == old(userBanners)[d.id := env.publicUrl(d.path)]
                    && opportunityBanners == old(opportunityBanners))
              && (d.table == OpportunitiesTable ==>
                    opportunityBanners == old(opportunityBanners)[d.id := env.publicUrl(d.path)]
                    && userBanners == old(userBanners)))
    {
      var d := Decide(req, env);
      if d.Reject? {
        return ErrorReply(d.status, d.message);
      }
      if faults.uploadError.Some? {
        return Thrown(faults.uploadError.value);
      }
      objects := objects[d.path := d.file];
      var url := env.publicUrl(d.path);
      if faults.updateError.Some? {
        return Thrown(faults.updateError.value);
      }
      if d.table == UsersTable {
        userBanners := userBanners[d.id := url];
      } else {
        opportunityBanners := opportunityBanners[d.id := url];
      }
      reply := BannerUrl(url);
    }
  }
}
