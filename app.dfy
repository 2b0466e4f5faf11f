/**
 * The backend's endpoints (backend/app_v2.py) that carry logic of their
 * own: the owner/admin access rule every scoped endpoint applies, login and
 * token refresh, upload with its size limit and totals, listing, the
 * deletions' 404 mapping, index training, soul status and the chat
 * endpoint's choice of documents and context.
 *
 * A request is authenticated with `Auth.CurrentUserAt`, the expiry check as
 * written, on a server whose local UTC offset is `utcOffset` seconds; at
 * offset 0 it is the corrected `Auth.CurrentUser` (see the findings in
 * README.md). The clock reading `nowUs` and the language model's reply are
 * parameters.
 */
module App {
  import opened Common
  import opened Exceptions
  import opened SecurityConfig
  import opened Auth
  import opened FileTree
  import Storage
  import ScopedRag
  import Schemas

  const AccessDenied: string := "Access denied to this owner's data"

  /**
   * The rule repeated on every scoped endpoint: an owner may reach only their
   * own data; an admin may reach anyone's.
   */
  predicate MayAccess(user: TokenData, owner: string)
    ensures user.role == Owner ==> (MayAccess(user, owner) <==> owner == user.ownerId)
    ensures user.role == Admin ==> MayAccess(user, owner)
  {
    user.ownerId == owner || user.role == Admin
  }

  /** `str(e)` for what a handler catches. */
  function Describe(e: Raised): (r: string)
    ensures e.Http? ==>
      Decimal(e.exc.statusCode) + ": " <= r
      && |r| == |Decimal(e.exc.statusCode)| + 2 + |e.exc.detail| && r[|r| - |e.exc.detail|..] == e.exc.detail
    ensures e.Domain? ==> r == e.message
    ensures e.Other? ==> r == e.name
  {
    match e
    case Http(exc) => Decimal(exc.statusCode) + ": " + exc.detail
    case Domain(_, message) => message
    case Other(name) => name
  }

  /**
   * `Depends(get_current_user)` followed by the access check: the
   * authentication error as it is, else 403 unless the user may access
   * `owner`.
   */
  function Authorize(config: Config, nowUs: int, offset: int, token: Token, owner: string): (r: Result<TokenData, Raised>)
    ensures r.Ok? <==> CurrentUserAt(config, nowUs, offset, token).Ok? && MayAccess(CurrentUserAt(config, nowUs, offset, token).value, owner)
    ensures r.Ok? ==> r.value == CurrentUserAt(config, nowUs, offset, token).value
    ensures CurrentUserAt(config, nowUs, offset, token).Err? ==> r == CurrentUserAt(config, nowUs, offset, token)
    ensures CurrentUserAt(config, nowUs, offset, token).Ok? && r.Err? ==> r.error == Http(HttpException(Forbidden, AccessDenied, []))
  {
    match CurrentUserAt(config, nowUs, offset, token)
    case Err(e) => Err(e)
    case Ok(user) =>
      if MayAccess(user, owner) then Ok(user) else Err(Http(HttpException(Forbidden, AccessDenied, [])))
  }

  /** The tokens of a pair as the response carries them. */
  function Response(pair: TokenPair): (r: Schemas.TokenResponse)
    ensures r.accessToken == pair.accessToken && r.refreshToken == pair.refreshToken && r.tokenType == pair.tokenType
  {
    Schemas.MakeTokenResponse(pair.accessToken, pair.refreshToken, Some(pair.tokenType))
  }

  /** `login`: 401 "Invalid credentials" unless the development credentials pass; the user is their own owner. */
  function Login(config: Config, nowUs: int, request: Schemas.LoginRequest): (r: Result<Schemas.TokenResponse, Raised>)
    ensures r.Ok? <==> VerifyDevCredentials(config, request.username, request.password)
    ensures r.Err? ==> r.error == Http(HttpException(Unauthorized, "Invalid credentials", []))
    ensures r.Ok? ==> r.value == Response(CreateTokenPair(config, nowUs, request.username, request.username, "owner"))
  {
    if !VerifyDevCredentials(config, request.username, request.password) then
      Err(Http(HttpException(Unauthorized, "Invalid credentials", [])))
    else Ok(Response(CreateTokenPair(config, nowUs, request.username, request.username, "owner")))
  }

  /**
   * The access token from a login authenticates its user as an owner of
   * their own data, and only of it, for the whole access lifetime but its
   * last second.
   */
  lemma LoginGrantsOwnData(config: Config, issuedUs: int, nowUs: int, offset: int, request: Schemas.LoginRequest, owner: string)
    requires Login(config, issuedUs, request).Ok?
    requires offset >= 0
    requires issuedUs <= nowUs <= issuedUs + config.accessTokenExpireMinutes * UsPerMinute - UsPerSecond
    ensures Authorize(config, nowUs, offset, Login(config, issuedUs, request).value.accessToken, owner).Ok?
        <==> owner == request.username
  {
    FreshTokenAcceptedAt(config, issuedUs, nowUs, offset, request.username, request.username, Owner);
  }

  /**
   * On a server west of UTC by more than the access lifetime, the access
   * token of a login is refused as expired at the moment it is issued, on
   * every scoped endpoint and for every owner.
   */
  lemma WestOfUtcLocksOut(config: Config, nowUs: int, offset: int, request: Schemas.LoginRequest, owner: string)
    requires Login(config, nowUs, request).Ok?
    requires config.accessTokenExpireMinutes >= 0
    requires offset * UsPerSecond < -(config.accessTokenExpireMinutes * UsPerMinute)
    ensures Authorize(config, nowUs, offset, Login(config, nowUs, request).value.accessToken, owner)
         == Err(Http(RaiseUnauthorized(Some(ExpiredMessage))))
  {
    WestOfUtcRejectsFreshToken(config, nowUs, offset, request.username, request.username);
  }

  /**
   * `refresh_token`: decode the token and issue a new pair for the identity
   * it carries; any failure becomes 401 "Invalid refresh token". The
   * decoded expiry is not used, so the server's zone does not matter here.
   */
  function Refresh(config: Config, nowUs: int, refreshToken: Token): (r: Result<Schemas.TokenResponse, Raised>)
    ensures r.Ok? <==> DecodeTokenAt(config, nowUs, 0, refreshToken).Ok?
    ensures r.Err? ==> r.error == Http(HttpException(Unauthorized, "Invalid refresh token", []))
    ensures r.Ok? ==> var data := DecodeTokenAt(config, nowUs, 0, refreshToken).value;
      r.value == Response(CreateTokenPair(config, nowUs, data.userId, data.ownerId, RoleName(data.role)))
  {
    match DecodeTokenAt(config, nowUs, 0, refreshToken)
    case Err(_) => Err(Http(HttpException(Unauthorized, "Invalid refresh token", [])))
    case Ok(data) => Ok(Response(CreateTokenPair(config, nowUs, data.userId, data.ownerId, RoleName(data.role))))
  }

  /** Refreshing with a login's refresh token, while it lasts, re-issues tokens for the same user. */
  lemma RefreshKeepsIdentity(config: Config, issuedUs: int, nowUs: int, request: Schemas.LoginRequest)
    requires Login(config, issuedUs, request).Ok?
    requires nowUs < (ExpiresAt(issuedUs, config.refreshTokenExpireDays * UsPerDay) + 1) * UsPerSecond
    ensures Refresh(config, nowUs, Login(config, issuedUs, request).value.refreshToken)
         == Ok(Response(CreateTokenPair(config, nowUs, request.username, request.username, "owner")))
  {
    var exp := ExpiresAt(issuedUs, config.refreshTokenExpireDays * UsPerDay);
    assert exp >= nowUs / UsPerSecond by {
      assert (nowUs / UsPerSecond) * UsPerSecond <= nowUs;
    }
  }

  /**
   * The token type is never checked: the access token of a login also
   * refreshes, and the refresh token also authenticates requests (on a
   * server at or east of UTC).
   */
  lemma TokenTypeNotChecked(config: Config, issuedUs: int, offset: int, request: Schemas.LoginRequest)
    requires Login(config, issuedUs, request).Ok?
    requires offset >= 0
    requires config.accessTokenExpireMinutes >= 1 && config.refreshTokenExpireDays >= 1
    ensures Refresh(config, issuedUs, Login(config, issuedUs, request).value.accessToken).Ok?
    ensures CurrentUserAt(config, issuedUs, offset, Login(config, issuedUs, request).value.refreshToken).Ok?
  {
    var access := ExpiresAt(issuedUs, config.accessTokenExpireMinutes * UsPerMinute);
    var refresh := ExpiresAt(issuedUs, config.refreshTokenExpireDays * UsPerDay);
    assert access >= issuedUs / UsPerSecond && refresh >= issuedUs / UsPerSecond by {
      assert (issuedUs / UsPerSecond) * UsPerSecond <= issuedUs;
    }
    assert refresh * UsPerSecond >= issuedUs by {
      assert issuedUs + config.refreshTokenExpireDays * UsPerDay < (refresh + 1) * UsPerSecond;
    }
    assert (refresh + offset) * UsPerSecond == refresh * UsPerSecond + offset * UsPerSecond;
  }

  /** One file of an upload request: its name and the length of its content. */
  datatype Upload = Upload(filename: string, size: nat)

  datatype UploadResponse = UploadResponse(files: seq<Storage.FileInfo>, count: nat, totalSize: nat)
  datatype FileListResponse = FileListResponse(files: seq<Storage.FileInfo>, count: nat, totalSize: nat)
  datatype DeleteResponse = DeleteResponse(success: bool, message: string)
  datatype TrainResponse = TrainResponse(success: bool, indexedDocuments: nat, message: string)
  datatype SoulStatus = SoulStatus(owner: string, soul: string, storage: map<string, Storage.CategoryStats>,
                                   rag: ScopedRag.IndexStatus)
  datatype ChatResponse = ChatResponse(responseText: string, usedDocs: seq<ScopedRag.Document>,
                                       hasKnowledgeBase: bool, totalIndexedDocuments: nat)

  /** The largest accepted file, in bytes. */
  function UploadLimit(config: Config): int {
    config.maxUploadSizeMb * 1024 * 1024
  }

  function TooLarge(f: Upload): (r: Raised)
    ensures r.Http? && r.exc.statusCode == BadRequest
  {
    Http(RaiseBadRequest(Some("File " + f.filename + " exceeds maximum upload size")))
  }

  /** `except StorageError`: 500 "File upload failed: ..."; anything else passes through. */
  function UploadFailure(e: Raised): (r: Raised)
    ensures IsStorageError(e) ==> r == Http(HttpException(InternalServerError, "File upload failed: " + e.message, []))
    ensures !IsStorageError(e) ==> r == e
  {
    if IsStorageError(e) then Http(HttpException(InternalServerError, "File upload failed: " + Describe(e), [])) else e
  }

  /** One file of `upload_files`: the size check, then the save into "uploads". */
  function UploadStep(state: (Log, Result<seq<Storage.FileInfo>, Raised>), root: Path, owner: string, soul: string,
                      f: Upload, limit: int): (r: (Log, Result<seq<Storage.FileInfo>, Raised>))
    ensures state.1.Err? ==> r == state
    ensures state.1.Ok? && f.size > limit ==> r == (state.0, Err(TooLarge(f)))
    ensures state.1.Ok? && r.1.Err? ==> r.1.error.Http? && r.1.error.exc.statusCode in {BadRequest, InternalServerError}
    ensures r.1.Ok? ==> state.1.Ok? && |r.1.value| == |state.1.value| + 1
  {
    if state.1.Err? then state
    else if f.size > limit then (state.0, Err(TooLarge(f)))
    else
      var (l, saved) := Storage.Save(state.0, root, owner, soul, f.size, f.filename, Storage.Uploads);
      match saved
      case Err(e) => (l, Err(UploadFailure(e)))
      case Ok(info) => (l, Ok(state.1.value + [info]))
  }

  /** `upload_files` over `files` in order: the tree afterwards and the files saved, or the error that stopped it. */
  function Uploads(log: Log, root: Path, owner: string, soul: string, files: seq<Upload>, limit: int)
    : (r: (Log, Result<seq<Storage.FileInfo>, Raised>))
    ensures r.1.Ok? ==> |r.1.value| == |files|
    ensures r.1.Err? ==> r.1.error.Http? && r.1.error.exc.statusCode in {BadRequest, InternalServerError}
    decreases |files|
  {
    if files == [] then (log, Ok([]))
    else UploadStep(Uploads(log, root, owner, soul, files[..|files| - 1], limit), root, owner, soul, files[|files| - 1], limit)
  }

  lemma UploadsSnoc(log: Log, root: Path, owner: string, soul: string, files: seq<Upload>, limit: int, i: nat)
    requires i < |files|
    ensures Uploads(log, root, owner, soul, files[..i + 1], limit)
         == UploadStep(Uploads(log, root, owner, soul, files[..i], limit), root, owner, soul, files[i], limit)
  {
    assert files[..i + 1][..i] == files[..i];
  }

  /** Once a file fails, the later ones are not looked at. */
  lemma {:induction false} UploadsStop(log: Log, root: Path, owner: string, soul: string, files: seq<Upload>, limit: int, n: nat)
    requires n <= |files| && Uploads(log, root, owner, soul, files[..n], limit).1.Err?
    ensures Uploads(log, root, owner, soul, files, limit) == Uploads(log, root, owner, soul, files[..n], limit)
    decreases |files| - n
  {
    if n < |files| {
      UploadsSnoc(log, root, owner, soul, files, limit, n);
      UploadsStop(log, root, owner, soul, files, limit, n + 1);
    } else {
      assert files[..n] == files;
    }
  }

  /** A successful upload saved every file, none over the limit, each reported under its own name and size. */
  lemma {:induction false} UploadsOk(log: Log, root: Path, owner: string, soul: string, files: seq<Upload>, limit: int)
    requires Uploads(log, root, owner, soul, files, limit).1.Ok?
    ensures var saved := Uploads(log, root, owner, soul, files, limit).1.value;
      && |saved| == |files|
      && forall i :: 0 <= i < |files| ==>
           files[i].size <= limit && saved[i] == Storage.FileInfo(files[i].filename, files[i].size, Storage.Uploads)
    decreases |files|
  {
    if files != [] {
      var init := files[..|files| - 1];
      var f := files[|files| - 1];
      var state := Uploads(log, root, owner, soul, init, limit);
      assert Uploads(log, root, owner, soul, files, limit) == UploadStep(state, root, owner, soul, f, limit);
      UploadStepOk(state, root, owner, soul, f, limit);
      UploadsOk(log, root, owner, soul, init, limit);
      var prev := state.1.value;
      assert |prev| == |init|;
      var saved := prev + [Storage.FileInfo(f.filename, f.size, Storage.Uploads)];
      assert Uploads(log, root, owner, soul, files, limit).1.value == saved;
      forall i | 0 <= i < |files|
        ensures files[i].size <= limit && saved[i] == Storage.FileInfo(files[i].filename, files[i].size, Storage.Uploads)
      {
        if i < |init| {
          assert files[i] == init[i] && saved[i] == prev[i];
        } else {
          assert i == |prev|;
        }
      }
    }
  }

  /** One file that goes through was within the limit and is reported as given. */
  lemma UploadStepOk(state: (Log, Result<seq<Storage.FileInfo>, Raised>), root: Path, owner: string, soul: string,
                     f: Upload, limit: int)
    requires UploadStep(state, root, owner, soul, f, limit).1.Ok?
    ensures state.1.Ok? && f.size <= limit
    ensures UploadStep(state, root, owner, soul, f, limit).1.value
         == state.1.value + [Storage.FileInfo(f.filename, f.size, Storage.Uploads)]
  {
    Storage.SaveStoresFile(state.0, root, owner, soul, f.size, f.filename, Storage.Uploads);
  }

  /**
   * A file over the limit stops the upload with 400 and the tree as the
   * files before it left it: those stay saved.
   */
  lemma UploadTooLarge(log: Log, root: Path, owner: string, soul: string, files: seq<Upload>, limit: int, k: nat)
    requires k < |files| && files[k].size > limit
    requires Uploads(log, root, owner, soul, files[..k], limit).1.Ok?
    ensures Uploads(log, root, owner, soul, files, limit)
         == (Uploads(log, root, owner, soul, files[..k], limit).0, Err(TooLarge(files[k])))
  {
    UploadsSnoc(log, root, owner, soul, files, limit, k);
    UploadsStop(log, root, owner, soul, files, limit, k + 1);
  }

  /** A file of exactly the limit is not refused for its size: it is saved, or fails to save with 500. */
  lemma UploadAtLimit(log: Log, root: Path, owner: string, soul: string, name: string, limit: nat)
    ensures var r := Uploads(log, root, owner, soul, [Upload(name, limit)], limit).1;
      r.Err? ==> r.error.Http? && r.error.exc.statusCode == InternalServerError
  {
    assert [Upload(name, limit)][..0] == [];
  }

  /** The response's totals: the number of files saved and the sum of their sizes. */
  function UploadReply(saved: seq<Storage.FileInfo>): (r: UploadResponse)
    ensures r.files == saved && r.count == |saved| && r.totalSize == Storage.TotalSize(saved)
  {
    UploadResponse(saved, |saved|, Storage.TotalSize(saved))
  }

  /** `DeleteResponse` for a storage deletion: False becomes 404 with `missing`, True a success `message`. */
  function DeleteReply(result: Result<bool, Raised>, missing: string, message: string): (r: Result<DeleteResponse, Raised>)
    ensures result == Ok(false) ==> r == Err(Http(RaiseNotFound(Some(missing))))
    ensures result == Ok(true) ==> r == Ok(DeleteResponse(true, message))
    ensures result.Err? ==> r == Err(result.error)
  {
    match result
    case Err(e) => Err(e)
    case Ok(deleted) => if deleted then Ok(DeleteResponse(true, message)) else Err(Http(RaiseNotFound(Some(missing))))
  }

  /** A deletion never answers with `success` false: failure is always an error status. */
  lemma DeleteReplySucceedsOnly(result: Result<bool, Raised>, missing: string, message: string)
    ensures DeleteReply(result, missing, message).Ok? ==> DeleteReply(result, missing, message).value.success
    ensures DeleteReply(result, missing, message).Ok? <==> result == Ok(true)
  {
  }

  /** The chat context: the documents' texts ("" when a document has none), or None when there are no documents. */
  function Context(docs: seq<ScopedRag.Document>): (c: Option<seq<string>>)
    ensures c.None? <==> docs == []
    ensures c.Some? ==> |c.value| == |docs| && forall i :: 0 <= i < |docs| ==> c.value[i] == docs[i].text.GetOr("")
  {
    if docs == [] then None else Some(seq(|docs|, i requires 0 <= i < |docs| => docs[i].text.GetOr("")))
  }

  /** What the chat endpoint hands the language model. */
  datatype Generation = Generation(prompt: string, maxTokens: int, context: Option<seq<string>>)

  /** The backend: the settings, the storage and the index manager over one file system. */
  class Backend {
    const config: Config
    /** The server's local UTC offset in seconds, which the expiry check depends on. */
    const utcOffset: int
    const storage: Storage.ScopedStorage
    const rag: ScopedRag.ScopedRag

    constructor(settings: Config, offset: int, env: map<string, string>, fs: FileSystem)
      requires fs.Valid()
      ensures config == settings && utcOffset == offset && storage.fs == fs && Valid()
    {
      config := settings;
      utcOffset := offset;
      storage := new Storage.ScopedStorage(None, env, fs);
      rag := new ScopedRag.ScopedRag(None, env, fs);
    }

    predicate Valid()
      reads storage.fs, rag.fs
    {
      storage.Valid() && rag.fs == storage.fs && rag.pathBuilder.dataDir == storage.dataDir
    }

    /** `upload_files`: each file checked against the limit and saved in turn. */
    method UploadFiles(token: Token, nowUs: int, owner: string, soul: string, files: seq<Upload>)
      returns (r: Result<UploadResponse, Raised>)
      requires Valid()
      modifies storage.fs
      ensures Valid()
      ensures Authorize(config, nowUs, utcOffset, token, owner).Err? ==>
        r == Err(Authorize(config, nowUs, utcOffset, token, owner).error) && storage.fs.log == old(storage.fs.log)
      ensures Authorize(config, nowUs, utcOffset, token, owner).Ok? ==>
        var (l, saved) := Uploads(old(storage.fs.log), storage.dataDir, owner, soul, files, UploadLimit(config));
        && storage.fs.log == l
        && (saved.Err? ==> r == Err(saved.error))
        && (saved.Ok? ==> r == Ok(UploadReply(saved.value)))
    {
      var user := Authorize(config, nowUs, utcOffset, token, owner);
      if user.Err? {
        return Err(user.error);
      }
      var limit := UploadLimit(config);
      ghost var log0 := storage.fs.log;
      var uploaded: seq<Storage.FileInfo> := [];
      var totalSize := 0;
      var i := 0;
      while i < |files|
        invariant 0 <= i <= |files|
        invariant Valid()
        invariant Uploads(log0, storage.dataDir, owner, soul, files[..i], limit) == (storage.fs.log, Ok(uploaded))
        invariant totalSize == Storage.TotalSize(uploaded)
      {
        var f := files[i];
        UploadsSnoc(log0, storage.dataDir, owner, soul, files, limit, i);
        if f.size > limit {
          UploadsStop(log0, storage.dataDir, owner, soul, files, limit, i + 1);
          return Err(TooLarge(f));
        }
        var saved := storage.SaveFile(owner, soul, f.size, f.filename, Storage.Uploads);
        if saved.Err? {
          UploadsStop(log0, storage.dataDir, owner, soul, files, limit, i + 1);
          return Err(UploadFailure(saved.error));
        }
        Storage.TotalSizeAppend(uploaded, [saved.value]);
        uploaded := uploaded + [saved.value];
        totalSize := totalSize + saved.value.size;
        i := i + 1;
      }
      assert files[..i] == files;
      r := Ok(UploadResponse(uploaded, |uploaded|, totalSize));
    }

    /** `list_files`: the listing and its totals. */
    method ListFiles(token: Token, nowUs: int, owner: string, soul: string, category: Option<string>)
      returns (r: Result<FileListResponse, Raised>)
      requires Valid()
      ensures Authorize(config, nowUs, utcOffset, token, owner).Err? ==> r == Err(Authorize(config, nowUs, utcOffset, token, owner).error)
      ensures Authorize(config, nowUs, utcOffset, token, owner).Ok? ==>
        var listed := Storage.ListIn(storage.fs.log, Storage.SoulPath(storage.dataDir, owner, soul), Storage.ListCategories(category));
        && (listed.Err? ==> r == Err(listed.error))
        && (listed.Ok? ==> r == Ok(FileListResponse(listed.value, |listed.value|, Storage.TotalSize(listed.value))))
    {
      var user := Authorize(config, nowUs, utcOffset, token, owner);
      if user.Err? {
        return Err(user.error);
      }
      var files := storage.ListFiles(owner, soul, category);
      if files.Err? {
        return Err(files.error);
      }
      r := Ok(FileListResponse(files.value, |files.value|, Storage.TotalSize(files.value)));
    }

    /** `delete_file` */
    method DeleteFile(token: Token, nowUs: int, owner: string, soul: string, filename: string, category: string)
      returns (r: Result<DeleteResponse, Raised>)
      requires Valid()
      modifies storage.fs
      ensures Valid()
      ensures Authorize(config, nowUs, utcOffset, token, owner).Err? ==>
        r == Err(Authorize(config, nowUs, utcOffset, token, owner).error) && storage.fs.log == old(storage.fs.log)
      ensures Authorize(config, nowUs, utcOffset, token, owner).Ok? ==>
        var (l, deleted) := Storage.DeletePath(old(storage.fs.log),
          Storage.Child(Storage.CategoryPath(storage.dataDir, owner, soul, category), filename), false);
        storage.fs.log == l && r == DeleteReply(deleted, "File not found", "File " + filename + " deleted successfully")
    {
      var user := Authorize(config, nowUs, utcOffset, token, owner);
      if user.Err? {
        return Err(user.error);
      }
      var deleted := storage.DeleteFile(owner, soul, filename, category);
      r := DeleteReply(deleted, "File not found", "File " + filename + " deleted successfully");
    }

    /** `delete_soul_data` */
    method DeleteSoulData(token: Token, nowUs: int, owner: string, soul: string) returns (r: Result<DeleteResponse, Raised>)
      requires Valid()
      modifies storage.fs
      ensures Valid()
      ensures Authorize(config, nowUs, utcOffset, token, owner).Err? ==>
        r == Err(Authorize(config, nowUs, utcOffset, token, owner).error) && storage.fs.log == old(storage.fs.log)
      ensures Authorize(config, nowUs, utcOffset, token, owner).Ok? ==>
        var (l, deleted) := Storage.DeletePath(old(storage.fs.log), Storage.SoulPath(storage.dataDir, owner, soul), true);
        storage.fs.log == l
        && r == DeleteReply(deleted, "Soul data not found", "All data for soul " + soul + " deleted successfully")
    {
      var user := Authorize(config, nowUs, utcOffset, token, owner);
      if user.Err? {
        return Err(user.error);
      }
      var deleted := storage.DeleteSoulData(owner, soul);
      r := DeleteReply(deleted, "Soul data not found", "All data for soul " + soul + " deleted successfully");
    }

    /** `delete_owner_data` */
    method DeleteOwnerData(token: Token, nowUs: int, owner: string) returns (r: Result<DeleteResponse, Raised>)
      requires Valid()
      modifies storage.fs
      ensures Valid()
      ensures Authorize(config, nowUs, utcOffset, token, owner).Err? ==>
        r == Err(Authorize(config, nowUs, utcOffset, token, owner).error) && storage.fs.log == old(storage.fs.log)
      ensures Authorize(config, nowUs, utcOffset, token, owner).Ok? ==>
        var (l, deleted) := Storage.DeletePath(old(storage.fs.log), Storage.OwnerPath(storage.dataDir, owner), true);
        storage.fs.log == l
        && r == DeleteReply(deleted, "Owner data not found", "All data for owner " + owner + " deleted successfully")
    {
      var user := Authorize(config, nowUs, utcOffset, token, owner);
      if user.Err? {
        return Err(user.error);
      }
      var deleted := storage.DeleteOwnerData(owner);
      r := DeleteReply(deleted, "Owner data not found", "All data for owner " + owner + " deleted successfully");
    }

    /** `train_rag`: build the index; any failure becomes 500 "RAG training failed: ...". */
    method Train(token: Token, nowUs: int, owner: string, soul: string, request: Schemas.TrainRequest)
      returns (r: Result<TrainResponse, Raised>)
      requires Valid()
      modifies storage.fs
      ensures Valid()
      ensures Authorize(config, nowUs, utcOffset, token, owner).Err? ==>
        r == Err(Authorize(config, nowUs, utcOffset, token, owner).error) && storage.fs.log == old(storage.fs.log)
      ensures Authorize(config, nowUs, utcOffset, token, owner).Ok? ==>
        && storage.fs.log == After(MakeDirs(old(storage.fs.log), rag.IndexPath(owner, soul)))
        && (r.Ok? <==> MakeDirs(old(storage.fs.log), rag.IndexPath(owner, soul)).Ok?)
        && (r.Ok? ==> r.value == TrainResponse(true, 0, ScopedRag.BuildMessage))
        && (r.Err? ==> r.error == Http(HttpException(InternalServerError,
              "RAG training failed: " + Storage.MkdirError(old(storage.fs.log), rag.IndexPath(owner, soul)), [])))
    {
      var user := Authorize(config, nowUs, utcOffset, token, owner);
      if user.Err? {
        return Err(user.error);
      }
      var built := rag.BuildIndex(owner, soul, request.includeUploads, request.includeTranscripts);
      if built.Err? {
        return Err(Http(HttpException(InternalServerError, "RAG training failed: " + Describe(built.error), [])));
      }
      r := Ok(TrainResponse(built.value.success, built.value.indexedDocuments, built.value.message));
    }

    /** `soul_status`: the storage statistics and the index status. */
    method SoulStatusOf(token: Token, nowUs: int, owner: string, soul: string) returns (r: Result<SoulStatus, Raised>)
      requires Valid()
      ensures Authorize(config, nowUs, utcOffset, token, owner).Err? ==> r == Err(Authorize(config, nowUs, utcOffset, token, owner).error)
      ensures Authorize(config, nowUs, utcOffset, token, owner).Ok? ==>
        (r.Ok? <==> forall c :: c in Storage.Categories ==>
                      !IsFile(storage.fs.log, Storage.CategoryPath(storage.dataDir, owner, soul, c)))
      ensures r.Ok? ==>
        && r.value.owner == owner && r.value.soul == soul
        && r.value.storage.Keys == {Storage.Uploads, Storage.Transcripts, Storage.IndexCategory}
        && (forall c :: c in Storage.Categories ==>
              var listed := Storage.ListIn(storage.fs.log, Storage.SoulPath(storage.dataDir, owner, soul), [c]);
              listed.Ok? && r.value.storage[c] == Storage.StatsOf(listed.value))
        && r.value.rag == ScopedRag.Status(storage.fs.log, rag.IndexPath(owner, soul))
    {
      var user := Authorize(config, nowUs, utcOffset, token, owner);
      if user.Err? {
        return Err(user.error);
      }
      var stats := storage.GetStorageStats(owner, soul);
      if stats.Err? {
        return Err(stats.error);
      }
      var index := rag.CheckIndexStatus(owner, soul);
      r := Ok(SoulStatus(owner, soul, stats.value, index));
    }

    /**
     * `chat`: the index is queried only when it exists and sources are
     * wanted; the model gets the documents' texts as context, or none when
     * there are no documents; the sources are echoed only when wanted.
     * `reply` is what the model answers, or the error it raises.
     */
    method Chat(token: Token, nowUs: int, owner: string, soul: string, request: Schemas.ChatRequest,
                reply: Result<string, string>)
      returns (r: Result<ChatResponse, Raised>, queried: bool, sent: Option<Generation>)
      requires Valid()
      ensures Authorize(config, nowUs, utcOffset, token, owner).Err? ==>
        r == Err(Authorize(config, nowUs, utcOffset, token, owner).error) && !queried && sent.None?
      ensures Authorize(config, nowUs, utcOffset, token, owner).Ok? ==>
        var status := ScopedRag.Status(storage.fs.log, rag.IndexPath(owner, soul));
        && (queried <==> status.hasIndex && request.includeSources)
        && sent == Some(Generation(request.query, request.maxTokens, None))
        && (reply.Err? ==> r == Err(Http(HttpException(InternalServerError, "Chat failed: " + reply.error, []))))
        && (reply.Ok? ==> r == Ok(ChatResponse(reply.value, [], status.hasIndex, status.indexedDocuments)))
    {
      queried, sent := false, None;
      var user := Authorize(config, nowUs, utcOffset, token, owner);
      if user.Err? {
        return Err(user.error), queried, sent;
      }
      var status := rag.CheckIndexStatus(owner, soul);
      var docs: seq<ScopedRag.Document> := [];
      if status.hasIndex && request.includeSources {
        docs := rag.Query(owner, soul, request.query, request.topK);
        queried := true;
      }
      sent := Some(Generation(request.query, request.maxTokens, Context(docs)));
      if reply.Err? {
        return Err(Http(HttpException(InternalServerError, "Chat failed: " + reply.error, []))), queried, sent;
      }
      r := Ok(ChatResponse(reply.value, if request.includeSources then docs else [], status.hasIndex, status.indexedDocuments));
    }
  }
}
