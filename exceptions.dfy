/**
 * The backend's error vocabulary (backend/core/exceptions.py): the domain
 * exceptions, all under `CyberSeedException`, and the helpers that raise
 * FastAPI `HTTPException`s (status codes per section 15.5 of RFC 9110).
 *
 * A helper that always raises is modelled as a function returning the
 * exception it raises; callers wrap it in `Err(Http(...))`.
 */
module Exceptions {
  import opened Common

  datatype HttpException = HttpException(statusCode: nat, detail: string, headers: seq<(string, string)>)

  /** The subclasses of `CyberSeedException`; `Base` is the class itself. */
  datatype DomainKind = Base | Authentication | Authorization | Storage | Rag | Transcription | Llm

  /** Anything a backend operation can raise. */
  datatype Raised =
    | Http(exc: HttpException)
    | Domain(kind: DomainKind, message: string)  // a `CyberSeedException`
    | Other(name: string)                       // any other exception: ValueError, TypeError, ValidationError, OSError

  /** `except CyberSeedException` catches every domain error and nothing else. */
  predicate IsCyberSeedException(r: Raised) {
    r.Domain?
  }

  /** `except StorageError` */
  predicate IsStorageError(r: Raised) {
    r.Domain? && r.kind == Storage
  }

  const BadRequest: nat := 400
  const Unauthorized: nat := 401
  const Forbidden: nat := 403
  const NotFound: nat := 404
  const InternalServerError: nat := 500

  /** `raise_http_exception(status_code, detail)` */
  function RaiseHttpException(statusCode: nat, detail: string): (e: HttpException)
    ensures e.statusCode == statusCode && e.detail == detail && e.headers == []
  {
    HttpException(statusCode, detail, [])
  }

  /** `raise_unauthorized(detail?)`: the only helper that adds a challenge header. */
  function RaiseUnauthorized(detail: Option<string>): (e: HttpException)
    ensures e.statusCode == Unauthorized
    ensures e.headers == [("WWW-Authenticate", "Bearer")]
    ensures detail.None? ==> e.detail == "Could not validate credentials"
    ensures detail.Some? ==> e.detail == detail.value
  {
    HttpException(Unauthorized, detail.GetOr("Could not validate credentials"), [("WWW-Authenticate", "Bearer")])
  }

  /** `raise_forbidden(detail?)` */
  function RaiseForbidden(detail: Option<string>): (e: HttpException)
    ensures e.statusCode == Forbidden && e.headers == []
    ensures e.detail == if detail.Some? then detail.value else "Forbidden"
  {
    HttpException(Forbidden, detail.GetOr("Forbidden"), [])
  }

  /** `raise_not_found(detail?)` */
  function RaiseNotFound(detail: Option<string>): (e: HttpException)
    ensures e.statusCode == NotFound && e.headers == []
    ensures e.detail == if detail.Some? then detail.value else "Not found"
  {
    HttpException(NotFound, detail.GetOr("Not found"), [])
  }

  /** `raise_bad_request(detail?)` */
  function RaiseBadRequest(detail: Option<string>): (e: HttpException)
    ensures e.statusCode == BadRequest && e.headers == []
    ensures e.detail == if detail.Some? then detail.value else "Bad request"
  {
    HttpException(BadRequest, detail.GetOr("Bad request"), [])
  }
}
