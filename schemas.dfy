/**
 * The request and response bodies the backend validates (backend/schemas_v2.py).
 * A request field arrives as `Some(value)` or is absent (`None`); validation
 * fills in the declared defaults and, like the validation library, reports
 * every failing field, in declaration order, rather than stopping at the first.
 */
module Schemas {
  import opened Common
  import ChatInterface
  import Auth

  datatype LoginRequest = LoginRequest(username: string, password: string)

  /** The chat body; its `temperature` (a float in [0, 2], default 0.7) is not modelled. */
  datatype ChatRequest = ChatRequest(query: string, topK: int, maxTokens: int, includeSources: bool)

  datatype TranscribeRequest = TranscribeRequest(filePath: string, model: string, language: string)

  datatype TrainRequest = TrainRequest(includeUploads: bool, includeTranscripts: bool)

  /** The token strings are the encoded tokens, modelled as `Auth.Token` values. */
  datatype TokenResponse = TokenResponse(accessToken: Auth.Token, refreshToken: Auth.Token, tokenType: string)

  const DefaultTopK: int := 5
  const DefaultMaxTokens: int := 512

  /** The checks of `ChatRequest`, one entry per failing field. */
  function ChatErrors(query: Option<string>, topK: int, maxTokens: int): seq<string> {
    (if query.None? then ["query"] else [])
    + (if 1 <= topK <= 20 then [] else ["top_k"])
    + (if 1 <= maxTokens <= 4096 then [] else ["max_tokens"])
  }

  /** `ChatRequest(**body)`: the query is required, top_k in [1, 20] (default 5), max_tokens in [1, 4096] (default 512). */
  function ValidateChat(query: Option<string>, topK: Option<int>, maxTokens: Option<int>, includeSources: Option<bool>)
    : (r: Result<ChatRequest, seq<string>>)
    ensures r.Ok? <==> query.Some? && 1 <= topK.GetOr(DefaultTopK) <= 20 && 1 <= maxTokens.GetOr(DefaultMaxTokens) <= 4096
    ensures r.Ok? ==> r.value == ChatRequest(query.value, topK.GetOr(DefaultTopK), maxTokens.GetOr(DefaultMaxTokens), includeSources.GetOr(true))
    ensures r.Err? ==> ("query" in r.error <==> query.None?)
    ensures r.Err? ==> ("top_k" in r.error <==> !(1 <= topK.GetOr(DefaultTopK) <= 20))
    ensures r.Err? ==> ("max_tokens" in r.error <==> !(1 <= maxTokens.GetOr(DefaultMaxTokens) <= 4096))
  {
    var k, m := topK.GetOr(DefaultTopK), maxTokens.GetOr(DefaultMaxTokens);
    var errors := ChatErrors(query, k, m);
    if errors == [] then Ok(ChatRequest(query.value, k, m, includeSources.GetOr(true)))
    else Err(errors)
  }

  /** A body with only a query is accepted with every default. */
  lemma QueryOnlyChat(query: string)
    ensures ValidateChat(Some(query), None, None, None) == Ok(ChatRequest(query, 5, 512, true))
  {
  }

  /** Whatever the chat form sends passes the backend's checks unchanged. */
  lemma FormRequestAccepted(draft: string)
    ensures var sent := ChatInterface.RequestFor(draft);
      ValidateChat(Some(sent.query), Some(sent.topK), Some(sent.maxTokens), Some(sent.includeSources))
      == Ok(ChatRequest(sent.query, sent.topK, sent.maxTokens, sent.includeSources))
  {
  }

  /** `TranscribeRequest(**body)`: file_path is required; model "small" and language "en" by default. */
  function ValidateTranscribe(filePath: Option<string>, model: Option<string>, language: Option<string>)
    : (r: Result<TranscribeRequest, seq<string>>)
    ensures r.Ok? <==> filePath.Some?
    ensures r.Ok? ==> r.value.filePath == filePath.value
    ensures r.Ok? ==> r.value.model == (if model.Some? then model.value else "small")
    ensures r.Ok? ==> r.value.language == (if language.Some? then language.value else "en")
    ensures r.Err? ==> r.error == ["file_path"]
  {
    if filePath.None? then Err(["file_path"])
    else Ok(TranscribeRequest(filePath.value, model.GetOr("small"), language.GetOr("en")))
  }

  /** `TrainRequest(**body)`: both sources are included unless the body says otherwise. */
  function ValidateTrain(includeUploads: Option<bool>, includeTranscripts: Option<bool>): (r: TrainRequest)
    ensures r.includeUploads <==> includeUploads != Some(false)
    ensures r.includeTranscripts <==> includeTranscripts != Some(false)
  {
    TrainRequest(includeUploads.GetOr(true), includeTranscripts.GetOr(true))
  }

  /** `LoginRequest(**body)`: both fields are required. */
  function ValidateLogin(username: Option<string>, password: Option<string>): (r: Result<LoginRequest, seq<string>>)
    ensures r.Ok? <==> username.Some? && password.Some?
    ensures r.Ok? ==> r.value == LoginRequest(username.value, password.value)
    ensures r.Err? ==> ("username" in r.error <==> username.None?) && ("password" in r.error <==> password.None?)
  {
    var errors := (if username.None? then ["username"] else []) + (if password.None? then ["password"] else []);
    if errors == [] then Ok(LoginRequest(username.value, password.value)) else Err(errors)
  }

  /** `TokenResponse(access_token=..., refresh_token=...)`: the type is "bearer" unless given. */
  function MakeTokenResponse(accessToken: Auth.Token, refreshToken: Auth.Token, tokenType: Option<string>): (r: TokenResponse)
    ensures r.accessToken == accessToken && r.refreshToken == refreshToken
    ensures tokenType.None? ==> r.tokenType == "bearer"
    ensures tokenType.Some? ==> r.tokenType == tokenType.value
  {
    TokenResponse(accessToken, refreshToken, tokenType.GetOr("bearer"))
  }
}
