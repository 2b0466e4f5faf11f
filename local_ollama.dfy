/**
 * The Ollama provider (backend/core/llm/local_ollama.py): it turns a
 * prompt and an optional chat history into the JSON body of a POST to
 * `<base url>/api/chat` and reads the reply's `message.content`.
 *
 * The HTTP exchange is an `Exchange` parameter: the transport failure the
 * client raised, or the status and the parsed body of the answer.
 */
module Ollama {
  import opened Common
  import opened ModelRegistry

  const BaseUrlVariable: string := "OLLAMA_BASE_URL"
  const DefaultBaseUrl: string := "http://localhost:11434"
  const ChatEndpoint: string := "/api/chat"
  const TimeoutSeconds: real := 120.0

  /** The defaults of `generate`'s keyword arguments. */
  const DefaultMaxTokens: int := 2048
  const DefaultTemperature: real := 0.7
  const DefaultModelName: string := "llama3:8b"

  /** A history entry: a dict that may lack its "role" or "content" key. */
  datatype HistoryEntry = HistoryEntry(role: Option<string>, content: Option<string>)

  /** A chat message as sent to Ollama. */
  datatype Message = Message(role: string, content: string)

  /** The request body: `options` carries `num_predict` and `temperature`. */
  datatype Payload = Payload(model: string, messages: seq<Message>, stream: bool, numPredict: int, temperature: real)

  /** The POST the client makes. */
  datatype Request = Request(url: string, payload: Payload, timeout: real)

  /** The answer's `message` object, whose "content" key may be missing. */
  datatype ReplyMessage = ReplyMessage(content: Option<string>)

  /** The answer's JSON object, whose "message" key may be missing. */
  datatype ReplyBody = ReplyBody(message: Option<ReplyMessage>)

  /** How the POST went: the client raised, or the server answered with a body that is JSON or is not. */
  datatype Exchange =
    | TransportFailure(name: string)
    | Answered(status: int, body: Option<ReplyBody>)

  /** `os.getenv("OLLAMA_BASE_URL", "http://localhost:11434")`: a set but empty variable is kept. */
  function BaseUrl(env: map<string, string>): (url: string)
    ensures BaseUrlVariable in env ==> url == env[BaseUrlVariable]
    ensures BaseUrlVariable !in env ==> url == DefaultBaseUrl
  {
    if BaseUrlVariable in env then env[BaseUrlVariable] else DefaultBaseUrl
  }

  /** One history entry as a message: a missing role is "user", missing content is "". */
  function ToMessage(e: HistoryEntry): (m: Message)
    ensures e.role.Some? ==> m.role == e.role.value
    ensures e.role.None? ==> m.role == "user"
    ensures e.content.Some? ==> m.content == e.content.value
    ensures e.content.None? ==> m.content == ""
  {
    Message(e.role.GetOr("user"), e.content.GetOr(""))
  }

  /** The history converted entry by entry, defined from the last entry so that it follows the loop. */
  function Converted(history: seq<HistoryEntry>): seq<Message>
    decreases |history|
  {
    if |history| == 0 then []
    else Converted(history[..|history| - 1]) + [ToMessage(history[|history| - 1])]
  }

  /** `if history:`: None and the empty list contribute nothing. */
  function Entries(history: Option<seq<HistoryEntry>>): (h: seq<HistoryEntry>)
    ensures history.None? ==> h == []
    ensures history.Some? ==> h == history.value
  {
    if history.Some? then history.value else []
  }

  /** The messages `generate` sends: the converted history, then the prompt as a user message. */
  function Messages(history: Option<seq<HistoryEntry>>, prompt: string): (m: seq<Message>)
    ensures |m| == |Entries(history)| + 1
    ensures m[|m| - 1] == Message("user", prompt)
  {
    ConvertedEntries(Entries(history));
    Converted(Entries(history)) + [Message("user", prompt)]
  }

  /** The conversion keeps the length and the order, entry by entry. */
  lemma {:induction false} ConvertedEntries(history: seq<HistoryEntry>)
    ensures |Converted(history)| == |history|
    ensures forall i :: 0 <= i < |history| ==> Converted(history)[i] == ToMessage(history[i])
    decreases |history|
  {
    if |history| > 0 {
      var init := history[..|history| - 1];
      ConvertedEntries(init);
      forall i | 0 <= i < |history| ensures Converted(history)[i] == ToMessage(history[i]) {
        if i < |init| {
          assert history[i] == init[i];
        }
      }
    }
  }

  /**
   * One message per history entry, in order, with the defaults filled in,
   * and last the prompt from the user; with no history, only the prompt.
   */
  lemma MessagesShape(history: Option<seq<HistoryEntry>>, prompt: string)
    ensures var m := Messages(history, prompt);
            && |m| == |Entries(history)| + 1
            && (forall i :: 0 <= i < |Entries(history)| ==>
                  m[i].role == Entries(history)[i].role.GetOr("user")
                  && m[i].content == Entries(history)[i].content.GetOr(""))
            && m[|m| - 1] == Message("user", prompt)
    ensures Entries(history) == [] ==> Messages(history, prompt) == [Message("user", prompt)]
  {
    ConvertedEntries(Entries(history));
  }

  /** The request `generate` makes: never streaming, with the token budget and temperature as options. */
  function RequestFor(baseUrl: string, prompt: string, history: Option<seq<HistoryEntry>>,
                      maxTokens: int, temperature: real, model: string): (r: Request)
    ensures r.url == baseUrl + ChatEndpoint && r.timeout == TimeoutSeconds
    ensures r.payload.model == model && !r.payload.stream
    ensures r.payload.numPredict == maxTokens && r.payload.temperature == temperature
    ensures r.payload.messages == Messages(history, prompt)
  {
    Request(baseUrl + ChatEndpoint, Payload(model, Messages(history, prompt), false, maxTokens, temperature), TimeoutSeconds)
  }

  /**
   * What `generate` returns for an exchange: transport errors propagate,
   * `raise_for_status` raises for anything but 2xx (redirects are not
   * followed), a body that is not JSON fails to decode, and otherwise the
   * reply is `message.content` with "" for either key missing.
   */
  function ReplyOf(ex: Exchange): (r: Result<string, LlmError>)
    ensures r.Ok? <==> ex.Answered? && 200 <= ex.status < 300 && ex.body.Some?
    ensures ex.TransportFailure? ==> r == Err(ClientError(ex.name))
    ensures ex.Answered? && !(200 <= ex.status < 300) ==> r == Err(ClientError("HTTPStatusError"))
    ensures r.Ok? && ex.body.value.message.None? ==> r.value == ""
    ensures r.Ok? && ex.body.value.message.Some? ==> r.value == ex.body.value.message.value.content.GetOr("")
  {
    match ex
    case TransportFailure(name) => Err(ClientError(name))
    case Answered(status, body) =>
      if !(200 <= status < 300) then Err(ClientError("HTTPStatusError"))
      else if body.None? then Err(ClientError("JSONDecodeError"))
      else match body.value.message
        case None => Ok("")
        case Some(m) => Ok(m.content.GetOr(""))
  }

  /** `OllamaClient`: the base URL read from the environment at construction, and the timeout. */
  class OllamaClient {
    const baseUrl: string
    const timeout: real := TimeoutSeconds

    constructor(env: map<string, string>)
      ensures baseUrl == BaseUrl(env) && timeout == TimeoutSeconds
    {
      baseUrl := BaseUrl(env);
    }

    /**
     * `generate`: build the messages in a loop, post the payload, and
     * read the reply. `sent` is the request made.
     */
    method Generate(prompt: string, history: Option<seq<HistoryEntry>>, maxTokens: int, temperature: real,
                    model: string, ex: Exchange)
      returns (reply: Result<string, LlmError>, sent: Request)
      ensures sent == RequestFor(baseUrl, prompt, history, maxTokens, temperature, model)
      ensures reply == ReplyOf(ex)
    {
      var messages: seq<Message> := [];
      if history.Some? && |history.value| > 0 {
        var h := history.value;
        var i := 0;
        while i < |h|
          invariant 0 <= i <= |h|
          invariant messages == Converted(h[..i])
        {
          assert h[..i + 1][..i] == h[..i];
          messages := messages + [ToMessage(h[i])];
          i := i + 1;
        }
        assert h[..|h|] == h;
      }
      messages := messages + [Message("user", prompt)];
      sent := Request(baseUrl + ChatEndpoint, Payload(model, messages, false, maxTokens, temperature), timeout);
      reply := ReplyOf(ex);
    }
  }
}
