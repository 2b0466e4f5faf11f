/**
 * The plain chat form (src/components/ChatInterface.tsx): one query box, the
 * last response, a loading flag and an error. `handleSubmit` is one atomic
 * method; `call` is what the chat request resolved or rejected with.
 */
module ChatInterface {
  import opened Common

  /** The request body the form sends; its temperature 0.7 is not modelled. */
  datatype ChatRequest = ChatRequest(query: string, topK: int, maxTokens: int, includeSources: bool)

  datatype ChatResponse = ChatResponse(responseText: string, usedDocs: seq<string>)

  const ChatFailedMessage: string := "Chat failed"

  /** The request built from a draft: trimmed query, five documents, 512 tokens, with sources. */
  function RequestFor(query: string): ChatRequest {
    ChatRequest(Trim(Js, query), 5, 512, true)
  }

  class Form {
    var query: string
    var response: Option<ChatResponse>
    var loading: bool
    var error: Option<string>

    constructor()
      ensures query == "" && response == None && !loading && error == None
    {
      query, response, loading, error := "", None, false, None;
    }

    /**
     * `handleSubmit(e)`: a blank query sends nothing and changes nothing.
     * Otherwise the trimmed query is sent; success keeps the response and
     * empties the box, failure keeps the box and the previous response and
     * records the message (or "Chat failed"); loading ends false either way.
     */
    method HandleSubmit(call: Result<ChatResponse, Thrown>) returns (sent: Option<ChatRequest>)
      modifies this
      ensures IsBlank(Js, old(query)) ==>
        && sent == None
        && query == old(query) && response == old(response) && loading == old(loading) && error == old(error)
      ensures !IsBlank(Js, old(query)) ==> sent == Some(RequestFor(old(query))) && !loading
      ensures !IsBlank(Js, old(query)) && call.Ok? ==> response == Some(call.value) && query == "" && error == None
      ensures !IsBlank(Js, old(query)) && call.Err? ==>
        && response == old(response) && query == old(query)
        && error == Some(MessageOr(call.error, ChatFailedMessage))
    {
      var draft := query;
      if IsBlank(Js, draft) {
        return None;
      }
      var request := RequestFor(draft);
      loading := true;
      error := None;
      sent := Some(request);
      if call.Ok? {
        response := Some(call.value);
        query := "";
      } else {
        error := Some(MessageOr(call.error, ChatFailedMessage));
      }
      loading := false;
    }
  }

  /** What is sent is never blank and has no surrounding whitespace. */
  lemma SentQueryIsTrimmed(query: string)
    requires !IsBlank(Js, query)
    ensures RequestFor(query).query != ""
    ensures !IsSpace(Js, RequestFor(query).query[0])
    ensures !IsSpace(Js, RequestFor(query).query[|RequestFor(query).query| - 1])
  {
    var t := TrimStart(Js, query);
    assert TrimEnd(Js, t) != [];
    assert TrimEnd(Js, t)[0] == t[0];
  }
}
