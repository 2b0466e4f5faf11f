/**
 * The chat composer (src/components/ChatInput.tsx): a draft that the text area
 * edits, a Send button, and Enter-to-send. The parent's `onSend` callback is
 * observed through what `HandleSend` returns.
 */
module ChatInput {
  import opened Common

  /** The draft can go out: it has a non-whitespace character and no reply is being generated. */
  predicate CanSend(message: string, isGenerating: bool) {
    !IsBlank(Js, message) && !isGenerating
  }

  /** The Send button's `disabled`: exactly the drafts made only of whitespace. */
  function SendDisabled(message: string): (d: bool)
    ensures d <==> forall i :: 0 <= i < |message| ==> IsSpace(Js, message[i])
  {
    BlankIffAllSpace(Js, message);
    IsBlank(Js, message)
  }

  /** The counter under the box. */
  function CharacterCount(message: string): (n: nat)
    ensures n == 0 <==> message == ""
    ensures n == 0 ==> SendDisabled(message)
  {
    |message|
  }

  class Composer {
    var message: string

    constructor()
      ensures message == ""
    {
      message := "";
    }

    /** The text area's `onChange`. */
    method Edit(text: string)
      modifies this
      ensures message == text
    {
      message := text;
    }

    /**
     * `handleSend()`: the untrimmed draft goes to `onSend` and the draft is
     * cleared; otherwise nothing happens.
     */
    method HandleSend(isGenerating: bool) returns (sent: Option<string>)
      modifies this
      ensures CanSend(old(message), isGenerating) ==> sent == Some(old(message)) && message == ""
      ensures !CanSend(old(message), isGenerating) ==> sent == None && message == old(message)
    {
      if CanSend(message, isGenerating) {
        sent := Some(message);
        message := "";
      } else {
        sent := None;
      }
    }

    /** `handleKeyPress(e)`: Enter without Shift suppresses the newline and sends; any other key does neither. */
    method HandleKeyPress(key: string, shiftKey: bool, isGenerating: bool) returns (sent: Option<string>, preventDefault: bool)
      modifies this
      ensures preventDefault <==> key == "Enter" && !shiftKey
      ensures !preventDefault ==> sent == None && message == old(message)
      ensures preventDefault && CanSend(old(message), isGenerating) ==> sent == Some(old(message)) && message == ""
      ensures preventDefault && !CanSend(old(message), isGenerating) ==> sent == None && message == old(message)
    {
      preventDefault := key == "Enter" && !shiftKey;
      if preventDefault {
        sent := HandleSend(isGenerating);
      } else {
        sent := None;
      }
    }
  }

  /** A disabled Send button and a send that does nothing go together while no reply is being generated. */
  lemma DisabledMeansNoSend(message: string)
    ensures SendDisabled(message) <==> !CanSend(message, false)
  {
  }

  /** Whatever `onSend` receives has a non-whitespace character. */
  method SentIsNeverBlank(c: Composer, isGenerating: bool) returns (sent: Option<string>)
    modifies c
    ensures sent.Some? ==> exists i :: 0 <= i < |sent.value| && !IsSpace(Js, sent.value[i])
  {
    sent := c.HandleSend(isGenerating);
    if sent.Some? {
      BlankIffAllSpace(Js, sent.value);
    }
  }
}
