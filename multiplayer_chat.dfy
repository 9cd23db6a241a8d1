/**
 * The stand-alone chat box: a text input and a transcript.  Posting appends
 * one entry, sent under the fixed demo identity (id 1236, name "John"), and
 * clears the input.  The transcript is rebuilt by copying the old one and
 * appending (`[...chatHistory, entry]`), then stored in place of the old one.
 */
module MultiplayerChat {
  import opened ChatText

  /** One line of the transcript. */
  datatype ChatEntry = ChatEntry(userId: int, userName: string, userMessage: string)

  const DemoUserId := 1236
  const DemoUserName := "John"

  /** The entry posted for the typed text `typed`. */
  function Entry(typed: string): (e: ChatEntry)
    ensures e.userId == DemoUserId && e.userName == DemoUserName
    ensures e.userMessage == Body(typed)
  {
    ChatEntry(DemoUserId, DemoUserName, Body(typed))
  }

  /** The transcript after posting each of `inputs` in turn to `history`. */
  function PostAll(history: seq<ChatEntry>, inputs: seq<string>): seq<ChatEntry>
    decreases |inputs|
  {
    if inputs == [] then history
    else PostAll(history, inputs[..|inputs| - 1]) + [Entry(inputs[|inputs| - 1])]
  }

  /**
   * Posting a sequence of inputs keeps the old transcript as a prefix and adds
   * exactly one entry per post, in posting order, each carrying the demo
   * identity and the body of its input.
   */
  lemma {:induction false} PostAllAppends(history: seq<ChatEntry>, inputs: seq<string>)
    ensures var r := PostAll(history, inputs);
            |r| == |history| + |inputs| && r[..|history|] == history &&
            forall i :: 0 <= i < |inputs| ==>
              r[|history| + i] == ChatEntry(DemoUserId, DemoUserName, Body(inputs[i]))
    decreases |inputs|
  {
    if inputs != [] {
      var init := inputs[..|inputs| - 1];
      PostAllAppends(history, init);
      var r := PostAll(history, inputs);
      var r0 := PostAll(history, init);
      assert r == r0 + [Entry(inputs[|inputs| - 1])];
      forall i | 0 <= i < |inputs|
        ensures r[|history| + i] == ChatEntry(DemoUserId, DemoUserName, Body(inputs[i]))
      {
        if i < |init| {
          assert inputs[i] == init[i];
        }
      }
    }
  }

  /** Every message in a transcript built by posts is non-empty and from the demo identity. */
  ghost predicate WellFormed(history: seq<ChatEntry>) {
    forall i :: 0 <= i < |history| ==>
      history[i].userId == DemoUserId && history[i].userName == DemoUserName && history[i].userMessage != []
  }

  /** The chat box's state: the input text and the transcript. */
  class ChatBox {
    var newChat: string
    var chatHistory: seq<ChatEntry>

    constructor ()
      ensures newChat == [] && chatHistory == []
    {
      newChat := [];
      chatHistory := [];
    }

    /** The input's change handler. */
    method Type(text: string)
      modifies this`newChat
      ensures newChat == text
    {
      newChat := text;
    }

    /** The post button: append the entry for the current input, then clear the input. */
    method PostNewChat()
      modifies this
      ensures chatHistory == old(chatHistory) + [Entry(old(newChat))]
      ensures chatHistory == PostAll(old(chatHistory), [old(newChat)])
      ensures WellFormed(old(chatHistory)) ==> WellFormed(chatHistory)
      ensures newChat == []
    {
      if |newChat| == 0 {
        chatHistory := chatHistory + [ChatEntry(DemoUserId, DemoUserName, Placeholder)];
      } else {
        chatHistory := chatHistory + [ChatEntry(DemoUserId, DemoUserName, newChat)];
      }
      newChat := [];
    }
  }
}
