/**
 * The data-analysis chat: the clean-data banner's two error counters over
 * the shared error map, and the message list the chat keeps while a
 * question is sent and answered.
 */
module DataRetrievalChat {
  import opened Js
  import opened Store

  datatype Role = User | Assistant

  /** A chat message; `streaming` is absent on user messages. */
  datatype Message = Message(id: string, role: Role, content: string, streaming: Option<bool>)

  /** The greeting `startChat` shows. */
  const Greeting := "Hello! I'm ready to help you analyze your data. What would you like to know about your clients, workers, and tasks?"

  /** The text an assistant message gets when the request fails. */
  const FailureReply := "Sorry, I encountered an error while processing your request. Please try again."

  /** The guard of `sendMessage`: something other than whitespace typed, and no reply outstanding. */
  predicate CanSend(input: string, isLoading: bool)
  {
    Trim(input) != "" && !isLoading
  }

  /**
   * The two messages `sendMessage` appends: the trimmed question, with the id
   * of the first clock reading, then an empty streaming reply, with the id of
   * the second reading plus one.
   */
  function Exchange(input: string, first: nat, second: nat): seq<Message>
  {
    [Message(NatToString(first), User, Trim(input), None),
     Message(NatToString(second + 1), Assistant, "", Some(true))]
  }

  /** An input made only of whitespace, the empty input included, is never sent; neither is anything while loading. */
  lemma BlankNeverSent(input: string, isLoading: bool)
    requires (forall i :: 0 <= i < |input| ==> IsWhitespace(input[i])) || isLoading
    ensures !CanSend(input, isLoading)
  {
    TrimEmptyIff(input);
  }

  /**
   * A sent question reaches the list as a user message holding the input
   * without its surrounding whitespace, which is non-empty, followed by an
   * empty assistant reply that is streaming. The ids come from two clock
   * readings; they differ as long as the clock does not go back between them.
   */
  lemma ExchangeShape(input: string, first: nat, second: nat)
    requires CanSend(input, false)
    requires first <= second
    ensures var x := Exchange(input, first, second);
      && |x| == 2
      && x[0].role == User && x[0].content == Trim(input) && x[0].content != ""
      && !IsWhitespace(x[0].content[0]) && !IsWhitespace(x[0].content[|x[0].content| - 1])
      && x[1].role == Assistant && x[1].content == "" && x[1].streaming == Some(true)
      && x[0].id != x[1].id
  {
    TrimEnds(input);
    if NatToString(first) == NatToString(second + 1) {
      NatToStringInjective(first, second + 1);
    }
  }

  /** `prev.map((msg) => msg.id === id ? {...msg, content: text, streaming: false} : msg)`. */
  function FinishReply(messages: seq<Message>, id: string, text: string): seq<Message>
  {
    seq(|messages|, i requires 0 <= i < |messages| =>
      if messages[i].id == id then messages[i].(content := text, streaming := Some(false)) else messages[i])
  }

  /**
   * Finishing a reply keeps the list's length and order, gives every message
   * with that id the text and stops its streaming, and leaves every other
   * message as it was.
   */
  lemma FinishReplyFacts(messages: seq<Message>, id: string, text: string)
    ensures var r := FinishReply(messages, id, text);
      && |r| == |messages|
      && (forall i :: 0 <= i < |r| && messages[i].id == id ==>
            r[i].content == text && r[i].streaming == Some(false)
            && r[i].id == id && r[i].role == messages[i].role)
      && (forall i :: 0 <= i < |r| && messages[i].id != id ==> r[i] == messages[i])
  {
  }

  /** The chat's state; the shared store supplies the error map the banner reads. */
  class Chat {
    const store: AppStore
    var messages: seq<Message>
    var inputValue: string
    var isLoading: bool
    var chatStarted: bool

    constructor (store: AppStore)
      ensures this.store == store
      ensures messages == [] && inputValue == "" && !isLoading && !chatStarted
    {
      this.store := store;
      messages := [];
      inputValue := "";
      isLoading := false;
      chatStarted := false;
    }

    /** `hasErrors`: some entity has a row entry. */
    predicate HasErrorsShown()
      reads this, store
    {
      HasErrors(store.validationErrors)
    }

    /** `totalErrors`: the number of (row, field) entries across the three entities. */
    function TotalErrorsShown(): nat
      reads this, store
    {
      TotalErrors(store.validationErrors)
    }

    /** `startChat` at clock reading `now`: the list restarts with the greeting. */
    method StartChat(now: nat)
      modifies this
      ensures chatStarted
      ensures messages == [Message(NatToString(now), Assistant, Greeting, Some(false))]
      ensures inputValue == old(inputValue) && isLoading == old(isLoading)
    {
      chatStarted := true;
      messages := [Message(NatToString(now), Assistant, Greeting, Some(false))];
    }

    /**
     * `sendMessage` up to the request, with the clock read at `first` for the
     * question and again at `second` for the reply: blank input or
     * an outstanding reply change nothing; otherwise the question and an
     * empty reply are appended, the input clears and the chat waits.
     */
    method SendMessage(first: nat, second: nat)
      modifies this
      ensures !CanSend(old(inputValue), old(isLoading)) ==>
        messages == old(messages) && inputValue == old(inputValue) && isLoading == old(isLoading)
      ensures CanSend(old(inputValue), old(isLoading)) ==>
        messages == old(messages) + Exchange(old(inputValue), first, second) && inputValue == "" && isLoading
      ensures chatStarted == old(chatStarted)
    {
      if Trim(inputValue) == "" || isLoading {
        return;
      }
      var userMessage := Message(NatToString(first), User, Trim(inputValue), None);
      var assistantMessage := Message(NatToString(second + 1), Assistant, "", Some(true));
      messages := messages + [userMessage, assistantMessage];
      inputValue := "";
      isLoading := true;
    }

    /** The end of streaming (or of the failure path, with `FailureReply`): the reply gets its text and loading stops. */
    method CompleteReply(id: string, text: string)
      modifies this
      ensures messages == FinishReply(old(messages), id, text)
      ensures !isLoading && inputValue == old(inputValue) && chatStarted == old(chatStarted)
    {
      messages := FinishReply(messages, id, text);
      isLoading := false;
    }
  }
}
