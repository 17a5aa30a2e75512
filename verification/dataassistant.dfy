/**
 * The dashboard's Data Assistant card: an append-only transcript opened
 * by a greeting, the input box, and the "assistant is typing" flag, which
 * is drawn below the transcript instead of being a message.
 */
module DataAssistantCard {
  import opened Text
  import opened DataChat

  /** A transcript entry of the card (it has no placeholder flag). */
  datatype Entry = Entry(id: string, sender: Sender, content: string, timestamp: string)

  const GreetingText: string := "Let's start a product test?"

  class Card {
    var messages: seq<Entry>
    var inputValue: string
    var isTyping: bool
    var sent: seq<string>

    /** The transcript always opens with the greeting. */
    ghost predicate Valid()
      reads this
    {
      |messages| >= 1 && messages[0].sender == AssistantSender && messages[0].content == GreetingText
    }

    constructor (iso: string)
      ensures Valid()
      ensures messages == [Entry("1", AssistantSender, GreetingText, iso)]
      ensures inputValue == "" && !isTyping && sent == []
    {
      messages := [Entry("1", AssistantSender, GreetingText, iso)];
      inputValue, isTyping, sent := "", false, [];
    }

    method SetInput(value: string)
      requires Valid()
      modifies this`inputValue
      ensures Valid()
      ensures inputValue == value
    {
      inputValue := value;
    }

    /**
     * `handleSendMessage`: blank input is ignored; otherwise exactly one
     * user entry carrying the untrimmed input is appended, the card waits,
     * the input goes out as a `chat_message` query and the box is cleared.
     */
    method SendMessage(now: nat, iso: string)
      requires Valid()
      modifies this`messages, this`inputValue, this`isTyping, this`sent
      ensures Valid()
      ensures Trim(old(inputValue)) == "" ==>
        messages == old(messages) && inputValue == old(inputValue) && isTyping == old(isTyping) && sent == old(sent)
      ensures Trim(old(inputValue)) != "" ==>
        && messages == old(messages) + [Entry(NatToString(now), UserSender, old(inputValue), iso)]
        && isTyping && sent == old(sent) + [old(inputValue)] && inputValue == ""
    {
      if Trim(inputValue) == "" {
        return;
      }
      messages := messages + [Entry(NatToString(now), UserSender, inputValue, iso)];
      isTyping := true;
      sent := sent + [inputValue];
      inputValue := "";
    }

    /** `handleKeyPress`: Enter without Shift sends; any other key does nothing. */
    method KeyPress(key: string, shiftKey: bool, now: nat, iso: string)
      requires Valid()
      modifies this`messages, this`inputValue, this`isTyping, this`sent
      ensures Valid()
      ensures key == "Enter" && !shiftKey && Trim(old(inputValue)) != "" ==>
        && messages == old(messages) + [Entry(NatToString(now), UserSender, old(inputValue), iso)]
        && isTyping && sent == old(sent) + [old(inputValue)] && inputValue == ""
      ensures !(key == "Enter" && !shiftKey) || Trim(old(inputValue)) == "" ==>
        messages == old(messages) && inputValue == old(inputValue) && isTyping == old(isTyping) && sent == old(sent)
    {
      if key == "Enter" && !shiftKey {
        SendMessage(now, iso);
      }
    }

    /**
     * The effect on a new server frame: a `chat_response` appends exactly
     * one assistant entry, removes nothing and ends the wait; any other
     * frame changes nothing.
     */
    method OnServerEvent(event: ServerEvent, now: nat)
      requires Valid()
      modifies this`messages, this`isTyping
      ensures Valid()
      ensures old(messages) <= messages
      ensures event.ChatResponse? ==>
        messages == old(messages) + [Entry(NatToString(now), AssistantSender, event.message, event.timestamp)] && !isTyping
      ensures event.OtherEvent? ==> messages == old(messages) && isTyping == old(isTyping)
    {
      if event.ChatResponse? {
        messages := messages + [Entry(NatToString(now), AssistantSender, event.message, event.timestamp)];
        isTyping := false;
      }
    }
  }
}
