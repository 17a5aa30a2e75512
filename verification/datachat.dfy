/**
 * The Data Chat page: a transcript of user and assistant messages, the
 * input box, the "assistant is typing" flag, and the `chat_message` frames
 * the page sends.  A send appends the user's message and a typing
 * placeholder; a `chat_response` replaces every placeholder with the
 * answer.
 */
module DataChat {
  import opened Js
  import opened Text
  import Assistant

  datatype Sender = UserSender | AssistantSender

  datatype Message = Message(id: string, sender: Sender, content: string, timestamp: string, isTyping: bool)

  /** A frame from the server, as the socket hook hands it over. */
  datatype ServerEvent = ChatResponse(message: string, timestamp: string) | OtherEvent(kind: string)

  const WelcomeText: string :=
    "Hello! I'm your data assistant. I can help you analyze client performance, ROI metrics, test results, and recent activities. What would you like to explore today?"
  const ClearedText: string := "Chat cleared! How can I help you analyze your data?"

  /** A canned question offered beside the transcript. */
  datatype QuickQuery = QuickQuery(id: string, title: string, query: string)

  /** The quick queries as the page lists them. */
  const AsWrittenQuickQueries: seq<QuickQuery> := [
    QuickQuery("roi-trends", "Show ROI trends", "Show me the ROI trends for this quarter"),
    QuickQuery("client-performance", "Top clients", "Who are my top performing clients?"),
    QuickQuery("test-completion", "Test completion rates", "What are the current test completion rates?"),
    QuickQuery("recent-activity", "Recent activity", "Summarize recent client activities")
  ]

  /**
   * The quick queries as their labels intend them: the "Recent activity"
   * entry asks a question the responder files under recent activity.  The
   * page model above sends the listed texts; this list is the correction.
   */
  const CorrectedQuickQueries: seq<QuickQuery> := [
    QuickQuery("roi-trends", "Show ROI trends", "Show me the ROI trends for this quarter"),
    QuickQuery("client-performance", "Top clients", "Who are my top performing clients?"),
    QuickQuery("test-completion", "Test completion rates", "What are the current test completion rates?"),
    QuickQuery("recent-activity", "Recent activity", "Recent activity")
  ]

  /** Every quick query the page lists has a non-empty text, so its button always sends that text. */
  lemma QuickQueryTextsNonEmpty(k: nat)
    requires k < |AsWrittenQuickQueries|
    ensures AsWrittenQuickQueries[k].query != ""
  {
    if k == 0 {
    } else if k == 1 {
    } else if k == 2 {
    } else {
      assert AsWrittenQuickQueries[3].query == "Summarize recent client activities";
    }
  }

  /** The as-written "Recent activity" quick query is answered with the client count. */
  lemma AsWrittenRecentActivityMisrouted(q: QuickQuery)
    requires q == AsWrittenQuickQueries[3]
    ensures q.title == "Recent activity"
    ensures Assistant.Classify(q.query) == Assistant.ClientIntent
  {
    var lowered := "summarize recent client activities";
    assert Lower(q.query) == lowered by {
      forall i | 0 <= i < |lowered| ensures Lower(q.query)[i] == lowered[i] {
      }
    }
    Assistant.RecentClientActivitiesScenario(q.query);
  }

  /** The corrected "Recent activity" quick query reaches the activity answer. */
  lemma RecentActivityQuickQueryIsActivity(q: QuickQuery)
    requires q == CorrectedQuickQueries[3]
    ensures q.title == "Recent activity"
    ensures Assistant.Classify(q.query) == Assistant.ActivityIntent
  {
    assert Lower(q.query) == "recent activity" by {
      forall i | 0 <= i < |q.query| ensures Lower(q.query)[i] == "recent activity"[i] {
      }
    }
    Assistant.RecentActivityIsActivity(q.query);
  }

  /** The user's message for a send at clock tick `now`. */
  function UserMessage(text: string, now: nat, iso: string): Message
  {
    Message(NatToString(now), UserSender, text, iso, false)
  }

  const TypingMessageId: string := "typing"

  function TypingPlaceholder(iso: string): Message
  {
    Message(TypingMessageId, AssistantSender, "", iso, true)
  }

  predicate TypingShown(ms: seq<Message>)
  {
    exists i :: 0 <= i < |ms| && ms[i].isTyping
  }

  /** `messages.filter(m => !m.isTyping)`. */
  function WithoutTyping(ms: seq<Message>): (r: seq<Message>)
    ensures |r| <= |ms|
    ensures forall i :: 0 <= i < |r| ==> !r[i].isTyping
  {
    if ms == [] then []
    else
      var last := ms[|ms| - 1];
      WithoutTyping(ms[..|ms| - 1]) + (if last.isTyping then [] else [last])
  }

  lemma {:induction false} WithoutTypingAppend(a: seq<Message>, b: seq<Message>)
    ensures WithoutTyping(a + b) == WithoutTyping(a) + WithoutTyping(b)
    decreases |b|
  {
    if b == [] {
      assert a + b == a;
    } else {
      var ab := a + b;
      assert ab[..|ab| - 1] == a + b[..|b| - 1];
      assert ab[|ab| - 1] == b[|b| - 1];
      WithoutTypingAppend(a, b[..|b| - 1]);
    }
  }

  /** A transcript with no placeholder passes the filter unchanged. */
  lemma {:induction false} WithoutTypingIdle(ms: seq<Message>)
    requires !TypingShown(ms)
    ensures WithoutTyping(ms) == ms
  {
    if ms != [] {
      var init := ms[..|ms| - 1];
      assert !TypingShown(init) by {
        forall i | 0 <= i < |init| ensures !init[i].isTyping {
          assert init[i] == ms[i];
        }
      }
      WithoutTypingIdle(init);
      assert !ms[|ms| - 1].isTyping;
    }
  }

  /** One line of the exported text. */
  function ExportLine(m: Message): string
  {
    (if m.sender == UserSender then YouPrefix else AssistantPrefix) + m.content
  }

  const YouPrefix: string := "You: "
  const AssistantPrefix: string := "Assistant: "

  function ExportLines(ms: seq<Message>): (r: seq<string>)
    ensures |r| == |ms|
    ensures forall i :: 0 <= i < |ms| ==> r[i] == ExportLine(ms[i])
  {
    seq(|ms|, i requires 0 <= i < |ms| => ExportLine(ms[i]))
  }

  const ExportSeparator: string := "\n\n"

  /** The text `handleExportChat` puts in the downloaded file. */
  function ExportText(ms: seq<Message>): (r: string)
    ensures WithoutTyping(ms) == [] ==> r == ""
    ensures WithoutTyping(ms) != [] ==> ExportLine(WithoutTyping(ms)[0]) <= r
  {
    var lines := ExportLines(WithoutTyping(ms));
    if lines != [] then JoinStartsWithFirst(lines, ExportSeparator); Join(lines, ExportSeparator)
    else Join(lines, ExportSeparator)
  }

  /** A placeholder never shows in the export. */
  lemma ExportIgnoresPlaceholder(ms: seq<Message>, iso: string)
    ensures ExportText(ms + [TypingPlaceholder(iso)]) == ExportText(ms)
  {
    WithoutTypingAppend(ms, [TypingPlaceholder(iso)]);
    assert WithoutTyping([TypingPlaceholder(iso)]) == [];
    assert WithoutTyping(ms) + [] == WithoutTyping(ms);
  }

  /** Exporting after one more visible message adds a separator and its line. */
  lemma ExportAppendVisible(ms: seq<Message>, m: Message)
    requires WithoutTyping(ms) != []
    requires !m.isTyping
    ensures ExportText(ms + [m]) == ExportText(ms) + ExportSeparator + ExportLine(m)
  {
    var w := WithoutTyping(ms);
    WithoutTypingAppend(ms, [m]);
    assert WithoutTyping([m]) == [m];
    assert ExportLines(w + [m]) == ExportLines(w) + [ExportLine(m)];
    JoinAppend(ExportLines(w), ExportLine(m), ExportSeparator);
  }

  /** Filtering after a send leaves the transcript and the user's message, without the placeholder. */
  lemma FilterAfterSend(ms: seq<Message>, user: Message, iso: string)
    requires !TypingShown(ms) && !user.isTyping
    ensures WithoutTyping(ms + [user, TypingPlaceholder(iso)]) == ms + [user]
    ensures !TypingShown(ms + [user])
  {
    var shown := ms + [user];
    assert ms + [user, TypingPlaceholder(iso)] == shown + [TypingPlaceholder(iso)];
    assert !TypingShown(shown) by {
      forall i | 0 <= i < |shown| ensures !shown[i].isTyping {
        if i < |ms| { assert shown[i] == ms[i]; }
      }
    }
    WithoutTypingIdle(shown);
    WithoutTypingAppend(shown, [TypingPlaceholder(iso)]);
    assert WithoutTyping([TypingPlaceholder(iso)]) == [];
    assert shown + [] == shown;
  }

  /**
   * A full exchange, a send followed by its `chat_response`, adds exactly a
   * "You: …" line and an "Assistant: …" line to the export of a transcript
   * that shows no placeholder.
   */
  lemma ExportAfterExchange(ms: seq<Message>, text: string, answer: Message, now: nat, iso: string)
    requires ms != [] && !TypingShown(ms)
    requires answer.sender == AssistantSender && !answer.isTyping
    ensures ExportText(WithoutTyping(ms + [UserMessage(text, now, iso), TypingPlaceholder(iso)]) + [answer])
         == ExportText(ms) + ExportSeparator + (YouPrefix + text) + ExportSeparator + (AssistantPrefix + answer.content)
  {
    var user := UserMessage(text, now, iso);
    var shown := ms + [user];
    FilterAfterSend(ms, user, iso);
    assert WithoutTyping(ms + [user, TypingPlaceholder(iso)]) + [answer] == shown + [answer];
    WithoutTypingIdle(ms);
    WithoutTypingIdle(shown);
    var e0 := ExportText(ms);
    ExportAppendVisible(ms, user);
    var e1 := ExportText(shown);
    assert e1 == e0 + ExportSeparator + (YouPrefix + text);
    ExportAppendVisible(shown, answer);
    assert ExportText(shown + [answer]) == e1 + ExportSeparator + (AssistantPrefix + answer.content);
  }

  /** The page's state. `sent` lists the queries of the `chat_message` frames it sent, in order. */
  class Chat {
    var messages: seq<Message>
    var inputValue: string
    var isTyping: bool
    var sent: seq<string>

    /** A placeholder is shown only while the page waits for an answer. */
    ghost predicate Valid()
      reads this
    {
      TypingShown(messages) ==> isTyping
    }

    constructor (iso: string)
      ensures Valid()
      ensures messages == [Message("welcome", AssistantSender, WelcomeText, iso, false)]
      ensures inputValue == "" && !isTyping && sent == []
    {
      messages := [Message("welcome", AssistantSender, WelcomeText, iso, false)];
      inputValue, isTyping, sent := "", false, [];
    }

    /** The input box's `onChange`. */
    method SetInput(value: string)
      requires Valid()
      modifies this`inputValue
      ensures Valid()
      ensures inputValue == value
    {
      inputValue := value;
    }

    /**
     * The state after sending `text` from the given state: nothing changes
     * for blank text; otherwise the user's message and a placeholder are
     * appended, the page waits, the frame goes out and the input is cleared.
     */
    ghost predicate SendOutcome(ms0: seq<Message>, input0: string, typing0: bool, sent0: seq<string>,
                                text: string, now: nat, iso: string)
      reads this
    {
      if Trim(text) == "" then
        messages == ms0 && inputValue == input0 && isTyping == typing0 && sent == sent0
      else
        && messages == ms0 + [UserMessage(text, now, iso), TypingPlaceholder(iso)]
        && isTyping && sent == sent0 + [text] && inputValue == ""
    }

    /** `handleSendMessage(messageText?)`: the text is `messageText || inputValue`. */
    method SendMessage(messageText: JsStr, now: nat, iso: string)
      requires Valid()
      modifies this`messages, this`inputValue, this`isTyping, this`sent
      ensures Valid()
      ensures SendOutcome(old(messages), old(inputValue), old(isTyping), old(sent), Or(messageText, old(inputValue)), now, iso)
    {
      var textToSend := Or(messageText, inputValue);
      if Trim(textToSend) == "" {
        return;
      }
      messages := messages + [UserMessage(textToSend, now, iso)];
      isTyping := true;
      messages := messages + [TypingPlaceholder(iso)];
      sent := sent + [textToSend];
      inputValue := "";
      assert TypingShown(messages) by {
        assert messages[|messages| - 1].isTyping;
      }
    }

    /** `handleKeyPress`: Enter without Shift sends the input; any other key does nothing. */
    method KeyPress(key: string, shiftKey: bool, now: nat, iso: string)
      requires Valid()
      modifies this`messages, this`inputValue, this`isTyping, this`sent
      ensures Valid()
      ensures key == "Enter" && !shiftKey ==>
        SendOutcome(old(messages), old(inputValue), old(isTyping), old(sent), old(inputValue), now, iso)
      ensures !(key == "Enter" && !shiftKey) ==>
        messages == old(messages) && inputValue == old(inputValue) && isTyping == old(isTyping) && sent == old(sent)
    {
      if key == "Enter" && !shiftKey {
        SendMessage(Undefined, now, iso);
      }
    }

    /** `handleQuickQuery(query)`: sends the query's own text, or the input when that text is empty. */
    method QuickQuerySend(query: string, now: nat, iso: string)
      requires Valid()
      modifies this`messages, this`inputValue, this`isTyping, this`sent
      ensures Valid()
      ensures SendOutcome(old(messages), old(inputValue), old(isTyping), old(sent),
                          if query != "" then query else old(inputValue), now, iso)
    {
      SendMessage(Str(query), now, iso);
    }

    /** A quick-query button of the page: it sends that entry's query text. */
    method PressQuickQuery(k: nat, now: nat, iso: string)
      requires Valid() && k < |AsWrittenQuickQueries|
      modifies this`messages, this`inputValue, this`isTyping, this`sent
      ensures Valid()
      ensures SendOutcome(old(messages), old(inputValue), old(isTyping), old(sent), AsWrittenQuickQueries[k].query, now, iso)
    {
      QuickQueryTextsNonEmpty(k);
      QuickQuerySend(AsWrittenQuickQueries[k].query, now, iso);
    }

    /**
     * The effect on a new server frame: a `chat_response` removes every
     * placeholder, appends the answer and ends the wait; other frames
     * change nothing.
     */
    method OnServerEvent(event: ServerEvent, now: nat)
      requires Valid()
      modifies this`messages, this`isTyping
      ensures Valid()
      ensures event.ChatResponse? ==>
        && messages == WithoutTyping(old(messages)) + [Message(NatToString(now), AssistantSender, event.message, event.timestamp, false)]
        && !isTyping
      ensures event.OtherEvent? ==> messages == old(messages) && isTyping == old(isTyping)
    {
      if event.ChatResponse? {
        messages := WithoutTyping(messages) + [Message(NatToString(now), AssistantSender, event.message, event.timestamp, false)];
        isTyping := false;
      }
    }

    /** `handleClearChat`: one assistant message remains; the wait flag is left as it is. */
    method ClearChat(iso: string)
      requires Valid()
      modifies this`messages
      ensures Valid()
      ensures messages == [Message("welcome", AssistantSender, ClearedText, iso, false)]
    {
      messages := [Message("welcome", AssistantSender, ClearedText, iso, false)];
    }
  }
}
