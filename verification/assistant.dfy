/**
 * The data assistant's query responder `handleDataAssistantQuery`: the
 * query is lower-cased and tested against four keyword groups in a fixed
 * priority order; the first group that matches picks a templated answer
 * over a snapshot of what storage returns.
 */
module Assistant {
  import opened Text

  datatype Intent = RoiIntent | ClientIntent | TestIntent | ActivityIntent | HelpIntent

  /**
   * What the responder reads from storage, already rendered where the
   * template embeds a value as text: the dashboard metrics of "csm-1", the
   * statuses of that csm's clients and the rendering of their best ROI,
   * the statuses of all test assignments, and the titles of the most recent
   * activities, newest first.
   */
  datatype Snapshot = Snapshot(
    avgRoi: string,
    activeClients: string,
    clientStatuses: seq<string>,
    topRoi: string,
    assignmentStatuses: seq<string>,
    recentTitles: seq<string>)

  /** The answer when no keyword group matches, in two pieces. */
  const HelpAnswer: string := HelpOpening + HelpClosing
  const HelpOpening: string := "I can help you analyze your client data"
  const HelpClosing: string :=
    ", ROI metrics, test results, and recent activities. What specific information would you like to know?"

  predicate MentionsAny(text: string, keywords: seq<string>)
  {
    exists k :: 0 <= k < |keywords| && Contains(text, keywords[k])
  }

  const RoiKeywords: seq<string> := ["roi", "return on investment"]
  const ClientKeywords: seq<string> := ["client", "customer"]
  const TestKeywords: seq<string> := ["test", "assessment"]
  const ActivityKeywords: seq<string> := ["activity", "recent"]

  /**
   * The keyword group a query falls in: the first of the four that its
   * lower-cased text mentions.  Whatever group is chosen, the query mentions
   * one of its keywords.
   */
  function Classify(query: string): (r: Intent)
    ensures r == RoiIntent ==> MentionsAny(Lower(query), RoiKeywords)
    ensures r == ClientIntent ==> MentionsAny(Lower(query), ClientKeywords)
    ensures r == TestIntent ==> MentionsAny(Lower(query), TestKeywords)
    ensures r == ActivityIntent ==> MentionsAny(Lower(query), ActivityKeywords)
  {
    var q := Lower(query);
    if Contains(q, "roi") || Contains(q, "return on investment") then
      assert Contains(q, RoiKeywords[0]) || Contains(q, RoiKeywords[1]);
      RoiIntent
    else if Contains(q, "client") || Contains(q, "customer") then
      assert Contains(q, ClientKeywords[0]) || Contains(q, ClientKeywords[1]);
      ClientIntent
    else if Contains(q, "test") || Contains(q, "assessment") then
      assert Contains(q, TestKeywords[0]) || Contains(q, TestKeywords[1]);
      TestIntent
    else if Contains(q, "activity") || Contains(q, "recent") then
      assert Contains(q, ActivityKeywords[0]) || Contains(q, ActivityKeywords[1]);
      ActivityIntent
    else HelpIntent
  }

  const RoiLead: string := RoiOpening + " your average ROI is "
  const RoiOpening: string := "Based on your current data,"
  const RoiMiddle: string := ". This represents strong performance across your "
  const RoiTail: string := " active clients."

  /** The ROI answer: the average ROI follows the lead, and the sentence ends with the tail. */
  function RoiAnswer(data: Snapshot): (r: string)
    ensures RoiLead + data.avgRoi <= r
    ensures EndsWith(r, RoiTail)
  {
    RoiLead + data.avgRoi + RoiMiddle + data.activeClients + RoiTail
  }

  const ClientLead: string := "You currently have "
  const ClientMiddle: string := " active clients. Your top performer has an ROI of "

  /**
   * The client answer: the number of active clients, in decimal, follows the
   * lead, and the sentence ends with the top ROI and "%.".
   */
  function ClientAnswer(data: Snapshot): (r: string)
    ensures ClientLead + NatToString(CountOf(data.clientStatuses, "active")) <= r
    ensures EndsWith(r, data.topRoi + "%.")
  {
    ClientLead + NatToString(CountOf(data.clientStatuses, "active")) + ClientMiddle + data.topRoi + "%."
  }

  const TestLead: string := "You have "
  const TestMiddle: string := " completed tests and "
  const TestTail: string := " tests currently in progress. Overall completion rate is strong."

  /** The test answer: the number of completed assignments, in decimal, follows the lead. */
  function TestAnswer(data: Snapshot): (r: string)
    ensures TestLead + NatToString(CountOf(data.assignmentStatuses, "completed")) <= r
    ensures EndsWith(r, TestTail)
  {
    TestLead + NatToString(CountOf(data.assignmentStatuses, "completed")) + TestMiddle +
    NatToString(CountOf(data.assignmentStatuses, "in_progress")) + TestTail
  }

  const ActivityLead: string := "Recent activity includes: "
  const ActivityTail: string := ". All clients are showing positive engagement."

  /** The activity answer: the first three titles, joined by ", ", between the lead and the tail. */
  function ActivityAnswer(data: Snapshot): (r: string)
    ensures ActivityLead + Join(Take(data.recentTitles, 3), ", ") <= r
    ensures EndsWith(r, ActivityTail)
  {
    ActivityLead + Join(Take(data.recentTitles, 3), ", ") + ActivityTail
  }

  /** The help text and the four leads begin with different letters. */
  lemma LeadsApart()
    ensures HelpAnswer[0] == 'I'
    ensures RoiLead[0] == 'B' && ClientLead[0] == 'Y' && TestLead[0] == 'Y' && ActivityLead[0] == 'R'
  {
  }

  /**
   * `handleDataAssistantQuery(query)` over the given storage snapshot: the
   * help text is the answer exactly when no keyword group matches, and each
   * templated answer starts with its own lead.
   */
  function Respond(query: string, data: Snapshot): (r: string)
    ensures r == HelpAnswer <==> Classify(query) == HelpIntent
    ensures Classify(query) == RoiIntent ==> RoiLead <= r
    ensures Classify(query) == ClientIntent ==> ClientLead <= r
    ensures Classify(query) == TestIntent ==> TestLead <= r
    ensures Classify(query) == ActivityIntent ==> ActivityLead <= r
  {
    LeadsApart();
    match Classify(query)
    case RoiIntent => RoiAnswer(data)
    case ClientIntent => ClientAnswer(data)
    case TestIntent => TestAnswer(data)
    case ActivityIntent => ActivityAnswer(data)
    case HelpIntent => HelpAnswer
  }

  /**
   * The priority order: a group is chosen exactly when the lower-cased query
   * mentions one of its keywords and none of an earlier group's.
   */
  lemma {:induction false} ClassifyIffFirstGroup(query: string)
    ensures var q := Lower(query);
      && (Classify(query) == RoiIntent <==> MentionsAny(q, RoiKeywords))
      && (Classify(query) == ClientIntent <==> !MentionsAny(q, RoiKeywords) && MentionsAny(q, ClientKeywords))
      && (Classify(query) == TestIntent <==>
            !MentionsAny(q, RoiKeywords) && !MentionsAny(q, ClientKeywords) && MentionsAny(q, TestKeywords))
      && (Classify(query) == ActivityIntent <==>
            !MentionsAny(q, RoiKeywords) && !MentionsAny(q, ClientKeywords) && !MentionsAny(q, TestKeywords)
            && MentionsAny(q, ActivityKeywords))
      && (Classify(query) == HelpIntent <==>
            !MentionsAny(q, RoiKeywords) && !MentionsAny(q, ClientKeywords) && !MentionsAny(q, TestKeywords)
            && !MentionsAny(q, ActivityKeywords))
  {
    var q := Lower(query);
    assert MentionsAny(q, RoiKeywords) <==> Contains(q, "roi") || Contains(q, "return on investment") by {
      if Contains(q, RoiKeywords[0]) || Contains(q, RoiKeywords[1]) { }
    }
    assert MentionsAny(q, ClientKeywords) <==> Contains(q, "client") || Contains(q, "customer") by {
      if Contains(q, ClientKeywords[0]) || Contains(q, ClientKeywords[1]) { }
    }
    assert MentionsAny(q, TestKeywords) <==> Contains(q, "test") || Contains(q, "assessment") by {
      if Contains(q, TestKeywords[0]) || Contains(q, TestKeywords[1]) { }
    }
    assert MentionsAny(q, ActivityKeywords) <==> Contains(q, "activity") || Contains(q, "recent") by {
      if Contains(q, ActivityKeywords[0]) || Contains(q, ActivityKeywords[1]) { }
    }
  }

  /**
   * A keyword written anywhere in the query, in any mix of letter cases (any
   * `w` that lower-cases to it), is found.
   */
  lemma KeywordFoundInAnyCase(before: string, w: string, keyword: string, after: string)
    requires Lower(w) == keyword
    ensures Contains(Lower(before + w + after), keyword)
  {
    LowerAppend(before + w, after);
    LowerAppend(before, w);
    ContainsEmbedded(Lower(before), keyword, Lower(after));
  }

  /**
   * A query that mentions "roi", in any letter case ("roi", "Roi", "ROI",
   * ...), always takes the ROI answer, whatever else it mentions ("client"
   * included).
   */
  lemma RoiTakesPriority(before: string, w: string, after: string)
    requires Lower(w) == "roi"
    ensures Classify(before + w + after) == RoiIntent
  {
    KeywordFoundInAnyCase(before, w, "roi", after);
  }

  /** A mixed-case mention such as "Roi" is an ROI question too. */
  lemma MixedCaseRoiScenario(query: string)
    requires query == "How is my Roi?"
    ensures Classify(query) == RoiIntent
  {
    var w := "Roi";
    assert Lower(w) == "roi" by {
      assert Lower(w)[0] == 'r' && Lower(w)[1] == 'o' && Lower(w)[2] == 'i';
    }
    RoiTakesPriority("How is my ", w, "?");
    assert "How is my " + w + "?" == query;
  }

  /** Classification ignores letter case. */
  lemma ClassifyIgnoresCase(query: string)
    ensures Classify(Upper(query)) == Classify(query)
    ensures Classify(Lower(query)) == Classify(query)
  {
    LowerOfUpper(query);
    assert Lower(Lower(query)) == Lower(query);
  }

  /**
   * A needle cannot occur in a text when one of its characters, at offset
   * `k`, appears in the text only at positions before `k`.
   */
  lemma {:induction false} NotContainedByChar(s: string, needle: string, k: nat)
    requires k < |needle|
    requires forall j :: 0 <= j < |s| && s[j] == needle[k] ==> j < k
    ensures !Contains(s, needle)
  {
    ContainsIffOccurs(s, needle);
    forall i | 0 <= i <= |s| - |needle| ensures !OccursAt(s, needle, i) {
      assert s[i..i + |needle|][k] == s[i + k] != needle[k];
    }
  }

  /**
   * The answer for ROI questions (a query such as "what's my roi") embeds
   * the average ROI and the number of active clients.
   */
  lemma RoiScenario(query: string, data: Snapshot)
    requires query == "what's my roi"
    requires data.avgRoi == "150%" && data.activeClients == "5"
    ensures Respond(query, data) == RoiLead + "150%" + RoiMiddle + "5" + RoiTail
  {
    assert Lower("roi") == "roi";
    RoiTakesPriority("what's my ", "roi", "");
    assert "what's my " + "roi" + "" == "what's my roi";
  }

  /** The lower-cased text "recent activity" mentions no ROI or client keyword. */
  lemma RecentActivityNoRoiOrClient(q: string)
    requires q == "recent activity"
    ensures !Contains(q, "roi") && !Contains(q, "return on investment")
    ensures !Contains(q, "client") && !Contains(q, "customer")
  {
    NotContainedByChar(q, "roi", 1);
    NotContainedByChar(q, "return on investment", 7);
    NotContainedByChar(q, "client", 1);
    NotContainedByChar(q, "customer", 4);
  }

  /** The lower-cased text "recent activity" mentions no test keyword, and mentions "recent". */
  lemma RecentActivityNoTest(q: string)
    requires q == "recent activity"
    ensures !Contains(q, "test") && !Contains(q, "assessment")
    ensures Contains(q, "recent")
  {
    NotContainedByChar(q, "test", 2);
    NotContainedByChar(q, "assessment", 1);
    ContainsEmbedded("", "recent", " activity");
    assert "" + "recent" + " activity" == q;
  }

  /** A query reading "recent activity" in any letter case takes the activity answer. */
  lemma RecentActivityIsActivity(query: string)
    requires Lower(query) == "recent activity"
    ensures Classify(query) == ActivityIntent
  {
    RecentActivityNoRoiOrClient(Lower(query));
    RecentActivityNoTest(Lower(query));
  }

  /** The activity answer lists the three most recent titles joined by ", ". */
  lemma ActivityScenario(query: string, data: Snapshot)
    requires Lower(query) == "recent activity"
    requires data.recentTitles == ["Call A", "Email B", "Demo C"]
    ensures Respond(query, data) == ActivityLead + "Call A, Email B, Demo C" + ActivityTail
  {
    RecentActivityIsActivity(query);
    ThreeTitlesJoined(data.recentTitles);
  }

  /** Three titles are listed in order, separated by ", ". */
  lemma ThreeTitlesJoined(t: seq<string>)
    requires t == ["Call A", "Email B", "Demo C"]
    ensures Join(Take(t, 3), ", ") == "Call A, Email B, Demo C"
  {
    assert Take(t, 3) == t;
    assert t[1..][1..] == ["Demo C"];
    assert Join(t[1..], ", ") == "Email B" + ", " + "Demo C";
    assert Join(t, ", ") == "Call A" + ", " + ("Email B" + ", " + "Demo C");
  }

  /** The lower-cased text "summarize recent client activities" mentions no ROI keyword. */
  lemma SummarizeNoRoi(q: string)
    requires q == "summarize recent client activities"
    ensures !Contains(q, "roi") && !Contains(q, "return on investment")
  {
    NotContainedByChar(q, "roi", 1);
    NotContainedByChar(q, "return on investment", 7);
  }

  /** The lower-cased text "summarize recent client activities" mentions "client". */
  lemma SummarizeMentionsClient(q: string)
    requires q == "summarize recent client activities"
    ensures Contains(q, "client")
  {
    var before, after := "summarize recent ", " activities";
    assert before + "client" + after == q;
    ContainsEmbedded(before, "client", after);
  }

  /**
   * A query that mentions both a client keyword and an activity keyword is
   * answered with the client count: "Summarize recent client activities"
   * gets the client answer, not the activity answer.
   */
  lemma RecentClientActivitiesScenario(query: string)
    requires Lower(query) == "summarize recent client activities"
    ensures Classify(query) == ClientIntent
  {
    SummarizeNoRoi(Lower(query));
    SummarizeMentionsClient(Lower(query));
  }

  /** The counts in the test answer never exceed the number of assignments, together. */
  lemma {:induction false} TestCountsBounded(statuses: seq<string>)
    ensures CountOf(statuses, "completed") + CountOf(statuses, "in_progress") <= |statuses|
  {
    if statuses != [] {
      TestCountsBounded(statuses[..|statuses| - 1]);
    }
  }
}
