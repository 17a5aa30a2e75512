/**
 * The application sidebar: the navigation list chosen by role, the
 * avatar's initials and the role's display name.
 */
module Sidebar {
  import opened Js
  import opened Text

  datatype NavItem = NavItem(name: string, href: string)

  const DashboardItem: NavItem := NavItem("Dashboard", "/")
  const ClientsItem: NavItem := NavItem("Clients", "/clients")
  const ConversationsItem: NavItem := NavItem("Conversations", "/conversations")
  const TestingItem: NavItem := NavItem("Testing", "/testing")
  const AnalyticsItem: NavItem := NavItem("Analytics", "/analytics")
  const GmailSyncItem: NavItem := NavItem("Gmail Sync", "/gmail-sync")
  const DataChatItem: NavItem := NavItem("Data Chat", "/data-chat")

  const BaseNavigation: seq<NavItem> :=
    [DashboardItem, ConversationsItem, AnalyticsItem, GmailSyncItem, DataChatItem]
  const CsmNavigation: seq<NavItem> :=
    [DashboardItem, ClientsItem, ConversationsItem, TestingItem, AnalyticsItem, GmailSyncItem, DataChatItem]

  /**
   * `getNavigationForRole`: a csm sees seven items, Clients and Testing
   * among them; every other role sees the five others.  Every list opens
   * with the dashboard and closes with the data chat.
   */
  function NavigationForRole(role: string): (r: seq<NavItem>)
    ensures role == "csm" ==> |r| == 7 && ClientsItem in r && TestingItem in r
    ensures role != "csm" ==> |r| == 5 && ClientsItem !in r && TestingItem !in r
    ensures r[0] == DashboardItem && r[0].href == "/"
    ensures r[|r| - 1] == DataChatItem && r[|r| - 1].href == "/data-chat"
  {
    if role == "csm" then CsmNavigation else BaseNavigation
  }

  /** `a` is `b` with some entries left out, order kept: `a[k]` sits at `b[at[k]]`. */
  predicate EmbedsAt<T(==)>(a: seq<T>, b: seq<T>, at: seq<nat>)
  {
    && |at| == |a|
    && (forall k :: 0 <= k < |at| ==> at[k] < |b| && b[at[k]] == a[k])
    && (forall k, l :: 0 <= k < l < |at| ==> at[k] < at[l])
  }

  /** The base list is the csm list without Clients and Testing, in the same order. */
  lemma BaseEmbedsInCsm()
    ensures EmbedsAt(BaseNavigation, CsmNavigation, [0, 2, 4, 5, 6])
    ensures forall k :: 0 <= k < |CsmNavigation| && k != 1 && k != 3 ==> CsmNavigation[k] in BaseNavigation
  {
  }

  /** `n[0]` of one word, which `join('')` renders as nothing when the word is empty. */
  function WordHead(word: string): string
  {
    if word == [] then [] else [word[0]]
  }

  function WordHeads(words: seq<string>): (r: seq<string>)
    ensures |r| == |words|
    ensures forall i :: 0 <= i < |words| ==> r[i] == WordHead(words[i])
  {
    seq(|words|, i requires 0 <= i < |words| => WordHead(words[i]))
  }

  /** `getInitials`: `name.split(' ').map(n => n[0]).join('').toUpperCase()`. */
  function Initials(name: string): (r: string)
    ensures |r| <= |Split(name, ' ')|
    ensures forall i :: 0 <= i < |r| ==> !('a' <= r[i] <= 'z')
  {
    JoinedHeads(Split(name, ' '));
    Upper(Join(WordHeads(Split(name, ' ')), ""))
  }

  /** The first letters of the non-empty words, in order. */
  function FirstLetters(words: seq<string>): (r: string)
    ensures |r| <= |words|
  {
    if words == [] then [] else WordHead(words[0]) + FirstLetters(words[1..])
  }

  /** The number of non-empty words. */
  function NonEmptyWords(words: seq<string>): nat
  {
    if words == [] then 0 else (if words[0] == [] then 0 else 1) + NonEmptyWords(words[1..])
  }

  lemma {:induction false} FirstLettersLength(words: seq<string>)
    ensures |FirstLetters(words)| == NonEmptyWords(words)
  {
    if words != [] {
      FirstLettersLength(words[1..]);
    }
  }

  /** Joining the heads with no separator concatenates the first letters of the non-empty words. */
  lemma {:induction false} JoinedHeads(words: seq<string>)
    ensures Join(WordHeads(words), "") == FirstLetters(words)
  {
    if |words| == 1 {
      assert FirstLetters(words[1..]) == [];
      assert WordHead(words[0]) + [] == WordHead(words[0]);
    } else if |words| > 1 {
      JoinedHeads(words[1..]);
      assert WordHeads(words)[1..] == WordHeads(words[1..]);
    }
  }

  /**
   * The initials are the upper-cased first letters of the space-separated
   * words; empty words add nothing, so there are at most as many initials
   * as words.
   */
  lemma InitialsAreFirstLetters(name: string)
    ensures Initials(name) == Upper(FirstLetters(Split(name, ' ')))
    ensures |Initials(name)| == NonEmptyWords(Split(name, ' ')) <= |Split(name, ' ')|
  {
    JoinedHeads(Split(name, ' '));
    FirstLettersLength(Split(name, ' '));
  }

  /** A first and a last name give the upper-cased first letter of each. */
  lemma TwoWordInitials(first: string, last: string)
    requires first != [] && last != []
    requires ' ' !in first && ' ' !in last
    ensures Initials(first + " " + last) == [UpperChar(first[0]), UpperChar(last[0])]
  {
    SplitAtFirst(first, ' ', last);
    SplitWithoutSeparator(last, ' ');
    assert first + " " + last == first + [' '] + last;
    var words := [first, last];
    assert Split(first + " " + last, ' ') == words;
    InitialsAreFirstLetters(first + " " + last);
    assert words[1..][1..] == [];
    assert FirstLetters(words) == [first[0]] + ([last[0]] + []);
  }

  const CsmDisplayName: string := "Customer Success Manager"
  const ClientDisplayName: string := "Client"

  /** `getRoleDisplayName`. */
  function RoleDisplayName(role: string): (r: string)
    ensures r == CsmDisplayName <==> role == "csm"
    ensures r == ClientDisplayName <==> role != "csm"
  {
    if role == "csm" then CsmDisplayName else ClientDisplayName
  }

  datatype SidebarUser = SidebarUser(name: string, role: string)

  /** What the sidebar draws for a signed-in user. */
  datatype View = View(navigation: seq<NavItem>, initials: string, roleName: string)

  /** `Sidebar()`: nothing without a user; otherwise that user's navigation, initials and role name. */
  function SidebarView(user: Option<SidebarUser>): (r: Option<View>)
    ensures r.None? <==> user.None?
    ensures r.Some? ==>
      && r.value.navigation == NavigationForRole(user.value.role)
      && r.value.roleName == RoleDisplayName(user.value.role)
      && |r.value.initials| <= |Split(user.value.name, ' ')|
  {
    if user.None? then None
    else
      InitialsAreFirstLetters(user.value.name);
      Some(View(NavigationForRole(user.value.role), Initials(user.value.name), RoleDisplayName(user.value.role)))
  }
}
