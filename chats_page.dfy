/** `ChatsPage`: the list of conversation summaries loaded once on mount,
    the search box that filters it by partner name, and the choice of the
    conversation shown beside it. The summary call is given as its result
    (`None` when it rejects). */
module ChatsPage {
  import opened Common
  import opened Strings
  import Session

  datatype ChatSummary = ChatSummary(
    recipientUsername: string,
    lastMessage: string,
    timestamp: string,
    unreadCount: int)

  /** The test of `filteredSummaries`: the partner's name, lower-cased,
      contains the lower-cased query, and the partner is not the signed-in
      user (`!== user?.email`, always true without a user). */
  predicate Kept(c: ChatSummary, query: string, user: Option<Session.Profile>) {
    && Contains(ToLower(c.recipientUsername), ToLower(query))
    && (user.None? || c.recipientUsername != user.value.email)
  }

  /** Whether `c` is a conversation with the signed-in user. */
  predicate WithSelf(c: ChatSummary, user: Option<Session.Profile>) {
    user.Some? && c.recipientUsername == user.value.email
  }

  /** `filteredSummaries`. */
  function FilteredSummaries(summaries: seq<ChatSummary>, query: string, user: Option<Session.Profile>): seq<ChatSummary> {
    Filter(summaries, (c: ChatSummary) => Kept(c, query, user))
  }

  /** A summary is listed exactly when it was loaded, its partner's name
      contains the query whatever the case, and it is not a conversation
      with oneself; the list keeps the loaded order and is never longer. */
  lemma FilteredExactly(summaries: seq<ChatSummary>, query: string, user: Option<Session.Profile>, c: ChatSummary)
    ensures c in FilteredSummaries(summaries, query, user) <==>
      && c in summaries
      && Contains(ToLower(c.recipientUsername), ToLower(query))
      && !WithSelf(c, user)
    ensures IsSubsequence(FilteredSummaries(summaries, query, user), summaries)
    ensures |FilteredSummaries(summaries, query, user)| <= |summaries|
  {
    FilterMembership(summaries, (d: ChatSummary) => Kept(d, query, user), c);
    FilterIsSubsequence(summaries, (d: ChatSummary) => Kept(d, query, user));
  }

  /** With an empty search box the list is every loaded summary except the
      conversations with oneself, in order. */
  lemma EmptyQueryKeepsAllButOwn(summaries: seq<ChatSummary>, user: Option<Session.Profile>)
    ensures FilteredSummaries(summaries, "", user) == Filter(summaries, (c: ChatSummary) => !WithSelf(c, user))
  {
    forall i | 0 <= i < |summaries|
      ensures Kept(summaries[i], "", user) == !WithSelf(summaries[i], user)
    {
      ContainsEmpty(ToLower(summaries[i].recipientUsername));
    }
    FilterCongruent(summaries, (c: ChatSummary) => Kept(c, "", user), (c: ChatSummary) => !WithSelf(c, user));
  }

  /** The preview line of a listed conversation: the last message, or an
      invitation when there is none yet. */
  function Preview(c: ChatSummary): (r: string)
    ensures c.lastMessage != "" ==> r == c.lastMessage
    ensures c.lastMessage == "" ==> r == "Kliknij, aby zacząć rozmowę"
  {
    if c.lastMessage != "" then c.lastMessage else "Kliknij, aby zacząć rozmowę"
  }

  /** What the side bar lists, and what the main panel shows. */
  datatype Sidebar = Conversations(chats: seq<ChatSummary>) | NoChats
  datatype MainPanel = Conversation(recipient: string) | ChooseConversation

  function SidebarOf(summaries: seq<ChatSummary>, query: string, user: Option<Session.Profile>): Sidebar {
    var shown := FilteredSummaries(summaries, query, user);
    if |shown| > 0 then Conversations(shown) else NoChats
  }

  /** `selectedRecipient ? <ChatWindow …/> : …`: the empty name counts as no
      choice. */
  function MainPanelOf(selected: Option<string>): MainPanel {
    if selected.Some? && selected.value != "" then Conversation(selected.value) else ChooseConversation
  }

  /** The "no conversations" message shows exactly when nothing passes the
      filter, in particular when the search matches no partner. */
  lemma SidebarCases(summaries: seq<ChatSummary>, query: string, user: Option<Session.Profile>)
    ensures SidebarOf(summaries, query, user) == NoChats <==>
      forall c :: c in summaries ==> !Kept(c, query, user)
    ensures SidebarOf(summaries, query, user).Conversations? ==>
      SidebarOf(summaries, query, user).chats == FilteredSummaries(summaries, query, user)
  {
    var p := (d: ChatSummary) => Kept(d, query, user);
    var shown := FilteredSummaries(summaries, query, user);
    if shown == [] {
      forall c | c in summaries
        ensures !Kept(c, query, user)
      {
        FilterMembership(summaries, p, c);
      }
    } else {
      FilterMembership(summaries, p, shown[0]);
    }
  }

  /** The page's state. */
  class Page {
    var summaries: seq<ChatSummary>
    var selectedRecipient: Option<string>
    var searchQuery: string

    constructor ()
      ensures summaries == [] && selectedRecipient == None && searchQuery == ""
    {
      summaries := [];
      selectedRecipient := None;
      searchQuery := "";
    }

    /** `fetchSummaries`: the list is replaced only by a successful answer;
        a failed call leaves it as it was (`[]` on mount). */
    method FetchSummaries(reply: Option<seq<ChatSummary>>)
      modifies this
      ensures summaries == (if reply.Some? then reply.value else old(summaries))
      ensures selectedRecipient == old(selectedRecipient) && searchQuery == old(searchQuery)
    {
      match reply {
        case Some(data) =>
          summaries := data;
        case None =>
      }
    }

    method SetSearchQuery(value: string)
      modifies this
      ensures searchQuery == value
      ensures summaries == old(summaries) && selectedRecipient == old(selectedRecipient)
    {
      searchQuery := value;
    }

    /** A click on a listed conversation. */
    method Select(c: ChatSummary)
      modifies this
      ensures selectedRecipient == Some(c.recipientUsername)
      ensures summaries == old(summaries) && searchQuery == old(searchQuery)
    {
      selectedRecipient := Some(c.recipientUsername);
    }
  }
}
