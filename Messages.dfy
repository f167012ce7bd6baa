/** The messages page: a list of conversations, the thread of the active one,
    and the draft being typed, all held in page state. */
module MessagesPage {
  import opened Json
  import opened Text
  import opened Seqs

  datatype Conversation = Conversation(
    id: int, name: string, role: string, lastMessage: string, lastMessageTime: string,
    unreadCount: int, avatar: string, online: bool)

  /** `senderId` is a peer's numeric id or the string "current". */
  datatype Sender = Peer(id: int) | CurrentUser

  datatype Message = Message(
    id: int, sender: Sender, senderName: string, text: string, timestamp: string, isOwn: bool)

  datatype MessagesView = MessagesView(
    conversations: seq<Conversation>,
    active: Option<Conversation>,
    messages: seq<Message>,
    draft: string,
    searchTerm: string)

  const InitialView := MessagesView([], None, [], "", "")

  const MockConversations: seq<Conversation> := [
    Conversation(1, "Priya Sharma", "Sub Member", "Property inquiry for Villa in Bandra",
                 "2024-01-15T10:30:00", 2, "PS", true),
    Conversation(2, "Amit Kumar", "Team Member", "Commission details for last month",
                 "2024-01-15T09:15:00", 0, "AK", false),
    Conversation(3, "Neha Patel", "Sub Member", "New property listing in Andheri",
                 "2024-01-14T16:45:00", 1, "NP", true)
  ]

  /** `loadConversationMessages`: the same three-message thread for every
      conversation; the peer is Priya Sharma for conversation 1 and Amit
      Kumar for every other. */
  function MockMessages(conversationId: int): seq<Message> {
    var peer := if conversationId == 1 then Peer(1) else Peer(2);
    var peerName := if conversationId == 1 then "Priya Sharma" else "Amit Kumar";
    [ Message(1, peer, peerName, "Hi Rajesh, I have a client interested in the Villa in Bandra",
              "2024-01-15T09:00:00", false),
      Message(2, CurrentUser, "You", "That's great! Can you share the client details and their budget?",
              "2024-01-15T09:15:00", true),
      Message(3, peer, peerName, "Budget is around 4-4.5 crores. They want to visit this weekend.",
              "2024-01-15T10:30:00", false) ]
  }

  /** Messages are numbered 1, 2, 3, ... in the order shown. */
  predicate NumberedInOrder(ms: seq<Message>) {
    forall i :: 0 <= i < |ms| ==> ms[i].id == i + 1
  }

  /** A message is marked as the user's own exactly when the user sent it. */
  predicate OwnMarked(ms: seq<Message>) {
    forall i :: 0 <= i < |ms| ==> (ms[i].isOwn <==> ms[i].sender == CurrentUser)
  }

  /** `loadMessages`: the mock conversations, the first one active. */
  function Load(v: MessagesView): (w: MessagesView)
    ensures |w.conversations| > 0 && w.active == Some(w.conversations[0])
    ensures w.messages == MockMessages(w.active.value.id)
    ensures NumberedInOrder(w.messages) && OwnMarked(w.messages)
  {
    v.(conversations := MockConversations, active := Some(MockConversations[0]),
       messages := MockMessages(MockConversations[0].id))
  }

  /** The conversations, with the one whose id is `id` given a new last message. */
  function WithLastMessage(cs: seq<Conversation>, id: int, text: string, time: string): (r: seq<Conversation>)
    ensures |r| == |cs|
    ensures forall i :: 0 <= i < |r| ==>
      r[i] == if cs[i].id == id then cs[i].(lastMessage := text, lastMessageTime := time) else cs[i]
  {
    seq(|cs|, i requires 0 <= i < |cs| =>
      if cs[i].id == id then cs[i].(lastMessage := text, lastMessageTime := time) else cs[i])
  }

  /** The conversations, with the one whose id is `id` marked read. */
  function MarkedRead(cs: seq<Conversation>, id: int): (r: seq<Conversation>)
    ensures |r| == |cs|
    ensures forall i :: 0 <= i < |r| ==> r[i] == if cs[i].id == id then cs[i].(unreadCount := 0) else cs[i]
  {
    seq(|cs|, i requires 0 <= i < |cs| => if cs[i].id == id then cs[i].(unreadCount := 0) else cs[i])
  }

  /** `sendMessage`: a blank draft changes nothing; otherwise the draft is
      appended as the user's message numbered after the others, the draft is
      cleared and the active conversation's last message becomes the draft.
      The form exists only while a conversation is active. */
  function Send(v: MessagesView, now: string): MessagesView
    requires !IsBlank(v.draft) ==> v.active.Some?
  {
    if IsBlank(v.draft) then v
    else
      var m := Message(|v.messages| + 1, CurrentUser, "You", v.draft, now, true);
      v.(messages := v.messages + [m], draft := "",
         conversations := WithLastMessage(v.conversations, v.active.value.id, v.draft, now))
  }

  /** `selectConversation`: the conversation becomes active with its thread;
      when it had unread messages, its entry in the list is marked read. */
  function Select(v: MessagesView, c: Conversation): MessagesView {
    v.(active := Some(c), messages := MockMessages(c.id),
       conversations := if c.unreadCount > 0 then MarkedRead(v.conversations, c.id) else v.conversations)
  }

  /** The conversations whose name contains the search term, case ignored. */
  function Filtered(v: MessagesView): (r: seq<Conversation>)
    ensures forall i :: 0 <= i < |r| ==> ContainsFolded(r[i].name, v.searchTerm)
  {
    Filter(v.conversations, (c: Conversation) => ContainsFolded(c.name, v.searchTerm))
  }

  /** Every thread the page loads is numbered in order and marks own messages. */
  lemma MockMessagesWellFormed(conversationId: int)
    ensures NumberedInOrder(MockMessages(conversationId)) && OwnMarked(MockMessages(conversationId))
  {
  }

  /** Conversation 3 (Neha Patel) shows a thread with Amit Kumar. */
  lemma ThirdConversationShowsAmit()
    ensures MockConversations[2].name == "Neha Patel"
    ensures forall m :: m in MockMessages(MockConversations[2].id) && !m.isOwn ==> m.senderName == "Amit Kumar"
  {
  }

  /** Sending keeps the thread numbered in order and own messages marked. */
  lemma SendKeepsThreadWellFormed(v: MessagesView, now: string)
    requires !IsBlank(v.draft) ==> v.active.Some?
    requires NumberedInOrder(v.messages) && OwnMarked(v.messages)
    ensures NumberedInOrder(Send(v, now).messages) && OwnMarked(Send(v, now).messages)
  {
  }

  /** A non-blank send appends exactly the draft, clears it, and changes in the
      list only the entries of the active conversation. */
  lemma SendAppendsDraft(v: MessagesView, now: string)
    requires !IsBlank(v.draft) && v.active.Some?
    ensures var w := Send(v, now);
      && |w.messages| == |v.messages| + 1
      && w.messages[..|v.messages|] == v.messages
      && w.messages[|v.messages|].text == v.draft
      && w.messages[|v.messages|].sender == CurrentUser
      && w.draft == ""
      && |w.conversations| == |v.conversations|
      && (forall i :: 0 <= i < |v.conversations| && v.conversations[i].id == v.active.value.id ==>
            w.conversations[i].lastMessage == v.draft && w.conversations[i].lastMessageTime == now)
      && (forall i :: 0 <= i < |v.conversations| && v.conversations[i].id != v.active.value.id ==>
            w.conversations[i] == v.conversations[i])
      && w.active == v.active
  {
    var w := Send(v, now);
    assert w.messages == v.messages + [w.messages[|v.messages|]];
  }

  /** A blank draft is not sent. */
  lemma SendBlankIsNoop(v: MessagesView, now: string)
    requires IsBlank(v.draft)
    ensures Send(v, now) == v
  {
  }

  /** After selecting a conversation no entry with its id has unread messages,
      unless the selected snapshot already showed none; the other entries and
      the number of entries stay as they were. */
  lemma SelectMarksRead(v: MessagesView, c: Conversation)
    ensures var w := Select(v, c);
      && |w.conversations| == |v.conversations|
      && (c.unreadCount > 0 ==> forall i :: 0 <= i < |w.conversations| && w.conversations[i].id == c.id ==>
            w.conversations[i].unreadCount == 0)
      && (c.unreadCount <= 0 ==> w.conversations == v.conversations)
      && (forall i :: 0 <= i < |w.conversations| && v.conversations[i].id != c.id ==>
            w.conversations[i] == v.conversations[i])
      && w.active == Some(c) && NumberedInOrder(w.messages)
  {
  }

  /** The search lists, in list order, exactly the conversations whose name
      contains the term. */
  lemma FilteredExact(v: MessagesView)
    ensures IsSubseq(Filtered(v), v.conversations)
    ensures forall c :: c in Filtered(v) <==> c in v.conversations && ContainsFolded(c.name, v.searchTerm)
  {
    var p := (c: Conversation) => ContainsFolded(c.name, v.searchTerm);
    FilterIsSubseq(v.conversations, p);
    forall c ensures c in Filtered(v) <==> c in v.conversations && p(c) {
      FilterMultiplicity(v.conversations, p, c);
    }
  }

  /** With no search term every conversation is listed. */
  lemma EmptySearchListsAll(v: MessagesView)
    requires v.searchTerm == ""
    ensures Filtered(v) == v.conversations
  {
    forall i | 0 <= i < |v.conversations| ensures ContainsFolded(v.conversations[i].name, v.searchTerm) {
      ContainsEmpty(v.conversations[i].name);
    }
    FilterAll(v.conversations, (c: Conversation) => ContainsFolded(c.name, v.searchTerm));
  }
}
