/** The chat screen (src/components/ChatLayout.tsx): the conversation list,
    the active conversation, the message timeline and the sidebar flag, and
    the handlers and effects that update them. Each asynchronous handler is
    split at its `await` (or `.then`): one method runs the synchronous part
    and returns the request it issues, another applies the remote outcome.
    Nothing re-checks the state between the two halves, exactly as in the
    component. */
module ChatLayout {

  import opened Wrappers
  import opened Provider

  datatype Sender = UserSender | BotSender

  /** A timeline entry; `timestamp` is already formatted for display. */
  datatype Message = Message(id: string, content: string, sender: Sender, timestamp: string)

  /** A conversation as the server returns it; the list state stores these
      rows unchanged. */
  datatype Chat = Chat(id: string, title: string, createdAt: string)

  /** A row of the messages query. */
  datatype FetchedMessage = FetchedMessage(id: string, content: string, sender: Sender, createdAt: string)

  const DefaultTitle := "New Conversation"

  /** The variables of the create-conversation mutation. */
  datatype CreateChatRequest = CreateChatRequest(userId: string, title: string)

  /** How the create mutation ended: with the inserted row, with no row in
      the response data, or rejected. */
  datatype CreateChatOutcome = Inserted(chat: Chat) | NoChatReturned | CreateRejected

  /** The variables of the send-message mutation. */
  datatype SendRequest = SendRequest(chatId: string, content: string, userId: string)

  /** How the send mutation ended: resolved with the reply field (absent when
      the data, the `sendMessage` object or the field is missing), or thrown. */
  datatype SendOutcome = Resolved(reply: Option<string>) | SendRejected

  /** JavaScript truthiness of `activeChat`: null and the empty id are
      both "no active conversation". */
  predicate HasActive(activeChat: Option<string>)
    ensures !HasActive(activeChat) <==> activeChat == None || activeChat == Some("")
  {
    activeChat.Some? && activeChat.value != ""
  }

  /** The mapping of fetched rows to timeline entries; `localTime` stands
      for the locale-dependent `toLocaleTimeString` of the row's creation
      time. Length and order are kept, and each entry keeps its row's id,
      content and sender. */
  function ToTimeline(fetched: seq<FetchedMessage>, localTime: string -> string): (r: seq<Message>)
    ensures |r| == |fetched|
    ensures forall i :: 0 <= i < |fetched| ==>
              r[i].id == fetched[i].id && r[i].content == fetched[i].content
              && r[i].sender == fetched[i].sender
              && r[i].timestamp == localTime(fetched[i].createdAt)
  {
    if fetched == [] then []
    else
      var m := fetched[0];
      [Message(m.id, m.content, m.sender, localTime(m.createdAt))] + ToTimeline(fetched[1..], localTime)
  }

  /** The bot entries a settled send appends: one entry carrying the reply
      when the reply is a non-empty string, none otherwise (absent or empty
      reply, or a thrown call). */
  function ReplyMessages(outcome: SendOutcome, botId: string, timestamp: string): (r: seq<Message>)
    ensures |r| <= 1
    ensures r != [] <==> outcome.Resolved? && outcome.reply.Some? && outcome.reply.value != ""
    ensures r != [] ==> r[0].sender == BotSender && r[0].content == outcome.reply.value
                        && r[0].id == botId && r[0].timestamp == timestamp
  {
    match outcome
    case Resolved(Some(reply)) =>
      if reply != "" then [Message(botId, reply, BotSender, timestamp)] else []
    case _ => []
  }

  /** What the main pane shows. */
  datatype Pane = LoadingMessages | MessageList(entries: seq<Message>) | EmptyPrompt

  /** What the component renders. */
  datatype ChatView =
    | LoadingChats
    | Workspace(pane: Pane, showInput: bool, showOverlay: bool, sidebarOpen: bool)

  /** The render of ChatLayout for a state and the two query flags. */
  function View(chatsLoading: bool, messagesLoading: bool, messages: seq<Message>,
                activeChat: Option<string>, sidebarOpen: bool): (v: ChatView)
    ensures v.LoadingChats? <==> chatsLoading
    ensures v.Workspace? ==>
              && (v.pane.LoadingMessages? <==> messagesLoading)
              && (v.pane.MessageList? <==> !messagesLoading && messages != [])
              && (v.pane.MessageList? ==> v.pane.entries == messages)
              && (v.pane.EmptyPrompt? <==> !messagesLoading && messages == [])
              && (v.showInput <==> HasActive(activeChat))
              && v.showOverlay == sidebarOpen && v.sidebarOpen == sidebarOpen
  {
    if chatsLoading then LoadingChats
    else
      var pane := if messagesLoading then LoadingMessages
                  else if |messages| > 0 then MessageList(messages)
                  else EmptyPrompt;
      Workspace(pane, HasActive(activeChat), sidebarOpen, sidebarOpen)
  }

  /** `handleNewChat` up to its mutation: the default conversation is
      requested for the signed-in user, and nothing without one. It reads
      none of the component's fields. */
  function RequestNewChat(user: Option<User>): (request: Option<CreateChatRequest>)
    ensures user.None? <==> request.None?
    ensures user.Some? ==> request == Some(CreateChatRequest(user.value.id, DefaultTitle))
  {
    if user.Some? then Some(CreateChatRequest(user.value.id, DefaultTitle)) else None
  }

  class ChatState {
    var sidebarOpen: bool
    var activeChat: Option<string>
    var chats: seq<Chat>
    var messages: seq<Message>

    constructor ()
      ensures !sidebarOpen && activeChat == None && chats == [] && messages == []
    {
      sidebarOpen := false;
      activeChat := None;
      chats := [];
      messages := [];
    }

    /** `handleChatSelect`. `switched` says whether the active id changed
        (which is what makes the message fetch run again). */
    method HandleChatSelect(chatId: string) returns (switched: bool)
      modifies this
      ensures switched <==> old(activeChat) != Some(chatId)
      ensures activeChat == Some(chatId)
      ensures !sidebarOpen
      ensures chats == old(chats) && messages == old(messages)
    {
      switched := Some(chatId) != activeChat;
      if switched {
        activeChat := Some(chatId);
      }
      sidebarOpen := false;
    }

    /** The header's menu button. */
    method ToggleSidebar()
      modifies this`sidebarOpen
      ensures sidebarOpen == !old(sidebarOpen)
    {
      sidebarOpen := !sidebarOpen;
    }

    /** A click on the overlay behind the open sidebar. */
    method CloseSidebar()
      modifies this`sidebarOpen
      ensures !sidebarOpen
    {
      sidebarOpen := false;
    }

    /** The messages-data effect: a fetched list replaces the timeline
        entirely; no data leaves it alone. */
    method MessagesDataEffect(messagesData: Option<seq<FetchedMessage>>, localTime: string -> string)
      modifies this`messages
      ensures messagesData.Some? ==> messages == ToTimeline(messagesData.value, localTime)
      ensures messagesData.None? ==> messages == old(messages)
    {
      if messagesData.Some? {
        messages := ToTimeline(messagesData.value, localTime);
      }
    }

    /** The chats-load effect up to its mutation. Nothing happens without a
        user or while the list query is loading. A non-empty list replaces
        `chats` and, when no conversation is active, activates its first
        entry. Otherwise (no data or an empty list) the default conversation
        is requested. */
    method ChatsLoadEffect(user: Option<User>, chatsLoading: bool, chatsData: Option<seq<Chat>>)
      returns (request: Option<CreateChatRequest>)
      modifies this`chats, this`activeChat
      ensures user.None? || chatsLoading ==>
                request == None && chats == old(chats) && activeChat == old(activeChat)
      ensures user.Some? && !chatsLoading && chatsData.Some? && chatsData.value != [] ==>
                && request == None
                && chats == chatsData.value
                && activeChat == (if HasActive(old(activeChat)) then old(activeChat)
                                  else Some(chatsData.value[0].id))
      ensures user.Some? && !chatsLoading && (chatsData.None? || chatsData.value == []) ==>
                && request == Some(CreateChatRequest(user.value.id, DefaultTitle))
                && chats == old(chats) && activeChat == old(activeChat)
    {
      request := None;
      if user.None? || chatsLoading {
        return;
      }
      if chatsData.Some? && |chatsData.value| > 0 {
        chats := chatsData.value;
        if !HasActive(activeChat) {
          activeChat := Some(chatsData.value[0].id);
        }
      } else {
        request := Some(CreateChatRequest(user.value.id, DefaultTitle));
      }
    }

    /** The `.then` of the chats-load effect's mutation: the inserted
        conversation becomes the whole list and the active one. The timeline
        is not touched, and a missing row or a rejection changes nothing. */
    method OnDefaultChatCreated(outcome: CreateChatOutcome)
      modifies this`chats, this`activeChat
      ensures outcome.Inserted? ==> chats == [outcome.chat] && activeChat == Some(outcome.chat.id)
      ensures !outcome.Inserted? ==> chats == old(chats) && activeChat == old(activeChat)
    {
      if outcome.Inserted? {
        chats := [outcome.chat];
        activeChat := Some(outcome.chat.id);
      }
    }

    /** The `.then` of `handleNewChat`: the inserted conversation goes to the
        front of the list, becomes active, and the timeline is emptied. */
    method OnNewChatCreated(outcome: CreateChatOutcome)
      modifies this`chats, this`activeChat, this`messages
      ensures outcome.Inserted? ==>
                && chats == [outcome.chat] + old(chats)
                && activeChat == Some(outcome.chat.id)
                && messages == []
      ensures !outcome.Inserted? ==>
                chats == old(chats) && activeChat == old(activeChat) && messages == old(messages)
    {
      if outcome.Inserted? {
        chats := [outcome.chat] + chats;
        activeChat := Some(outcome.chat.id);
        messages := [];
      }
    }

    /** `handleNewChat` when nothing else runs between the request and its
        outcome. Without a user, or when no row comes back, nothing changes. */
    method HandleNewChat(user: Option<User>, outcome: CreateChatOutcome)
      returns (request: Option<CreateChatRequest>)
      modifies this`chats, this`activeChat, this`messages
      ensures request.None? <==> user.None?
      ensures user.Some? ==> request == Some(CreateChatRequest(user.value.id, DefaultTitle))
      ensures user.Some? && outcome.Inserted? ==>
                && chats == [outcome.chat] + old(chats)
                && activeChat == Some(outcome.chat.id)
                && messages == []
      ensures user.None? || !outcome.Inserted? ==>
                chats == old(chats) && activeChat == old(activeChat) && messages == old(messages)
    {
      request := RequestNewChat(user);
      if request.Some? {
        OnNewChatCreated(outcome);
      }
    }

    /** `handleSendMessage` up to its `await`. Without an active
        conversation or a user nothing happens and nothing is sent;
        otherwise one user entry is appended at the tail and the send is
        issued for the active conversation. */
    method BeginSend(content: string, user: Option<User>, messageId: string, timestamp: string)
      returns (request: Option<SendRequest>)
      modifies this`messages
      ensures !HasActive(old(activeChat)) || user.None? ==>
                request == None && messages == old(messages)
      ensures HasActive(old(activeChat)) && user.Some? ==>
                && request == Some(SendRequest(activeChat.value, content, user.value.id))
                && messages == old(messages) + [Message(messageId, content, UserSender, timestamp)]
    {
      if !HasActive(activeChat) || user.None? {
        return None;
      }
      messages := messages + [Message(messageId, content, UserSender, timestamp)];
      request := Some(SendRequest(activeChat.value, content, user.value.id));
    }

    /** `handleSendMessage` after its `await`: the bot reply, if any, is
        appended to whatever the timeline is now. Nothing is ever removed,
        so a failed send keeps the optimistic entry. */
    method SettleSend(outcome: SendOutcome, botId: string, timestamp: string)
      modifies this`messages
      ensures messages == old(messages) + ReplyMessages(outcome, botId, timestamp)
    {
      if outcome.Resolved? && outcome.reply.Some? && outcome.reply.value != "" {
        messages := messages + [Message(botId, outcome.reply.value, BotSender, timestamp)];
      }
    }

    /** `handleSendMessage` when nothing else runs during the `await`: the
        earlier entries are kept, then come the user entry and the reply
        entries, in that order. */
    method HandleSendMessage(content: string, user: Option<User>, messageId: string, sentAt: string,
                             outcome: SendOutcome, botId: string, repliedAt: string)
      returns (request: Option<SendRequest>)
      modifies this`messages
      ensures request.None? <==> !HasActive(activeChat) || user.None?
      ensures request.None? ==> messages == old(messages)
      ensures request.Some? ==>
                && request.value == SendRequest(activeChat.value, content, user.value.id)
                && messages == old(messages) + [Message(messageId, content, UserSender, sentAt)]
                                             + ReplyMessages(outcome, botId, repliedAt)
    {
      request := BeginSend(content, user, messageId, sentAt);
      if request.Some? {
        SettleSend(outcome, botId, repliedAt);
      }
    }

    /** The component's render for the current state and query flags. */
    function CurrentView(chatsLoading: bool, messagesLoading: bool): (v: ChatView)
      reads this
      ensures v.LoadingChats? <==> chatsLoading
      ensures v.Workspace? ==>
                && (v.pane == LoadingMessages <==> messagesLoading)
                && (v.pane == MessageList(messages) <==> !messagesLoading && messages != [])
                && (v.pane == EmptyPrompt <==> !messagesLoading && messages == [])
                && (v.showInput <==> HasActive(activeChat))
                && v.showOverlay == sidebarOpen && v.sidebarOpen == sidebarOpen
    {
      View(chatsLoading, messagesLoading, messages, activeChat, sidebarOpen)
    }
  }

  /** First visit of a user with no conversations: the list query returns
      nothing, the default conversation is created and activated, its
      message fetch returns no rows, and the empty-state prompt is shown
      with the input. */
  method FirstVisitScenario(user: User, created: Chat, localTime: string -> string)
    returns (view: ChatView)
    requires created.id != ""
    ensures view == Workspace(EmptyPrompt, true, false, false)
  {
    var state := new ChatState();
    var request := state.ChatsLoadEffect(Some(user), false, Some([]));
    assert request == Some(CreateChatRequest(user.id, "New Conversation"));
    state.OnDefaultChatCreated(Inserted(created));
    state.MessagesDataEffect(Some([]), localTime);
    view := state.CurrentView(false, false);
  }

  /** Sending "Hello" in an active conversation that gets "Hi there!" back:
      the user entry comes first, then the bot entry. */
  method HelloScenario(user: User, c1: Chat, localTime: string -> string)
    returns (contents: seq<string>, senders: seq<Sender>)
    requires c1.id != ""
    ensures contents == ["Hello", "Hi there!"] && senders == [UserSender, BotSender]
  {
    var state := new ChatState();
    var _ := state.ChatsLoadEffect(Some(user), false, Some([c1]));
    state.MessagesDataEffect(Some([]), localTime);
    var request := state.BeginSend("Hello", Some(user), "1", "10:00");
    assert request == Some(SendRequest(c1.id, "Hello", user.id));
    assert |state.messages| == 1 && state.messages[0].content == "Hello";
    state.SettleSend(Resolved(Some("Hi there!")), "2", "10:00");
    contents := [state.messages[0].content, state.messages[1].content];
    senders := [state.messages[0].sender, state.messages[1].sender];
  }
}
