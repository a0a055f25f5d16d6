/**
  The chat page component `VetLLMChatUI` (app/page.tsx): the conversation on
  screen, the input field, the loading flag, the list of recent chats and the
  id of the chat on screen, with the handlers that start a new chat, load a
  recent one and submit the input to `/api/chat`.
 */
module ChatPage {
  import opened Js
  import ChatRoute

  datatype Role = User | Assistant

  /** A message on screen. `timestamp` is the `new Date()` reading taken for
      it, in milliseconds. */
  datatype Message = Message(id: string, content: string, role: Role, timestamp: nat)

  /** A saved conversation in the recent-chats list. */
  datatype Chat = Chat(id: string, title: string, messages: seq<Message>, lastMessage: nat)

  const TitleLength := 30
  const Ellipsis := "..."
  const NewConsultation := "New Consultation"
  const WoofText := "Woof! I encountered an error. Please try again - I'm here to help with your pet questions! \U{1F43E}"

  /** `generateChatTitle`: a message of at most 30 characters is its own
      title; a longer one is cut to its first 30 characters followed by
      "...". */
  function GenerateChatTitle(firstMessage: string): (title: string)
    ensures |title| <= TitleLength + |Ellipsis|
    ensures |firstMessage| <= TitleLength ==> title == firstMessage
    ensures |firstMessage| > TitleLength ==>
      |title| == TitleLength + |Ellipsis| && title[..TitleLength] == firstMessage[..TitleLength]
      && title[TitleLength..] == Ellipsis
  {
    if |firstMessage| > TitleLength then firstMessage[..TitleLength] + Ellipsis else firstMessage
  }

  /** A title is its own title: every title is a fixed point. */
  lemma TitleIdempotent(firstMessage: string)
    ensures GenerateChatTitle(GenerateChatTitle(firstMessage)) == GenerateChatTitle(firstMessage)
  {
    var title := GenerateChatTitle(firstMessage);
    if |firstMessage| > TitleLength {
      assert title == title[..TitleLength] + title[TitleLength..];
    }
  }

  /** `messages.find((m) => m.role === "user")`, as an index: the first user
      message, or |ms| when there is none. */
  function FirstUserIndex(ms: seq<Message>): (i: nat)
    ensures i <= |ms|
    ensures i < |ms| ==> ms[i].role == User
    ensures forall j :: 0 <= j < i ==> ms[j].role != User
  {
    if |ms| == 0 then 0
    else if ms[0].role == User then 0
    else 1 + FirstUserIndex(ms[1..])
  }

  /** The title a conversation is saved under. */
  function ChatTitle(ms: seq<Message>): string {
    var i := FirstUserIndex(ms);
    if i < |ms| then GenerateChatTitle(ms[i].content) else NewConsultation
  }

  /** The title comes from the first user message, whatever precedes it. */
  lemma ChatTitleOfFirstUser(ms: seq<Message>, i: nat)
    requires i < |ms| && ms[i].role == User
    requires forall j :: 0 <= j < i ==> ms[j].role != User
    ensures ChatTitle(ms) == GenerateChatTitle(ms[i].content)
  {
    assert FirstUserIndex(ms) == i;
  }

  /** Without a user message the title is "New Consultation". */
  lemma ChatTitleWithoutUser(ms: seq<Message>)
    requires forall j :: 0 <= j < |ms| ==> ms[j].role != User
    ensures ChatTitle(ms) == NewConsultation
  {
    assert FirstUserIndex(ms) == |ms|;
  }

  /** The chat saved from the conversation on screen: id `Date.now()`,
      its title, a copy of the messages and the `new Date()` reading. */
  function Snapshot(ms: seq<Message>, now: nat, stamp: nat): Chat {
    Chat(Decimal(now), ChatTitle(ms), ms, stamp)
  }

  /** `chats.filter((c) => c.id !== id)`: the chats with another id, in
      order. */
  function Without(chats: seq<Chat>, id: string): (r: seq<Chat>)
    ensures |r| <= |chats|
    ensures forall c :: c in r <==> c in chats && c.id != id
  {
    if |chats| == 0 then []
    else if chats[0].id != id then [chats[0]] + Without(chats[1..], id)
    else Without(chats[1..], id)
  }

  /** Filtering a list that holds no chat with the id keeps it as it is. */
  lemma {:induction false} WithoutNothing(chats: seq<Chat>, id: string)
    requires forall c :: c in chats ==> c.id != id
    ensures Without(chats, id) == chats
  {
    if |chats| > 0 {
      assert chats[0] in chats;
      assert forall c :: c in chats[1..] ==> c in chats;
      WithoutNothing(chats[1..], id);
      assert [chats[0]] + chats[1..] == chats;
    }
  }

  /** Filtering keeps the order of the chats it keeps: the filtered
      concatenation is the concatenation of the filtered parts. */
  lemma {:induction false} WithoutConcat(a: seq<Chat>, b: seq<Chat>, id: string)
    ensures Without(a + b, id) == Without(a, id) + Without(b, id)
  {
    if |a| > 0 {
      assert (a + b)[0] == a[0] && (a + b)[1..] == a[1..] + b;
      WithoutConcat(a[1..], b, id);
    } else {
      assert a + b == b;
    }
  }

  /** Filtering twice by the same id is filtering once. */
  lemma WithoutIdempotent(chats: seq<Chat>, id: string)
    ensures Without(Without(chats, id), id) == Without(chats, id)
  {
    WithoutNothing(Without(chats, id), id);
  }

  /** The recent chats after `loadChat(chat)`: the conversation on screen,
      when there is one, is saved in front of the other chats, and then every
      chat with the loaded chat's id is dropped. */
  function RecentAfterLoad(recent: seq<Chat>, ms: seq<Message>, chat: Chat, now: nat, stamp: nat): seq<Chat> {
    var saved := if |ms| > 0 then [Snapshot(ms, now, stamp)] + Without(recent, chat.id) else recent;
    Without(saved, chat.id)
  }

  /** After loading a chat, the list holds no chat with its id; it keeps every
      other recent chat; and, when a conversation was on screen, it holds the
      chat saved from it exactly when that chat's id differs from the loaded
      chat's. */
  lemma RecentAfterLoadContents(recent: seq<Chat>, ms: seq<Message>, chat: Chat, now: nat, stamp: nat)
    ensures forall c :: c in RecentAfterLoad(recent, ms, chat, now, stamp) ==> c.id != chat.id
    ensures forall c :: c in recent && c.id != chat.id ==> c in RecentAfterLoad(recent, ms, chat, now, stamp)
    ensures |ms| > 0 ==>
      (Snapshot(ms, now, stamp) in RecentAfterLoad(recent, ms, chat, now, stamp) <==> Decimal(now) != chat.id)
  {
    var r := RecentAfterLoad(recent, ms, chat, now, stamp);
    if |ms| > 0 {
      var saved := [Snapshot(ms, now, stamp)] + Without(recent, chat.id);
      assert r == Without(saved, chat.id);
      assert Snapshot(ms, now, stamp) in saved;
      forall c | c in recent && c.id != chat.id ensures c in r {
        assert c in Without(recent, chat.id);
        assert c in saved;
      }
    }
  }

  /** When the saved conversation's id is new, the second filter of
      `loadChat` changes nothing: the list is the saved chat followed by the
      old list without the loaded chat. */
  lemma RecentAfterLoadFresh(recent: seq<Chat>, ms: seq<Message>, chat: Chat, now: nat, stamp: nat)
    requires |ms| > 0 && Decimal(now) != chat.id
    ensures RecentAfterLoad(recent, ms, chat, now, stamp) == [Snapshot(ms, now, stamp)] + Without(recent, chat.id)
  {
    var rest := Without(recent, chat.id);
    var saved := [Snapshot(ms, now, stamp)] + rest;
    assert saved[0] == Snapshot(ms, now, stamp) && saved[1..] == rest;
    WithoutIdempotent(recent, chat.id);
  }

  /** What `fetch("/api/chat")` comes back with: a rejection (the network
      failed), or a response of the chat route. */
  datatype Fetched = Rejected | Received(response: ChatRoute.Response)

  /** `response.ok`: a status from 200 to 299. */
  predicate Ok(status: nat) {
    200 <= status <= 299
  }

  /** The content of the assistant message `handleSubmit` appends: the
      response's `content` for an ok response, the fixed apology for a
      rejected fetch or a response that is not ok (both end in the catch
      block). */
  function AssistantText(fetched: Fetched): string {
    match fetched
    case Rejected => WoofText
    case Received(response) =>
      if !Ok(response.status) then WoofText
      else if response.body.Reply? then response.body.content
      else ""
  }

  /** What the page shows for each outcome of the provider call behind the
      route: the trimmed generated text, "" when there is none, and the
      apology for every failure. */
  lemma RouteAnswerShown(upstream: ChatRoute.Upstream)
    ensures upstream.Generated? && upstream.generated.Some? ==>
      AssistantText(Received(ChatRoute.Answer(upstream))) == Trim(upstream.generated.value)
    ensures upstream.Generated? && upstream.generated.None? ==>
      AssistantText(Received(ChatRoute.Answer(upstream))) == ""
    ensures !upstream.Generated? ==> AssistantText(Received(ChatRoute.Answer(upstream))) == WoofText
  {
    var r := ChatRoute.Answer(upstream);
    assert r.status == 200 <==> upstream.Generated?;
    assert r.status == 200 || r.status == 500;
  }

  /** Every error response of the route (status 500) shows the apology. */
  lemma RouteFailureShown(response: ChatRoute.Response)
    requires response.status == 500
    ensures AssistantText(Received(response)) == WoofText
  {
  }

  class VetLLMChatUI {
    var messages: seq<Message>
    var input: string
    var isLoading: bool
    var recentChats: seq<Chat>
    var currentChatId: Option<string>

    constructor ()
      ensures messages == [] && input == "" && !isLoading
      ensures recentChats == [] && currentChatId == None
    {
      messages := [];
      input := "";
      isLoading := false;
      recentChats := [];
      currentChatId := None;
    }

    /** The input field's `onChange`: the field takes the typed value. */
    method SetInput(value: string)
      modifies this
      ensures input == value
      ensures messages == old(messages) && isLoading == old(isLoading)
      ensures recentChats == old(recentChats) && currentChatId == old(currentChatId)
    {
      input := value;
    }

    /** `startNewChat`: a conversation on screen is saved in front of the
        recent chats; the screen is cleared and no chat is current. `now` is
        the `Date.now()` reading, `stamp` the `new Date()` one. */
    method StartNewChat(now: nat, stamp: nat)
      modifies this
      ensures recentChats == if |old(messages)| > 0 then [Snapshot(old(messages), now, stamp)] + old(recentChats)
                             else old(recentChats)
      ensures messages == [] && currentChatId == None
      ensures input == old(input) && isLoading == old(isLoading)
    {
      if |messages| > 0 {
        var chatTitle := ChatTitle(messages);
        var currentChat := Chat(Decimal(now), chatTitle, messages, stamp);
        recentChats := [currentChat] + recentChats;
      }
      messages := [];
      currentChatId := None;
    }

    /** `loadChat(chat)`: the conversation on screen, when there is one, is
        saved in front of the recent chats other than `chat`; `chat` goes on
        screen and becomes current, and is removed from the recent chats.
        The updates are applied in the order the handler queues them. */
    method LoadChat(chat: Chat, now: nat, stamp: nat)
      modifies this
      ensures recentChats == RecentAfterLoad(old(recentChats), old(messages), chat, now, stamp)
      ensures messages == chat.messages && currentChatId == Some(chat.id)
      ensures input == old(input) && isLoading == old(isLoading)
    {
      if |messages| > 0 {
        var chatTitle := ChatTitle(messages);
        var currentChat := Chat(Decimal(now), chatTitle, messages, stamp);
        recentChats := [currentChat] + Without(recentChats, chat.id);
      }
      messages := chat.messages;
      currentChatId := Some(chat.id);
      recentChats := Without(recentChats, chat.id);
    }

    /** The `try`/`catch`/`finally` block of `handleSubmit`, once the user
        message is on screen: an assistant message with id `Date.now() + 1`
        follows, holding the reply's content or the apology, and loading
        ends. */
    method Respond(replyNow: nat, replyStamp: nat, fetched: Fetched)
      modifies this
      ensures messages == old(messages) + [Message(Decimal(replyNow + 1), AssistantText(fetched), Assistant, replyStamp)]
      ensures !isLoading && input == old(input)
      ensures recentChats == old(recentChats) && currentChatId == old(currentChatId)
    {
      var content;
      match fetched {
        case Rejected =>
          content := WoofText;
        case Received(response) =>
          if !Ok(response.status) {
            content := WoofText;
          } else {
            content := if response.body.Reply? then response.body.content else "";
          }
      }
      var assistantMessage := Message(Decimal(replyNow + 1), content, Assistant, replyStamp);
      messages := messages + [assistantMessage];
      isLoading := false;
    }

    /** `handleSubmit`. A blank input, or a reply still loading, changes
        nothing. Otherwise the input, untrimmed, becomes a user message with
        id `Date.now()`; the conversation with it is what is posted (`sent`);
        the input is cleared; and the assistant message follows. `userNow`
        and `replyNow` are the `Date.now()` readings, `userStamp` and
        `replyStamp` the `new Date()` ones. */
    method HandleSubmit(userNow: nat, userStamp: nat, replyNow: nat, replyStamp: nat, fetched: Fetched)
      returns (sent: Option<seq<Message>>)
      modifies this
      ensures Trim(old(input)) == "" || old(isLoading) ==>
        sent == None && messages == old(messages) && input == old(input) && isLoading == old(isLoading)
      ensures Trim(old(input)) != "" && !old(isLoading) ==>
        && sent == Some(old(messages) + [Message(Decimal(userNow), old(input), User, userStamp)])
        && messages == sent.value + [Message(Decimal(replyNow + 1), AssistantText(fetched), Assistant, replyStamp)]
        && input == "" && !isLoading
      ensures recentChats == old(recentChats) && currentChatId == old(currentChatId)
    {
      if Trim(input) == "" || isLoading {
        return None;
      }
      var userMessage := Message(Decimal(userNow), input, User, userStamp);
      var previous := messages;
      messages := messages + [userMessage];
      input := "";
      isLoading := true;
      sent := Some(previous + [userMessage]);
      Respond(replyNow, replyStamp, fetched);
    }
  }
}
