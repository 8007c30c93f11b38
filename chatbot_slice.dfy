/**
 * The client-side chat state: the list of chats with their messages and the
 * id of the active chat, changed in place by the reducers of the chat slice.
 * Fresh message ids and the clock are passed in by the caller.
 */
module ChatbotSlice {
  import opened Wrappers
  import opened Strings
  import opened Types

  /** No two chats share an id. */
  predicate UniqueIds(chats: seq<Chat>)
  {
    forall i, j :: 0 <= i < j < |chats| ==> chats[i].id != chats[j].id
  }

  /** `chats.find` / `findIndex` by id: the first chat with that id, or -1. */
  function FindChat(chats: seq<Chat>, id: string): (k: int)
    ensures -1 <= k < |chats|
    ensures k >= 0 ==> chats[k].id == id && forall j :: 0 <= j < k ==> chats[j].id != id
    ensures k < 0 ==> forall j :: 0 <= j < |chats| ==> chats[j].id != id
  {
    if chats == [] then -1
    else if chats[0].id == id then 0
    else
      var k := FindChat(chats[1..], id);
      if k < 0 then -1 else k + 1
  }

  /**
   * The active chat of the hook: the first chat whose id is the active id; an
   * empty active id counts as no active chat.
   */
  function ActiveChat(chats: seq<Chat>, activeChatId: Option<string>): (r: Option<Chat>)
    ensures r.Some? ==> r.value in chats && activeChatId == Some(r.value.id) && r.value.id != ""
    ensures r.None? ==> activeChatId.None? || activeChatId.value == "" || forall c :: c in chats ==> c.id != activeChatId.value
  {
    if activeChatId.None? || activeChatId.value == "" then None
    else
      var k := FindChat(chats, activeChatId.value);
      if k < 0 then None else Some(chats[k])
  }

  /** `chats.filter(c => c.id !== id)`. */
  function WithoutChat(chats: seq<Chat>, id: string): (r: seq<Chat>)
    ensures forall c :: c in r <==> c in chats && c.id != id
    ensures |r| <= |chats|
  {
    if chats == [] then []
    else (if chats[0].id == id then [] else [chats[0]]) + WithoutChat(chats[1..], id)
  }

  /** With no chat of that id, the filter keeps the whole list. */
  lemma {:induction false} WithoutAbsentChat(chats: seq<Chat>, id: string)
    requires forall j :: 0 <= j < |chats| ==> chats[j].id != id
    ensures WithoutChat(chats, id) == chats
  {
    if chats != [] {
      WithoutAbsentChat(chats[1..], id);
      assert [chats[0]] + chats[1..] == chats;
    }
  }

  /** A kept first chat stays first, before what the filter leaves of the rest. */
  lemma WithoutKeptFirst(chats: seq<Chat>, id: string, k: nat)
    requires 0 < k < |chats| && chats[0].id != id
    requires WithoutChat(chats[1..], id) == chats[1..][..k - 1] + chats[1..][k..]
    ensures WithoutChat(chats, id) == chats[..k] + chats[k + 1..]
  {
    var before, after := chats[1..][..k - 1], chats[1..][k..];
    assert chats[..k] == [chats[0]] + before;
    assert chats[k + 1..] == after;
    assert [chats[0]] + (before + after) == ([chats[0]] + before) + after;
  }

  /** When the chat at `k` is the only one with that id, the filter closes the gap it leaves. */
  lemma {:induction false} WithoutOnlyChat(chats: seq<Chat>, id: string, k: nat)
    requires k < |chats| && chats[k].id == id
    requires forall j :: 0 <= j < |chats| && j != k ==> chats[j].id != id
    ensures WithoutChat(chats, id) == chats[..k] + chats[k + 1..]
  {
    if k == 0 {
      WithoutAbsentChat(chats[1..], id);
    } else {
      WithoutOnlyChat(chats[1..], id, k - 1);
      WithoutKeptFirst(chats, id, k);
    }
  }

  /**
   * The kept chats stay in their order: with unique ids, deleting a present
   * chat closes the gap it leaves, and deleting an absent one changes nothing.
   */
  lemma WithoutChatInOrder(chats: seq<Chat>, id: string)
    requires UniqueIds(chats)
    ensures FindChat(chats, id) >= 0 ==>
      WithoutChat(chats, id) == chats[..FindChat(chats, id)] + chats[FindChat(chats, id) + 1..]
    ensures FindChat(chats, id) < 0 ==> WithoutChat(chats, id) == chats
  {
    var k := FindChat(chats, id);
    if k < 0 {
      WithoutAbsentChat(chats, id);
    } else {
      WithoutOnlyChat(chats, id, k);
    }
  }

  /** Filtering keeps the order of the chats it keeps, so unique ids stay unique. */
  lemma {:induction false} WithoutChatUnique(chats: seq<Chat>, id: string)
    requires UniqueIds(chats)
    ensures UniqueIds(WithoutChat(chats, id))
  {
    if chats != [] {
      var rest := WithoutChat(chats[1..], id);
      WithoutChatUnique(chats[1..], id);
      forall c | c in rest ensures c.id != chats[0].id {
        var j :| 0 <= j < |chats[1..]| && chats[1..][j] == c;
        assert chats[j + 1] == c;
      }
    }
  }

  /**
   * The replace-or-append of `updateChat`: the first chat with the same id
   * is replaced where it stands, otherwise the chat is added last.
   */
  function ReplaceOrAppend(chats: seq<Chat>, chat: Chat): (r: seq<Chat>)
    ensures FindChat(chats, chat.id) >= 0 ==> |r| == |chats| && r[FindChat(chats, chat.id)] == chat
    ensures FindChat(chats, chat.id) < 0 ==> r == chats + [chat]
    ensures forall j :: 0 <= j < |chats| && j != FindChat(chats, chat.id) ==> r[j] == chats[j]
  {
    var k := FindChat(chats, chat.id);
    if k >= 0 then chats[k := chat] else chats + [chat]
  }

  /** Replacing or appending by id keeps ids unique. */
  lemma ReplaceOrAppendUnique(chats: seq<Chat>, chat: Chat)
    requires UniqueIds(chats)
    ensures UniqueIds(ReplaceOrAppend(chats, chat))
  {
    var k := FindChat(chats, chat.id);
    var r := ReplaceOrAppend(chats, chat);
    forall i, j | 0 <= i < j < |r| ensures r[i].id != r[j].id {
      if k < 0 && j == |chats| {
        assert r[i] == chats[i];
      }
    }
  }

  /** A message appended to the first chat with the given id; nothing changes when there is none. */
  function WithMessage(chats: seq<Chat>, chatId: string, message: Message): (r: seq<Chat>)
    ensures |r| == |chats|
    ensures forall j :: 0 <= j < |chats| ==> r[j].id == chats[j].id
    ensures var k := FindChat(chats, chatId);
      (k < 0 ==> r == chats) &&
      (k >= 0 ==> r[k].messages == chats[k].messages + [message] && r[k].(messages := chats[k].messages) == chats[k] &&
                  forall j :: 0 <= j < |chats| && j != k ==> r[j] == chats[j])
  {
    var k := FindChat(chats, chatId);
    if k < 0 then chats else chats[k := chats[k].(messages := chats[k].messages + [message])]
  }

  /** The first bot message with that id, or -1; messages of other types are never matched. */
  function FindBotMessage(messages: seq<Message>, id: string): (k: int)
    ensures -1 <= k < |messages|
    ensures k >= 0 ==> messages[k].id == id && messages[k].kind == Bot
    ensures k >= 0 ==> forall j :: 0 <= j < k ==> !(messages[j].id == id && messages[j].kind == Bot)
    ensures k < 0 ==> forall j :: 0 <= j < |messages| ==> !(messages[j].id == id && messages[j].kind == Bot)
  {
    if messages == [] then -1
    else if messages[0].id == id && messages[0].kind == Bot then 0
    else
      var k := FindBotMessage(messages[1..], id);
      if k < 0 then -1 else k + 1
  }

  /**
   * The upsert of `updateBotMessage` on a chat's messages: an existing bot
   * message with that id gets the new content and time and keeps its place;
   * otherwise a new bot message is appended. Messages of other types are
   * never edited.
   */
  function UpsertBotMessage(messages: seq<Message>, id: string, chatId: string, content: string, timestamp: string): (r: seq<Message>)
    ensures FindBotMessage(messages, id) >= 0 ==> |r| == |messages|
    ensures FindBotMessage(messages, id) < 0 ==> r == messages + [Message(id, chatId, content, Bot, timestamp)]
    ensures var k := FindBotMessage(messages, id);
      k >= 0 ==> r[k] == messages[k].(content := content, timestamp := timestamp)
    ensures forall j :: 0 <= j < |messages| && messages[j].kind != Bot ==> r[j] == messages[j]
    ensures forall j :: 0 <= j < |messages| && j != FindBotMessage(messages, id) ==> r[j] == messages[j]
  {
    var k := FindBotMessage(messages, id);
    if k >= 0 then messages[k := messages[k].(content := content, timestamp := timestamp)]
    else messages + [Message(id, chatId, content, Bot, timestamp)]
  }

  /** Deleting a chat that was just appended under a fresh id gives back the list before it. */
  lemma {:induction false} WithoutFreshChat(chats: seq<Chat>, chat: Chat)
    requires FindChat(chats, chat.id) < 0
    ensures WithoutChat(chats + [chat], chat.id) == chats
  {
    if chats == [] {
      assert WithoutChat([chat], chat.id) == [] + WithoutChat([], chat.id);
    } else {
      assert (chats + [chat])[1..] == chats[1..] + [chat];
      assert FindChat(chats[1..], chat.id) < 0;
      WithoutFreshChat(chats[1..], chat);
      assert chats == [chats[0]] + chats[1..];
    }
  }

  /** Deleting twice is deleting once. */
  lemma {:induction false} WithoutChatIdempotent(chats: seq<Chat>, id: string)
    ensures WithoutChat(WithoutChat(chats, id), id) == WithoutChat(chats, id)
  {
    if chats != [] {
      WithoutChatIdempotent(chats[1..], id);
      var rest := WithoutChat(chats[1..], id);
      if chats[0].id == id {
        assert WithoutChat(chats, id) == rest;
      } else {
        assert WithoutChat(chats, id) == [chats[0]] + rest;
        assert ([chats[0]] + rest)[1..] == rest;
      }
    }
  }

  /** Repeating a bot-message update with the same content and time changes nothing more. */
  lemma UpsertBotMessageIdempotent(messages: seq<Message>, id: string, chatId: string, content: string, timestamp: string)
    ensures var once := UpsertBotMessage(messages, id, chatId, content, timestamp);
      UpsertBotMessage(once, id, chatId, content, timestamp) == once
  {
    var once := UpsertBotMessage(messages, id, chatId, content, timestamp);
    var k := FindBotMessage(messages, id);
    if k < 0 {
      assert once[|messages|].id == id && once[|messages|].kind == Bot;
    }
    var k2 := FindBotMessage(once, id);
    assert k2 >= 0;
    assert k2 == (if k >= 0 then k else |messages|) by {
      if k >= 0 {
        assert once[k].id == id && once[k].kind == Bot;
        assert forall j :: 0 <= j < k ==> once[j] == messages[j];
      } else {
        assert forall j :: 0 <= j < |messages| ==> once[j] == messages[j];
      }
    }
  }

  /** The default title of a new chat: its position in the list, counted from one. */
  function DefaultTitle(count: nat): string
  {
    "Chat " + NatToString(count + 1)
  }

  class ChatbotState {
    var chats: seq<Chat>
    var activeChatId: Option<string>

    ghost predicate Valid()
      reads this
    {
      UniqueIds(chats)
    }

    /** The initial state: no chats and no active chat. */
    constructor ()
      ensures Valid() && chats == [] && activeChatId == None
    {
      chats, activeChatId := [], None;
    }

    /**
     * `createChat`: an empty title, model or system prompt takes its
     * default; a chat whose id is already present changes nothing.
     */
    method CreateChat(id: string, title: string, model: string, systemPrompt: string, messages: Option<seq<Message>>)
      requires Valid()
      modifies this
      ensures Valid()
      ensures FindChat(old(chats), id) >= 0 ==> chats == old(chats) && activeChatId == old(activeChatId)
      ensures FindChat(old(chats), id) < 0 ==>
        activeChatId == Some(id) &&
        chats == old(chats) + [Chat(id, if title != "" then title else DefaultTitle(|old(chats)|),
                                    if model != "" then model else "default", systemPrompt,
                                    messages.GetOr([]), None)]
    {
      var newChat := Chat(id, if title != "" then title else DefaultTitle(|chats|),
                          if model != "" then model else "default", systemPrompt, messages.GetOr([]), None);
      if FindChat(chats, id) < 0 {
        chats := chats + [newChat];
        activeChatId := Some(id);
      }
    }

    /** `createMessage`: a user message appended to the chat. */
    method CreateMessage(chatId: string, content: string, messageId: string, now: string)
      requires Valid()
      modifies this
      ensures Valid() && activeChatId == old(activeChatId)
      ensures chats == WithMessage(old(chats), chatId, Message(messageId, chatId, content, User, now))
    {
      AppendMessage(chatId, Message(messageId, chatId, content, User, now));
    }

    /** `createBotMessage`: a bot message with the given id appended to the chat. */
    method CreateBotMessage(chatId: string, content: string, messageId: string, now: string)
      requires Valid()
      modifies this
      ensures Valid() && activeChatId == old(activeChatId)
      ensures chats == WithMessage(old(chats), chatId, Message(messageId, chatId, content, Bot, now))
    {
      AppendMessage(chatId, Message(messageId, chatId, content, Bot, now));
    }

    /** `createSystemResponse`: a system message appended to the chat. */
    method CreateSystemResponse(chatId: string, content: string, messageId: string, now: string)
      requires Valid()
      modifies this
      ensures Valid() && activeChatId == old(activeChatId)
      ensures chats == WithMessage(old(chats), chatId, Message(messageId, chatId, content, System, now))
    {
      AppendMessage(chatId, Message(messageId, chatId, content, System, now));
    }

    /** `createCustomMessage`: a custom message holding the component when one is given, else the content. */
    method CreateCustomMessage(chatId: string, content: string, component: string, messageId: string, now: string)
      requires Valid()
      modifies this
      ensures Valid() && activeChatId == old(activeChatId)
      ensures chats == WithMessage(old(chats), chatId,
                                   Message(messageId, chatId, if component != "" then component else content, Custom, now))
    {
      AppendMessage(chatId, Message(messageId, chatId, if component != "" then component else content, Custom, now));
    }

    /** The push shared by the create-message reducers. */
    method AppendMessage(chatId: string, message: Message)
      requires Valid()
      modifies this
      ensures Valid() && activeChatId == old(activeChatId)
      ensures chats == WithMessage(old(chats), chatId, message)
    {
      var k := FindChat(chats, chatId);
      if k >= 0 {
        chats := chats[k := chats[k].(messages := chats[k].messages + [message])];
      }
    }

    /** `updateBotMessage`: the upsert of the bot message in the first chat with that id. */
    method UpdateBotMessage(chatId: string, content: string, messageId: string, now: string)
      requires Valid()
      modifies this
      ensures Valid() && activeChatId == old(activeChatId)
      ensures var k := FindChat(old(chats), chatId);
        (k < 0 ==> chats == old(chats)) &&
        (k >= 0 ==> chats == old(chats)[k := old(chats)[k].(
                      messages := UpsertBotMessage(old(chats)[k].messages, messageId, chatId, content, now))])
    {
      var k := FindChat(chats, chatId);
      if k >= 0 {
        var chat := chats[k];
        chats := chats[k := chat.(messages := UpsertBotMessage(chat.messages, messageId, chatId, content, now))];
      }
    }

    /** `selectChat`: the active id is set whether or not such a chat exists. */
    method SelectChat(chatId: string)
      modifies this
      ensures chats == old(chats) && activeChatId == Some(chatId)
    {
      activeChatId := Some(chatId);
    }

    /** `deleteChat`: every chat with that id goes; the active id is cleared exactly when it was that id. */
    method DeleteChat(chatId: string)
      requires Valid()
      modifies this
      ensures Valid()
      ensures chats == WithoutChat(old(chats), chatId)
      ensures activeChatId == if old(activeChatId) == Some(chatId) then None else old(activeChatId)
    {
      WithoutChatUnique(chats, chatId);
      chats := WithoutChat(chats, chatId);
      if activeChatId == Some(chatId) {
        activeChatId := None;
      }
    }

    /** `updateChat`: the chat, with no messages when it carries none, replaces its namesake or is appended. */
    method UpdateChat(chat: Chat, messages: Option<seq<Message>>)
      requires Valid()
      modifies this
      ensures Valid() && activeChatId == old(activeChatId)
      ensures chats == ReplaceOrAppend(old(chats), chat.(messages := messages.GetOr([])))
    {
      var stored := chat.(messages := messages.GetOr([]));
      ReplaceOrAppendUnique(chats, stored);
      var index := FindChat(chats, stored.id);
      if index >= 0 {
        chats := chats[index := stored];
      } else {
        chats := chats + [stored];
      }
    }
  }
}
