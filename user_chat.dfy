/** The `useUserChat` session store: the durable list of chats the app
    reads and writes once a conversation has been promoted. Every action
    replaces the `chat` list with a new one computed from the old; the pure
    functions below compute those lists and the class holds the list. */
module UserChat {
  import opened Common
  import opened KeyedLists

  /** A message as stored in a chat: the `ai` message plus the model and
      provider that produced it. */
  datatype ChatMessage = ChatMessage(
    id: string, role: Role, content: string, createdAt: Option<int>,
    model: string, provider: string)

  datatype Chat = Chat(
    id: string, title: string, model: string, messages: seq<ChatMessage>,
    createdAt: int, updatedAt: int)

  function IdOf(c: Chat): string { c.id }

  function Ids(chats: seq<Chat>): seq<string> { Keys(chats, IdOf) }

  /** What the title endpoint's reply decodes to: a JSON body that may
      carry `title` and `error`, or a request or decoding that threw. */
  datatype TitleResponse =
    | Body(title: Option<string>, error: Option<string>)
    | Unreadable(reason: string)

  const DefaultTitle: string := "New Chat"

  /** The messages sent to the title endpoint: `messages.slice(0, 2)`. */
  function TitleRequest(messages: seq<ChatMessage>): (r: seq<ChatMessage>)
    ensures r <= messages
    ensures |r| == if |messages| < 2 then |messages| else 2
  {
    if |messages| < 2 then messages else messages[..2]
  }

  /** The title a reply yields, or the error `createChat` throws for it. */
  function ResolveTitle(response: TitleResponse): (r: Result<string>)
    ensures r.Err? <==> response.Unreadable? || (response.error.Some? && Truthy(response.error.value))
    ensures response.Unreadable? ==> r == Err(response.reason)
    ensures r.Err? && response.Body? ==> r.message == response.error.value
    ensures r.Ok? && response.title.None? ==> r.value == DefaultTitle
    ensures r.Ok? && response.title.Some? ==> r.value == response.title.value
  {
    match response
    case Unreadable(reason) => Err(reason)
    case Body(title, error) =>
      if error.Some? && Truthy(error.value) then Err(error.value)
      else Ok(if title.Some? then title.value else DefaultTitle)
  }

  /** `getChat`: the first chat with this id, if any. */
  function GetChat(chats: seq<Chat>, id: string): (r: Option<Chat>)
    ensures r.None? <==> id !in Ids(chats)
    ensures r.Some? ==> r.value.id == id
    ensures r.Some? ==> exists i :: 0 <= i < |chats| && chats[i] == r.value && forall j :: 0 <= j < i ==> chats[j].id != id
  {
    Find(chats, IdOf, id)
  }

  /** The list `updateChat` stores: the chats with this id get the new
      messages and `updatedAt`; nothing else changes. */
  function ReplaceMessages(chats: seq<Chat>, id: string, messages: seq<ChatMessage>, now: int): (r: seq<Chat>)
    ensures |r| == |chats| && Ids(r) == Ids(chats)
    ensures forall i :: 0 <= i < |chats| && chats[i].id == id ==>
      r[i].messages == messages && r[i].updatedAt == now &&
      r[i].title == chats[i].title && r[i].model == chats[i].model && r[i].createdAt == chats[i].createdAt
    ensures forall i :: 0 <= i < |chats| && chats[i].id != id ==> r[i] == chats[i]
    ensures id !in Ids(chats) ==> r == chats
  {
    var f := (c: Chat) => c.(messages := messages, updatedAt := now);
    MapMatchingKeys(chats, IdOf, id, f);
    var r := MapMatching(chats, IdOf, id, f);
    assert id !in Ids(chats) ==> forall i :: 0 <= i < |chats| ==> chats[i].id != id by {
      if id !in Ids(chats) {
        forall i | 0 <= i < |chats| ensures chats[i].id != id { assert Ids(chats)[i] == chats[i].id; }
      }
    }
    r
  }

  /** The list `addMessage` stores: the chats with this id get the message
      appended; `updatedAt` is left as it was; nothing else changes. */
  function AppendMessage(chats: seq<Chat>, id: string, message: ChatMessage): (r: seq<Chat>)
    ensures |r| == |chats| && Ids(r) == Ids(chats)
    ensures forall i :: 0 <= i < |chats| && chats[i].id == id ==>
      r[i].messages == chats[i].messages + [message] && r[i].updatedAt == chats[i].updatedAt &&
      r[i].title == chats[i].title && r[i].model == chats[i].model && r[i].createdAt == chats[i].createdAt
    ensures forall i :: 0 <= i < |chats| && chats[i].id != id ==> r[i] == chats[i]
    ensures id !in Ids(chats) ==> r == chats
  {
    var f := (c: Chat) => c.(messages := c.messages + [message]);
    MapMatchingKeys(chats, IdOf, id, f);
    var r := MapMatching(chats, IdOf, id, f);
    assert id !in Ids(chats) ==> forall i :: 0 <= i < |chats| ==> chats[i].id != id by {
      if id !in Ids(chats) {
        forall i | 0 <= i < |chats| ensures chats[i].id != id { assert Ids(chats)[i] == chats[i].id; }
      }
    }
    r
  }

  /** The list `updateChatTitle` stores: the chats with this id get the new
      title and `updatedAt`; nothing else changes. */
  function Retitle(chats: seq<Chat>, id: string, title: string, now: int): (r: seq<Chat>)
    ensures |r| == |chats| && Ids(r) == Ids(chats)
    ensures forall i :: 0 <= i < |chats| && chats[i].id == id ==>
      r[i].title == title && r[i].updatedAt == now &&
      r[i].messages == chats[i].messages && r[i].model == chats[i].model && r[i].createdAt == chats[i].createdAt
    ensures forall i :: 0 <= i < |chats| && chats[i].id != id ==> r[i] == chats[i]
    ensures id !in Ids(chats) ==> r == chats
  {
    var f := (c: Chat) => c.(title := title, updatedAt := now);
    MapMatchingKeys(chats, IdOf, id, f);
    var r := MapMatching(chats, IdOf, id, f);
    assert id !in Ids(chats) ==> forall i :: 0 <= i < |chats| ==> chats[i].id != id by {
      if id !in Ids(chats) {
        forall i | 0 <= i < |chats| ensures chats[i].id != id { assert Ids(chats)[i] == chats[i].id; }
      }
    }
    r
  }

  /** The chat list after a successful `createChat`: one new chat at the
      end, stamped `now` on both timestamps. */
  function WithNewChat(chats: seq<Chat>, id: string, title: string, model: string, messages: seq<ChatMessage>, now: int): (r: seq<Chat>)
    requires id !in Ids(chats)
    ensures |r| == |chats| + 1 && r[..|chats|] == chats
    ensures Ids(r) == Ids(chats) + [id]
    ensures GetChat(r, id) == Some(r[|chats|])
    ensures r[|chats|] == Chat(id, title, model, messages, now, now)
  {
    var c := Chat(id, title, model, messages, now, now);
    AppendFresh(chats, c, IdOf);
    assert (chats + [c])[..|chats|] == chats;
    chats + [c]
  }

  /** `updateChat` followed by `getChat` on the same id sees the new
      messages, and the title, model and creation time it had before. */
  lemma ReplaceThenGet(chats: seq<Chat>, id: string, messages: seq<ChatMessage>, now: int)
    requires id in Ids(chats)
    ensures GetChat(ReplaceMessages(chats, id, messages, now), id) ==
      Some(GetChat(chats, id).value.(messages := messages, updatedAt := now))
  {
    var r := ReplaceMessages(chats, id, messages, now);
    FindIndexSameKeys(r, chats, IdOf, id);
  }

  /** `addMessage` followed by `getChat`: the message list ends with the new
      message and every earlier message is still there, in place. */
  lemma AppendThenGet(chats: seq<Chat>, id: string, message: ChatMessage)
    requires id in Ids(chats)
    ensures GetChat(AppendMessage(chats, id, message), id).Some?
    ensures var before := GetChat(chats, id).value.messages;
            var after := GetChat(AppendMessage(chats, id, message), id).value.messages;
            |after| == |before| + 1 && after[|before|] == message && after[..|before|] == before
  {
    var r := AppendMessage(chats, id, message);
    FindIndexSameKeys(r, chats, IdOf, id);
    var before := GetChat(chats, id).value.messages;
    assert (before + [message])[..|before|] == before;
  }

  class ChatStore {
    var chat: seq<Chat>

    /** Ids stay pairwise distinct: every new chat gets a fresh one. */
    ghost predicate Valid()
      reads this
    {
      UniqueKeys(chat, IdOf)
    }

    constructor ()
      ensures Valid() && chat == []
    {
      chat := [];
    }

    /** `createChat`: asks the title service about the first two messages;
        on an error nothing is stored and the error is thrown, otherwise one
        chat is appended and its id returned. */
    method CreateChat(model: string, messages: seq<ChatMessage>, id: string, now: int,
                      titleService: seq<ChatMessage> -> TitleResponse)
      returns (r: Result<string>)
      requires Valid() && id !in Ids(chat)
      modifies this
      ensures Valid()
      ensures r.Err? <==> ResolveTitle(titleService(TitleRequest(messages))).Err?
      ensures r.Err? ==> r == Err(ResolveTitle(titleService(TitleRequest(messages))).message)
      ensures r.Err? ==> chat == old(chat)
      ensures r.Ok? ==> r.value == id
      ensures r.Ok? ==> chat == WithNewChat(old(chat), id, ResolveTitle(titleService(TitleRequest(messages))).value, model, messages, now)
    {
      var title := ResolveTitle(titleService(TitleRequest(messages)));
      if title.Err? {
        return Err(title.message);
      }
      AppendFresh(chat, Chat(id, title.value, model, messages, now, now), IdOf);
      chat := WithNewChat(chat, id, title.value, model, messages, now);
      r := Ok(id);
    }

    method UpdateChat(id: string, messages: seq<ChatMessage>, now: int)
      requires Valid()
      modifies this
      ensures Valid() && chat == ReplaceMessages(old(chat), id, messages, now)
    {
      chat := ReplaceMessages(chat, id, messages, now);
      assert forall i, j :: 0 <= i < j < |chat| ==> Ids(chat)[i] != Ids(chat)[j];
    }

    method DeleteChat(id: string)
      requires Valid()
      modifies this
      ensures Valid() && chat == FilterOut(old(chat), IdOf, id)
    {
      FilterOutKeepsUnique(chat, IdOf, id);
      chat := FilterOut(chat, IdOf, id);
    }

    method ClearAllChats()
      modifies this
      ensures Valid() && chat == []
    {
      chat := [];
    }

    method AddMessage(id: string, message: ChatMessage)
      requires Valid()
      modifies this
      ensures Valid() && chat == AppendMessage(old(chat), id, message)
    {
      chat := AppendMessage(chat, id, message);
      assert forall i, j :: 0 <= i < j < |chat| ==> Ids(chat)[i] != Ids(chat)[j];
    }

    method UpdateChatTitle(id: string, title: string, now: int)
      requires Valid()
      modifies this
      ensures Valid() && chat == Retitle(old(chat), id, title, now)
    {
      chat := Retitle(chat, id, title, now);
      assert forall i, j :: 0 <= i < j < |chat| ==> Ids(chat)[i] != Ids(chat)[j];
    }
  }
}
