/** The legacy `useChat` store: a second list of chats (named rather than
    titled) together with four UI control values, each with its own
    setter. Every action replaces `chats` or `chatControls` with a new value
    computed from the old. */
module UseChat {
  import opened Common
  import opened KeyedLists

  datatype Chat = Chat(
    id: string, name: string, messages: seq<Message>, model: string,
    createdAt: int, updatedAt: int)

  function IdOf(c: Chat): string { c.id }

  function Ids(chats: seq<Chat>): seq<string> { Keys(chats, IdOf) }

  datatype ChatControls = ChatControls(
    regenerate: bool, regenerateWithModel: bool, selectedModel: string, copyToClipboard: bool)

  const DefaultModel: string := "OpenAI: GPT-4o-mini"

  const InitialControls: ChatControls := ChatControls(false, false, DefaultModel, false)

  /** The chat `createChat` builds. An omitted argument (`None`) takes its
      default; a model given as the empty string is kept as it is, because a
      default parameter replaces only `undefined`. */
  function NewChat(id: string, name: string, messages: Option<seq<Message>>, model: Option<string>, now: int): (c: Chat)
    ensures c.id == id && c.name == name && c.createdAt == now && c.updatedAt == now
    ensures messages.None? ==> c.messages == []
    ensures messages.Some? ==> c.messages == messages.value
    ensures model.None? ==> c.model == DefaultModel
    ensures model.Some? ==> c.model == model.value
  {
    Chat(id, name,
         if messages.Some? then messages.value else [],
         if model.Some? then model.value else DefaultModel,
         now, now)
  }

  /** `getChat`: the first chat with this id, if any. */
  function GetChat(chats: seq<Chat>, chatId: string): (r: Option<Chat>)
    ensures r.None? <==> chatId !in Ids(chats)
    ensures r.Some? ==> r.value.id == chatId
    ensures r.Some? ==> exists i :: 0 <= i < |chats| && chats[i] == r.value && forall j :: 0 <= j < i ==> chats[j].id != chatId
  {
    Find(chats, IdOf, chatId)
  }

  /** The list `updateChat` stores. A chat with this id gets the messages,
      a new `updatedAt`, and the given model when one is passed and is not
      empty (`model || chat.model`); otherwise it keeps its model. Other
      chats, and name, id and creation time, are untouched. */
  function Update(chats: seq<Chat>, chatId: string, messages: seq<Message>, model: Option<string>, now: int): (r: seq<Chat>)
    ensures |r| == |chats| && Ids(r) == Ids(chats)
    ensures forall i :: 0 <= i < |chats| && chats[i].id == chatId ==>
      r[i].messages == messages && r[i].updatedAt == now &&
      r[i].name == chats[i].name && r[i].createdAt == chats[i].createdAt
    ensures forall i :: 0 <= i < |chats| && chats[i].id == chatId && model.Some? && model.value != "" ==>
      r[i].model == model.value
    ensures forall i :: 0 <= i < |chats| && chats[i].id == chatId && (model.None? || model.value == "") ==>
      r[i].model == chats[i].model
    ensures forall i :: 0 <= i < |chats| && chats[i].id != chatId ==> r[i] == chats[i]
    ensures chatId !in Ids(chats) ==> r == chats
  {
    var f := (c: Chat) =>
      c.(messages := messages,
         model := if model.Some? && Truthy(model.value) then model.value else c.model,
         updatedAt := now);
    MapMatchingKeys(chats, IdOf, chatId, f);
    var r := MapMatching(chats, IdOf, chatId, f);
    assert chatId !in Ids(chats) ==> forall i :: 0 <= i < |chats| ==> chats[i].id != chatId by {
      if chatId !in Ids(chats) {
        forall i | 0 <= i < |chats| ensures chats[i].id != chatId { assert Ids(chats)[i] == chats[i].id; }
      }
    }
    r
  }

  /** `updateChat` followed by `getChat` on the same id sees exactly the
      messages passed in. */
  lemma UpdateThenGet(chats: seq<Chat>, chatId: string, messages: seq<Message>, model: Option<string>, now: int)
    requires chatId in Ids(chats)
    ensures GetChat(Update(chats, chatId, messages, model, now), chatId).Some?
    ensures GetChat(Update(chats, chatId, messages, model, now), chatId).value.messages == messages
    ensures GetChat(Update(chats, chatId, messages, model, now), chatId).value.name == GetChat(chats, chatId).value.name
  {
    var r := Update(chats, chatId, messages, model, now);
    FindIndexSameKeys(r, chats, IdOf, chatId);
  }

  /** `createChat` followed by `getChat` on the id it returned finds the new
      chat, and ids stay distinct. */
  lemma CreateThenGet(chats: seq<Chat>, c: Chat)
    requires c.id !in Ids(chats)
    ensures GetChat(chats + [c], c.id) == Some(c)
    ensures UniqueKeys(chats, IdOf) ==> UniqueKeys(chats + [c], IdOf)
  {
    AppendFresh(chats, c, IdOf);
  }

  class ChatStore {
    var chats: seq<Chat>
    var chatControls: ChatControls

    /** Ids stay pairwise distinct: every new chat gets a fresh one. */
    ghost predicate Valid()
      reads this
    {
      UniqueKeys(chats, IdOf)
    }

    constructor ()
      ensures Valid() && chats == [] && chatControls == InitialControls
    {
      chats := [];
      chatControls := InitialControls;
    }

    /** `createChat(name, messages?, model?)`: appends one chat with a fresh
        id and returns that id. */
    method CreateChat(name: string, messages: Option<seq<Message>>, model: Option<string>, id: string, now: int)
      returns (chatId: string)
      requires Valid() && id !in Ids(chats)
      modifies this
      ensures Valid() && chatId == id
      ensures chats == old(chats) + [NewChat(id, name, messages, model, now)]
      ensures GetChat(chats, chatId) == Some(NewChat(id, name, messages, model, now))
      ensures chatControls == old(chatControls)
    {
      var c := NewChat(id, name, messages, model, now);
      CreateThenGet(chats, c);
      chats := chats + [c];
      chatId := id;
    }

    method UpdateChat(chatId: string, messages: seq<Message>, model: Option<string>, now: int)
      requires Valid()
      modifies this
      ensures Valid() && chats == Update(old(chats), chatId, messages, model, now)
      ensures chatControls == old(chatControls)
    {
      chats := Update(chats, chatId, messages, model, now);
      assert forall i, j :: 0 <= i < j < |chats| ==> Ids(chats)[i] != Ids(chats)[j];
    }

    method DeleteChat(chatId: string)
      requires Valid()
      modifies this
      ensures Valid() && chats == FilterOut(old(chats), IdOf, chatId)
      ensures chatControls == old(chatControls)
    {
      FilterOutKeepsUnique(chats, IdOf, chatId);
      chats := FilterOut(chats, IdOf, chatId);
    }

    method SetRegenerate(regenerate: bool)
      modifies this
      ensures chatControls.regenerate == regenerate
      ensures chatControls.regenerateWithModel == old(chatControls.regenerateWithModel)
      ensures chatControls.selectedModel == old(chatControls.selectedModel)
      ensures chatControls.copyToClipboard == old(chatControls.copyToClipboard)
      ensures chats == old(chats)
    {
      chatControls := chatControls.(regenerate := regenerate);
    }

    method SetRegenerateWithModel(regenerateWithModel: bool)
      modifies this
      ensures chatControls.regenerateWithModel == regenerateWithModel
      ensures chatControls.regenerate == old(chatControls.regenerate)
      ensures chatControls.selectedModel == old(chatControls.selectedModel)
      ensures chatControls.copyToClipboard == old(chatControls.copyToClipboard)
      ensures chats == old(chats)
    {
      chatControls := chatControls.(regenerateWithModel := regenerateWithModel);
    }

    method SetSelectedModel(selectedModel: string)
      modifies this
      ensures chatControls.selectedModel == selectedModel
      ensures chatControls.regenerate == old(chatControls.regenerate)
      ensures chatControls.regenerateWithModel == old(chatControls.regenerateWithModel)
      ensures chatControls.copyToClipboard == old(chatControls.copyToClipboard)
      ensures chats == old(chats)
    {
      chatControls := chatControls.(selectedModel := selectedModel);
    }

    method SetCopyToClipboard(copyToClipboard: bool)
      modifies this
      ensures chatControls.copyToClipboard == copyToClipboard
      ensures chatControls.regenerate == old(chatControls.regenerate)
      ensures chatControls.regenerateWithModel == old(chatControls.regenerateWithModel)
      ensures chatControls.selectedModel == old(chatControls.selectedModel)
      ensures chats == old(chats)
    {
      chatControls := chatControls.(copyToClipboard := copyToClipboard);
    }
  }
}
