/** The home page's first-turn promotion: when the first assistant reply of
    a new conversation has finished streaming, the page seeds a durable chat
    in the `useUserChat` store with the first two messages and opens it.
    Two flags drive it: `onFinish` raises `initialChatCreation`, and the
    effect fires only while that flag is up and the stream is no longer
    loading, lowering the flag as it fires. */
module Page {
  import opened Common
  import opened KeyedLists
  import UserChat

  /** An entry of the model registry: the model's value and its provider. */
  datatype ModelEntry = ModelEntry(value: string, provider: string)

  function ValueOf(e: ModelEntry): string { e.value }

  /** The model the page selects until the user picks another. */
  const InitialModel: string := "OpenAI: GPT-4o-mini"

  /** The model every promoted chat is created with, whatever is selected. */
  const SessionModel: string := "gpt-4o-mini"

  /** `AI_MODELS.find(m => m.value === model)?.provider || ""`: the provider
      of the first entry for this model, or the empty string when the
      registry has none. */
  function ProviderFor(registry: seq<ModelEntry>, model: string): (p: string)
    ensures model !in Keys(registry, ValueOf) ==> p == ""
    ensures forall i :: (0 <= i < |registry| && registry[i].value == model &&
      forall j :: 0 <= j < i ==> registry[j].value != model) ==> p == registry[i].provider
  {
    match FindIndex(registry, ValueOf, model)
    case None =>
      assert forall i :: 0 <= i < |registry| ==> Keys(registry, ValueOf)[i] == registry[i].value;
      ""
    case Some(i) =>
      var provider := registry[i].provider;
      if Truthy(provider) then provider else ""
  }

  /** The two messages a promoted chat starts with: the first message as
      the user's, the second as the assistant's, both stamped with the
      selected model, its provider and the current time. With fewer than
      two messages the handler throws before anything is created. */
  function SeedMessages(messages: seq<Message>, model: string, registry: seq<ModelEntry>, now: int)
    : (r: Option<seq<UserChat.ChatMessage>>)
    ensures r.Some? <==> |messages| >= 2
    ensures r.Some? ==> |r.value| == 2
    ensures r.Some? ==> r.value[0].role == User && r.value[0].id == messages[0].id && r.value[0].content == messages[0].content
    ensures r.Some? ==> r.value[1].role == Assistant && r.value[1].id == messages[1].id && r.value[1].content == messages[1].content
    ensures r.Some? ==> forall k :: 0 <= k < 2 ==>
      r.value[k].model == model && r.value[k].provider == ProviderFor(registry, model) && r.value[k].createdAt == Some(now)
  {
    if |messages| < 2 then None
    else
      var provider := ProviderFor(registry, model);
      Some([UserChat.ChatMessage(messages[0].id, User, messages[0].content, Some(now), model, provider),
            UserChat.ChatMessage(messages[1].id, Assistant, messages[1].content, Some(now), model, provider)])
  }

  /** The route of a chat's own page. */
  function ChatPath(id: string): (path: string)
    ensures |path| == |id| + 3 && path[..3] == "/c/" && path[3..] == id
  {
    "/c/" + id
  }

  class ChatPage {
    var initialChatCreation: bool
    /** The model selected in the input box. */
    var model: string
    /** The routes pushed so far, oldest first. */
    var navigations: seq<string>
    const store: UserChat.ChatStore

    constructor (store: UserChat.ChatStore)
      ensures this.store == store && !initialChatCreation && model == InitialModel && navigations == []
    {
      this.store := store;
      initialChatCreation := false;
      model := InitialModel;
      navigations := [];
    }

    /** `setModel`, called by the input box. */
    method SetModel(selected: string)
      modifies this
      ensures model == selected
      ensures initialChatCreation == old(initialChatCreation) && navigations == old(navigations)
    {
      model := selected;
    }

    /** `onFinish`: the streamed reply is complete. */
    method OnFinish()
      modifies this
      ensures initialChatCreation && model == old(model) && navigations == old(navigations)
    {
      initialChatCreation := true;
    }

    /** One run of the effect. It fires only when the flag is up and the
        stream is not loading; firing lowers the flag whatever happens next,
        and a chat is created, and its route pushed, only when the seed
        messages exist and the title service does not fail. */
    method Effect(messages: seq<Message>, isLoading: bool, registry: seq<ModelEntry>,
                  id: string, now: int, titleService: seq<UserChat.ChatMessage> -> UserChat.TitleResponse)
      returns (created: Option<string>)
      requires store.Valid() && id !in UserChat.Ids(store.chat)
      modifies this, store
      ensures store.Valid() && model == old(model)
      ensures initialChatCreation == (old(initialChatCreation) && isLoading)
      ensures created.Some? <==>
        old(initialChatCreation) && !isLoading && |messages| >= 2 &&
        UserChat.ResolveTitle(titleService(UserChat.TitleRequest(SeedMessages(messages, old(model), registry, now).value))).Ok?
      ensures created.Some? ==> created.value == id && navigations == old(navigations) + [ChatPath(id)]
      ensures created.Some? ==> store.chat == UserChat.WithNewChat(
        old(store.chat), id,
        UserChat.ResolveTitle(titleService(UserChat.TitleRequest(SeedMessages(messages, old(model), registry, now).value))).value,
        SessionModel, SeedMessages(messages, old(model), registry, now).value, now)
      ensures created.None? ==> store.chat == old(store.chat) && navigations == old(navigations)
    {
      created := None;
      if initialChatCreation && !isLoading {
        var seeds := SeedMessages(messages, model, registry, now);
        initialChatCreation := false;
        if seeds.Some? {
          var r := store.CreateChat(SessionModel, seeds.value, id, now, titleService);
          if r.Ok? {
            navigations := navigations + [ChatPath(r.value)];
            created := Some(r.value);
          }
        }
      }
    }
  }

  /** One finished reply followed by two runs of the effect creates at most
      one chat: the second run finds the flag already lowered. */
  method FinishThenRunTwice(page: ChatPage, messages: seq<Message>, registry: seq<ModelEntry>,
                            first: string, second: string, now: int,
                            titleService: seq<UserChat.ChatMessage> -> UserChat.TitleResponse)
    returns (a: Option<string>, b: Option<string>)
    requires page.store.Valid() && first != second
    requires first !in UserChat.Ids(page.store.chat) && second !in UserChat.Ids(page.store.chat)
    modifies page, page.store
    ensures b.None? && !page.initialChatCreation
    ensures |page.store.chat| <= |old(page.store.chat)| + 1
    ensures |page.navigations| <= |old(page.navigations)| + 1
    ensures a.None? ==> page.store.chat == old(page.store.chat) && page.navigations == old(page.navigations)
    ensures a.Some? ==> |page.store.chat| == |old(page.store.chat)| + 1 && page.navigations == old(page.navigations) + [ChatPath(first)]
  {
    page.OnFinish();
    a := page.Effect(messages, false, registry, first, now, titleService);
    b := page.Effect(messages, false, registry, second, now, titleService);
  }

  /** A first exchange "Hello" / "Hi there" whose title comes back as
      "Greeting" becomes the one chat of a fresh store, and the page moves to
      its route. */
  method GreetingScenario(registry: seq<ModelEntry>, now: int) returns (page: ChatPage)
    ensures fresh(page) && fresh(page.store)
    ensures |page.store.chat| == 1 && page.navigations == [ChatPath("chat-1")]
    ensures var c := page.store.chat[0];
      c.id == "chat-1" && c.title == "Greeting" && c.model == SessionModel && |c.messages| == 2 &&
      c.messages[0].role == User && c.messages[0].content == "Hello" &&
      c.messages[1].role == Assistant && c.messages[1].content == "Hi there" &&
      c.messages[0].model == InitialModel && c.messages[1].model == InitialModel
  {
    var store := new UserChat.ChatStore();
    page := new ChatPage(store);
    page.OnFinish();
    var exchange := [Message("m1", User, "Hello", None), Message("m2", Assistant, "Hi there", None)];
    var created := page.Effect(exchange, false, registry, "chat-1", now,
                               _ => UserChat.Body(Some("Greeting"), None));
  }

  /** When the title service answers with an error, no chat is created and
      the page stays where it is; the flag is lowered all the same, so the
      effect does not try again until the next finished reply. */
  method RateLimitedScenario(registry: seq<ModelEntry>, now: int) returns (page: ChatPage, created: Option<string>)
    ensures fresh(page) && fresh(page.store)
    ensures created.None? && page.store.chat == [] && page.navigations == []
    ensures !page.initialChatCreation
  {
    var store := new UserChat.ChatStore();
    page := new ChatPage(store);
    page.OnFinish();
    var exchange := [Message("m1", User, "Hello", None), Message("m2", Assistant, "Hi there", None)];
    created := page.Effect(exchange, false, registry, "chat-1", now,
                           _ => UserChat.Body(None, Some("rate limited")));
  }
}
