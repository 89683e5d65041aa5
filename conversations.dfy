/** The in-memory conversation store and the message-sending flow over it. */
module Conversations {
  import opened Common
  import opened Messages
  import Prompt
  import Backend
  import Media

  type Store = map<string, Conversation>

  /** Every stored conversation is filed under its own id. */
  ghost predicate WellKeyed(s: Store) {
    forall k :: k in s ==> s[k].id == k
  }

  /** The store after starting a conversation under a fresh id. */
  function Start(s: Store, freshId: string, theme: Option<string>): Store {
    s[freshId := Conversation(freshId, theme, [])]
  }

  /** What a request that sends a message returns, and the store it leaves. */
  datatype SendOutcome = SendOutcome(reply: Result<string, Error>, store: Store)

  /** The media step: no upload gives no locator; an upload gives its locator or fails. */
  function MediaStep(media: Option<Media.Upload>): Result<Option<string>, Error> {
    match media
    case None => Ok(None)
    case Some(u) =>
      match Media.Store(u)
      case Ok(loc) => Ok(Some(loc))
      case Err(e) => Err(e)
  }

  /** One send-message request: existence check, media step, user message appended, prompt rendered over
      the whole history, backend called, and on success the assistant message appended.
      `answer(url, prompt)` is what the backend call returns. */
  function Send(s: Store, id: string, message: string, modelChoice: string,
                media: Option<Media.Upload>, answer: (string, string) -> Backend.BackendResult): SendOutcome
  {
    if id !in s then SendOutcome(Err(NotFound), s)
    else
      match MediaStep(media)
      case Err(_) => SendOutcome(Err(MediaUploadFailed), s)
      case Ok(mediaUrl) =>
        var conv := s[id];
        var history := conv.messages + [UserMessage(message, mediaUrl)];
        var withUser := s[id := conv.(messages := history)];
        match answer(Backend.ResolveUrl(modelChoice), Prompt.Render(history))
        case Replied(response) =>
          var text := Backend.ReplyText(response);
          SendOutcome(Ok(text), s[id := conv.(messages := history + [AssistantMessage(text)])])
        case HttpFailure => SendOutcome(Err(BackendUnavailable), withUser)
        case OtherFailure => SendOutcome(Err(Unexpected), withUser)
  }

  /** Starting a conversation files an empty one with the given theme under the fresh id, keeps every
      other conversation, and keeps the store well keyed. */
  lemma StartStoresEmpty(s: Store, freshId: string, theme: Option<string>)
    requires freshId !in s
    ensures freshId in Start(s, freshId, theme)
    ensures Start(s, freshId, theme)[freshId] == Conversation(freshId, theme, [])
    ensures Start(s, freshId, theme).Keys == s.Keys + {freshId}
    ensures forall k :: k in s ==> Start(s, freshId, theme)[k] == s[k]
    ensures WellKeyed(s) ==> WellKeyed(Start(s, freshId, theme))
  {
  }

  /** An unknown id fails with NotFound and leaves the store as it was. */
  lemma SendUnknownId(s: Store, id: string, message: string, modelChoice: string,
                      media: Option<Media.Upload>, answer: (string, string) -> Backend.BackendResult)
    requires id !in s
    ensures Send(s, id, message, modelChoice, media, answer) == SendOutcome(Err(NotFound), s)
  {
  }

  /** A failed media write aborts before anything is appended. */
  lemma SendMediaFailure(s: Store, id: string, message: string, modelChoice: string,
                         u: Media.Upload, answer: (string, string) -> Backend.BackendResult)
    requires id in s && !u.written
    ensures Send(s, id, message, modelChoice, Some(u), answer) == SendOutcome(Err(MediaUploadFailed), s)
    ensures |Send(s, id, message, modelChoice, Some(u), answer).store[id].messages| == |s[id].messages|
  {
  }

  /** The prompt the backend receives is the old history's prompt followed by the new user line:
      the whole history, with the new message last. */
  lemma SendPromptCoversHistory(history: seq<Message>, message: string, mediaUrl: Option<string>)
    ensures Prompt.Render(history + [UserMessage(message, mediaUrl)])
         == Prompt.Render(history) + "User: " + message + "\n"
  {
    Prompt.RenderSnoc(history, UserMessage(message, mediaUrl));
  }

  /** On a backend reply the conversation grows by exactly a user message then an assistant message
      carrying the reply text, which is also returned; nothing else in the store changes. */
  lemma SendSuccess(s: Store, id: string, message: string, modelChoice: string,
                    media: Option<Media.Upload>, answer: (string, string) -> Backend.BackendResult)
    requires id in s
    requires media.Some? ==> media.value.written
    requires answer(Backend.ResolveUrl(modelChoice),
                    Prompt.Render(s[id].messages) + "User: " + message + "\n").Replied?
    ensures var o := Send(s, id, message, modelChoice, media, answer);
      var text := Backend.ReplyText(answer(Backend.ResolveUrl(modelChoice),
                                           Prompt.Render(s[id].messages) + "User: " + message + "\n").response);
      var loc := if media.Some? then Some(Media.Locator(Media.MediaFilename(media.value.token, media.value.filename))) else None;
      && o.reply == Ok(text)
      && o.store.Keys == s.Keys
      && o.store[id] == s[id].(messages := s[id].messages + [UserMessage(message, loc), AssistantMessage(text)])
      && forall k :: k in s && k != id ==> o.store[k] == s[k]
  {
    var loc := if media.Some? then Some(Media.Locator(Media.MediaFilename(media.value.token, media.value.filename))) else None;
    assert MediaStep(media) == Ok(loc);
    SendPromptCoversHistory(s[id].messages, message, loc);
    assert s[id].messages + [UserMessage(message, loc)] + [AssistantMessage(Backend.ReplyText(answer(Backend.ResolveUrl(modelChoice),
             Prompt.Render(s[id].messages) + "User: " + message + "\n").response))]
        == s[id].messages + [UserMessage(message, loc), AssistantMessage(Backend.ReplyText(answer(Backend.ResolveUrl(modelChoice),
             Prompt.Render(s[id].messages) + "User: " + message + "\n").response))];
  }

  /** When the backend call fails, the user message, with its locator if an upload was written, stays
      appended and no assistant message is added. */
  lemma SendBackendFailure(s: Store, id: string, message: string, modelChoice: string,
                           media: Option<Media.Upload>, answer: (string, string) -> Backend.BackendResult)
    requires id in s
    requires media.Some? ==> media.value.written
    requires !answer(Backend.ResolveUrl(modelChoice),
                     Prompt.Render(s[id].messages) + "User: " + message + "\n").Replied?
    ensures var o := Send(s, id, message, modelChoice, media, answer);
      var loc := if media.Some? then Some(Media.Locator(Media.MediaFilename(media.value.token, media.value.filename))) else None;
      && o.reply.Err?
      && (o.reply.error == BackendUnavailable <==>
            answer(Backend.ResolveUrl(modelChoice), Prompt.Render(s[id].messages) + "User: " + message + "\n").HttpFailure?)
      && o.store == s[id := s[id].(messages := s[id].messages + [UserMessage(message, loc)])]
  {
    var loc := if media.Some? then Some(Media.Locator(Media.MediaFilename(media.value.token, media.value.filename))) else None;
    assert MediaStep(media) == Ok(loc);
    SendPromptCoversHistory(s[id].messages, message, loc);
  }

  /** Sending never removes or reorders anything: the same ids are stored, every history only grows at
      its end, ids and themes stay put, and a well-keyed store stays well keyed. */
  lemma SendAppendOnly(s: Store, id: string, message: string, modelChoice: string,
                       media: Option<Media.Upload>, answer: (string, string) -> Backend.BackendResult)
    ensures var t := Send(s, id, message, modelChoice, media, answer).store;
      && t.Keys == s.Keys
      && (forall k :: k in s ==> t[k].id == s[k].id && t[k].theme == s[k].theme)
      && (forall k :: k in s ==> s[k].messages <= t[k].messages)
      && (forall k :: k in s ==> |t[k].messages| <= |s[k].messages| + 2)
      && (WellKeyed(s) ==> WellKeyed(t))
  {
    if id in s && MediaStep(media).Ok? {
      var h := s[id].messages + [UserMessage(message, MediaStep(media).value)];
      assert s[id].messages <= h;
      forall m: Message ensures s[id].messages <= h + [m] && |h + [m]| == |s[id].messages| + 2 {
        assert (h + [m])[..|s[id].messages|] == s[id].messages;
      }
    }
  }

  /** The store object the request handlers share. */
  class ConversationStore {
    var conversations: Store

    ghost predicate Valid()
      reads this
    {
      WellKeyed(conversations)
    }

    constructor ()
      ensures Valid() && conversations == map[]
    {
      conversations := map[];
    }

    /** Start a conversation; `freshId` stands for the UUID the service generates. */
    method StartConversation(freshId: string, theme: Option<string>) returns (id: string)
      requires Valid() && freshId !in conversations
      modifies this
      ensures Valid()
      ensures id == freshId
      ensures conversations == Start(old(conversations), freshId, theme)
    {
      conversations := conversations[freshId := Conversation(freshId, theme, [])];
      id := freshId;
    }

    /** Look a conversation up: the stored record, or NotFound. */
    method GetConversation(id: string) returns (r: Result<Conversation, Error>)
      requires Valid()
      ensures id in conversations ==> r == Ok(conversations[id]) && r.value.id == id
      ensures id !in conversations ==> r == Err(NotFound)
    {
      if id in conversations {
        r := Ok(conversations[id]);
      } else {
        r := Err(NotFound);
      }
    }

    /** Handle a user message, appending to the stored conversation step by step. */
    method SendMessage(id: string, message: string, modelChoice: string, media: Option<Media.Upload>,
                       answer: (string, string) -> Backend.BackendResult)
      returns (r: Result<string, Error>)
      requires Valid()
      modifies this
      ensures Valid()
      ensures SendOutcome(r, conversations) == Send(old(conversations), id, message, modelChoice, media, answer)
    {
      if id !in conversations {
        return Err(NotFound);
      }
      var conv := conversations[id];

      var mediaUrl: Option<string> := None;
      if media.Some? {
        var stored := Media.Store(media.value);
        if stored.Err? {
          return Err(MediaUploadFailed);
        }
        mediaUrl := Some(stored.value);
      }

      conversations := conversations[id := conv.(messages := conv.messages + [UserMessage(message, mediaUrl)])];

      var prompt := Prompt.BuildPrompt(conversations[id].messages);
      var reply := answer(Backend.ResolveUrl(modelChoice), prompt);
      match reply
      case HttpFailure =>
        r := Err(BackendUnavailable);
      case OtherFailure =>
        r := Err(Unexpected);
      case Replied(response) =>
        var text := Backend.ReplyText(response);
        conv := conversations[id];
        conversations := conversations[id := conv.(messages := conv.messages + [AssistantMessage(text)])];
        r := Ok(text);
    }
  }
}
