/** The stand-alone chat page: a session id kept in the browser's local
    storage, a transcript of user and assistant entries, and a text box
    whose trimmed text is sent. The send handler is split into its start and
    its completion. Local storage is a class holding a map; the random UUID
    is a parameter. */
module AppChat {
  import opened Common
  import opened Text
  import ChatWindow

  type Role = ChatWindow.Role

  /** The storage key of the session id. */
  const SessionKey := "fa_session_id"

  /** The browser's local storage. */
  class LocalStorage {
    var items: map<string, string>

    constructor (initial: map<string, string>)
      ensures items == initial
    {
      items := initial;
    }
  }

  /** `getOrCreateSessionId`: a stored non-empty id is returned as it is;
      otherwise the new id is stored and returned. */
  method GetOrCreateSessionId(store: LocalStorage, newId: string) returns (sid: string)
    modifies store
    ensures SessionKey in old(store.items) && old(store.items)[SessionKey] != "" ==>
              sid == old(store.items)[SessionKey] && store.items == old(store.items)
    ensures !(SessionKey in old(store.items) && old(store.items)[SessionKey] != "") ==>
              sid == newId && store.items == old(store.items)[SessionKey := newId]
  {
    var existing := if SessionKey in store.items then store.items[SessionKey] else "";
    if existing != "" {
      return existing;
    }
    sid := newId;
    store.items := store.items[SessionKey := sid];
  }

  /** Once an id has been created, later calls return it: two calls on an
      empty storage, each with a fresh UUID, give the first UUID twice. */
  method SessionIdIsStable(firstUuid: string, secondUuid: string) returns (first: string, second: string)
    requires firstUuid != ""
    ensures first == firstUuid && second == firstUuid
  {
    var store := new LocalStorage(map[]);
    first := GetOrCreateSessionId(store, firstUuid);
    second := GetOrCreateSessionId(store, secondUuid);
  }

  /** One transcript entry. */
  datatype Entry = Entry(role: Role, content: string)

  /** The body sent: the session id and the trimmed text. */
  datatype SendBody = SendBody(sessionId: string, message: string)

  /** The apology shown when a send fails. */
  const FailureText := "Sorry, something went wrong."

  /** The assistant entry for a settled send: the answer, or the apology. */
  function AssistantEntry(reply: Reply<string>): (e: Entry)
    ensures e.role == ChatWindow.Assistant
    ensures reply.Answered? ==> e.content == reply.body
    ensures !reply.Answered? ==> e.content == FailureText
  {
    if reply.Answered? then Entry(ChatWindow.Assistant, reply.body) else Entry(ChatWindow.Assistant, FailureText)
  }

  /** User and assistant entries alternate, starting with a user entry. */
  predicate Alternates(messages: seq<Entry>)
  {
    forall i :: 0 <= i < |messages| ==> (messages[i].role == ChatWindow.User <==> i % 2 == 0)
  }

  lemma AlternatesAppend(messages: seq<Entry>, e: Entry)
    requires Alternates(messages)
    requires e.role == ChatWindow.User <==> |messages| % 2 == 0
    ensures Alternates(messages + [e])
  {
    var extended := messages + [e];
    forall i | 0 <= i < |extended| ensures extended[i].role == ChatWindow.User <==> i % 2 == 0 {
      if i < |messages| {
        assert extended[i] == messages[i];
      }
    }
  }

  class App {
    var messages: seq<Entry>
    var input: string
    var loading: bool
    const sessionId: string

    /** The send in flight, if any. */
    ghost var inFlight: Option<SendBody>

    /** The submit button is disabled while loading, so at most one send is
        in flight; the transcript alternates and ends with a user entry
        exactly while a reply is awaited. */
    ghost predicate Valid()
      reads this
    {
      && (loading <==> inFlight.Some?)
      && Alternates(messages)
      && (loading <==> |messages| % 2 == 1)
    }

    /** The page opens with an empty transcript and the session id of the
        storage, created on the first visit. */
    constructor (store: LocalStorage, newId: string)
      modifies store
      ensures Valid()
      ensures messages == [] && input == "" && !loading
      ensures SessionKey in store.items && store.items[SessionKey] == sessionId
      ensures SessionKey in old(store.items) && old(store.items)[SessionKey] != "" ==>
                sessionId == old(store.items)[SessionKey] && store.items == old(store.items)
      ensures !(SessionKey in old(store.items) && old(store.items)[SessionKey] != "") ==>
                sessionId == newId && store.items == old(store.items)[SessionKey := newId]
    {
      var sid := GetOrCreateSessionId(store, newId);
      messages, input, loading := [], "", false;
      sessionId := sid;
      inFlight := None;
    }

    method SetInput(text: string)
      requires Valid()
      modifies this
      ensures Valid()
      ensures input == text && messages == old(messages) && loading == old(loading) && inFlight == old(inFlight)
    {
      input := text;
    }

    /** `onSend`, up to the request, with the submit button enabled:
        nothing when the text trims to empty; otherwise the box is cleared,
        a user entry with the trimmed text is appended and the trimmed text
        is sent with the session id. */
    method SendStart() returns (req: Option<SendBody>)
      requires Valid() && !loading
      modifies this
      ensures Valid()
      ensures req.None? <==> JsTrim(old(input)) == ""
      ensures req.None? ==> messages == old(messages) && input == old(input) && !loading
      ensures req.Some? ==>
        && req.value == SendBody(sessionId, JsTrim(old(input)))
        && messages == old(messages) + [Entry(ChatWindow.User, JsTrim(old(input)))]
        && input == "" && loading && inFlight == req
    {
      var text := JsTrim(input);
      if text == "" {
        return None;
      }
      var userEntry := Entry(ChatWindow.User, text);
      AlternatesAppend(messages, userEntry);
      input, messages, loading := "", messages + [userEntry], true;
      req := Some(SendBody(sessionId, text));
      inFlight := req;
    }

    /** `onSend`, once the request settles: exactly one assistant entry is
        appended, the answer or the apology, and loading ends. */
    method SendComplete(req: SendBody, reply: Reply<string>)
      requires Valid() && inFlight == Some(req)
      modifies this
      ensures Valid()
      ensures messages == old(messages) + [AssistantEntry(reply)]
      ensures !loading && inFlight.None? && input == old(input)
    {
      AlternatesAppend(messages, AssistantEntry(reply));
      messages, loading := messages + [AssistantEntry(reply)], false;
      inFlight := None;
    }
  }

  /** Surrounding spaces are dropped from the entry and from the message
      sent; text made only of spaces sends nothing. */
  method TrimmedSend(uuid: string) returns (sent: Option<SendBody>, blank: Option<SendBody>)
    ensures sent.Some? && sent.value.message == "hi"
    ensures blank.None?
  {
    var store := new LocalStorage(map[]);
    var app := new App(store, uuid);
    app.SetInput(" " + "hi" + " ");
    StripPadded(" ", "hi", " ", IsJsSpace);
    sent := app.SendStart();
    app.SendComplete(sent.value, NetworkError("offline"));
    app.SetInput("   ");
    TrimEmptyIffBlank("   ");
    blank := app.SendStart();
  }
}
