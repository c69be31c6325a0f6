/** The client's service addresses and its server-push bridge: the REST base
    URL, the push URL built from the session token, and the handlers that
    turn push events into store mutations. */
module Utils {
  import opened Js
  import Store

  /** Base URL of the chat service. */
  const UrlBase: string := "http://localhost:6688/api"

  /** Address of the push-event stream. */
  const SseUrl: string := "http://localhost:6687/events"

  /** What separates the stream's address from the token. */
  const TokenQuery: string := "?token="

  /** `getUrlBase()`: always the fixed chat-service base URL. */
  function GetUrlBase(): (r: string)
    ensures r == "http://localhost:6688/api"
  {
    UrlBase
  }

  /** The URL `initSSE` opens: the stream address, `?token=` and the token
      exactly as given, with no percent-encoding. */
  function PushUrl(token: string): (r: string)
    ensures |r| == |SseUrl| + |TokenQuery| + |token|
    ensures r[..|SseUrl|] == "http://localhost:6687/events"
    ensures r[|SseUrl|..|SseUrl| + |TokenQuery|] == "?token="
    ensures r[|SseUrl| + |TokenQuery|..] == token
  {
    SseUrl + TokenQuery + token
  }

  /** The token a push URL carries, if it is one. */
  function TokenOf(url: string): Option<string>
  {
    var n := |SseUrl| + |TokenQuery|;
    if n <= |url| && url[..n] == SseUrl + TokenQuery then Some(url[n..]) else None
  }

  /** Reading the token back out of the push URL gives the token itself. */
  lemma PushUrlRoundTrip(token: string)
    ensures TokenOf(PushUrl(token)) == Some(token)
  {
  }

  /** Different tokens give different push URLs. */
  lemma PushUrlInjective(t1: string, t2: string)
    requires PushUrl(t1) == PushUrl(t2)
    ensures t1 == t2
  {
  }

  /** A value produced, or the exception thrown instead. */
  datatype Result = Ok(payload: Value) | Err(error: JsError)

  /** The `addMessage` payload the `NewMessage` listener builds from the
      parsed event data, or the exception it throws first: None for `parsed`
      means JSON.parse failed (SyntaxError); `delete data.event` on null
      throws a TypeError. Otherwise the payload is `{channelId: data.chatId,
      message: data}` with `data` already stripped of `event`. */
  function NewMessagePayload(parsed: Option<Value>): (r: Result)
    ensures parsed.None? ==> r == Err(SyntaxError)
    ensures parsed.Some? && parsed.value.IsNullish() ==> r == Err(TypeError)
    ensures r.Ok? <==> parsed.Some? && !parsed.value.IsNullish()
    ensures r.Ok? ==>
      var data := parsed.value;
      r.payload.Obj? &&
      r.payload.fields.Keys == {"channelId", "message"} &&
      Some(r.payload.fields["channelId"]) == Member(data, "chatId") &&
      r.payload.fields["message"] == Delete(data, "event").value
  {
    match parsed
    case None => Err(SyntaxError)
    case Some(data) =>
      match Delete(data, "event")
      case None => Err(TypeError)
      case Some(stripped) =>
        Ok(Obj(map["channelId" := Member(stripped, "chatId").value, "message" := stripped]))
  }

  /** The message the listener stores has no `event` key, and every other
      key of the payload keeps its value; a payload without `event` is
      stored as it arrived. */
  lemma StoredMessageStripped(data: Value)
    requires data.Obj?
    ensures NewMessagePayload(Some(data)).Ok?
    ensures var m := NewMessagePayload(Some(data)).payload.fields["message"];
      m.Obj? && "event" !in m.fields &&
      (forall k :: k in data.fields && k != "event" ==> k in m.fields && m.fields[k] == data.fields[k]) &&
      ("event" !in data.fields ==> m == data)
  {
  }

  /** The events the push stream delivers: a named `NewMessage` event with
      its parsed data (None when the data is not JSON), a named event of any
      other type (no listener is installed for it), an unnamed message, or a
      transport error. */
  datatype PushEvent = NewMessage(parsed: Option<Value>) | OtherNamed(name: string) | Unnamed | TransportError

  /** The payloads the handler for `ev` commits with `addMessage`, in order. */
  function Commits(ev: PushEvent): (r: seq<Value>)
    ensures |r| <= 1
    ensures |r| == 1 <==> ev.NewMessage? && NewMessagePayload(ev.parsed).Ok?
    ensures |r| == 1 ==> r[0] == NewMessagePayload(ev.parsed).payload
  {
    match ev
    case NewMessage(parsed) =>
      (match NewMessagePayload(parsed)
       case Ok(p) => [p]
       case Err(_) => [])
    case OtherNamed(_) => []
    case Unnamed => []
    case TransportError => []
  }

  /** How the handler for `ev` ends: the `NewMessage` listener may throw
      while parsing or deleting; any other named event has no listener;
      `onmessage` only logs; `onerror` reads the undeclared `error` and
      throws a ReferenceError before `sse.close()`. */
  function HandlerOutcome(ev: PushEvent): (r: Outcome)
    ensures r == Done <==> |Commits(ev)| == 1 || ev.OtherNamed? || ev.Unnamed?
    ensures ev.NewMessage? && NewMessagePayload(ev.parsed).Err? ==>
      r == Threw(NewMessagePayload(ev.parsed).error)
    ensures ev.TransportError? ==> r == Threw(ReferenceError)
  {
    match ev
    case NewMessage(parsed) =>
      (match NewMessagePayload(parsed)
       case Ok(_) => Done
       case Err(e) => Threw(e))
    case OtherNamed(_) => Done
    case Unnamed => Done
    case TransportError => Threw(ReferenceError)
  }

  /** The store state after the handler for `ev` has run. */
  function AfterEvent(s: Store.State, ev: PushEvent): (r: Store.State)
    ensures r.user == s.user && r.messages == s.messages + Commits(ev)
  {
    if |Commits(ev)| == 1 then Store.ApplyMutation(s, Store.AddMessage(Commits(ev)[0])) else s
  }

  /** A `NewMessage` event that is handled grows the message list by exactly
      one, and the new last entry is the `{channelId, message}` wrapper, not
      the bare message. */
  lemma NewMessageAppendsWrapper(s: Store.State, data: Value)
    requires !data.IsNullish()
    ensures var r := AfterEvent(s, NewMessage(Some(data)));
      var last := r.messages[|r.messages| - 1];
      |r.messages| == |s.messages| + 1 &&
      r.messages[..|s.messages|] == s.messages &&
      last.Obj? && last.fields.Keys == {"channelId", "message"} &&
      last != last.fields["message"] &&
      last.fields["message"] == Delete(data, "event").value
  {
  }

  /** The `NewMessage` listener: parse, strip `event` in place, commit one
      `addMessage` with the wrapper. */
  method OnNewMessage(store: Store.ChatStore, parsed: Option<Value>) returns (outcome: Outcome)
    modifies store
    ensures store.Snapshot() == AfterEvent(old(store.Snapshot()), NewMessage(parsed))
    ensures outcome == HandlerOutcome(NewMessage(parsed))
  {
    if parsed.None? {
      return Threw(SyntaxError);
    }
    var data := parsed.value;
    var deleted := Delete(data, "event");
    if deleted.None? {
      return Threw(TypeError);
    }
    data := deleted.value;
    var channelId := Member(data, "chatId").value;
    store.AddMessage(Obj(map["channelId" := channelId, "message" := data]));
    outcome := Done;
  }

  /** The handlers `initSSE` installs, as run for one event: only
      `NewMessage` touches the store, and it commits at most one message. */
  method Deliver(store: Store.ChatStore, ev: PushEvent) returns (outcome: Outcome)
    modifies store
    ensures store.Snapshot() == AfterEvent(old(store.Snapshot()), ev)
    ensures outcome == HandlerOutcome(ev)
  {
    match ev
    case NewMessage(parsed) =>
      outcome := OnNewMessage(store, parsed);
    case OtherNamed(_) =>
      outcome := Done;
    case Unnamed =>
      outcome := Done;
    case TransportError =>
      outcome := Threw(ReferenceError);
  }
}
