/** The bot's login status and the two client events that drive it
    (steambot/index.js, lines 30-35 and 43-54). */
module Session {
  import opened JsValues

  /** The values of `ESteamBotStatus` that the bot uses. */
  datatype BotStatus = Initialed | LoggedOn | LoggedError

  /** The client events the bot listens to. */
  datatype ClientEvent =
    | LoggedOnEvent(steamID64: string)   // 'loggedOn', with the client's 64-bit id as text
    | ErrorEvent(err: JsValue)           // 'error'

  /** What the bot emits to its own listeners. */
  datatype Notification =
    | SteamConnected(steamid: JsValue)
    | ClientError(err: JsValue)

  /** The part of the bot the handlers change. */
  datatype SessionState = SessionState(status: BotStatus, steamid: JsValue)

  /** Lines 30 and 35: no id yet, status `Initialed`. */
  const Initial := SessionState(Initialed, Null)

  /** One handler run: 'loggedOn' records the id and sets `LoggedOn`;
      'error' sets `LoggedError` and keeps the id. */
  function Step(s: SessionState, e: ClientEvent): SessionState {
    match e
    case LoggedOnEvent(id) => SessionState(LoggedOn, Str(id))
    case ErrorEvent(_) => s.(status := LoggedError)
  }

  /** What a handler emits, given the state it leaves behind. */
  function Emitted(after: SessionState, e: ClientEvent): Notification {
    match e
    case LoggedOnEvent(_) => SteamConnected(after.steamid)
    case ErrorEvent(err) => ClientError(err)
  }

  /** The state after the handlers have run for `events`, in order. */
  function Replay(s: SessionState, events: seq<ClientEvent>): SessionState {
    if events == [] then s else Step(Replay(s, events[..|events| - 1]), events[|events| - 1])
  }

  /** The id carried by the last 'loggedOn' among `events`, if any. */
  function LastLogon(events: seq<ClientEvent>): (r: Option<string>)
    ensures r.Some? ==> LoggedOnEvent(r.value) in events
    ensures r.Some? ==> exists k | 0 <= k < |events| ::
      events[k] == LoggedOnEvent(r.value) && forall j | k < j < |events| :: !events[j].LoggedOnEvent?
    ensures r.None? ==> forall e | e in events :: !e.LoggedOnEvent?
  {
    if events == [] then None
    else if events[|events| - 1].LoggedOnEvent? then Some(events[|events| - 1].steamID64)
    else
      var init := events[..|events| - 1];
      assert events == init + [events[|events| - 1]];
      LastLogon(init)
  }

  /** After any sequence of events the status is decided by the last event
      alone, and the id is that of the last 'loggedOn' (or what it was before,
      if there was none): there are no other transitions. */
  lemma {:induction false} ReplayDecided(s: SessionState, events: seq<ClientEvent>)
    ensures var r := Replay(s, events);
      && r.status == (if events == [] then s.status
                      else if events[|events| - 1].LoggedOnEvent? then LoggedOn
                      else LoggedError)
      && r.steamid == (match LastLogon(events) case Some(id) => Str(id) case None => s.steamid)
  {
    if events != [] {
      ReplayDecided(s, events[..|events| - 1]);
    }
  }

  /** From construction: the status is `Initialed` exactly until the first
      event, and `LoggedOn` only with the id of a 'loggedOn' event. */
  lemma FromInitial(events: seq<ClientEvent>)
    ensures Replay(Initial, events).status == Initialed <==> events == []
    ensures Replay(Initial, events).status == LoggedOn ==>
      exists id :: LoggedOnEvent(id) in events && Replay(Initial, events).steamid == Str(id)
    ensures (forall e | e in events :: !e.LoggedOnEvent?) ==> Replay(Initial, events).steamid == Null
  {
  }
}
