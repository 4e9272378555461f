/** The `SteamBot` object (steambot/index.js): its construction, the client
    handlers that drive its status, the friend operations and `sendGift`,
    which talks to the store through a `Gateway`. */
module Bot {
  import opened JsValues
  import opened BotOptions
  import opened Session
  import opened Store
  import opened GiftFlow

  /** A call the bot makes on the Steam client. */
  datatype ClientCall = RemoveFriendCall(steamid: JsValue)

  /** The Steam client, as far as the bot uses it: its friends list, keyed by
      64-bit id as text, and the calls made on it. */
  class Client {
    var myFriends: map<string, JsValue>
    var calls: seq<ClientCall>

    constructor (myFriends: map<string, JsValue>)
      ensures this.myFriends == myFriends && calls == []
    {
      this.myFriends := myFriends;
      calls := [];
    }

    /** `client.removeFriend(steamid)`: recorded; its effect on the friends
        list belongs to the client. */
    method RemoveFriend(steamid: JsValue)
      modifies this`calls
      ensures calls == old(calls) + [RemoveFriendCall(steamid)]
    {
      calls := calls + [RemoveFriendCall(steamid)];
    }
  }

  class SteamBot {
    var options: JsObject
    var steamid: JsValue
    var account: JsValue
    var password: JsValue
    var personaname: JsValue
    var status: BotStatus
    const client: Client
    const store: Gateway
    /** The client events handled so far, in order. */
    ghost var events: seq<ClientEvent>

    /** The status and id, which only the client handlers change. */
    function State(): SessionState
      reads this
    {
      SessionState(status, steamid)
    }

    /** The status and id are those the handled events lead to from
        construction. */
    ghost predicate Valid()
      reads this
    {
      State() == Replay(Initial, events)
    }

    /** Lines 10-41. A null `options` stands for any falsy argument, which is
        replaced by a fresh empty object; otherwise the caller's object is
        kept and the defaults are written into it. */
    constructor (options: JsObject?, client: Client, store: Gateway)
      modifies options
      ensures options != null ==> this.options == options
      ensures options == null ==> fresh(this.options)
      ensures this.options.props == WithDefaults(if options == null then map[] else old(options.props))
      ensures account == Get(this.options.props, "account")
      ensures password == Get(this.options.props, "password")
      ensures personaname == Null
      ensures State() == Initial && events == [] && Valid()
      ensures this.client == client && this.store == store
    {
      var opts: JsObject;
      if options == null {
        opts := new JsObject(map[]);
      } else {
        opts := options;
      }
      FillDefaults(opts);
      this.options := opts;
      steamid := Null;
      account := Get(opts.props, "account");
      password := Get(opts.props, "password");
      personaname := Null;
      status := Initialed;
      this.client := client;
      this.store := store;
      events := [];
    }

    /** The 'loggedOn' handler, lines 44-49: records the client's id, sets
        `LoggedOn` and emits 'steamConnected' with the id. */
    method OnLoggedOn(steamID64: string) returns (n: Notification)
      requires Valid()
      modifies this`status, this`steamid, this`events
      ensures State() == Step(old(State()), LoggedOnEvent(steamID64))
      ensures n == Emitted(State(), LoggedOnEvent(steamID64)) == SteamConnected(Str(steamID64))
      ensures events == old(events) + [LoggedOnEvent(steamID64)] && Valid()
    {
      steamid := Str(steamID64);
      status := LoggedOn;
      events := events + [LoggedOnEvent(steamID64)];
      assert events[..|events| - 1] == old(events);
      n := SteamConnected(steamid);
    }

    /** The 'error' handler, lines 51-54: sets `LoggedError`, keeps the id and
        emits 'clientError' with the error. */
    method OnError(err: JsValue) returns (n: Notification)
      requires Valid()
      modifies this`status, this`events
      ensures State() == Step(old(State()), ErrorEvent(err))
      ensures steamid == old(steamid)
      ensures n == Emitted(State(), ErrorEvent(err)) == ClientError(err)
      ensures events == old(events) + [ErrorEvent(err)] && Valid()
    {
      status := LoggedError;
      events := events + [ErrorEvent(err)];
      assert events[..|events| - 1] == old(events);
      n := ClientError(err);
    }

    /** Lines 133-138: the client's own entry for `steamid`, or null when the
        friends list has no such key. */
    function GetFriendRelationship(steamid: string): (r: JsValue)
      reads this, client
      ensures steamid in client.myFriends ==> r == client.myFriends[steamid]
      ensures steamid !in client.myFriends ==> r == Null
    {
      if steamid in client.myFriends then client.myFriends[steamid] else Null
    }

    /** Lines 75-79: asks the client to remove each id, in list order, falsy
        ids included. */
    method RemoveFriends(steamids: seq<JsValue>)
      modifies client`calls
      ensures |client.calls| == |old(client.calls)| + |steamids|
      ensures client.calls[..|old(client.calls)|] == old(client.calls)
      ensures forall k | 0 <= k < |steamids| :: client.calls[|old(client.calls)| + k] == RemoveFriendCall(steamids[k])
    {
      var i := 0;
      while i < |steamids|
        invariant 0 <= i <= |steamids|
        invariant |client.calls| == |old(client.calls)| + i
        invariant client.calls[..|old(client.calls)|] == old(client.calls)
        invariant forall k | 0 <= k < i :: client.calls[|old(client.calls)| + k] == RemoveFriendCall(steamids[k])
      {
        client.RemoveFriend(steamids[i]);
        i := i + 1;
      }
    }

    /** The `try` block of `sendGift`, lines 158-196. */
    method TryGift(req: GiftRequest) returns (c: Completion)
      modifies store
      ensures Outcome(c, store.trace) == TryBlock(store.respond, old(store.trace), req)
    {
      ghost var t0 := store.trace;
      store.Forget();
      var cart := Null;
      var i := 0;
      while i < |req.subids|
        invariant 0 <= i <= |req.subids|
        invariant AddAll(store.respond, cart, store.trace, req.subids[i..], false)
               == AddAll(store.respond, Null, t0 + [ForgetCart], req.subids, false)
      {
        assert req.subids[i..][1..] == req.subids[i + 1..];
        if Truthy(req.subids[i]) {
          var r := store.Call(AddToCart(req.subids[i]));
          if r.Rejected? {
            return Threw(Raised(r.reason));
          }
          cart := r.value;
        }
        i := i + 1;
      }
      var n := 0;
      while n < |req.bundles|
        invariant 0 <= n <= |req.bundles|
        invariant AddAll(store.respond, cart, store.trace, req.bundles[n..], true)
               == Build(store.respond, t0, req)
      {
        assert req.bundles[n..][1..] == req.bundles[n + 1..];
        if Truthy(req.bundles[n]) {
          var r := store.Call(AddBundleToCart(req.bundles[n]));
          if r.Rejected? {
            return Threw(Raised(r.reason));
          }
          cart := r.value;
        }
        n := n + 1;
      }
      assert req.bundles[n..] == [];
      if !Truthy(cart) {
        return Threw(CartError);
      }
      c := Transact(cart, req);
    }

    /** Lines 174-196: checkout, initiate, finalize, wait, poll and judge the
        status. */
    method Transact(cart: JsValue, req: GiftRequest) returns (c: Completion)
      modifies store
      ensures Outcome(c, store.trace) == GiftFlow.Transact(store.respond, old(store.trace), cart, req)
    {
      var r := store.Call(CheckoutGiftCart(cart, req.steamid));
      if r.Rejected? {
        return Threw(Raised(r.reason));
      }
      // `country` is not passed, so the delegation forwards undefined
      r := store.Call(InitTransaction(cart, req.steamid, req.giftMessage, req.gifteeName,
                                      req.signature, req.sentiment, Undefined));
      if r.Rejected? {
        return Threw(Raised(r.reason));
      }
      var transId := r.value;
      r := store.Call(FinalizeTransaction(transId));
      if r.Rejected? {
        return Threw(Raised(r.reason));
      }
      store.Sleep(SettleDelayMs);
      r := store.Call(GetTransactionStatus(transId));
      if r.Rejected? {
        return Threw(Raised(r.reason));
      }
      var check := CheckStatus(r.value);
      if check == CheckThrows {
        return Threw(StatusTypeError);
      }
      if check == Accepted {
        return Returned(true);
      }
      store.Forget();
      store.Sleep(GiftErrorDelayMs);
      return Threw(GiftError);
    }

    /** Lines 148-201: on any throw the catch forgets the cart and rethrows
        the same error. The run is exactly the one `GiftFlow.SendGift`
        describes, so every property proved there holds of it. */
    method SendGift(subids: seq<JsValue>, bundles: seq<JsValue>, steamid: JsValue,
                    giftMessage: JsValue, gifteeName: JsValue, signature: JsValue, sentiment: JsValue)
      returns (c: Completion)
      modifies store
      ensures Outcome(c, store.trace) ==
        GiftFlow.SendGift(store.respond, old(store.trace),
                          GiftRequest(subids, bundles, steamid, giftMessage, gifteeName, signature, sentiment))
    {
      var req := GiftRequest(subids, bundles, steamid, giftMessage, gifteeName, signature, sentiment);
      c := TryGift(req);
      if c.Threw? {
        store.Forget();
      }
    }
  }
}
