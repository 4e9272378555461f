/** What `sendGift` does (steambot/index.js, lines 148-201), as a function
    of the store's behaviour: the value or error it settles with, and the
    calls it makes, in order. */
module GiftFlow {
  import opened JsValues
  import opened Store

  /** The wait between finalizing and polling the status (line 185). */
  const SettleDelayMs: nat := 2000
  /** The wait before a 'Gift Error' is thrown (line 195). */
  const GiftErrorDelayMs: nat := 500

  /** The arguments of `sendGift`. */
  datatype GiftRequest = GiftRequest(
    subids: seq<JsValue>,
    bundles: seq<JsValue>,
    steamid: JsValue,
    giftMessage: JsValue,
    gifteeName: JsValue,
    signature: JsValue,
    sentiment: JsValue)

  /** What `sendGift` can throw. */
  datatype Exn =
    | Raised(reason: JsValue)   // a store rejection, rethrown as it is
    | CartError                 // new Error('Cart Error')
    | GiftError                 // new Error('Gift Error')
    | StatusTypeError           // `transStatus.hasOwnProperty(...)` could not be called

  /** How the promise returned by `sendGift` settles. */
  datatype Completion = Returned(value: bool) | Threw(error: Exn)

  /** A run of `sendGift`: how it settles, and the whole trace afterwards. */
  datatype Outcome = Outcome(completion: Completion, trace: seq<Effect>)

  /** The local `cart` while the add loops run, or the rejection that ended them. */
  datatype CartState =
    | Building(cart: JsValue, trace: seq<Effect>)
    | Aborted(reason: JsValue, trace: seq<Effect>)

  /** Three possible readings of the status poll (lines 188-191). */
  datatype StatusCheck = Accepted | NotAccepted | CheckThrows

  /** The two success codes the store reports for a completed gift. */
  const SuccessCodes: set<real> := {1.0, 22.0}

  /** `transStatus.hasOwnProperty` cannot be called: reading a property of
      null or undefined throws, and an object whose own `hasOwnProperty`
      shadows the inherited method is taken to throw as well. */
  predicate StatusThrows(status: JsValue) {
    Nullish(status) || (status.Obj? && "hasOwnProperty" in status.props)
  }

  /** `transStatus.hasOwnProperty('success') && (transStatus['success'] === 1
      || transStatus['success'] === 22)`. A boolean, number or string has no
      own 'success'. */
  function CheckStatus(status: JsValue): StatusCheck {
    if StatusThrows(status) then CheckThrows
    else if status.Obj? && "success" in status.props
         && status.props["success"].Num? && status.props["success"].n in SuccessCodes
    then Accepted
    else NotAccepted
  }

  function AddCall(bundle: bool, id: JsValue): Effect {
    if bundle then AddBundleToCart(id) else AddToCart(id)
  }

  /** The add calls one loop makes: one per truthy id, in list order. */
  function AddCalls(ids: seq<JsValue>, bundle: bool): seq<Effect> {
    if ids == [] then []
    else (if Truthy(ids[0]) then [AddCall(bundle, ids[0])] else []) + AddCalls(ids[1..], bundle)
  }

  lemma AddCallsFirst(ids: seq<JsValue>, bundle: bool)
    requires ids != [] && Truthy(ids[0])
    ensures AddCalls(ids, bundle) == [AddCall(bundle, ids[0])] + AddCalls(ids[1..], bundle)
  {
  }

  /** A loop adds exactly its truthy ids, with the call its loop uses. */
  lemma {:induction false} AddCallsAreTruthyIds(ids: seq<JsValue>, bundle: bool)
    ensures |AddCalls(ids, bundle)| <= |ids|
    ensures forall e | e in AddCalls(ids, bundle) ::
      (if bundle then e.AddBundleToCart? else e.AddToCart?) && Truthy(e.subid) && e.subid in ids
    ensures forall id | id in ids && Truthy(id) :: AddCall(bundle, id) in AddCalls(ids, bundle)
    ensures AddCalls(ids, bundle) == [] <==> forall id | id in ids :: !Truthy(id)
  {
    if ids != [] {
      AddCallsAreTruthyIds(ids[1..], bundle);
      assert forall id | id in ids :: id == ids[0] || id in ids[1..];
    }
  }

  /** When every id is truthy, a loop adds each of them, in list order. */
  lemma {:induction false} AddCallsInOrder(ids: seq<JsValue>, bundle: bool)
    requires forall id | id in ids :: Truthy(id)
    ensures |AddCalls(ids, bundle)| == |ids|
    ensures forall k | 0 <= k < |ids| :: AddCalls(ids, bundle)[k] == AddCall(bundle, ids[k])
  {
    if ids != [] {
      assert ids[0] in ids;
      assert forall id | id in ids[1..] :: id in ids;
      AddCallsInOrder(ids[1..], bundle);
      AddCallsFirst(ids, bundle);
    }
  }

  /** Every add call of a run: the products first, then the bundles. */
  function Adds(req: GiftRequest): seq<Effect> {
    AddCalls(req.subids, false) + AddCalls(req.bundles, true)
  }

  /** One add loop (lines 160-164 or 165-169), from the cart `cart` and the
      trace `trace`: each truthy id is added in turn, the reply overwrites the
      cart, and a rejected add ends the loop. */
  function AddAll(respond: Responder, cart: JsValue, trace: seq<Effect>, ids: seq<JsValue>, bundle: bool): CartState
    decreases |ids|
  {
    if ids == [] then Building(cart, trace)
    else if !Truthy(ids[0]) then AddAll(respond, cart, trace, ids[1..], bundle)
    else
      var call := AddCall(bundle, ids[0]);
      match respond(trace, call)
      case Rejected(r) => Aborted(r, trace + [call])
      case Resolved(v) => AddAll(respond, v, trace + [call], ids[1..], bundle)
  }

  /** An add loop only appends to the trace. */
  lemma {:induction false} AddAllPrefix(respond: Responder, cart: JsValue, trace: seq<Effect>, ids: seq<JsValue>, bundle: bool)
    ensures var s := AddAll(respond, cart, trace, ids, bundle);
      && |trace| <= |s.trace| && s.trace[..|trace|] == trace
    decreases |ids|
  {
    if ids != [] {
      if !Truthy(ids[0]) {
        AddAllPrefix(respond, cart, trace, ids[1..], bundle);
      } else {
        var call := AddCall(bundle, ids[0]);
        match respond(trace, call)
        case Rejected(r) =>
        case Resolved(v) =>
          var t1 := trace + [call];
          AddAllPrefix(respond, v, t1, ids[1..], bundle);
          var s := AddAll(respond, v, t1, ids[1..], bundle);
          assert s.trace[..|trace|] == s.trace[..|t1|][..|trace|];
      }
    }
  }

  /** An add loop that is not rejected makes exactly its add calls. */
  lemma {:induction false} AddAllBuilt(respond: Responder, cart: JsValue, trace: seq<Effect>, ids: seq<JsValue>, bundle: bool)
    ensures var s := AddAll(respond, cart, trace, ids, bundle);
      s.Building? ==> s.trace == trace + AddCalls(ids, bundle)
    decreases |ids|
  {
    if ids != [] {
      if !Truthy(ids[0]) {
        AddAllBuilt(respond, cart, trace, ids[1..], bundle);
      } else {
        var call := AddCall(bundle, ids[0]);
        match respond(trace, call)
        case Rejected(r) =>
        case Resolved(v) =>
          AddAllBuilt(respond, v, trace + [call], ids[1..], bundle);
      }
    }
  }

  /** After an add loop that is not rejected, the cart is the value the last
      add call resolved with, or the cart it started from if it made no call. */
  lemma {:induction false} AddAllCart(respond: Responder, cart: JsValue, trace: seq<Effect>, ids: seq<JsValue>, bundle: bool)
    ensures var s := AddAll(respond, cart, trace, ids, bundle);
      && (s.Building? && |s.trace| == |trace| ==> s.cart == cart)
      && (s.Building? && |s.trace| != |trace| ==>
            |trace| < |s.trace| && ReplyAt(respond, s.trace, |s.trace| - 1) == Resolved(s.cart))
    decreases |ids|
  {
    if ids != [] {
      if !Truthy(ids[0]) {
        AddAllCart(respond, cart, trace, ids[1..], bundle);
      } else {
        var call := AddCall(bundle, ids[0]);
        match respond(trace, call)
        case Rejected(r) =>
        case Resolved(v) =>
          var t1 := trace + [call];
          AddAllCart(respond, v, t1, ids[1..], bundle);
          AddAllPrefix(respond, v, t1, ids[1..], bundle);
          var s := AddAll(respond, v, t1, ids[1..], bundle);
          if s.Building? && |s.trace| == |t1| {
            assert s.trace == t1;
            assert t1[..|trace|] == trace;
          }
      }
    }
  }

  /** When the loop was aborted, its last call is the rejected add. (That a
      rejected add does abort the loop is `AddAllResolved`.) */
  lemma {:induction false} AddAllRejected(respond: Responder, cart: JsValue, trace: seq<Effect>, ids: seq<JsValue>, bundle: bool)
    ensures var s := AddAll(respond, cart, trace, ids, bundle);
      s.Aborted? ==> |trace| < |s.trace| && ReplyAt(respond, s.trace, |s.trace| - 1) == Rejected(s.reason)
    decreases |ids|
  {
    if ids != [] {
      if !Truthy(ids[0]) {
        AddAllRejected(respond, cart, trace, ids[1..], bundle);
      } else {
        var call := AddCall(bundle, ids[0]);
        match respond(trace, call)
        case Rejected(r) =>
          assert (trace + [call])[..|trace|] == trace;
        case Resolved(v) =>
          AddAllRejected(respond, v, trace + [call], ids[1..], bundle);
      }
    }
  }

  /** The calls a rejected add loop makes are a prefix of its add calls. */
  lemma {:induction false} AddAllAborted(respond: Responder, cart: JsValue, trace: seq<Effect>, ids: seq<JsValue>, bundle: bool)
    ensures var s := AddAll(respond, cart, trace, ids, bundle);
      s.Aborted? ==> |trace| <= |s.trace| && s.trace[|trace|..] <= AddCalls(ids, bundle)
    decreases |ids|
  {
    if ids != [] {
      if !Truthy(ids[0]) {
        AddAllAborted(respond, cart, trace, ids[1..], bundle);
      } else {
        var call := AddCall(bundle, ids[0]);
        AddCallsFirst(ids, bundle);
        match respond(trace, call)
        case Rejected(r) =>
          assert (trace + [call])[|trace|..] == [call];
        case Resolved(v) =>
          var t1 := trace + [call];
          AddAllAborted(respond, v, t1, ids[1..], bundle);
          AddAllPrefix(respond, v, t1, ids[1..], bundle);
          var s := AddAll(respond, v, t1, ids[1..], bundle);
          if s.Aborted? {
            var rest := s.trace[|t1|..];
            assert s.trace[|trace|..] == [call] + rest;
            assert [call] + rest == ([call] + AddCalls(ids[1..], bundle))[..|rest| + 1];
          }
      }
    }
  }

  /** Lines 157-169: reset the cart, add the products, then the bundles. */
  function Build(respond: Responder, t0: seq<Effect>, req: GiftRequest): CartState {
    var products := AddAll(respond, Null, t0 + [ForgetCart], req.subids, false);
    if products.Aborted? then products
    else AddAll(respond, products.cart, products.trace, req.bundles, true)
  }

  /** Cart building starts with the reset and, unless an add is rejected,
      makes every product add and then every bundle add. */
  lemma BuildCalls(respond: Responder, t0: seq<Effect>, req: GiftRequest)
    ensures var s := Build(respond, t0, req);
      && t0 + [ForgetCart] <= s.trace
      && (s.Building? ==> s.trace == t0 + [ForgetCart] + Adds(req))
  {
    var start := t0 + [ForgetCart];
    var products := AddAll(respond, Null, start, req.subids, false);
    AddAllPrefix(respond, Null, start, req.subids, false);
    AddAllBuilt(respond, Null, start, req.subids, false);
    if products.Building? {
      var s := AddAll(respond, products.cart, products.trace, req.bundles, true);
      AddAllPrefix(respond, products.cart, products.trace, req.bundles, true);
      AddAllBuilt(respond, products.cart, products.trace, req.bundles, true);
      assert s.trace[..|start|] == s.trace[..|products.trace|][..|start|];
    }
  }

  /** The cart that cart building ends with is the value of the last add
      call; it stays null if no id was truthy. */
  lemma BuildCart(respond: Responder, t0: seq<Effect>, req: GiftRequest)
    ensures var s := Build(respond, t0, req);
      && (s.Building? && Adds(req) == [] ==> s.cart == Null)
      && (s.Building? && Adds(req) != [] ==>
            |s.trace| > 0 && ReplyAt(respond, s.trace, |s.trace| - 1) == Resolved(s.cart))
  {
    var start := t0 + [ForgetCart];
    var products := AddAll(respond, Null, start, req.subids, false);
    AddAllCart(respond, Null, start, req.subids, false);
    AddAllBuilt(respond, Null, start, req.subids, false);
    if products.Building? {
      var s := AddAll(respond, products.cart, products.trace, req.bundles, true);
      AddAllCart(respond, products.cart, products.trace, req.bundles, true);
      AddAllBuilt(respond, products.cart, products.trace, req.bundles, true);
      if s.Building? && AddCalls(req.bundles, true) == [] {
        assert s.trace == products.trace;
      }
    }
  }

  /** When some bundle id is truthy, the last call of cart building is a
      bundle add: bundles override products. */
  lemma BuildEndsWithBundle(respond: Responder, t0: seq<Effect>, req: GiftRequest)
    ensures var s := Build(respond, t0, req);
      s.Building? && AddCalls(req.bundles, true) != [] ==>
        |s.trace| > 0 && s.trace[|s.trace| - 1].AddBundleToCart?
  {
    var s := Build(respond, t0, req);
    var bundleAdds := AddCalls(req.bundles, true);
    if s.Building? && bundleAdds != [] {
      BuildCalls(respond, t0, req);
      AddCallsAreTruthyIds(req.bundles, true);
      assert s.trace[|s.trace| - 1] == bundleAdds[|bundleAdds| - 1];
      assert bundleAdds[|bundleAdds| - 1] in bundleAdds;
    }
  }

  /** When cart building was aborted, the calls after the reset are a prefix
      of the adds, and the last of them is the rejected add. (That a rejected
      add does abort building is `BuildResolved`.) */
  lemma BuildAborted(respond: Responder, t0: seq<Effect>, req: GiftRequest)
    ensures var s := Build(respond, t0, req);
      s.Aborted? ==>
        && |t0| + 1 < |s.trace|
        && s.trace[|t0| + 1..] <= Adds(req)
        && ReplyAt(respond, s.trace, |s.trace| - 1) == Rejected(s.reason)
  {
    var start := t0 + [ForgetCart];
    var products := AddAll(respond, Null, start, req.subids, false);
    AddAllAborted(respond, Null, start, req.subids, false);
    AddAllRejected(respond, Null, start, req.subids, false);
    if products.Aborted? {
      assert products.trace[|t0| + 1..] == products.trace[|start|..];
    } else {
      AddAllBuilt(respond, Null, start, req.subids, false);
      var s := AddAll(respond, products.cart, products.trace, req.bundles, true);
      AddAllAborted(respond, products.cart, products.trace, req.bundles, true);
      AddAllRejected(respond, products.cart, products.trace, req.bundles, true);
      if s.Aborted? {
        AddAllPrefix(respond, products.cart, products.trace, req.bundles, true);
        var productAdds := AddCalls(req.subids, false);
        var rest := s.trace[|products.trace|..];
        assert s.trace == products.trace + rest;
        assert s.trace[|t0| + 1..] == productAdds + rest;
        assert productAdds + rest == Adds(req)[..|productAdds| + |rest|];
      }
    }
  }

  /** The call a rejection ends cart building with is an awaited add call,
      made after the reset. */
  lemma BuildRejectedAdd(respond: Responder, t0: seq<Effect>, req: GiftRequest)
    requires Build(respond, t0, req).Aborted?
    ensures var s := Build(respond, t0, req);
      && |t0| + 1 < |s.trace|
      && s.trace[..|t0| + 1] == t0 + [ForgetCart]
      && Awaited(s.trace[|s.trace| - 1])
      && ReplyAt(respond, s.trace, |s.trace| - 1) == Rejected(s.reason)
  {
    var s := Build(respond, t0, req);
    BuildCalls(respond, t0, req);
    BuildAborted(respond, t0, req);
    AddCallsAreTruthyIds(req.subids, false);
    AddCallsAreTruthyIds(req.bundles, true);
    var added := s.trace[|t0| + 1..];
    assert added[|added| - 1] == s.trace[|s.trace| - 1];
    assert added[|added| - 1] in Adds(req);
  }

  /** Lines 174-196: checkout, initiate, finalize, wait, poll and judge. */
  function Transact(respond: Responder, trace: seq<Effect>, cart: JsValue, req: GiftRequest): Outcome {
    var checkout := CheckoutGiftCart(cart, req.steamid);
    var t1 := trace + [checkout];
    match respond(trace, checkout)
    case Rejected(r) => Outcome(Threw(Raised(r)), t1)
    case Resolved(_) =>
      // `country` is not passed, so the delegation forwards undefined
      var init := InitTransaction(cart, req.steamid, req.giftMessage, req.gifteeName,
                                  req.signature, req.sentiment, Undefined);
      var t2 := t1 + [init];
      match respond(t1, init)
      case Rejected(r) => Outcome(Threw(Raised(r)), t2)
      case Resolved(transId) =>
        var finalize := FinalizeTransaction(transId);
        var t3 := t2 + [finalize];
        match respond(t2, finalize)
        case Rejected(r) => Outcome(Threw(Raised(r)), t3)
        case Resolved(_) =>
          var t4 := t3 + [Delay(SettleDelayMs)];
          var poll := GetTransactionStatus(transId);
          var t5 := t4 + [poll];
          match respond(t4, poll)
          case Rejected(r) => Outcome(Threw(Raised(r)), t5)
          case Resolved(status) =>
            match CheckStatus(status)
            case Accepted => Outcome(Returned(true), t5)
            case NotAccepted => Outcome(Threw(GiftError), t5 + [ForgetCart, Delay(GiftErrorDelayMs)])
            case CheckThrows => Outcome(Threw(StatusTypeError), t5)
  }

  /** The `try` block, lines 158-196. */
  function TryBlock(respond: Responder, t0: seq<Effect>, req: GiftRequest): Outcome {
    var built := Build(respond, t0, req);
    if built.Aborted? then Outcome(Threw(Raised(built.reason)), built.trace)
    else if !Truthy(built.cart) then Outcome(Threw(CartError), built.trace)
    else Transact(respond, built.trace, built.cart, req)
  }

  /** `sendGift`: the `try` block, and on any throw the `catch` block of
      lines 197-199, which forgets the cart and rethrows the same error. */
  function SendGift(respond: Responder, t0: seq<Effect>, req: GiftRequest): Outcome {
    var body := TryBlock(respond, t0, req);
    if body.completion.Threw? then Outcome(body.completion, body.trace + [ForgetCart]) else body
  }

  /** The calls of a run that gets as far as the status poll: the reset, the
      adds, checkout, initiate (without a country), finalize, the settling
      delay and the poll. */
  function PolledTrace(t0: seq<Effect>, req: GiftRequest, cart: JsValue, transId: JsValue): seq<Effect> {
    t0 + [ForgetCart] + Adds(req)
    + [CheckoutGiftCart(cart, req.steamid)]
    + [InitTransaction(cart, req.steamid, req.giftMessage, req.gifteeName, req.signature, req.sentiment, Undefined)]
    + [FinalizeTransaction(transId)]
    + [Delay(SettleDelayMs)]
    + [GetTransactionStatus(transId)]
  }

  /** After the reset that opens it, a polled run never resets the cart. */
  lemma PolledTraceResetOnce(t0: seq<Effect>, req: GiftRequest, cart: JsValue, transId: JsValue)
    ensures PolledTrace(t0, req, cart, transId)[..|t0| + 1] == t0 + [ForgetCart]
    ensures ForgetCart !in PolledTrace(t0, req, cart, transId)[|t0| + 1..]
  {
    AddCallsAreTruthyIds(req.subids, false);
    AddCallsAreTruthyIds(req.bundles, true);
    var p := PolledTrace(t0, req, cart, transId);
    var tail := [CheckoutGiftCart(cart, req.steamid),
                 InitTransaction(cart, req.steamid, req.giftMessage, req.gifteeName, req.signature, req.sentiment, Undefined),
                 FinalizeTransaction(transId),
                 Delay(SettleDelayMs),
                 GetTransactionStatus(transId)];
    assert p == t0 + [ForgetCart] + (Adds(req) + tail);
    assert p[|t0| + 1..] == Adds(req) + tail;
  }

  /** The store's replies take a run as far as the status poll: cart
      building ends with the truthy cart `cart`, checkout and finalize
      resolve, initiate resolves with `transId`, and the poll with `status`. */
  ghost predicate ReachesPoll(respond: Responder, t0: seq<Effect>, req: GiftRequest,
                              cart: JsValue, transId: JsValue, status: JsValue)
  {
    var before := t0 + [ForgetCart] + Adds(req);
    var checkout := CheckoutGiftCart(cart, req.steamid);
    var init := InitTransaction(cart, req.steamid, req.giftMessage, req.gifteeName,
                                req.signature, req.sentiment, Undefined);
    var finalize := FinalizeTransaction(transId);
    && Build(respond, t0, req) == Building(cart, before)
    && Truthy(cart)
    && respond(before, checkout).Resolved?
    && respond(before + [checkout], init) == Resolved(transId)
    && respond(before + [checkout] + [init], finalize).Resolved?
    && respond(before + [checkout] + [init] + [finalize] + [Delay(SettleDelayMs)],
               GetTransactionStatus(transId)) == Resolved(status)
  }

  /** A run that reaches the status poll throws a TypeError, which the catch
      rethrows, when the status is null, undefined or shadows
      `hasOwnProperty`. Any other status makes the run return true exactly
      when its own `success` is 1 or 22; otherwise the run forgets the cart,
      waits 500 ms and throws 'Gift Error', and the catch forgets the cart
      again. */
  lemma PolledRun(respond: Responder, t0: seq<Effect>, req: GiftRequest,
                  cart: JsValue, transId: JsValue, status: JsValue)
    requires ReachesPoll(respond, t0, req, cart, transId, status)
    ensures var p := PolledTrace(t0, req, cart, transId);
      SendGift(respond, t0, req) ==
        match CheckStatus(status)
        case Accepted => Outcome(Returned(true), p)
        case NotAccepted => Outcome(Threw(GiftError), p + [ForgetCart, Delay(GiftErrorDelayMs), ForgetCart])
        case CheckThrows => Outcome(Threw(StatusTypeError), p + [ForgetCart])
  {
  }

  /** Every completion except a rejection and 'Cart Error' comes from the
      status poll. */
  predicate FromPoll(c: Completion) {
    c.Returned? || c == Threw(GiftError) || c == Threw(StatusTypeError)
  }

  /** A run that settles by the status poll reached it: cart building ended
      with a truthy cart, and checkout, initiate, finalize and the poll all
      resolved. */
  lemma PollReached(respond: Responder, t0: seq<Effect>, req: GiftRequest)
    requires FromPoll(SendGift(respond, t0, req).completion)
    ensures exists cart, transId, status :: ReachesPoll(respond, t0, req, cart, transId, status)
  {
    var b := Build(respond, t0, req);
    BuildCalls(respond, t0, req);
    assert b.Building? && Truthy(b.cart);
    var t1 := b.trace + [CheckoutGiftCart(b.cart, req.steamid)];
    var init := InitTransaction(b.cart, req.steamid, req.giftMessage, req.gifteeName,
                                req.signature, req.sentiment, Undefined);
    var transId := respond(t1, init).value;
    var t4 := t1 + [init] + [FinalizeTransaction(transId)] + [Delay(SettleDelayMs)];
    var status := respond(t4, GetTransactionStatus(transId)).value;
    assert ReachesPoll(respond, t0, req, b.cart, transId, status);
  }

  /** Cart building that ends with a falsy cart throws 'Cart Error' before any
      checkout: the run is the reset, the adds, and the catch's reset. */
  lemma CartErrorPath(respond: Responder, t0: seq<Effect>, req: GiftRequest)
    ensures var b := Build(respond, t0, req);
      b.Building? && !Truthy(b.cart) ==>
        SendGift(respond, t0, req) == Outcome(Threw(CartError), t0 + [ForgetCart] + Adds(req) + [ForgetCart])
    ensures var b := Build(respond, t0, req);
      SendGift(respond, t0, req).completion == Threw(CartError) ==> b.Building? && !Truthy(b.cart)
  {
    BuildCalls(respond, t0, req);
  }

  /** With no truthy product or bundle id, no add is made, the cart stays
      null and the run throws 'Cart Error' after resetting the cart twice. */
  lemma EmptyCart(respond: Responder, t0: seq<Effect>, req: GiftRequest)
    requires forall id | id in req.subids :: !Truthy(id)
    requires forall id | id in req.bundles :: !Truthy(id)
    ensures SendGift(respond, t0, req) == Outcome(Threw(CartError), t0 + [ForgetCart, ForgetCart])
  {
    AddCallsAreTruthyIds(req.subids, false);
    AddCallsAreTruthyIds(req.bundles, true);
    assert Adds(req) == [];
    BuildAborted(respond, t0, req);
    BuildCart(respond, t0, req);
    CartErrorPath(respond, t0, req);
    assert t0 + [ForgetCart] + Adds(req) + [ForgetCart] == t0 + [ForgetCart, ForgetCart];
  }

  /** A run that returns, returns true, after exactly the reset, the adds,
      checkout, initiate, finalize, the settling delay and the poll. Checkout,
      initiate, finalize and the poll resolved, the status carried code 1 or
      22, and the cart is not forgotten again. (That every add resolved too
      is `RunResolved`.) */
  lemma SuccessPath(respond: Responder, t0: seq<Effect>, req: GiftRequest)
    requires SendGift(respond, t0, req).completion.Returned?
    ensures exists cart, transId, status ::
      && ReachesPoll(respond, t0, req, cart, transId, status)
      && CheckStatus(status) == Accepted
      && SendGift(respond, t0, req) == Outcome(Returned(true), PolledTrace(t0, req, cart, transId))
    ensures ForgetCart !in SendGift(respond, t0, req).trace[|t0| + 1..]
  {
    PollReached(respond, t0, req);
    var cart, transId, status :| ReachesPoll(respond, t0, req, cart, transId, status);
    PolledRun(respond, t0, req, cart, transId, status);
    PolledTraceResetOnce(t0, req, cart, transId);
  }

  /** A run that throws 'Gift Error' polled a status without success code 1
      or 22, and ends with the reset, the 500 ms wait and the catch's reset. */
  lemma GiftErrorPath(respond: Responder, t0: seq<Effect>, req: GiftRequest)
    requires SendGift(respond, t0, req).completion == Threw(GiftError)
    ensures exists cart, transId, status ::
      && ReachesPoll(respond, t0, req, cart, transId, status)
      && CheckStatus(status) == NotAccepted
      && SendGift(respond, t0, req).trace ==
           PolledTrace(t0, req, cart, transId) + [ForgetCart, Delay(GiftErrorDelayMs), ForgetCart]
  {
    PollReached(respond, t0, req);
    var cart, transId, status :| ReachesPoll(respond, t0, req, cart, transId, status);
    PolledRun(respond, t0, req, cart, transId, status);
  }

  /** A run whose status poll resolves with null, undefined or an object
      shadowing `hasOwnProperty` throws a TypeError, and the catch resets the
      cart. */
  lemma StatusTypeErrorPath(respond: Responder, t0: seq<Effect>, req: GiftRequest)
    requires SendGift(respond, t0, req).completion == Threw(StatusTypeError)
    ensures exists cart, transId, status ::
      && ReachesPoll(respond, t0, req, cart, transId, status)
      && StatusThrows(status)
      && SendGift(respond, t0, req).trace == PolledTrace(t0, req, cart, transId) + [ForgetCart]
  {
    PollReached(respond, t0, req);
    var cart, transId, status :| ReachesPoll(respond, t0, req, cart, transId, status);
    PolledRun(respond, t0, req, cart, transId, status);
  }

  /** Every awaited call at a position from `from` up to, not including,
      `upto` of `trace` was answered with a resolved promise. */
  ghost predicate ResolvedFrom(respond: Responder, trace: seq<Effect>, from: nat, upto: int)
    requires upto <= |trace|
  {
    forall k | from <= k < upto && Awaited(trace[k]) :: ReplyAt(respond, trace, k).Resolved?
  }

  /** Appending a call changes none of the earlier replies; the new call
      keeps every awaited call resolved when it is resolved or not awaited. */
  lemma ResolvedExtend(respond: Responder, t: seq<Effect>, from: nat, upto: int, e: Effect)
    requires upto <= |t| && ResolvedFrom(respond, t, from, upto)
    ensures ResolvedFrom(respond, t + [e], from, upto)
    ensures upto == |t| && (Awaited(e) ==> respond(t, e).Resolved?) ==>
      ResolvedFrom(respond, t + [e], from, |t| + 1)
  {
    forall k | 0 <= k < |t|
      ensures ReplyAt(respond, t + [e], k) == ReplyAt(respond, t, k)
    {
      assert (t + [e])[..k] == t[..k];
    }
    assert (t + [e])[..|t|] == t;
  }

  /** An add loop makes no call after a rejected one: every add it makes
      resolved, except the last one when the loop was aborted. */
  lemma {:induction false} AddAllResolved(respond: Responder, cart: JsValue, trace: seq<Effect>,
                                          ids: seq<JsValue>, bundle: bool, from: nat)
    requires ResolvedFrom(respond, trace, from, |trace|)
    ensures var s := AddAll(respond, cart, trace, ids, bundle);
      ResolvedFrom(respond, s.trace, from, if s.Aborted? then |s.trace| - 1 else |s.trace|)
    decreases |ids|
  {
    if ids != [] {
      if !Truthy(ids[0]) {
        AddAllResolved(respond, cart, trace, ids[1..], bundle, from);
      } else {
        var call := AddCall(bundle, ids[0]);
        ResolvedExtend(respond, trace, from, |trace|, call);
        match respond(trace, call)
        case Rejected(_) =>
        case Resolved(v) =>
          AddAllResolved(respond, v, trace + [call], ids[1..], bundle, from);
      }
    }
  }

  /** Cart building makes no call after a rejected add: every awaited call
      after the reset resolved, except the last one when building aborted. */
  lemma BuildResolved(respond: Responder, t0: seq<Effect>, req: GiftRequest)
    ensures var s := Build(respond, t0, req);
      ResolvedFrom(respond, s.trace, |t0|, if s.Aborted? then |s.trace| - 1 else |s.trace|)
  {
    var start := t0 + [ForgetCart];
    ResolvedExtend(respond, t0, |t0|, |t0|, ForgetCart);
    var products := AddAll(respond, Null, start, req.subids, false);
    AddAllResolved(respond, Null, start, req.subids, false, |t0|);
    if products.Building? {
      AddAllResolved(respond, products.cart, products.trace, req.bundles, true, |t0|);
    }
  }

  /** The completion of a rejection, rethrown as it is. */
  predicate Rethrown(c: Completion) {
    c.Threw? && c.error.Raised?
  }

  /** The transaction steps make no call after a rejected one: every awaited
      call resolved, except the last one when a rejection is rethrown. */
  lemma TransactResolved(respond: Responder, trace: seq<Effect>, cart: JsValue, req: GiftRequest, from: nat)
    requires ResolvedFrom(respond, trace, from, |trace|)
    ensures var o := Transact(respond, trace, cart, req);
      ResolvedFrom(respond, o.trace, from, if Rethrown(o.completion) then |o.trace| - 1 else |o.trace|)
  {
    var checkout := CheckoutGiftCart(cart, req.steamid);
    var t1 := trace + [checkout];
    ResolvedExtend(respond, trace, from, |trace|, checkout);
    match respond(trace, checkout)
    case Rejected(_) =>
    case Resolved(_) =>
      var init := InitTransaction(cart, req.steamid, req.giftMessage, req.gifteeName,
                                  req.signature, req.sentiment, Undefined);
      var t2 := t1 + [init];
      ResolvedExtend(respond, t1, from, |t1|, init);
      match respond(t1, init)
      case Rejected(_) =>
      case Resolved(transId) =>
        var finalize := FinalizeTransaction(transId);
        var t3 := t2 + [finalize];
        ResolvedExtend(respond, t2, from, |t2|, finalize);
        match respond(t2, finalize)
        case Rejected(_) =>
        case Resolved(_) =>
          var t4 := t3 + [Delay(SettleDelayMs)];
          ResolvedExtend(respond, t3, from, |t3|, Delay(SettleDelayMs));
          var poll := GetTransactionStatus(transId);
          var t5 := t4 + [poll];
          ResolvedExtend(respond, t4, from, |t4|, poll);
          match respond(t4, poll)
          case Rejected(_) =>
          case Resolved(_) =>
            ResolvedExtend(respond, t5, from, |t5|, ForgetCart);
            ResolvedExtend(respond, t5 + [ForgetCart], from, |t5| + 1, Delay(GiftErrorDelayMs));
            assert t5 + [ForgetCart] + [Delay(GiftErrorDelayMs)] == t5 + [ForgetCart, Delay(GiftErrorDelayMs)];
  }

  /** A whole run makes no awaited call after a rejected one: every awaited
      call resolved, except the one before the catch's reset when a rejection
      is rethrown. */
  lemma RunResolved(respond: Responder, t0: seq<Effect>, req: GiftRequest)
    ensures var o := SendGift(respond, t0, req);
      ResolvedFrom(respond, o.trace, |t0|, if Rethrown(o.completion) then |o.trace| - 2 else |o.trace|)
  {
    var b := Build(respond, t0, req);
    BuildResolved(respond, t0, req);
    if b.Building? && Truthy(b.cart) {
      TransactResolved(respond, b.trace, b.cart, req, |t0|);
    }
    var body := TryBlock(respond, t0, req);
    if body.completion.Threw? {
      ResolvedExtend(respond, body.trace, |t0|,
                     if Rethrown(body.completion) then |body.trace| - 1 else |body.trace|, ForgetCart);
    }
  }

  /** If any awaited store call of a run is rejected, the run ends there: that
      call is the last before the catch's reset, and its reason is what the
      run rethrows. */
  lemma RejectedCallEndsRun(respond: Responder, t0: seq<Effect>, req: GiftRequest, k: nat, e: JsValue)
    requires |t0| <= k < |SendGift(respond, t0, req).trace|
    requires Awaited(SendGift(respond, t0, req).trace[k])
    requires ReplyAt(respond, SendGift(respond, t0, req).trace, k) == Rejected(e)
    ensures var o := SendGift(respond, t0, req);
      && o.completion == Threw(Raised(e))
      && k == |o.trace| - 2
      && o.trace[|o.trace| - 1] == ForgetCart
  {
    RunResolved(respond, t0, req);
    assert Rethrown(SendGift(respond, t0, req).completion);
    RejectionPath(respond, t0, req);
  }

  /** When the transaction steps rethrow a rejection, the rejected call is
      their last, and they only appended to the calls before them. (That a
      rejected step does end them is `TransactResolved`.) */
  lemma TransactRejection(respond: Responder, trace: seq<Effect>, cart: JsValue, req: GiftRequest)
    requires Transact(respond, trace, cart, req).completion.Threw?
    requires Transact(respond, trace, cart, req).completion.error.Raised?
    ensures var o := Transact(respond, trace, cart, req);
      && |trace| < |o.trace|
      && o.trace[..|trace|] == trace
      && Awaited(o.trace[|o.trace| - 1])
      && ReplyAt(respond, o.trace, |o.trace| - 1) == Rejected(o.completion.error.reason)
  {
  }

  /** When the `try` block rethrows a rejection, the rejected call is its
      last. (That a rejected call does end it is `RunResolved`.) */
  lemma TryRejection(respond: Responder, t0: seq<Effect>, req: GiftRequest)
    requires TryBlock(respond, t0, req).completion.Threw?
    requires TryBlock(respond, t0, req).completion.error.Raised?
    ensures var o := TryBlock(respond, t0, req);
      && |t0| + 1 < |o.trace|
      && o.trace[..|t0| + 1] == t0 + [ForgetCart]
      && Awaited(o.trace[|o.trace| - 1])
      && ReplyAt(respond, o.trace, |o.trace| - 1) == Rejected(o.completion.error.reason)
  {
    var b := Build(respond, t0, req);
    if b.Aborted? {
      BuildRejectedAdd(respond, t0, req);
    } else {
      BuildCalls(respond, t0, req);
      TransactRejection(respond, b.trace, b.cart, req);
      var o := TryBlock(respond, t0, req);
      assert o.trace[..|t0| + 1] == o.trace[..|b.trace|][..|t0| + 1];
    }
  }

  /** When a run rethrows a rejection, the rejected call is the last before
      the catch's reset, and its reason is rethrown as it is. The run began
      with the reset. (That any rejected call does end the run is
      `RejectedCallEndsRun`.) */
  lemma RejectionPath(respond: Responder, t0: seq<Effect>, req: GiftRequest)
    requires SendGift(respond, t0, req).completion.Threw?
    requires SendGift(respond, t0, req).completion.error.Raised?
    ensures var o := SendGift(respond, t0, req);
      var n := |o.trace|;
      && |t0| + 3 <= n
      && o.trace[..|t0| + 1] == t0 + [ForgetCart]
      && o.trace[n - 1] == ForgetCart
      && Awaited(o.trace[n - 2])
      && ReplyAt(respond, o.trace, n - 2) == Rejected(o.completion.error.reason)
  {
    var body := TryBlock(respond, t0, req);
    TryRejection(respond, t0, req);
    var o := SendGift(respond, t0, req);
    var n := |o.trace|;
    assert o.trace[..n - 2] == body.trace[..n - 2];
    assert o.trace[..|t0| + 1] == body.trace[..|t0| + 1];
  }

  /** A store that builds the cart "cart", opens transaction "t1" and reports
      success code 1. */
  function HappyStore(): Responder {
    (history: seq<Effect>, e: Effect) =>
      match e
      case AddToCart(_) => Resolved(Str("cart"))
      case InitTransaction(_, _, _, _, _, _, _) => Resolved(Str("t1"))
      case GetTransactionStatus(_) => Resolved(Obj(map["success" := Num(1.0)]))
      case _ => Resolved(Undefined)
  }

  /** Gifting product 100 through that store returns true after exactly one
      reset, one add, checkout, initiate, finalize, the 2000 ms wait and one
      poll. */
  lemma SingleProductScenario(steamid: JsValue, msg: JsValue, name: JsValue, sig: JsValue, sentiment: JsValue)
    ensures SendGift(HappyStore(), [], GiftRequest([Num(100.0)], [], steamid, msg, name, sig, sentiment))
         == Outcome(Returned(true),
                    [ ForgetCart,
                      AddToCart(Num(100.0)),
                      CheckoutGiftCart(Str("cart"), steamid),
                      InitTransaction(Str("cart"), steamid, msg, name, sig, sentiment, Undefined),
                      FinalizeTransaction(Str("t1")),
                      Delay(2000),
                      GetTransactionStatus(Str("t1")) ])
  {
  }
}
