/** The commerce store and the timer, as the bot sees them. Every call the
    bot makes is recorded, in order, in one trace; a call the bot awaits gets
    a reply chosen by the store's behaviour from everything called before. */
module Store {
  import opened JsValues

  /** One call on the store (steambot/index.js, lines 89-142) or one
      `Promise.delay`. */
  datatype Effect =
    | ForgetCart
    | AddToCart(subid: JsValue)
    | AddBundleToCart(subid: JsValue)
    | CheckoutGiftCart(cart: JsValue, steamid: JsValue)
    | InitTransaction(cart: JsValue, steamid: JsValue, giftMessage: JsValue, gifteeName: JsValue,
                      signature: JsValue, sentiment: JsValue, country: JsValue)
    | FinalizeTransaction(transId: JsValue)
    | GetTransactionStatus(transId: JsValue)
    | Delay(ms: nat)

  /** The calls whose promise the bot awaits: `forgetCart` is fired and
      forgotten, and a delay always resolves. */
  predicate Awaited(e: Effect) {
    !e.ForgetCart? && !e.Delay?
  }

  /** How an awaited promise settles. */
  datatype Reply = Resolved(value: JsValue) | Rejected(reason: JsValue)

  /** The store's behaviour: the reply to a call, given the calls before it. */
  type Responder = (seq<Effect>, Effect) -> Reply

  /** The reply that call number `k` of `trace` received. */
  function ReplyAt(respond: Responder, trace: seq<Effect>, k: nat): Reply
    requires k < |trace|
  {
    respond(trace[..k], trace[k])
  }

  /** The store a bot talks to, with the trace of its calls so far. */
  class Gateway {
    const respond: Responder
    var trace: seq<Effect>

    constructor (respond: Responder)
      ensures this.respond == respond && trace == []
    {
      this.respond := respond;
      trace := [];
    }

    /** An awaited call: recorded, then answered. */
    method Call(e: Effect) returns (r: Reply)
      requires Awaited(e)
      modifies this
      ensures trace == old(trace) + [e]
      ensures r == respond(old(trace), e)
    {
      r := respond(trace, e);
      trace := trace + [e];
    }

    /** `forgetCart()`, whose promise nobody awaits. */
    method Forget()
      modifies this
      ensures trace == old(trace) + [ForgetCart]
    {
      trace := trace + [ForgetCart];
    }

    /** `await Promise.delay(ms)`. */
    method Sleep(ms: nat)
      modifies this
      ensures trace == old(trace) + [Delay(ms)]
    {
      trace := trace + [Delay(ms)];
    }
  }
}
