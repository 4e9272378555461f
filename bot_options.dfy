/** The bot's options and the defaults its constructor fills in
    (steambot/index.js, lines 10-28). */
module BotOptions {
  import opened JsValues

  /** The keys of `defaultOptions`, in the order `for ... in` visits them. */
  const DefaultKeys: seq<string> := ["domain", "loginTimeout", "loginCheckInterval", "lang"]

  /** `defaultOptions`: the domain, a one-minute login timeout, a ten-minute
      login check interval (both in milliseconds) and the language. */
  const DefaultOptions: map<string, JsValue> := map[
    "domain" := Str("example.com"),
    "loginTimeout" := Num(60000.0),
    "loginCheckInterval" := Num(600000.0),
    "lang" := Str("en")
  ]

  /** `typeof options[key] === 'undefined'`: the key is absent or holds
      undefined. A key holding null is not missing. */
  predicate Missing(options: map<string, JsValue>, key: string) {
    key !in options || options[key] == Undefined
  }

  /** The options after the constructor's default-filling loop. */
  function WithDefaults(options: map<string, JsValue>): (r: map<string, JsValue>)
    ensures r.Keys == options.Keys + DefaultOptions.Keys
    ensures forall k | k in DefaultOptions :: !Missing(r, k)
    ensures forall k | k in DefaultOptions && Missing(options, k) :: r[k] == DefaultOptions[k]
    ensures forall k | k in options && !Missing(options, k) :: r[k] == options[k]
    ensures forall k | k in options && k !in DefaultOptions :: r[k] == options[k]
  {
    map k | k in options.Keys + DefaultOptions.Keys ::
      if k in DefaultOptions && Missing(options, k) then DefaultOptions[k] else options[k]
  }

  /** Filling the defaults a second time changes nothing. */
  lemma WithDefaultsIdempotent(options: map<string, JsValue>)
    ensures WithDefaults(WithDefaults(options)) == WithDefaults(options)
  {
  }

  /** Lines 20-28: fills every missing default into `options`, in place and
      in key order. Every other key, and every key the caller set to a value
      other than undefined, is left as it was. */
  method FillDefaults(options: JsObject)
    modifies options
    ensures options.props == WithDefaults(old(options.props))
  {
    ghost var given := options.props;
    ghost var done: set<string> := {};
    var i := 0;
    while i < |DefaultKeys|
      invariant 0 <= i <= |DefaultKeys|
      invariant done <= DefaultOptions.Keys
      invariant forall j | 0 <= j < i :: DefaultKeys[j] in done
      invariant options.props.Keys == given.Keys + done
      invariant forall k | k in options.props ::
        options.props[k] == if k in done && Missing(given, k) then DefaultOptions[k] else given[k]
    {
      var key := DefaultKeys[i];
      if key !in options.props || options.props[key] == Undefined {
        options.props := options.props[key := DefaultOptions[key]];
      }
      done := done + {key};
      i := i + 1;
    }
    assert forall k | k in DefaultOptions :: k in DefaultKeys;
    assert done == DefaultOptions.Keys;
  }
}
