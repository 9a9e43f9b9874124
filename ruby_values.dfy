/** The small part of Ruby's value model the gateway adapter relies on:
    nil, booleans, strings and hashes, hash lookup that yields nil for a
    missing key, and Ruby truthiness (only nil and false are falsy).
    Hash keys are written as strings; Ruby symbols and strings are not
    told apart here. */
module RubyValues {

  datatype Option<+T> = None | Some(value: T)

  /** A dynamically typed Ruby value as it appears in the adapter's hashes. */
  datatype Value = Nil | Bool(b: bool) | Str(s: string) | Hash(entries: map<string, Value>)

  /** `h[k]` on a Ruby Hash without a default: nil when the key is absent. */
  function Get(h: map<string, Value>, k: string): (v: Value)
    ensures k !in h ==> v == Nil
    ensures k in h ==> v == h[k]
  {
    if k in h then h[k] else Nil
  }

  /** Ruby truthiness: everything except nil and false. */
  predicate Truthy(v: Value) {
    !(v.Nil? || v == Bool(false))
  }

  /** A Ruby nil-or-string, as the vendor library returns optional strings. */
  function NilOr(s: Option<string>): (v: Value)
    ensures s.None? <==> v == Nil
    ensures s.Some? ==> v == Str(s.value)
  {
    match s
    case None => Nil
    case Some(x) => Str(x)
  }
}
