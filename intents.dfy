/**
 * The intent returned by the language-model extraction step: a JSON object whose
 * four keys may each be missing, null, or carry a value.
 */
module Intents {
  import opened Wrappers

  /** Three-way presence of a key in a JSON object. */
  datatype Field<T> = Absent | Null | Given(value: T)

  /**
   * The decoded intent object. `hasOtherKeys` records whether the object holds keys
   * besides the four the app reads; it only matters for the object's truthiness.
   */
  datatype Intent = Intent(
    action: Field<string>,
    service: Field<string>,
    namespace: Field<string>,
    replicas: Field<int>,
    hasOtherKeys: bool)

  /** `intent.get(key)`: None both when the key is missing and when it holds null. */
  function Get<T>(f: Field<T>): (r: Option<T>)
    ensures r.Some? <==> f.Given?
    ensures f.Given? ==> r == Some(f.value)
  {
    if f.Given? then Some(f.value) else None
  }

  /** `intent.get(key, fallback)`: the fallback is used only when the key is missing. */
  function GetOr<T>(f: Field<T>, fallback: T): Option<T> {
    match f
    case Absent => Some(fallback)
    case Null => None
    case Given(v) => Some(v)
  }

  /** `not intent` for a dict: it has no keys at all. */
  predicate IsEmpty(i: Intent) {
    i.action.Absent? && i.service.Absent? && i.namespace.Absent? && i.replicas.Absent? && !i.hasOtherKeys
  }

  /**
   * The namespace the app passes on: "default" when the key is missing, None when it
   * is null, the given value otherwise. It differs from `Get` exactly when the key is missing.
   */
  lemma NamespaceFallback(f: Field<string>)
    ensures GetOr(f, "default").None? <==> f.Null?
    ensures GetOr(f, "default") == Some("default") <==> (f.Absent? || f == Given("default"))
    ensures GetOr(f, "default") != Get(f) <==> f.Absent?
    ensures f.Given? ==> GetOr(f, "default") == Some(f.value)
  {
  }
}
