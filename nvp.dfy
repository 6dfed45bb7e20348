/** Name/value records as the NVP protocol carries them, the outcome types of the
    adapter, and the check the adapter makes on a caller's options before it
    builds a request. */
module Nvp {

  /** A flat NVP record, field name to string value: an option array passed in by
      a caller, a request under construction, or a parsed reply. */
  type Fields = map<string, string>

  datatype Option<+T> = None | Some(value: T)

  datatype Result<+T, +E> = Success(value: T) | Failure(error: E)

  /** The adapter's own exception: a required option is absent. It is raised
      before any request is built, so no request ever leaves with it. */
  datatype Error = MissingParameter(names: seq<string>)

  /** An entry that may be absent: PHP's `isset($a[$k]) ? $a[$k] : null`. */
  function Get<K, V>(fields: map<K, V>, key: K): Option<V>
  {
    if key in fields then Some(fields[key]) else None
  }

  /** The names in `required`, in their order, that `options` does not set:
      what `required_options` finds missing before it throws. */
  function Missing(required: seq<string>, options: Fields): (absent: seq<string>)
    ensures forall k :: k in absent <==> k in required && k !in options
    ensures absent == [] <==> forall k :: k in required ==> k in options
    ensures |absent| <= |required|
  {
    if required == [] then []
    else if required[0] in options then Missing(required[1..], options)
    else [required[0]] + Missing(required[1..], options)
  }
}
