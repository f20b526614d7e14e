/** The Flutter method channel as every backend sees it: the values a call carries,
    the call itself, and the three ways a handler can answer. */
module Channel {
  import opened Outcomes

  /** A value of Flutter's standard message codec, reduced to the shapes the handlers test for. */
  datatype Encodable =
    | Null
    | Str(s: string)
    | List(items: seq<Encodable>)
    | Map(entries: map<Encodable, Encodable>)
    | Other  // numbers, booleans, byte buffers: nothing the handlers accept

  /** An incoming call: the method name and its arguments. */
  datatype MethodCall = MethodCall(name: string, arguments: Encodable)

  /** What a handler sends back: `success(value)`, `error(code, message)` or `notImplemented()`. */
  datatype Reply<+T> = Success(value: T) | Error(code: string, message: Option<string>) | NotImplemented

  /** The error code every backend uses for a call whose arguments have the wrong shape. */
  const InvalidArgument: string := "INVALID_ARGUMENT"

  /** The error code every backend uses for a failed extraction. */
  const MetadataError: string := "METADATA_ERROR"

  /** True when every element of the list is a string. */
  predicate AllStrings(items: seq<Encodable>)
  {
    forall i :: 0 <= i < |items| ==> items[i].Str?
  }

  /** The strings of a list of strings, in order. */
  function Strings(items: seq<Encodable>): (r: seq<string>)
    requires AllStrings(items)
    ensures |r| == |items|
    ensures forall i :: 0 <= i < |items| ==> items[i] == Str(r[i])
  {
    if items == [] then [] else [items[0].s] + Strings(items[1..])
  }
}
