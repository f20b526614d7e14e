/** The Android backend: `onMethodCall` reads the arguments with `call.argument`, answers
    INVALID_ARGUMENT for a missing path or an empty list, and otherwise hands each path to the FFmpeg
    bridge, whose JSON text it passes through; a batch is `paths.map`, so one exception fails the
    whole batch. The bridge and the JVM's cast failures are parameters. */
module AndroidPlugin {
  import opened Outcomes
  import opened Channel
  import opened Batch

  /** What the handler depends on: `SmartFfmpegBridge.getVideoMetadataJson`, which returns the
      JSON text or throws an exception with a message (possibly null), and the message of the
      exception the JVM throws when a list element is used as a `String` but is not one. */
  datatype Jvm = Jvm(
    bridge: string -> Result<string, Option<string>>,
    castFailure: Encodable -> Option<string>)

  /** How a call ends: with an answer on the channel, or with an exception thrown out of
      `onMethodCall` itself. */
  datatype Handled = Answered(reply: Reply<Encodable>) | Threw

  /** What `call.argument(key)` gives: the value, `null` (no arguments, no such key, or a null
      value), or a `ClassCastException` when the arguments are neither null nor a map. */
  datatype Argument = Found(value: Encodable) | Absent | Throws

  function ArgumentOf(args: Encodable, key: string): (a: Argument)
    ensures a.Found? ==> a.value != Null
    ensures a == Throws <==> !args.Null? && !args.Map?
  {
    match args
    case Null => Absent
    case Map(entries) =>
      if Str(key) in entries && entries[Str(key)] != Null then Found(entries[Str(key)]) else Absent
    case _ => Throws
  }

  /** One element of `paths.map`: a string goes to the bridge, anything else fails the cast. */
  function Extract(jvm: Jvm): Encodable -> Result<string, Option<string>>
  {
    (item: Encodable) => if item.Str? then jvm.bridge(item.s) else Err(jvm.castFailure(item))
  }

  /** The JSON texts as a list value for `result.success`. */
  function StrList(texts: seq<string>): (r: seq<Encodable>)
    ensures |r| == |texts|
    ensures forall i :: 0 <= i < |texts| ==> r[i] == Str(texts[i])
  {
    seq(|texts|, i requires 0 <= i < |texts| => Str(texts[i]))
  }

  /** `getInfo`. */
  function GetInfo(args: Encodable, jvm: Jvm): Handled
  {
    match ArgumentOf(args, "path")
    case Throws => Threw
    case Absent => Answered(Error(InvalidArgument, Some("Path is required")))
    case Found(Str(path)) =>
      (match jvm.bridge(path)
       case Ok(json) => Answered(Success(Str(json)))
       case Err(message) => Answered(Error(MetadataError, message)))
    case Found(_) => Threw  // the value is cast to String outside the try
  }

  /** `getBatch`. */
  function GetBatch(args: Encodable, jvm: Jvm): Handled
  {
    match ArgumentOf(args, "paths")
    case Throws => Threw
    case Absent => Answered(Error(InvalidArgument, Some("Paths list is required")))
    case Found(List(items)) =>
      if items == [] then Answered(Error(InvalidArgument, Some("Paths list is required")))
      else
        (match FailFast(items, Extract(jvm))
         case Ok(texts) => Answered(Success(List(StrList(texts))))
         case Err(message) => Answered(Error(MetadataError, message)))
    case Found(_) => Threw  // the value is cast to List outside the try
  }

  /** `onMethodCall`: dispatches on the method name. */
  function OnMethodCall(call: MethodCall, jvm: Jvm): (h: Handled)
    ensures call.name != "getInfo" && call.name != "getBatch" ==> h == Answered(NotImplemented)
  {
    if call.name == "getInfo" then GetInfo(call.arguments, jvm)
    else if call.name == "getBatch" then GetBatch(call.arguments, jvm)
    else Answered(NotImplemented)
  }

  /** A missing or null path is rejected before the bridge is called: every JVM gives the same answer. */
  lemma MissingPathRejected(call: MethodCall, jvm1: Jvm, jvm2: Jvm)
    requires call.name == "getInfo" && ArgumentOf(call.arguments, "path") == Absent
    ensures OnMethodCall(call, jvm1) == OnMethodCall(call, jvm2)
              == Answered(Error(InvalidArgument, Some("Path is required")))
  {
  }

  /** A string path goes to the bridge, whose JSON text is passed through on success and whose
      exception message is the METADATA_ERROR message on failure. */
  lemma PathPassedThrough(call: MethodCall, jvm: Jvm, p: string)
    requires call.name == "getInfo" && call.arguments.Map?
    requires Str("path") in call.arguments.entries && call.arguments.entries[Str("path")] == Str(p)
    ensures OnMethodCall(call, jvm) ==
              match jvm.bridge(p)
              case Ok(json) => Answered(Success(Str(json)))
              case Err(message) => Answered(Error(MetadataError, message))
  {
    assert ArgumentOf(call.arguments, "path") == Found(Str(p));
  }

  /** An empty path is not rejected: it goes to the bridge, whose text or message is the answer. */
  lemma EmptyPathProbed(call: MethodCall, jvm: Jvm)
    requires call.name == "getInfo" && call.arguments.Map?
    requires call.arguments.entries == map[Str("path") := Str("")]
    ensures OnMethodCall(call, jvm) ==
              match jvm.bridge("")
              case Ok(json) => Answered(Success(Str(json)))
              case Err(message) => Answered(Error(MetadataError, message))
  {
    PathPassedThrough(call, jvm, "");
  }

  /** A path that is present but not a string fails the cast to `String`, which happens before
      the `try`: the exception leaves `onMethodCall` and the plugin sends no reply of its own. */
  lemma PathNotStringThrows(call: MethodCall, jvm: Jvm)
    requires call.name == "getInfo" && call.arguments.Map? && Str("path") in call.arguments.entries
    requires !call.arguments.entries[Str("path")].Str? && call.arguments.entries[Str("path")] != Null
    ensures OnMethodCall(call, jvm) == Threw
  {
  }

  /** A missing, null or empty list is rejected before the bridge is called. */
  lemma EmptyBatchRejected(call: MethodCall, jvm1: Jvm, jvm2: Jvm)
    requires call.name == "getBatch"
    requires ArgumentOf(call.arguments, "paths") == Absent || ArgumentOf(call.arguments, "paths") == Found(List([]))
    ensures OnMethodCall(call, jvm1) == OnMethodCall(call, jvm2)
              == Answered(Error(InvalidArgument, Some("Paths list is required")))
  {
  }

  /** A batch that succeeds answers one text per path, in order, each the bridge's text for that
      path; every path was a string. */
  lemma BatchSuccess(call: MethodCall, jvm: Jvm)
    requires call.name == "getBatch" && OnMethodCall(call, jvm).Answered?
    requires OnMethodCall(call, jvm).reply.Success?
    ensures var items := ArgumentOf(call.arguments, "paths").value.items;
            var texts := OnMethodCall(call, jvm).reply.value;
            && texts.List? && |texts.items| == |items| > 0
            && forall i :: 0 <= i < |items| ==>
                 items[i].Str? && jvm.bridge(items[i].s).Ok? && texts.items[i] == Str(jvm.bridge(items[i].s).value)
  {
    var items := ArgumentOf(call.arguments, "paths").value.items;
    FailFastOk(items, Extract(jvm));
  }

  /** A batch never answers with part of a list: when any path fails, the answer is the single
      METADATA_ERROR of the first failure, and no path after it reaches the bridge. */
  lemma BatchAllOrNothing(call: MethodCall, jvm: Jvm, k: int)
    requires call.name == "getBatch" && ArgumentOf(call.arguments, "paths").Found?
    requires ArgumentOf(call.arguments, "paths").value.List?
    requires FirstFailure(ArgumentOf(call.arguments, "paths").value.items, Extract(jvm), k)
    ensures var items := ArgumentOf(call.arguments, "paths").value.items;
            OnMethodCall(call, jvm) == Answered(Error(MetadataError, Extract(jvm)(items[k]).error))
  {
    FailFastFirstErr(ArgumentOf(call.arguments, "paths").value.items, Extract(jvm), k);
  }
}
