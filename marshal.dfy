/**
 * `convertArgs`: the five-row conversion table, the per-row prepare and resolve steps, and
 * what each step registers (callbacks, transport sub-channels, pumps).
 *
 * A wire argument is the pair `[type, data]` after the JSON round trip of the control
 * channel; `type` is the index of the table row that matched.
 */
module Marshal {
  import opened Wrappers
  import opened Values
  import opened Streams
  import Ids

  /** Row indices of the conversion table. */
  const ERROR: int := 0
  const CALLBACK: int := 1
  const STREAM: int := 2
  const BUFFER: int := 3
  const DEFAULT: int := 4

  /** `[type, data]`. */
  datatype WireArg = WireArg(tag: int, payload: Json)

  predicate IsError(v: Value) { v.ErrorValue? }
  predicate IsFunc(v: Value) { v.Function? }
  predicate IsStream(v: Value) { v.Stream? }
  predicate IsBuffer(v: Value) { v.Buffer? }
  predicate MatchAny(v: Value) { true }

  /** The MATCH column of `CONVERSION_MAP`, in order. */
  const Table: seq<Value -> bool> := [IsError, IsFunc, IsStream, IsBuffer, MatchAny]

  /** The `reduce` over the table: the index of the first row whose matcher accepts `v`. */
  function FirstMatch(rows: seq<Value -> bool>, v: Value): (t: nat)
    ensures t <= |rows|
    ensures forall k :: 0 <= k < t ==> !rows[k](v)
    ensures t < |rows| ==> rows[t](v)
  {
    if rows == [] then 0
    else if rows[0](v) then 0
    else 1 + FirstMatch(rows[1..], v)
  }

  /** The kind of a value as a row number: the reference the table must agree with. */
  function Kind(v: Value): nat {
    match v
    case ErrorValue(_) => 0
    case Function(_) => 1
    case Stream(_) => 2
    case Buffer(_) => 3
    case Plain(_) => 4
  }

  /** Every value matches some row, and the first row that matches it is the row of its kind. */
  lemma TableTagsByKind(v: Value)
    ensures FirstMatch(Table, v) == Kind(v) < |Table|
  {
    var t := FirstMatch(Table, v);
    assert Table[4](v);
    assert Table[Kind(v)](v);
  }

  /** `buf.toString('ascii')`: each byte with its top bit cleared. */
  function ToAscii(b: seq<Byte>): (s: string)
    ensures |s| == |b|
  {
    seq(|b|, i requires 0 <= i < |b| => (b[i] as int % 128) as char)
  }

  /** `Buffer.from(string, 'ascii')`: the low byte of each character. */
  function FromAscii(s: string): (b: seq<Byte>)
    ensures |b| == |s|
  {
    seq(|s|, i requires 0 <= i < |s| => (s[i] as int % 256) as Byte)
  }

  /** Each byte with its top bit cleared. */
  function Masked(b: seq<Byte>): seq<Byte> {
    seq(|b|, i requires 0 <= i < |b| => b[i] % 128)
  }

  /** A buffer survives the trip with its top bits cleared, so intact exactly when every byte is below 0x80. */
  lemma AsciiRoundTrip(b: seq<Byte>)
    ensures FromAscii(ToAscii(b)) == Masked(b)
    ensures Masked(b) == b <==> forall i :: 0 <= i < |b| ==> b[i] < 128
  {
    if Masked(b) == b {
      forall i | 0 <= i < |b| ensures b[i] < 128 {
        assert Masked(b)[i] == b[i] % 128;
      }
    }
  }

  /** The JSON kept for a stream's object-mode flag: `isObjectStream` yields `undefined`, sent as null, for a stream with neither side. */
  function ObjectModeJson(d: StreamDesc): Json {
    if d.writable || d.readable then JBool(ObjectMode(d)) else JNull
  }

  /** The PREPARE column: the payload sent for `v` under sub-ID `sub`. */
  function PreparePayload(v: Value, sub: string): Json {
    match v
    case ErrorValue(m) => JObj(map["message" := JStr(m)])
    case Function(_) => JStr(sub)
    case Stream(d) => JArr([JNum(StreamType(d)), ObjectModeJson(d)])
    case Buffer(b) => JStr(ToAscii(b))
    case Plain(j) => j
  }

  /** `prepareArg(arg, id, i)` with `sub == joinIds(id, i)`. */
  function PrepareArg(v: Value, sub: string): WireArg {
    WireArg(FirstMatch(Table, v), PreparePayload(v, sub))
  }

  /** The wire arguments of `prepareArgs(id, args)`: one per argument, in order. */
  function Wires(id: string, args: seq<Value>): (ws: seq<WireArg>)
    ensures |ws| == |args|
  {
    seq(|args|, i requires 0 <= i < |args| => PrepareArg(args[i], Ids.Id(id, i)))
  }

  /** What `prepareArgs` and `resolveArgs` register. */
  datatype Registry = Registry(
    callbacks: map<string, FnRef>,
    transports: map<string, Channel>,
    pumps: seq<Pump>)

  /** The registry only grows: no callback or transport is dropped or replaced, pumps are only added. */
  predicate Extends(r: Registry, r': Registry) {
    && r.callbacks.Keys <= r'.callbacks.Keys
    && (forall k :: k in r.transports ==> k in r'.transports && r'.transports[k] == r.transports[k])
    && r.pumps <= r'.pumps
  }

  /** Open the sub-channels `ps` use, then set up `ps`. */
  function WithPumps(r: Registry, ps: seq<Pump>): (r': Registry)
    ensures r'.callbacks == r.callbacks && r'.pumps == r.pumps + ps
  {
    r.(transports := EnsureAll(r.transports, ChannelKeys(ps)), pumps := r.pumps + ps)
  }

  /** The side effect of preparing `v` under `sub`: `prepareCallback` stores a function, `prepareStream` opens its sub-channels. */
  function PrepareStep(r: Registry, v: Value, sub: string): (r': Registry)
    ensures Extends(r, r')
    ensures v.Function? ==> r'.callbacks == r.callbacks[sub := v.fn]
    ensures !v.Function? ==> r'.callbacks == r.callbacks
  {
    match v
    case Function(f) => r.(callbacks := r.callbacks[sub := f])
    case Stream(d) => WithPumps(r, PreparePumps(d, sub))
    case _ => r
  }

  /** The registry after preparing `args[..n]` under call ID `id`. */
  function RegisterUpTo(r: Registry, id: string, args: seq<Value>, n: nat): (r': Registry)
    requires n <= |args|
    ensures Extends(r, r')
  {
    if n == 0 then r else PrepareStep(RegisterUpTo(r, id, args, n - 1), args[n - 1], Ids.Id(id, n - 1))
  }

  /** A callback stored under `Id(id, i)` for a function argument `i < n`. */
  predicate NewCallbackKey(id: string, args: seq<Value>, n: nat, k: string)
    requires n <= |args|
  {
    exists i :: 0 <= i < n && args[i].Function? && k == Ids.Id(id, i)
  }

  /** After `prepareArgs`, each function argument `i` sits in the callback registry under `joinIds(id, i)`. */
  lemma {:induction false} PreparedCallbacksStored(r: Registry, id: string, args: seq<Value>, n: nat)
    requires n <= |args|
    ensures var c := RegisterUpTo(r, id, args, n).callbacks;
      forall i :: 0 <= i < n && args[i].Function? ==> Ids.Id(id, i) in c && c[Ids.Id(id, i)] == args[i].fn
  {
    if n > 0 {
      PreparedCallbacksStored(r, id, args, n - 1);
      forall i | 0 <= i < n - 1
        ensures Ids.Id(id, i) != Ids.Id(id, n - 1)
      {
        Ids.IdInjective(id, i, id, n - 1);
      }
    }
  }

  /** The callback registry holds exactly the old keys and the sub-IDs of the function arguments. */
  lemma {:induction false} PreparedCallbackKeys(r: Registry, id: string, args: seq<Value>, n: nat)
    requires n <= |args|
    ensures forall k :: k in RegisterUpTo(r, id, args, n).callbacks <==> k in r.callbacks || NewCallbackKey(id, args, n, k)
  {
    if n > 0 {
      PreparedCallbackKeys(r, id, args, n - 1);
      forall k
        ensures k in RegisterUpTo(r, id, args, n).callbacks <==> k in r.callbacks || NewCallbackKey(id, args, n, k)
      {
        if NewCallbackKey(id, args, n, k) && !NewCallbackKey(id, args, n - 1, k) {
          var i :| 0 <= i < n && args[i].Function? && k == Ids.Id(id, i);
          assert i == n - 1;
        }
      }
    }
  }

  /** An old callback whose key no function argument reuses keeps its function. */
  lemma {:induction false} PreparedCallbacksKept(r: Registry, id: string, args: seq<Value>, n: nat)
    requires n <= |args|
    ensures forall k :: k in r.callbacks && !NewCallbackKey(id, args, n, k) ==>
      RegisterUpTo(r, id, args, n).callbacks[k] == r.callbacks[k]
  {
    if n > 0 {
      PreparedCallbacksKept(r, id, args, n - 1);
      forall k | k in r.callbacks && !NewCallbackKey(id, args, n, k)
        ensures RegisterUpTo(r, id, args, n).callbacks[k] == r.callbacks[k]
      {
        assert !NewCallbackKey(id, args, n - 1, k);
        assert !(args[n - 1].Function? && k == Ids.Id(id, n - 1));
      }
    }
  }

  /** `String(x)` of a JSON value, exact except for non-empty arrays. */
  function KeyOf(j: Json): string {
    match j
    case JNull => "null"
    case JBool(b) => if b then "true" else "false"
    case JNum(n) => if n >= 0 then Ids.NatToString(n) else "-" + Ids.NatToString(-n)
    case JStr(s) => s
    case JArr(items) => if items == [] then "" else "[array]"
    case JObj(_) => "[object Object]"
  }

  /** `Number(x)` truncated to an integer, with 0 for NaN; strings other than plain digit runs give 0. */
  function NumberOf(j: Json): int {
    match j
    case JNull => 0
    case JBool(b) => if b then 1 else 0
    case JNum(n) => n
    case JStr(s) => if |s| >= 1 && Ids.IsDigits(s) then Ids.ParseDigits(s) else 0
    case JArr(_) => 0
    case JObj(_) => 0
  }

  /** `[type, objectMode]` of a received stream spec. */
  datatype StreamSpec = StreamSpec(streamType: int, objectMode: bool)

  /** `var [type, objectMode] = spec`: arrays and strings destructure, anything else throws. */
  function StreamSpecOf(payload: Json): Outcome<StreamSpec> {
    match payload
    case JArr(items) =>
      Returned(StreamSpec(if |items| > 0 then NumberOf(items[0]) else 0, |items| > 1 && Truthy(items[1])))
    case JStr(s) =>
      Returned(StreamSpec(if |s| > 0 then NumberOf(JStr([s[0]])) else 0, |s| > 1))
    case _ => Threw("spec is not iterable")
  }

  /** `Buffer.from(data, 'ascii')`: a string keeps its characters' low bytes, an array its elements' numbers. */
  function BufferOf(payload: Json): Outcome<seq<Byte>> {
    match payload
    case JStr(s) => Returned(FromAscii(s))
    case JArr(items) => Returned(seq(|items|, i requires 0 <= i < |items| => (NumberOf(items[i]) % 256) as Byte))
    case _ => Threw("The first argument must be of type string, Buffer, ArrayBuffer, Array, or Array-like Object")
  }

  /** `resolveError(spec)`: an error whose own properties are copied from `spec`, of which `message` is kept. */
  function ErrorOf(payload: Json): Outcome<Value> {
    match payload
    case JNull => Threw("Cannot convert undefined or null to object")
    case JObj(f) => Returned(ErrorValue(if "message" in f then KeyOf(f["message"]) else ""))
    case _ => Returned(ErrorValue(""))
  }

  /** A resolved argument and the registry after resolving it. */
  datatype Step = Step(value: Value, reg: Registry)

  /** The RESOLVE column, chosen by the stored tag alone: `CONVERSION_MAP[type][RESOLVE]`. */
  function ResolveStep(r: Registry, w: WireArg, sub: string): (o: Outcome<Step>)
    ensures o.Returned? ==> o.value.reg.callbacks == r.callbacks
    ensures o.Threw? <==> w.tag !in {ERROR, CALLBACK, STREAM, BUFFER, DEFAULT}
                          || (w.tag == ERROR && w.payload.JNull?)
                          || (w.tag == STREAM && !w.payload.JArr? && !w.payload.JStr?)
                          || (w.tag == BUFFER && !w.payload.JArr? && !w.payload.JStr?)
  {
    if w.tag == ERROR then
      match ErrorOf(w.payload)
      case Returned(e) => Returned(Step(e, r))
      case Threw(m) => Threw(m)
    else if w.tag == CALLBACK then
      Returned(Step(Function(Stub(KeyOf(w.payload))), r))
    else if w.tag == STREAM then
      match StreamSpecOf(w.payload)
      case Returned(spec) =>
        Returned(Step(Stream(StandinDesc(spec.objectMode)),
                      WithPumps(r, ResolvePumps(spec.streamType, spec.objectMode, sub))))
      case Threw(m) => Threw(m)
    else if w.tag == BUFFER then
      match BufferOf(w.payload)
      case Returned(b) => Returned(Step(Buffer(b), r))
      case Threw(m) => Threw(m)
    else if w.tag == DEFAULT then
      Returned(Step(Plain(w.payload), r))
    else
      Threw("Cannot read properties of undefined")
  }

  /** The default row hands back any payload untouched, whatever it looks like. */
  lemma DefaultRowVerbatim(r: Registry, j: Json, sub: string)
    ensures ResolveStep(r, WireArg(DEFAULT, j), sub) == Returned(Step(Plain(j), r))
  {
  }

  /** The outcome of `resolveArgs` over a prefix: the values so far, the registry, and the first exception. */
  datatype ResolveRun = ResolveRun(values: seq<Value>, reg: Registry, failure: Option<string>)

  /** `args.map(resolveArg)` over `ws[..n]`: it stops at the first argument that throws, keeping what earlier ones registered. */
  function ResolveUpTo(r: Registry, id: string, ws: seq<WireArg>, n: nat): (run: ResolveRun)
    requires n <= |ws|
    ensures run.failure.None? ==> |run.values| == n
    ensures |run.values| <= n
    ensures run.reg.callbacks == r.callbacks
  {
    if n == 0 then ResolveRun([], r, None)
    else
      var prev := ResolveUpTo(r, id, ws, n - 1);
      if prev.failure.Some? then prev
      else
        match ResolveStep(prev.reg, ws[n - 1], Ids.Id(id, n - 1))
        case Threw(e) => prev.(failure := Some(e))
        case Returned(s) => ResolveRun(prev.values + [s.value], s.reg, None)
  }

  /** Resolving one argument drops no transport and no pump. */
  lemma ResolveStepGrows(r: Registry, w: WireArg, sub: string)
    requires ResolveStep(r, w, sub).Returned?
    ensures Extends(r, ResolveStep(r, w, sub).value.reg)
  {
  }

  /** Nor does resolving a list of them, whether or not one throws. */
  lemma {:induction false} ResolveUpToGrows(r: Registry, id: string, ws: seq<WireArg>, n: nat)
    requires n <= |ws|
    ensures Extends(r, ResolveUpTo(r, id, ws, n).reg)
  {
    if n > 0 {
      ResolveUpToGrows(r, id, ws, n - 1);
      var prev := ResolveUpTo(r, id, ws, n - 1);
      if prev.failure.None? {
        var o := ResolveStep(prev.reg, ws[n - 1], Ids.Id(id, n - 1));
        if o.Returned? {
          ResolveStepGrows(prev.reg, ws[n - 1], Ids.Id(id, n - 1));
          ExtendsTransitive(r, prev.reg, o.value.reg);
        }
      }
    }
  }

  lemma ExtendsTransitive(a: Registry, b: Registry, c: Registry)
    requires Extends(a, b) && Extends(b, c)
    ensures Extends(a, c)
  {
  }

  /** Once an argument has thrown, the later ones are never resolved. */
  lemma {:induction false} FailureSticks(r: Registry, id: string, ws: seq<WireArg>, n: nat, m: nat)
    requires n <= m <= |ws|
    requires ResolveUpTo(r, id, ws, n).failure.Some?
    ensures ResolveUpTo(r, id, ws, m) == ResolveUpTo(r, id, ws, n)
    decreases m
  {
    if m > n {
      FailureSticks(r, id, ws, n, m - 1);
    }
  }

  /** What the peer ends up holding for an argument sent as `v` under `sub`. */
  function Counterpart(v: Value, sub: string): Value {
    match v
    case ErrorValue(m) => ErrorValue(m)
    case Function(_) => Function(Stub(sub))
    case Stream(d) => Stream(StandinDesc(ObjectMode(d)))
    case Buffer(b) => Buffer(Masked(b))
    case Plain(j) => Plain(j)
  }

  /**
   * Resolving a prepared argument never throws; an error keeps its message, a function
   * becomes a stub for its sub-ID, a stream a stand-in in the same object mode, a buffer
   * its masked bytes, and anything else itself.
   */
  lemma RoundTripArg(r: Registry, v: Value, sub: string)
    ensures ResolveStep(r, PrepareArg(v, sub), sub).Returned?
    ensures ResolveStep(r, PrepareArg(v, sub), sub).value.value == Counterpart(v, sub)
  {
    TableTagsByKind(v);
    if v.Buffer? {
      AsciiRoundTrip(v.bytes);
    }
  }

  /** A stream argument's pumps on the two sides meet on the same sub-channels with inverse framing. */
  lemma RoundTripStreamPumps(r: Registry, d: StreamDesc, sub: string)
    ensures ResolveStep(r, PrepareArg(Stream(d), sub), sub).Returned?
    ensures var s := ResolveStep(r, PrepareArg(Stream(d), sub), sub).value.reg;
      s.pumps == r.pumps + ResolvePumps(StreamType(d), ObjectMode(d), sub)
  {
    TableTagsByKind(Stream(d));
  }

  /** `resolveArgs(id, prepareArgs(id, args))` never throws and yields each argument's counterpart, in order. */
  lemma RoundTripArgs(r: Registry, id: string, args: seq<Value>, n: nat)
    requires n <= |args|
    ensures var run := ResolveUpTo(r, id, Wires(id, args), n);
      && run.failure.None? && |run.values| == n
      && forall i :: 0 <= i < n ==> run.values[i] == Counterpart(args[i], Ids.Id(id, i))
  {
    var ws := Wires(id, args);
    var vals := seq(|args|, i requires 0 <= i < |args| => Counterpart(args[i], Ids.Id(id, i)));
    forall r': Registry, i | 0 <= i < n
      ensures ResolveStep(r', ws[i], Ids.Id(id, i)).Returned?
      ensures ResolveStep(r', ws[i], Ids.Id(id, i)).value.value == vals[i]
    {
      RoundTripArg(r', args[i], Ids.Id(id, i));
    }
    ResolveAll(r, id, ws, n, vals);
  }

  /** If every argument resolves, whatever the registry, the run resolves them all, in order. */
  lemma {:induction false} ResolveAll(r: Registry, id: string, ws: seq<WireArg>, n: nat, vals: seq<Value>)
    requires n <= |ws| && n <= |vals|
    requires forall r': Registry, i :: 0 <= i < n ==>
      ResolveStep(r', ws[i], Ids.Id(id, i)).Returned? && ResolveStep(r', ws[i], Ids.Id(id, i)).value.value == vals[i]
    ensures ResolveUpTo(r, id, ws, n).failure.None? && ResolveUpTo(r, id, ws, n).values == vals[..n]
  {
    if n > 0 {
      ResolveAll(r, id, ws, n - 1, vals);
      var prev := ResolveUpTo(r, id, ws, n - 1);
      var step := ResolveStep(prev.reg, ws[n - 1], Ids.Id(id, n - 1));
      assert step.Returned? && step.value.value == vals[n - 1];
      ResolveUpToNext(r, id, ws, n);
      assert vals[..n] == prev.values + [vals[n - 1]];
    }
  }

  /** A run without failure stops at the next argument if that one throws. */
  lemma ResolveUpToStops(r: Registry, id: string, ws: seq<WireArg>, n: nat)
    requires 0 < n <= |ws|
    requires ResolveUpTo(r, id, ws, n - 1).failure.None?
    requires ResolveStep(ResolveUpTo(r, id, ws, n - 1).reg, ws[n - 1], Ids.Id(id, n - 1)).Threw?
    ensures var prev := ResolveUpTo(r, id, ws, n - 1);
      var e := ResolveStep(prev.reg, ws[n - 1], Ids.Id(id, n - 1)).reason;
      ResolveUpTo(r, id, ws, n) == prev.(failure := Some(e))
  {
  }

  /** A run without failure extends by the next argument's resolved value. */
  lemma ResolveUpToNext(r: Registry, id: string, ws: seq<WireArg>, n: nat)
    requires 0 < n <= |ws|
    requires ResolveUpTo(r, id, ws, n - 1).failure.None?
    requires ResolveStep(ResolveUpTo(r, id, ws, n - 1).reg, ws[n - 1], Ids.Id(id, n - 1)).Returned?
    ensures var prev := ResolveUpTo(r, id, ws, n - 1);
      var s := ResolveStep(prev.reg, ws[n - 1], Ids.Id(id, n - 1)).value;
      ResolveUpTo(r, id, ws, n) == ResolveRun(prev.values + [s.value], s.reg, None)
  {
  }
}
