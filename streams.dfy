/**
 * Stream arguments: direction classification (`streamType`), framing choice (`maybeConvert`),
 * the pumps `prepareStream` and `resolveStream` set up, and the names of the transport
 * sub-channels they open (`getTransportStream`) and recognise (`onstream`).
 *
 * Bytes never move in this model: a pump is recorded as which two ends it joins and which
 * converter sits between them.
 */
module Streams {
  import opened Wrappers
  import opened Values
  import Ids

  const READABLE: int := 1
  const WRITABLE: int := 2
  const DUPLEX: int := 3

  /** `t & bit` is non-zero, for the two direction bits (Euclidean `/` and `%` agree with two's complement here). */
  predicate HasBit(t: int, bit: int)
    requires bit == READABLE || bit == WRITABLE
  {
    if bit == READABLE then t % 2 == 1 else (t / 2) % 2 == 1
  }

  /**
   * `streamType(stream)`: a transform stream counts as readable while no pipe is attached
   * to it and as writable otherwise; any other stream gets one bit per side it has.
   */
  function StreamType(d: StreamDesc): (t: int)
    ensures 0 <= t <= DUPLEX
  {
    if d.transform then
      if d.readableState && !d.pipes then READABLE else WRITABLE
    else
      (if d.readable then READABLE else 0) + (if d.writable then WRITABLE else 0)
  }

  /** The bits of the mask are exactly the sides the stream has, and a transform gets one side only. */
  lemma StreamTypeBits(d: StreamDesc)
    ensures !d.transform ==> (HasBit(StreamType(d), READABLE) <==> d.readable)
    ensures !d.transform ==> (HasBit(StreamType(d), WRITABLE) <==> d.writable)
    ensures d.transform ==> (StreamType(d) == READABLE || StreamType(d) == WRITABLE)
    ensures d.transform ==> (HasBit(StreamType(d), READABLE) <==> d.readableState && !d.pipes)
    ensures d.transform ==> (HasBit(StreamType(d), WRITABLE) <==> !(d.readableState && !d.pipes))
  {
  }

  /** `isObjectStream(stream)`: the writable side's flag, else the readable side's, else falsy. */
  function ObjectMode(d: StreamDesc): bool {
    if d.writable then d.writableObjectMode
    else if d.readable then d.readableObjectMode
    else false
  }

  /** The descriptor of the `duplexify` stand-in built by `resolveStream`. */
  function StandinDesc(objectMode: bool): StreamDesc {
    StreamDesc(true, true, false, true, false, objectMode, objectMode)
  }

  /** The three converters: JSON-encode each chunk, JSON-decode each chunk, or pass chunks on. */
  datatype Conv = ToBin | ToObj | Pass(objectMode: bool)

  /** `maybeConvert(oneInObjMode, twoInObjMode)`. */
  function MaybeConvert(oneInObjMode: bool, twoInObjMode: bool): Conv {
    if oneInObjMode && !twoInObjMode then ToBin
    else if !oneInObjMode && twoInObjMode then ToObj
    else Pass(oneInObjMode)
  }

  /** Object mode expected on a converter's input side. */
  function InMode(c: Conv): bool {
    match c
    case ToBin => true
    case ToObj => false
    case Pass(m) => m
  }

  /** Object mode produced on a converter's output side. */
  function OutMode(c: Conv): bool {
    match c
    case ToBin => false
    case ToObj => true
    case Pass(m) => m
  }

  /** The converter undoing `c`. */
  function Inverse(c: Conv): Conv {
    match c
    case ToBin => ToObj
    case ToObj => ToBin
    case Pass(m) => Pass(m)
  }

  /** `maybeConvert(a, b)` adapts a stream in object mode `a` to one in object mode `b`, and is the only converter that does. */
  lemma MaybeConvertAdapts(a: bool, b: bool, c: Conv)
    ensures InMode(MaybeConvert(a, b)) == a && OutMode(MaybeConvert(a, b)) == b
    ensures InMode(c) == a && OutMode(c) == b ==> c == MaybeConvert(a, b)
  {
  }

  /** The converter for the opposite direction is the inverse one. */
  lemma MaybeConvertReversed(a: bool, b: bool)
    ensures MaybeConvert(b, a) == Inverse(MaybeConvert(a, b))
  {
  }

  /** The control channel JSON-encodes what it sends and JSON-decodes what it receives. */
  lemma ControlChannelFraming()
    ensures MaybeConvert(true, false) == ToBin && MaybeConvert(false, true) == ToObj
    ensures Inverse(MaybeConvert(true, false)) == MaybeConvert(false, true)
  {
  }

  /** The two ends a pump joins. */
  datatype Endpoint =
    | LocalStream(desc: StreamDesc)
    | Transport(key: string)
    | Standin(id: string, side: int)

  /** A `pump(from, conv, to)` call. */
  datatype Pump = Pump(from: Endpoint, conv: Conv, to: Endpoint)

  /** `${id}-${type}`: the name of a transport sub-channel. */
  function TransportKey(id: string, direction: nat): string {
    id + "-" + Ids.NatToString(direction)
  }

  /** The pumps `prepareStream` sets up for a local stream sent under sub-ID `sub`. */
  function PreparePumps(d: StreamDesc, sub: string): seq<Pump> {
    var t, om := StreamType(d), ObjectMode(d);
    (if HasBit(t, READABLE)
     then [Pump(LocalStream(d), MaybeConvert(om, false), Transport(TransportKey(sub, READABLE as nat)))]
     else [])
    + (if HasBit(t, WRITABLE)
       then [Pump(Transport(TransportKey(sub, WRITABLE as nat)), MaybeConvert(false, om), LocalStream(d))]
       else [])
  }

  /** The pumps `resolveStream` sets up for a received stream spec `[t, om]` under sub-ID `sub`. */
  function ResolvePumps(t: int, om: bool, sub: string): seq<Pump> {
    (if HasBit(t, READABLE)
     then [Pump(Transport(TransportKey(sub, READABLE as nat)), MaybeConvert(false, om), Standin(sub, READABLE))]
     else [])
    + (if HasBit(t, WRITABLE)
       then [Pump(Standin(sub, WRITABLE), MaybeConvert(om, false), Transport(TransportKey(sub, WRITABLE as nat)))]
       else [])
  }

  /** The transport end of a pump that has one. */
  function ChannelOf(p: Pump): Option<string> {
    if p.to.Transport? then Some(p.to.key)
    else if p.from.Transport? then Some(p.from.key)
    else None
  }

  /** The transport names a list of pumps uses, in order. */
  function ChannelKeys(ps: seq<Pump>): seq<string> {
    if ps == [] then []
    else (if ChannelOf(ps[0]).Some? then [ChannelOf(ps[0]).value] else []) + ChannelKeys(ps[1..])
  }

  /**
   * Two pumps at the two ends of one sub-channel: the first writes into it and the
   * second reads from it, or the other way round, and the reader undoes the writer's framing.
   */
  predicate Complementary(p: Pump, q: Pump) {
    || (p.to.Transport? && q.from == p.to && q.conv == Inverse(p.conv))
    || (p.from.Transport? && q.to == p.from && p.conv == Inverse(q.conv))
  }

  /**
   * For each direction of a stream argument, the sender's pump and the receiver's pump meet
   * on the same sub-channel and their converters are inverse (toBin with toObj, pass with pass).
   */
  lemma FramingPaired(d: StreamDesc, sub: string)
    ensures var ps, rs := PreparePumps(d, sub), ResolvePumps(StreamType(d), ObjectMode(d), sub);
      |ps| == |rs| && forall i :: 0 <= i < |ps| ==> Complementary(ps[i], rs[i])
    ensures forall p :: p in PreparePumps(d, sub) ==> p.conv != Pass(true)
  {
  }

  /**
   * A transform whose readable side is in object mode and whose writable side is not, with no
   * pipes: `isObjectStream` reads the writable flag, so its object chunks are sent through a
   * byte pass-through rather than `toBin`.
   */
  lemma MixedModeTransformUnconverted(sub: string)
    ensures var d := StreamDesc(true, true, true, true, false, true, false);
      && StreamType(d) == READABLE && !ObjectMode(d) && d.readableObjectMode
      && PreparePumps(d, sub) == [Pump(LocalStream(d), Pass(false), Transport(TransportKey(sub, READABLE as nat)))]
  {
  }

  /** A transport handle: one this side opened by name, or one the peer opened and the multiplexer handed over. */
  datatype Channel = Opened(name: string) | Accepted(handle: nat)

  /** `getTransportStream`: create the sub-channel `key` if absent, else reuse it. */
  function EnsureChannel(m: map<string, Channel>, key: string): (r: map<string, Channel>)
    ensures r.Keys == m.Keys + {key}
    ensures key in m ==> r == m
    ensures key !in m ==> r[key] == Opened(key)
    ensures forall k :: k in m ==> r[k] == m[k]
  {
    if key in m then m else m[key := Opened(key)]
  }

  /** A second request for the same sub-channel changes nothing. */
  lemma EnsureChannelIdempotent(m: map<string, Channel>, key: string)
    ensures EnsureChannel(EnsureChannel(m, key), key) == EnsureChannel(m, key)
  {
  }

  /** Ensure each of `keys`, in order. */
  function EnsureAll(m: map<string, Channel>, keys: seq<string>): (r: map<string, Channel>)
    ensures r.Keys == m.Keys + set k | k in keys
    ensures forall k :: k in m ==> r[k] == m[k]
    ensures forall k :: k in r && k !in m ==> r[k] == Opened(k)
    decreases |keys|
  {
    if keys == [] then m else EnsureAll(EnsureChannel(m, keys[0]), keys[1..])
  }

  /** Characters of the ID part of `^([a-zA-Z0-9.]+)-([0-3]){1}$`. */
  predicate NameChar(c: char) {
    'a' <= c <= 'z' || 'A' <= c <= 'Z' || '0' <= c <= '9' || c == '.'
  }

  predicate NameChars(s: string) {
    forall i :: 0 <= i < |s| ==> NameChar(s[i])
  }

  /** The two groups of a recognised sub-channel name. */
  datatype StreamName = StreamName(id: string, kind: char)

  /**
   * `name.match(/^([a-zA-Z0-9.]+)-([0-3]){1}$/)`. The ID group cannot contain '-', so the
   * only possible split puts '-' just before the last character.
   */
  function ParseStreamName(name: string): Option<StreamName> {
    if |name| >= 3 && name[|name| - 2] == '-' && '0' <= name[|name| - 1] <= '3'
       && NameChars(name[..|name| - 2])
    then Some(StreamName(name[..|name| - 2], name[|name| - 1]))
    else None
  }

  /** `${id}-${type}` built from the match groups is the name itself. */
  lemma ParsedNameRebuilds(name: string)
    requires ParseStreamName(name).Some?
    ensures var r := ParseStreamName(name).value;
      r.id + "-" + [r.kind] == name && |r.id| >= 1 && NameChars(r.id)
  {
    var r := ParseStreamName(name).value;
    assert name == name[..|name| - 2] + "-" + [name[|name| - 1]];
  }

  /**
   * The peer recognises a sub-channel name this side opens exactly when the ID is
   * non-empty and drawn from [a-zA-Z0-9.]; it then hands back that ID and direction.
   */
  lemma TransportKeyRecognised(id: string, direction: nat)
    requires direction <= 3
    ensures ParseStreamName(TransportKey(id, direction)).Some? <==> |id| >= 1 && NameChars(id)
    ensures |id| >= 1 && NameChars(id) ==>
      ParseStreamName(TransportKey(id, direction)) == Some(StreamName(id, Ids.DigitChar(direction)))
  {
    var name := TransportKey(id, direction);
    assert Ids.NatToString(direction) == [Ids.DigitChar(direction)];
    assert name[..|name| - 2] == id;
  }

  /** IDs keep the character set of their base. */
  lemma IdNameChars(base: string, n: nat)
    requires NameChars(base)
    ensures NameChars(Ids.Id(base, n)) && |Ids.Id(base, n)| >= 1
  {
    Ids.JoinPair(base, Ids.NatToString(n));
  }

  /** Every negotiated prefix is drawn from [a-zA-Z0-9]: sub-channel characters other than the separator '.'. */
  lemma PrefixNameChars(nonce: int, remoteNonce: int, draw: Ids.TieBreak)
    ensures NameChars(Ids.CalculatePrefix(nonce, remoteNonce, draw))
    ensures Ids.Separator !in Ids.CalculatePrefix(nonce, remoteNonce, draw)
  {
  }
}
