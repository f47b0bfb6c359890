/**
 * The manifest one side sends of its API (`makeManifest`), the mirror tree the other side
 * builds from it (`onManifest`), the CALL names mirrors send (`mockFunction`,
 * `mockConstructor`), and how `onCall` finds the target again (`name.split('.')` walked
 * down the API).
 */
module Manifest {
  import opened Wrappers
  import opened Values
  import Ids
  import Rpcify

  /** A value in the API tree. JSON null is not among them: `Object.keys(null)` would throw. */
  datatype ApiValue =
    | Rpcified(w: Rpcify.RPCify)
    | Obj(children: map<string, ApiValue>)
    | Func(fn: FnRef)
    | Bool(b: bool)
    | Str(s: string)
    | Num(n: int)
    | Undefined

  /** The tags of a manifest entry. */
  const FUNCTION: int := 1
  const VALUE: int := 2
  const OBJECT: int := 3
  const CONSTRUCTOR: int := 4

  /** `[FUNCTION]`, `[VALUE, v]`, `[OBJECT, children]`, `[CONSTRUCTOR, descriptor]`, or an entry with a tag outside the four. */
  datatype Entry =
    | FunctionEntry
    | ValueEntry(lit: Json)
    | ObjectEntry(entries: map<string, Entry>)
    | ConstructorEntry(desc: Rpcify.Descriptor)
    | UnknownEntry(tag: int)

  /** The tag an entry is sent with. */
  function TagOf(e: Entry): int {
    match e
    case FunctionEntry => FUNCTION
    case ValueEntry(_) => VALUE
    case ObjectEntry(_) => OBJECT
    case ConstructorEntry(_) => CONSTRUCTOR
    case UnknownEntry(t) => t
  }

  /**
   * The `reduce` of `makeManifest` for one value, tests in order: an rpcify wrapper, an
   * object, a function, a literal; anything else gets no entry.
   */
  function EntryOf(v: ApiValue): Option<Entry> {
    match v
    case Rpcified(w) => Some(ConstructorEntry(w.Describe()))
    case Obj(c) => Some(ObjectEntry(map k | k in c && EntryOf(c[k]).Some? :: EntryOf(c[k]).value))
    case Func(_) => Some(FunctionEntry)
    case Bool(b) => Some(ValueEntry(JBool(b)))
    case Str(s) => Some(ValueEntry(JStr(s)))
    case Num(n) => Some(ValueEntry(JNum(n)))
    case Undefined => None
  }

  /** `makeManifest()` of the API object. */
  function MakeManifest(api: map<string, ApiValue>): map<string, Entry> {
    EntryOf(Obj(api)).value.entries
  }

  /**
   * The manifest has an entry for exactly the keys whose value is not `undefined`, so its keys
   * are a subset of the API's, and each entry is classified by the first test its value passes.
   */
  lemma ManifestClassifies(api: map<string, ApiValue>)
    ensures MakeManifest(api).Keys == set k | k in api && !api[k].Undefined?
    ensures MakeManifest(api).Keys <= api.Keys
    ensures forall k :: k in api && api[k].Rpcified? ==> MakeManifest(api)[k] == ConstructorEntry(api[k].w.Describe())
    ensures forall k :: k in api && api[k].Obj? ==> MakeManifest(api)[k] == ObjectEntry(MakeManifest(api[k].children))
    ensures forall k :: k in api && api[k].Func? ==> MakeManifest(api)[k] == FunctionEntry
    ensures forall k :: k in api && api[k].Bool? ==> MakeManifest(api)[k] == ValueEntry(JBool(api[k].b))
    ensures forall k :: k in api && api[k].Str? ==> MakeManifest(api)[k] == ValueEntry(JStr(api[k].s))
    ensures forall k :: k in api && api[k].Num? ==> MakeManifest(api)[k] == ValueEntry(JNum(api[k].n))
  {
    var m := MakeManifest(api);
    forall k | k in api
      ensures k in m <==> !api[k].Undefined?
      ensures k in m ==> m[k] == EntryOf(api[k]).value
    {
      assert EntryOf(api[k]).Some? <==> !api[k].Undefined?;
    }
  }

  /** A node of the remote mirror tree. */
  datatype Mirror =
    | FunctionMirror(path: seq<string>, opts: Option<Rpcify.MethodRef>)
    | ConstructorMirror(path: seq<string>, desc: Rpcify.Descriptor)
    | ObjectMirror(children: map<string, Mirror>)
    | ValueMirror(lit: Json)

  /** The `reduce` of `onManifest` for one entry found at `path`; an unknown tag leaves the key out. */
  function MirrorOf(e: Entry, path: seq<string>): Option<Mirror> {
    match e
    case FunctionEntry => Some(FunctionMirror(path, None))
    case ConstructorEntry(d) => Some(ConstructorMirror(path, d))
    case ValueEntry(l) => Some(ValueMirror(l))
    case ObjectEntry(c) =>
      Some(ObjectMirror(map k | k in c && MirrorOf(c[k], path + [k]).Some? :: MirrorOf(c[k], path + [k]).value))
    case UnknownEntry(_) => None
  }

  /** `this.remote`, built from the peer's manifest. */
  function Remote(manifest: map<string, Entry>): map<string, Mirror> {
    MirrorOf(ObjectEntry(manifest), []).value.children
  }

  /**
   * The remote tree has exactly the manifest keys with a known tag; values are copied as
   * they came; functions and constructors carry the path `[name]` and nested objects are
   * built with it as their prefix.
   */
  lemma MirrorShape(manifest: map<string, Entry>)
    ensures Remote(manifest).Keys == set k | k in manifest && !manifest[k].UnknownEntry?
    ensures forall k :: k in manifest && manifest[k].ValueEntry? ==> Remote(manifest)[k] == ValueMirror(manifest[k].lit)
    ensures forall k :: k in manifest && manifest[k].FunctionEntry? ==> Remote(manifest)[k] == FunctionMirror([k], None)
    ensures forall k :: k in manifest && manifest[k].ConstructorEntry? ==>
      Remote(manifest)[k] == ConstructorMirror([k], manifest[k].desc)
    ensures forall k :: k in manifest && manifest[k].ObjectEntry? ==> Remote(manifest)[k] == MirrorOf(manifest[k], [k]).value
  {
    var r := Remote(manifest);
    forall k | k in manifest
      ensures k in r <==> !manifest[k].UnknownEntry?
      ensures k in r ==> r[k] == MirrorOf(manifest[k], [k]).value
    {
      assert [] + [k] == [k];
      assert MirrorOf(manifest[k], [k]).Some? <==> !manifest[k].UnknownEntry?;
    }
  }

  /** The entry reached by following `p` through object entries. */
  function EntryAt(e: Entry, p: seq<string>): Option<Entry> {
    if p == [] then Some(e)
    else if e.ObjectEntry? && p[0] in e.entries then EntryAt(e.entries[p[0]], p[1..])
    else None
  }

  /** The mirror reached by following `p` through object mirrors. */
  function MirrorAt(m: Mirror, p: seq<string>): Option<Mirror> {
    if p == [] then Some(m)
    else if m.ObjectMirror? && p[0] in m.children then MirrorAt(m.children[p[0]], p[1..])
    else None
  }

  /** Following a path through the mirror tree reaches the mirror of the entry found by following it through the manifest, built with the whole path. */
  lemma {:induction false} MirrorFollowsManifest(e: Entry, base: seq<string>, p: seq<string>)
    requires EntryAt(e, p).Some? && !EntryAt(e, p).value.UnknownEntry?
    ensures MirrorOf(e, base).Some?
    ensures MirrorAt(MirrorOf(e, base).value, p) == MirrorOf(EntryAt(e, p).value, base + p)
  {
    if p == [] {
      assert base + p == base;
    } else {
      var child := e.entries[p[0]];
      MirrorFollowsManifest(child, base + [p[0]], p[1..]);
      assert base + [p[0]] + p[1..] == base + p;
    }
  }

  /** The object-key walk of `onCall`; reading a key of `undefined` throws, other non-objects have no keys. */
  function Walk(v: ApiValue, p: seq<string>): Outcome<ApiValue>
    decreases |p|
  {
    if p == [] then Returned(v)
    else match v
      case Obj(c) => Walk(if p[0] in c then c[p[0]] else Undefined, p[1..])
      case Undefined => Threw("Cannot read properties of undefined")
      case _ => Walk(Undefined, p[1..])
  }

  /** A value the walk finds (other than `undefined`) has its manifest entry at the same path. */
  lemma {:induction false} ManifestFollowsApi(v: ApiValue, p: seq<string>)
    requires Walk(v, p).Returned? && !Walk(v, p).value.Undefined?
    ensures EntryOf(v).Some? && EntryOf(Walk(v, p).value).Some?
    ensures EntryAt(EntryOf(v).value, p) == EntryOf(Walk(v, p).value)
    decreases |p|
  {
    if p != [] {
      if v.Obj? {
        var next := if p[0] in v.children then v.children[p[0]] else Undefined;
        if next.Undefined? {
          UndefinedWalk(p[1..]);
        } else {
          ManifestFollowsApi(next, p[1..]);
        }
      } else if !v.Undefined? {
        UndefinedWalk(p[1..]);
      }
    }
  }

  /** Walking on from `undefined` throws or ends at `undefined`. */
  lemma UndefinedWalk(p: seq<string>)
    ensures Walk(Undefined, p).Threw? || Walk(Undefined, p) == Returned(Undefined)
  {
  }

  /** `path.join('.')`: the CALL name a mirror sends. */
  function CallName(path: seq<string>): string {
    Ids.Join(path)
  }

  /** How `onCall` treats the value its walk found. */
  datatype Route =
    | NewInstance(w: Rpcify.RPCify)
    | InstanceCall(w: Rpcify.RPCify, m: Rpcify.MethodRef)
    | Apply(fn: FnRef)
    | Fails(reason: string)

  /** `onCall`'s dispatch: a wrapper builds an instance on null opts and routes a method call otherwise; a function is applied; anything else throws. */
  function RouteCall(api: map<string, ApiValue>, name: string, opts: Option<Rpcify.MethodRef>): Route {
    match Walk(Obj(api), Ids.Split(name))
    case Threw(e) => Fails(e)
    case Returned(Rpcified(w)) => if opts.None? then NewInstance(w) else InstanceCall(w, opts.value)
    case Returned(Func(f)) => Apply(f)
    case Returned(_) => Fails("func.apply is not a function")
  }

  /**
   * End to end for a function: the peer's mirror at the function's path is a function mirror
   * for that path, and the CALL it sends, with any opts, routes back to that function,
   * provided no segment of the path contains '.'.
   */
  lemma FunctionCallRoutesBack(api: map<string, ApiValue>, p: seq<string>, f: FnRef, opts: Option<Rpcify.MethodRef>)
    requires |p| >= 1 && Ids.DotFree(p)
    requires Walk(Obj(api), p) == Returned(Func(f))
    ensures MirrorAt(ObjectMirror(Remote(MakeManifest(api))), p) == Some(FunctionMirror(p, None))
    ensures RouteCall(api, CallName(p), opts) == Apply(f)
  {
    ManifestFollowsApi(Obj(api), p);
    MirrorFollowsManifest(ObjectEntry(MakeManifest(api)), [], p);
    assert [] + p == p;
    Ids.SplitJoin(p);
  }

  /**
   * End to end for a wrapper: the mirror is a constructor mirror carrying the wrapper's
   * descriptor; its construction CALL (null opts) builds an instance, and a CALL carrying
   * `[instanceId, method]` is routed to the wrapper's `makeCall`.
   */
  lemma ConstructorCallRoutesBack(api: map<string, ApiValue>, p: seq<string>, w: Rpcify.RPCify, m: Rpcify.MethodRef)
    requires |p| >= 1 && Ids.DotFree(p)
    requires Walk(Obj(api), p) == Returned(Rpcified(w))
    ensures MirrorAt(ObjectMirror(Remote(MakeManifest(api))), p) == Some(ConstructorMirror(p, w.Describe()))
    ensures RouteCall(api, CallName(p), None) == NewInstance(w)
    ensures RouteCall(api, CallName(p), Some(m)) == InstanceCall(w, m)
  {
    ManifestFollowsApi(Obj(api), p);
    MirrorFollowsManifest(ObjectEntry(MakeManifest(api)), [], p);
    assert [] + p == p;
    Ids.SplitJoin(p);
  }

  /**
   * A key containing '.' gets a mirror, but the CALL its mirror sends is split at the dot, so
   * its first segment, not the key, is what the walk looks up: the value under the key plays
   * no part in where the call goes.
   */
  lemma DottedKeyIgnored(api: map<string, ApiValue>, k: string, opts: Option<Rpcify.MethodRef>)
    requires Ids.Separator in k
    ensures |Ids.Split(CallName([k]))| >= 2
    ensures RouteCall(api, CallName([k]), opts) == RouteCall(api - {k}, CallName([k]), opts)
  {
    assert CallName([k]) == k;
    var i := Ids.IndexOfSeparator(k);
    var p := Ids.Split(k);
    assert p == [k[..i]] + Ids.Split(k[i + 1..]);
    assert p[0] == k[..i] && |p[0]| < |k|;
    var rest := api - {k};
    assert (p[0] in api) == (p[0] in rest);
    assert p[0] in api ==> api[p[0]] == rest[p[0]];
    assert Walk(Obj(api), p) == Walk(if p[0] in api then api[p[0]] else Undefined, p[1..]);
    assert Walk(Obj(rest), p) == Walk(if p[0] in rest then rest[p[0]] else Undefined, p[1..]);
  }

  /** A function under a key containing '.', with nothing at the split path: the call fails. */
  lemma DottedKeyUnroutable(f: FnRef)
    ensures var api := map["a.b" := Func(f)];
      && "a.b" in Remote(MakeManifest(api))
      && Remote(MakeManifest(api))["a.b"] == FunctionMirror(["a.b"], None)
      && RouteCall(api, CallName(["a.b"]), None).Fails?
  {
    var api := map["a.b" := Func(f)];
    ManifestClassifies(api);
    MirrorShape(MakeManifest(api));
    assert CallName(["a.b"]) == "a.b";
    assert Ids.Split("a.b") == ["a", "b"] by {
      assert Ids.IndexOfSeparator("a.b") == 1;
      assert "a.b"[..1] == "a" && "a.b"[2..] == "b";
      assert Ids.Separator !in "b";
      assert Ids.Split("b") == ["b"];
    }
    assert "a" !in api;
    assert Walk(Obj(api), ["a", "b"]) == Walk(Undefined, ["b"]);
  }

  /** A function under "a.b" beside an object "a" holding "b": the mirror of "a.b" calls the other function. */
  lemma DottedKeyMisrouted(f: FnRef, g: FnRef)
    ensures var api := map["a" := Obj(map["b" := Func(f)]), "a.b" := Func(g)];
      && "a.b" in Remote(MakeManifest(api))
      && Remote(MakeManifest(api))["a.b"] == FunctionMirror(["a.b"], None)
      && RouteCall(api, CallName(["a.b"]), None) == Apply(f)
  {
    var api := map["a" := Obj(map["b" := Func(f)]), "a.b" := Func(g)];
    ManifestClassifies(api);
    MirrorShape(MakeManifest(api));
    assert CallName(["a.b"]) == "a.b";
    assert Ids.Split("a.b") == ["a", "b"] by {
      assert Ids.IndexOfSeparator("a.b") == 1;
      assert "a.b"[..1] == "a" && "a.b"[2..] == "b";
      assert Ids.Separator !in "b";
      assert Ids.Split("b") == ["b"];
    }
    assert Walk(Obj(api), ["a", "b"]) == Walk(Obj(map["b" := Func(f)]), ["b"]);
    assert Walk(Obj(map["b" := Func(f)]), ["b"]) == Walk(Func(f), []);
  }

  /** The prototype of the mock object `mockConstructor` returns: one mirror per manifest method, aimed at `[id, key]`. */
  function MockMethods(path: seq<string>, id: string, d: Rpcify.Descriptor): (m: map<string, Mirror>)
    ensures m.Keys == set k | k in d.methods
    ensures forall k :: k in m ==> m[k].FunctionMirror? && m[k].path == path && m[k].opts == Some(Rpcify.MethodRef(id, k))
  {
    map k | k in d.methods :: FunctionMirror(path, Some(Rpcify.MethodRef(id, k)))
  }

  /**
   * What `mockConstructor` returns: an instance of the anonymous function `makeMockObject`
   * stores under the type name, whose prototype holds the method mirrors; `typeName` is that
   * name, the key it is stored under, not a name the object carries.
   */
  datatype MockObject = MockObject(typeName: string, methods: map<string, Mirror>)

  /**
   * `new (makeMockObject(manifest))()` for call `id`. Without a type name the mock class is
   * assigned to the read-only global `undefined`, which sloppy mode ignores, so reading it back
   * throws: at `.prototype` when there are methods to install, else at `new`.
   */
  function MockOf(path: seq<string>, id: string, d: Rpcify.Descriptor): (o: Outcome<MockObject>)
    ensures o.Threw? <==> d.name.None?
    ensures o.Returned? ==> o.value.typeName == d.name.value && o.value.methods == MockMethods(path, id, d)
  {
    match d.name
    case None =>
      Threw(if |d.methods| > 0 then "Cannot read properties of undefined (reading 'prototype')"
            else "MockObject is not a constructor")
    case Some(n) => Returned(MockObject(n, MockMethods(path, id, d)))
  }

  /** The wrappers in an API tree. */
  ghost function WrappersOf(v: ApiValue): set<Rpcify.RPCify> {
    match v
    case Rpcified(w) => {w}
    case Obj(c) => set k, w | k in c && w in WrappersOf(c[k]) :: w
    case _ => {}
  }

  /** A wrapper the walk reaches is one of the tree's wrappers. */
  lemma {:induction false} WalkStaysInTree(v: ApiValue, p: seq<string>, w: Rpcify.RPCify)
    requires Walk(v, p) == Returned(Rpcified(w))
    ensures w in WrappersOf(v)
    decreases |p|
  {
    if p != [] && v.Obj? && p[0] in v.children {
      WalkStaysInTree(v.children[p[0]], p[1..], w);
    } else if p != [] && !v.Undefined? {
      UndefinedWalk(p[1..]);
    }
  }

  /** Every wrapper `onCall` routes to belongs to the API. */
  lemma RouteStaysInTree(api: map<string, ApiValue>, name: string, opts: Option<Rpcify.MethodRef>)
    ensures RouteCall(api, name, opts).NewInstance? ==> RouteCall(api, name, opts).w in WrappersOf(Obj(api))
    ensures RouteCall(api, name, opts).InstanceCall? ==> RouteCall(api, name, opts).w in WrappersOf(Obj(api))
  {
    var route := RouteCall(api, name, opts);
    if route.NewInstance? || route.InstanceCall? {
      WalkStaysInTree(Obj(api), Ids.Split(name), route.w);
    }
  }
}
