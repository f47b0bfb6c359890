/**
 * `RPCify`: a wrapper that exposes a constructor (or an existing object) to the peer. It
 * fills in option defaults, computes the method manifest the peer's mock objects are built
 * from, keeps the instances it created per call ID, and routes method calls to them through
 * an optional veto predicate and override handlers.
 *
 * User code is opaque: constructors, factories, methods, overrides and the veto predicate are
 * Dafny functions over an instance's own fields.
 */
module Rpcify {
  import opened Wrappers
  import opened Values

  /** The own properties of an instance. */
  type Fields = map<string, Value>

  /** A method or override handler: its effect on the instance it runs on (`this`). */
  type Method = (Fields, seq<Value>) -> Fields

  /** The `check(obj, name, args)` veto predicate. */
  type Check = (Fields, string, seq<Value>) -> bool

  /** An object as built by a constructor or a factory: its fields and the methods it responds to. */
  datatype Built = Built(fields: Fields, methods: map<string, Method>)

  /** `opts.factory(...args)`; `None` is a falsy result. */
  type Factory = seq<Value> -> Option<Built>

  /** The prototype as the manifest sees it: `Object.keys(proto)` in order, and the names whose value is a function. */
  datatype Proto = Proto(keys: seq<string>, functions: set<string>)

  /** What `rpcify` was given: a constructor (with `.prototype`) or an object without one. */
  datatype Target =
    | Constructor(name: string, prototype: Proto, construct: seq<Value> -> Built)
    | Instance(ownName: Option<string>, protoOf: Proto)

  /** `this.Cr.prototype`, else `Object.getPrototypeOf(this.Cr)`. */
  function ProtoOf(cr: Target): Proto {
    match cr
    case Constructor(_, p, _) => p
    case Instance(_, p) => p
  }

  /** `this.Cr.name`. */
  function NameOf(cr: Target): Option<string> {
    match cr
    case Constructor(n, _, _) => Some(n)
    case Instance(n, _) => n
  }

  /** The effective options. `include`, `factory` and `check` are `None` for null. */
  datatype Options = Options(
    skipPrivate: bool,
    includeList: Option<seq<string>>,
    exclude: seq<string>,
    override: map<string, Method>,
    factory: Option<Factory>,
    check: Option<Check>)

  /**
   * The options a caller passes; `None` is an absent key. For `include`, `factory` and
   * `check`, an explicit null and an absent key have the same effect.
   */
  datatype UserOptions = UserOptions(
    skipPrivate: Option<bool>,
    includeList: Option<seq<string>>,
    exclude: Option<seq<string>>,
    override: Option<map<string, Method>>,
    factory: Option<Factory>,
    check: Option<Check>)

  function OrElse<T>(o: Option<T>, otherwise: T): T {
    if o.Some? then o.value else otherwise
  }

  /** `Object.assign({defaults}, opts)`: each key the caller gives wins, every other key keeps its default. */
  function WithDefaults(u: UserOptions): (o: Options)
    ensures o.skipPrivate == (u.skipPrivate != Some(false))
    ensures u.exclude.None? ==> o.exclude == []
    ensures u.override.None? ==> o.override == map[]
    ensures o.includeList == u.includeList && o.factory == u.factory && o.check == u.check
    ensures u.exclude.Some? ==> o.exclude == u.exclude.value
    ensures u.override.Some? ==> o.override == u.override.value
  {
    Options(OrElse(u.skipPrivate, true), u.includeList, OrElse(u.exclude, []),
            OrElse(u.override, map[]), u.factory, u.check)
  }

  /** No options at all. */
  const NoOptions := UserOptions(None, None, None, None, None, None)

  /** `key.substr(0, 1) === '_'`. */
  predicate IsPrivate(key: string) {
    |key| >= 1 && key[0] == '_'
  }

  /** The filter predicate applied to prototype keys when no include list is given. */
  predicate Kept(o: Options, key: string) {
    !(o.skipPrivate && IsPrivate(key)) && key !in o.exclude
  }

  /** `Array.prototype.filter`: the elements `keep` accepts, in order, each as often as it occurs. */
  function Filter(s: seq<string>, keep: string -> bool): (r: seq<string>)
    ensures |r| <= |s|
    ensures forall k :: k in r <==> k in s && keep(k)
  {
    if s == [] then []
    else
      assert s == [s[0]] + s[1..];
      (if keep(s[0]) then [s[0]] else []) + Filter(s[1..], keep)
  }

  /** Each accepted element is kept as often as it occurs, each rejected one dropped. */
  lemma {:induction false} FilterCount(s: seq<string>, keep: string -> bool, k: string)
    ensures multiset(Filter(s, keep))[k] == if keep(k) then multiset(s)[k] else 0
  {
    if s != [] {
      assert s == [s[0]] + s[1..];
      FilterCount(s[1..], keep, k);
    }
  }

  /** Filtering distributes over concatenation, so it keeps the relative order of what it keeps. */
  lemma {:induction false} FilterAppend(s: seq<string>, t: seq<string>, keep: string -> bool)
    ensures Filter(s + t, keep) == Filter(s, keep) + Filter(t, keep)
  {
    if s != [] {
      assert (s + t)[0] == s[0];
      assert (s + t)[1..] == s[1..] + t;
      FilterAppend(s[1..], t, keep);
      var head := if keep(s[0]) then [s[0]] else [];
      assert Filter(s + t, keep) == head + Filter(s[1..] + t, keep);
      assert Filter(s, keep) == head + Filter(s[1..], keep);
    } else {
      assert s + t == t;
    }
  }

  /** The keys `toManifest` considers: the include list as given, else the filtered prototype keys. */
  function CandidateKeys(o: Options, p: Proto): seq<string> {
    if o.includeList.Some? then o.includeList.value else Filter(p.keys, k => Kept(o, k))
  }

  /** `typeof proto[key] === 'function'`. */
  function IsMethod(p: Proto): string -> bool {
    k => k in p.functions
  }

  /** The method names of the manifest: the candidate keys whose prototype value is a function. */
  function MethodNames(o: Options, p: Proto): seq<string> {
    Filter(CandidateKeys(o, p), IsMethod(p))
  }

  /**
   * With an include list, the methods are exactly its function-valued entries, in order and
   * with repetitions; `skipPrivate` and `exclude` play no part.
   */
  lemma IncludeListLaw(o: Options, p: Proto)
    requires o.includeList.Some?
    ensures MethodNames(o, p) == Filter(o.includeList.value, IsMethod(p))
    ensures MethodNames(o, p) == MethodNames(o.(skipPrivate := false, exclude := []), p)
    ensures forall k :: k in MethodNames(o, p) <==> k in o.includeList.value && k in p.functions
  {
  }

  /**
   * Without one, a key is a method exactly when it is an own enumerable prototype key, not
   * private while `skipPrivate` is set, not excluded, and a function; the key order is kept.
   */
  lemma DefaultFilterLaw(o: Options, p: Proto, k: string)
    requires o.includeList.None?
    ensures k in MethodNames(o, p) <==>
      k in p.keys && !(o.skipPrivate && IsPrivate(k)) && k !in o.exclude && k in p.functions
  {
  }

  /** What `toManifest` returns. */
  datatype Descriptor = Descriptor(name: Option<string>, methods: seq<string>)

  /** A method's target on the peer's side: `[instanceId, method]`. */
  datatype MethodRef = MethodRef(id: string, name: string)

  /** What `makeCall` does once it has found the instance. */
  datatype Plan = Vetoed | Run(next: Fields) | Throws(reason: string)

  /**
   * The members of `Object.prototype` that leave an instance's own properties as they are
   * when applied to it. `override[name]` finds them whatever the override table holds, since
   * the default `{}`, like any object literal, inherits them.
   */
  const InertMembers: set<string> :=
    {"constructor", "hasOwnProperty", "isPrototypeOf", "propertyIsEnumerable", "toString", "valueOf",
     "__lookupGetter__", "__lookupSetter__"}

  /** Every member of `Object.prototype` the override lookup can find. */
  const ObjectMembers: set<string> :=
    InertMembers + {"toLocaleString", "__defineGetter__", "__defineSetter__", "__proto__"}

  /**
   * `Object.prototype[name].apply(instance, args)`: `toLocaleString` calls `this.toString()`,
   * which finds an own property before the instance's method; `__proto__` is an object, whose
   * `apply` is undefined; an accessor definition needs a function as its second argument.
   */
  function ApplyObjectMember(f: Fields, methods: map<string, Method>, name: string, args: seq<Value>): (p: Plan)
    requires name in ObjectMembers
    ensures name in InertMembers ==> p == Run(f)
    ensures name == "__proto__" ==> p.Throws?
    ensures name == "toLocaleString" && "toString" !in f ==>
      p == Run(if "toString" in methods then methods["toString"](f, []) else f)
    ensures p.Throws? <==>
      || name == "__proto__"
      || (name in {"__defineGetter__", "__defineSetter__"} && !(|args| >= 2 && args[1].Function?))
      || (name == "toLocaleString" && "toString" in f && !f["toString"].Function?)
  {
    if name in InertMembers then Run(f)
    else if name == "toLocaleString" then
      if "toString" in f then OwnFunction(f, "toString")
      else Run(if "toString" in methods then methods["toString"](f, []) else f)
    else if name == "__proto__" then Throws("override[name].apply is not a function")
    else if |args| >= 2 && args[1].Function? then Run(f)
    else Throws("Expecting function")
  }

  /**
   * Applying an own property of the instance: a value that is not a function has no `apply`.
   * What a function-valued property does when called is not modelled; the instance keeps its state.
   */
  function OwnFunction(f: Fields, name: string): (p: Plan)
    requires name in f
    ensures p.Throws? <==> !f[name].Function?
    ensures !p.Throws? ==> p == Run(f)
  {
    if f[name].Function? then Run(f) else Throws("this.cache[id][name].apply is not a function")
  }

  /**
   * The veto comes first; then whatever `override[name]` finds: an override handler, else a
   * member of `Object.prototype`, which shadows the instance's own method of that name; only
   * then `cache[id][name]`, which finds an own property before the instance's method; a
   * missing method throws.
   */
  function Dispatch(o: Options, f: Fields, methods: map<string, Method>, name: string, args: seq<Value>): (p: Plan)
    ensures p.Vetoed? <==> o.check.Some? && !o.check.value(f, name, args)
    ensures !p.Vetoed? && name in o.override ==> p == Run(o.override[name](f, args))
    ensures !p.Vetoed? && name !in o.override && name in ObjectMembers ==> p == ApplyObjectMember(f, methods, name, args)
    ensures !p.Vetoed? && name !in o.override && name !in ObjectMembers && name in f ==>
      (p.Throws? <==> !f[name].Function?) && (!p.Throws? ==> p == Run(f))
    ensures !p.Vetoed? && name !in o.override && name !in ObjectMembers && name !in f ==>
      (p.Throws? <==> name !in methods) && (name in methods ==> p == Run(methods[name](f, args)))
  {
    if o.check.Some? && !o.check.value(f, name, args) then Vetoed
    else if name in o.override then Run(o.override[name](f, args))
    else if name in ObjectMembers then ApplyObjectMember(f, methods, name, args)
    else if name in f then OwnFunction(f, name)
    else if name in methods then Run(methods[name](f, args))
    else Throws("this.cache[id][name] is undefined")
  }

  /** A method of the instance named like a member of `Object.prototype` is never reached: replacing or removing it changes nothing. */
  lemma ObjectMembersShadow(o: Options, f: Fields, methods: map<string, Method>, name: string, args: seq<Value>, m: Method)
    requires name in ObjectMembers
    ensures Dispatch(o, f, methods[name := m], name, args) == Dispatch(o, f, methods - {name}, name, args)
  {
    if name == "toLocaleString" {
      assert "toString" != name;
      assert ("toString" in methods[name := m]) == ("toString" in methods - {name});
    }
  }

  /** An own property shadows the instance's method of the same name: replacing or removing the method changes nothing. */
  lemma OwnFieldShadowsMethod(o: Options, f: Fields, methods: map<string, Method>, name: string, args: seq<Value>, m: Method)
    requires name !in o.override && name !in ObjectMembers && name in f
    ensures Dispatch(o, f, methods[name := m], name, args) == Dispatch(o, f, methods - {name}, name, args)
  {
  }

  /** An instance created by `makeNew`. */
  class Obj {
    var fields: Fields
    const methods: map<string, Method>

    constructor (b: Built)
      ensures fields == b.fields && methods == b.methods
    {
      fields := b.fields;
      methods := b.methods;
    }
  }

  class RPCify {
    const Cr: Target
    const opts: Options
    /** `this.cache`; `null` stands for a falsy factory result. */
    var cache: map<string, Obj?>

    /** Distinct call IDs hold distinct instances. */
    ghost predicate Valid()
      reads this
    {
      forall i, j :: i in cache && j in cache && i != j && cache[i] != null ==> cache[i] != cache[j]
    }

    /** The instances held. */
    ghost function Instances(): set<Obj>
      reads this
    {
      set k | k in cache && cache[k] != null :: cache[k]
    }

    /** `RPCify(constructor, opts)`: the defaults filled in and an empty cache. */
    constructor (cr: Target, user: UserOptions)
      ensures Cr == cr && opts == WithDefaults(user) && cache == map[]
      ensures Valid()
    {
      Cr := cr;
      opts := WithDefaults(user);
      cache := map[];
    }

    /** The manifest entry of this wrapper. */
    function Describe(): Descriptor {
      Descriptor(NameOf(Cr), MethodNames(opts, ProtoOf(Cr)))
    }

    /** `toManifest()`: push each candidate key whose prototype value is a function. */
    method ToManifest() returns (d: Descriptor)
      ensures d == Describe()
      ensures forall k :: k in d.methods ==> k in CandidateKeys(opts, ProtoOf(Cr)) && k in ProtoOf(Cr).functions
    {
      var proto := ProtoOf(Cr);
      var keys := CandidateKeys(opts, proto);
      var methods: seq<string> := [];
      var i := 0;
      while i < |keys|
        invariant 0 <= i <= |keys|
        invariant methods == Filter(keys[..i], IsMethod(proto))
      {
        FilterAppend(keys[..i], [keys[i]], IsMethod(proto));
        assert keys[..i + 1] == keys[..i] + [keys[i]];
        if keys[i] in proto.functions {
          methods := methods + [keys[i]];
        }
        i := i + 1;
      }
      assert keys[..i] == keys;
      d := Descriptor(NameOf(Cr), methods);
    }

    /** How `makeNew` obtains the object: the factory if configured, else `new Cr(...args)`, which throws for an object. */
    function Construction(args: seq<Value>): Outcome<Option<Built>> {
      if opts.factory.Some? then Returned(opts.factory.value(args))
      else if Cr.Constructor? then Returned(Some(Cr.construct(args)))
      else Threw("Cr is not a constructor")
    }

    /** `makeNew(id, args)`: build the object and store it at `cache[id]`, replacing what was there. */
    method MakeNew(id: string, args: seq<Value>) returns (o: Outcome<Obj?>)
      requires Valid()
      modifies this`cache
      ensures Valid()
      ensures Construction(args).Threw? <==> o.Threw?
      ensures o.Threw? ==> cache == old(cache)
      ensures o.Returned? ==> cache == old(cache)[id := o.value]
      ensures o.Returned? ==> (o.value == null <==> Construction(args).value.None?)
      ensures o.Returned? && o.value != null ==>
        fresh(o.value) && o.value.fields == Construction(args).value.value.fields
        && o.value.methods == Construction(args).value.value.methods
    {
      match Construction(args)
      case Threw(e) =>
        o := Threw(e);
      case Returned(b) =>
        var obj: Obj? := null;
        if b.Some? {
          obj := new Obj(b.value);
        }
        cache := cache[id := obj];
        o := Returned(obj);
    }

    /** The instances `makeCall(m, args)` may change: the one at `cache[m.id]`, if any. */
    ghost function Target(m: MethodRef): set<Obj>
      reads this
    {
      if m.id in cache && cache[m.id] != null then {cache[m.id]} else {}
    }

    /**
     * `makeCall([id, name], args)`: nothing happens on a cache miss or a veto; otherwise the
     * plan `Dispatch` makes is carried out on that instance.
     * The cache itself never changes and nothing is returned.
     */
    method MakeCall(m: MethodRef, args: seq<Value>) returns (o: Outcome<()>)
      requires Valid()
      modifies Target(m)
      ensures Valid() && cache == old(cache)
      ensures Target(m) == {} ==> o == Returned(())
      ensures Target(m) != {} ==>
        var obj := cache[m.id];
        var plan := Dispatch(opts, old(obj.fields), obj.methods, m.name, args);
        && (plan.Run? ==> o == Returned(()) && obj.fields == plan.next)
        && (plan.Vetoed? ==> o == Returned(()) && obj.fields == old(obj.fields))
        && (plan.Throws? ==> o == Threw(plan.reason) && obj.fields == old(obj.fields))
      ensures forall k :: k in cache && k != m.id && cache[k] != null ==> cache[k].fields == old(cache[k].fields)
    {
      if m.id !in cache || cache[m.id] == null {
        return Returned(());
      }
      var obj := cache[m.id];
      match Dispatch(opts, obj.fields, obj.methods, m.name, args)
      case Vetoed =>
        o := Returned(());
      case Run(next) =>
        obj.fields := next;
        o := Returned(());
      case Throws(e) =>
        o := Threw(e);
    }
  }

  /** `MyClass` of the object tests: a key, an init flag and a prefix; `setPrefix` replaces the prefix, `getUpper` only reads. */
  function MyClassProto(): Proto {
    Proto(["setPrefix", "getUpper", "_private"], {"setPrefix", "getUpper", "_private"})
  }

  function SetPrefix(f: Fields, args: seq<Value>): Fields {
    f["prefix" := if |args| > 0 then args[0] else Plain(JNull)]
  }

  function GetUpper(f: Fields, args: seq<Value>): Fields {
    f
  }

  function MyClassNew(args: seq<Value>): Built {
    Built(map["key" := if |args| > 0 then args[0] else Plain(JNull), "init" := Plain(JBool(true)), "prefix" := Plain(JStr(""))],
          map["setPrefix" := SetPrefix, "getUpper" := GetUpper, "_private" := GetUpper])
  }

  function MyClass(): Target {
    Constructor("MyClass", MyClassProto(), MyClassNew)
  }

  /** The object tests' default manifest: private methods are skipped. */
  lemma MyClassManifest()
    ensures MethodNames(WithDefaults(NoOptions), MyClassProto()) == ["setPrefix", "getUpper"]
  {
    var p := MyClassProto();
    assert Filter(p.keys, k => Kept(WithDefaults(NoOptions), k)) == ["setPrefix", "getUpper"] by {
      assert p.keys[1..][1..][1..] == [];
    }
  }

  /** With `skipPrivate: false` the private method is kept too. */
  lemma MyClassManifestWithPrivate()
    ensures MethodNames(WithDefaults(NoOptions.(skipPrivate := Some(false))), MyClassProto())
      == ["setPrefix", "getUpper", "_private"]
  {
    assert MyClassProto().keys[1..][1..][1..] == [];
  }

  /** An include list or an exclude list picks the methods by name. */
  lemma MyClassManifestSelected()
    ensures MethodNames(WithDefaults(NoOptions.(includeList := Some(["getUpper"]))), MyClassProto()) == ["getUpper"]
    ensures MethodNames(WithDefaults(NoOptions.(exclude := Some(["getUpper"]))), MyClassProto()) == ["setPrefix"]
  {
    assert MyClassProto().keys[1..][1..][1..] == [];
  }

  /** `setPrefix('hello ')` on an instance of the test class, under the default options, runs the method. */
  lemma SetPrefixPlan(f: Fields)
    requires "setPrefix" !in f
    ensures Dispatch(WithDefaults(NoOptions), f, MyClassNew([]).methods, "setPrefix", [Plain(JStr("hello "))])
      == Run(f["prefix" := Plain(JStr("hello "))])
  {
    assert "setPrefix" !in ObjectMembers;
  }

  /** Two instances made under different IDs: a method call on the first leaves the second as it was, and a call to an unknown ID does nothing. */
  method TwoInstances() returns (prefixA: Value, prefixB: Value, miss: Outcome<()>)
    ensures prefixA == Plain(JStr("hello ")) && prefixB == Plain(JStr(""))
    ensures miss == Returned(())
  {
    var w := new RPCify(MyClass(), NoOptions);
    var first := w.MakeNew("A.0", [Plain(JStr("moon"))]);
    assert first.Returned? && first.value != null;
    var a := first.value;
    assert a.fields == MyClassNew([Plain(JStr("moon"))]).fields && a.methods == MyClassNew([]).methods;
    var second := w.MakeNew("A.1", [Plain(JStr("this"))]);
    assert second.Returned? && second.value != null;
    var b := second.value;
    assert b.fields == MyClassNew([Plain(JStr("this"))]).fields;
    assert w.Target(MethodRef("A.2", "setPrefix")) == {};
    miss := w.MakeCall(MethodRef("A.2", "setPrefix"), []);
    assert b.fields["prefix"] == Plain(JStr(""));
    assert w.Target(MethodRef("A.0", "setPrefix")) == {a};
    SetPrefixPlan(a.fields);
    var r := w.MakeCall(MethodRef("A.0", "setPrefix"), [Plain(JStr("hello "))]);
    prefixA, prefixB := a.fields["prefix"], b.fields["prefix"];
  }
}
