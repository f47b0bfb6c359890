/**
 * `HypeRPC`: one end of a session. It sends its manifest on creation, negotiates a prefix
 * with the peer, turns the peer's manifest into a mirror tree, and handles the inbound
 * messages: MANIFEST at once, CALL / FULFIL_CALLBACK / FULFIL_PROMISE once the session is
 * ready, in arrival order.
 *
 * Deferred work (`thunky` callbacks, promise settlement, user code calling mirrors and
 * stubs) is driven from outside: each such event is a method the environment calls.
 * Deferred callbacks run in the order they were scheduled, which is the order `nextTick`
 * keeps. An exception escaping a handler ends the process; `crashed` records that, and
 * nothing happens afterwards.
 */
module Session {
  import opened Wrappers
  import opened Values
  import opened Streams
  import opened Marshal
  import opened Manifest
  import Ids
  import Rpcify

  /** The message types of the control channel. */
  const MANIFEST: int := 1
  const CALL: int := 2
  const FULFIL_CALLBACK: int := 3
  const FULFIL_PROMISE: int := 4

  /** The settlement kinds of a FULFIL_PROMISE message. */
  const PROMISE_RESOLVE: int := 0
  const PROMISE_REJECT: int := 1

  /** One message of the control channel, after its JSON round trip. */
  datatype Message =
    | ManifestMsg(manifest: map<string, Entry>, nonce: int)
    | Call(name: string, id: string, opts: Option<Rpcify.MethodRef>, args: seq<WireArg>)
    | FulfilCallback(id: string, args: seq<WireArg>)
    | FulfilPromise(id: string, kind: int, args: seq<WireArg>)
    | Unrecognized(kind: int)

  /** The type field each message is sent with. */
  function TypeOf(m: Message): int {
    match m
    case ManifestMsg(_, _) => MANIFEST
    case Call(_, _, _, _) => CALL
    case FulfilCallback(_, _) => FULFIL_CALLBACK
    case FulfilPromise(_, _, _) => FULFIL_PROMISE
    case Unrecognized(k) => k
  }

  /** The messages `onData` defers behind the ready gate; FULFIL_PROMISE only in promise mode. */
  predicate Gated(m: Message, promise: bool) {
    m.Call? || m.FulfilCallback? || (m.FulfilPromise? && promise)
  }

  /** The state of a promise a mirror call returned. */
  datatype Settlement = Pending | Fulfilled(value: Option<Value>) | Rejected(reason: Option<Value>)

  /** `resolve(...args)` / `reject(...args)`: the first argument settles a pending promise; a settled one stays as it is. */
  function Settle(s: Settlement, kind: int, args: seq<Value>): (r: Settlement)
    requires kind == PROMISE_RESOLVE || kind == PROMISE_REJECT
    ensures !s.Pending? ==> r == s
    ensures s.Pending? ==> !r.Pending?
  {
    var first := if |args| > 0 then Some(args[0]) else None;
    if !s.Pending? then s
    else if kind == PROMISE_RESOLVE then Fulfilled(first)
    else Rejected(first)
  }

  /** A promise settles once: a later settlement of either kind changes nothing. */
  lemma SettleOnce(s: Settlement, k1: int, a1: seq<Value>, k2: int, a2: seq<Value>)
    requires k1 == PROMISE_RESOLVE || k1 == PROMISE_REJECT
    requires k2 == PROMISE_RESOLVE || k2 == PROMISE_REJECT
    ensures Settle(Settle(s, k1, a1), k2, a2) == Settle(s, k1, a1)
  {
  }

  /** A call of a local function (user code) with the arguments it received. */
  datatype Application = Application(handle: nat, args: seq<Value>)

  /** `Math.round(Math.random() * 10000000)`. */
  type Nonce = n: nat | n <= 10000000

  /** `opts.prefix || null`. */
  function InitialPrefix(p: Option<string>): (r: Option<string>)
    ensures r.Some? ==> r.value != ""
    ensures p.Some? && p.value != "" ==> r == p
  {
    if p.Some? && p.value != "" then p else None
  }

  class HypeRPC {
    /** `opts.promise`. */
    const promise: bool
    const nonce: Nonce
    /** `api || []`. */
    const api: map<string, ApiValue>
    /** Whether a local function's result for these arguments is a thenable (user code). */
    const returnsThenable: (nat, seq<Value>) -> bool
    /** The `RPCify` wrappers reachable in the API. */
    ghost const wrappers: set<Rpcify.RPCify>

    var prefix: Option<string>
    var remote: Option<map<string, Mirror>>
    var cnt: nat
    var callbacks: map<string, FnRef>
    var transports: map<string, Channel>
    var pumps: seq<Pump>
    var promises: map<string, Settlement>
    /** Everything written to the control channel, in order. */
    var outbox: seq<Message>
    /** Every call of a local function, in order. */
    var applied: seq<Application>
    /** Call IDs whose result is a thenable that has not settled yet. */
    var awaiting: multiset<string>
    /** Whether `'remote'` has been emitted, which opens the ready gate. */
    var ready: bool
    /** Deferred handlers waiting for the ready gate. */
    var queue: seq<Message>
    var crashed: bool

    /** The IDs `makeId` returned, and the prefix each was made under. */
    ghost var issued: seq<string>
    ghost var issuedUnder: seq<string>
    /** The gated messages accepted, in arrival order, and those whose handlers have run. */
    ghost var admitted: seq<Message>
    ghost var handled: seq<Message>
    /** The instances the API's wrappers hold; it only grows. */
    ghost var owned: set<Rpcify.Obj>

    /** The registries `convertArgs` writes. */
    function Reg(): Registry
      reads this
    {
      Registry(callbacks, transports, pumps)
    }


    /** Every ID issued is `joinIds` of the prefix in force and the counter value; promises are keyed by issued IDs. */
    ghost predicate IdsCoherent()
      reads this`cnt, this`issued, this`issuedUnder, this`promises, this`prefix
    {
      && |issued| == cnt && |issuedUnder| == cnt
      && (forall k :: 0 <= k < cnt ==> issued[k] == Ids.Id(issuedUnder[k], k))
      && (forall id :: id in promises ==> id in issued)
      && (prefix.Some? ==> prefix.value != "")
    }

    /** Every wrapper in the API keeps its cache coherent, and `owned` covers the instances it holds. */
    ghost predicate WrappersValid()
      reads this`owned, wrappers
    {
      WrappersCoherent() && Covered()
    }

    ghost predicate WrappersCoherent()
      reads wrappers
    {
      && wrappers == WrappersOf(Obj(api))
      && forall w :: w in wrappers ==> w.Valid()
    }

    ghost predicate Covered()
      reads this`owned, wrappers
    {
      forall w :: w in wrappers ==> w.Instances() <= owned
    }

    /** What every handler relies on and keeps. */
    ghost predicate Coherent()
      reads this, wrappers
    {
      IdsCoherent() && WrappersValid()
    }

    /** No wrapper and no instance changed, and the footprint stayed as it was. */
    twostate predicate InstancesAlone()
      reads this`owned, wrappers, owned
    {
      owned == old(owned) && unchanged(wrappers) && unchanged(owned)
    }

    /**
     * What `makeNew(id, args)` on `w` did: the process died exactly when the construction
     * threw, and then nothing changed; otherwise only `cache[id]` changed, to a new instance
     * with the fields and the methods built (null for a falsy factory result). No other
     * wrapper and no instance already there changed.
     */
    twostate predicate InstanceBuilt(w: Rpcify.RPCify, id: string, args: seq<Value>)
      reads this`crashed, this`owned, wrappers, w, w.Instances(), owned
    {
      && old(owned) <= owned
      && (crashed <==> w.Construction(args).Threw?)
      && unchanged(wrappers - {w}) && unchanged(old(owned))
      && (crashed ==> w.cache == old(w.cache))
      && (!crashed ==>
            && id in w.cache && w.cache == old(w.cache)[id := w.cache[id]]
            && (w.cache[id] == null <==> w.Construction(args).value.None?)
            && (w.cache[id] != null ==>
                  && fresh(w.cache[id])
                  && w.cache[id].fields == w.Construction(args).value.value.fields
                  && w.cache[id].methods == w.Construction(args).value.value.methods))
    }

    /**
     * What `makeCall(m, args)` on `w` did: no wrapper changed; the instance at `m.id`, if
     * there is one, went through the plan `Dispatch` made from its fields before the call,
     * and the process died exactly when that plan throws; no other instance changed.
     */
    twostate predicate InstanceCalled(w: Rpcify.RPCify, m: Rpcify.MethodRef, args: seq<Value>)
      reads this`crashed, this`owned, wrappers, w, w.Instances(), owned
    {
      && owned == old(owned) && unchanged(wrappers) && unchanged(w)
      && unchanged(owned - old(w.Target(m)))
      && (old(w.Target(m)) == {} ==> !crashed)
      && (old(w.Target(m)) != {} ==>
            var before := old(w.cache[m.id].fields);
            var plan := Rpcify.Dispatch(w.opts, before, w.cache[m.id].methods, m.name, args);
            && (crashed <==> plan.Throws?)
            && w.cache[m.id].fields == (if plan.Run? then plan.next else before))
    }

    /** The wrappers and the instances are objects other than this one. */
    ghost predicate Apart()
      reads this`owned
    {
      && (forall w :: w in wrappers ==> w as object != this)
      && (forall o :: o in owned ==> o as object != this)
    }

    /**
     * The ready gate: nothing gated runs before the first MANIFEST; afterwards every
     * admitted message has run (unless the process died), in arrival order.
     */
    ghost predicate Valid()
      reads this, wrappers
    {
      && Coherent()
      && (ready <==> remote.Some?)
      && (!ready ==> handled == [])
      && (ready && !crashed ==> queue == [])
      && handled + queue == admitted
    }

    /** `HypeRPC(api, opts)`: send the manifest with a fresh nonce and wait for the peer's. */
    constructor (api: map<string, ApiValue>, promise: bool, prefixOpt: Option<string>, nonce: Nonce,
                 returnsThenable: (nat, seq<Value>) -> bool)
      requires forall w :: w in WrappersOf(Obj(api)) ==> w.Valid()
      ensures Valid()
      ensures this.api == api && this.promise == promise && this.nonce == nonce
      ensures this.returnsThenable == returnsThenable
      ensures prefix == InitialPrefix(prefixOpt) && remote == None && !ready && !crashed
      ensures cnt == 0 && callbacks == map[] && transports == map[] && pumps == [] && promises == map[]
      ensures outbox == [ManifestMsg(MakeManifest(api), nonce)]
      ensures applied == [] && awaiting == multiset{} && queue == []
    {
      this.api := api;
      this.promise := promise;
      this.nonce := nonce;
      this.returnsThenable := returnsThenable;
      this.wrappers := WrappersOf(Obj(api));
      prefix := InitialPrefix(prefixOpt);
      remote := None;
      cnt := 0;
      callbacks := map[];
      transports := map[];
      pumps := [];
      promises := map[];
      outbox := [ManifestMsg(MakeManifest(api), nonce)];
      applied := [];
      awaiting := multiset{};
      ready := false;
      queue := [];
      crashed := false;
      issued := [];
      issuedUnder := [];
      admitted := [];
      handled := [];
      owned := set w, o | w in WrappersOf(Obj(api)) && o in w.Instances() :: o;
    }

    /** `makeId()`: `joinIds(prefix, cnt++)`, a null prefix joining as the empty string. */
    method MakeId() returns (id: string)
      requires IdsCoherent()
      modifies this`cnt, this`issued, this`issuedUnder
      ensures IdsCoherent()
      ensures id == Ids.Id(Rpcify.OrElse(prefix, ""), old(cnt)) && cnt == old(cnt) + 1
      ensures id !in old(issued) && issued == old(issued) + [id]
    {
      var base := Rpcify.OrElse(prefix, "");
      id := Ids.Id(base, cnt);
      forall k | 0 <= k < cnt
        ensures issued[k] != id
      {
        Ids.IdInjective(issuedUnder[k], k, base, cnt);
      }
      issued := issued + [id];
      issuedUnder := issuedUnder + [base];
      cnt := cnt + 1;
    }

    /** `prepareArgs(id, args)`: tag and convert each argument under `joinIds(id, i)`. */
    method PrepareArgs(id: string, args: seq<Value>) returns (wires: seq<WireArg>)
      modifies this`callbacks, this`transports, this`pumps
      ensures wires == Wires(id, args)
      ensures Reg() == RegisterUpTo(old(Reg()), id, args, |args|)
    {
      ghost var r0 := Reg();
      wires := [];
      var i := 0;
      while i < |args|
        invariant 0 <= i <= |args|
        invariant wires == Wires(id, args)[..i]
        invariant Reg() == RegisterUpTo(r0, id, args, i)
      {
        var sub := Ids.Id(id, i);
        var r := PrepareStep(Reg(), args[i], sub);
        callbacks, transports, pumps := r.callbacks, r.transports, r.pumps;
        wires := wires + [PrepareArg(args[i], sub)];
        i := i + 1;
      }
    }

    /** `resolveArgs(id, args)`: resolve each argument by its tag; the first throw ends it. */
    method ResolveArgs(id: string, wires: seq<WireArg>) returns (o: Outcome<seq<Value>>)
      modifies this`transports, this`pumps
      ensures var run := ResolveUpTo(old(Reg()), id, wires, |wires|);
        && Reg() == run.reg
        && (run.failure.Some? ==> o == Threw(run.failure.value))
        && (run.failure.None? ==> o == Returned(run.values))
    {
      ghost var r0 := Reg();
      var values: seq<Value> := [];
      var i := 0;
      while i < |wires|
        invariant 0 <= i <= |wires|
        invariant ResolveUpTo(r0, id, wires, i) == ResolveRun(values, Reg(), None)
      {
        var step := ResolveStep(Reg(), wires[i], Ids.Id(id, i));
        if step.Threw? {
          ResolveUpToStops(r0, id, wires, i + 1);
          FailureSticks(r0, id, wires, i + 1, |wires|);
          return Threw(step.reason);
        }
        ResolveUpToNext(r0, id, wires, i + 1);
        transports, pumps := step.value.reg.transports, step.value.reg.pumps;
        values := values + [step.value.value];
        i := i + 1;
      }
      o := Returned(values);
    }

    /** A stub made by `resolveCallback(sid)` is called: send FULFIL_CALLBACK with the prepared arguments. */
    method FireStub(sid: string, args: seq<Value>)
      modifies this`callbacks, this`transports, this`pumps, this`outbox
      ensures outbox == old(outbox) + [FulfilCallback(sid, Wires(sid, args))]
      ensures Reg() == RegisterUpTo(old(Reg()), sid, args, |args|)
    {
      var wires := PrepareArgs(sid, args);
      outbox := outbox + [FulfilCallback(sid, wires)];
    }

    /** `func.apply(func, args)` for a function value; says whether the result is a thenable. */
    method Invoke(f: FnRef, args: seq<Value>) returns (thenable: bool)
      modifies this`callbacks, this`transports, this`pumps, this`outbox, this`applied
      ensures f.Local? ==> && applied == old(applied) + [Application(f.handle, args)]
                           && thenable == returnsThenable(f.handle, args)
                           && outbox == old(outbox) && Reg() == old(Reg())
      ensures f.Stub? ==> && applied == old(applied) && !thenable
                          && outbox == old(outbox) + [FulfilCallback(f.id, Wires(f.id, args))]
                          && Reg() == RegisterUpTo(old(Reg()), f.id, args, |args|)
    {
      match f
      case Local(h) =>
        applied := applied + [Application(h, args)];
        thenable := returnsThenable(h, args);
      case Stub(sid) =>
        FireStub(sid, args);
        thenable := false;
    }

    /**
     * `onCall([name, id, opts, args])`: resolve the arguments, walk the API along the name,
     * then build an instance (null opts on a wrapper), route a method call (other opts on a
     * wrapper), or apply the function; only a thenable result of a local function, in promise
     * mode, is awaited for a FULFIL_PROMISE reply. The walk reads nothing the resolution
     * writes, so each route resolves the arguments itself.
     */
    method OnCall(name: string, id: string, opts: Option<Rpcify.MethodRef>, wires: seq<WireArg>)
      requires WrappersValid() && !crashed
      modifies this`callbacks, this`transports, this`pumps, this`outbox, this`applied, this`awaiting, this`crashed
      modifies this`owned, wrappers, owned
      ensures WrappersValid() && fresh(owned - old(owned))
      ensures old(callbacks).Keys <= callbacks.Keys
      ensures var run := ResolveUpTo(old(Reg()), id, wires, |wires|);
        var route := RouteCall(api, name, opts);
        && (run.failure.Some? || route.Fails? ==>
              && crashed && Reg() == run.reg && outbox == old(outbox) && applied == old(applied) && awaiting == old(awaiting)
              && InstancesAlone())
        && (run.failure.None? && route.NewInstance? ==>
              && Reg() == run.reg && outbox == old(outbox) && applied == old(applied) && awaiting == old(awaiting)
              && InstanceBuilt(route.w, id, run.values))
        && (run.failure.None? && route.InstanceCall? ==>
              && Reg() == run.reg && outbox == old(outbox) && applied == old(applied) && awaiting == old(awaiting)
              && InstanceCalled(route.w, route.m, run.values))
        && (run.failure.None? && route.Apply? ==>
              && !crashed && InstancesAlone()
              && awaiting == old(awaiting) + (if promise && route.fn.Local? && returnsThenable(route.fn.handle, run.values)
                                              then multiset{id} else multiset{})
              && (route.fn.Local? ==>
                    applied == old(applied) + [Application(route.fn.handle, run.values)]
                    && outbox == old(outbox) && Reg() == run.reg)
              && (route.fn.Stub? ==>
                    applied == old(applied)
                    && outbox == old(outbox) + [FulfilCallback(route.fn.id, Wires(route.fn.id, run.values))]
                    && Reg() == RegisterUpTo(run.reg, route.fn.id, run.values, |run.values|)))
    {
      assert Apart();
      RouteStaysInTree(api, name, opts);
      match RouteCall(api, name, opts)
      case Fails(_) =>
        var _ := ResolveArgs(id, wires);
        crashed := true;
      case NewInstance(w) =>
        NewInstance(w, id, wires);
      case InstanceCall(w, m) =>
        CallInstance(w, m, id, wires);
      case Apply(f) =>
        ApplyFunction(f, id, wires);
    }

    /** `func.makeNew(id, args)` on a wrapper of the API, after the arguments resolve; the new instance joins the footprint. */
    method NewInstance(w: Rpcify.RPCify, id: string, wires: seq<WireArg>)
      requires WrappersValid() && Apart() && w in wrappers && !crashed
      modifies this`transports, this`pumps, w`cache, this`owned, this`crashed
      ensures WrappersValid() && fresh(owned - old(owned))
      ensures var run := ResolveUpTo(old(Reg()), id, wires, |wires|);
        && Reg() == run.reg
        && (run.failure.Some? ==> crashed && InstancesAlone())
        && (run.failure.None? ==> InstanceBuilt(w, id, run.values))
    {
      var resolved := ResolveArgs(id, wires);
      if resolved.Threw? {
        crashed := true;
        return;
      }
      var o := w.MakeNew(id, resolved.value);
      crashed := o.Threw?;
      if o.Returned? && o.value != null {
        owned := owned + {o.value};
      }
      forall x | x in w.Instances()
        ensures x in owned
      {
        var k :| k in w.cache && w.cache[k] != null && w.cache[k] == x;
        if k != id {
          assert x in old(w.Instances());
        }
      }
    }

    /** `func.makeCall(opts, args)` on a wrapper of the API, after the arguments resolve; it changes at most the instance it names. */
    method CallInstance(w: Rpcify.RPCify, m: Rpcify.MethodRef, id: string, wires: seq<WireArg>)
      requires WrappersValid() && Apart() && w in wrappers && !crashed
      modifies this`transports, this`pumps, owned, this`crashed
      ensures WrappersValid()
      ensures var run := ResolveUpTo(old(Reg()), id, wires, |wires|);
        && Reg() == run.reg
        && (run.failure.Some? ==> crashed && InstancesAlone())
        && (run.failure.None? ==> InstanceCalled(w, m, run.values))
    {
      var resolved := ResolveArgs(id, wires);
      if resolved.Threw? {
        crashed := true;
        return;
      }
      if m.id in w.cache && w.cache[m.id] != null {
        assert w.cache[m.id] in w.Instances();
      }
      assert w.Target(m) <= owned;
      var o := w.MakeCall(m, resolved.value);
      crashed := o.Threw?;
    }

    /** `func.apply(func, args)` after the arguments resolve; a thenable result of a local function is awaited in promise mode. */
    method ApplyFunction(f: FnRef, id: string, wires: seq<WireArg>)
      requires !crashed
      modifies this`callbacks, this`transports, this`pumps, this`outbox, this`applied, this`awaiting, this`crashed
      ensures var run := ResolveUpTo(old(Reg()), id, wires, |wires|);
        && (run.failure.Some? ==>
              crashed && Reg() == run.reg && outbox == old(outbox) && applied == old(applied) && awaiting == old(awaiting))
        && (run.failure.None? ==> !crashed)
        && (run.failure.None? ==>
              awaiting == old(awaiting) + (if promise && f.Local? && returnsThenable(f.handle, run.values)
                                           then multiset{id} else multiset{}))
        && (run.failure.None? && f.Local? ==>
              && applied == old(applied) + [Application(f.handle, run.values)]
              && outbox == old(outbox) && Reg() == run.reg)
        && (run.failure.None? && f.Stub? ==>
              && applied == old(applied)
              && outbox == old(outbox) + [FulfilCallback(f.id, Wires(f.id, run.values))]
              && Reg() == RegisterUpTo(run.reg, f.id, run.values, |run.values|))
    {
      var resolved := ResolveArgs(id, wires);
      if resolved.Threw? {
        crashed := true;
        return;
      }
      var thenable := Invoke(f, resolved.value);
      if promise && thenable {
        awaiting := awaiting + multiset{id};
      }
    }

    /** `fulfilCallback([id, args])`: an unknown ID changes nothing; otherwise the stored function is applied to the resolved arguments. */
    method FulfilCallbackMsg(id: string, wires: seq<WireArg>)
      requires !crashed
      modifies this`callbacks, this`transports, this`pumps, this`outbox, this`applied, this`crashed
      ensures old(callbacks).Keys <= callbacks.Keys
      ensures id !in old(callbacks) ==>
        Reg() == old(Reg()) && outbox == old(outbox) && applied == old(applied) && !crashed
      ensures id in old(callbacks) ==>
        var run := ResolveUpTo(old(Reg()), id, wires, |wires|);
        var f := old(callbacks)[id];
        && (run.failure.Some? ==> crashed && Reg() == run.reg && outbox == old(outbox) && applied == old(applied))
        && (run.failure.None? && f.Local? ==>
              !crashed && Reg() == run.reg && outbox == old(outbox)
              && applied == old(applied) + [Application(f.handle, run.values)])
        && (run.failure.None? && f.Stub? ==>
              !crashed && applied == old(applied)
              && outbox == old(outbox) + [FulfilCallback(f.id, Wires(f.id, run.values))]
              && Reg() == RegisterUpTo(run.reg, f.id, run.values, |run.values|))
    {
      if id !in callbacks {
        return;
      }
      var f := callbacks[id];
      var resolved := ResolveArgs(id, wires);
      if resolved.Threw? {
        crashed := true;
        return;
      }
      var _ := Invoke(f, resolved.value);
    }

    /**
     * `fulfilPromise([id, type, args])`: an unknown ID changes nothing; otherwise the promise
     * is settled by the resolved arguments, and a type other than resolve or reject throws.
     * The entry is never removed.
     */
    method FulfilPromiseMsg(id: string, kind: int, wires: seq<WireArg>)
      requires !crashed
      modifies this`transports, this`pumps, this`promises, this`crashed
      ensures promises.Keys == old(promises).Keys
      ensures id !in old(promises) ==> Reg() == old(Reg()) && promises == old(promises) && !crashed
      ensures id in old(promises) ==>
        var run := ResolveUpTo(old(Reg()), id, wires, |wires|);
        && Reg() == run.reg
        && (run.failure.Some? || kind !in {PROMISE_RESOLVE, PROMISE_REJECT} ==> crashed && promises == old(promises))
        && (run.failure.None? && kind in {PROMISE_RESOLVE, PROMISE_REJECT} ==>
              !crashed && promises == old(promises)[id := Settle(old(promises)[id], kind, run.values)])
    {
      if id !in promises {
        return;
      }
      var resolved := ResolveArgs(id, wires);
      if resolved.Threw? {
        crashed := true;
        return;
      }
      if kind != PROMISE_RESOLVE && kind != PROMISE_REJECT {
        crashed := true;
        return;
      }
      promises := promises[id := Settle(promises[id], kind, resolved.value)];
    }

    /** `onCall` as the ready gate runs it: all that matters there is that it keeps the invariant and the registry. */
    method RunCall(name: string, id: string, opts: Option<Rpcify.MethodRef>, wires: seq<WireArg>)
      requires Coherent() && !crashed
      modifies this`callbacks, this`transports, this`pumps, this`outbox, this`applied, this`awaiting, this`crashed
      modifies this`owned, wrappers, owned
      ensures Coherent() && fresh(owned - old(owned))
      ensures old(callbacks).Keys <= callbacks.Keys
    {
      OnCall(name, id, opts, wires);
    }

    /** Run the handler of a gated message. */
    method Dispatch(m: Message)
      requires Coherent() && !crashed
      modifies this`callbacks, this`transports, this`pumps, this`outbox, this`applied, this`awaiting
      modifies this`promises, this`crashed, this`owned, wrappers, owned
      ensures Coherent() && fresh(owned - old(owned))
      ensures !m.FulfilPromise? ==> promises == old(promises)
      ensures promises.Keys == old(promises).Keys
      ensures old(callbacks).Keys <= callbacks.Keys
    {
      assert Apart();
      match m
      case Call(name, id, opts, args) =>
        RunCall(name, id, opts, args);
      case FulfilCallback(id, args) =>
        FulfilCallbackMsg(id, args);
      case FulfilPromise(id, kind, args) =>
        FulfilPromiseMsg(id, kind, args);
      case _ =>
    }

    /**
     * `onManifest([manifest, remoteNonce])`: keep a prefix already set, else negotiate one;
     * build the mirror tree; the first time, open the ready gate and run the deferred
     * handlers in arrival order.
     */
    method OnManifest(manifest: map<string, Entry>, remoteNonce: int, draw: Ids.TieBreak)
      requires Valid() && !crashed
      modifies this, wrappers, owned
      ensures Valid()
      ensures prefix == if old(prefix).Some? then old(prefix) else Some(Ids.CalculatePrefix(nonce, remoteNonce, draw))
      ensures remote == Some(Remote(manifest)) && ready
      ensures admitted == old(admitted) && cnt == old(cnt) && issued == old(issued)
      ensures old(ready) ==>
        && handled == old(handled) && queue == old(queue) && !crashed
        && outbox == old(outbox) && applied == old(applied) && Reg() == old(Reg()) && promises == old(promises)
        && awaiting == old(awaiting) && InstancesAlone()
      ensures fresh(owned - old(owned))
      ensures old(callbacks).Keys <= callbacks.Keys && old(promises).Keys == promises.Keys
    {
      if prefix.None? {
        prefix := Some(Ids.CalculatePrefix(nonce, remoteNonce, draw));
      }
      remote := Some(Remote(manifest));
      if !ready {
        OpenGate();
      }
    }

    /** The first manifest opens the ready gate and runs the deferred handlers. */
    method OpenGate()
      requires Coherent() && !crashed && !ready && remote.Some? && handled == [] && queue == admitted
      modifies this`ready, this`queue, this`handled, this`callbacks, this`transports, this`pumps, this`outbox
      modifies this`applied, this`awaiting, this`promises, this`crashed, this`owned, wrappers, owned
      ensures Valid() && fresh(owned - old(owned))
      ensures old(callbacks).Keys <= callbacks.Keys && old(promises).Keys == promises.Keys
    {
      ready := true;
      Drain();
    }

    /** The `'remote'` event fires: the deferred handlers run in the order they were queued, until one of them dies. */
    method Drain()
      requires Coherent() && handled + queue == admitted
      modifies this`queue, this`handled, this`callbacks, this`transports, this`pumps, this`outbox, this`applied
      modifies this`awaiting, this`promises, this`crashed, this`owned, wrappers, owned
      ensures Coherent() && fresh(owned - old(owned))
      ensures handled + queue == admitted
      ensures !crashed ==> queue == []
      ensures old(crashed) ==> queue == old(queue) && handled == old(handled)
      ensures old(callbacks).Keys <= callbacks.Keys && old(promises).Keys == promises.Keys
    {
      while queue != [] && !crashed
        invariant Coherent() && fresh(owned - old(owned))
        invariant handled + queue == admitted
        invariant old(crashed) ==> crashed && queue == old(queue) && handled == old(handled)
        invariant old(callbacks).Keys <= callbacks.Keys && old(promises).Keys == promises.Keys
        decreases |queue|
      {
        var m := queue[0];
        assert queue == [m] + queue[1..];
        queue := queue[1..];
        handled := handled + [m];
        assert Apart();
        Dispatch(m);
      }
    }

    /**
     * `onData([type, ...params])`: MANIFEST is handled at once; CALL, FULFIL_CALLBACK and (in
     * promise mode) FULFIL_PROMISE are handled now if the gate is open and otherwise deferred;
     * anything else is ignored. After a crash nothing happens.
     */
    method OnData(m: Message, draw: Ids.TieBreak)
      requires Valid()
      modifies this, wrappers, owned
      ensures Valid()
      ensures old(crashed) || (!m.ManifestMsg? && !Gated(m, promise)) ==> unchanged(this) && InstancesAlone()
      ensures !old(crashed) && Gated(m, promise) ==> admitted == old(admitted) + [m]
      ensures !old(crashed) && Gated(m, promise) && old(ready) ==> handled == old(handled) + [m]
      ensures !old(crashed) && Gated(m, promise) && !old(ready) ==>
        && queue == old(queue) + [m] && handled == old(handled) && !ready
        && outbox == old(outbox) && Reg() == old(Reg()) && promises == old(promises) && !crashed
        && applied == old(applied) && awaiting == old(awaiting) && InstancesAlone()
      ensures !old(crashed) && m.ManifestMsg? ==> ready && remote == Some(Remote(m.manifest)) && admitted == old(admitted)
      ensures !old(crashed) && m.ManifestMsg? && old(ready) ==>
        && handled == old(handled) && queue == old(queue) && !crashed
        && outbox == old(outbox) && applied == old(applied) && Reg() == old(Reg()) && promises == old(promises)
        && awaiting == old(awaiting) && InstancesAlone()
      ensures old(callbacks).Keys <= callbacks.Keys && old(promises).Keys == promises.Keys
    {
      if crashed {
        return;
      }
      if m.ManifestMsg? {
        OnManifest(m.manifest, m.nonce, draw);
      } else if Gated(m, promise) {
        Admit(m);
      }
    }

    /** A gated message is handled now if the gate is open and deferred otherwise. */
    method Admit(m: Message)
      requires Valid() && !crashed
      modifies this`queue, this`handled, this`admitted, this`callbacks, this`transports, this`pumps, this`outbox
      modifies this`applied, this`awaiting, this`promises, this`crashed, this`owned, wrappers, owned
      ensures Valid() && fresh(owned - old(owned))
      ensures admitted == old(admitted) + [m]
      ensures ready ==> handled == old(handled) + [m]
      ensures !ready ==>
        && queue == old(queue) + [m] && handled == old(handled)
        && outbox == old(outbox) && Reg() == old(Reg()) && promises == old(promises) && !crashed
        && applied == old(applied) && awaiting == old(awaiting) && InstancesAlone()
      ensures old(callbacks).Keys <= callbacks.Keys && old(promises).Keys == promises.Keys
    {
      admitted := admitted + [m];
      if ready {
        handled := handled + [m];
        assert Apart();
        Dispatch(m);
      } else {
        queue := queue + [m];
      }
    }

    /** `onstream(sT, name)`: register a sub-channel the peer opened, if its name has the `ID-TYPE` form. */
    method OnStream(name: string, handle: nat)
      modifies this`transports
      ensures ParseStreamName(name).Some? ==> transports == old(transports)[name := Accepted(handle)]
      ensures ParseStreamName(name).None? ==> transports == old(transports)
    {
      var parsed := ParseStreamName(name);
      if parsed.Some? {
        ParsedNameRebuilds(name);
        transports := transports[parsed.value.id + "-" + [parsed.value.kind] := Accepted(handle)];
      }
    }

    /** The user calls a function mirror: send CALL under a fresh ID, and in promise mode return the pending promise's ID. */
    method CallFunction(fm: Mirror, args: seq<Value>) returns (p: Option<string>)
      requires IdsCoherent() && fm.FunctionMirror?
      modifies this`cnt, this`issued, this`issuedUnder, this`callbacks, this`transports, this`pumps
      modifies this`outbox, this`promises
      ensures IdsCoherent()
      ensures var id := Ids.Id(Rpcify.OrElse(prefix, ""), old(cnt));
        && id !in old(issued) && id !in old(promises)
        && outbox == old(outbox) + [Call(CallName(fm.path), id, fm.opts, Wires(id, args))]
        && Reg() == RegisterUpTo(old(Reg()), id, args, |args|)
        && (promise ==> p == Some(id) && promises == old(promises)[id := Pending])
        && (!promise ==> p == None && promises == old(promises))
    {
      var id := MakeId();
      var wires := PrepareArgs(id, args);
      outbox := outbox + [Call(CallName(fm.path), id, fm.opts, wires)];
      if promise {
        promises := promises[id := Pending];
        p := Some(id);
      } else {
        p := None;
      }
    }

    /**
     * The user calls a constructor mirror: send CALL with null opts under a fresh ID and
     * return a mock object whose methods send `[id, method]` as their opts. No promise is made.
     * Without a type name, `makeMockObject` assigns to the read-only global `undefined`, which
     * sloppy mode ignores, so reading the mock class back throws after the CALL was sent.
     */
    method Construct(cm: Mirror, args: seq<Value>) returns (obj: Outcome<MockObject>)
      requires IdsCoherent() && cm.ConstructorMirror?
      modifies this`cnt, this`issued, this`issuedUnder, this`callbacks, this`transports, this`pumps, this`outbox
      ensures IdsCoherent()
      ensures var id := Ids.Id(Rpcify.OrElse(prefix, ""), old(cnt));
        && id !in old(issued)
        && outbox == old(outbox) + [Call(CallName(cm.path), id, None, Wires(id, args))]
        && Reg() == RegisterUpTo(old(Reg()), id, args, |args|)
        && (cm.desc.name.Some? ==> obj == Returned(MockObject(cm.desc.name.value, MockMethods(cm.path, id, cm.desc))))
      ensures cm.desc.name.None? ==> obj.Threw?
    {
      var id := MakeId();
      var wires := PrepareArgs(id, args);
      outbox := outbox + [Call(CallName(cm.path), id, None, wires)];
      obj := MockOf(cm.path, id, cm.desc);
    }

    /** `preparePromise`: the thenable a local function returned for call `id` settles; send FULFIL_PROMISE with its value. */
    method Reply(id: string, kind: int, value: Value)
      requires id in awaiting && (kind == PROMISE_RESOLVE || kind == PROMISE_REJECT)
      modifies this`callbacks, this`transports, this`pumps, this`outbox, this`awaiting
      ensures outbox == old(outbox) + [FulfilPromise(id, kind, Wires(id, [value]))]
      ensures Reg() == RegisterUpTo(old(Reg()), id, [value], 1)
      ensures awaiting == old(awaiting) - multiset{id}
    {
      var wires := PrepareArgs(id, [value]);
      outbox := outbox + [FulfilPromise(id, kind, wires)];
      awaiting := awaiting - multiset{id};
    }
  }

  /**
   * End to end: the peer calls its mirror of a function at `p`; the CALL it sends resolves on
   * this side without throwing, to the counterparts of its arguments, and reaches that function.
   */
  lemma CallReachesFunction(api: map<string, ApiValue>, p: seq<string>, f: FnRef, id: string, args: seq<Value>, r: Registry)
    requires |p| >= 1 && Ids.DotFree(p)
    requires Walk(Obj(api), p) == Returned(Func(f))
    ensures MirrorAt(ObjectMirror(Remote(MakeManifest(api))), p) == Some(FunctionMirror(p, None))
    ensures var run := ResolveUpTo(r, id, Wires(id, args), |Wires(id, args)|);
      && run.failure.None?
      && |run.values| == |args|
      && (forall i :: 0 <= i < |args| ==> run.values[i] == Counterpart(args[i], Ids.Id(id, i)))
      && RouteCall(api, CallName(p), None) == Apply(f)
  {
    FunctionCallRoutesBack(api, p, f, None);
    RoundTripArgs(r, id, args, |args|);
  }

  /** A reply sent by `preparePromise` settles the peer's pending promise with the counterpart of the value, by its kind. */
  lemma ReplySettles(id: string, kind: int, v: Value, r: Registry)
    requires kind == PROMISE_RESOLVE || kind == PROMISE_REJECT
    ensures var run := ResolveUpTo(r, id, Wires(id, [v]), 1);
      && run.failure.None?
      && Settle(Pending, kind, run.values)
         == (if kind == PROMISE_RESOLVE then Fulfilled(Some(Counterpart(v, Ids.Id(id, 0))))
             else Rejected(Some(Counterpart(v, Ids.Id(id, 0)))))
  {
    RoundTripArgs(r, id, [v], 1);
  }
}
