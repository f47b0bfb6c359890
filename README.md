# hyperpc, modelled in Dafny

hyperpc is an RPC engine for two peers joined by one duplex byte stream. Each side builds a
`HypeRPC` session around an API object. The stream is multiplexed into sub-channels:
- a control channel `rpc` that carries JSON messages;
- one sub-channel per direction of every stream argument.

On creation a session sends a MANIFEST describing its API. The MANIFEST is a tree of:
- functions;
- literal values;
- nested objects;
- `RPCify`-wrapped classes, described by name and exposed methods.

When the peer's MANIFEST arrives, the session does three things:
- it negotiates an ID prefix from the two nonces;
- it builds a tree of mirrors: local functions that send CALL messages;
- it opens a ready gate, behind which the inbound CALL, FULFIL_CALLBACK and FULFIL_PROMISE handlers wait.

Arguments are tagged by a five-row conversion table. The table handles errors, callbacks
(registered under sub-IDs), streams (piped over sub-channels with a JSON framing converter),
buffers (ASCII strings) and everything else (verbatim). The peer undoes the conversion.

`RPCify` exposes a class remotely:
- it filters the prototype's methods into a manifest;
- it constructs and caches instances by call ID;
- it routes method calls to the cached instance, under an override table and an optional veto callback.

The modules follow the program's structure:

| module | file | what it holds |
|---|---|---|
| `Wrappers` | wrappers.dfy | `Option`, and `Outcome` for a value or a thrown JavaScript error |
| `Ids` | ids.dfy | decimal rendering, `join('.')` / `split('.')`, call and sub-IDs, prefix negotiation |
| `Values` | values.dfy | argument values, JSON, function references, stream descriptors |
| `Streams` | streams.dfy | `streamType`, `maybeConvert`, the pumps of stream arguments, sub-channel names |
| `Marshal` | marshal.dfy | the conversion table, `prepareArgs` / `resolveArgs` and the registries they write |
| `Rpcify` | rpcify.dfy | the `RPCify` wrapper class and the instances it caches |
| `Manifest` | manifest.dfy | API trees, `makeManifest`, the mirror tree, call routing, mock objects |
| `Session` | session.dfy | the `HypeRPC` class: handshake, ready gate, inbound handlers, outbound calls |

Effects outside the program are parameters or recorded values:
- The nonce and the tie-break draw of `Math.random` are parameters.
- A local function is an opaque handle: its calls are recorded in `applied`, and whether it returns a thenable is a parameter (`returnsThenable`).
- What the session writes to the control channel is recorded in `outbox`.
- A pump is recorded as the two ends it joins and the converter between them.

A JavaScript exception is an `Outcome.Threw`. If an exception escapes an inbound handler, the
process ends; `crashed` records this, and later messages change nothing.

## Model

| member | source | states |
|---|---|---|
| Ids.NatToString | index.js:398-400 | `String(n)` of a counter has at least one character and only decimal digits; it is one character exactly when n < 10 |
| Ids.ParseNatToString | index.js:398-400 | reading the decimal rendering back gives n, for every n |
| Ids.NatToStringInjective | index.js:398-400 | two counters render alike if and only if they are equal |
| Ids.IndexOfSeparator | index.js:195 | the position found holds the first '.' of the name |
| Ids.Split | index.js:195 | `split('.')` always gives at least one part |
| Ids.SplitIsDotFree | index.js:195 | no part of a split contains '.' |
| Ids.JoinSplit | index.js:195 | joining the parts of `name.split('.')` with '.' gives the name back |
| Ids.SplitJoin | index.js:153 | splitting `path.join('.')` gives the path back when no key contains '.' |
| Ids.Join | index.js:398-400 | `parts.join('.')`: no contract of its own; its laws are Ids.JoinPair, Ids.JoinSplit and Ids.SplitJoin |
| Ids.JoinPair | index.js:398-400 | `joinIds(x, y)` is x, '.', y |
| Ids.Id | index.js:377-379 | `joinIds(base, n)`, the ID `makeId` issues: no contract of its own; its laws are Ids.IdInjective, Ids.IdsPairwiseDistinct and Streams.IdNameChars |
| Ids.IdInjective | index.js:377-379 | `joinIds(prefix, n)` is equal for two (prefix, n) pairs if and only if the prefixes and the counters are equal |
| Ids.IdsPairwiseDistinct | index.js:377-379 | the IDs `makeId` issues under an increasing counter are pairwise distinct, whatever the prefix at each issue |
| Ids.CalculatePrefix | index.js:402-406 | `calculatePrefix`: "A" when the remote nonce is larger, "B" when smaller, "X" and the draw on a tie; its laws are Ids.PrefixesDisjoint, Ids.TieBreakCollision and Streams.PrefixNameChars |
| Ids.PrefixesDisjoint | index.js:402-406 | with distinct nonces, the two peers compute "A" and "B", one each, never the same |
| Ids.TieBreakCollision | index.js:402-406 | with equal nonces, both peers get an 'X' prefix, and it is the same exactly when their random draws are equal |
| Streams.ObjectMode | index.js:436-439 | `isObjectStream`: the writable side's object mode, else the readable side's, else falsy; the pumps built from it are stated by Streams.FramingPaired and Marshal.RoundTripArg |
| Streams.StreamType | index.js:453-472 | the direction mask is between 0 and DUPLEX |
| Streams.StreamTypeBits | index.js:453-472 | a non-transform stream's mask has the READABLE bit if and only if the stream is readable, and likewise for WRITABLE; a transform gets exactly one bit, READABLE if and only if it has readable state and no pipes |
| Streams.MaybeConvert | index.js:492-497 | `maybeConvert`: its laws are Streams.MaybeConvertAdapts and Streams.MaybeConvertReversed |
| Streams.MaybeConvertAdapts | index.js:492-497 | `maybeConvert(a, b)` takes object mode a in and gives object mode b out, and no other converter does |
| Streams.MaybeConvertReversed | index.js:492-497 | the converter for the reverse direction is the inverse one |
| Streams.ControlChannelFraming | index.js:64-65 | the control channel JSON-encodes what it sends and JSON-decodes what it receives, which are inverse |
| Streams.PreparePumps | index.js:312-326 | the pumps `prepareStream` sets up for a direction mask: paired with the receiver's by Streams.FramingPaired |
| Streams.ResolvePumps | index.js:328-346 | the pumps `resolveStream` sets up for a spec: paired with the sender's by Streams.FramingPaired and reached by Marshal.RoundTripStreamPumps |
| Streams.FramingPaired | index.js:312-346 | for every stream argument, the sender's and the receiver's pumps come in the same number, pair up on the same sub-channels with inverse converters, and no sender pump is an object-mode pass-through |
| Streams.MixedModeTransformUnconverted | index.js:312-319 | a transform with an object-mode readable side, a byte writable side and no pipes is READABLE with object mode false, so its one pump is a byte pass-through and not `toBin` |
| Streams.EnsureChannel | index.js:369-373 | `getTransportStream` adds the key if absent, with a channel opened under that name, and keeps every existing channel |
| Streams.EnsureChannelIdempotent | index.js:369-373 | a second request for the same sub-channel changes nothing |
| Streams.EnsureAll | index.js:312-346 | requesting several sub-channels adds exactly those keys, keeps existing ones and opens the new ones by name |
| Streams.ParseStreamName | index.js:359-361 | the match of `/^([a-zA-Z0-9.]+)-([0-3]){1}$/`: its laws are Streams.ParsedNameRebuilds and Streams.TransportKeyRecognised |
| Streams.ParsedNameRebuilds | index.js:356-367 | a name `onstream` recognises is `${id}-${type}` of its match groups, with a non-empty ID drawn from [a-zA-Z0-9.] |
| Streams.TransportKeyRecognised | index.js:359-370 | the peer recognises a sub-channel name this side opens if and only if the ID is non-empty and drawn from [a-zA-Z0-9.], and then recovers that ID and direction |
| Streams.IdNameChars | index.js:377-379 | a call ID built on a [a-zA-Z0-9.] base is non-empty and stays in that set |
| Streams.PrefixNameChars | index.js:402-406 | every negotiated prefix is drawn from [a-zA-Z0-9]: it lies in the sub-channel characters [a-zA-Z0-9.] and contains no '.' |
| Marshal.PreparePayload | index.js:256-263 | the payload each row's prepare function sends: an error's message, the sub-ID, a stream's mask and object mode, ASCII text, or the value; its laws are Marshal.RoundTripArg and Marshal.AsciiRoundTrip |
| Marshal.PrepareArg | index.js:267-274 | one tagged argument: the first matching row's tag (Marshal.FirstMatch, Marshal.TableTagsByKind) and its payload (Marshal.RoundTripArg) |
| Marshal.FirstMatch | index.js:267-274 | the `reduce` picks the first row whose matcher accepts the argument: no earlier row matches, and the chosen row does |
| Marshal.TableTagsByKind | index.js:256-263 | the tag `prepareArg` picks is ERROR, CALLBACK, STREAM, BUFFER or DEFAULT by the kind of the value, always a row of the table |
| Marshal.ToAscii | index.js:348-350 | `toString('ascii')` gives one character per byte |
| Marshal.FromAscii | index.js:352-354 | `Buffer.from(s, 'ascii')` gives one byte per character |
| Marshal.AsciiRoundTrip | index.js:348-354 | a buffer comes back with every byte masked to 7 bits, which is the same buffer if and only if every byte is below 128 |
| Marshal.Wires | index.js:265 | `prepareArgs` gives one tagged argument per argument |
| Marshal.WithPumps | index.js:316-323 | adding pumps keeps the callbacks, appends the pumps and only adds channels |
| Marshal.PrepareStep | index.js:267-274 | preparing one argument drops no callback key and no channel, keeps every channel's handle and only appends pumps; it stores a function under its sub-ID and leaves the callbacks alone for anything else |
| Marshal.RegisterUpTo | index.js:265 | preparing a prefix of the arguments drops no callback key and no channel, keeps every channel's handle and only appends pumps |
| Marshal.PreparedCallbacksStored | index.js:299-302 | after `prepareArgs`, each function argument i is stored under `joinIds(id, i)` |
| Marshal.PreparedCallbackKeys | index.js:299-302 | after `prepareArgs`, the callback keys are exactly the earlier ones plus the sub-IDs of the function arguments |
| Marshal.PreparedCallbacksKept | index.js:299-302 | callbacks under any other key keep their function |
| Marshal.StreamSpecOf | index.js:329 | the destructuring `var [type, objectMode] = spec` of an array or string payload; anything else throws; its laws are Marshal.ResolveStep and Marshal.RoundTripArg |
| Marshal.BufferOf | index.js:352-354 | `Buffer.from(payload, 'ascii')` of a string or array payload; anything else throws; its laws are Marshal.AsciiRoundTrip and Marshal.ResolveStep |
| Marshal.ErrorOf | index.js:291-297 | `resolveError`: a null payload throws; an object gives an error with its `message` (empty when absent); anything else gives an error with an empty message; its laws are Marshal.ResolveStep and Marshal.RoundTripArg |
| Marshal.ResolveStep | index.js:276-279 | resolving one tagged argument throws if and only if: the tag is not a row of the table; or the tag is ERROR with a null payload; or the tag is STREAM or BUFFER with a payload that is neither an array nor a string. Otherwise it keeps the callbacks |
| Marshal.DefaultRowVerbatim | index.js:262 | the last row resolves its payload to itself and registers nothing |
| Marshal.ResolveUpTo | index.js:265 | a run that did not throw yields one value per argument; it never touches the callbacks |
| Marshal.ResolveStepGrows | index.js:276-279 | resolving one argument drops no channel, keeps every channel's handle and only appends pumps |
| Marshal.ResolveUpToGrows | index.js:265 | so does resolving a list of arguments, whether or not one of them throws |
| Marshal.ResolveUpToStops | index.js:265 | a run that has not failed fails at the next argument, with that argument's exception, exactly when that argument throws |
| Marshal.ResolveUpToNext | index.js:265 | a run that has not failed gains the next argument's resolved value when that argument resolves |
| Marshal.ResolveAll | index.js:237-239 | if every argument resolves whatever the registry, the run resolves them all, in order, without failing |
| Marshal.FailureSticks | index.js:265 | once an argument throws, later arguments are not resolved |
| Marshal.RoundTripArg | index.js:267-279 | an argument prepared by one side resolves on the other without throwing, to its counterpart: an error with the same message, a stub for the sub-ID, a stand-in stream in the same object mode, the masked bytes, or the value itself |
| Marshal.RoundTripStreamPumps | index.js:312-346 | resolving a prepared stream adds exactly the pumps `resolveStream` sets up for its direction mask and object mode |
| Marshal.RoundTripArgs | index.js:237-243 | `resolveArgs(id, prepareArgs(id, args))` never throws and gives each argument's counterpart under its sub-ID, in order |
| Rpcify.WithDefaults | rpcify.js:6-13 | the defaults fill the unset options: skipPrivate true unless set to false, exclude empty, override empty; include, factory and check are kept as given |
| Rpcify.Filter | rpcify.js:26-37 | a key is kept if and only if it is one of the input keys that passes the test, and the result is no longer than the input |
| Rpcify.FilterCount | rpcify.js:26-37 | filtering keeps every occurrence of a passing key and drops every occurrence of a failing one |
| Rpcify.FilterAppend | rpcify.js:26-37 | filtering distributes over concatenation, so order is kept |
| Rpcify.CandidateKeys | rpcify.js:24-38 | the keys `toManifest` considers: the include list if set, else the prototype's own keys that pass the private and exclude tests; its laws are Rpcify.IncludeListLaw and Rpcify.DefaultFilterLaw |
| Rpcify.MethodNames | rpcify.js:40-44 | the candidate keys whose prototype value is a function, in order; its laws are Rpcify.IncludeListLaw and Rpcify.DefaultFilterLaw, and Rpcify.RPCify.ToManifest computes it |
| Rpcify.IncludeListLaw | rpcify.js:24-44 | with `include` set, the methods are the included keys that are prototype functions, in include order; skipPrivate and exclude are ignored |
| Rpcify.DefaultFilterLaw | rpcify.js:26-44 | without `include`, a key is exposed if and only if it is an own prototype key that is a function, is not excluded, and is not private under skipPrivate |
| Rpcify.ApplyObjectMember | rpcify.js:72-73 | what `override[name].apply(instance, args)` does when `override[name]` is inherited from `Object.prototype`: the inert members change nothing; `toLocaleString` calls `this.toString()`, which is the instance's method when no own property of that name exists; it throws exactly for `__proto__`, for an accessor definition whose second argument is not a function, and for `toLocaleString` on an instance whose own `toString` property is not a function |
| Rpcify.Dispatch | rpcify.js:64-76 | a call is vetoed if and only if the check returns falsy. Otherwise an override handler runs if one exists; else a member of `Object.prototype` of that name is applied, as Rpcify.ApplyObjectMember states; else an own property of the instance of that name is applied, which throws exactly when it is not a function; else the instance's method runs, and the call throws exactly when the instance has none |
| Rpcify.OwnFunction | rpcify.js:75 | applying an own property of the instance throws exactly when the property is not a function, and otherwise leaves the instance's state as it was |
| Rpcify.ObjectMembersShadow | rpcify.js:72-75 | an instance method named like a member of `Object.prototype` is never reached: replacing or removing it leaves the dispatch as it was |
| Rpcify.OwnFieldShadowsMethod | rpcify.js:74-75 | `cache[id][name]` finds an own property before the instance's method: with an own property of that name, replacing or removing the method leaves the dispatch as it was |
| Rpcify.Obj.constructor | rpcify.js:56-58 | a new instance holds the constructed fields and methods |
| Rpcify.RPCify.constructor | rpcify.js:2-15 | the wrapper keeps the class, fills the default options and starts with an empty cache |
| Rpcify.RPCify.Describe | rpcify.js:46-50 | the manifest entry: the class name and `MethodNames`; Rpcify.RPCify.ToManifest computes it and Manifest.ConstructorCallRoutesBack sends it |
| Rpcify.RPCify.ToManifest | rpcify.js:17-51 | the loop yields the class name and the filtered method list, and every listed method is a candidate key and a prototype function |
| Rpcify.RPCify.Construction | rpcify.js:55-59 | how `makeNew` obtains the object: the factory's result if a factory is set, else `new Cr(...args)`, which throws when Cr is not a constructor; Rpcify.RPCify.MakeNew is stated in terms of it |
| Rpcify.RPCify.MakeNew | rpcify.js:53-62 | the factory if configured, else `new Cr(...args)`. A throw leaves the cache as it was. Otherwise the object is cached under the call ID, null for a falsy factory result, and a non-null instance is fresh and holds the constructed state |
| Rpcify.RPCify.MakeCall | rpcify.js:64-77 | a cache miss (no entry, or a null one) does nothing. Otherwise the instance carries out the plan of Rpcify.Dispatch: the new state it runs to; no change on a veto; no change and the plan's exception on a throw. No other instance changes, and neither does the cache |
| Rpcify.TwoInstances | test/object.js:25-45 | two instances of the test class made under different IDs: `setPrefix('hello ')` on the first gives it that prefix and leaves the second's prefix empty; a call under an unknown ID does nothing |
| Rpcify.MyClassManifest | test/object.js:47-63 | the test class exposes setPrefix and getUpper by default, skipping _private |
| Rpcify.MyClassManifestWithPrivate | test/object.js:65-81 | with skipPrivate false the test class also exposes _private, after the other two |
| Rpcify.MyClassManifestSelected | test/object.js:83-104 | under an include list of getUpper only getUpper is exposed, and under an exclude list of getUpper only setPrefix |
| Manifest.EntryOf | index.js:105-118 | the `reduce` of `makeManifest` for one value, testing wrapper, object, function and literal in that order; its laws are Manifest.ManifestClassifies and Manifest.ManifestFollowsApi |
| Manifest.MakeManifest | index.js:101-119 | the MANIFEST of the API object; its laws are Manifest.ManifestClassifies and Manifest.ManifestFollowsApi |
| Manifest.ManifestClassifies | index.js:101-119 | every API key except an undefined one is in the manifest: a wrapper as CONSTRUCTOR with its `toManifest`, an object as OBJECT of its own manifest, a function as FUNCTION, a literal as VALUE of itself |
| Manifest.MirrorOf | index.js:130-146 | the `reduce` of `onManifest` for one entry at a path; its laws are Manifest.MirrorShape and Manifest.MirrorFollowsManifest |
| Manifest.Remote | index.js:127-147 | `this.remote`, the mirror tree of the peer's MANIFEST; its laws are Manifest.MirrorShape and Manifest.MirrorFollowsManifest |
| Manifest.MirrorShape | index.js:121-148 | the mirror tree has an entry for every manifest key of a known type: a value mirror holds the literal, a function or constructor mirror is made for its one-key path, and an object's entry is the mirror of its children |
| Manifest.MirrorFollowsManifest | index.js:128-147 | following a path in the mirror tree reaches the mirror of the manifest entry at that path, made for the whole path |
| Manifest.ManifestFollowsApi | index.js:101-119 | the manifest entry at a path is the entry of the API value reached by walking that path |
| Manifest.Walk | index.js:195 | the key-by-key `reduce` of `onCall` over the split name; its laws are Manifest.ManifestFollowsApi, Manifest.UndefinedWalk and Manifest.WalkStaysInTree |
| Manifest.RouteCall | index.js:195-206 | what `onCall` does with the value the walk finds: `makeNew` or `makeCall` on a wrapper, `apply` on a function, a throw otherwise; its laws are Manifest.FunctionCallRoutesBack, Manifest.ConstructorCallRoutesBack, Manifest.DottedKeyIgnored and Manifest.RouteStaysInTree |
| Manifest.UndefinedWalk | index.js:195 | walking past an undefined value throws or stays undefined |
| Manifest.FunctionCallRoutesBack | index.js:191-209 | for a function at a dot-free path, the peer's mirror at that path is a function mirror for the path, and the CALL it sends is routed back to the same function |
| Manifest.ConstructorCallRoutesBack | index.js:191-209 | for a wrapper at a dot-free path, the peer's mirror is a constructor mirror with the wrapper's description. A CALL with null opts reaches `makeNew` on that wrapper; any other opts reach `makeCall` |
| Manifest.DottedKeyIgnored | index.js:153-195 | a key containing '.' becomes a CALL name that splits into at least two segments, and the value under that key plays no part in where the call goes: removing the key routes the call the same way |
| Manifest.DottedKeyUnroutable | index.js:153-195 | a function under "a.b" with nothing under "a" gets a mirror, and the call through that mirror fails |
| Manifest.DottedKeyMisrouted | index.js:153-195 | a function under "a.b" beside an object "a" that holds a function "b": the mirror of "a.b" is routed to the function under "a"."b" |
| Manifest.MockMethods | index.js:176-186 | a mock object has one method per described method, each a function mirror on the constructor's path that sends `[id, method]` as its opts |
| Manifest.MockOf | index.js:176-187 | the mock object `new MockObject()` yields: it throws if and only if the description has no type name; otherwise it carries that name and the method mirrors of Manifest.MockMethods |
| Manifest.WalkStaysInTree | index.js:195 | a wrapper reached by walking the API is one of the API's wrappers |
| Manifest.RouteStaysInTree | index.js:195-202 | every wrapper a CALL is routed to is one of the API's wrappers |
| Session.Settle | index.js:218-223 | settling a pending promise leaves it settled; a settled promise is unchanged |
| Session.SettleOnce | index.js:218-223 | a promise settles once: later resolves or rejects change nothing |
| Session.InitialPrefix | index.js:42 | `opts.prefix \|\| null` keeps a non-empty prefix and never yields the empty string |
| Session.HypeRPC.constructor | index.js:36-76 | a new session has an empty registry and the gate shut, and has sent exactly its MANIFEST with its nonce; the session invariant holds |
| Session.HypeRPC.MakeId | index.js:377-379 | the ID is `joinIds(prefix, cnt)` with a null prefix joining as "", the counter goes up by one, and the ID was never issued before |
| Session.HypeRPC.PrepareArgs | index.js:241-243 | the loop yields the tagged arguments and leaves the registry as the fold of the table over the arguments |
| Session.HypeRPC.ResolveArgs | index.js:237-239 | the loop returns the first throw or all resolved values, with the registry as the resolution run leaves it |
| Session.HypeRPC.FireStub | index.js:304-310 | calling a stub sends FULFIL_CALLBACK with the prepared arguments under the stub's ID |
| Session.HypeRPC.Invoke | index.js:204-206 | applying a local function records the call and reports the thenable answer; applying a stub sends FULFIL_CALLBACK and yields no thenable |
| Session.HypeRPC.OnCall | index.js:191-209 | per route, in terms of the arguments as the resolution run leaves them. A throw while resolving, or a walk that ends anywhere but a wrapper or a function, crashes, with no call made and no instance changed. A wrapper with null opts gets `makeNew`: the cache gains the call ID with the constructed instance, or a null entry, and the session crashes exactly when construction throws. Other opts get `makeCall`: only the named instance changes, as Rpcify.Dispatch plans, and the session crashes exactly when that plan throws. A function is applied, and its thenable result is awaited in promise mode only. No other wrapper or instance changes and the session invariant is kept |
| Session.HypeRPC.RunCall | index.js:84-86 | a CALL run by the ready gate is handed to `onCall`; it keeps the session invariant and drops no callback key |
| Session.HypeRPC.NewInstance | index.js:191-200 | the arguments are resolved and a throw crashes with no instance changed. Otherwise `makeNew` stores under the call ID a fresh instance holding the constructed fields and methods, or null for a falsy factory result, and changes no other cache entry or instance; it crashes, leaving the cache as it was, exactly when construction throws |
| Session.HypeRPC.CallInstance | index.js:191-202 | the arguments are resolved and a throw crashes with no instance changed. Otherwise `makeCall` leaves every cache as it was; on a hit only the named instance changes, to the state Rpcify.Dispatch plans, and the session crashes exactly when that plan throws; a miss changes nothing and does not crash |
| Session.HypeRPC.ApplyFunction | index.js:191-208 | the arguments are resolved and a throw crashes with no call made. Otherwise the function is applied as `Invoke` states, and the ID is awaited exactly in promise mode for a thenable result of a local function |
| Session.HypeRPC.FulfilCallbackMsg | index.js:211-216 | an unknown ID changes nothing. A known one resolves the arguments and crashes on a throw; otherwise it applies the stored function to them |
| Session.HypeRPC.FulfilPromiseMsg | index.js:218-223 | an unknown ID changes nothing. A known one resolves the arguments; a throw, or a type other than resolve and reject, crashes; otherwise the promise is settled. No promise entry is ever removed |
| Session.HypeRPC.Dispatch | index.js:78-95 | running a gated handler keeps the session invariant; only FULFIL_PROMISE touches the promises, and no callback or promise key is removed |
| Session.HypeRPC.OnManifest | index.js:121-148 | a prefix already set is kept, else the negotiated one is set. The mirror tree of the peer's manifest is stored and the gate is open. If the gate was already open, nothing else changes: no deferred handler runs again, and the outbox, calls, registry, promises, awaited IDs, queue, wrappers and instances are as they were |
| Session.HypeRPC.OpenGate | index.js:73-75 | the first `'remote'` event opens the gate and hands the deferred handlers to `Dispatch`; the session invariant holds after |
| Session.HypeRPC.Drain | index.js:74-75 | the deferred handlers are handed to `Dispatch` in arrival order until the queue is empty or one of them crashes; handled + queued stays the arrival sequence |
| Session.HypeRPC.OnData | index.js:78-95 | MANIFEST is handled at once, as `OnManifest` states. CALL, FULFIL_CALLBACK and, in promise mode, FULFIL_PROMISE are admitted: handed to `Dispatch` at once when the gate is open, queued otherwise with no other effect on the session, its wrappers or its instances. Anything else, or anything after a crash, changes nothing. Before the gate opens nothing gated is handed on; after it opens every admitted message has been, in order |
| Session.HypeRPC.Admit | index.js:84-93 | a gated message joins the arrival sequence; it is handed to `Dispatch` at once when the gate is open, and otherwise only queued: the outbox, calls, registry, promises, awaited IDs, wrappers and instances are as they were |
| Session.HypeRPC.OnStream | index.js:356-367 | a recognised `ID-TYPE` name is registered as the accepted channel under that name; any other name changes nothing |
| Session.HypeRPC.CallFunction | index.js:150-165 | a function mirror sends CALL with its joined path, a fresh ID, its opts and the prepared arguments; in promise mode it returns that ID's pending promise, otherwise nothing |
| Session.HypeRPC.Construct | index.js:167-189 | a constructor mirror sends CALL with null opts under a fresh ID; no promise is made. With a type name in its description it returns the mock object for that ID; without one it throws, after the CALL was sent |
| Session.HypeRPC.Reply | index.js:225-235 | a settled thenable sends FULFIL_PROMISE with its kind and the prepared value, and the ID is no longer awaited |
| Session.CallReachesFunction | index.js:191-209 | end to end: the CALL the peer's mirror sends for a function resolves here without throwing, to the counterparts of the arguments, and is routed to that function |
| Session.ReplySettles | index.js:218-235 | a reply settles the peer's pending promise with the counterpart of the value: fulfilled for resolve, rejected for reject |

## Left out

- Bytes never move. The multiplexer, `pump`, `through2` and `duplexify` are out of scope. A pump is a record of its two ends and its converter; stream descriptors stand for stream objects.
- JSON encoding of the control channel is not modelled. Messages are values that survive their JSON round trip, and numbers are integers; floating point is not modelled.
- `Math.random` is unmodelled randomness: the nonce is a parameter bounded by 10000000, and the tie-break draw is a parameter bounded by 1000.
- `thunky` defers callbacks with `nextTick`. The model runs them as one FIFO drain the moment the gate opens, which keeps their order but not their interleaving with unrelated events.
- Logging (`log`, `toLog`, `opts.log`, `opts.debug`) and the `console.error` of `onstream` are output only, and are left out.
- scripts/compile-schema.js is not part of this model.
- User code is not modelled:
  - local functions are opaque handles, and their thenable answer is a parameter;
  - instance methods, factories, overrides and the veto callback are pure functions of the instance state and the arguments;
  - an instance method calling its own callback arguments is not modelled;
  - a throw inside user code is not modelled.
- Marshal.KeyOf: `String(x)` is exact for strings, integers, booleans and null. It is approximate for arrays and objects, which appear only in payloads that do not conform.
- Marshal.NumberOf: the model reads only decimal digit strings as numbers. Other strings and all non-numbers become 0, and similar approximations cover other non-conforming payloads.
- Marshal.ErrorOf: an error message that is not a string is turned into a string with `KeyOf`. The other own properties of the error spec (`name`, `stack`) are dropped, because `prepareError` sends only `message`.
- Marshal.BufferOf: every object payload throws, although `Buffer.from` converts an array-like object (one with a `length` key) and the JSON form of a Buffer, `{type: 'Buffer', data: [...]}`. Characters above 0xFF keep their low byte, which is what `Buffer.from(s, 'ascii')` does; surrogate pairs are not modelled.
- Manifest.Walk: only the own keys of plain objects are modelled. Every other value has no keys in the model, but in the source a function has `name` and `length`, a string has `length` and its indices, a wrapper has `Cr`, `opts`, `cache` and methods, and any value has the members of `Object.prototype`. A CALL named `myclass.Cr`, say, applies the wrapped constructor in the source, where the model fails with `func.apply is not a function`.
- `makeMockObject` assigns the mock class to a global variable through `this[name]`. That side effect is not modelled, and neither are the mock prototype chain or its `new`.
- Session.HypeRPC.Construct: a type name that is itself a read-only global (`NaN`, `Infinity`, `undefined`) also makes `makeMockObject` throw; the model returns the mock object for it.
- Rpcify.WithDefaults: an option given explicitly as `undefined` (skipPrivate) or `null` (exclude, override) cannot be written in the model's user options; `Object.assign` copies such a value over the default, after which `toManifest` or `makeCall` behave differently or throw.
- Unused session fields are not modelled: `constructors`, `incoming`, `id`, `name`, `debug`.
- Rpcify.RPCify.MakeNew: a factory that returns the same object twice would alias two cache entries. The model gives every construction a fresh instance.
- Session.HypeRPC.Dispatch: it states the session invariant and the key sets, not each handler's effect. Those effects are the contracts of the handlers it calls (`OnCall`, `FulfilCallbackMsg`, `FulfilPromiseMsg`).
- Session.HypeRPC.RunCall: it states only the invariant and the callback keys that `OnCall` keeps, not `OnCall`'s per-route effect, which is stated on `OnCall` itself.
- Session.HypeRPC.Drain: it states the order in which messages are handed to `Dispatch` (the ghost `handled` log), the invariant and the key sets, not what each handler then does.
- Session.HypeRPC.OpenGate: it states that the gate opens and the invariant holds; the order of the deferred handlers is stated on `Drain`, and their effects are not restated.
- Session.HypeRPC.Admit: with the gate open, a gated message is stated to be handed to `Dispatch` (through `handled`); its effect is the handler's contract, not restated here.
- Session.HypeRPC.OnData: with the gate open, a gated message is stated to be handed to `Dispatch` (through `handled`); its effect is the handler's contract, not restated here.
- Rpcify.Dispatch: `__defineGetter__` and `__defineSetter__` with a function argument are modelled as changing nothing; the accessor they install on the instance is not recorded.
- Rpcify.OwnFunction: an own property of the instance that holds a function (a local function or a stub for the peer's callback) is applied by the source, as is an own `toString` property that `toLocaleString` calls. The model does not invoke it: neither the recorded call nor the FULFIL_CALLBACK a stub sends is modelled, and the instance keeps its state.
- Rpcify.RPCify.MakeCall: `cache[id]` is looked up in a plain object, so an ID such as `constructor` or `__proto__` finds an inherited member there, and `makeNew` under such an ID writes a prototype slot. The model's cache is a map with own keys only. The IDs a peer's `makeId` issues are `prefix.n` and never such names.
- Session.HypeRPC.FulfilCallbackMsg: `callbacks[id]` finds inherited members of `Object.prototype` for an ID such as `toString`, which the source then applies; the model treats such an ID as unknown.
- Session.HypeRPC.FulfilPromiseMsg: `promises[id]` likewise finds inherited members for an ID such as `constructor`; the model treats such an ID as unknown.

### Where the code and its documentation differ (the model follows the code)

- `toManifest` reads only the prototype's own keys (`Object.keys`). It never walks the prototype chain, so inherited methods are not exposed.
- `include` bypasses skipPrivate and exclude. It can therefore expose keys such as `constructor`, as long as they are prototype functions.
- `makeCall` returns nothing, so a method call on a remote instance never gets a FULFIL_PROMISE reply, even in promise mode.
- The veto option is named `check`. The test passes `access`, which the code ignores.
- `fulfilPromise` never deletes a promise entry, and a second settlement is a no-op.
- `isObjectStream` reads the writable side's object mode first. A transform parsing bytes into objects (object-mode readable side, byte writable side, no pipes) is sent as READABLE with object mode false, so its object chunks go into a byte pass-through instead of being JSON-encoded (Streams.MixedModeTransformUnconverted).
- The conversion table has no row for RPCify instances. An RPCify object passed as an argument goes through the default row, so returning an RPCify object is not modelled as a feature.
- An API key containing '.' is listed in the MANIFEST and gets a mirror, but the CALL through that mirror is split at the dot. The value under the key never matters (Manifest.DottedKeyIgnored): the call fails when nothing sits at the split path (Manifest.DottedKeyUnroutable), and reaches whatever does sit there otherwise (Manifest.DottedKeyMisrouted).
