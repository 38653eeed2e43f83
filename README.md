# DeskThing app client — message bookkeeping

The DeskThing app client is the library that a DeskThing app's web page
loads inside the host's iframe. It keeps a registry of listeners keyed by
message type. It posts requests to the parent window and routes the
host's messages to the registered callbacks. Its request/reply helper
(`fetch`, formerly `fetchData`) pairs one outgoing request with one
incoming reply, using a one-shot listener and a 5000 ms timeout.

This project models that bookkeeping in three generations of the client:

- **current** — `DeskThingClass` in `src/deskthing.ts`. Modules `ClientSpec`
  (state machine and invariant), `ClientProps` (properties) and
  `ClientClass` (the class). Helper modules: `Input` (key and wheel
  forwarding, key overrides), `Manifests`, `Images` (`formatImageUrl`,
  `useProxy`) and `Triggers` (`triggerAction`, `triggerKey`).
- **older** — `DeskThing` in `index.ts`. Modules `LegacySpec`,
  `LegacyProps` and `LegacyClass`.
- **oldest** — the compiled `DeskThing` in `dist/index.js`. Modules
  `CompiledSpec` and `CompiledClass`.

Shared pieces: `Js` (JavaScript truthiness, `||`, `??`, `indexOf`, first
`replace`, ASCII `toLowerCase`, decimal rendering), `Wire` (message records
and the envelope normalisation of `send`) and `Registry` (the per-type
lists, removal by identity, the `once` request filter and the correlation
key). `Versions` states how the generations differ on the same inputs.

How the model is built:

- Each class is a Dafny `class` with the source's fields. Its methods
  ensure `State() == Spec.Step(old(State()), …)`. The pure step functions
  carry the invariant and the properties.
- Callbacks have identities: `User(fn)` is a function the app passed in.
  `Wrapper(id)` is a closure that `once` created. The `wrappers` map holds
  what each closure captured.
- Promises are numbered handles. A promise is `Waiting` on its listener, or
  `Settled` with a result, where `None` is `undefined`.
- Every asynchronous continuation becomes one atomic event, as on the single
  JavaScript event loop: a call (`Fetch`), an inbound message
  (`HandleMessage`) or the expiry of one timer (`Timeout`).
- An inbound event takes a `throwing` set. It names the user functions
  that throw on this call.
- The ghost log `sent` records what is posted to the parent.
- The ghost log `invoked` records which user functions were called, with
  what argument.

## Model

| member | source | states |
|---|---|---|
| Js.Or | src/deskthing.ts:706 | `a \|\| b` is `a` when `a` is truthy and `b` otherwise |
| Js.Coalesce | src/deskthing.ts:876 | `a ?? b` is `b` exactly when `a` is null or undefined |
| Js.TextOr | src/deskthing.ts:429 | an optional string or its fallback, decided by truthiness |
| Js.NonEmpty | src/deskthing.ts:873-875 | `o \|\| undefined` is present exactly when `o` is a non-empty string, and then unchanged |
| Js.IndexOf | src/deskthing.ts:815-818 | the result is an occurrence of the pattern with no earlier one; `None` means there is none |
| Js.ReplaceFirst | src/deskthing.ts:815-818 | a string-pattern `replace` splices the replacement over the first occurrence only; with no occurrence the string is unchanged |
| Js.ReplaceFirstBySelf | src/deskthing.ts:815-818 | replacing the first occurrence by the pattern itself changes nothing |
| Js.Lower | src/deskthing.ts:120 | same length, each character lower-cased (ASCII) |
| Js.LowerIdempotent | src/deskthing.ts:178 | lower-casing twice is lower-casing once |
| Js.NatToString | src/deskthing.ts:817 | a non-empty run of decimal digits |
| Js.NatToStringRoundTrip | src/deskthing.ts:817 | reading the rendered digits back gives the number |
| Wire.Normalize | src/deskthing.ts:871-879 | falsy `app`/`type`/`request` become absent; the posted payload is never undefined |
| Wire.NormalizeLegacy | index.ts:641-651 | falsy string fields become absent; the payload is truthy or null |
| Wire.NormalizeKeepsDefinedPayload | src/deskthing.ts:876 | the current envelope keeps every defined payload, including `0`, `""` and `false`; truthy fields pass through |
| Wire.NormalizeLegacyDropsFalsy | index.ts:648 | the older envelope's payload is null exactly when the given payload is falsy |
| Wire.NormalizationsAgreeUnlessFalsyPayload | index.ts:641-651 | the two envelopes are equal exactly when the payload is truthy or nullish |
| Wire.NormalizeIdempotent | src/deskthing.ts:871-879 | normalising a posted envelope again changes nothing (both versions) |
| Registry.Append | src/deskthing.ts:230-240 | the list for the type is created if absent and gets the callback at its end; other lists are untouched |
| Registry.Remove | src/deskthing.ts:251-260 | only the type's list changes, to the old list without the callback; no-op for an unknown type |
| Registry.Without | src/deskthing.ts:256-258 | the survivors are exactly the other callbacks, and the list never grows |
| Registry.WithoutConcat | src/deskthing.ts:256-258 | filtering distributes over concatenation, so survivors keep their order |
| Registry.WithoutMultiset | src/deskthing.ts:256-258 | every other callback keeps its number of occurrences; the removed one has none |
| Registry.WithoutAbsent | src/deskthing.ts:256-258 | removing an unregistered callback leaves the list as it was |
| Registry.AppendThenRemove | src/deskthing.ts:230-260 | `on` then its remover removes every occurrence; for a new callback the list is restored exactly |
| Registry.UnfilteredMatchesAll | src/deskthing.ts:348 | a `once` without a request filter accepts every message |
| Registry.FilteredMatchesExactly | src/deskthing.ts:348 | with a filter, a message is accepted exactly when it carries that request |
| Registry.PropKey | src/deskthing.ts:277 | a present type is its own key; an absent one reads the key "undefined" |
| Registry.ListenKeyUndefinedAliases | src/deskthing.ts:306 | an absent request, an empty one and the text "undefined" give the same key |
| Registry.ListenKeySeparatesRequests | src/deskthing.ts:429 | distinct non-empty requests of one type give distinct keys |
| Registry.ListenKeyHyphenCollision | src/deskthing.ts:429 | different (type, request) pairs can share a key when the type contains a hyphen |
| ClientSpec.InitialValid | src/deskthing.ts:70-80 | the empty client satisfies the bookkeeping invariant |
| ClientSpec.InvokeFrame | src/deskthing.ts:339-355 | one callback call never adds a closure, promise or listener, and never reopens a settled promise |
| ClientSpec.UnsubscribeListed | src/deskthing.ts:251-260 | `off` removes exactly the one (type, callback) registration |
| ClientSpec.ShrinkValid | src/deskthing.ts:251-260 | removing registrations that no waiting caller depends on keeps the invariant |
| ClientSpec.RetireValid | src/deskthing.ts:447-454 | settling a waiting fetch keeps the invariant: its listener and key go and nothing else is unregistered |
| ClientSpec.InvokeValid | src/deskthing.ts:339-355 | one callback call keeps the invariant |
| ClientSpec.DispatchValid | src/deskthing.ts:287-313 | an emission over any snapshot keeps the invariant |
| ClientSpec.HandleMessageValid | src/deskthing.ts:268-278 | handling any inbound message keeps the invariant |
| ClientSpec.SubscribeValid | src/deskthing.ts:230-240 | `on` with an app function keeps the invariant |
| ClientSpec.UnsubscribeValid | src/deskthing.ts:251-260 | `off`, or a remover of `on`/`once`, keeps the invariant |
| ClientSpec.OnceValid | src/deskthing.ts:339-355 | `once` keeps the invariant |
| ClientSpec.QuietValid | src/deskthing.ts:305-312 | posting and dropping pending keys keep the invariant |
| ClientSpec.RegisteredFetchValid | src/deskthing.ts:443-462 | the state right after a fetch registers its promise and listener is valid |
| ClientSpec.FetchValid | src/deskthing.ts:409-475 | every `fetch` call keeps the invariant |
| ClientSpec.TimeoutValid | src/deskthing.ts:464-469 | a timer expiry keeps the invariant |
| ClientProps.InvokeSummary | src/deskthing.ts:339-355 | one call: which app function ran, which key was cleared, which registration was dropped |
| ClientProps.DispatchSummary | src/deskthing.ts:291-302 | an emission: all user calls in snapshot order, keys cleared, exactly the fired closures unregistered |
| ClientProps.DispatchSettles | src/deskthing.ts:447-454 | a waiting promise settles with the message exactly when its listener is in the snapshot and accepts it |
| ClientProps.DispatchKeepsSettled | src/deskthing.ts:447-454 | a settled promise is never resolved again |
| ClientProps.CallsInclude | src/deskthing.ts:291-302 | each callback's calls and keys appear in the emission's |
| ClientProps.EmitSummary | src/deskthing.ts:287-313 | emit = dispatch, then the message's own key is dropped, with a debug log only when it was pending |
| ClientProps.DispatchPromiseKeys | src/deskthing.ts:291-302 | an emission creates and deletes no promise |
| ClientProps.ThrowsDoNotStopOthers | src/deskthing.ts:293-300 | a registered app function is called even when others throw; the calls are as if nothing threw |
| ClientProps.ForeignMessagesIgnored | src/deskthing.ts:270 | a message whose source is not "deskthing" changes nothing |
| ClientProps.FetchRejectsMalformed | src/deskthing.ts:417-427 | no request type, no pattern or no pattern type: `undefined` at once, no state change |
| ClientProps.FetchOutcome | src/deskthing.ts:429-462 | fresh promise and listener, key pending; the request is posted only when the key was not already pending |
| ClientProps.TimeoutOutcome | src/deskthing.ts:464-469 | error logged, listener removed, key dropped, promise resolves to `undefined`; nothing else changes |
| ClientProps.LateTimeoutIsHarmless | src/deskthing.ts:464 | a timer that fires after the reply changes nothing |
| ClientProps.RetryAfterTimeoutSends | src/deskthing.ts:457-467 | after a timeout the same request is posted again |
| ClientProps.ReplySettlesWaitingCaller | src/deskthing.ts:447-454 | a matching reply settles the caller, drops its key and listener, and posts nothing |
| ClientProps.ReplySettlesBoth | src/deskthing.ts:447-454 | one reply settles two callers waiting on it |
| ClientProps.TwoFetchesOutcome | src/deskthing.ts:443-462 | two overlapping fetches for one pattern get promises `p` and `p + 2`, both listeners are registered, and only the first call posts its request |
| ClientProps.ReplyAfterTwoFetches | src/deskthing.ts:447-454 | one matching reply settles both waiting callers, clears the key, posts nothing and unregisters both listeners |
| ClientProps.OnThenRemove | src/deskthing.ts:230-260 | `on` then its remover restores every list |
| ClientProps.OnceEmission | src/deskthing.ts:339-355 | `once` fires its function exactly when the filter matches, and stays registered exactly when it did not match or threw |
| ClientProps.OnceFiresOnce | src/deskthing.ts:347-353 | a matching `once` calls its function and unregisters |
| ClientProps.OnceIgnoresOtherRequests | src/deskthing.ts:348 | a filtered `once` ignores other requests and stays registered |
| ClientProps.OnceSurvivesThrowingCallback | src/deskthing.ts:351-352 | a `once` whose function throws stays registered |
| ClientProps.OnceSiblingsBothFire | src/deskthing.ts:291-302 | two `once`s of one type both fire in order on one message, and the list ends empty |
| ClientClass.DeskThingClass.constructor | src/deskthing.ts:70-80 | empty registry, no pending keys, no overrides, no manifest |
| ClientClass.DeskThingClass.On | src/deskthing.ts:230-240 | the new state is `Subscribe`; the remover names the same pair |
| ClientClass.DeskThingClass.Off | src/deskthing.ts:251-260 | the new state is `Unsubscribe` |
| ClientClass.DeskThingClass.Remove | src/deskthing.ts:239 | calling a remover is `off` on its pair |
| ClientClass.DeskThingClass.Once | src/deskthing.ts:339-355 | a fresh closure is filed and registered |
| ClientClass.DeskThingClass.Invoke | src/deskthing.ts:293-300 | one callback of an emission, as in `ClientSpec.Invoke` |
| ClientClass.DeskThingClass.Emit | src/deskthing.ts:287-313 | loop over the snapshot, then the key cleanup: the new state is `ClientSpec.Emit` |
| ClientClass.DeskThingClass.HandleMessage | src/deskthing.ts:268-278 | the new state is `ClientSpec.HandleMessage` |
| ClientClass.DeskThingClass.Send | src/deskthing.ts:871-879 | appends the normalised envelope |
| ClientClass.DeskThingClass.Fetch | src/deskthing.ts:409-475 | the new state and result are `ClientSpec.Fetch` |
| ClientClass.DeskThingClass.FetchData | src/deskthing.ts:507-516 | `fetch` with the pattern (type, request) |
| ClientClass.DeskThingClass.SendMessageToParent | src/deskthing.ts:856-858 | same as `send` |
| ClientClass.DeskThingClass.Timeout | src/deskthing.ts:431-469 | the new state is `ClientSpec.Timeout` |
| ClientClass.DeskThingClass.OverrideKeys | src/deskthing.ts:177-179 | adds the lower-cased keys; nothing else changes |
| ClientClass.DeskThingClass.RestoreKeys | src/deskthing.ts:187-189 | removes the lower-cased keys; nothing else changes |
| ClientClass.DeskThingClass.StoreManifest | src/deskthing.ts:159-164 | stores the manifest; nothing else changes |
| ClientClass.DeskThingClass.TriggerKey | src/deskthing.ts:733-746 | fills in a missing source on the caller's own object, then posts the key envelope |
| ClientClass.DeskThingClass.TriggerAction | src/deskthing.ts:699-709 | posts the action with its defaults filled in |
| ClientClass.DeskThingClass.ForwardKeyboard | src/deskthing.ts:110-126 | posts `{id: code, mode}` unless the event was handled or its lower-cased code is overridden |
| ClientClass.DeskThingClass.ForwardWheel | src/deskthing.ts:110-140 | posts `{id: "Scroll", mode}` unless the event was handled or "wheel" is overridden |
| ClientClass.SharedRequestScenario | src/deskthing.ts:443-462 | on a new client, two fetches for one reply get distinct promises, both settle with the reply, and no key stays pending |
| Input.ModeNumber | index.ts:184-197 | the enum values are 0..11 |
| Input.ModeNumberInjective | index.ts:184-197 | distinct modes have distinct numbers |
| Input.KeyMode | src/deskthing.ts:124-125 | KeyDown exactly for keydown, KeyUp otherwise |
| Input.WheelMode | src/deskthing.ts:134-139 | vertical movement decides first; horizontal only when vertical is zero; no movement is ScrollUp |
| Input.WheelModeScaleInvariant | src/deskthing.ts:134-139 | only the signs of the deltas matter |
| Input.WheelModeReversed | src/deskthing.ts:134-139 | reversing a real scroll gives the opposite direction |
| Input.Lowered | src/deskthing.ts:178 | every stored override key is lower case |
| Input.LoweredMembership | src/deskthing.ts:178 | a key is stored exactly when some given key lower-cases to it |
| Input.OverrideIgnoresCase | src/deskthing.ts:120 | overriding a key suppresses it in any letter case |
| Input.ScrollOverrideLeavesWheel | src/deskthing.ts:130 | overriding "Scroll" does not stop wheel forwarding; "Wheel" does |
| Input.RestoreUndoesOverride | src/deskthing.ts:177-189 | restore after override gives back the earlier set when none of the keys was there before |
| Manifests.ContextOf | src/deskthing.ts:805 | a context exists exactly when there is a manifest that has one |
| Manifests.Host | src/deskthing.ts:842 | never empty; the manifest's ip when that is non-empty |
| Manifests.Port | src/deskthing.ts:842 | never 0; the manifest's port when non-zero |
| Manifests.DefaultHostPort | src/deskthing.ts:817 | with no usable context the address is "localhost:8891" |
| Images.FormatImageUrl | src/deskthing.ts:804-822 | unchanged without a context, for data URLs, off-device, or without "localhost:8891"; otherwise the first occurrence is replaced by the manifest address |
| Images.FormatImageUrlDefaultAddress | src/deskthing.ts:813-819 | a context naming localhost:8891 leaves every URL unchanged |
| Images.FormatImageUrlRewritesHost | src/deskthing.ts:813-819 | an `http://localhost:8891` URL is moved to the manifest's host and port, path kept |
| Images.UseProxy | src/deskthing.ts:835-843 | data URLs are unchanged; others become the proxy URL on the manifest address with the encoded URL appended |
| Images.ProxyAndRewriteAgree | src/deskthing.ts:804-843 | the proxy and the image rewrite use the same origin |
| Triggers.ActionPayload | src/deskthing.ts:699-709 | other fields kept, `enabled` defaults to true only when nullish, `source` falls back to manifest id then "server" |
| Triggers.ActionPayloadDefaults | src/deskthing.ts:704-705 | the posted action always has a truthy source, and `enabled: false` is kept |
| Triggers.ActionPayloadIdempotent | src/deskthing.ts:699-709 | defaulting an already defaulted action changes nothing |
| Triggers.WithKeySource | src/deskthing.ts:737-739 | a truthy source is kept; otherwise it becomes manifest name then "server"; other fields kept |
| Triggers.WithKeySourceIdempotent | src/deskthing.ts:737-739 | the result names a source, and defaulting again changes nothing |
| Triggers.SourceDefaultsDiffer | src/deskthing.ts:705 | an action falls back to the manifest id, a key to its name |
| LegacySpec.InitialValid | index.ts:237-239 | the empty client satisfies the invariant |
| LegacySpec.InvokeValid | index.ts:404-411 | one callback call keeps the invariant and adds no closure or promise |
| LegacySpec.DispatchValid | index.ts:374-379 | an emission keeps the invariant |
| LegacySpec.FetchDataValid | index.ts:442-456 | `fetchData` keeps the invariant |
| LegacySpec.TimeoutValid | index.ts:443-455 | a timer expiry keeps the invariant |
| LegacySpec.DispatchStopped | index.ts:377 | once a callback has thrown, the rest of the snapshot is never reached |
| LegacyProps.FirstThrow | index.ts:377 | the first position whose callback throws, or none |
| LegacyProps.Reached | index.ts:377 | the callbacks that run form a prefix of the snapshot |
| LegacyProps.InvokeSummary | index.ts:404-411 | one call: whether it threw, which function ran, which registration was dropped |
| LegacyProps.DispatchSummary | index.ts:374-379 | an emission stops exactly at the first throw; only the reached callbacks run and unregister |
| LegacyProps.LaterCallbacksSkipped | index.ts:377 | after a throwing callback, the next is not called |
| LegacyProps.HandleMessageRouting | index.ts:359-365 | a message not from the host changes nothing; a host message reaches only the listeners of its own type (`"undefined"` when missing), up to the first throw, and posts nothing |
| LegacyProps.DispatchSettles | index.ts:448-450 | a waiting promise settles with the payload exactly when a reached listener accepts the message |
| LegacyProps.OverlappingFetchDataSendTwice | index.ts:442-456 | two overlapping `fetchData` calls post two requests and register two listeners |
| LegacyProps.ReplyResolvesToPayload | index.ts:448-450 | a matching reply resolves `fetchData` to the payload |
| LegacyProps.TimeoutKeepsListener | index.ts:454-455 | a timeout resolves to `undefined` and leaves the listener registered |
| LegacyProps.FetchDataOutcome | index.ts:442-456 | one `fetchData` call: the promise, its listener and the posted request |
| LegacyProps.StaleListenerConsumesLateReply | index.ts:448-450 | a listener left by a timeout consumes the late reply, which no longer reaches the caller |
| LegacyProps.TimedOutFetchDataLeaksListener | index.ts:442-456 | after a timeout the listener is still registered and swallows the next matching reply |
| LegacyProps.OnceIgnoresOtherRequests | index.ts:406 | a filtered `once` ignores other requests and stays registered |
| LegacyClass.DeskThing.constructor | index.ts:237-239 | empty registry |
| LegacyClass.DeskThing.On | index.ts:331-338 | the new state is `Subscribe` |
| LegacyClass.DeskThing.Off | index.ts:348-352 | the new state is `Unsubscribe` |
| LegacyClass.DeskThing.Remove | index.ts:337 | calling a remover is `off` on its pair |
| LegacyClass.DeskThing.Once | index.ts:404-411 | a fresh closure is filed and registered |
| LegacyClass.DeskThing.Invoke | index.ts:377 | one callback of the `forEach`, as in `LegacySpec.Invoke` |
| LegacyClass.DeskThing.Emit | index.ts:374-379 | a loop that stops at the first throw; the new state is `LegacySpec.Dispatch` |
| LegacyClass.DeskThing.HandleMessage | index.ts:359-365 | the new state is `LegacySpec.HandleMessage` |
| LegacyClass.DeskThing.Send | index.ts:641-651 | appends the envelope with `payload \|\| null` |
| LegacyClass.DeskThing.SendMessageToParent | index.ts:626-628 | same as `send` |
| LegacyClass.DeskThing.FetchData | index.ts:442-456 | the new state and promise are `LegacySpec.FetchData` |
| LegacyClass.DeskThing.Timeout | index.ts:443-455 | the new state is `LegacySpec.Timeout` |
| LegacyClass.DeskThing.TriggerAction | index.ts:585-587 | posts the action as given |
| LegacyClass.DeskThing.TriggerKey | index.ts:611-613 | posts the key trigger as given |
| LegacyClass.DeskThing.ForwardKeyboard | index.ts:266-277 | posts `{key: code, mode}` unless the event was handled |
| LegacyClass.DeskThing.ForwardWheel | index.ts:266-287 | posts `{key: "Scroll", mode}` unless the event was handled |
| CompiledSpec.DispatchStopped | dist/index.js:113 | once a function has thrown, the rest of the list is never reached |
| CompiledSpec.FirstThrow | dist/index.js:113 | the first position whose function throws, or none |
| CompiledSpec.Reached | dist/index.js:113 | the functions that run form a prefix of the list |
| CompiledSpec.CallsWith | dist/index.js:113 | one call per function, in order, all with the same argument |
| CompiledSpec.DispatchSummary | dist/index.js:127-134 | the dispatch stops exactly at the first throw, calls the reached functions in order, and changes nothing else |
| CompiledSpec.Routing | dist/index.js:103-119 | client messages give their payload to the listeners of their type (none without a type); others give the whole message to the listeners of their app |
| CompiledSpec.TypeAndAppShareListeners | dist/index.js:108-117 | one list answers a client message by type and an app message by app name |
| CompiledSpec.OnNotifies | dist/index.js:70-84 | subscribing to apps/message/music/settings first posts an "on" notice; other events are silent; the function is appended |
| CompiledSpec.OnThenRemove | dist/index.js:70-97 | `on` then its remover restores every list; the host hears "on" then "off" exactly for the four feeds |
| CompiledSpec.LaterCallbacksSkipped | dist/index.js:113 | after a throwing function the next is not called |
| CompiledSpec.KeyDownReportsButton | dist/index.js:34-37 | a key press posts one envelope carrying its button; nothing else changes |
| CompiledClass.DeskThing.constructor | dist/index.js:31-33 | empty registry |
| CompiledClass.DeskThing.SendMessageToParent | dist/index.js:146-154 | appends the envelope with `payload \|\| null` |
| CompiledClass.DeskThing.On | dist/index.js:70-84 | the new state and remover are `CompiledSpec.On` |
| CompiledClass.DeskThing.Off | dist/index.js:93-97 | the new state is `CompiledSpec.Off` |
| CompiledClass.DeskThing.Remove | dist/index.js:77-80 | calling a remover posts "off" for the four feeds, then removes |
| CompiledClass.DeskThing.Run | dist/index.js:113 | the loop stops at the first throw; the new state is `CompiledSpec.Dispatch` |
| CompiledClass.DeskThing.Emit | dist/index.js:127-134 | the new state is `CompiledSpec.Emit` |
| CompiledClass.DeskThing.HandleMessage | dist/index.js:103-119 | the new state is `CompiledSpec.HandleMessage` |
| CompiledClass.DeskThing.KeyDown | dist/index.js:34-37 | the new state is `CompiledSpec.KeyDown` |
| Versions.RequestDeduplicationAdded | src/deskthing.ts:457-460 | the current client posts one request for two overlapping fetches; the older posts two |
| Versions.RoutingKeyChanged | dist/index.js:117 | the oldest client routes by app, the older one by type |
| Versions.KeySourceDefaultAdded | src/deskthing.ts:737-739 | the current `triggerKey` adds a source; the older posts the record unchanged |

## Left out

- DOM and window glue: `addEventListener`, the `postMessage` target and the `IFRAME_ACTION` wrapper. Posting is the `sent` log.
- `setTimeout`, `Promise.race` and promise chaining: replaced by the atomic events `Fetch`, `HandleMessage` and `Timeout`.
- The `callbackFn` of `fetch`: it is only a `then` on the returned promise.
- Effects of app callbacks on the client: a callback that itself calls `on`/`off`/`fetch` during an emission is not modelled. Only whether it throws is modelled.
- Logging helpers (`log`, `error`, `debug`, …): each post is recorded as `Log(level)`. The envelope strings come from an external package.
- `console.warn` messages of `fetch`.
- Singleton access (`getInstance`, the default export).
- Start-up work of the current constructor: the manifest request and the manifest listener. `StoreManifest` models only the assignment. The older constructor installs only the message listener and the keyboard/wheel forwarding, which `LegacyClass.DeskThing.ForwardKeyboard`/`ForwardWheel` model.
- The convenience wrappers `getMusic`, `getSettings`, `getApps`, `getKeyIcon`, `getActionIcon` and `getManifest`. Each is one `fetch`/`fetchData` call with fixed arguments.
- Type-level machinery: generics and `ExtractDevicePayload`.
- `toLowerCase` is ASCII-only here. Unicode case mapping is not modelled.
- Numbers are integers. Wheel deltas are reals, and only their signs matter. NaN and -0 are not modelled.
- `$` patterns in `String.replace`: `Images.FormatImageUrl` assumes the manifest's `ip`, which the host supplies and which is embedded in the replacement string, contains no `$`.
- `encodeURIComponent` is a parameter of `UseProxy`.
- Listener map keys inherited from the object prototype (`constructor`, `__proto__`).
- `CLIENT_REQUESTS`, `DEVICE_CLIENT`, `LOGGING_LEVELS`, `ClientPlatformIDs` and `EventMode` come, for the current client, from an external package that is not part of this model. `ACTION`/`KEY` are taken as "action"/"key", the literals of `index.ts`. The numbering of `EventMode` posted by `ClientClass.DeskThingClass.ForwardKeyboard`/`ForwardWheel` is taken from the enum declared in `index.ts` (declaration order, 0 to 11). The Car Thing platform is an abstract constructor.
- The compiled client's `AUDIO_REQUESTS` enum: constants only, never read by the client.
- ClientProps.OnceSiblingsBothFire: states that no callback of any kind remains under the type, not only the two closures.
- ClientSpec.UnsubscribeValid: proved only for removers that the client hands out. The listener that `fetch` registers is never returned to the app.
