# Page initializer: a verified model

This project models `createPageInitializer`, the page controller of a small
front-end framework, in Dafny. The controller keeps one mutable result store
(`actionResults`) with an error table inside it (`actionResults.errors`).
It does four things:

- It wraps every command. Each call of a wrapped command writes to the store
  and renders the page.
- It runs the configured data providers strictly in order.
- It resolves slots for the renderer.
- It mounts each rendered tree.

The model has five modules, one per component of the controller:

- `Values`: the values held in the store, and the store the page starts from.
- `Errors`: error records and the rules of the error aggregator.
  - Records are objects (`Errors.ErrorRecord`). A first occurrence files the
    thrown error itself, and `due` lists hold references to records that are
    filed as well, so cancelling through a `due` list reaches the same
    objects.
  - `Upsert` states what one occurrence does to a record.
  - `DueMap` states how a `due` list is filed.
- `Slots`: the argument of a render (`View`, `RenderArgs`) and the slot
  resolver.
- `Providers`: the provider runner as a specification.
  - `Step` is one iteration of the runner's loop, and `RunAll` runs a whole
    list of providers.
  - `Deliver` is a subscription's callback being called with payloads.
  - `SyncPrefix` is the point where the runner first suspends on a promise.
  - The lemmas state the ordering properties.
- `PageInitializer`: the page itself, a class `Page`.
  - `results` is the store without its `errors` entry, and `errors` is that
    entry.
  - `renders` is the render log: one `View` per `mountPage` call, holding the
    store, the error table and the command in flight that the render saw.
  - `vDomTree` is the tree last mounted.
  - Each wrapper, each step of the provider runner and each step of the init
    sequence is a method. Its `ensures` ties the new state to the
    specification functions above.
  - `Valid()` is the invariant the methods keep:
    - the store has no `errors` key;
    - every record is filed under its own name;
    - every subscribed provider is a configured provider;
    - the live tree is the render of the last logged view.

An asynchronous step is split in two. A command that returns a promise is
`Invoke(name, Pending)`, which renders with the command in flight, and later
`Resolve` or `Reject`. `reload` is `Reload`, which runs the providers up to the
first promise and renders with `reload` in flight. It is followed by
`ResumeProviders`, which lets the runner resume and finish and renders for
`reload` itself, and then by `ReloadResolved`, which completes the wrapper's
promise; `ReloadSettle` takes both in one go. `ReloadResolved` requires that
no reload is waiting on a provider, so it cannot run before the body of
`reload` has finished. If the promise the reload waits on rejects instead, `ReloadFail` hands the
error to `handleError`; nothing is stored for that provider and `reload`
itself does not render. `Resolve` and `Reject` are for callers' commands
only; the reload's own promise settles through these reload steps. The
init sequence is the constructor (the synchronous set-up) followed by `Start`
(`await runProviders()`, the mount and the after-providers hook).

Where the code and the documented behaviour disagree, the model follows the
code:

- A first occurrence of an error name files the thrown object as it is. It
  gets no `isCancelled` property, while the documented record shows
  `isCancelled: false`.
- A repeat occurrence merges the new error's properties into the old record.
  It does not replace the payload wholesale, so older properties that the new
  error lacks survive.
- `cancelError` called through its wrapper stores `undefined` under
  `cancelError` and renders, although the documentation says it triggers no
  render.
- The promise a wrapped asynchronous command returns resolves to `undefined`,
  not to the command's value.
- A wrapped `reload` renders three times:
  - once with `reload` in flight, after the providers that run before the
    first promise;
  - once for `reload` itself, after all providers have settled;
  - once more when the wrapper stores `undefined` under `reload`.

  The documentation speaks of one render after all providers settle.

## Model

| member | source | states |
|---|---|---|
| `Values.InitialStore` | src/createPageInitializer.js:21 | The store starts as the seeded keys without any seeded `errors`. `fail`, `route` and `parseRootNodeDataset` are then set (lines 119-121), and every other seeded value is kept. |
| `Errors.ErrorRecord.CopyFrom` | src/createPageInitializer.js:58-62 | On a repeat, the filed record's new state is `Merge` of its old state and the new error's. |
| `Errors.ErrorRecord.CountThrow` | src/createPageInitializer.js:65-66 | The record's counter becomes its old value, or 0 if absent, plus one; nothing else on the record changes. |
| `Errors.Merge` | src/createPageInitializer.js:58-62 | A repeat keeps the union of the old and new property keys, with each new property overriding and each old-only property surviving. It clears the cancellation, and takes `throwCount` and `due` from the new error when it has them. |
| `Errors.Upsert` | src/createPageInitializer.js:56-66 | First occurrence: the error itself with its own counter (0 if absent) plus one, and no cancellation flag set. Repeat: cancellation cleared, counter one above the old one when the new error has none, `due` and properties merged. Either way the counter is present afterwards. |
| `Errors.RepeatCountsOnce` | src/createPageInitializer.js:56-66 | Two occurrences of one name: the count after the second is exactly one more than after the first, and the second clears any cancellation made in between. |
| `Errors.ValidationErrorTwice` | src/createPageInitializer.js:55-66 | A `ValidationError` on `email` then on `phone`: the record ends as field `phone`, not cancelled, count 2, after being `email`, count 1, with no flag. |
| `Errors.Counted` | src/createPageInitializer.js:65-66 | The counter becomes the old counter, or 0 if absent, plus one, and every other part of the record is kept. |
| `Errors.DueMap` | src/createPageInitializer.js:68-73 | The names filed are exactly the names of the `due` entries, and each is filed under its own name with one of the `due` entries as its record, so no other name is written. |
| `Errors.DueMapLastWins` | src/createPageInitializer.js:71 | Within one `due` list, the last entry of a name is the one filed. |
| `Slots.CreateSlotRenderer` | src/createPageInitializer.js:43-54 | A registered slot yields a function of the host data that calls the handler with that render's store, error table and in-flight command. An unregistered one always yields `null`. |
| `Slots.ViewSlots` | src/createPageInitializer.js:43-54 | The slots resolved in a render issued with some state and in-flight command see exactly that state and that command (`SlotsSee`). |
| `Providers.Deliver` | src/createPageInitializer.js:100-102 | A subscription's callback leaves the last payload under the provider's name, or the store untouched if there was none, and subscriptions unchanged. |
| `Providers.DeliverRenders` | src/createPageInitializer.js:100-103 | The callback renders once per payload, and the i-th render sees the store holding the i-th payload under the provider's name. |
| `Providers.Step` | src/createPageInitializer.js:107-115 | One iteration of the runner's loop subscribes at most the provider it runs, and subscribes it exactly when it returns a subscription function; what it does to the store and renders is `StepFrame`. |
| `Providers.StepFrame` | src/createPageInitializer.js:107-115 | One provider changes only its own entry. A value or a promise is stored there without a render. A subscription function is recorded. Earlier renders are kept. |
| `Providers.RunAll` | src/createPageInitializer.js:105-117 | The reference definition of a whole run, one `Step` per provider in list order. Subscriptions only grow, and only providers of the list are added. |
| `Providers.SyncPrefix` | src/createPageInitializer.js:109-110 | The runner first suspends at the first provider that returns a promise, or runs to the end if none does. |
| `Providers.SyncPrefixUnique` | src/createPageInitializer.js:109-110 | That suspension point is the only position before which no provider suspends and at which one does. |
| `Providers.RunExtends` | src/createPageInitializer.js:106-107 | The i-th provider is invoked with the store the first i providers left. |
| `Providers.RunAppend` | src/createPageInitializer.js:105-117 | Running `a` then `b` is running `a + b`: the runner is strictly sequential. |
| `Providers.RunKeepsOtherKeys` | src/createPageInitializer.js:105-117 | A key that no provider of the list is named after is left as it was. |
| `Providers.RunStoresValue` | src/createPageInitializer.js:109-115 | A provider that returns a value or a promise, and whose name no later provider shares, leaves exactly that value in the final store. |
| `Providers.AwaitedSeenByNext` | src/createPageInitializer.js:109-110 | A promise's value is stored before the next provider is invoked, which is handed a store holding it. |
| `Providers.RunWithoutStreamsRendersNothing` | src/createPageInitializer.js:109-115 | Providers that return values or promises render nothing. |
| `Providers.ResumeCompletesRun` | src/createPageInitializer.js:105-117 | Suspending at the first promise and resuming later gives the same store, subscriptions and renders as a run taken in one go. |
| `PageInitializer.Page.constructor` | src/createPageInitializer.js:119-123 | The page starts with the initial store, an empty error table, an empty render log, the lifted tree, nothing in flight and no subscriptions. |
| `PageInitializer.Page.Start` | src/createPageInitializer.js:124-129 | The store becomes that of running every provider in order, and the log gains each callback render, then exactly one untagged render of the final store. The hook is called exactly when it was supplied. |
| `PageInitializer.Page.Mount` | src/createPageInitializer.js:10-13 | One render of the current state, tagged with the command in flight, is appended and becomes the live tree. The error table is not touched. In that render every registered slot hands its handler the current store, the error table and the command in flight (`null` for an untagged render), and every other slot yields `null` (`SlotsSee`). |
| `PageInitializer.Page.HandleError` | src/createPageInitializer.js:55-76 | The filed record's new state is `Upsert` of its old state (if any) and the error's. The table maps the name to the old record or the error itself, with the `due` entries overwriting wholesale. `due` entries are not counted. Exactly one untagged render follows. |
| `PageInitializer.Page.FileError` | src/createPageInitializer.js:56-73 | The filing part of `handleError`, with the same record, table and `due` guarantees and no render. |
| `PageInitializer.Page.CancelTargets` | src/createPageInitializer.js:25-31 | The records `cancelError` marks are the named record and exactly the entries of its `due` list; an unknown name marks nothing. |
| `PageInitializer.Page.Cancel` | src/createPageInitializer.js:24-34 | The named record and every `due` entry become cancelled, with nothing else on them changed. The table keeps its keys and records, and an unknown name changes nothing. |
| `PageInitializer.Page.CancelError` | src/createPageInitializer.js:92-94 | The wrapped `cancelError` cancels, then stores `undefined` under `cancelError` and renders once untagged. It returns `undefined`. |
| `PageInitializer.Page.Redirect` | src/createPageInitializer.js:35-37 | The wrapped `redirect` stores `undefined` under `redirect`, renders once untagged and returns `undefined`. |
| `PageInitializer.Page.Invoke` | src/createPageInitializer.js:77-99 | A plain value is stored under the command's name, with no other key changing. It is rendered once untagged and returned. A promise adds one render tagged with the command's name and nothing else, whose slots see that name as the command in flight, and the promise is returned. A throw goes through `handleError` and returns `undefined`. |
| `PageInitializer.Page.Resolve` | src/createPageInitializer.js:86-89 | A caller command's settled value is stored under the command's name with exactly one untagged render, and the promise resolves to `undefined`. |
| `PageInitializer.Page.Reject` | src/createPageInitializer.js:90 | A caller command's rejection goes through `handleError`, and the command's own key is left unchanged. |
| `PageInitializer.Page.Push` | src/createPageInitializer.js:100-103 | A pushed payload is stored under the provider's name, with exactly one untagged render. |
| `PageInitializer.Page.RunProviders` | src/createPageInitializer.js:105-117 | The store, subscriptions and renders become those of `RunAll` over the providers. When the run stops at its first promise, it stops exactly at `SyncPrefix` and hands back that promise's value. |
| `PageInitializer.Page.Apply` | src/createPageInitializer.js:107-115 | One iteration of the runner's loop has exactly the effect of `Step`. |
| `PageInitializer.Page.Subscribe` | src/createPageInitializer.js:111-112 | Registering a subscription has exactly the effect of `Deliver`, and the provider is recorded as subscribed. |
| `PageInitializer.Page.Reload` | src/createPageInitializer.js:38-41 | The providers up to the first promise run, then one render tagged `reload`, whose slots see `reload` as the command in flight. The suspension point and the awaited value are kept for the resumption. |
| `PageInitializer.Page.ResumeProviders` | src/createPageInitializer.js:39-40 | The awaited value is stored under its provider's name (line 110), the remaining providers run as `RunAll` says, and `reload` then renders the final store once with nothing in flight (line 40). The reload no longer waits. |
| `PageInitializer.Page.ReloadSettle` | src/createPageInitializer.js:38-41 | After resuming, `reload` renders once with the final store. The wrapper then stores `undefined` under `reload` and renders once more. |
| `PageInitializer.Page.ReloadResolved` | src/createPageInitializer.js:86-88 | Only once no reload waits on a provider, that is once `reload`'s body has finished: the wrapper stores `undefined` under `reload`, the reload is no longer in flight, and one untagged render follows. |
| `PageInitializer.Page.ReloadFail` | src/createPageInitializer.js:39 | The promise a reload waits on rejects: the reload is no longer in flight, nothing is stored for the provider, no store key changes, and the error goes through `handleError` (line 90) with its one untagged render. |

## Left out

- The virtual-dom `diff`, `patch` and `vdom-parser` calls are foreign libraries. Mounting is "append the view to the render log and make its render the live tree"; the lifted tree is a parameter, and `vDomState.rootNode` is not modelled.
- Navigation is browser I/O. `redirect`'s assignment to `window.location` is not modelled, and `route` is the location's `href` passed in as a parameter.
- `renderPage`, the slot handlers, the commands and the providers are caller code. They are opaque functions and tagged outcomes. A provider is a function of its name and the store it is handed, so the model cannot express a provider with side effects.
- A slot handler also receives the bound commands (`actions`). They are the page's own methods, not a value, so they are left out of `SlotArgs`.
- Concurrency is left out:
  - Promise and event-loop interleaving between overlapping commands, stream pushes and provider awaits is not modelled. Each asynchronous step is one atomic method call.
  - Only the first await of the reload's provider run is a separate step; later awaits within `ResumeProviders` happen in the same call.
  - The init's own provider run is one call (`Start`).
- Failures inside the provider runner are only partly modelled:
  - During the init sequence (line 124), a provider that throws or whose promise rejects makes the page's own promise reject. Nothing handles it. `Start` does not model this.
  - During a wrapped `reload`, such a failure rejects `reload`'s promise, and the wrapper's `.catch` (line 90) files and renders the error. `reload`'s own render and the `undefined` stored under `reload` are then skipped. `ReloadFail` models this only when the promise the reload first suspended on rejects. A provider that throws, or a later provider's promise that rejects inside `ResumeProviders`, is not modelled.
- Errors thrown by `renderPage` or by a `.then` handler are not modelled, and neither is a provider calling `fail` while it runs.
- The reflective copy of an error's own properties is modelled as a property map plus explicit `isCancelled`, `throwCount` and `due`, with `name` a constant. A thrown value that is not an object is not modelled.
- `PageInitializer.Page.Invoke` and `PageInitializer.Page.constructor`: a command or provider named `errors` would replace the error table in the source. So `Invoke` requires a command name other than `errors`, and the constructor requires that no configured provider has that name.
- `PageInitializer.Page.Invoke`: a caller command named like a built-in is replaced by the built-in in the source, so `Invoke` requires a name outside the built-ins. The built-ins are `CancelError`, `Redirect` and `Reload`.
- `vDomState` is shared by every page in the source (module scope). Here each `Page` has its own live tree.
- `Slots.View`, `Slots.CreateSlotRenderer` and `Providers.Provide`: the source hands the live `actionResults` object, including `errors`, to `renderPage`, to slot handlers when a slot renderer is called (line 46), and to providers (line 107). The model passes copies:
  - a render and its slots get the store and the error records' states as they were when the render was issued, so a slot renderer kept and called after a later write does not see that write;
  - a provider gets the store without the error table, so a provider that reads `errors` cannot be expressed.
- Names inherited from `Object.prototype` are not modelled. `errors[name]` (lines 25 and 56) and `slots[id]` (line 44) are lookups on plain objects, so in the source a name such as `constructor`, `toString` or `hasOwnProperty` is found before anything is filed or registered. `handleError` would then take the repeat path, copy onto the inherited function and file nothing, and `getSlot` would call the inherited function instead of yielding `null`. The model's tables are maps, so such a name behaves like any other.
- `PageInitializer.Page.Reload` and `PageInitializer.Page.ReloadResolved`: overlapping reloads are modelled only in part. The source lets a second `reload` start at any time. Here `Reload` requires that no earlier reload is still waiting on a provider, and `ReloadResolved` for a finished reload waits until no later reload is waiting. A second reload that starts once the first one's provider run has finished is allowed, as in the source.
