/** The page controller: one mutable result store with its error table, the
    wrapped commands that write to it and render, the provider runner, and
    the render log that stands for the mounts of the virtual-dom tree. */
module PageInitializer {
  import opened Values
  import opened Errors
  import opened Slots
  import opened Providers

  /** What a caller's command does when invoked through its wrapper: return a
      plain value, return a promise (settled later by `Resolve` or `Reject`),
      or throw. */
  datatype CommandOutcome =
    | Returns(value: Value)
    | Pending
    | Throws(error: ErrorRecord)

  /** What a wrapped command hands back to its caller. */
  datatype Returned = Returned(value: Value) | PromiseReturned

  /** The caller's `renderPage`; its body is opaque. */
  type RenderPage = RenderArgs -> Tree

  /** Where a reload suspended: the position of the first provider that
      returned a promise and that promise's value, or the end of the list. */
  datatype Resume = Resume(next: nat, awaited: Option<Value>)

  /** One render per stream callback call, each seeing the store as that call
      left it. */
  function PushViews(pushes: seq<map<string, Value>>, table: map<string, ErrorState>): (views: seq<View>)
    ensures |views| == |pushes|
  {
    seq(|pushes|, i requires 0 <= i < |pushes| => View(pushes[i], table, None))
  }

  /** The renders of two runs in a row are those of the first, then those of
      the second. */
  lemma PushViewsAppend(a: seq<map<string, Value>>, b: seq<map<string, Value>>, table: map<string, ErrorState>)
    ensures PushViews(a + b, table) == PushViews(a, table) + PushViews(b, table)
  {
  }

  /** Renders logged before and during a run, then during one more step. */
  lemma RendersExtend(before: seq<View>, a: seq<map<string, Value>>, b: seq<map<string, Value>>,
                      table: map<string, ErrorState>, renders: seq<View>)
    requires renders == before + PushViews(a, table) + PushViews(b, table)
    ensures renders == before + PushViews(a + b, table)
  {
    PushViewsAppend(a, b, table);
  }

  /** Renders logged before and during a run, then by one more callback call. */
  lemma RendersPush(before: seq<View>, a: seq<map<string, Value>>, store: map<string, Value>,
                    table: map<string, ErrorState>, renders: seq<View>)
    requires renders == before + PushViews(a, table) + [View(store, table, None)]
    ensures renders == before + PushViews(a + [store], table)
  {
    PushViewsAppend(a, [store], table);
  }

  class Page {
    // the configuration and the caller's code
    const providerNames: seq<string>
    const provide: Provide
    const renderPage: RenderPage
    const slots: map<string, SlotHandler>
    const lifted: Tree
    // whether the caller supplied an after-providers hook
    const afterProviders: bool

    // `actionResults` without its `errors` entry, and that entry
    var results: map<string, Value>
    var errors: map<string, ErrorRecord>
    // one entry per mount, and the tree last mounted
    var renders: seq<View>
    var vDomTree: Tree
    // where a wrapped `reload` waits, while it does
    var reloading: Option<Resume>
    // commands whose promise has not settled, and providers subscribed to
    ghost var pending: multiset<string>
    ghost var streams: set<string>

    /** The store never holds `errors` (that entry is the error table), every
        record is filed under its own name, only configured providers are
        subscribed, and the live tree is the render of the last logged view. */
    ghost predicate Valid()
      reads this
    {
      && ErrorsKey !in results
      && ErrorsKey !in providerNames
      && (forall k | k in errors :: errors[k].name == k)
      && (forall p | p in streams :: p in providerNames)
      && (forall c | c in pending :: c != ErrorsKey)
      && vDomTree == (if renders == [] then lifted else Render(renders[|renders| - 1]))
      && (reloading.Some? ==>
            && reloading.value.next <= |providerNames|
            && (reloading.value.awaited.Some? <==> reloading.value.next < |providerNames|))
    }

    /** `renderPage` called for `view`, with slots resolved for that view. */
    function Render(view: View): (tree: Tree) {
      renderPage(RenderArgs(view, slots))
    }

    /** The error table as a render sees it: each name's record, by value. */
    function ErrorTable(): (t: map<string, ErrorState>)
      reads this`errors, errors.Values
    {
      map k | k in errors :: errors[k].State()
    }

    /** What a render issued now sees. */
    function Snapshot(commandBeingExecuted: Option<string>): (view: View)
      reads this`results, this`errors, errors.Values
    {
      View(results, ErrorTable(), commandBeingExecuted)
    }

    /** The record an occurrence of `e` updates: the one already filed under
        its name, or `e` itself. */
    function Target(e: ErrorRecord): (record: ErrorRecord)
      reads this`errors
    {
      if e.name in errors then errors[e.name] else e
    }

    /** The state of the record filed under `name`, if any. */
    function Prior(name: string): (prior: Option<ErrorState>)
      reads this`errors, errors.Values
    {
      if name in errors then Some(errors[name].State()) else None
    }

    /** The records `cancelError` marks: the named one and its `due` list. */
    function CancelTargets(errorName: string): (targets: set<ErrorRecord>)
      reads this`errors, if errorName in errors then {errors[errorName]} else {}
      ensures errorName !in errors ==> targets == {}
      ensures errorName in errors ==> errors[errorName] in targets
      ensures errorName in errors ==> forall x | x in targets ::
                x == errors[errorName] || (errors[errorName].due.Some? && x in errors[errorName].due.value)
      ensures errorName in errors && errors[errorName].due.Some? ==>
                forall x | x in errors[errorName].due.value :: x in targets
    {
      if errorName !in errors then {}
      else
        var record := errors[errorName];
        {record} + match record.due
                   case None => {}
                   case Some(d) => set x | x in d
    }

    /** The synchronous part of the init sequence: the store seeded without
        `errors`, with `fail`, `route` and `parseRootNodeDataset` in place, an
        empty error table, and the tree lifted from the existing markup. */
    constructor (seed: map<string, Value>, providerNames: seq<string>, provide: Provide,
                 renderPage: RenderPage, slots: map<string, SlotHandler>,
                 route: string, dataset: map<string, string>, lifted: Tree, afterProviders: bool)
      requires ErrorsKey !in providerNames
      ensures Valid()
      ensures this.providerNames == providerNames && this.provide == provide
      ensures this.renderPage == renderPage && this.slots == slots
      ensures this.lifted == lifted && this.afterProviders == afterProviders
      ensures results == InitialStore(seed, route, dataset) && errors == map[]
      ensures renders == [] && vDomTree == lifted
      ensures pending == multiset{} && streams == {} && reloading == None
    {
      this.providerNames := providerNames;
      this.provide := provide;
      this.renderPage := renderPage;
      this.slots := slots;
      this.lifted := lifted;
      this.afterProviders := afterProviders;
      results := InitialStore(seed, route, dataset);
      errors := map[];
      renders := [];
      vDomTree := lifted;
      reloading := None;
      pending := multiset{};
      streams := {};
    }

    /** The rest of the init sequence: every provider run in order, one
        render of the resulting store, then the after-providers hook, which is
        called (`hookCalled`) exactly when the caller supplied one. */
    method Start() returns (hookCalled: bool)
      requires Valid()
      modifies this`results, this`renders, this`vDomTree, this`streams
      ensures Valid() && errors == old(errors) && ErrorTable() == old(ErrorTable())
      ensures var run := RunAll(Run(old(results), [], old(streams)), providerNames, provide);
              && results == run.store && streams == run.streams
              && renders == old(renders) + PushViews(run.pushes, ErrorTable()) + [View(run.store, ErrorTable(), None)]
      ensures hookCalled == afterProviders
    {
      ghost var table := ErrorTable();
      var stop, awaited := RunProviders(providerNames, false);
      assert providerNames[..stop] == providerNames;
      ghost var afterRun := renders;
      Mount(None);
      assert renders == afterRun + [View(results, table, None)];
      hookCalled := afterProviders;
    }

    /** `mountPage(renderPage({actionResults, getSlot}))`: render the current
        state, tagged with the command in flight, and make it the live tree. */
    method Mount(commandBeingExecuted: Option<string>)
      requires Valid()
      modifies this`renders, this`vDomTree
      ensures Valid() && ErrorTable() == old(ErrorTable())
      ensures renders == old(renders) + [Snapshot(commandBeingExecuted)]
      ensures SlotsSee(slots, renders[|renders| - 1], results, ErrorTable(), commandBeingExecuted)
    {
      var view := Snapshot(commandBeingExecuted);
      renders := renders + [view];
      vDomTree := Render(view);
      ViewSlots(slots, results, ErrorTable(), commandBeingExecuted);
    }

    /** `handleError`, also exposed as `fail`: file the occurrence, then
        render once. */
    method HandleError(e: ErrorRecord)
      requires Valid()
      modifies this`errors, this`renders, this`vDomTree, Target(e)
      ensures Valid()
      ensures old(Target(e)).State() == Upsert(old(Prior(e.name)), old(e.State()))
      ensures errors == old(errors)[e.name := old(Target(e))] + DueMap(DueEntries(old(e.State())))
      ensures forall x | x in DueEntries(old(e.State())) && x != old(Target(e)) :: x.State() == old(x.State())
      ensures renders == old(renders) + [Snapshot(None)]
    {
      FileError(e);
      Mount(None);
    }

    /** The filing part of `handleError`: the first occurrence of a name files
        the error itself, a repeat updates the record already filed; either
        way the record is counted, and then every `due` entry is filed under
        its own name, the last entry of a name winning. */
    method FileError(e: ErrorRecord)
      requires Valid()
      modifies this`errors, Target(e)
      ensures Valid()
      ensures old(Target(e)).State() == Upsert(old(Prior(e.name)), old(e.State()))
      ensures errors == old(errors)[e.name := old(Target(e))] + DueMap(DueEntries(old(e.State())))
      ensures forall x | x in DueEntries(old(e.State())) && x != old(Target(e)) :: x.State() == old(x.State())
    {
      var due := DueMap(DueEntries(e.State()));
      var target := Target(e);
      if e.name !in errors {
        errors := errors[e.name := e];
      } else {
        assert errors == errors[e.name := target];
        target.CopyFrom(e);
      }
      target.CountThrow();
      errors := errors + due;
    }

    /** The body of the built-in `cancelError`: mark the named record and
        every entry of its `due` list cancelled. */
    method Cancel(errorName: string)
      requires Valid()
      modifies CancelTargets(errorName)
      ensures errors == old(errors)
      ensures forall x | x in old(CancelTargets(errorName)) :: x.State() == old(x.State()).(isCancelled := Some(true))
    {
      if errorName in errors {
        var record := errors[errorName];
        record.isCancelled := Some(true);
        if record.due.Some? {
          var due := record.due.value;
          for i := 0 to |due|
            invariant record.isCancelled == Some(true)
            invariant forall j | 0 <= j < i :: due[j].isCancelled == Some(true)
            invariant forall x | x in old(CancelTargets(errorName)) ::
                        x.State() == old(x.State()).(isCancelled := x.isCancelled)
          {
            due[i].isCancelled := Some(true);
          }
        }
      }
    }

    /** The wrapped `cancelError`: cancel, then store its `undefined` result
        under its own name and render once. */
    method CancelError(errorName: string) returns (r: Value)
      requires Valid()
      modifies this`results, this`renders, this`vDomTree, CancelTargets(errorName)
      ensures Valid()
      ensures errors == old(errors)
      ensures forall x | x in old(CancelTargets(errorName)) :: x.State() == old(x.State()).(isCancelled := Some(true))
      ensures results == old(results)[CancelErrorKey := Undefined]
      ensures renders == old(renders) + [Snapshot(None)]
      ensures r == Undefined
    {
      Cancel(errorName);
      results := results[CancelErrorKey := Undefined];
      Mount(None);
      r := results[CancelErrorKey];
    }

    /** The wrapped `redirect`: the navigation itself is not modelled; its
        `undefined` result is stored under its own name and rendered. */
    method Redirect(path: string) returns (r: Value)
      requires Valid()
      modifies this`results, this`renders, this`vDomTree
      ensures Valid()
      ensures results == old(results)[RedirectKey := Undefined]
      ensures renders == old(renders) + [Snapshot(None)]
      ensures r == Undefined
    {
      results := results[RedirectKey := Undefined];
      Mount(None);
      r := results[RedirectKey];
    }

    /** A caller's command invoked through its wrapper. */
    method Invoke(name: string, outcome: CommandOutcome) returns (r: Returned)
      requires Valid()
      requires name !in BuiltIns && name != ErrorsKey
      modifies this`results, this`errors, this`renders, this`vDomTree, this`pending
      modifies if outcome.Throws? then {Target(outcome.error)} else {}
      ensures Valid()
      ensures outcome.Returns? ==>
                && results == old(results)[name := outcome.value]
                && errors == old(errors) && pending == old(pending)
                && renders == old(renders) + [Snapshot(None)]
                && r == Returned(outcome.value)
      ensures outcome.Pending? ==>
                && results == old(results) && errors == old(errors)
                && pending == old(pending) + multiset{name}
                && renders == old(renders) + [Snapshot(Some(name))]
                && SlotsSee(slots, renders[|renders| - 1], results, ErrorTable(), Some(name))
                && r == PromiseReturned
      ensures outcome.Throws? ==>
                && results == old(results) && pending == old(pending)
                && old(Target(outcome.error)).State() == Upsert(old(Prior(outcome.error.name)), old(outcome.error.State()))
                && errors == old(errors)[outcome.error.name := old(Target(outcome.error))]
                                + DueMap(DueEntries(old(outcome.error.State())))
                && renders == old(renders) + [Snapshot(None)]
                && r == Returned(Undefined)
    {
      match outcome {
        case Returns(v) =>
          results := results[name := v];
          Mount(None);
          r := Returned(results[name]);
        case Pending =>
          Mount(Some(name));
          pending := pending + multiset{name};
          r := PromiseReturned;
        case Throws(e) =>
          HandleError(e);
          r := Returned(Undefined);
      }
    }

    /** The promise of a command in flight resolves: its value is stored under
        the command's name and one render follows; the promise the caller holds
        resolves to `undefined`. */
    method Resolve(name: string, value: Value) returns (r: Value)
      requires Valid() && name in pending && name != ReloadKey
      modifies this`results, this`renders, this`vDomTree, this`pending
      ensures Valid() && ErrorTable() == old(ErrorTable())
      ensures results == old(results)[name := value]
      ensures pending == old(pending) - multiset{name}
      ensures renders == old(renders) + [Snapshot(None)]
      ensures r == Undefined
    {
      ghost var table := ErrorTable();
      pending := pending - multiset{name};
      results := results[name := value];
      assert ErrorTable() == table;
      Mount(None);
      r := Undefined;
    }

    /** The promise of a command in flight rejects: the error is handled and
        the command's own entry is left as it was. */
    method Reject(name: string, e: ErrorRecord) returns (r: Value)
      requires Valid() && name in pending && name != ReloadKey
      modifies this`errors, this`renders, this`vDomTree, this`pending, Target(e)
      ensures Valid()
      ensures results == old(results)
      ensures pending == old(pending) - multiset{name}
      ensures old(Target(e)).State() == Upsert(old(Prior(e.name)), old(e.State()))
      ensures errors == old(errors)[e.name := old(Target(e))] + DueMap(DueEntries(old(e.State())))
      ensures forall x | x in DueEntries(old(e.State())) && x != old(Target(e)) :: x.State() == old(x.State())
      ensures renders == old(renders) + [Snapshot(None)]
      ensures r == Undefined
    {
      pending := pending - multiset{name};
      HandleError(e);
      r := Undefined;
    }

    /** `incomingDataProvided`: a subscribed provider's callback stores the
        payload under the provider's name and renders once. */
    method Push(providerName: string, data: Value)
      requires Valid() && providerName in streams
      modifies this`results, this`renders, this`vDomTree
      ensures Valid() && ErrorTable() == old(ErrorTable())
      ensures results == old(results)[providerName := data]
      ensures renders == old(renders) + [Snapshot(None)]
    {
      results := results[providerName := data];
      Mount(None);
    }

    /** `runProviders` over `names`, in order. With `stopAtAwait` the run
        stops at the first provider that returns a promise (where the
        JavaScript function suspends), handing back that promise's value. */
    method RunProviders(names: seq<string>, stopAtAwait: bool) returns (stop: nat, awaited: Option<Value>)
      requires Valid()
      requires forall n | n in names :: n in providerNames
      modifies this`results, this`renders, this`vDomTree, this`streams
      ensures Valid() && ErrorTable() == old(ErrorTable()) && stop <= |names|
      ensures var start := Run(old(results), [], old(streams));
              var run := RunAll(start, names[..stop], provide);
              && stop == (if stopAtAwait then SyncPrefix(start, names, provide, 0) else |names|)
              && results == run.store && streams == run.streams
              && renders == old(renders) + PushViews(run.pushes, ErrorTable())
              && awaited == (if stop < |names| then Some(Outcome(start, names, provide, stop).value) else None)
    {
      ghost var start := Run(results, [], streams);
      ghost var before := renders;
      ghost var table := ErrorTable();
      ghost var run := start;
      stop := 0;
      awaited := None;
      while stop < |names| && awaited.None?
        invariant stop <= |names|
        invariant Valid() && ErrorTable() == table
        invariant run == RunAll(start, names[..stop], provide)
        invariant results == run.store && streams == run.streams
        invariant renders == before + PushViews(run.pushes, table)
        invariant stopAtAwait ==> NoneAwaitedBefore(start, names, provide, stop)
        invariant awaited.Some? ==>
                    && stopAtAwait && stop < |names| && Outcome(start, names, provide, stop).Awaited?
                    && awaited == Some(Outcome(start, names, provide, stop).value)
        decreases |names| - stop, if awaited.None? then 1 else 0
      {
        var outcome := provide(names[stop], results);
        if stopAtAwait && outcome.Awaited? {
          awaited := Some(outcome.value);
        } else {
          if stopAtAwait {
            NoneAwaitedExtends(start, names, provide, stop);
          }
          ghost var alone := Step(Run(run.store, [], run.streams), names[stop], provide);
          Apply(names[stop], outcome);
          RunExtends(start, names, provide, stop);
          StepShift(run, names[stop], provide);
          RendersExtend(before, run.pushes, alone.pushes, table, renders);
          run := Step(run, names[stop], provide);
          stop := stop + 1;
        }
      }
      if stopAtAwait {
        SyncPrefixUnique(start, names, provide, stop);
      }
    }

    /** One iteration of `runProviders`, once the provider has returned
        `outcome`: a promise's value (once settled) or a plain value is
        stored under the provider's name; a subscription function is handed
        the page's callback. */
    method Apply(name: string, outcome: ProviderOutcome)
      requires Valid() && name in providerNames && outcome == provide(name, results)
      modifies this`results, this`renders, this`vDomTree, this`streams
      ensures Valid() && ErrorTable() == old(ErrorTable())
      ensures var r := Step(Run(old(results), [], old(streams)), name, provide);
              && results == r.store && streams == r.streams
              && renders == old(renders) + PushViews(r.pushes, ErrorTable())
    {
      match outcome {
        case Immediate(v) =>
          results := results[name := v];
        case Awaited(v) =>
          results := results[name := v];
        case Stream(data) =>
          Subscribe(name, data);
      }
    }

    /** A provider's subscription function called with the page's callback,
        which it calls once per payload of `data` while being registered. */
    method Subscribe(name: string, data: seq<Value>)
      requires Valid() && name in providerNames
      modifies this`results, this`renders, this`vDomTree, this`streams
      ensures Valid() && ErrorTable() == old(ErrorTable())
      ensures var r := Deliver(Run(old(results), [], old(streams) + {name}), name, data);
              && results == r.store && streams == r.streams
              && renders == old(renders) + PushViews(r.pushes, ErrorTable())
    {
      streams := streams + {name};
      ghost var acc := Run(results, [], streams);
      ghost var before := renders;
      ghost var table := ErrorTable();
      ghost var run := acc;
      for j := 0 to |data|
        invariant Valid() && name in streams && ErrorTable() == table
        invariant run == Deliver(acc, name, data[..j])
        invariant results == run.store && streams == run.streams
        invariant renders == before + PushViews(run.pushes, table)
      {
        Push(name, data[j]);
        assert data[..j + 1][..j] == data[..j];
        RendersPush(before, run.pushes, results, table, renders);
        run := Run(results, run.pushes + [results], run.streams);
      }
      assert data[..|data|] == data;
    }

    /** The wrapped `reload`, up to where it first suspends: the providers
        before the first promise run; `reload` has returned a promise, so the
        wrapper renders with `reload` in flight. */
    method Reload() returns (r: Returned)
      requires Valid() && reloading.None?
      modifies this`results, this`renders, this`vDomTree, this`streams, this`reloading, this`pending
      ensures Valid() && ErrorTable() == old(ErrorTable())
      ensures var start := Run(old(results), [], old(streams));
              var k := SyncPrefix(start, providerNames, provide, 0);
              var run := RunAll(start, providerNames[..k], provide);
              && results == run.store && streams == run.streams
              && renders == old(renders) + PushViews(run.pushes, ErrorTable()) + [View(run.store, ErrorTable(), Some(ReloadKey))]
              && reloading == Some(Resume(k, if k < |providerNames| then Some(Outcome(start, providerNames, provide, k).value) else None))
      ensures SlotsSee(slots, renders[|renders| - 1], results, ErrorTable(), Some(ReloadKey))
      ensures pending == old(pending) + multiset{ReloadKey}
      ensures r == PromiseReturned
    {
      ghost var table := ErrorTable();
      var stop, awaited := RunProviders(providerNames, true);
      reloading := Some(Resume(stop, awaited));
      pending := pending + multiset{ReloadKey};
      assert ErrorTable() == table;
      Mount(Some(ReloadKey));
      r := PromiseReturned;
    }

    /** The rest of `reload`'s body once the promise it waits on settles: the
        value is stored under that provider's name, the remaining providers
        run in order, and `reload` renders the final store with nothing in
        flight (line 40). Its promise has then resolved. */
    method ResumeProviders()
      requires Valid() && reloading.Some?
      modifies this`results, this`renders, this`vDomTree, this`streams, this`reloading
      ensures Valid() && reloading == None && ErrorTable() == old(ErrorTable())
      ensures var resume := old(reloading.value);
              var resumed := Run(if resume.awaited.Some? then old(results)[providerNames[resume.next] := resume.awaited.value] else old(results),
                                 [], old(streams));
              var run := RunAll(resumed, if resume.awaited.Some? then providerNames[resume.next + 1..] else [], provide);
              && results == run.store && streams == run.streams
              && renders == old(renders) + PushViews(run.pushes, ErrorTable()) + [View(run.store, ErrorTable(), None)]
    {
      var resume := reloading.value;
      ghost var table := ErrorTable();
      reloading := None;
      if resume.awaited.Some? {
        results := results[providerNames[resume.next] := resume.awaited.value];
        assert ErrorTable() == table;
        var rest := providerNames[resume.next + 1..];
        var stop, awaited := RunProviders(rest, false);
        assert rest[..stop] == rest;
      } else {
        assert PushViews([], ErrorTable()) == [];
      }
      Mount(None);
    }

    /** The rest of a reload taken in one go: `runProviders` resumes and
        finishes, `reload` renders once, and then the wrapper stores the
        `undefined` its promise resolved to and renders again. */
    method ReloadSettle()
      requires Valid() && reloading.Some? && ReloadKey in pending
      modifies this`results, this`renders, this`vDomTree, this`streams, this`reloading, this`pending
      ensures Valid() && reloading == None
      ensures pending == old(pending) - multiset{ReloadKey}
      ensures var resume := old(reloading.value);
              var resumed := Run(if resume.awaited.Some? then old(results)[providerNames[resume.next] := resume.awaited.value] else old(results),
                                 [], old(streams));
              var run := RunAll(resumed, if resume.awaited.Some? then providerNames[resume.next + 1..] else [], provide);
              && results == run.store[ReloadKey := Undefined] && streams == run.streams
              && renders == old(renders) + PushViews(run.pushes, ErrorTable())
                              + [View(run.store, ErrorTable(), None), View(results, ErrorTable(), None)]
    {
      ResumeProviders();
      ReloadResolved();
    }

    /** The wrapper's `.then` once `reload`'s promise has resolved, that is
        once its body has finished (no reload is waiting on a provider): the
        `undefined` it resolved to is stored under `reload`, and the page
        renders with nothing in flight. */
    method ReloadResolved()
      requires Valid() && reloading.None? && ReloadKey in pending
      modifies this`results, this`renders, this`vDomTree, this`pending
      ensures Valid() && ErrorTable() == old(ErrorTable())
      ensures results == old(results)[ReloadKey := Undefined]
      ensures pending == old(pending) - multiset{ReloadKey}
      ensures renders == old(renders) + [Snapshot(None)]
    {
      ghost var table := ErrorTable();
      pending := pending - multiset{ReloadKey};
      results := results[ReloadKey := Undefined];
      assert ErrorTable() == table;
      Mount(None);
    }

    /** The promise a suspended reload waits on rejects: `runProviders`, and
        with it `reload`, rejects before that provider's value is stored and
        before `reload` renders; the wrapper's `.catch` then handles the
        error. */
    method ReloadFail(e: ErrorRecord)
      requires Valid() && reloading.Some? && reloading.value.awaited.Some? && ReloadKey in pending
      modifies this`errors, this`renders, this`vDomTree, this`pending, this`reloading, Target(e)
      ensures Valid() && reloading == None
      ensures results == old(results) && streams == old(streams)
      ensures pending == old(pending) - multiset{ReloadKey}
      ensures old(Target(e)).State() == Upsert(old(Prior(e.name)), old(e.State()))
      ensures errors == old(errors)[e.name := old(Target(e))] + DueMap(DueEntries(old(e.State())))
      ensures forall x | x in DueEntries(old(e.State())) && x != old(Target(e)) :: x.State() == old(x.State())
      ensures renders == old(renders) + [Snapshot(None)]
    {
      reloading := None;
      pending := pending - multiset{ReloadKey};
      HandleError(e);
    }
  }
}
