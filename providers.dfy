/** The provider runner as a specification: what running a list of
    providers, strictly one after the other, does to the result store, which
    renders the stream callbacks trigger on the way, and which providers left
    a live subscription behind. */
module Providers {
  import opened Values

  /** What a provider returns when invoked: a plain value, a promise (stored
      once it settles, before the next provider is invoked), or a subscription
      function. For a subscription, `pushes` are the payloads its callback is
      given while the provider is being registered; later payloads arrive
      through the page's `Push`. */
  datatype ProviderOutcome =
    | Immediate(value: Value)
    | Awaited(value: Value)
    | Stream(pushes: seq<Value>)

  /** The caller's providers: each is invoked with its name's entry and the
      store as the earlier providers left it. Their bodies are opaque. */
  type Provide = (string, map<string, Value>) -> ProviderOutcome

  /** The state a run of providers threads along: the store, the store as
      each stream callback rendered it, and the providers subscribed so far. */
  datatype Run = Run(store: map<string, Value>, pushes: seq<map<string, Value>>, streams: set<string>)

  /** The stream callback called with each payload of `data` in turn: it
      stores the payload under the provider's name and renders. */
  function Deliver(acc: Run, name: string, data: seq<Value>): (r: Run)
    ensures r.streams == acc.streams
    ensures r.store == if data == [] then acc.store else acc.store[name := data[|data| - 1]]
    decreases |data|
  {
    if data == [] then acc
    else
      var a := Deliver(acc, name, data[..|data| - 1]);
      var s := a.store[name := data[|data| - 1]];
      Run(s, a.pushes + [s], a.streams)
  }

  /** The callback renders once per payload, and the `i`-th render sees the
      store holding the `i`-th payload under the provider's name. */
  lemma {:induction false} DeliverRenders(acc: Run, name: string, data: seq<Value>)
    ensures Deliver(acc, name, data).pushes
            == acc.pushes + seq(|data|, i requires 0 <= i < |data| => acc.store[name := data[i]])
    decreases |data|
  {
    if data != [] {
      var init := data[..|data| - 1];
      DeliverRenders(acc, name, init);
      var f := seq(|data|, i requires 0 <= i < |data| => acc.store[name := data[i]]);
      var g := seq(|init|, i requires 0 <= i < |init| => acc.store[name := init[i]]);
      assert f == g + [acc.store[name := data[|data| - 1]]];
    }
  }

  /** One iteration of the runner's loop: invoke the provider with the
      current store, then store its value, or subscribe to it. */
  function Step(acc: Run, name: string, provide: Provide): (r: Run)
    ensures acc.streams <= r.streams <= acc.streams + {name}
    ensures name in r.streams <==> name in acc.streams || provide(name, acc.store).Stream?
  {
    match provide(name, acc.store)
    case Immediate(v) => acc.(store := acc.store[name := v])
    case Awaited(v) => acc.(store := acc.store[name := v])
    case Stream(data) => Deliver(acc.(streams := acc.streams + {name}), name, data)
  }

  /** A step changes only the entry under the provider's name; a value or a
      promise is stored there with no render, and a subscription is recorded;
      the renders so far are kept. */
  lemma StepFrame(acc: Run, name: string, provide: Provide)
    ensures var r := Step(acc, name, provide);
            && (forall k | k != name :: (k in r.store <==> k in acc.store))
            && (forall k | k != name && k in acc.store :: r.store[k] == acc.store[k])
            && (!provide(name, acc.store).Stream? ==> r == acc.(store := acc.store[name := provide(name, acc.store).value]))
            && (provide(name, acc.store).Stream? ==> r.streams == acc.streams + {name})
            && |acc.pushes| <= |r.pushes| && r.pushes[..|acc.pushes|] == acc.pushes
  {
    if provide(name, acc.store).Stream? {
      DeliverRenders(acc.(streams := acc.streams + {name}), name, provide(name, acc.store).pushes);
    }
  }

  /** The providers of `names`, run in that order. */
  function RunAll(acc: Run, names: seq<string>, provide: Provide): (r: Run)
    ensures acc.streams <= r.streams
    ensures forall p | p in r.streams :: p in acc.streams || p in names
    decreases |names|
  {
    if names == [] then acc
    else
      var init := names[..|names| - 1];
      assert forall p | p in init :: p in names;
      Step(RunAll(acc, init, provide), names[|names| - 1], provide)
  }

  /** What the `i`-th provider returns: it is invoked with the store that the
      providers before it left. */
  function Outcome(acc: Run, names: seq<string>, provide: Provide, i: nat): (outcome: ProviderOutcome)
    requires i < |names|
  {
    provide(names[i], RunAll(acc, names[..i], provide).store)
  }

  /** Where a run first suspends, looking from position `i` on: the first
      provider that returns a promise, or the end of the list. */
  function SyncPrefix(acc: Run, names: seq<string>, provide: Provide, i: nat): (k: nat)
    requires i <= |names|
    ensures i <= k <= |names|
    ensures forall j | i <= j < k :: !Outcome(acc, names, provide, j).Awaited?
    ensures k < |names| ==> Outcome(acc, names, provide, k).Awaited?
    decreases |names| - i
  {
    if i == |names| || Outcome(acc, names, provide, i).Awaited? then i
    else SyncPrefix(acc, names, provide, i + 1)
  }

  /** No provider before position `k` returns a promise. */
  ghost predicate NoneAwaitedBefore(acc: Run, names: seq<string>, provide: Provide, k: nat)
    requires k <= |names|
  {
    forall j | 0 <= j < k :: !Outcome(acc, names, provide, j).Awaited?
  }

  lemma NoneAwaitedExtends(acc: Run, names: seq<string>, provide: Provide, k: nat)
    requires k < |names|
    requires NoneAwaitedBefore(acc, names, provide, k)
    requires !Outcome(acc, names, provide, k).Awaited?
    ensures NoneAwaitedBefore(acc, names, provide, k + 1)
  {
  }

  /** The first suspension point is the only position before which no
      provider suspends and at which one does (or the list ends). */
  lemma SyncPrefixUnique(acc: Run, names: seq<string>, provide: Provide, k: nat)
    requires k <= |names|
    requires NoneAwaitedBefore(acc, names, provide, k)
    requires k < |names| ==> Outcome(acc, names, provide, k).Awaited?
    ensures SyncPrefix(acc, names, provide, 0) == k
  {
  }

  /** Running one more provider is one more step of the loop. */
  lemma RunExtends(acc: Run, names: seq<string>, provide: Provide, i: nat)
    requires i < |names|
    ensures RunAll(acc, names[..i + 1], provide) == Step(RunAll(acc, names[..i], provide), names[i], provide)
  {
    assert names[..i + 1][..i] == names[..i];
  }

  /** Running `a` and then `b` is running `a + b`: the runner is strictly
      sequential, each provider seeing what all earlier ones stored. */
  lemma {:induction false} RunAppend(acc: Run, a: seq<string>, b: seq<string>, provide: Provide)
    ensures RunAll(acc, a + b, provide) == RunAll(RunAll(acc, a, provide), b, provide)
    decreases |b|
  {
    if b == [] {
      assert a + b == a;
    } else {
      var b' := b[..|b| - 1];
      assert (a + b)[..|a + b| - 1] == a + b';
      RunAppend(acc, a, b', provide);
    }
  }

  /** A key that no provider of the list is named after is left alone. */
  lemma {:induction false} RunKeepsOtherKeys(acc: Run, names: seq<string>, provide: Provide, k: string)
    requires k !in names
    ensures var r := RunAll(acc, names, provide);
            (k in r.store <==> k in acc.store) && (k in acc.store ==> r.store[k] == acc.store[k])
    decreases |names|
  {
    if names != [] {
      RunKeepsOtherKeys(acc, names[..|names| - 1], provide, k);
    }
  }

  /** A provider that returns a value or a promise, and that no later provider
      of the list shares a name with, leaves exactly that value in the store
      when the run ends. */
  lemma RunStoresValue(acc: Run, names: seq<string>, provide: Provide, i: nat)
    requires i < |names|
    requires !Outcome(acc, names, provide, i).Stream?
    requires names[i] !in names[i + 1..]
    ensures names[i] in RunAll(acc, names, provide).store
    ensures RunAll(acc, names, provide).store[names[i]] == Outcome(acc, names, provide, i).value
  {
    assert names == names[..i + 1] + names[i + 1..];
    RunAppend(acc, names[..i + 1], names[i + 1..], provide);
    RunExtends(acc, names, provide, i);
    RunKeepsOtherKeys(RunAll(acc, names[..i + 1], provide), names[i + 1..], provide, names[i]);
  }

  /** A provider that returns a promise has its value stored before the next
      provider is invoked: the next one is handed a store holding it. */
  lemma AwaitedSeenByNext(acc: Run, names: seq<string>, provide: Provide, i: nat)
    requires i + 1 < |names|
    requires Outcome(acc, names, provide, i).Awaited?
    ensures var seen := RunAll(acc, names[..i + 1], provide).store;
            names[i] in seen && seen[names[i]] == Outcome(acc, names, provide, i).value
  {
    RunExtends(acc, names, provide, i);
  }

  /** Providers that return values or promises render nothing; only stream
      callbacks do. */
  lemma {:induction false} RunWithoutStreamsRendersNothing(acc: Run, names: seq<string>, provide: Provide)
    requires forall j | 0 <= j < |names| :: !Outcome(acc, names, provide, j).Stream?
    ensures RunAll(acc, names, provide).pushes == acc.pushes
    decreases |names|
  {
    if names != [] {
      var init := names[..|names| - 1];
      forall j | 0 <= j < |init|
        ensures !Outcome(acc, init, provide, j).Stream?
      {
        assert init[..j] == names[..j];
        assert !Outcome(acc, names, provide, j).Stream?;
      }
      RunWithoutStreamsRendersNothing(acc, init, provide);
      assert !Outcome(acc, names, provide, |names| - 1).Stream?;
      assert names[..|names| - 1] == init;
    }
  }

  /** One step's store and subscriptions do not depend on the renders that
      came before it; its renders are appended to them. */
  lemma StepShift(acc: Run, name: string, provide: Provide)
    ensures var alone := Step(Run(acc.store, [], acc.streams), name, provide);
            Step(acc, name, provide) == Run(alone.store, acc.pushes + alone.pushes, alone.streams)
  {
    if provide(name, acc.store).Stream? {
      var data := provide(name, acc.store).pushes;
      DeliverRenders(acc.(streams := acc.streams + {name}), name, data);
      DeliverRenders(Run(acc.store, [], acc.streams + {name}), name, data);
    }
  }

  /** The store and the subscriptions a run produces do not depend on the
      renders that came before it; its renders are appended to them. */
  lemma {:induction false} RunShift(acc: Run, names: seq<string>, provide: Provide)
    ensures var alone := RunAll(Run(acc.store, [], acc.streams), names, provide);
            RunAll(acc, names, provide) == Run(alone.store, acc.pushes + alone.pushes, alone.streams)
    decreases |names|
  {
    if names != [] {
      var init := names[..|names| - 1];
      var last := names[|names| - 1];
      var prefix := RunAll(Run(acc.store, [], acc.streams), init, provide);
      var before := RunAll(acc, init, provide);
      RunShift(acc, init, provide);
      assert before == Run(prefix.store, acc.pushes + prefix.pushes, prefix.streams);
      var s := Step(Run(prefix.store, [], prefix.streams), last, provide);
      StepShift(prefix, last, provide);
      StepShift(before, last, provide);
      assert Step(prefix, last, provide).pushes == prefix.pushes + s.pushes;
      assert Step(before, last, provide).pushes == (acc.pushes + prefix.pushes) + s.pushes;
    }
  }

  /** A run that suspends at its first promise and is resumed later (storing
      that promise's value and running the rest) ends with the same store,
      subscriptions and stream renders as the run taken in one go. */
  lemma ResumeCompletesRun(acc: Run, names: seq<string>, provide: Provide)
    requires SyncPrefix(acc, names, provide, 0) < |names|
    ensures var k := SyncPrefix(acc, names, provide, 0);
            var prefix := RunAll(acc, names[..k], provide);
            var resumed := Run(prefix.store[names[k] := Outcome(acc, names, provide, k).value], [], prefix.streams);
            var rest := RunAll(resumed, names[k + 1..], provide);
            var whole := RunAll(acc, names, provide);
            rest.store == whole.store && rest.streams == whole.streams && prefix.pushes + rest.pushes == whole.pushes
  {
    var k := SyncPrefix(acc, names, provide, 0);
    assert names == names[..k + 1] + names[k + 1..];
    RunAppend(acc, names[..k + 1], names[k + 1..], provide);
    RunExtends(acc, names, provide, k);
    RunShift(RunAll(acc, names[..k + 1], provide), names[k + 1..], provide);
  }
}
