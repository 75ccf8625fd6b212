/** The error aggregator's data: error records, kept by reference in the
    error table, and the pure rules by which an occurrence updates a record
    and by which a `due` list is filed. */
module Errors {
  import opened Values

  /** The state of one error record: its own properties other than `name`,
      and the three properties the aggregator reads or writes. `None` is an
      absent property. */
  datatype ErrorState = ErrorState(
    fields: map<string, Value>,
    isCancelled: Option<bool>,
    throwCount: Option<int>,
    due: Option<seq<ErrorRecord>>)

  /** A thrown error object. The first occurrence of a name files the thrown
      object itself in the error table, and `due` lists hold references to
      objects that are filed as well, so records are shared and updated in
      place. */
  class ErrorRecord {
    const name: string
    var fields: map<string, Value>
    var isCancelled: Option<bool>
    var throwCount: Option<int>
    var due: Option<seq<ErrorRecord>>

    constructor (name: string, fields: map<string, Value>, isCancelled: Option<bool>,
                 throwCount: Option<int>, due: Option<seq<ErrorRecord>>)
      ensures this.name == name
      ensures State() == ErrorState(fields, isCancelled, throwCount, due)
    {
      this.name := name;
      this.fields := fields;
      this.isCancelled := isCancelled;
      this.throwCount := throwCount;
      this.due := due;
    }

    function State(): (s: ErrorState)
      reads this
    {
      ErrorState(fields, isCancelled, throwCount, due)
    }

    /** `handleError`'s repeat path on the filed record: copy every own
        property of `e` onto it, then clear the cancellation. */
    method CopyFrom(e: ErrorRecord)
      modifies this
      ensures State() == Merge(old(State()), old(e.State()))
    {
      var incoming := e.State();
      fields := fields + incoming.fields;
      if incoming.isCancelled.Some? { isCancelled := incoming.isCancelled; }
      if incoming.throwCount.Some? { throwCount := incoming.throwCount; }
      if incoming.due.Some? { due := incoming.due; }
      isCancelled := Some(false);
    }

    /** `throwCount = (throwCount || 0) + 1`. */
    method CountThrow()
      modifies this
      ensures State() == Counted(old(State()))
    {
      throwCount := Some(throwCount.GetOr(0) + 1);
    }
  }

  /** A repeat occurrence: every own property of the new error is copied
      onto the record already filed, then the cancellation is cleared. */
  function Merge(existing: ErrorState, incoming: ErrorState): (r: ErrorState)
    ensures r.isCancelled == Some(false)
    ensures r.fields.Keys == existing.fields.Keys + incoming.fields.Keys
    ensures forall k | k in incoming.fields :: r.fields[k] == incoming.fields[k]
    ensures forall k | k in existing.fields && k !in incoming.fields :: r.fields[k] == existing.fields[k]
    ensures r.throwCount == if incoming.throwCount.Some? then incoming.throwCount else existing.throwCount
    ensures r.due == if incoming.due.Some? then incoming.due else existing.due
  {
    ErrorState(
      existing.fields + incoming.fields,
      Some(false),
      if incoming.throwCount.Some? then incoming.throwCount else existing.throwCount,
      if incoming.due.Some? then incoming.due else existing.due)
  }

  /** The counter raised by one, an absent or zero counter counting from zero. */
  function Counted(s: ErrorState): (r: ErrorState)
    ensures r.throwCount.Some? && r.throwCount.value == s.throwCount.GetOr(0) + 1
    ensures r.fields == s.fields && r.isCancelled == s.isCancelled && r.due == s.due
  {
    s.(throwCount := Some(s.throwCount.GetOr(0) + 1))
  }

  /** The record state after one occurrence of `incoming`, given the state of
      the record already filed under its name (`prior`), if any. A first
      occurrence is the thrown error itself with its counter raised; a repeat
      copies every own property of the new error onto the old record, clears
      the cancellation and raises the counter. */
  function Upsert(prior: Option<ErrorState>, incoming: ErrorState): (r: ErrorState)
    ensures r.throwCount.Some?
    ensures prior.None? ==> r == incoming.(throwCount := Some(incoming.throwCount.GetOr(0) + 1))
    ensures prior.Some? ==> r.isCancelled == Some(false)
    ensures prior.Some? && incoming.throwCount.None? ==>
              r.throwCount == Some(prior.value.throwCount.GetOr(0) + 1)
    ensures incoming.throwCount.Some? ==> r.throwCount == Some(incoming.throwCount.value + 1)
    ensures prior.Some? ==> r.due == if incoming.due.Some? then incoming.due else prior.value.due
    ensures prior.Some? ==> r.fields.Keys == prior.value.fields.Keys + incoming.fields.Keys
    ensures forall k | k in incoming.fields :: k in r.fields && r.fields[k] == incoming.fields[k]
    ensures prior.Some? ==> forall k | k in prior.value.fields && k !in incoming.fields ::
              r.fields[k] == prior.value.fields[k]
  {
    match prior
    case None => Counted(incoming)
    case Some(p) => Counted(Merge(p, incoming))
  }

  /** The entries of a `due` list keyed by their names, a later entry
      replacing an earlier one of the same name. */
  function DueMap(due: seq<ErrorRecord>): (m: map<string, ErrorRecord>)
    ensures m.Keys == set x | x in due :: x.name
    ensures forall k | k in m :: m[k] in due && m[k].name == k
    ensures forall i | 0 <= i < |due| :: due[i].name in m
    decreases |due|
  {
    if due == [] then map[]
    else
      var init := due[..|due| - 1];
      var last := due[|due| - 1];
      assert forall x | x in due :: x in init || x == last;
      assert forall x | x in init :: x in due;
      DueMap(init)[last.name := last]
  }

  /** The `due` entries of an occurrence; an absent `due` files nothing. */
  function DueEntries(s: ErrorState): (entries: seq<ErrorRecord>) {
    match s.due
    case None => []
    case Some(d) => d
  }

  /** Within one `due` list, the last entry of a name is the one filed. */
  lemma {:induction false} DueMapLastWins(due: seq<ErrorRecord>, i: nat)
    requires i < |due|
    requires forall j | i < j < |due| :: due[j].name != due[i].name
    ensures due[i].name in DueMap(due) && DueMap(due)[due[i].name] == due[i]
  {
    if i < |due| - 1 {
      DueMapLastWins(due[..|due| - 1], i);
    }
  }

  /** Two occurrences of one error name: the counter after the second is
      exactly one more than after the first, and the second clears any
      cancellation made in between (unless the second error carries its own
      counter). */
  lemma RepeatCountsOnce(first: ErrorState, cancelled: Option<bool>, second: ErrorState)
    requires second.throwCount.None?
    ensures var afterFirst := Upsert(None, first);
            var afterSecond := Upsert(Some(afterFirst.(isCancelled := cancelled)), second);
            afterSecond.throwCount == Some(afterFirst.throwCount.value + 1)
            && afterSecond.isCancelled == Some(false)
  {
  }

  /** A command throws a `ValidationError` about `email`, then one about
      `phone`: the first leaves the thrown error itself with a count of 1 and
      no cancellation flag; the second overwrites the field, clears the
      cancellation and counts 2. */
  lemma ValidationErrorTwice()
    ensures var email := ErrorState(map["field" := Data("email")], None, None, None);
            var phone := ErrorState(map["field" := Data("phone")], None, None, None);
            var first := Upsert(None, email);
            && first == ErrorState(map["field" := Data("email")], None, Some(1), None)
            && Upsert(Some(first), phone) == ErrorState(map["field" := Data("phone")], Some(false), Some(2), None)
  {
    var first := ErrorState(map["field" := Data("email")], None, Some(1), None);
    assert first.fields + map["field" := Data("phone")] == map["field" := Data("phone")];
  }
}
