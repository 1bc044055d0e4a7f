/** Concurrent deductions: what the calls were told against what the channel holds. */
module Deductions {
  import opened Prelude
  import opened Channel
  import opened Adapter

  // ---------------------------------------------------------------- keys whose channel is never removed

  /** The channel is there, and no call on its key would remove it or has found it missing. */
  ghost predicate Kept(s: State, key: Key) {
    && key in s.data
    && forall t :: t in s.tasks && s.tasks[t].key == key ==>
         var task := s.tasks[t];
         !Removes(task.updater) && !task.pc.HasDeleted? && (task.pc.HasRead? ==> task.pc.current.Some?)
  }

  /** Every call on `key` keeps an existing channel. */
  ghost predicate AllKeep(s: State, key: Key) {
    forall t :: t in s.tasks && s.tasks[t].key == key ==> !Removes(s.tasks[t].updater)
  }

  lemma NotRemoved(u: Updater, c: ChannelState)
    requires !Removes(u)
    ensures RunUpdater(u, Some(c)) != Ok(None)
  {
  }

  lemma KeptStep(s: State, step: Step, key: Key)
    requires Kept(s, key) && Enabled(s, step) && AllKeep(Apply(s, step), key)
    ensures Kept(Apply(s, step), key) && !Racing(s, step, key)
  {
    hide RunUpdater, Removes, HistoryOf, LockFree;
    var t := Mover(s, step);
    StepFrame(s, step);
    if step.Write? && s.tasks[t].key == key {
      NotRemoved(s.tasks[t].updater, s.tasks[t].pc.current.value);
    }
  }

  /** A task keeps its key and updater. */
  lemma {:induction false} TasksPersist(s: State, steps: seq<Step>, t: TaskId)
    requires WellFormed(s) && IsRun(s, steps) && t in s.tasks
    ensures t in End(s, steps).tasks
    ensures End(s, steps).tasks[t].key == s.tasks[t].key && End(s, steps).tasks[t].updater == s.tasks[t].updater
    decreases |steps|
  {
    hide WellFormed, Enabled, Apply;
    if steps != [] {
      FreshLock(s);
      StepFrame(s, steps[0]);
      WellFormedStep(s, steps[0]);
      TasksPersist(Apply(s, steps[0]), steps[1..], t);
    }
  }

  lemma KeepEarlier(s: State, steps: seq<Step>, key: Key)
    requires WellFormed(s) && IsRun(s, steps) && AllKeep(End(s, steps), key)
    ensures AllKeep(s, key)
  {
    hide WellFormed, IsRun, End, Removes;
    forall t | t in s.tasks && s.tasks[t].key == key ensures !Removes(s.tasks[t].updater) {
      TasksPersist(s, steps, t);
    }
  }

  /** If no call on a key removes its channel, no interleaving races on the key. */
  lemma {:induction false} KeptRun(s: State, steps: seq<Step>, key: Key)
    requires WellFormed(s) && Kept(s, key) && IsRun(s, steps) && AllKeep(End(s, steps), key)
    ensures RaceFree(s, steps, key) && Kept(End(s, steps), key)
    decreases |steps|
  {
    hide WellFormed, Kept, Racing, Enabled, Apply, AllKeep;
    if steps != [] {
      WellFormedStep(s, steps[0]);
      KeepEarlier(Apply(s, steps[0]), steps[1..], key);
      KeptStep(s, steps[0], key);
      KeptRun(Apply(s, steps[0]), steps[1..], key);
    }
  }

  // ---------------------------------------------------------------- what the calls were told

  /** The number of calls on a key whose deduction was answered with success, and their amounts. */
  datatype Totals = Totals(calls: nat, amount: nat)

  predicate Success(task: Task, key: Key) {
    && task.key == key && task.updater.Deduct?
    && task.pc.Finished? && task.pc.answer.Returned? && task.pc.answer.outcome.Ok?
  }

  function Tally(s: State, key: Key, n: nat): Totals {
    if n == 0 then Totals(0, 0)
    else
      var before := Tally(s, key, n - 1);
      if n - 1 in s.tasks && Success(s.tasks[n - 1], key)
      then Totals(before.calls + 1, before.amount + s.tasks[n - 1].updater.amount)
      else before
  }

  /** The calls' successes are the successes of the sequential run. */
  ghost predicate Tallied(s: State, start: map<Key, ChannelState>, key: Key) {
    var paid := Paid(Lookup(start, key), Updaters(HistoryOf(s, key)));
    Tally(s, key, s.nextTask) == Totals(|paid|, Sum(paid))
  }

  /** Only task `t` differs, and it was no success before. */
  lemma {:induction false} TallyMove(s: State, s': State, key: Key, t: TaskId, n: nat)
    requires forall u :: u in s.tasks && u != t <==> u in s'.tasks && u != t
    requires forall u :: u in s.tasks && u != t ==> s'.tasks[u] == s.tasks[u]
    requires t in s'.tasks && (t in s.tasks ==> !Success(s.tasks[t], key))
    ensures Tally(s', key, n) ==
      var before := Tally(s, key, n);
      if t < n && Success(s'.tasks[t], key) then Totals(before.calls + 1, before.amount + s'.tasks[t].updater.amount)
      else before
  {
    hide Success;
    if n > 0 {
      TallyMove(s, s', key, t, n - 1);
    }
  }

  lemma TalliedWrite(s: State, start: map<Key, ChannelState>, t: TaskId)
    requires WellFormed(s) && Enabled(s, Write(t))
    requires Serialized(s, start, s.tasks[t].key) && Tallied(s, start, s.tasks[t].key)
    ensures Tallied(Apply(s, Write(t)), start, s.tasks[t].key)
  {
    hide Serial, RunUpdater, Apply, HistoryOf, Lookup, Tally, Paid, Sum, Ordered, Owned, SequentialAnswer;
    var s', task, key := Apply(s, Write(t)), s.tasks[t], s.tasks[t].key;
    var us, current := Updaters(HistoryOf(s, key)), Serial(Lookup(start, key), Updaters(HistoryOf(s, key)));
    assert TaskAccounted(s, start, t) && task.pc.current == current;
    WriteFrame(s, t);
    SerialAppend(Lookup(start, key), HistoryOf(s, key), CommitOf(t, task));
    PaidSnoc(Lookup(start, key), us, task.updater);
    SumMorePays(Paid(Lookup(start, key), us), task.updater, current);
    TallyMove(s, s', key, t, s.nextTask);
    DeductKeeps(task.updater, current);
    SumPays(task.updater, current);
  }

  lemma PaidSnoc(start: Option<ChannelState>, us: seq<Updater>, u: Updater)
    ensures Paid(start, us + [u]) == Paid(start, us) + Pays(u, Serial(start, us))
  {
    assert (us + [u])[..|us|] == us;
  }

  lemma DeductKeeps(u: Updater, current: Option<ChannelState>)
    ensures u.Deduct? ==> RunUpdater(u, current) != Ok(None)
  {
  }

  /** A deduction never deletes. */
  lemma DeleterDeductsNot(s: State, start: map<Key, ChannelState>, t: TaskId)
    requires t in s.tasks && s.tasks[t].pc.HasDeleted? && TaskAccounted(s, start, t)
    ensures !s.tasks[t].updater.Deduct?
  {
    hide Serial, HistoryOf, Lookup;
    var h := HistoryOf(s, s.tasks[t].key);
    var turn := s.tasks[t].pc.turn;
    DeductKeeps(h[turn].updater, Serial(Lookup(start, s.tasks[t].key), Updaters(h[..turn])));
  }

  lemma TalliedStep(s: State, start: map<Key, ChannelState>, step: Step, key: Key)
    requires WellFormed(s) && Enabled(s, step) && Serialized(s, start, key) && Tallied(s, start, key)
    ensures Tallied(Apply(s, step), start, key)
  {
    hide Serial, RunUpdater, HistoryOf, Lookup, Paid, Sum, TaskAccounted, Owned, Ordered, WellFormed, LockFree;
    if step.Write? && s.tasks[step.t].key == key {
      TalliedWrite(s, start, step.t);
    } else {
      var s', t := Apply(s, step), Mover(s, step);
      FreshLock(s);
      StepFrame(s, step);
      if step.Write? { WriteFrame(s, t); } else { SameHistory(s, s', key); }
      if step.Evict? && s.tasks[t].key == key { DeleterDeductsNot(s, start, t); }
      TallyMove(s, s', key, t, s.nextTask);
    }
  }

  lemma {:induction false} TalliedRun(s: State, start: map<Key, ChannelState>, steps: seq<Step>, key: Key)
    requires WellFormed(s) && Coherent(s, key) && IsRun(s, steps) && RaceFree(s, steps, key)
    requires Serialized(s, start, key) && TicketsIssued(s, key) && Tallied(s, start, key)
    ensures Tallied(End(s, steps), start, key)
    decreases |steps|
  {
    hide WellFormed, Coherent, Racing, Enabled, Apply, Serialized, TicketsIssued, Exclusive, Tallied;
    if steps != [] {
      CoherentExclusive(s, key);
      SerializedStep(s, start, steps[0], key);
      TalliedStep(s, start, steps[0], key);
      WellFormedStep(s, steps[0]);
      CoherentStep(s, steps[0], key);
      TalliedRun(Apply(s, steps[0]), start, steps[1..], key);
    }
  }

  /** Every committed update is the updater of a call on the key. */
  lemma CommitsAreCalls(s: State, start: map<Key, ChannelState>, key: Key, i: nat)
    requires Serialized(s, start, key) && i < |HistoryOf(s, key)|
    ensures var c := HistoryOf(s, key)[i];
      c.owner in s.tasks && s.tasks[c.owner].key == key && s.tasks[c.owner].updater == c.updater
  {
    hide SequentialAnswer, Serial, HistoryOf, Lookup;
    assert TaskAccounted(s, start, HistoryOf(s, key)[i].owner);
  }

  /**
    Concurrent deductions, in every interleaving, beside any writers of the library or neutral
    functions that do not remove the channel, and whatever happens on other keys: `units` is the
    start plus the number of calls answered with success, `spent` the start plus their amounts and
    what the chain settled beyond; without settlements `spent` stays within the voucher.
   */
  lemma ConcurrentDeductions(data: map<Key, ChannelState>, steps: seq<Step>, key: Key)
    requires IsRun(Initial(data), steps) && key in data
    requires forall t :: t in End(Initial(data), steps).tasks && End(Initial(data), steps).tasks[t].key == key ==>
      Known(End(Initial(data), steps).tasks[t].updater) && !Removes(End(Initial(data), steps).tasks[t].updater)
    ensures var end := End(Initial(data), steps);
      var told, us := Tally(end, key, end.nextTask), Updaters(HistoryOf(end, key));
      && key in end.data
      && end.data[key].units == data[key].units + told.calls
      && end.data[key].spent == data[key].spent + told.amount + Raises(Some(data[key]), us)
      && end.data[key].voucher >= data[key].voucher
      && ((forall t :: t in end.tasks && end.tasks[t].key == key ==> !Settles(end.tasks[t].updater)) ==>
            Raises(Some(data[key]), us) == 0 && (Funded(data[key]) ==> Funded(end.data[key])))
  {
    hide Racing, Enabled, Apply, IsRun, End, Known, Removes, Serial, Raises, Paid, Tally, Serialized, HistoryOf,
         Settles;
    var s0 := Initial(data);
    var end := End(s0, steps);
    var us := Updaters(HistoryOf(end, key));
    StartFacts(data, key);
    KeptRun(s0, steps, key);
    EveryRunSerializable(data, steps, key);
    TalliedRun(s0, data, steps, key);
    forall i | 0 <= i < |us| ensures Known(us[i]) && !Removes(us[i])
      ensures (forall t :: t in end.tasks && end.tasks[t].key == key ==> !Settles(end.tasks[t].updater)) ==>
        !Settles(us[i])
    {
      CommitsAreCalls(end, data, key, i);
    }
    BooksBalance(data[key], us);
    assert Lookup(end.data, key) == Serial(Some(data[key]), us) by { SerializedData(end, data, key); }
    if forall t :: t in end.tasks && end.tasks[t].key == key ==> !Settles(end.tasks[t].updater) {
      NoSettlement(Some(data[key]), us);
      if Funded(data[key]) { FundedWithout(data[key], us); }
    }
  }

  lemma StartFacts(data: map<Key, ChannelState>, key: Key)
    ensures var s := Initial(data);
      && WellFormed(s) && Coherent(s, key) && Serialized(s, data, key) && TicketsIssued(s, key) && Tallied(s, data, key)
      && (key in data ==> Kept(s, key))
  {
    SumNone();
  }

  lemma SerializedData(s: State, start: map<Key, ChannelState>, key: Key)
    requires Serialized(s, start, key)
    ensures Lookup(s.data, key) == Serial(Lookup(start, key), Updaters(HistoryOf(s, key)))
  {
  }
}
