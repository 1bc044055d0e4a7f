/** What it costs to evict a lock that another call has already fetched. */
module Eviction {
  import opened Prelude
  import opened Channel
  import opened Adapter

  // ---------------------------------------------------------------- what a racing eviction costs

  lemma {:induction false} RunSnoc(s: State, steps: seq<Step>, step: Step)
    requires IsRun(s, steps) && Enabled(End(s, steps), step)
    ensures IsRun(s, steps + [step]) && End(s, steps + [step]) == Apply(End(s, steps), step)
    decreases |steps|
  {
    hide Enabled, Apply;
    if steps == [] {
      assert [] + [step] == [step] && [step][1..] == [];
    } else {
      assert (steps + [step])[1..] == steps[1..] + [step];
      RunSnoc(Apply(s, steps[0]), steps[1..], step);
    }
  }

  lemma OneStep(s: State, step: Step)
    requires Enabled(s, step)
    ensures IsRun(s, [step]) && End(s, [step]) == Apply(s, step)
  {
    hide Enabled, Apply;
    assert [step][1..] == [];
  }

  ghost predicate NoEviction(steps: seq<Step>) {
    forall i :: 0 <= i < |steps| ==> !steps[i].Evict?
  }

  lemma {:induction false} NoEvictionNoRace(s: State, steps: seq<Step>, key: Key)
    requires IsRun(s, steps) && NoEviction(steps)
    ensures RaceFree(s, steps, key)
    decreases |steps|
  {
    hide Enabled, Apply;
    if steps != [] {
      NoEvictionNoRace(Apply(s, steps[0]), steps[1..], key);
    }
  }

  /** `u` takes its lock first and writes last; `n` overtakes it on a lock of its own. */
  function Overtaking(u: TaskId, n: TaskId): seq<Step> {
    [Acquire(u)] + [Acquire(n)] + [Get(n)] + [Write(n)] + [Get(u)] + [Write(u)]
  }

  /** Two tasks of a key that wait for different free locks. */
  ghost predicate Apart(s: State, u: TaskId, n: TaskId) {
    && u in s.tasks && n in s.tasks && u != n && s.tasks[u].key == s.tasks[n].key
    && s.tasks[u].pc.Waiting? && s.tasks[n].pc.Waiting? && s.tasks[u].pc.lock != s.tasks[n].pc.lock
    && LockFree(s, s.tasks[u].pc.lock) && LockFree(s, s.tasks[n].pc.lock)
  }

  lemma BothAcquire(s: State, u: TaskId, n: TaskId)
    requires Apart(s, u, n)
    ensures var run := [Acquire(u)] + [Acquire(n)] + [Get(n)];
      && IsRun(s, run)
      && var end := End(s, run);
         && u in end.tasks && end.tasks[u] == s.tasks[u].(pc := Holding(s.tasks[u].pc.lock, s.nextTicket))
         && n in end.tasks && n != u && end.tasks[n].key == s.tasks[u].key
         && end.tasks[n].pc.HasRead? && end.tasks[n].pc.ticket == s.nextTicket + 1
  {
    hide IsRun, End;
    OneStep(s, Acquire(u));
    var s1 := Apply(s, Acquire(u));
    assert s1.tasks == s.tasks[u := s1.tasks[u]];
    assert LockFree(s1, s1.tasks[n].pc.lock);
    RunSnoc(s, [Acquire(u)], Acquire(n));
    RunSnoc(s, [Acquire(u)] + [Acquire(n)], Get(n));
  }

  lemma Overtaken(s: State, u: TaskId, n: TaskId)
    requires Apart(s, u, n)
    ensures IsRun(s, Overtaking(u, n)) && NoEviction(Overtaking(u, n))
    ensures !Ordered(End(s, Overtaking(u, n)), s.tasks[u].key)
  {
    hide IsRun, End, RunUpdater, HistoryOf, Lookup, Apart;
    BothAcquire(s, u, n);
    var run := [Acquire(u)] + [Acquire(n)] + [Get(n)];
    var s1 := End(s, run);
    var key := s1.tasks[u].key;
    WriteFrame(s1, n);
    RunSnoc(s, run, Write(n));
    var s2 := Apply(s1, Write(n));
    RunSnoc(s, run + [Write(n)], Get(u));
    var s3 := Apply(s2, Get(u));
    assert HistoryOf(s3, key) == HistoryOf(s2, key) by { SameHistory(s2, s3, key); }
    WriteFrame(s3, u);
    RunSnoc(s, run + [Write(n)] + [Get(u)], Write(u));
    var h, h' := HistoryOf(s1, key), HistoryOf(Apply(s3, Write(u)), key);
    assert h'[|h|].ticket > h'[|h| + 1].ticket;
  }

  /** Whoever shares the lock of a holder waits for it. */
  lemma SharedLock(s: State, e: TaskId, u: TaskId)
    requires WellFormed(s) && e in s.tasks && Holds(s.tasks[e])
    requires u in s.tasks && u != e && Active(s.tasks[u]) && s.tasks[u].pc.lock == s.tasks[e].pc.lock
    ensures s.tasks[u].pc.Waiting? && s.tasks[u].key == s.tasks[e].key && s.tasks[u].pc.lock < s.nextLock
    ensures forall t :: t in s.tasks && t != e && Holds(s.tasks[t]) ==> s.tasks[t].pc.lock != s.tasks[e].pc.lock
  {
    assert !Holds(s.tasks[u]);
  }

  /** After a racing eviction a call that waited and a newcomer wait for different free locks. */
  lemma RaceParts(s: State, e: TaskId, key: Key) returns (u: TaskId)
    requires WellFormed(s) && Coherent(s, key) && Enabled(s, Evict(e)) && Racing(s, Evict(e), key)
    ensures Apart(Apply(Apply(s, Evict(e)), Begin(key, Deduct(0))), u, s.nextTask)
    ensures Apply(Apply(s, Evict(e)), Begin(key, Deduct(0))).tasks[u].key == key
  {
    hide WellFormed, Coherent;
    u :| u in s.tasks && u != e && Active(s.tasks[u]) && s.tasks[u].pc.lock == s.tasks[e].pc.lock;
    FreshLock(s);
    SharedLock(s, e, u);
    var s1 := Apply(s, Evict(e));
    assert s1.tasks == s.tasks[e := s1.tasks[e]] && key !in s1.locks && s1.nextLock == s.nextLock;
    var s2 := Apply(s1, Begin(key, Deduct(0)));
    assert s2.tasks == s1.tasks[s.nextTask := Task(key, Deduct(0), Waiting(s.nextLock))];
    assert s2.tasks[u] == s.tasks[u];
  }

  ghost predicate SerializedForever(s: State, start: map<Key, ChannelState>, key: Key) {
    forall steps :: IsRun(s, steps) && RaceFree(s, steps, key) ==> Serialized(End(s, steps), start, key)
  }

  /** A racing eviction has a continuation that is not serializable. */
  lemma RaceUnserializable(s: State, start: map<Key, ChannelState>, e: TaskId, key: Key)
    requires WellFormed(s) && Coherent(s, key) && Enabled(s, Evict(e)) && Racing(s, Evict(e), key)
    ensures !SerializedForever(Apply(s, Evict(e)), start, key)
  {
    hide WellFormed, Coherent, Racing, Enabled, Apply, IsRun, End, RaceFree, Overtaking, TaskAccounted, Apart;
    var s1, begin := Apply(s, Evict(e)), Begin(key, Deduct(0));
    var u := RaceParts(s, e, key);
    var steps := Overtaking(u, s.nextTask);
    assert Enabled(s1, begin) by { BeginEnabled(s1, key); }
    Overtaken(Apply(s1, begin), u, s.nextTask);
    NoEvictionNoRace(Apply(s1, begin), steps, key);
    assert !Racing(s1, begin, key) by { BeginEnabled(s1, key); }
    Prepend(s1, begin, steps, key);
    assert !Serialized(End(s1, [begin] + steps), start, key);
  }

  lemma BeginEnabled(s: State, key: Key)
    ensures Enabled(s, Begin(key, Deduct(0))) && !Racing(s, Begin(key, Deduct(0)), key)
  {
  }

  /**
    From a coherent, serialized state a step keeps the key serializable in everything that can
    follow, other races apart, exactly when it is not itself a racing eviction.
   */
  lemma SerializableExactly(s: State, start: map<Key, ChannelState>, step: Step, key: Key)
    requires WellFormed(s) && Coherent(s, key) && Serialized(s, start, key) && TicketsIssued(s, key)
    requires Enabled(s, step)
    ensures SerializedForever(Apply(s, step), start, key) <==> !Racing(s, step, key)
  {
    hide WellFormed, Coherent, Enabled, Apply, IsRun, End, RaceFree, Serialized, TicketsIssued, Exclusive, Racing;
    if Racing(s, step, key) {
      assert step.Evict? by { OnlyEvictionsRace(s, step, key); }
      RaceUnserializable(s, start, step.t, key);
    } else {
      CoherentExclusive(s, key);
      SerializedStep(s, start, step, key);
      WellFormedStep(s, step);
      CoherentStep(s, step, key);
      forall steps | IsRun(Apply(s, step), steps) && RaceFree(Apply(s, step), steps, key)
        ensures Serialized(End(Apply(s, step), steps), start, key)
      {
        SerializedRun(Apply(s, step), start, steps, key);
      }
    }
  }

  lemma OnlyEvictionsRace(s: State, step: Step, key: Key)
    requires Racing(s, step, key)
    ensures step.Evict?
  {
  }

  // ---------------------------------------------------------------- one lost update in full

  /** Counts one unit, on a fresh channel if there is none. */
  const COUNT := Custom((c: Option<ChannelState>) => Ok(Some(Counted(c))))

  function Counted(c: Option<ChannelState>): ChannelState {
    match c
    case Some(x) => x.(units := x.units + 1)
    case None => ChannelState(0, 0, 0, 0, 1, false, false)
  }

  /** Task 0 removes the channel while task 1 already waits for its lock. */
  function BeforeEviction(k: Key): seq<Step> {
    [Begin(k, Remove)] + [Acquire(0)] + [Get(0)] + [Begin(k, COUNT)] + [Write(0)]
  }

  /** The new lock goes to task 2, so tasks 1 and 2 both read before either writes. */
  function AfterEviction(k: Key): seq<Step> {
    BeforeEviction(k) + [Evict(0)] + [Begin(k, COUNT)]
    + [Acquire(1)] + [Acquire(2)] + [Get(1)] + [Get(2)] + [Write(1)] + [Write(2)]
  }

  lemma RemoveReads(data: map<Key, ChannelState>, k: Key)
    ensures var run, s0 := [Begin(k, Remove)] + [Acquire(0)] + [Get(0)] + [Begin(k, COUNT)], Initial(data);
      IsRun(s0, run)
      && End(s0, run) == State(data, map[k := 0], 1, map[0 := k],
           map[0 := Task(k, Remove, HasRead(0, 0, Lookup(data, k))), 1 := Task(k, COUNT, Waiting(0))], 2, 1, map[])
  {
    hide IsRun, End;
    var s0 := Initial(data);
    OneStep(s0, Begin(k, Remove));
    var r1 := [Begin(k, Remove)];
    RunSnoc(s0, r1, Acquire(0));
    var r2 := r1 + [Acquire(0)];
    RunSnoc(s0, r2, Get(0));
    var r3 := r2 + [Get(0)];
    RunSnoc(s0, r3, Begin(k, COUNT));
  }

  lemma RemoveWrites(data: map<Key, ChannelState>, k: Key)
    ensures IsRun(Initial(data), BeforeEviction(k))
    ensures End(Initial(data), BeforeEviction(k)) == State(data - {k}, map[k := 0], 1, map[0 := k],
      map[0 := Task(k, Remove, HasDeleted(0, 0, 0)), 1 := Task(k, COUNT, Waiting(0))],
      2, 1, map[k := [Commit(0, 0, Remove)]])
  {
    hide IsRun, End, Lookup;
    RemoveReads(data, k);
    assert [] + [Commit(0, 0, Remove)] == [Commit(0, 0, Remove)];
    RunSnoc(Initial(data), [Begin(k, Remove)] + [Acquire(0)] + [Get(0)] + [Begin(k, COUNT)], Write(0));
  }

  /** Task 2 gets a lock of its own. */
  lemma LocksDiffer(data: map<Key, ChannelState>, k: Key)
    ensures var s0, run := Initial(data), BeforeEviction(k) + [Evict(0)] + [Begin(k, COUNT)];
      IsRun(s0, run)
      && End(s0, run) == State(data - {k}, map[k := 1], 2, map[0 := k, 1 := k],
           map[0 := Task(k, Remove, Finished(Returned(Ok(None)), 0, 0)),
               1 := Task(k, COUNT, Waiting(0)), 2 := Task(k, COUNT, Waiting(1))],
           3, 1, map[k := [Commit(0, 0, Remove)]])
  {
    hide IsRun, End, BeforeEviction;
    var s0, run := Initial(data), BeforeEviction(k);
    RemoveWrites(data, k);
    RunSnoc(s0, run, Evict(0));
    assert End(s0, run + [Evict(0)]).locks == map[];
    RunSnoc(s0, run + [Evict(0)], Begin(k, COUNT));
  }

  lemma BothHold(data: map<Key, ChannelState>, k: Key)
    ensures var s0 := Initial(data);
      var run := BeforeEviction(k) + [Evict(0)] + [Begin(k, COUNT)] + [Acquire(1)] + [Acquire(2)];
      IsRun(s0, run)
      && End(s0, run) == State(data - {k}, map[k := 1], 2, map[0 := k, 1 := k],
           map[0 := Task(k, Remove, Finished(Returned(Ok(None)), 0, 0)),
               1 := Task(k, COUNT, Holding(0, 1)), 2 := Task(k, COUNT, Holding(1, 2))],
           3, 3, map[k := [Commit(0, 0, Remove)]])
  {
    hide IsRun, End, BeforeEviction;
    var s0, run := Initial(data), BeforeEviction(k) + [Evict(0)] + [Begin(k, COUNT)];
    LocksDiffer(data, k);
    RunSnoc(s0, run, Acquire(1));
    RunSnoc(s0, run + [Acquire(1)], Acquire(2));
  }

  lemma BothRead(data: map<Key, ChannelState>, k: Key)
    ensures var s0 := Initial(data);
      var run := BeforeEviction(k) + [Evict(0)] + [Begin(k, COUNT)] + [Acquire(1)] + [Acquire(2)] + [Get(1)] + [Get(2)];
      IsRun(s0, run)
      && End(s0, run) == State(data - {k}, map[k := 1], 2, map[0 := k, 1 := k],
           map[0 := Task(k, Remove, Finished(Returned(Ok(None)), 0, 0)),
               1 := Task(k, COUNT, HasRead(0, 1, None)), 2 := Task(k, COUNT, HasRead(1, 2, None))],
           3, 3, map[k := [Commit(0, 0, Remove)]])
  {
    hide IsRun, End, BeforeEviction, LockFree;
    var s0, run := Initial(data), BeforeEviction(k) + [Evict(0)] + [Begin(k, COUNT)] + [Acquire(1)] + [Acquire(2)];
    BothHold(data, k);
    RunSnoc(s0, run, Get(1));
    RunSnoc(s0, run + [Get(1)], Get(2));
  }

  lemma FirstWrites(data: map<Key, ChannelState>, k: Key)
    ensures var s0 := Initial(data);
      var run := BeforeEviction(k) + [Evict(0)] + [Begin(k, COUNT)] + [Acquire(1)] + [Acquire(2)] + [Get(1)] + [Get(2)]
        + [Write(1)];
      IsRun(s0, run)
      && End(s0, run) == State((data - {k})[k := Counted(None)], map[k := 1], 2, map[0 := k, 1 := k],
           map[0 := Task(k, Remove, Finished(Returned(Ok(None)), 0, 0)),
               1 := Task(k, COUNT, Finished(Returned(Ok(Some(Counted(None)))), 1, 1)),
               2 := Task(k, COUNT, HasRead(1, 2, None))],
           3, 3, map[k := [Commit(0, 0, Remove), Commit(1, 1, COUNT)]])
  {
    hide IsRun, End, BeforeEviction, Counted, Enabled, RunUpdater;
    CountRuns(None);
    var run := BeforeEviction(k) + [Evict(0)] + [Begin(k, COUNT)] + [Acquire(1)] + [Acquire(2)] + [Get(1)] + [Get(2)];
    BothRead(data, k);
    CountEnabled(End(Initial(data), run), 1);
    RunSnoc(Initial(data), run, Write(1));
    assert [Commit(0, 0, Remove)] + [Commit(1, 1, COUNT)] == [Commit(0, 0, Remove), Commit(1, 1, COUNT)];
  }

  lemma CountRuns(c: Option<ChannelState>)
    ensures RunUpdater(COUNT, c) == Ok(Some(Counted(c)))
  {
  }

  lemma CountEnabled(s: State, t: TaskId)
    requires t in s.tasks && s.tasks[t].pc.HasRead?
    ensures Enabled(s, Write(t))
  {
  }

  lemma BothWrite(data: map<Key, ChannelState>, k: Key)
    ensures IsRun(Initial(data), AfterEviction(k))
    ensures var s, one := End(Initial(data), AfterEviction(k)), Counted(None);
      && s.tasks == map[0 := Task(k, Remove, Finished(Returned(Ok(None)), 0, 0)),
           1 := Task(k, COUNT, Finished(Returned(Ok(Some(one))), 1, 1)),
           2 := Task(k, COUNT, Finished(Returned(Ok(Some(one))), 2, 2))]
      && Lookup(s.data, k) == Some(one)
      && HistoryOf(s, k) == [Commit(0, 0, Remove), Commit(1, 1, COUNT), Commit(2, 2, COUNT)]
  {
    hide IsRun, End, BeforeEviction, Counted, Enabled, RunUpdater;
    CountRuns(None);
    var run := BeforeEviction(k) + [Evict(0)] + [Begin(k, COUNT)] + [Acquire(1)] + [Acquire(2)] + [Get(1)] + [Get(2)]
      + [Write(1)];
    FirstWrites(data, k);
    CountEnabled(End(Initial(data), run), 2);
    RunSnoc(Initial(data), run, Write(2));
    assert [Commit(0, 0, Remove), Commit(1, 1, COUNT)] + [Commit(2, 2, COUNT)]
      == [Commit(0, 0, Remove), Commit(1, 1, COUNT), Commit(2, 2, COUNT)];
  }

  lemma RemoveThenCountTwice(start: Option<ChannelState>)
    ensures Serial(start, [Remove, COUNT, COUNT]) == Some(Counted(Some(Counted(None))))
  {
    hide Counted;
    assert [Remove, COUNT, COUNT][..2] == [Remove, COUNT] && [Remove, COUNT][..1] == [Remove] && [Remove][..0] == [];
    assert Serial(start, [Remove]) == None;
    assert Serial(start, [Remove, COUNT]) == Some(Counted(None));
  }

  /**
    Why the race must be excluded, on any store: after a racing eviction two calls each count one
    unit on a fresh channel, both report one, and the store holds one instead of two.
   */
  lemma LostUpdate(data: map<Key, ChannelState>, k: Key)
    ensures IsRun(Initial(data), BeforeEviction(k)) && Racing(End(Initial(data), BeforeEviction(k)), Evict(0), k)
    ensures IsRun(Initial(data), AfterEviction(k))
    ensures var s, answer := End(Initial(data), AfterEviction(k)), Returned(Ok(Some(Counted(None))));
      && 1 in s.tasks && s.tasks[1].pc == Finished(answer, 1, 1)
      && 2 in s.tasks && s.tasks[2].pc == Finished(answer, 2, 2)
      && Lookup(s.data, k) == Some(Counted(None))
      && Serial(Lookup(data, k), Updaters(HistoryOf(s, k))) == Some(Counted(Some(Counted(None))))
      && !Serialized(s, data, k)
  {
    hide IsRun, End, BeforeEviction, AfterEviction, HistoryOf, Lookup, Serial;
    RemoveWrites(data, k);
    var dropped := End(Initial(data), BeforeEviction(k));
    assert 1 in dropped.tasks && Active(dropped.tasks[1]) && dropped.tasks[1].pc.lock == dropped.tasks[0].pc.lock;
    BothWrite(data, k);
    var h := HistoryOf(End(Initial(data), AfterEviction(k)), k);
    assert Updaters(h) == [Remove, COUNT, COUNT];
    RemoveThenCountTwice(Lookup(data, k));
  }
}
