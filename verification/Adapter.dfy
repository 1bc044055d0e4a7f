/**
  `ChannelStoreAdapter`: atomic read-modify-write over a store with only get, put and delete.

  Concurrent `update_channel` calls are tasks whose steps interleave freely. A task fetches its
  key's lock, waits for it, reads, runs its updater, writes or deletes, and after a delete evicts
  the lock from the map. Dropping the guard happens with the last step of a call.
 */
module Adapter {
  import opened Prelude
  import opened Channel

  type Key = string
  type LockId = nat
  type TaskId = nat

  datatype Answer = Returned(outcome: Outcome) | StoreFailed

  /**
    Where a task stands. Tickets number the lock acquisitions of the whole run; a turn is a
    position among the committed updates of the key.
   */
  datatype Pc =
    | Waiting(lock: LockId)
    | Holding(lock: LockId, ticket: nat)
    | HasRead(lock: LockId, ticket: nat, current: Option<ChannelState>)
    | HasDeleted(lock: LockId, ticket: nat, turn: nat)
    | Finished(answer: Answer, ticket: nat, turn: nat)

  datatype Task = Task(key: Key, updater: Updater, pc: Pc)

  datatype Commit = Commit(owner: TaskId, ticket: nat, updater: Updater)

  /**
    `lockKeys` and `history` only observe: which key each lock was made for, and per key the
    updates in the order they took effect.
   */
  datatype State = State(
    data: map<Key, ChannelState>,
    locks: map<Key, LockId>,
    nextLock: LockId,
    lockKeys: map<LockId, Key>,
    tasks: map<TaskId, Task>,
    nextTask: TaskId,
    nextTicket: nat,
    history: map<Key, seq<Commit>>)

  datatype Step =
    | Begin(key: Key, updater: Updater)
    | Acquire(t: TaskId)
    | Get(t: TaskId)
    | Write(t: TaskId)
    | Evict(t: TaskId)
    | Fail(t: TaskId)

  function Lookup(data: map<Key, ChannelState>, key: Key): Option<ChannelState> {
    if key in data then Some(data[key]) else None
  }

  function HistoryOf(s: State, key: Key): seq<Commit> {
    if key in s.history then s.history[key] else []
  }

  function Updaters(h: seq<Commit>): (us: seq<Updater>)
    ensures |us| == |h|
    ensures forall i :: 0 <= i < |h| ==> us[i] == h[i].updater
  {
    seq(|h|, i requires 0 <= i < |h| => h[i].updater)
  }

  predicate Active(task: Task) { !task.pc.Finished? }

  predicate Holds(task: Task) { task.pc.Holding? || task.pc.HasRead? || task.pc.HasDeleted? }

  predicate Committed(task: Task) { task.pc.HasDeleted? || (task.pc.Finished? && task.pc.answer.Returned?) }

  ghost predicate LockFree(s: State, lock: LockId) {
    forall t :: t in s.tasks && Holds(s.tasks[t]) ==> s.tasks[t].pc.lock != lock
  }

  ghost predicate Enabled(s: State, step: Step) {
    match step
    case Begin(_, _) => true
    case Acquire(t) => t in s.tasks && s.tasks[t].pc.Waiting? && LockFree(s, s.tasks[t].pc.lock)
    case Get(t) => t in s.tasks && s.tasks[t].pc.Holding?
    case Write(t) => t in s.tasks && s.tasks[t].pc.HasRead?
    case Evict(t) => t in s.tasks && s.tasks[t].pc.HasDeleted?
    case Fail(t) => t in s.tasks && (s.tasks[t].pc.Holding? || s.tasks[t].pc.HasRead?)
  }

  function SetPc(s: State, t: TaskId, pc: Pc): State
    requires t in s.tasks
  {
    s.(tasks := s.tasks[t := s.tasks[t].(pc := pc)])
  }

  function Apply(s: State, step: Step): State
    requires Enabled(s, step)
  {
    match step
    case Begin(key, updater) =>
      var known := key in s.locks;
      var lock := if known then s.locks[key] else s.nextLock;
      s.(locks := s.locks[key := lock],
         nextLock := if known then s.nextLock else s.nextLock + 1,
         lockKeys := if known then s.lockKeys else s.lockKeys[lock := key],
         tasks := s.tasks[s.nextTask := Task(key, updater, Waiting(lock))],
         nextTask := s.nextTask + 1)
    case Acquire(t) =>
      SetPc(s, t, Holding(s.tasks[t].pc.lock, s.nextTicket)).(nextTicket := s.nextTicket + 1)
    case Get(t) =>
      var task := s.tasks[t];
      SetPc(s, t, HasRead(task.pc.lock, task.pc.ticket, Lookup(s.data, task.key)))
    case Write(t) =>
      var task := s.tasks[t];
      var h := HistoryOf(s, task.key);
      var s1 := s.(history := s.history[task.key := h + [CommitOf(t, task)]]);
      (match RunUpdater(task.updater, task.pc.current)
       case Err(e) => SetPc(s1, t, Finished(Returned(Err(e)), task.pc.ticket, |h|))
       case Ok(Some(c)) =>
         SetPc(s1, t, Finished(Returned(Ok(Some(c))), task.pc.ticket, |h|)).(data := s.data[task.key := c])
       case Ok(None) =>
         SetPc(s1, t, HasDeleted(task.pc.lock, task.pc.ticket, |h|)).(data := s.data - {task.key}))
    case Evict(t) =>
      var task := s.tasks[t];
      SetPc(s, t, Finished(Returned(Ok(None)), task.pc.ticket, task.pc.turn)).(locks := s.locks - {task.key})
    case Fail(t) => SetPc(s, t, Finished(StoreFailed, s.tasks[t].pc.ticket, 0))
  }

  function CommitOf(t: TaskId, task: Task): Commit
    requires task.pc.HasRead?
  {
    Commit(t, task.pc.ticket, task.updater)
  }

  /** Another task of `key` has already fetched the lock that this step evicts. */
  ghost predicate Racing(s: State, step: Step, key: Key) {
    step.Evict? && step.t in s.tasks && s.tasks[step.t].pc.HasDeleted? && s.tasks[step.t].key == key
    && exists t :: t in s.tasks && t != step.t && Active(s.tasks[t]) && s.tasks[t].pc.lock == s.tasks[step.t].pc.lock
  }

  function Initial(data: map<Key, ChannelState>): State {
    State(data, map[], 0, map[], map[], 0, 0, map[])
  }

  // ---------------------------------------------------------------- runs

  ghost predicate IsRun(s: State, steps: seq<Step>)
    decreases |steps|
  {
    steps == [] || (Enabled(s, steps[0]) && IsRun(Apply(s, steps[0]), steps[1..]))
  }

  ghost function End(s: State, steps: seq<Step>): State
    requires IsRun(s, steps)
    decreases |steps|
  {
    if steps == [] then s else End(Apply(s, steps[0]), steps[1..])
  }

  /** No step of the run evicts a lock of `key` that another task has fetched. */
  ghost predicate RaceFree(s: State, steps: seq<Step>, key: Key)
    requires IsRun(s, steps)
    decreases |steps|
  {
    steps == [] || (!Racing(s, steps[0], key) && RaceFree(Apply(s, steps[0]), steps[1..], key))
  }

  // ---------------------------------------------------------------- lock discipline

  /** Lock and task numbers are fresh, a lock serves the key it was made for and has at most one holder. */
  ghost predicate WellFormed(s: State) {
    && (forall l :: l in s.lockKeys ==> l < s.nextLock)
    && (forall k :: k in s.locks ==> s.locks[k] in s.lockKeys && s.lockKeys[s.locks[k]] == k)
    && (forall t :: t in s.tasks ==> t < s.nextTask)
    && (forall t :: t in s.tasks && Active(s.tasks[t]) ==>
          s.tasks[t].pc.lock in s.lockKeys && s.lockKeys[s.tasks[t].pc.lock] == s.tasks[t].key)
    && OneHolder(s)
  }

  ghost predicate OneHolder(s: State) {
    forall t, u :: t in s.tasks && u in s.tasks && Holds(s.tasks[t]) && Holds(s.tasks[u]) && t != u ==>
      s.tasks[t].pc.lock != s.tasks[u].pc.lock
  }

  /** Every unfinished task of `key` uses the lock that newcomers would get. */
  ghost predicate Coherent(s: State, key: Key) {
    forall t :: t in s.tasks && s.tasks[t].key == key && Active(s.tasks[t]) ==>
      key in s.locks && s.locks[key] == s.tasks[t].pc.lock
  }

  /** At most one task of `key` is past acquiring and not yet done. */
  ghost predicate Exclusive(s: State, key: Key) {
    forall t, u :: t in s.tasks && u in s.tasks && t != u && s.tasks[t].key == s.tasks[u].key == key ==>
      !(Holds(s.tasks[t]) && Holds(s.tasks[u]))
  }

  /** The task a step moves. */
  function Mover(s: State, step: Step): TaskId { if step.Begin? then s.nextTask else step.t }

  /** A step of a begun task moves that task alone, on the same lock; only an eviction touches the lock map. */
  lemma StepMoves(s: State, step: Step)
    requires Enabled(s, step) && !step.Begin?
    ensures var s', t := Apply(s, step), step.t;
      && t in s.tasks && t in s'.tasks && s'.tasks == s.tasks[t := s.tasks[t].(pc := s'.tasks[t].pc)]
      && Active(s.tasks[t]) && (Active(s'.tasks[t]) ==> s'.tasks[t].pc.lock == s.tasks[t].pc.lock)
      && (Holds(s.tasks[t]) || LockFree(s, s.tasks[t].pc.lock)) && (step.Evict? ==> !Active(s'.tasks[t]))
      && s'.locks == (if step.Evict? then s.locks - {s.tasks[t].key} else s.locks)
      && s'.nextTask == s.nextTask && s'.nextLock == s.nextLock && s'.lockKeys == s.lockKeys
  {
    hide RunUpdater, HistoryOf, Lookup, LockFree;
  }

  /** A step moves one task, which keeps its key and updater. */
  lemma StepFrame(s: State, step: Step)
    requires Enabled(s, step)
    ensures var s', t := Apply(s, step), Mover(s, step);
      && t in s'.tasks
      && (forall u :: u != t ==> (u in s'.tasks <==> u in s.tasks) && (u in s.tasks ==> s'.tasks[u] == s.tasks[u]))
      && (if step.Begin? then s'.tasks[t] == Task(step.key, step.updater, Waiting(s'.tasks[t].pc.lock))
          else t in s.tasks && s'.tasks[t].key == s.tasks[t].key && s'.tasks[t].updater == s.tasks[t].updater)
  {
    if step.Begin? {
      hide LockFree;
    } else {
      hide Apply, LockFree;
      StepMoves(s, step);
    }
  }

  /** One task moves on; it holds its lock afterwards only if it did before. */
  lemma WellFormedMove(s: State, t: TaskId, pc: Pc)
    requires WellFormed(s) && t in s.tasks && Active(s.tasks[t])
    requires !pc.Finished? ==> pc.lock == s.tasks[t].pc.lock
    requires Holds(s.tasks[t]) || LockFree(s, s.tasks[t].pc.lock)
    ensures WellFormed(SetPc(s, t, pc))
  {
    var s' := SetPc(s, t, pc);
    assert forall u :: u in s.tasks && u != t ==> s'.tasks[u] == s.tasks[u];
  }

  lemma WellFormedBegin(s: State, key: Key, updater: Updater)
    requires WellFormed(s)
    ensures WellFormed(Apply(s, Begin(key, updater)))
  {
    hide WellFormed;
    var s' := Apply(s, Begin(key, updater));
    WellFormedLock(s, key);
    WellFormedTask(s.(locks := s'.locks, nextLock := s'.nextLock, lockKeys := s'.lockKeys), key, updater);
  }

  /** The key's lock, old or new, is a lock of that key. */
  lemma WellFormedLock(s: State, key: Key)
    requires WellFormed(s)
    ensures var known := key in s.locks;
      var lock := if known then s.locks[key] else s.nextLock;
      WellFormed(s.(locks := s.locks[key := lock],
                    nextLock := if known then s.nextLock else s.nextLock + 1,
                    lockKeys := if known then s.lockKeys else s.lockKeys[lock := key]))
  {
  }

  lemma WellFormedTask(s: State, key: Key, updater: Updater)
    requires WellFormed(s) && key in s.locks
    ensures WellFormed(s.(tasks := s.tasks[s.nextTask := Task(key, updater, Waiting(s.locks[key]))],
                          nextTask := s.nextTask + 1))
  {
    assert s.nextTask !in s.tasks;
  }

  /** Only tasks, locks and their counters matter, and a removed lock entry does no harm. */
  lemma WellFormedRest(s: State, s': State)
    requires WellFormed(s)
    requires s'.tasks == s.tasks && s'.nextTask == s.nextTask
    requires s'.lockKeys == s.lockKeys && s'.nextLock == s.nextLock
    requires forall k :: k in s'.locks ==> k in s.locks && s'.locks[k] == s.locks[k]
    ensures WellFormed(s')
  {
  }

  lemma WellFormedStep(s: State, step: Step)
    requires WellFormed(s) && Enabled(s, step)
    ensures WellFormed(Apply(s, step))
  {
    hide Apply, LockFree, WellFormed;
    match step
    case Begin(key, updater) => WellFormedBegin(s, key, updater);
    case _ =>
      var t := step.t;
      var s' := Apply(s, step);
      StepMoves(s, step);
      WellFormedMove(s, t, s'.tasks[t].pc);
      WellFormedRest(SetPc(s, t, s'.tasks[t].pc), s');
  }

  lemma FreshLock(s: State)
    requires WellFormed(s)
    ensures LockFree(s, s.nextLock) && s.nextTask !in s.tasks
  {
    hide OneHolder;
  }

  lemma SameHistory(s: State, s': State, key: Key)
    requires s'.history == s.history
    ensures HistoryOf(s', key) == HistoryOf(s, key)
  {
  }

  lemma CoherentExclusive(s: State, key: Key)
    requires WellFormed(s) && Coherent(s, key)
    ensures Exclusive(s, key)
  {
  }

  lemma CoherentBegin(s: State, key: Key, updater: Updater, on: Key)
    requires WellFormed(s) && Coherent(s, on)
    ensures Coherent(Apply(s, Begin(key, updater)), on)
  {
    hide WellFormed;
    FreshLock(s);
  }

  /** From a coherent state, exactly the racing evictions lose coherence. */
  lemma CoherentStep(s: State, step: Step, key: Key)
    requires WellFormed(s) && Coherent(s, key) && Enabled(s, step)
    ensures Coherent(Apply(s, step), key) <==> !Racing(s, step, key)
  {
    hide Apply, LockFree, OneHolder;
    if step.Begin? {
      CoherentBegin(s, step.key, step.updater, key);
    } else {
      StepMoves(s, step);
      var s' := Apply(s, step);
      if Racing(s, step, key) {
        var t :| t in s.tasks && t != step.t && Active(s.tasks[t]) && s.tasks[t].pc.lock == s.tasks[step.t].pc.lock;
        assert s'.tasks[t] == s.tasks[t] && s.tasks[t].key == key;
        assert key !in s'.locks;
      }
    }
  }

  lemma Prepend(s: State, step: Step, rest: seq<Step>, key: Key)
    requires Enabled(s, step) && !Racing(s, step, key)
    requires IsRun(Apply(s, step), rest) && RaceFree(Apply(s, step), rest, key)
    ensures IsRun(s, [step] + rest) && RaceFree(s, [step] + rest, key)
    ensures End(s, [step] + rest) == End(Apply(s, step), rest)
  {
    hide Apply, Enabled, Racing;
    assert ([step] + rest)[1..] == rest;
  }

  /** Without coherence, a call that has not begun yet can end up beside a lock holder of its key. */
  lemma IncoherentBreaks(s: State, key: Key) returns (steps: seq<Step>)
    requires WellFormed(s) && !Coherent(s, key)
    ensures IsRun(s, steps) && RaceFree(s, steps, key) && !Exclusive(End(s, steps), key)
  {
    hide RunUpdater, Lookup, HistoryOf, IsRun, RaceFree, End, Exclusive;
    var t :| t in s.tasks && s.tasks[t].key == key && Active(s.tasks[t])
      && !(key in s.locks && s.locks[key] == s.tasks[t].pc.lock);
    if Holds(s.tasks[t]) {
      steps := SecondHolder(s, t);
    } else if LockFree(s, s.tasks[t].pc.lock) {
      var s1 := Apply(s, Acquire(t));
      WellFormedStep(s, Acquire(t));
      steps := SecondHolder(s1, t);
      Prepend(s, Acquire(t), steps, key);
      steps := [Acquire(t)] + steps;
    } else {
      var u :| u in s.tasks && Holds(s.tasks[u]) && s.tasks[u].pc.lock == s.tasks[t].pc.lock;
      steps := SecondHolder(s, u);
    }
  }

  /** A newcomer gets another lock than `holder` has, so nothing keeps it from holding one too. */
  lemma SecondHolder(s: State, holder: TaskId) returns (steps: seq<Step>)
    requires WellFormed(s) && holder in s.tasks && Holds(s.tasks[holder])
    requires !(s.tasks[holder].key in s.locks && s.locks[s.tasks[holder].key] == s.tasks[holder].pc.lock)
    ensures var key := s.tasks[holder].key;
      IsRun(s, steps) && RaceFree(s, steps, key) && !Exclusive(End(s, steps), key)
  {
    hide RunUpdater, Lookup, HistoryOf, WellFormed;
    var key := s.tasks[holder].key;
    var begin := Begin(key, Deduct(0));
    var newcomer := s.nextTask;
    var s2 := Apply(s, begin);
    NewcomerFacts(s, holder);
    var lock := s2.tasks[newcomer].pc.lock;
    if LockFree(s2, lock) {
      var s3 := Apply(s2, Acquire(newcomer));
      assert Holds(s3.tasks[holder]) && Holds(s3.tasks[newcomer]);
      assert !Exclusive(s3, key);
      steps := [Acquire(newcomer)] + [];
      Prepend(s2, Acquire(newcomer), [], key);
    } else {
      var other :| other in s2.tasks && Holds(s2.tasks[other]) && s2.tasks[other].pc.lock == lock;
      LockHasOneKey(s2, other, newcomer);
      assert !Exclusive(s2, key);
      steps := [];
    }
    Prepend(s, begin, steps, key);
    steps := [begin] + steps;
  }

  lemma NewcomerFacts(s: State, holder: TaskId)
    requires WellFormed(s) && holder in s.tasks && Holds(s.tasks[holder])
    requires !(s.tasks[holder].key in s.locks && s.locks[s.tasks[holder].key] == s.tasks[holder].pc.lock)
    ensures var key := s.tasks[holder].key;
      var s2 := Apply(s, Begin(key, Deduct(0)));
      && WellFormed(s2)
      && holder != s.nextTask && s2.tasks[holder] == s.tasks[holder]
      && s.nextTask in s2.tasks && s2.tasks[s.nextTask].pc.Waiting? && s2.tasks[s.nextTask].key == key
      && s2.tasks[s.nextTask].pc.lock != s.tasks[holder].pc.lock
  {
    WellFormedStep(s, Begin(s.tasks[holder].key, Deduct(0)));
  }

  lemma LockHasOneKey(s: State, t: TaskId, u: TaskId)
    requires WellFormed(s) && t in s.tasks && u in s.tasks && Active(s.tasks[t]) && Active(s.tasks[u])
    requires s.tasks[t].pc.lock == s.tasks[u].pc.lock
    ensures s.tasks[t].key == s.tasks[u].key
  {
  }

  lemma {:induction false} CoherentRun(s: State, steps: seq<Step>, key: Key)
    requires WellFormed(s) && Coherent(s, key) && IsRun(s, steps) && RaceFree(s, steps, key)
    ensures WellFormed(End(s, steps)) && Coherent(End(s, steps), key)
    decreases |steps|
  {
    hide WellFormed, Coherent, Racing, Enabled, Apply;
    if steps != [] {
      WellFormedStep(s, steps[0]);
      CoherentStep(s, steps[0], key);
      CoherentRun(Apply(s, steps[0]), steps[1..], key);
    }
  }

  ghost predicate ExclusiveForever(s: State, key: Key) {
    forall steps :: IsRun(s, steps) && RaceFree(s, steps, key) ==> Exclusive(End(s, steps), key)
  }

  /** Exclusion on a key holds in all continuations race-free on it exactly of the coherent states. */
  lemma ExclusionExactly(s: State, key: Key)
    requires WellFormed(s)
    ensures ExclusiveForever(s, key) <==> Coherent(s, key)
  {
    hide WellFormed, Coherent, Exclusive, Apply, Racing, Enabled;
    if Coherent(s, key) {
      forall steps | IsRun(s, steps) && RaceFree(s, steps, key) ensures Exclusive(End(s, steps), key) {
        CoherentRun(s, steps, key);
        CoherentExclusive(End(s, steps), key);
      }
    } else {
      var steps := IncoherentBreaks(s, key);
    }
  }

  // ---------------------------------------------------------------- serializability

  /** The sequential answer to the update at position `turn` of a key's history. */
  function SequentialAnswer(start: Option<ChannelState>, h: seq<Commit>, turn: nat): Answer
    requires turn < |h|
  {
    Returned(RunUpdater(h[turn].updater, Serial(start, Updaters(h[..turn]))))
  }

  /**
    On `key`, the store holds what the committed updates produce one by one; they are in the order
    in which their tasks acquired the lock; each belongs to exactly one task and each committed
    task has exactly one; and every answer is the one of that sequential run.
   */
  ghost predicate Serialized(s: State, start: map<Key, ChannelState>, key: Key) {
    && Lookup(s.data, key) == Serial(Lookup(start, key), Updaters(HistoryOf(s, key)))
    && Ordered(s, key)
    && Owned(s, key)
    && (forall t :: t in s.tasks && s.tasks[t].key == key ==> TaskAccounted(s, start, t))
  }

  /** The history is in the order of lock acquisition. */
  ghost predicate Ordered(s: State, key: Key) {
    var h := HistoryOf(s, key);
    forall i, j :: 0 <= i < j < |h| ==> h[i].ticket < h[j].ticket
  }

  /** Every committed update belongs to a committed task whose turn it is. */
  ghost predicate Owned(s: State, key: Key) {
    var h := HistoryOf(s, key);
    forall i :: 0 <= i < |h| ==>
      var t := h[i].owner;
      t in s.tasks && s.tasks[t].key == key && Committed(s.tasks[t]) && s.tasks[t].pc.turn == i
  }

  ghost predicate TaskAccounted(s: State, start: map<Key, ChannelState>, t: TaskId)
    requires t in s.tasks
  {
    var task := s.tasks[t];
    var h := HistoryOf(s, task.key);
    match task.pc
    case Waiting(_) => true
    case Holding(_, ticket) => ticket < s.nextTicket && forall i :: 0 <= i < |h| ==> h[i].ticket < ticket
    case HasRead(_, ticket, current) =>
      && ticket < s.nextTicket && (forall i :: 0 <= i < |h| ==> h[i].ticket < ticket)
      && current == Lookup(s.data, task.key)
    case HasDeleted(_, ticket, turn) =>
      turn < |h| && h[turn] == Commit(t, ticket, task.updater)
      && SequentialAnswer(Lookup(start, task.key), h, turn) == Returned(Ok(None))
    case Finished(answer, ticket, turn) =>
      answer == StoreFailed
      || (turn < |h| && h[turn] == Commit(t, ticket, task.updater)
          && answer == SequentialAnswer(Lookup(start, task.key), h, turn))
  }

  /** Tickets in the history are behind the next one. */
  ghost predicate TicketsIssued(s: State, key: Key) {
    var h := HistoryOf(s, key);
    forall i :: 0 <= i < |h| ==> h[i].ticket < s.nextTicket
  }

  /** No two calls share a committed update. */
  lemma TurnsDiffer(s: State, start: map<Key, ChannelState>, key: Key, t: TaskId, u: TaskId)
    requires Serialized(s, start, key) && t != u
    requires t in s.tasks && s.tasks[t].key == key && Committed(s.tasks[t])
    requires u in s.tasks && s.tasks[u].key == key && Committed(s.tasks[u])
    ensures s.tasks[t].pc.turn != s.tasks[u].pc.turn
    ensures s.tasks[t].pc.turn < s.tasks[u].pc.turn <==> s.tasks[t].pc.ticket < s.tasks[u].pc.ticket
  {
    hide SequentialAnswer, Serial;
    assert TaskAccounted(s, start, t) && TaskAccounted(s, start, u);
  }

  /** Appending to a history keeps the sequential answers of earlier turns. */
  lemma AnswerStable(start: Option<ChannelState>, h: seq<Commit>, c: Commit, turn: nat)
    requires turn < |h|
    ensures SequentialAnswer(start, h + [c], turn) == SequentialAnswer(start, h, turn)
  {
    assert (h + [c])[..turn] == h[..turn];
  }

  lemma SerialAppend(start: Option<ChannelState>, h: seq<Commit>, c: Commit)
    ensures Updaters(h + [c]) == Updaters(h) + [c.updater]
    ensures Serial(start, Updaters(h + [c])) == After(c.updater, Serial(start, Updaters(h)))
    ensures SequentialAnswer(start, h + [c], |h|) == Returned(RunUpdater(c.updater, Serial(start, Updaters(h))))
  {
    assert Updaters(h + [c])[..|h|] == Updaters(h);
    assert (h + [c])[..|h|] == h;
  }

  /** What a write changes, and what it leaves. */
  lemma WriteFrame(s: State, t: TaskId)
    requires Enabled(s, Write(t))
    ensures var s', task := Apply(s, Write(t)), s.tasks[t];
      && HistoryOf(s', task.key) == HistoryOf(s, task.key) + [CommitOf(t, task)]
      && Lookup(s'.data, task.key) ==
         match RunUpdater(task.updater, task.pc.current) {
           case Ok(next) => next
           case Err(_) => Lookup(s.data, task.key) }
      && (forall k :: k != task.key ==> HistoryOf(s', k) == HistoryOf(s, k) && Lookup(s'.data, k) == Lookup(s.data, k))
      && s'.nextTicket == s.nextTicket && s'.nextTask == s.nextTask
      && s'.tasks == s.tasks[t := s'.tasks[t]]
      && s'.tasks[t].key == task.key && s'.tasks[t].updater == task.updater
      && s'.tasks[t].pc ==
         match RunUpdater(task.updater, task.pc.current) {
           case Ok(None) => HasDeleted(task.pc.lock, task.pc.ticket, |HistoryOf(s, task.key)|)
           case answer => Finished(Returned(answer), task.pc.ticket, |HistoryOf(s, task.key)|) }
  {
    hide RunUpdater;
  }

  /** A write by `t` leaves every other task accounted for. */
  lemma OthersAccounted(s: State, start: map<Key, ChannelState>, t: TaskId, s': State, u: TaskId)
    requires Enabled(s, Write(t)) && s' == Apply(s, Write(t)) && u in s'.tasks
    requires u in s.tasks && u != t && Exclusive(s, s.tasks[u].key)
    requires TaskAccounted(s, start, u)
    ensures TaskAccounted(s', start, u)
  {
    hide Serial, RunUpdater, SequentialAnswer, Updaters, Apply, HistoryOf, Lookup;
    WriteFrame(s, t);
    var other := s.tasks[u];
    if other.key == s.tasks[t].key {
      assert !Holds(other);
      if other.pc.Finished? && other.pc.answer != StoreFailed {
        AnswerStable(Lookup(start, other.key), HistoryOf(s, other.key), CommitOf(t, s.tasks[t]), other.pc.turn);
      }
    }
  }

  lemma OrderedHistory(s: State, t: TaskId)
    requires Enabled(s, Write(t))
    requires var key := s.tasks[t].key; Ordered(s, key) && TicketsIssued(s, key) && Owned(s, key)
    requires s.tasks[t].pc.ticket < s.nextTicket
    requires var h := HistoryOf(s, s.tasks[t].key); forall i :: 0 <= i < |h| ==> h[i].ticket < s.tasks[t].pc.ticket
    ensures var s', key := Apply(s, Write(t)), s.tasks[t].key;
      Ordered(s', key) && TicketsIssued(s', key) && Owned(s', key)
  {
    hide RunUpdater, Apply, HistoryOf, Lookup;
    WriteFrame(s, t);
  }

  /** The written value and the writer's own answer are the sequential ones. */
  lemma WriterAccounted(s: State, start: map<Key, ChannelState>, t: TaskId)
    requires Enabled(s, Write(t)) && TaskAccounted(s, start, t)
    requires var k := s.tasks[t].key; Lookup(s.data, k) == Serial(Lookup(start, k), Updaters(HistoryOf(s, k)))
    ensures var s', k := Apply(s, Write(t)), s.tasks[t].key;
      && t in s'.tasks && TaskAccounted(s', start, t)
      && Lookup(s'.data, k) == Serial(Lookup(start, k), Updaters(HistoryOf(s', k)))
  {
    hide Serial, RunUpdater, SequentialAnswer, Updaters, Apply, HistoryOf, Lookup;
    WriteFrame(s, t);
    var task := s.tasks[t];
    SerialAppend(Lookup(start, task.key), HistoryOf(s, task.key), CommitOf(t, task));
  }

  lemma SerializedWrite(s: State, start: map<Key, ChannelState>, t: TaskId)
    requires Enabled(s, Write(t)) && Exclusive(s, s.tasks[t].key)
    requires Serialized(s, start, s.tasks[t].key) && TicketsIssued(s, s.tasks[t].key)
    ensures var s', key := Apply(s, Write(t)), s.tasks[t].key; Serialized(s', start, key) && TicketsIssued(s', key)
  {
    hide Serial, RunUpdater, SequentialAnswer, Updaters, Exclusive, Ordered, Owned, TicketsIssued, Apply, HistoryOf,
         Lookup;
    var s', key := Apply(s, Write(t)), s.tasks[t].key;
    assert TaskAccounted(s, start, t);
    WriteFrame(s, t);
    WriterAccounted(s, start, t);
    OrderedHistory(s, t);
    forall u | u in s'.tasks && s'.tasks[u].key == key && u != t ensures TaskAccounted(s', start, u) {
      OthersAccounted(s, start, t, s', u);
    }
  }

  /** A step that commits nothing on `key` leaves all as it was but, at most, the moving task. */
  lemma SerializedMove(s: State, start: map<Key, ChannelState>, s': State, t: TaskId, key: Key)
    requires Serialized(s, start, key) && TicketsIssued(s, key)
    requires HistoryOf(s', key) == HistoryOf(s, key) && Lookup(s'.data, key) == Lookup(s.data, key)
    requires s'.nextTicket >= s.nextTicket
    requires forall u :: u in s.tasks && u != t ==> u in s'.tasks && s'.tasks[u] == s.tasks[u]
    requires forall u :: u in s'.tasks && u != t ==> u in s.tasks
    requires t in s'.tasks && (s'.tasks[t].key == key ==> TaskAccounted(s', start, t))
    requires t in s.tasks ==> s'.tasks[t].key == s.tasks[t].key
    requires t in s.tasks && Committed(s.tasks[t]) ==>
      Committed(s'.tasks[t]) && s'.tasks[t].pc.turn == s.tasks[t].pc.turn
    ensures Serialized(s', start, key) && TicketsIssued(s', key)
  {
    hide Serial, Updaters, SequentialAnswer, HistoryOf, Lookup;
    forall u | u in s'.tasks && u != t && s'.tasks[u].key == key ensures TaskAccounted(s', start, u) {
      assert TaskAccounted(s, start, u);
    }
  }

  lemma SerializedStep(s: State, start: map<Key, ChannelState>, step: Step, key: Key)
    requires WellFormed(s) && Exclusive(s, key) && Enabled(s, step)
    requires Serialized(s, start, key) && TicketsIssued(s, key)
    ensures Serialized(Apply(s, step), start, key) && TicketsIssued(Apply(s, step), key)
  {
    hide Serial, RunUpdater, Updaters, SequentialAnswer, Exclusive, Ordered, Owned, OneHolder;
    if step.Write? && s.tasks[step.t].key == key {
      SerializedWrite(s, start, step.t);
    } else {
      var s' := Apply(s, step);
      var t := if step.Begin? then s.nextTask else step.t;
      if step.Write? { WriteFrame(s, t); }
      assert t in s.tasks && s.tasks[t].key == key ==> TaskAccounted(s, start, t);
      SerializedMove(s, start, s', t, key);
    }
  }

  lemma {:induction false} SerializedRun(s: State, start: map<Key, ChannelState>, steps: seq<Step>, key: Key)
    requires WellFormed(s) && Coherent(s, key) && IsRun(s, steps) && RaceFree(s, steps, key)
    requires Serialized(s, start, key) && TicketsIssued(s, key)
    ensures Serialized(End(s, steps), start, key)
    decreases |steps|
  {
    hide WellFormed, Coherent, Racing, Enabled, Apply, Serialized, TicketsIssued, Exclusive;
    if steps != [] {
      CoherentExclusive(s, key);
      SerializedStep(s, start, steps[0], key);
      WellFormedStep(s, steps[0]);
      CoherentStep(s, steps[0], key);
      SerializedRun(Apply(s, steps[0]), start, steps[1..], key);
    }
  }

  /**
    Any number of calls in any interleaving that is race-free on `key`, whatever happens on other
    keys: exclusion on the key and serializability.
   */
  lemma EveryRunSerializable(data: map<Key, ChannelState>, steps: seq<Step>, key: Key)
    requires IsRun(Initial(data), steps) && RaceFree(Initial(data), steps, key)
    ensures Exclusive(End(Initial(data), steps), key)
    ensures Serialized(End(Initial(data), steps), data, key)
  {
    hide Racing, Enabled, Apply;
    CoherentRun(Initial(data), steps, key);
    CoherentExclusive(End(Initial(data), steps), key);
    SerializedRun(Initial(data), data, steps, key);
  }

  // ---------------------------------------------------------------- the adapter object

  /** The adapter: a backing store, the lock map and the calls in progress, all changed in place. */
  class ChannelStoreAdapter {
    var data: map<Key, ChannelState>
    var channelLocks: map<Key, LockId>
    var nextLock: LockId
    var tasks: map<TaskId, Task>
    var nextTask: TaskId
    var nextTicket: nat
    var lockKeys: map<LockId, Key>
    var history: map<Key, seq<Commit>>

    ghost function View(): State
      reads this
    {
      State(data, channelLocks, nextLock, lockKeys, tasks, nextTask, nextTicket, history)
    }

    constructor (initial: map<Key, ChannelState>)
      ensures View() == Initial(initial)
    {
      data, channelLocks, nextLock, tasks, nextTask, nextTicket := initial, map[], 0, map[], 0, 0;
      lockKeys, history := map[], map[];
    }

    /** `entry(key).or_insert_with(..)`: the key's lock, made on first use. */
    method ChannelLock(key: Key) returns (lock: LockId)
      modifies this`channelLocks, this`nextLock, this`lockKeys
      ensures key in old(channelLocks) ==>
        lock == old(channelLocks[key]) && nextLock == old(nextLock) && lockKeys == old(lockKeys)
      ensures key !in old(channelLocks) ==>
        lock == old(nextLock) && nextLock == lock + 1 && lockKeys == old(lockKeys)[lock := key]
      ensures channelLocks == old(channelLocks)[key := lock]
    {
      if key !in channelLocks {
        channelLocks := channelLocks[key := nextLock];
        lockKeys := lockKeys[nextLock := key];
        nextLock := nextLock + 1;
      }
      lock := channelLocks[key];
    }

    method BeginUpdate(key: Key, updater: Updater) returns (t: TaskId)
      modifies this
      ensures t == old(nextTask)
      ensures View() == Apply(old(View()), Begin(key, updater))
    {
      var lock := ChannelLock(key);
      t := nextTask;
      tasks := tasks[t := Task(key, updater, Waiting(lock))];
      nextTask := nextTask + 1;
    }

    method SetStage(t: TaskId, pc: Pc)
      requires t in tasks
      modifies this`tasks
      ensures tasks == old(tasks)[t := old(tasks[t]).(pc := pc)]
    {
      tasks := tasks[t := tasks[t].(pc := pc)];
    }

    method AcquireLock(t: TaskId)
      requires Enabled(View(), Acquire(t))
      modifies this
      ensures View() == Apply(old(View()), Acquire(t))
    {
      SetStage(t, Holding(tasks[t].pc.lock, nextTicket));
      nextTicket := nextTicket + 1;
    }

    method GetCurrent(t: TaskId)
      requires Enabled(View(), Get(t))
      modifies this
      ensures View() == Apply(old(View()), Get(t))
    {
      var task := tasks[t];
      SetStage(t, HasRead(task.pc.lock, task.pc.ticket, Lookup(data, task.key)));
    }

    /** Runs the updater on what was read, then puts or deletes. */
    method WriteBack(t: TaskId)
      requires Enabled(View(), Write(t))
      modifies this
      ensures View() == Apply(old(View()), Write(t))
    {
      var task := tasks[t];
      var h := if task.key in history then history[task.key] else [];
      history := history[task.key := h + [CommitOf(t, task)]];
      match RunUpdater(task.updater, task.pc.current) {
        case Err(e) =>
          SetStage(t, Finished(Returned(Err(e)), task.pc.ticket, |h|));
        case Ok(Some(c)) =>
          data := data[task.key := c];
          SetStage(t, Finished(Returned(Ok(Some(c))), task.pc.ticket, |h|));
        case Ok(None) =>
          data := data - {task.key};
          SetStage(t, HasDeleted(task.pc.lock, task.pc.ticket, |h|));
      }
    }

    method EvictLock(t: TaskId)
      requires Enabled(View(), Evict(t))
      modifies this
      ensures View() == Apply(old(View()), Evict(t))
    {
      var task := tasks[t];
      channelLocks := channelLocks - {task.key};
      SetStage(t, Finished(Returned(Ok(None)), task.pc.ticket, task.pc.turn));
    }

    /** A failed store call ends the call and leaves the store as it is. */
    method GiveUp(t: TaskId)
      requires Enabled(View(), Fail(t))
      modifies this
      ensures View() == Apply(old(View()), Fail(t))
    {
      SetStage(t, Finished(StoreFailed, tasks[t].pc.ticket, 0));
    }

    /** One call that nothing interrupts, on a key whose lock is free; the store may fail on either access. */
    method UpdateChannel(key: Key, updater: Updater, getFails: bool, writeFails: bool) returns (answer: Answer)
      requires WellFormed(View())
      requires key in channelLocks ==> LockFree(View(), channelLocks[key])
      modifies this
      ensures answer == CallAnswer(updater, Lookup(old(data), key), getFails, writeFails)
      ensures Lookup(data, key) ==
        if answer.Returned? then After(updater, Lookup(old(data), key)) else Lookup(old(data), key)
      ensures data - {key} == old(data) - {key}
      ensures key in channelLocks <==> answer != Returned(Ok(None))
      ensures channelLocks - {key} == old(channelLocks) - {key}
    {
      hide RunUpdater, WellFormed, Apply, LockFree;
      ghost var s := View();
      CallStarts(s, key, updater);
      var t := BeginUpdate(key, updater);
      AcquireLock(t);
      if getFails {
        CallFails(View(), t);
        GiveUp(t);
        return StoreFailed;
      }
      GetCurrent(t);
      ghost var s3 := View();
      if writeFails && RunUpdater(updater, tasks[t].pc.current).Ok? {
        CallFails(s3, t);
        GiveUp(t);
        return StoreFailed;
      }
      WriteBack(t);
      CallWrites(s3, t);
      ghost var s4 := View();
      if tasks[t].pc.HasDeleted? {
        EvictLock(t);
        CallEvicts(s4, t);
      }
      answer := tasks[t].pc.answer;
    }
  }

  /** An updater's refusal needs no write. */
  function CallAnswer(u: Updater, current: Option<ChannelState>, getFails: bool, writeFails: bool): Answer {
    if getFails || (writeFails && RunUpdater(u, current).Ok?) then StoreFailed else Returned(RunUpdater(u, current))
  }

  /** Begin, acquire and read: the call has read the store's value, and nothing else moved. */
  lemma CallStarts(s: State, key: Key, updater: Updater)
    requires WellFormed(s) && (key in s.locks ==> LockFree(s, s.locks[key]))
    ensures var t, s1 := s.nextTask, Apply(s, Begin(key, updater));
      && Enabled(s1, Acquire(t)) && Enabled(Apply(s1, Acquire(t)), Get(t))
    ensures var t := s.nextTask;
      var s2 := Apply(Apply(s, Begin(key, updater)), Acquire(t));
      var s3 := Apply(s2, Get(t));
      && s2.data == s.data && key in s2.locks && s2.locks - {key} == s.locks - {key}
      && Enabled(s3, Write(t)) && s3.tasks[t].key == key && s3.tasks[t].updater == updater
      && s3.tasks[t].pc.current == Lookup(s.data, key) && s3.data == s2.data && s3.locks == s2.locks
  {
    hide RunUpdater;
  }

  lemma CallFails(s: State, t: TaskId)
    requires t in s.tasks && (s.tasks[t].pc.Holding? || s.tasks[t].pc.HasRead?)
    ensures Enabled(s, Fail(t)) && Apply(s, Fail(t)).data == s.data && Apply(s, Fail(t)).locks == s.locks
  {
    hide LockFree;
  }

  lemma CallWrites(s: State, t: TaskId)
    requires Enabled(s, Write(t))
    ensures var s', task := Apply(s, Write(t)), s.tasks[t];
      var outcome := RunUpdater(task.updater, task.pc.current);
      && s'.locks == s.locks && s'.data - {task.key} == s.data - {task.key}
      && t in s'.tasks && s'.tasks[t].key == task.key
      && Lookup(s'.data, task.key) == (match outcome case Ok(next) => next case Err(_) => Lookup(s.data, task.key))
      && (if outcome == Ok(None) then Enabled(s', Evict(t))
          else s'.tasks[t].pc.Finished? && s'.tasks[t].pc.answer == Returned(outcome))
  {
    hide RunUpdater;
  }

  lemma CallEvicts(s: State, t: TaskId)
    requires Enabled(s, Evict(t))
    ensures var s' := Apply(s, Evict(t));
      && s'.data == s.data && s'.locks == s.locks - {s.tasks[t].key}
      && t in s'.tasks && s'.tasks[t].pc.Finished? && s'.tasks[t].pc.answer == Returned(Ok(None))
  {
  }
}
