/**
  Metered sessions over the adapter. A session knows the channel only by what its calls are told;
  these answers are enough for its log to be metered, so all that is proved of metered logs holds
  of any number of sessions whose calls interleave step by step.
 */
module Sessions {
  import opened Prelude
  import opened Channel
  import A = Adapter
  import M = Metering

  /** Events that are updates of the channel; a charge the store failed is none. */
  predicate IsUpdate(e: M.Event) { e.Env? || e.Charged? || (e.Refused? && !e.failed) }

  function Updates(log: M.Log): seq<M.Event> {
    if log == [] then []
    else Updates(log[..|log| - 1]) + if IsUpdate(log[|log| - 1]) then [log[|log| - 1]] else []
  }

  /** The calls of one session: charges of its tick. */
  ghost predicate Charging(s: A.State, key: A.Key, cost: nat, mine: set<A.TaskId>) {
    forall t :: t in mine ==> t in s.tasks && s.tasks[t].key == key && s.tasks[t].updater == Deduct(cost)
  }

  /** `e` is how a session with calls `mine` logs the update `c`: its own by the answer it got, others' as theirs. */
  ghost predicate Logs(s: A.State, mine: set<A.TaskId>, c: A.Commit, e: M.Event) {
    if c.owner in mine then
      && c.owner in s.tasks && s.tasks[c.owner].pc.Finished? && s.tasks[c.owner].pc.answer.Returned?
      && match s.tasks[c.owner].pc.answer.outcome
         case Ok(_) => e == M.Charged
         case Err(error) => e == M.Refused(error, false)
    else e == M.Env(c.updater)
  }

  /** The log has the updates of `key` in the order they took effect. */
  ghost predicate Reports(s: A.State, key: A.Key, mine: set<A.TaskId>, log: M.Log) {
    var h, us := A.HistoryOf(s, key), Updates(log);
    |us| == |h| && forall i :: 0 <= i < |h| ==> Logs(s, mine, h[i], us[i])
  }

  /** What the answers to charges do not decide: the loop's pace, failures, and that looks see the channel. */
  predicate PacedLog(t: M.Terms, log: M.Log) {
    log == []
    || (PacedLog(t, log[..|log| - 1])
        && var m, e := M.Read(t, log[..|log| - 1]), log[|log| - 1];
           M.Paced(t, m, e) && (!IsUpdate(e) ==> M.Answered(t, m.channel, e)))
  }

  lemma UpdatesSnoc(log: M.Log, p: nat)
    requires p < |log|
    ensures Updates(log[..p + 1]) == Updates(log[..p]) + if IsUpdate(log[p]) then [log[p]] else []
  {
    assert log[..p + 1][..p] == log[..p];
  }

  lemma {:induction false} UpdatesPrefix(log: M.Log, p: nat)
    requires p <= |log|
    ensures Updates(log[..p]) <= Updates(log)
    decreases |log| - p
  {
    if p == |log| {
      assert log[..p] == log;
    } else {
      UpdatesPrefix(log, p + 1);
      UpdatesSnoc(log, p);
    }
  }

  /** The answer a call of the session got is the one of the sequential run. */
  lemma ToldSequentially(
    s: A.State, start: map<A.Key, ChannelState>, key: A.Key, t: M.Terms, mine: set<A.TaskId>, i: nat, e: M.Event)
    requires A.Serialized(s, start, key) && Charging(s, key, t.cost, mine)
    requires i < |A.HistoryOf(s, key)| && Logs(s, mine, A.HistoryOf(s, key)[i], e) && IsUpdate(e)
    ensures var ch := Serial(A.Lookup(start, key), A.Updaters(A.HistoryOf(s, key))[..i]);
      && M.Answered(t, ch, e)
      && After(A.HistoryOf(s, key)[i].updater, ch) ==
         match M.WriteOf(t, e) case Some(u) => After(u, ch) case None => ch
  {
    hide Serial, A.HistoryOf, A.Lookup, DeductOutcome;
    var h := A.HistoryOf(s, key);
    var owner := h[i].owner;
    assert A.Updaters(h)[..i] == A.Updaters(h[..i]);
    if owner in mine {
      assert A.TaskAccounted(s, start, owner);
      assert h[i].updater == Deduct(t.cost);
      M.DeductCovers(Serial(A.Lookup(start, key), A.Updaters(h[..i])), t.cost);
    }
  }

  lemma {:induction false} MeteredPrefix(
    s: A.State, start: map<A.Key, ChannelState>, key: A.Key, t: M.Terms, mine: set<A.TaskId>, log: M.Log, p: nat)
    requires A.Serialized(s, start, key) && Charging(s, key, t.cost, mine) && Reports(s, key, mine, log)
    requires t.start == A.Lookup(start, key) && PacedLog(t, log) && p <= |log|
    ensures var m := |Updates(log[..p])|;
      && m <= |A.HistoryOf(s, key)|
      && M.Read(t, log[..p]).channel == Serial(t.start, A.Updaters(A.HistoryOf(s, key))[..m])
    ensures M.Metered(t, log[..p])
    decreases p
  {
    hide A.Serialized, Charging, Logs, Serial, M.Read, M.Metered, A.HistoryOf, A.Lookup, After, M.Paced, M.Answered,
         M.WriteOf, M.Next;
    var us := A.Updaters(A.HistoryOf(s, key));
    UpdatesPrefix(log, p);
    if p == 0 {
      NothingYet(t, us);
      assert log[..0] == [];
    } else {
      MeteredPrefix(s, start, key, t, mine, log, p - 1);
      UpdatesSnoc(log, p - 1);
      PacedEarlier(t, log, p);
      var m, e := |Updates(log[..p - 1])|, log[p - 1];
      assert log[..p] == log[..p - 1] + [e];
      M.LogSnoc(t, log[..p - 1], e);
      M.ChannelNext(t, log, p - 1);
      if IsUpdate(e) {
        assert Updates(log)[m] == e;
        ToldSequentially(s, start, key, t, mine, m, e);
        SerialNext(t.start, us, m);
      } else {
        WritesNothing(t, e);
      }
    }
  }

  lemma WritesNothing(t: M.Terms, e: M.Event)
    requires !IsUpdate(e)
    ensures M.WriteOf(t, e) == None
  {
  }

  lemma NothingYet(t: M.Terms, us: seq<Updater>)
    ensures M.Read(t, []).channel == t.start == Serial(t.start, us[..0])
    ensures M.Metered(t, []) && Updates([]) == []
  {
  }

  lemma SerialNext(start: Option<ChannelState>, us: seq<Updater>, m: nat)
    requires m < |us|
    ensures Serial(start, us[..m + 1]) == After(us[m], Serial(start, us[..m]))
  {
    assert us[..m + 1][..m] == us[..m];
  }

  lemma {:induction false} PacedEarlier(t: M.Terms, log: M.Log, p: nat)
    requires PacedLog(t, log) && 0 < p <= |log|
    ensures var m, e := M.Read(t, log[..p - 1]), log[p - 1];
      M.Paced(t, m, e) && (!IsUpdate(e) ==> M.Answered(t, m.channel, e))
    decreases |log|
  {
    hide M.Paced, M.Read, M.Answered, IsUpdate;
    if p < |log| {
      PacedEarlier(t, log[..|log| - 1], p);
      assert log[..|log| - 1][..p - 1] == log[..p - 1];
    }
  }

  /**
    Any number of calls on any keys in any interleaving that is race-free on `key`: a session that
    keeps the loop's pace and logs what its calls were told has a metered log, and the log's
    channel is the one in the store.
   */
  lemma MeteredOverAdapter(
    data: map<A.Key, ChannelState>, steps: seq<A.Step>, key: A.Key, t: M.Terms, mine: set<A.TaskId>, log: M.Log)
    requires A.IsRun(A.Initial(data), steps) && A.RaceFree(A.Initial(data), steps, key)
    requires var end := A.End(A.Initial(data), steps); Charging(end, key, t.cost, mine) && Reports(end, key, mine, log)
    requires t.start == A.Lookup(data, key) && PacedLog(t, log)
    ensures M.Metered(t, log)
    ensures M.Read(t, log).channel == A.Lookup(A.End(A.Initial(data), steps).data, key)
  {
    hide A.IsRun, A.End, A.RaceFree, Charging, Logs, Serial, M.Read, M.Metered, A.HistoryOf, A.Lookup, M.Paced;
    var end := A.End(A.Initial(data), steps);
    A.EveryRunSerializable(data, steps, key);
    MeteredPrefix(end, data, key, t, mine, log, |log|);
    assert log[..|log|] == log;
    var us := A.Updaters(A.HistoryOf(end, key));
    assert us[..|us|] == us;
  }
}
