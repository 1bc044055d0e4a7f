/**
  The two metering loops over a shared channel: the SSE stream `serve` and the WebSocket
  `ws_session`. Both charge one tick before each message and wait for vouchers when a charge fails.

  The channel is shared: before every access to the store, any batch of writers by others takes
  effect, and the access itself may fail. A run is observed as a log of those writers, the loop's
  own accesses, and its frames.
 */
module Metering {
  import opened Prelude
  import opened Channel

  datatype Frame =
    | Message(data: string)
    | NeedVoucher(required: nat, accepted: nat, deposit: nat)
    | Receipt(accepted: nat, spent: nat, units: nat)

  /** A charge is made or refused, a look finds the channel or not; either may have failed in the store. */
  datatype Event =
    | Env(op: Updater)
    | Charged
    | Refused(error: UpdateError, failed: bool)
    | Looked(found: Option<ChannelState>, failed: bool)
    | Sent(frame: Frame)
    | Lost(frame: Frame)

  type Log = seq<Event>

  /** One access to the store: what others write before it, and whether it fails. */
  datatype Access = Access(ops: seq<Updater>, fails: bool)

  /** What a run is about: `sse` for the stream, which stops at a closed channel and cannot lose frames. */
  datatype Terms = Terms(sse: bool, start: Option<ChannelState>, cost: nat, items: seq<string>)

  /** What a charge is told: a store failure takes no effect. */
  function ChargeOutcome(ch: Option<ChannelState>, cost: nat, fails: bool): Outcome {
    if fails then Err(OtherError) else DeductOutcome(ch, cost)
  }

  /** What a look is told. */
  function Found(ch: Option<ChannelState>, fails: bool): Option<ChannelState> { if fails then None else ch }

  function Ask(c: ChannelState, cost: nat): Frame { NeedVoucher(c.spent + cost, c.voucher, c.deposit) }

  function ReceiptFor(c: ChannelState): Frame { Receipt(c.voucher, c.spent, c.units) }

  // ---------------------------------------------------------------- reading a log

  /** What the loop owes next. `last`: the look before the receipt. */
  datatype Stage =
    | Ready
    | MustSend
    | MustLook(last: bool)
    | MustAsk(c: ChannelState)
    | MustClose(c: ChannelState)
    | Over

  /**
    `finds` are looks after a refusal that found the channel, `failures` tells of each access
    whether it failed, `outcomes` of each frame whether it was sent.
   */
  datatype Reading = Reading(
    channel: Option<ChannelState>,
    stage: Stage,
    sent: seq<string>,
    charges: nat,
    refusals: nat,
    finds: nat,
    asks: nat,
    ops: seq<Updater>,
    failures: seq<bool>,
    outcomes: seq<bool>)

  function Next(t: Terms, m: Reading, e: Event): Reading {
    match e
    case Env(op) => m.(channel := After(op, m.channel), ops := m.ops + [op])
    case Charged =>
      m.(channel := After(Deduct(t.cost), m.channel), charges := m.charges + 1, stage := MustSend,
         failures := m.failures + [false])
    case Refused(error, failed) =>
      m.(refusals := m.refusals + 1,
         stage := MustLook(t.sse && error == ChannelClosed),
         failures := m.failures + [failed])
    case Looked(found, failed) =>
      var seen := m.(failures := m.failures + [failed]);
      if m.stage == MustLook(false) then
        if found.Some? then seen.(stage := MustAsk(found.value), finds := m.finds + 1) else seen.(stage := Ready)
      else seen.(stage := if found.Some? then MustClose(found.value) else Over)
    case Sent(frame) =>
      var out := m.(outcomes := m.outcomes + [true]);
      (match frame
       case Message(data) => out.(stage := Ready, sent := m.sent + [data])
       case NeedVoucher(_, _, _) => out.(stage := Ready, asks := m.asks + 1)
       case Receipt(_, _, _) => out.(stage := Over))
    case Lost(frame) =>
      var out := m.(outcomes := m.outcomes + [false]);
      (match frame
       case Message(_) => out.(stage := MustLook(true))
       case NeedVoucher(_, _, _) => out.(stage := Over, asks := m.asks + 1)
       case Receipt(_, _, _) => out.(stage := Over))
  }

  function Read(t: Terms, log: Log): Reading {
    if log == [] then Reading(t.start, Ready, [], 0, 0, 0, 0, [], [], [])
    else Next(t, Read(t, log[..|log| - 1]), log[|log| - 1])
  }

  predicate Covers(ch: Option<ChannelState>, cost: nat) {
    ch.Some? && !Closed(ch.value) && Available(ch.value) >= cost
  }

  /** What the store may answer to the loop. */
  predicate Answered(t: Terms, ch: Option<ChannelState>, e: Event) {
    match e
    case Charged => Covers(ch, t.cost)
    case Refused(error, failed) => Err(error) == ChargeOutcome(ch, t.cost, failed)
    case Looked(found, failed) => found == Found(ch, failed)
    case _ => true
  }

  /** What the loop may do next. Others may act at any time. */
  predicate Paced(t: Terms, m: Reading, e: Event) {
    var n := |m.sent|;
    match e
    case Env(_) => true
    case Charged => m.stage == Ready && n < |t.items|
    case Refused(_, _) => m.stage == Ready && n < |t.items|
    case Looked(_, _) => m.stage.MustLook? || (m.stage == Ready && n == |t.items|)
    case Sent(frame) => Owed(t, m, frame)
    case Lost(frame) => Owed(t, m, frame) && !t.sse
  }

  predicate Owed(t: Terms, m: Reading, frame: Frame) {
    match frame
    case Message(data) => m.stage == MustSend && |m.sent| < |t.items| && data == t.items[|m.sent|]
    case NeedVoucher(_, _, _) => m.stage.MustAsk? && frame == Ask(m.stage.c, t.cost)
    case Receipt(_, _, _) => m.stage.MustClose? && frame == ReceiptFor(m.stage.c)
  }

  predicate Allowed(t: Terms, m: Reading, e: Event) { Paced(t, m, e) && Answered(t, m.channel, e) }

  predicate Metered(t: Terms, log: Log) {
    log == [] || (Metered(t, log[..|log| - 1]) && Allowed(t, Read(t, log[..|log| - 1]), log[|log| - 1]))
  }

  lemma LogSnoc(t: Terms, log: Log, e: Event)
    ensures Metered(t, log + [e]) <==> Metered(t, log) && Allowed(t, Read(t, log), e)
    ensures Read(t, log + [e]) == Next(t, Read(t, log), e)
  {
    hide Allowed, Next;
    assert (log + [e])[..|log|] == log;
  }

  lemma EmptyLog(t: Terms)
    ensures Metered(t, []) && Read(t, []) == Reading(t.start, Ready, [], 0, 0, 0, 0, [], [], [])
  {
  }

  // ---------------------------------------------------------------- the loops

  function Ops(script: seq<Access>): seq<Updater> {
    if script == [] then [] else Ops(script[..|script| - 1]) + script[|script| - 1].ops
  }

  function Fails(script: seq<Access>): (fs: seq<bool>)
    ensures |fs| == |script| && forall i :: 0 <= i < |fs| ==> fs[i] == script[i].fails
  {
    seq(|script|, i requires 0 <= i < |script| => script[i].fails)
  }

  lemma ScriptSnoc(script: seq<Access>, k: nat)
    requires k < |script|
    ensures Ops(script[..k + 1]) == Ops(script[..k]) + script[k].ops
    ensures Fails(script[..k + 1]) == Fails(script[..k]) + [script[k].fails]
  {
    assert script[..k + 1][..k] == script[..k];
  }

  /** Drained: the generator ended. ChannelEnded: the channel was closed. CutOff: the run was not observed further. */
  datatype End = Drained | ChannelEnded | SendFailed | CutOff

  /** A log of the loop that has made exactly the first `k` accesses of the script, with the channel at `ch`. */
  ghost predicate Observed(t: Terms, script: seq<Access>, k: nat, ch: Option<ChannelState>, log: Log) {
    var m := Read(t, log);
    && k <= |script| && Metered(t, log) && m.channel == ch
    && m.ops == Ops(script[..k]) && m.failures == Fails(script[..k])
  }

  /** The next batch of `script` takes effect, before the access that goes with it. */
  method LetOthersAct(ghost t: Terms, script: seq<Access>, k: nat, ch: Option<ChannelState>, log: Log)
    returns (ch': Option<ChannelState>, log': Log)
    requires k < |script| && Metered(t, log) && Read(t, log).channel == ch
    ensures Metered(t, log') && log <= log'
    ensures Read(t, log') == Read(t, log).(channel := ch', ops := Read(t, log).ops + script[k].ops)
  {
    hide Read, Metered, After;
    ch', log' := ch, log;
    var batch := script[k].ops;
    ghost var m := Read(t, log);
    assert m.ops + batch[..0] == m.ops;
    for i := 0 to |batch|
      invariant Metered(t, log') && log <= log'
      invariant Read(t, log') == m.(channel := ch', ops := m.ops + batch[..i])
    {
      LogSnoc(t, log', Env(batch[i]));
      assert m.ops + batch[..i] + [batch[i]] == m.ops + batch[..i + 1];
      ch', log' := After(batch[i], ch'), log' + [Env(batch[i])];
    }
    assert batch[..|batch|] == batch;
  }

  /** Between two accesses: nothing but the loop's stage and its counts matters. */
  ghost predicate At(t: Terms, script: seq<Access>, k: nat, ch: Option<ChannelState>, log: Log, n: nat, stage: Stage) {
    && Observed(t, script, k, ch, log)
    && n <= |t.items| && Read(t, log).sent == t.items[..n] && Read(t, log).stage == stage
  }

  lemma AtStart(t: Terms, script: seq<Access>)
    ensures At(t, script, 0, t.start, [], 0, Ready)
  {
    EmptyLog(t);
    assert script[..0] == [] && Fails(script[..0]) == [];
  }

  /** An access: others act, then the loop's own event `e`. */
  lemma AccessKeeps(
    t: Terms, script: seq<Access>, k: nat, ch: Option<ChannelState>, log: Log, n: nat, stage: Stage,
    ch': Option<ChannelState>, log': Log, e: Event)
    requires At(t, script, k, ch, log, n, stage) && k < |script|
    requires Metered(t, log')
    requires Read(t, log') == Read(t, log).(channel := ch', ops := Read(t, log).ops + script[k].ops)
    requires e == Charged || e.Refused? || e.Looked?
    requires Allowed(t, Read(t, log'), e)
    requires script[k].fails == match e
                                case Charged => false
                                case Refused(_, failed) => failed
                                case Looked(_, failed) => failed
    ensures var after := Next(t, Read(t, log'), e);
      At(t, script, k + 1, after.channel, log' + [e], n, after.stage)
    ensures Read(t, log' + [e]).outcomes == Read(t, log).outcomes
  {
    hide Read, Metered, After, Ops, Allowed;
    ScriptSnoc(script, k);
    LogSnoc(t, log', e);
  }

  /** What a frame, sent or lost, leaves the loop to do. */
  function StageAfter(e: Event): Stage
    requires e.Sent? || e.Lost?
  {
    if e.Lost? then if e.frame.Message? then MustLook(true) else Over
    else if e.frame.Receipt? then Over else Ready
  }

  /** A frame that is owed, sent or lost. */
  lemma FrameKeeps(
    t: Terms, script: seq<Access>, k: nat, ch: Option<ChannelState>, log: Log, n: nat, stage: Stage, e: Event)
    requires At(t, script, k, ch, log, n, stage)
    requires e.Sent? || (e.Lost? && !t.sse)
    requires match e.frame
      case Message(data) => stage == MustSend && n < |t.items| && data == t.items[n]
      case NeedVoucher(_, _, _) => stage.MustAsk? && e.frame == Ask(stage.c, t.cost)
      case Receipt(_, _, _) => stage.MustClose? && e.frame == ReceiptFor(stage.c)
    ensures At(t, script, k, ch, log + [e], if e.Sent? && e.frame.Message? then n + 1 else n, StageAfter(e))
    ensures Read(t, log + [e]).outcomes == Read(t, log).outcomes + [e.Sent?]
  {
    hide Read, Metered, After, Ops;
    LogSnoc(t, log, e);
    if e.frame.Message? { assert t.items[..n + 1] == t.items[..n] + [t.items[n]]; }
  }

  /** Charges one tick; a refusal leaves a look to be made. */
  method Charge(
    ghost t: Terms, cost: nat, script: seq<Access>, k: nat, ch: Option<ChannelState>, log: Log, ghost n: nat)
    returns (ch': Option<ChannelState>, log': Log, refusal: Option<UpdateError>)
    requires k < |script| && t.cost == cost && n < |t.items| && At(t, script, k, ch, log, n, Ready)
    ensures At(t, script, k + 1, ch', log', n,
      match refusal case None => MustSend case Some(e) => MustLook(t.sse && e == ChannelClosed))
    ensures refusal == Some(ChannelClosed) ==> ClosedOnce(t, log')
    ensures Read(t, log').outcomes == Read(t, log).outcomes
  {
    hide Read, Metered, After, Ops, At, DeductOutcome;
    AtReading(t, script, k, ch, log, n, Ready);
    ghost var log0 := log;
    ch', log' := LetOthersAct(t, script, k, ch, log);
    DeductCovers(ch', cost);
    ghost var seen := log';
    match ChargeOutcome(ch', cost, script[k].fails) {
      case Ok(next) =>
        AccessKeeps(t, script, k, ch, log, n, Ready, ch', log', Charged);
        ch', log', refusal := next, log' + [Charged], None;
      case Err(e) =>
        AccessKeeps(t, script, k, ch, log, n, Ready, ch', log', Refused(e, script[k].fails));
        log', refusal := log' + [Refused(e, script[k].fails)], Some(e);
        if e == ChannelClosed { ClosedWitness(t, seen, log'); }
    }
  }

  /** Reads the channel. */
  method Look(
    ghost t: Terms, script: seq<Access>, k: nat, ch: Option<ChannelState>, log: Log, ghost n: nat, ghost stage: Stage)
    returns (ch': Option<ChannelState>, log': Log, found: Option<ChannelState>)
    requires k < |script| && At(t, script, k, ch, log, n, stage)
    requires stage.MustLook? || (stage == Ready && n == |t.items|)
    ensures found == Found(ch', script[k].fails)
    ensures At(t, script, k + 1, ch', log', n,
      if found.None? then if stage == MustLook(false) then Ready else Over
      else if stage == MustLook(false) then MustAsk(found.value) else MustClose(found.value))
    ensures log <= log' && Read(t, log').outcomes == Read(t, log).outcomes
  {
    hide Read, Metered, After, Ops, At;
    AtReading(t, script, k, ch, log, n, stage);
    ch', log' := LetOthersAct(t, script, k, ch, log);
    found := Found(ch', script[k].fails);
    AccessKeeps(t, script, k, ch, log, n, stage, ch', log', Looked(found, script[k].fails));
    log' := log' + [Looked(found, script[k].fails)];
  }

  lemma AtReading(t: Terms, script: seq<Access>, k: nat, ch: Option<ChannelState>, log: Log, n: nat, stage: Stage)
    requires At(t, script, k, ch, log, n, stage)
    ensures Observed(t, script, k, ch, log)
    ensures Metered(t, log) && Read(t, log).channel == ch && Read(t, log).stage == stage
    ensures n <= |t.items| && Read(t, log).sent == t.items[..n]
  {
    hide Read, Metered, Ops;
  }

  /** At some moment of the run the channel was closed. */
  ghost predicate ClosedOnce(t: Terms, log: Log) { exists i :: 0 <= i <= |log| && ClosedAt(t, log, i) }

  predicate ClosedAt(t: Terms, log: Log, i: nat)
    requires i <= |log|
  {
    var ch := Read(t, log[..i]).channel; ch.Some? && Closed(ch.value)
  }

  lemma ClosedWitness(t: Terms, log: Log, log': Log)
    requires log <= log' && DeductOutcome(Read(t, log).channel, t.cost) == Err(ChannelClosed)
    ensures ClosedOnce(t, log')
  {
    hide Read;
    assert log'[..|log|] == log;
    assert ClosedAt(t, log', |log|);
  }

  lemma ClosedLater(t: Terms, log: Log, log': Log)
    requires log <= log' && ClosedOnce(t, log)
    ensures ClosedOnce(t, log')
  {
    hide Read;
    var i :| 0 <= i <= |log| && ClosedAt(t, log, i);
    assert log'[..i] == log[..i];
    assert ClosedAt(t, log', i);
  }

  /** How far a loop has got when it stops, told by its end. */
  ghost predicate Stopped(t: Terms, script: seq<Access>, end: End, k: nat, log: Log) {
    var m := Read(t, log);
    match end
    case CutOff => k == |script| && (m.stage == Ready || m.stage.MustLook?)
    case Drained => m.stage == Over && m.sent == t.items
    case ChannelEnded => t.sse && m.stage == Over && |m.sent| < |t.items| && ClosedOnce(t, log)
    case SendFailed => !t.sse && m.stage == Over && |m.sent| < |t.items|
  }

  /** The SSE loop. `script[k]` is what others do before the k-th access to the store, and whether it fails. */
  method Serve(start: Option<ChannelState>, cost: nat, items: seq<string>, script: seq<Access>)
    returns (end: End, ch: Option<ChannelState>, log: Log, k: nat)
    ensures var t := Terms(true, start, cost, items);
      Observed(t, script, k, ch, log) && Stopped(t, script, end, k, log)
  {
    hide Read, Metered, After, Ops, Observed, ClosedOnce, DeductOutcome, At;
    ghost var t := Terms(true, start, cost, items);
    AtStart(t, script);
    ch, log, k := start, [], 0;
    for n := 0 to |items|
      invariant k <= |script| && At(t, script, k, ch, log, n, Ready)
    {
      var charged := false;
      while !charged
        invariant k <= |script| && At(t, script, k, ch, log, n, if charged then MustSend else Ready)
        decreases |script| - k
      {
        if k >= |script| {
          AtReading(t, script, k, ch, log, n, Ready);
          return CutOff, ch, log, k;
        }
        var refusal;
        ch, log, refusal := Charge(t, cost, script, k, ch, log, n);
        k := k + 1;
        if refusal.None? {
          charged := true;
        } else if k >= |script| {
          AtReading(t, script, k, ch, log, n, MustLook(t.sse && refusal == Some(ChannelClosed)));
          return CutOff, ch, log, k;
        } else {
          var found;
          ghost var refused := log;
          ch, log, found := Look(t, script, k, ch, log, n, MustLook(refusal == Some(ChannelClosed)));
          k := k + 1;
          if refusal == Some(ChannelClosed) {
            if found.Some? {
              FrameKeeps(t, script, k, ch, log, n, MustClose(found.value), Sent(ReceiptFor(found.value)));
              log := log + [Sent(ReceiptFor(found.value))];
            }
            ClosedLater(t, refused, log);
            AtReading(t, script, k, ch, log, n, Over);
            return ChannelEnded, ch, log, k;
          }
          if found.Some? {
            FrameKeeps(t, script, k, ch, log, n, MustAsk(found.value), Sent(Ask(found.value, cost)));
            log := log + [Sent(Ask(found.value, cost))];
          }
        }
      }
      FrameKeeps(t, script, k, ch, log, n, MustSend, Sent(Message(items[n])));
      log := log + [Sent(Message(items[n]))];
    }
    if k >= |script| {
      AtReading(t, script, k, ch, log, |items|, Ready);
      return CutOff, ch, log, k;
    }
    var found;
    ch, log, found := Look(t, script, k, ch, log, |items|, Ready);
    k := k + 1;
    if found.Some? {
      FrameKeeps(t, script, k, ch, log, |items|, MustClose(found.value), Sent(ReceiptFor(found.value)));
      log := log + [Sent(ReceiptFor(found.value))];
    }
    AtReading(t, script, k, ch, log, |items|, Over);
    assert t.items[..|items|] == t.items;
    return Drained, ch, log, k;
  }

  predicate Delivered(sends: seq<bool>, j: nat) { j < |sends| && sends[j] }

  /** A frame on the socket: whether it arrives is up to the network. */
  function OnWire(frame: Frame, ok: bool): Event { if ok then Sent(frame) else Lost(frame) }

  /** The first `j` of `sends`; what is not foreseen fails. */
  function Verdicts(sends: seq<bool>, j: nat): (vs: seq<bool>)
    ensures |vs| == j && forall i :: 0 <= i < j ==> vs[i] == Delivered(sends, i)
  {
    seq(j, i requires 0 <= i < j => Delivered(sends, i))
  }

  lemma VerdictsSnoc(sends: seq<bool>, j: nat)
    ensures Verdicts(sends, j) + [Delivered(sends, j)] == Verdicts(sends, j + 1)
    ensures Verdicts(sends, 0) == []
  {
  }

  /**
    The WebSocket loop: no special case for a closed channel, and sends can fail; `sends[j]`
    says whether the j-th send succeeds.
   */
  method WsSession(
    start: Option<ChannelState>, cost: nat, items: seq<string>, script: seq<Access>, sends: seq<bool>)
    returns (end: End, ch: Option<ChannelState>, log: Log, k: nat)
    ensures var t := Terms(false, start, cost, items);
      && Observed(t, script, k, ch, log) && Stopped(t, script, end, k, log)
      && Read(t, log).outcomes == Verdicts(sends, |Read(t, log).outcomes|)
  {
    hide Read, Metered, After, Ops, Observed, ClosedOnce, DeductOutcome, At, Verdicts, Delivered;
    VerdictsSnoc(sends, 0);
    ghost var t := Terms(false, start, cost, items);
    AtStart(t, script);
    EmptyLog(t);
    ch, log, k := start, [], 0;
    var j, broken := 0, false;
    var n := 0;
    while n < |items| && !broken
      invariant n <= |items| && k <= |script| && (broken ==> n < |items|)
      invariant At(t, script, k, ch, log, n, if broken then MustLook(true) else Ready)
      invariant Read(t, log).outcomes == Verdicts(sends, j)
      decreases |items| - n, !broken
    {
      var charged := false;
      while !charged
        invariant k <= |script| && At(t, script, k, ch, log, n, if charged then MustSend else Ready)
        invariant Read(t, log).outcomes == Verdicts(sends, j)
        decreases |script| - k
      {
        if k >= |script| {
          AtReading(t, script, k, ch, log, n, Ready);
          return CutOff, ch, log, k;
        }
        var refusal;
        ch, log, refusal := Charge(t, cost, script, k, ch, log, n);
        k := k + 1;
        if refusal.None? {
          charged := true;
        } else if k >= |script| {
          AtReading(t, script, k, ch, log, n, MustLook(t.sse && refusal == Some(ChannelClosed)));
          return CutOff, ch, log, k;
        } else {
          var found;
          ch, log, found := Look(t, script, k, ch, log, n, MustLook(false));
          k := k + 1;
          if found.Some? {
            var ok := Delivered(sends, j);
            VerdictsSnoc(sends, j);
            j := j + 1;
            FrameKeeps(t, script, k, ch, log, n, MustAsk(found.value), OnWire(Ask(found.value, cost), ok));
            log := log + [OnWire(Ask(found.value, cost), ok)];
            if !ok {
              AtReading(t, script, k, ch, log, n, Over);
              return SendFailed, ch, log, k;
            }
          }
        }
      }
      var ok := Delivered(sends, j);
      VerdictsSnoc(sends, j);
      j := j + 1;
      FrameKeeps(t, script, k, ch, log, n, MustSend, OnWire(Message(items[n]), ok));
      log := log + [OnWire(Message(items[n]), ok)];
      broken := !ok;
      if ok { n := n + 1; }
    }
    if k >= |script| {
      AtReading(t, script, k, ch, log, n, if broken then MustLook(true) else Ready);
      return CutOff, ch, log, k;
    }
    var found;
    ch, log, found := Look(t, script, k, ch, log, n, if broken then MustLook(true) else Ready);
    k := k + 1;
    if found.Some? {
      var ok := Delivered(sends, j);
      VerdictsSnoc(sends, j);
      FrameKeeps(t, script, k, ch, log, n, MustClose(found.value), OnWire(ReceiptFor(found.value), ok));
      log := log + [OnWire(ReceiptFor(found.value), ok)];
    }
    AtReading(t, script, k, ch, log, n, Over);
    assert n == |items| ==> t.items[..n] == t.items;
    return if broken then SendFailed else Drained, ch, log, k;
  }

  lemma DeductCovers(ch: Option<ChannelState>, cost: nat)
    ensures DeductOutcome(ch, cost).Ok? <==> Covers(ch, cost)
    ensures Covers(ch, cost) ==> DeductOutcome(ch, cost) == Ok(After(Deduct(cost), ch)) && ch.Some?
  {
  }

  // ---------------------------------------------------------------- what every metered log satisfies

  lemma {:induction false} MeteredEarlier(t: Terms, log: Log, i: nat)
    requires Metered(t, log) && i <= |log|
    ensures Metered(t, log[..i])
    ensures i < |log| ==>
      Allowed(t, Read(t, log[..i]), log[i]) && Read(t, log[..i + 1]) == Next(t, Read(t, log[..i]), log[i])
    decreases |log|
  {
    hide Read, Allowed, Next;
    if i == |log| {
      assert log[..i] == log;
    } else {
      assert log[..|log| - 1][..i] == log[..i];
      MeteredEarlier(t, log[..|log| - 1], i);
      assert log[..i + 1] == log[..i] + [log[i]];
      LogSnoc(t, log[..i], log[i]);
    }
  }

  /** What the stage says of the counts. */
  predicate Counts(t: Terms, m: Reading) {
    var n := |m.sent|;
    && m.sent <= t.items && n <= m.charges <= n + 1
    && (m.stage == Ready || m.stage == MustLook(false) || m.stage.MustAsk? ==> m.charges == n)
    && (m.stage == MustSend ==> m.charges == n + 1 && n < |t.items|)
    && (t.sse && m.stage != MustSend ==> m.charges == n)
    && m.finds == m.asks + (if m.stage.MustAsk? then 1 else 0)
    && |m.failures| <= m.charges + 2 * m.refusals
       + (if m.stage.MustClose? || m.stage == Over then 1 else if m.stage == MustLook(false) then -1 else 0)
  }

  lemma CountsNext(t: Terms, m: Reading, e: Event)
    requires Counts(t, m) && Allowed(t, m, e)
    ensures Counts(t, Next(t, m, e))
  {
    hide Answered, After;
    if e.Sent? && e.frame.Message? {
      assert m.sent + [t.items[|m.sent|]] == t.items[..|m.sent| + 1];
    }
  }

  /**
    At every moment: an in-order prefix of the items has been sent, each paid for, with at most one
    charge ahead; every look that found the channel after a refusal but the last has been followed
    by a need-voucher frame; and no more accesses are made than one look per refusal and a last one.
   */
  lemma {:induction false} PaidPrefix(t: Terms, log: Log, i: nat)
    requires Metered(t, log) && i <= |log|
    ensures Counts(t, Read(t, log[..i]))
    decreases i
  {
    hide Read, Allowed, Next, Counts;
    if i == 0 {
      NothingRead(t);
      assert log[..0] == [];
    } else {
      PaidPrefix(t, log, i - 1);
      MeteredEarlier(t, log, i - 1);
      CountsNext(t, Read(t, log[..i - 1]), log[i - 1]);
    }
  }

  lemma NothingRead(t: Terms)
    ensures Counts(t, Read(t, []))
  {
  }

  /** A need-voucher frame of what the look at `l` found is sent before `j`. */
  predicate AskedBy(t: Terms, log: Log, l: nat, j: nat)
    requires l < j <= |log| && log[l].Looked?
  {
    log[l].found.Some? ==>
      var c := log[l].found.value;
      exists a :: l < a < j && log[a] == Sent(NeedVoucher(c.spent + t.cost, c.voucher, c.deposit))
  }

  /** What is asked for is the least amount whose voucher lets the charge through on the channel as it was found. */
  lemma AskIsLeast(c: ChannelState, cost: nat, voucher: nat)
    requires !Closed(c) && 0 < cost && Err(Insufficient(cost, Available(c))) == DeductOutcome(Some(c), cost)
    ensures Ask(c, cost).NeedVoucher?
    ensures DeductOutcome(After(AcceptVoucher(voucher), Some(c)), cost).Ok? <==> voucher >= Ask(c, cost).required
  {
  }

  /** Between a refusal and the next charge: a look, and if it found the channel, an ask for what it found. */
  lemma AsksAfterRefusal(t: Terms, log: Log, i: nat, j: nat)
    requires Metered(t, log) && i < j < |log|
    requires log[i].Refused? && !(t.sse && log[i].error == ChannelClosed)
    requires log[j].Charged? || log[j].Refused?
    ensures exists l :: i < l < j && log[l].Looked? && AskedBy(t, log, l, j)
  {
    hide Read, Metered, Answered;
    MeteredEarlier(t, log, i);
    var l := FirstOwn(t, log, i + 1, j);
    MeteredEarlier(t, log, l);
    if log[l].found.Some? {
      var a := FirstOwn(t, log, l + 1, j);
      MeteredEarlier(t, log, a);
      if log[a].Lost? { NothingAfterOver(t, log, a + 1, j); }
    }
  }

  /** The first event from `i` on that is the loop's own meets the stage at `i`. */
  lemma {:induction false} FirstOwn(t: Terms, log: Log, i: nat, j: nat) returns (l: nat)
    requires Metered(t, log) && i <= j < |log| && !log[j].Env?
    ensures i <= l <= j && !log[l].Env? && forall k :: i <= k < l ==> log[k].Env?
    ensures Read(t, log[..l]).stage == Read(t, log[..i]).stage && Read(t, log[..l]).sent == Read(t, log[..i]).sent
    ensures Read(t, log[..l]).charges == Read(t, log[..i]).charges
    decreases j - i
  {
    hide Read, Metered, Answered, After;
    if log[i].Env? {
      MeteredEarlier(t, log, i);
      l := FirstOwn(t, log, i + 1, j);
    } else {
      l := i;
    }
  }

  /** Once over, the loop does nothing. */
  lemma {:induction false} NothingAfterOver(t: Terms, log: Log, i: nat, j: nat)
    requires Metered(t, log) && i <= j < |log| && Read(t, log[..i]).stage == Over
    ensures log[j].Env?
    ensures Read(t, log[..j]).stage == Over
    decreases j
  {
    hide Read, Metered, Answered, After;
    if i < j {
      NothingAfterOver(t, log, i, j - 1);
      MeteredEarlier(t, log, j - 1);
    }
    MeteredEarlier(t, log, j);
  }

  predicate Closing(stage: Stage) { stage == MustLook(true) || stage.MustClose? || stage == Over }

  /** On the stream, once a charge met a closed channel: one look and a receipt, and nothing else. */
  lemma {:induction false} ClosedEndsStream(t: Terms, log: Log, i: nat, j: nat)
    requires t.sse && Metered(t, log) && i < j < |log| && log[i].Refused? && log[i].error == ChannelClosed
    ensures log[j].Env? || log[j].Looked? || (log[j].Sent? && log[j].frame.Receipt?)
    ensures Closing(Read(t, log[..j]).stage)
    decreases j
  {
    hide Read, Metered, Answered, After;
    MeteredEarlier(t, log, j - 1);
    if i < j - 1 {
      ClosedEndsStream(t, log, i, j - 1);
    }
    MeteredEarlier(t, log, j);
  }

  // ---------------------------------------------------------------- within the voucher

  predicate FundedAt(t: Terms, log: Log, i: nat)
    requires i <= |log|
  {
    var ch := Read(t, log[..i]).channel; ch.Some? ==> Funded(ch.value)
  }

  /** What others write at `i` takes over no settlement beyond the voucher. */
  predicate CoveredAt(t: Terms, log: Log, i: nat)
    requires i < |log|
  {
    log[i].Env? ==>
      match Read(t, log[..i]).channel
      case Some(c) => Covered(log[i].op, c)
      case None => OpensCovered(log[i].op)
  }

  predicate OpensCovered(u: Updater) {
    match u
    case Open(_, settled, voucher) => settled <= voucher
    case Custom(_) => var next := After(u, None); next.Some? ==> Funded(next.value)
    case _ => true
  }

  /** What an event writes, if anything. */
  function WriteOf(t: Terms, e: Event): Option<Updater> {
    match e case Env(op) => Some(op) case Charged => Some(Deduct(t.cost)) case _ => None
  }

  lemma ChannelNext(t: Terms, log: Log, k: nat)
    requires k < |log|
    ensures Read(t, log[..k + 1]).channel ==
      match WriteOf(t, log[k])
      case Some(u) => After(u, Read(t, log[..k]).channel)
      case None => Read(t, log[..k]).channel
  {
    hide Read, After;
    assert log[..k + 1] == log[..k] + [log[k]];
    LogSnoc(t, log[..k], log[k]);
  }

  lemma FundedNext(t: Terms, log: Log, k: nat)
    requires k < |log| && (log[k].Env? ==> Known(log[k].op)) && FundedAt(t, log, k)
    ensures FundedAt(t, log, k + 1) <==> CoveredAt(t, log, k)
  {
    hide Known, After, Read;
    ChannelNext(t, log, k);
    var ch, u := Read(t, log[..k]).channel, WriteOf(t, log[k]);
    if u.Some? {
      if ch.Some? {
        FundedStep(u.value, ch.value);
      } else if !u.value.Custom? {
        FundedOpening(u.value);
      }
    }
  }

  /**
    Whoever writes, `spent` is within the voucher at every moment exactly if it starts so and every
    settlement taken over is within the voucher it meets: charges never overdraw.
   */
  lemma {:induction false} NeverOverdrawn(t: Terms, log: Log, n: nat)
    requires n <= |log| && forall i :: 0 <= i < |log| && log[i].Env? ==> Known(log[i].op)
    ensures (forall i :: 0 <= i <= n ==> FundedAt(t, log, i))
      <==> (t.start.Some? ==> Funded(t.start.value)) && forall i :: 0 <= i < n ==> CoveredAt(t, log, i)
    decreases n
  {
    hide Known, FundedAt, CoveredAt;
    FundedFirst(t, log);
    if n > 0 {
      NeverOverdrawn(t, log, n - 1);
      if FundedAt(t, log, n - 1) { FundedNext(t, log, n - 1); }
    }
  }

  lemma FundedFirst(t: Terms, log: Log)
    ensures FundedAt(t, log, 0) <==> (t.start.Some? ==> Funded(t.start.value))
  {
    assert log[..0] == [];
  }

  // ---------------------------------------------------------------- after closing

  /** Others open the closed channel again, or remove it, at `i`. */
  predicate ReopensAt(t: Terms, log: Log, i: nat)
    requires i < |log|
  {
    ClosedAt(t, log, i) && log[i].Env? && Reopens(log[i].op, Read(t, log[..i]).channel.value)
  }

  /** Nobody reopens the channel from `i` on. */
  predicate NoReopening(t: Terms, log: Log, i: nat) { forall j :: i <= j < |log| ==> !ReopensAt(t, log, j) }

  lemma ClosedNext(t: Terms, log: Log, k: nat)
    requires k < |log| && ClosedAt(t, log, k)
    ensures ClosedAt(t, log, k + 1) <==> !ReopensAt(t, log, k)
  {
    hide After, Reopens, Read;
    ChannelNext(t, log, k);
    var ch := Read(t, log[..k]).channel.value;
    match log[k]
    case Env(op) => ClosedStep(op, ch);
    case Charged => ClosedDeducts(ch, t.cost);
    case _ =>
  }

  lemma ClosedDeducts(c: ChannelState, amount: nat)
    requires Closed(c)
    ensures After(Deduct(amount), Some(c)) == Some(c)
  {
  }

  /** A closed channel stays closed exactly as long as nobody reopens it. */
  lemma {:induction false} StaysClosed(t: Terms, log: Log, i: nat, n: nat)
    requires i <= n <= |log| && ClosedAt(t, log, i)
    ensures (forall j :: i <= j <= n ==> ClosedAt(t, log, j)) <==> (forall j :: i <= j < n ==> !ReopensAt(t, log, j))
    decreases n
  {
    hide ClosedAt, ReopensAt;
    if i < n {
      StaysClosed(t, log, i, n - 1);
      if ClosedAt(t, log, n - 1) { ClosedNext(t, log, n - 1); }
    }
  }

  /** While nobody reopens the closed channel no charge is made, so at most the message already charged is sent. */
  lemma NothingAfterClosing(t: Terms, log: Log, i: nat)
    requires Metered(t, log) && i <= |log| && ClosedAt(t, log, i) && NoReopening(t, log, i)
    ensures Read(t, log).charges == Read(t, log[..i]).charges
    ensures |Read(t, log).sent| <= |Read(t, log[..i]).sent| + 1
  {
    hide Read, Metered, ClosedAt, ReopensAt;
    PaidPrefix(t, log, i);
    PaidPrefix(t, log, |log|);
    assert log[..|log|] == log;
    StaysClosed(t, log, i, |log|);
    NoChargeWhileClosed(t, log, i, |log|);
  }

  lemma {:induction false} NoChargeWhileClosed(t: Terms, log: Log, i: nat, n: nat)
    requires Metered(t, log) && i <= n <= |log|
    requires forall j :: i <= j <= n ==> ClosedAt(t, log, j)
    ensures Read(t, log[..n]).charges == Read(t, log[..i]).charges
    decreases n
  {
    hide After, Read, Metered;
    if i < n {
      NoChargeWhileClosed(t, log, i, n - 1);
      MeteredEarlier(t, log, n - 1);
      assert ClosedAt(t, log, n - 1);
    }
  }

  /** The loop has an item to charge for. */
  predicate ReadyToCharge(t: Terms, m: Reading) { m.stage == Ready && |m.sent| < |t.items| }

  /** What lets the next charge through: an open channel needs a voucher, a missing one must be opened. */
  function Funding(ch: Option<ChannelState>, cost: nat): Updater {
    match ch
    case None => Open(cost, 0, cost)
    case Some(c) => AcceptVoucher(c.spent + cost)
  }

  lemma FundedCharge(t: Terms, log: Log)
    requires Metered(t, log) && ReadyToCharge(t, Read(t, log))
    requires var ch := Read(t, log).channel; ch.Some? ==> !Closed(ch.value)
    ensures var fund := Env(Funding(Read(t, log).channel, t.cost));
      var ch := Read(t, log + [fund]).channel;
      && Metered(t, log + [fund] + [Charged]) && Read(t, log + [fund] + [Charged]).charges == Read(t, log).charges + 1
      && ch.Some? && !Closed(ch.value)
  {
    hide Read, Metered;
    var fund := Env(Funding(Read(t, log).channel, t.cost));
    LogSnoc(t, log, fund);
    LogSnoc(t, log + [fund], Charged);
  }

  /**
    On a closed channel, with an item to charge for, a writer is harmless in everything that can
    follow without further reopenings exactly when it does not reopen the channel itself.
   */
  lemma ClosingExactly(t: Terms, log: Log, u: Updater)
    requires Metered(t, log) && ReadyToCharge(t, Read(t, log))
    requires var ch := Read(t, log).channel; ch.Some? && Closed(ch.value)
    ensures (forall rest :: var all := log + [Env(u)] + rest;
          Metered(t, all) && NoReopening(t, all, |log| + 1) ==> Read(t, all).charges == Read(t, log).charges)
      <==> !Reopens(u, Read(t, log).channel.value)
  {
    hide Metered, Read, Reopens, After, Closed, Funding;
    assert log[..|log|] == log;
    var c, next := Read(t, log).channel.value, log + [Env(u)];
    LogSnoc(t, log, Env(u));
    ClosedStep(u, c);
    if Reopens(u, c) {
      FundedCharge(t, next);
      var fund := Env(Funding(Read(t, next).channel, t.cost));
      assert next + [fund] + [Charged] == next + ([fund] + [Charged]);
      OpenAgain(t, next, fund);
    } else {
      forall rest | Metered(t, next + rest) && NoReopening(t, next + rest, |log| + 1)
        ensures Read(t, next + rest).charges == Read(t, log).charges
      {
        assert (next + rest)[..|next|] == next;
        NothingAfterClosing(t, next + rest, |next|);
      }
    }
  }

  lemma OpenAgain(t: Terms, log: Log, fund: Event)
    requires var ch := Read(t, log).channel; ch.Some? ==> !Closed(ch.value)
    requires var ch := Read(t, log + [fund]).channel; ch.Some? && !Closed(ch.value)
    ensures NoReopening(t, log + [fund] + [Charged], |log|)
  {
    hide Read;
    var all := log + [fund] + [Charged];
    assert all[..|log|] == log && all[..|log| + 1] == log + [fund];
  }

  /**
    How it fails: a voucher call that had passed its checks before a close began writes the
    chain's older state after the close has finalized the channel. The channel is never removed,
    its flag is gone, and the next message is charged.
   */
  lemma ChargedAfterFinalizing(t: Terms, c: ChannelState, deposit: nat, settled: nat, voucher: nat)
    requires t.start == Some(c) && !Closed(c) && t.items != []
    ensures var closing := [Env(BeginClose)] + [Env(FinishClose(deposit, voucher))];
      var known, finalized := Max(settled, c.settled), Read(t, closing).channel;
      var all := closing + [Env(Refresh(deposit, settled, false))]
        + [Env(AcceptVoucher(Max(known, c.spent) + t.cost))] + [Charged];
      && finalized.Some? && finalized.value.finalized
      && closing <= all && Metered(t, all) && Read(t, closing).charges == 0 && Read(t, all).charges == 1
  {
    hide Read, Metered;
    EmptyLog(t);
    var e0, e1, e2 := Env(BeginClose), Env(FinishClose(deposit, voucher)), Env(Refresh(deposit, settled, false));
    assert [] + [e0] == [e0];
    LogSnoc(t, [], e0);
    LogSnoc(t, [e0], e1);
    var closing := [e0] + [e1];
    LogSnoc(t, closing, e2);
    FundedCharge(t, closing + [e2]);
  }

  // ---------------------------------------------------------------- the books

  /** The amounts other spenders got through. */
  function OthersPaid(t: Terms, log: Log): seq<nat> {
    if log == [] then []
    else
      var front, e := log[..|log| - 1], log[|log| - 1];
      OthersPaid(t, front) + if e.Env? then Pays(e.op, Read(t, front).channel) else []
  }

  /** What others' settlements added to `spent`. */
  function SettledBeyond(t: Terms, log: Log): nat {
    if log == [] then 0
    else
      var front, e := log[..|log| - 1], log[|log| - 1];
      var ch := Read(t, front).channel;
      SettledBeyond(t, front) + if e.Env? && ch.Some? then Raise(e.op, ch.value) else 0
  }

  /** Others use the library's writers or neutral functions, and nobody removes the channel. */
  ghost predicate Lawful(log: Log) {
    forall i :: 0 <= i < |log| && log[i].Env? ==> Known(log[i].op) && !Removes(log[i].op)
  }

  /** Conservation: every unit and every amount is one of ours, one of theirs, or settled on the chain. */
  lemma {:induction false} Accounting(t: Terms, c: ChannelState, log: Log)
    requires t.start == Some(c) && Metered(t, log) && Lawful(log)
    ensures var m, others := Read(t, log), OthersPaid(t, log);
      && m.channel.Some?
      && m.channel.value.spent == c.spent + t.cost * m.charges + Sum(others) + SettledBeyond(t, log)
      && m.channel.value.units == c.units + m.charges + |others|
  {
    hide Sum, After, Pays, Raise, Known, Removes, Covers, Read, Metered;
    SumNone();
    if log == [] {
      EmptyLog(t);
    } else {
      var front, e := log[..|log| - 1], log[|log| - 1];
      MeteredEarlier(t, log, |front|);
      assert log[..|front| + 1] == log;
      Accounting(t, c, front);
      var m, others := Read(t, front), OthersPaid(t, front);
      assert others + [] == others;
      if e.Env? {
        OneWriter(e.op, m.channel.value);
        SumMorePays(others, e.op, m.channel);
      } else if e.Charged? {
        ChargeBooks(m.channel.value, t.cost);
        assert t.cost * (m.charges + 1) == t.cost * m.charges + t.cost;
      }
    }
  }

  lemma ChargeBooks(c: ChannelState, cost: nat)
    requires Covers(Some(c), cost)
    ensures After(Deduct(cost), Some(c)) == Some(c.(spent := c.spent + cost, units := c.units + 1))
  {
    DeductOne(c, cost);
  }

  /** Others settle, at `i`, more than has been spent here. */
  predicate OutrunsAt(t: Terms, log: Log, i: nat)
    requires i < |log|
  {
    var ch := Read(t, log[..i]).channel;
    log[i].Env? && Settles(log[i].op) && ch.Some? && Max(log[i].op.settled, ch.value.settled) > ch.value.spent
  }

  lemma {:induction false} SettledBeyondMeaning(t: Terms, log: Log)
    ensures SettledBeyond(t, log) == 0 <==> forall i :: 0 <= i < |log| ==> !OutrunsAt(t, log, i)
  {
    hide Read;
    if log != [] {
      var k := |log| - 1;
      SettledBeyondMeaning(t, log[..k]);
      forall i | 0 <= i < k ensures OutrunsAt(t, log, i) <==> OutrunsAt(t, log[..k], i) {
        assert log[..k][..i] == log[..i];
      }
      assert SettledBeyond(t, log) == 0 <==> SettledBeyond(t, log[..k]) == 0 && !OutrunsAt(t, log, k);
    }
  }

  predicate NoOtherSpender(log: Log) { forall i :: 0 <= i < |log| ==> !(log[i].Env? && log[i].op.Deduct?) }

  lemma {:induction false} NobodyElsePaid(t: Terms, log: Log)
    requires NoOtherSpender(log)
    ensures OthersPaid(t, log) == []
  {
    hide Read;
    if log != [] {
      NobodyElsePaid(t, log[..|log| - 1]);
    }
  }

  /** The look a loop's last frame is about, with nothing of its own in between. */
  lemma {:induction false} LastLook(t: Terms, log: Log, n: nat) returns (i: nat)
    requires Metered(t, log) && n <= |log| && Read(t, log[..n]).stage.MustClose?
    ensures i < n && log[i] == Looked(Some(Read(t, log[..n]).stage.c), false)
    ensures forall j :: i < j < n ==> log[j].Env?
    ensures Read(t, log[..i]).channel == Some(Read(t, log[..n]).stage.c)
    ensures Read(t, log[..i]).charges == Read(t, log[..n]).charges && Read(t, log[..i]).sent == Read(t, log[..n]).sent
    decreases n
  {
    hide Read, Metered, After;
    EmptyLog(t);
    assert log[..0] == [];
    MeteredEarlier(t, log, n - 1);
    if log[n - 1].Env? {
      i := LastLook(t, log, n - 1);
    } else {
      i := n - 1;
    }
  }

  /**
    With no other spender, the receipt that ends an SSE stream states, of the channel the loop last
    looked at, the voucher, the delivered messages and what the chain settled beyond them; so the
    messages alone exactly if no settlement outran them.
   */
  lemma FinalReceipt(t: Terms, c: ChannelState, log: Log, r: Frame) returns (i: nat)
    requires t.sse && t.start == Some(c) && Metered(t, log) && Lawful(log) && NoOtherSpender(log)
    requires log != [] && log[|log| - 1] == Sent(r) && r.Receipt?
    ensures i < |log| - 1 && log[i].Looked? && forall j :: i < j < |log| - 1 ==> log[j].Env?
    ensures var ch := Read(t, log[..i]).channel; ch.Some? && r.accepted == ch.value.voucher
    ensures r.spent == c.spent + t.cost * |Read(t, log).sent| + SettledBeyond(t, log[..i])
    ensures r.units == c.units + |Read(t, log).sent|
    ensures r.spent == c.spent + t.cost * |Read(t, log).sent|
      <==> forall j :: 0 <= j < i ==> !OutrunsAt(t, log[..i], j)
  {
    hide Read, Metered, After, Sum, Covers, Known, Removes, OutrunsAt;
    SumNone();
    var n := |log| - 1;
    MeteredEarlier(t, log, n);
    assert log[..n + 1] == log;
    i := LastLook(t, log, n);
    MeteredEarlier(t, log, i);
    PaidPrefix(t, log, n);
    Accounting(t, c, log[..i]);
    NobodyElsePaid(t, log[..i]);
    SettledBeyondMeaning(t, log[..i]);
  }
}
