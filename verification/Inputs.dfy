/**
  What a session owes its inputs. Each poll gives the session at most one input: the first that is
  due. From the inputs alone follows what must have been received, sent, delivered and started, and
  whether and why the session has ended.
 */
module Inputs {
  import opened Prelude
  import opened Session

  datatype Input =
    | FlushDue
    | Frontend(inst: Option<Rpc>)
    | PayDone(result: TaskResult)
    | VoucherDone(result: TaskResult)
    | BeatDue
    | DeadlineDue
    | Socket(read: SocketRead)
    | Nothing

  /** An input with the circumstances it meets. */
  datatype Turn = Turn(
    input: Input, now: nat, sendOk: bool, payPending: bool, voucherPending: bool, pongOwed: bool, awaiting: bool)

  /** The first input that is due; the session is open once a credential is out and no task runs. */
  function InputOf(s: State, p: Poll): Input {
    var open := s.handshakeComplete && !(s.payPending || s.voucherPending);
    match (open && |s.outbound| > 0, p.frontend, p.pay, p.voucher, p.socket)
    case (true, _, _, _, _) => FlushDue
    case (_, Some(inst), _, _, _) => Frontend(inst)
    case (_, _, pay, voucher, socket) =>
      if pay.Some? && s.payPending then PayDone(pay.value)
      else if voucher.Some? && s.voucherPending then VoucherDone(voucher.value)
      else if s.keepaliveAt <= p.now then BeatDue
      else if s.deadlineAt <= p.now && !open then DeadlineDue
      else if socket.Some? then Socket(socket.value)
      else Nothing
  }

  function TurnOf(s: State, p: Poll): Turn {
    Turn(InputOf(s, p), p.now, p.sendOk, s.payPending, s.voucherPending, s.expectingPong, s.awaitingReceipt)
  }

  /** The turns of a run, up to its end. */
  function Turns(cfg: Config, polls: seq<Poll>): seq<Turn> {
    if polls == [] then []
    else
      var front := polls[..|polls| - 1];
      var s := Run(cfg, Initial(cfg), front);
      Turns(cfg, front) + if s.end.None? then [TurnOf(s, polls[|polls| - 1])] else []
  }

  // ---------------------------------------------------------------- what a turn calls for

  /** A frame that a session accepts. */
  predicate Accepted(t: Turn, text: ServerText) {
    match text
    case ChallengeText(Some(c)) => !t.payPending && c.supported
    case DataText(Some(_), alive) => alive
    case NeedVoucherText(_) => !t.voucherPending
    case ReceiptText(Some(_)) => true
    case _ => false
  }

  predicate Usable(result: TaskResult) { result.Produced? && result.cred.formats }

  /** Only a cut connection with no credential unreceipted is worth another try. */
  function EndOfRead(t: Turn, read: SocketRead): Option<Option<Reason>> {
    var cut := Some(Some(if t.awaiting then Fatal else Transient));
    if !read.Frame? then cut
    else
      match read.message
      case Text(text) => if Accepted(t, text) then None else Some(Some(Fatal))
      case Close(code) => if code.Some? && code.value in {Restart, Again} then cut else Some(Some(Fatal))
      case Binary => Some(Some(Fatal))
      case _ => None
  }

  /** Whether the turn must end the session, and how. */
  function EndOf(t: Turn): Option<Option<Reason>> {
    var lost := if t.sendOk then None else Some(Some(Transient));
    match t.input
    case Nothing => None
    case FlushDue => lost
    case Frontend(inst) => if inst.None? then Some(None) else None
    case PayDone(result) => if Usable(result) then lost else Some(Some(Fatal))
    case VoucherDone(result) => if Usable(result) then lost else Some(Some(Fatal))
    case BeatDue => if t.pongOwed then Some(Some(Transient)) else lost
    case DeadlineDue => Some(Some(Fatal))
    case Socket(read) => EndOfRead(t, read)
  }

  /** Everything that passes through a session, in order. `beats` are the times of RPCs and pings sent. */
  datatype Traffic = Traffic(
    received: seq<Rpc>,
    flushes: nat,
    credentials: seq<(bool, string)>,
    challenges: seq<ChallengeInfo>,
    requests: seq<string>,
    spawns: seq<nat>,
    delivered: seq<string>,
    receipts: seq<string>,
    pings: nat,
    pongs: nat,
    beats: seq<nat>)

  const NONE := Traffic([], 0, [], [], [], [], [], [], 0, 0, [])

  function AddText(m: Traffic, t: Turn, text: ServerText): Traffic {
    match text
    case ChallengeText(Some(c)) =>
      if t.payPending then m
      else m.(challenges := m.challenges + [c], spawns := m.spawns + if c.supported then [t.now] else [])
    case DataText(Some(item), true) => m.(delivered := m.delivered + [item])
    case NeedVoucherText(request) =>
      if t.voucherPending then m else m.(requests := m.requests + [request], spawns := m.spawns + [t.now])
    case ReceiptText(Some(receipt)) => m.(receipts := m.receipts + [receipt])
    case _ => m
  }

  /** What a turn adds to the traffic. */
  function Add(m: Traffic, t: Turn): Traffic {
    match t.input
    case FlushDue => m.(flushes := m.flushes + 1, beats := m.beats + if t.sendOk then [t.now] else [])
    case Frontend(Some(rpc)) => m.(received := m.received + [rpc])
    case PayDone(result) =>
      if Usable(result) then m.(credentials := m.credentials + [(false, result.cred.body)]) else m
    case VoucherDone(result) =>
      if Usable(result) then m.(credentials := m.credentials + [(true, result.cred.body)]) else m
    case BeatDue => m.(pings := m.pings + 1, beats := m.beats + if t.sendOk && !t.pongOwed then [t.now] else [])
    case Socket(Frame(Pong)) => m.(pongs := m.pongs + 1)
    case Socket(Frame(Text(text))) => AddText(m, t, text)
    case _ => m
  }

  function Due(turns: seq<Turn>): Traffic {
    if turns == [] then NONE else Add(Due(turns[..|turns| - 1]), turns[|turns| - 1])
  }

  // ---------------------------------------------------------------- what the log shows

  function Show(m: Traffic, e: Event): Traffic {
    match e
    case RpcReceived(rpc) => m.(received := m.received + [rpc])
    case RpcSent(_, at) => m.(flushes := m.flushes + 1, beats := m.beats + [at])
    case RpcLost(_) => m.(flushes := m.flushes + 1)
    case ChallengeSeen(c) => m.(challenges := m.challenges + [c])
    case PaySpawned(at) => m.(spawns := m.spawns + [at])
    case VoucherSpawned(request, at) => m.(requests := m.requests + [request], spawns := m.spawns + [at])
    case CredentialSent(voucher, body) => m.(credentials := m.credentials + [(voucher, body)])
    case CredentialLost(voucher, body) => m.(credentials := m.credentials + [(voucher, body)])
    case ReceiptSeen(receipt) => m.(receipts := m.receipts + [receipt])
    case Delivered(item) => m.(delivered := m.delivered + [item])
    case PingSent(at) => m.(pings := m.pings + 1, beats := m.beats + [at])
    case PingLost => m.(pings := m.pings + 1)
    case PongMissed(_) => m.(pings := m.pings + 1)
    case PongSeen => m.(pongs := m.pongs + 1)
    case _ => m
  }

  function Shown(log: seq<Event>): Traffic {
    if log == [] then NONE else Show(Shown(log[..|log| - 1]), log[|log| - 1])
  }

  // ---------------------------------------------------------------- every input is heeded

  lemma ShownSnoc(log: seq<Event>, e: Event)
    ensures Shown(log + [e]) == Show(Shown(log), e)
  {
    hide Show;
    assert (log + [e])[..|log|] == log;
  }

  /** Events that carry no traffic. */
  predicate Quiet(e: Event) {
    e.Violation? || e.ReadEnd? || e.TimedOut? || e.FrontendGone? || e.Ended?
  }

  lemma QuietShows(m: Traffic, e: Event)
    requires Quiet(e)
    ensures Show(m, e) == m
  {
  }

  lemma FinishShows(s: State, cause: Event, reason: Option<Reason>)
    ensures Shown(Finish(s, cause, reason).log) == Show(Shown(s.log), cause)
    ensures Quiet(cause) ==> Shown(Finish(s, cause, reason).log) == Shown(s.log)
  {
    hide Shown, Show;
    ShownSnoc(s.log, cause);
    ShownSnoc(s.log + [cause], Ended(reason));
    QuietShows(Show(Shown(s.log), cause), Ended(reason));
    if Quiet(cause) { QuietShows(Shown(s.log), cause); }
  }

  /** Heeding a turn: the log gains what the turn adds, and the session ends as the turn demands. */
  predicate Heeds(s: State, t: Turn, s': State) {
    Shown(s'.log) == Add(Shown(s.log), t) && s'.end == EndOf(t)
  }

  lemma FlushHeeds(cfg: Config, s: State, p: Poll)
    requires s.end.None? && s.outbound != [] && InputOf(s, p) == FlushDue
    ensures Heeds(s, TurnOf(s, p), Flush(cfg, s, p))
  {
    hide Shown, InputOf;
    var popped := s.(outbound := s.outbound[1..], keepaliveAt := p.now + cfg.keepalive);
    ShownSnoc(s.log, RpcSent(s.outbound[0], p.now));
    FinishShows(popped, RpcLost(s.outbound[0]), Some(Transient));
  }

  lemma FrontendHeeds(s: State, p: Poll, inst: Option<Rpc>)
    requires s.end.None? && InputOf(s, p) == Frontend(inst)
    ensures Heeds(s, TurnOf(s, p), FromFrontend(s, inst))
  {
    hide Shown, InputOf;
    match inst
    case Some(rpc) => ShownSnoc(s.log, RpcReceived(rpc));
    case None => FinishShows(s, FrontendGone, None);
  }

  lemma TaskHeeds(s: State, p: Poll, result: TaskResult, voucher: bool)
    requires s.end.None? && InputOf(s, p) == if voucher then VoucherDone(result) else PayDone(result)
    ensures Heeds(s, TurnOf(s, p), TaskDone(s, result, voucher, p.sendOk))
  {
    hide Shown, InputOf;
    var joined := if voucher then s.(voucherPending := false) else s.(payPending := false);
    if !Usable(result) {
      FinishShows(joined, Violation, Some(Fatal));
    } else {
      FinishShows(joined, CredentialLost(voucher, result.cred.body), Some(Transient));
      ShownSnoc(s.log, CredentialSent(voucher, result.cred.body));
    }
  }

  lemma BeatHeeds(cfg: Config, s: State, p: Poll)
    requires s.end.None? && InputOf(s, p) == BeatDue
    ensures Heeds(s, TurnOf(s, p), Keepalive(cfg, s, p))
  {
    hide Shown, InputOf;
    if s.expectingPong {
      FinishShows(s, PongMissed(p.now), Some(Transient));
    } else if p.sendOk {
      ShownSnoc(s.log, PingSent(p.now));
    } else {
      FinishShows(s.(keepaliveAt := p.now + cfg.keepalive), PingLost, Some(Transient));
    }
  }

  lemma DeadlineHeeds(s: State, p: Poll)
    requires s.end.None? && InputOf(s, p) == DeadlineDue
    ensures Heeds(s, TurnOf(s, p), Timeout(s, p))
  {
    hide Shown, InputOf;
    FinishShows(s, TimedOut(p.now), Some(Fatal));
  }

  lemma ChallengeHeeds(cfg: Config, s: State, t: Turn, challenge: Option<ChallengeInfo>)
    requires s.end.None? && t.payPending == s.payPending
    ensures var text := ChallengeText(challenge);
      var s' := HandleText(cfg, s, text, t.now);
      Shown(s'.log) == AddText(Shown(s.log), t, text)
      && s'.end == if Accepted(t, text) then None else Some(Some(Fatal))
  {
    hide Shown;
    FinishShows(s, Violation, Some(Fatal));
    if challenge.Some? {
      var seen := ChallengeSeen(challenge.value);
      ShownSnoc(s.log, seen);
      ShownSnoc(s.log + [seen], PaySpawned(t.now));
      FinishShows(Note(s, seen), Violation, Some(Fatal));
      var m := Shown(s.log);
      assert m.spawns + [] == m.spawns;
    }
  }

  lemma TextHeeds(cfg: Config, s: State, t: Turn, text: ServerText)
    requires s.end.None? && t.payPending == s.payPending && t.voucherPending == s.voucherPending
    ensures var s' := HandleText(cfg, s, text, t.now);
      Shown(s'.log) == AddText(Shown(s.log), t, text)
      && s'.end == if Accepted(t, text) then None else Some(Some(Fatal))
  {
    hide Shown;
    match text
    case ChallengeText(challenge) => ChallengeHeeds(cfg, s, t, challenge);
    case DataText(item, _) =>
      FinishShows(s, Violation, Some(Fatal));
      if item.Some? { ShownSnoc(s.log, Delivered(item.value)); }
    case NeedVoucherText(request) =>
      FinishShows(s, Violation, Some(Fatal));
      ShownSnoc(s.log, VoucherSpawned(request, t.now));
    case ReceiptText(receipt) =>
      FinishShows(s, Violation, Some(Fatal));
      if receipt.Some? { ShownSnoc(s.log, ReceiptSeen(receipt.value)); }
    case _ => FinishShows(s, Violation, Some(Fatal));
  }

  lemma PongShows(m: Traffic)
    ensures Show(m, PongSeen) == m.(pongs := m.pongs + 1)
  {
  }

  lemma CutHeeds(s: State, t: Turn, read: SocketRead)
    requires s.end.None? && t.awaiting == s.awaitingReceipt && (read.Frame? ==> read.message.Close?)
    ensures var fatal := s.awaitingReceipt || (read.Frame? && IsFatalClose(read.message.code));
      EndOfRead(t, read) == Finish(s, ReadEnd(read), Some(if fatal then Fatal else Transient)).end
  {
  }

  lemma SocketHeeds(cfg: Config, s: State, p: Poll, read: SocketRead)
    requires s.end.None? && InputOf(s, p) == Socket(read)
    ensures Heeds(s, TurnOf(s, p), FromSocket(cfg, s, read, p.now))
  {
    hide Shown, Show, InputOf, HandleText, Accepted, AddText, IsFatalClose;
    var t := TurnOf(s, p);
    if read.Frame? && read.message.Text? {
      TextHeeds(cfg, s, t, read.message.text);
    } else if read.Frame? && read.message.Pong? {
      PongShows(Shown(s.log));
      ShownSnoc(s.log, PongSeen);
    } else if read.Frame? && read.message.Binary? {
      FinishShows(s, Violation, Some(Fatal));
    } else if !read.Frame? || read.message.Close? {
      CutHeeds(s, t, read);
      var fatal := s.awaitingReceipt || (read.Frame? && IsFatalClose(read.message.code));
      FinishShows(s, ReadEnd(read), Some(if fatal then Fatal else Transient));
    }
  }

  lemma StepHeeds(cfg: Config, s: State, p: Poll)
    requires s.end.None?
    ensures Heeds(s, TurnOf(s, p), Step(cfg, s, p))
  {
    hide Heeds, TurnOf, Flush, FromFrontend, TaskDone, Keepalive, Timeout, FromSocket;
    match InputOf(s, p)
    case FlushDue => FlushHeeds(cfg, s, p);
    case Frontend(inst) => FrontendHeeds(s, p, inst);
    case PayDone(result) => TaskHeeds(s, p, result, false);
    case VoucherDone(result) => TaskHeeds(s, p, result, true);
    case BeatDue => BeatHeeds(cfg, s, p);
    case DeadlineDue => DeadlineHeeds(s, p);
    case Socket(read) => SocketHeeds(cfg, s, p, read);
    case Nothing => NothingHeeded(s, p);
  }

  lemma NothingHeeded(s: State, p: Poll)
    requires s.end.None? && InputOf(s, p) == Nothing
    ensures Heeds(s, TurnOf(s, p), s)
  {
    hide Shown, InputOf;
  }

  /**
    In every run exactly the inputs that were due have been heeded: RPCs taken from the frontend,
    credentials, challenges, voucher requests, deliveries, receipts, pongs, pings and the times of
    all timers' starts, in order; and the session has ended exactly if its last turn demands it.
   */
  lemma {:induction false} EveryInputHeeded(cfg: Config, polls: seq<Poll>)
    ensures var s, turns := Run(cfg, Initial(cfg), polls), Turns(cfg, polls);
      && Shown(s.log) == Due(turns)
      && s.end == if turns == [] then None else EndOf(turns[|turns| - 1])
  {
    hide Step, TurnOf, Add, EndOf, Show;
    if polls != [] {
      var front := polls[..|polls| - 1];
      EveryInputHeeded(cfg, front);
      var s := Run(cfg, Initial(cfg), front);
      if s.end.None? {
        StepHeeds(cfg, s, polls[|polls| - 1]);
        DueSnoc(Turns(cfg, front), TurnOf(s, polls[|polls| - 1]));
      } else {
        assert Turns(cfg, polls) == Turns(cfg, front);
      }
    }
  }

  lemma DueSnoc(turns: seq<Turn>, t: Turn)
    ensures Due(turns + [t]) == Add(Due(turns), t)
  {
    hide Add;
    assert (turns + [t])[..|turns|] == turns;
  }

  lemma {:induction false} ShownAgrees(start: nat, log: seq<Event>)
    ensures Shown(log).received == Observe(start, log).received
    ensures Shown(log).flushes == |Observe(start, log).flushed|
  {
    hide Show, Watch;
    if log != [] {
      var front := log[..|log| - 1];
      ShownAgrees(start, front);
      ShowAgrees(Shown(front), Observe(start, front), log[|log| - 1]);
    }
  }

  lemma ShowAgrees(m: Traffic, w: Monitor, e: Event)
    requires m.received == w.received && m.flushes == |w.flushed|
    ensures Show(m, e).received == Watch(w, e).received && Show(m, e).flushes == |Watch(w, e).flushed|
  {
  }

  /** No RPC is lost or duplicated: those handed over are those flushed, in order, and those still queued. */
  lemma IntakeKept(cfg: Config, polls: seq<Poll>)
    ensures var s, due := Run(cfg, Initial(cfg), polls), Due(Turns(cfg, polls));
      var flushed := Observe(cfg.start, s.log).flushed;
      flushed + s.outbound == due.received && |flushed| == due.flushes
  {
    hide Run, Initial, Turns, Due, Observe, Shown, Safe;
    var s := Run(cfg, Initial(cfg), polls);
    EveryRun(cfg, polls);
    EveryInputHeeded(cfg, polls);
    ShownAgrees(cfg.start, s.log);
  }
}
