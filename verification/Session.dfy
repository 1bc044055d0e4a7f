/**
  The MPP WebSocket translator: one session of its biased select loop, as pure steps.

  An iteration is given a `Poll`: the time, and for every arm whether its future is ready and with
  what result. The first enabled ready arm runs. A session logs everything it does and observes.
 */
module Session {
  import opened Prelude

  type Rpc = string

  datatype Reason = Transient | Fatal

  /** `formats`: whether the credential can be rendered as an authorization header. */
  datatype Credential = Credential(body: string, formats: bool)

  datatype TaskResult = Produced(cred: Credential) | ProviderError | Panicked

  datatype CloseCode = Restart | Again | OtherCode(code: nat)

  datatype ChallengeInfo = ChallengeInfo(id: string, supported: bool)

  /** A text frame after deserialisation; `None` where the payload does not deserialise. */
  datatype ServerText =
    | MalformedText
    | ChallengeText(challenge: Option<ChallengeInfo>)
    | DataText(item: Option<string>, frontendAlive: bool)
    | NeedVoucherText(request: string)
    | ReceiptText(receipt: Option<string>)
    | ErrorText(error: string)

  datatype Message =
    | Text(text: ServerText)
    | Close(code: Option<CloseCode>)
    | Binary
    | Ping
    | Pong
    | RawFrame

  datatype SocketRead = Frame(message: Message) | ReadError | Eof

  datatype Poll = Poll(
    now: nat,
    frontend: Option<Option<Rpc>>,
    pay: Option<TaskResult>,
    voucher: Option<TaskResult>,
    socket: Option<SocketRead>,
    sendOk: bool)

  datatype Event =
    | RpcReceived(rpc: Rpc)
    | FrontendGone
    | RpcSent(rpc: Rpc, at: nat)
    | RpcLost(rpc: Rpc)
    | ChallengeSeen(challenge: ChallengeInfo)
    | PaySpawned(at: nat)
    | VoucherSpawned(request: string, at: nat)
    | CredentialSent(voucher: bool, body: string)
    | CredentialLost(voucher: bool, body: string)
    | ReceiptSeen(receipt: string)
    | Delivered(item: string)
    | PingSent(at: nat)
    | PingLost
    | PongMissed(at: nat)
    | PongSeen
    | ReadEnd(read: SocketRead)
    | TimedOut(at: nat)
    | Violation
    | Ended(reason: Option<Reason>)

  datatype Config = Config(start: nat, keepalive: nat, handshake: nat)

  /** `end` is None while the loop runs; Some(None) is a shutdown by the frontend. */
  datatype State = State(
    end: Option<Option<Reason>>,
    expectingPong: bool,
    handshakeComplete: bool,
    awaitingReceipt: bool,
    keepaliveAt: nat,
    deadlineAt: nat,
    payPending: bool,
    voucherPending: bool,
    outbound: seq<Rpc>,
    receipt: Option<string>,
    log: seq<Event>)

  function Initial(cfg: Config): State {
    State(None, false, false, false, cfg.start + cfg.keepalive, cfg.start + cfg.handshake, false, false, [], None, [])
  }

  predicate FrontendOpen(s: State) { s.handshakeComplete && !s.payPending && !s.voucherPending }

  predicate CanFlush(s: State) { FrontendOpen(s) && s.outbound != [] }

  predicate IsFatalClose(code: Option<CloseCode>) { !(code == Some(Restart) || code == Some(Again)) }

  function Note(s: State, e: Event): State { s.(log := s.log + [e]) }

  /** Leaving the loop aborts whatever task is still running. */
  function Finish(s: State, cause: Event, reason: Option<Reason>): State {
    s.(end := Some(reason), payPending := false, voucherPending := false, log := s.log + [cause] + [Ended(reason)])
  }

  // ---------------------------------------------------------------- the arms

  function Flush(cfg: Config, s: State, p: Poll): State
    requires s.outbound != []
  {
    var popped := s.(outbound := s.outbound[1..], keepaliveAt := p.now + cfg.keepalive);
    if p.sendOk then Note(popped, RpcSent(s.outbound[0], p.now))
    else Finish(popped, RpcLost(s.outbound[0]), Some(Transient))
  }

  function FromFrontend(s: State, inst: Option<Rpc>): State {
    match inst
    case Some(rpc) => Note(s.(outbound := s.outbound + [rpc]), RpcReceived(rpc))
    case None => Finish(s, FrontendGone, None)
  }

  function TaskDone(s: State, result: TaskResult, voucher: bool, sendOk: bool): State {
    var joined := if voucher then s.(voucherPending := false) else s.(payPending := false);
    if !result.Produced? || !result.cred.formats then Finish(joined, Violation, Some(Fatal))
    else if !sendOk then Finish(joined, CredentialLost(voucher, result.cred.body), Some(Transient))
    else Note(joined, CredentialSent(voucher, result.cred.body)).(handshakeComplete := true, awaitingReceipt := true)
  }

  function Keepalive(cfg: Config, s: State, p: Poll): State {
    if s.expectingPong then Finish(s, PongMissed(p.now), Some(Transient))
    else
      var reset := s.(keepaliveAt := p.now + cfg.keepalive);
      if p.sendOk then Note(reset, PingSent(p.now)).(expectingPong := true)
      else Finish(reset, PingLost, Some(Transient))
  }

  function Timeout(s: State, p: Poll): State { Finish(s, TimedOut(p.now), Some(Fatal)) }

  function HandleText(cfg: Config, s: State, text: ServerText, now: nat): State {
    match text
    case MalformedText => Finish(s, Violation, Some(Fatal))
    case ChallengeText(challenge) =>
      if s.payPending || challenge.None? then Finish(s, Violation, Some(Fatal))
      else
        var seen := Note(s, ChallengeSeen(challenge.value));
        if !challenge.value.supported then Finish(seen, Violation, Some(Fatal))
        else Note(seen, PaySpawned(now)).(payPending := true, deadlineAt := now + cfg.handshake)
    case DataText(item, frontendAlive) =>
      if item.None? || !frontendAlive then Finish(s, Violation, Some(Fatal)) else Note(s, Delivered(item.value))
    case NeedVoucherText(request) =>
      if s.voucherPending then Finish(s, Violation, Some(Fatal))
      else Note(s, VoucherSpawned(request, now)).(voucherPending := true, deadlineAt := now + cfg.handshake)
    case ReceiptText(receipt) =>
      if receipt.None? then Finish(s, Violation, Some(Fatal))
      else Note(s, ReceiptSeen(receipt.value)).(awaitingReceipt := false, receipt := receipt)
    case ErrorText(_) => Finish(s, Violation, Some(Fatal))
  }

  function FromSocket(cfg: Config, s: State, read: SocketRead, now: nat): State {
    match read
    case Frame(Text(text)) => HandleText(cfg, s, text, now)
    case Frame(Close(code)) =>
      Finish(s, ReadEnd(read), Some(if s.awaitingReceipt || IsFatalClose(code) then Fatal else Transient))
    case Frame(Binary) => Finish(s, Violation, Some(Fatal))
    case Frame(Pong) => Note(s, PongSeen).(expectingPong := false)
    case Frame(_) => s
    case _ => Finish(s, ReadEnd(read), Some(if s.awaitingReceipt then Fatal else Transient))
  }

  /** One iteration: the first arm that is enabled and ready. */
  function Step(cfg: Config, s: State, p: Poll): State {
    if CanFlush(s) then Flush(cfg, s, p)
    else if p.frontend.Some? then FromFrontend(s, p.frontend.value)
    else if s.payPending && p.pay.Some? then TaskDone(s, p.pay.value, false, p.sendOk)
    else if s.voucherPending && p.voucher.Some? then TaskDone(s, p.voucher.value, true, p.sendOk)
    else if p.now >= s.keepaliveAt then Keepalive(cfg, s, p)
    else if !FrontendOpen(s) && p.now >= s.deadlineAt then Timeout(s, p)
    else if p.socket.Some? then FromSocket(cfg, s, p.socket.value, p.now)
    else s
  }

  function Run(cfg: Config, s: State, polls: seq<Poll>): State {
    if polls == [] then s
    else
      var before := Run(cfg, s, polls[..|polls| - 1]);
      if before.end.Some? then before else Step(cfg, before, polls[|polls| - 1])
  }

  // ---------------------------------------------------------------- reading a log

  /** What an outside observer of the log can count and remember. */
  datatype Monitor = Monitor(
    received: seq<Rpc>,
    flushed: seq<Rpc>,
    challenges: nat,
    paySpawns: nat,
    payCreds: nat,
    voucherSpawns: nat,
    voucherCreds: nat,
    awaiting: bool,
    lastReceipt: Option<string>,
    pongOwed: bool,
    lastSpawn: nat,
    lastBeat: nat,
    last: Option<Event>)

  function Watch(m: Monitor, e: Event): Monitor {
    var m := m.(last := Some(e));
    match e
    case RpcReceived(rpc) => m.(received := m.received + [rpc])
    case RpcSent(rpc, at) => m.(flushed := m.flushed + [rpc], lastBeat := at)
    case RpcLost(rpc) => m.(flushed := m.flushed + [rpc])
    case ChallengeSeen(_) => m.(challenges := m.challenges + 1)
    case PaySpawned(at) => m.(paySpawns := m.paySpawns + 1, lastSpawn := at)
    case VoucherSpawned(_, at) => m.(voucherSpawns := m.voucherSpawns + 1, lastSpawn := at)
    case CredentialSent(voucher, _) =>
      if voucher then m.(voucherCreds := m.voucherCreds + 1, awaiting := true)
      else m.(payCreds := m.payCreds + 1, awaiting := true)
    case ReceiptSeen(receipt) => m.(awaiting := false, lastReceipt := Some(receipt))
    case PingSent(at) => m.(pongOwed := true, lastBeat := at)
    case PongSeen => m.(pongOwed := false)
    case _ => m
  }

  function Observe(start: nat, log: seq<Event>): Monitor {
    if log == [] then Monitor([], [], 0, 0, 0, 0, 0, false, None, false, start, start, None)
    else Watch(Observe(start, log[..|log| - 1]), log[|log| - 1])
  }

  /** A credential has been sent and every spawned task has delivered its own. */
  predicate Open(m: Monitor) {
    m.payCreds + m.voucherCreds > 0 && m.paySpawns == m.payCreds && m.voucherSpawns == m.voucherCreds
  }

  /** How a session must end, told by the event before its end. */
  function EndFor(m: Monitor): Option<Option<Reason>> {
    match m.last
    case Some(FrontendGone) => Some(None)
    case Some(RpcLost(_)) => Some(Some(Transient))
    case Some(CredentialLost(_, _)) => Some(Some(Transient))
    case Some(PingLost) => Some(Some(Transient))
    case Some(PongMissed(_)) => Some(Some(Transient))
    case Some(TimedOut(_)) => Some(Some(Fatal))
    case Some(Violation) => Some(Some(Fatal))
    case Some(ReadEnd(read)) =>
      var fatal := m.awaiting || (read.Frame? && read.message.Close? && IsFatalClose(read.message.code));
      Some(Some(if fatal then Fatal else Transient))
    case _ => None
  }

  /** The safety of the protocol, event by event. */
  predicate Legal(cfg: Config, m: Monitor, e: Event) {
    && !(m.last.Some? && m.last.value.Ended?)
    && (EndFor(m).Some? ==> e.Ended?)
    && match e
       case RpcSent(rpc, _) => Open(m) && m.flushed + [rpc] <= m.received
       case RpcLost(rpc) => Open(m) && m.flushed + [rpc] <= m.received
       case ChallengeSeen(_) => m.paySpawns == m.payCreds && m.challenges == m.paySpawns
       case PaySpawned(_) => m.paySpawns == m.payCreds && m.challenges == m.paySpawns + 1
       case VoucherSpawned(_, _) => m.voucherSpawns == m.voucherCreds
       case CredentialSent(voucher, _) =>
         if voucher then m.voucherSpawns == m.voucherCreds + 1 else m.paySpawns == m.payCreds + 1
       case PingSent(at) => !m.pongOwed && at >= m.lastBeat + cfg.keepalive
       case PongMissed(at) => m.pongOwed && at >= m.lastBeat + cfg.keepalive
       case TimedOut(at) => !Open(m) && at >= m.lastSpawn + cfg.handshake
       case Ended(reason) => EndFor(m) == Some(reason)
       case _ => true
  }

  predicate Safe(cfg: Config, log: seq<Event>) {
    log == []
    || (Safe(cfg, log[..|log| - 1]) && Legal(cfg, Observe(cfg.start, log[..|log| - 1]), log[|log| - 1]))
  }

  function Count(b: bool): nat { if b then 1 else 0 }

  /** The loop's variables say exactly what the log says. */
  predicate Agrees(cfg: Config, s: State) {
    var m := Observe(cfg.start, s.log);
    && m.received == m.flushed + s.outbound
    && s.receipt == m.lastReceipt
    && (match s.end
        case Some(reason) => m.last == Some(Ended(reason))
        case None =>
          && EndFor(m).None? && !(m.last.Some? && m.last.value.Ended?)
          && m.challenges == m.paySpawns
          && m.paySpawns == m.payCreds + Count(s.payPending)
          && m.voucherSpawns == m.voucherCreds + Count(s.voucherPending)
          && (s.handshakeComplete <==> m.payCreds + m.voucherCreds > 0)
          && (s.awaitingReceipt <==> m.awaiting)
          && (s.expectingPong <==> m.pongOwed)
          && s.deadlineAt == m.lastSpawn + cfg.handshake
          && s.keepaliveAt == m.lastBeat + cfg.keepalive)
  }

  predicate Inv(cfg: Config, s: State) { Agrees(cfg, s) && Safe(cfg, s.log) }

  // ---------------------------------------------------------------- every step keeps the invariant

  lemma NothingObserved(start: nat)
    ensures Observe(start, []) == Monitor([], [], 0, 0, 0, 0, 0, false, None, false, start, start, None)
  {
  }

  lemma Snoc(cfg: Config, log: seq<Event>, e: Event)
    ensures Observe(cfg.start, log + [e]) == Watch(Observe(cfg.start, log), e)
    ensures Safe(cfg, log + [e]) <==> Safe(cfg, log) && Legal(cfg, Observe(cfg.start, log), e)
  {
    hide Legal, Watch;
    assert (log + [e])[..|log|] == log;
  }

  lemma FinishKeeps(cfg: Config, s: State, cause: Event, reason: Option<Reason>)
    requires Safe(cfg, s.log) && Legal(cfg, Observe(cfg.start, s.log), cause)
    requires var m := Watch(Observe(cfg.start, s.log), cause);
      m.received == m.flushed + s.outbound && s.receipt == m.lastReceipt && EndFor(m) == Some(reason)
    ensures Inv(cfg, Finish(s, cause, reason))
  {
    hide Observe, Safe;
    Snoc(cfg, s.log, cause);
    Snoc(cfg, s.log + [cause], Ended(reason));
  }

  lemma FlushKeeps(cfg: Config, s: State, p: Poll)
    requires Inv(cfg, s) && s.end.None? && CanFlush(s)
    ensures Inv(cfg, Flush(cfg, s, p))
  {
    hide Observe, Safe;
    var rpc := s.outbound[0];
    var m := Observe(cfg.start, s.log);
    assert m.flushed + s.outbound == m.flushed + [rpc] + s.outbound[1..];
    assert m.received[..|m.flushed| + 1] == m.flushed + [rpc];
    if p.sendOk {
      Snoc(cfg, s.log, RpcSent(rpc, p.now));
    } else {
      var popped := s.(outbound := s.outbound[1..], keepaliveAt := p.now + cfg.keepalive);
      FinishKeeps(cfg, popped, RpcLost(rpc), Some(Transient));
    }
  }

  lemma FromFrontendKeeps(cfg: Config, s: State, inst: Option<Rpc>)
    requires Inv(cfg, s) && s.end.None?
    ensures Inv(cfg, FromFrontend(s, inst))
  {
    hide Observe, Safe;
    match inst
    case Some(rpc) =>
      Snoc(cfg, s.log, RpcReceived(rpc));
      var m := Observe(cfg.start, s.log);
      assert m.flushed + s.outbound + [rpc] == m.flushed + (s.outbound + [rpc]);
    case None => FinishKeeps(cfg, s, FrontendGone, None);
  }

  lemma CredentialKeeps(cfg: Config, s: State, voucher: bool, body: string)
    requires Inv(cfg, s) && s.end.None? && (if voucher then s.voucherPending else s.payPending)
    ensures var joined := if voucher then s.(voucherPending := false) else s.(payPending := false);
      Inv(cfg, Note(joined, CredentialSent(voucher, body)).(handshakeComplete := true, awaitingReceipt := true))
  {
    hide Observe, Safe, Open;
    Snoc(cfg, s.log, CredentialSent(voucher, body));
  }

  lemma TaskDoneKeeps(cfg: Config, s: State, result: TaskResult, voucher: bool, sendOk: bool)
    requires Inv(cfg, s) && s.end.None? && (if voucher then s.voucherPending else s.payPending)
    ensures Inv(cfg, TaskDone(s, result, voucher, sendOk))
  {
    hide Observe, Safe, Open;
    var joined := if voucher then s.(voucherPending := false) else s.(payPending := false);
    if !result.Produced? || !result.cred.formats {
      FinishKeeps(cfg, joined, Violation, Some(Fatal));
    } else if !sendOk {
      FinishKeeps(cfg, joined, CredentialLost(voucher, result.cred.body), Some(Transient));
    } else {
      CredentialKeeps(cfg, s, voucher, result.cred.body);
    }
  }

  lemma KeepaliveKeeps(cfg: Config, s: State, p: Poll)
    requires Inv(cfg, s) && s.end.None? && p.now >= s.keepaliveAt
    ensures Inv(cfg, Keepalive(cfg, s, p))
  {
    hide Observe, Safe;
    if s.expectingPong {
      FinishKeeps(cfg, s, PongMissed(p.now), Some(Transient));
    } else if p.sendOk {
      Snoc(cfg, s.log, PingSent(p.now));
    } else {
      FinishKeeps(cfg, s.(keepaliveAt := p.now + cfg.keepalive), PingLost, Some(Transient));
    }
  }

  lemma TimeoutKeeps(cfg: Config, s: State, p: Poll)
    requires Inv(cfg, s) && s.end.None? && !FrontendOpen(s) && p.now >= s.deadlineAt
    ensures Inv(cfg, Timeout(s, p))
  {
    hide Observe, Safe;
    FinishKeeps(cfg, s, TimedOut(p.now), Some(Fatal));
  }

  lemma ChallengeKeeps(cfg: Config, s: State, challenge: ChallengeInfo, now: nat)
    requires Inv(cfg, s) && s.end.None? && !s.payPending
    ensures Inv(cfg, HandleText(cfg, s, ChallengeText(Some(challenge)), now))
  {
    hide Observe, Safe;
    var seen := ChallengeSeen(challenge);
    Snoc(cfg, s.log, seen);
    if challenge.supported {
      Snoc(cfg, s.log + [seen], PaySpawned(now));
    } else {
      FinishKeeps(cfg, Note(s, seen), Violation, Some(Fatal));
    }
  }

  lemma VoucherKeeps(cfg: Config, s: State, request: string, now: nat)
    requires Inv(cfg, s) && s.end.None? && !s.voucherPending
    ensures Inv(cfg, HandleText(cfg, s, NeedVoucherText(request), now))
  {
    hide Observe, Safe;
    Snoc(cfg, s.log, VoucherSpawned(request, now));
  }

  lemma DeliveredKeeps(cfg: Config, s: State, item: string)
    requires Inv(cfg, s) && s.end.None?
    ensures Inv(cfg, Note(s, Delivered(item)))
  {
    hide Observe, Safe;
    Snoc(cfg, s.log, Delivered(item));
  }

  lemma ReceiptKeeps(cfg: Config, s: State, receipt: string)
    requires Inv(cfg, s) && s.end.None?
    ensures Inv(cfg, Note(s, ReceiptSeen(receipt)).(awaitingReceipt := false, receipt := Some(receipt)))
  {
    hide Observe, Safe;
    Snoc(cfg, s.log, ReceiptSeen(receipt));
  }

  lemma HandleTextKeeps(cfg: Config, s: State, text: ServerText, now: nat)
    requires Inv(cfg, s) && s.end.None?
    ensures Inv(cfg, HandleText(cfg, s, text, now))
  {
    hide Inv;
    match text
    case ChallengeText(Some(challenge)) =>
      if s.payPending { ViolationKeeps(cfg, s); } else { ChallengeKeeps(cfg, s, challenge, now); }
    case NeedVoucherText(request) =>
      if s.voucherPending { ViolationKeeps(cfg, s); } else { VoucherKeeps(cfg, s, request, now); }
    case DataText(Some(item), true) => DeliveredKeeps(cfg, s, item);
    case ReceiptText(Some(receipt)) => ReceiptKeeps(cfg, s, receipt);
    case _ => ViolationKeeps(cfg, s);
  }

  lemma ViolationKeeps(cfg: Config, s: State)
    requires Inv(cfg, s) && s.end.None?
    ensures Inv(cfg, Finish(s, Violation, Some(Fatal)))
  {
    hide Observe, Safe;
    FinishKeeps(cfg, s, Violation, Some(Fatal));
  }

  lemma FromSocketKeeps(cfg: Config, s: State, read: SocketRead, now: nat)
    requires Inv(cfg, s) && s.end.None?
    ensures Inv(cfg, FromSocket(cfg, s, read, now))
  {
    hide Observe, Safe, HandleText;
    match read
    case Frame(Text(text)) => HandleTextKeeps(cfg, s, text, now);
    case Frame(Close(code)) =>
      FinishKeeps(cfg, s, ReadEnd(read), Some(if s.awaitingReceipt || IsFatalClose(code) then Fatal else Transient));
    case Frame(Binary) => ViolationKeeps(cfg, s);
    case Frame(Pong) => Snoc(cfg, s.log, PongSeen);
    case Frame(_) =>
    case _ => FinishKeeps(cfg, s, ReadEnd(read), Some(if s.awaitingReceipt then Fatal else Transient));
  }

  lemma StepKeeps(cfg: Config, s: State, p: Poll)
    requires Inv(cfg, s) && s.end.None?
    ensures Inv(cfg, Step(cfg, s, p))
  {
    hide Inv, Flush, FromFrontend, TaskDone, Keepalive, Timeout, FromSocket;
    if CanFlush(s) { FlushKeeps(cfg, s, p); }
    else if p.frontend.Some? { FromFrontendKeeps(cfg, s, p.frontend.value); }
    else if s.payPending && p.pay.Some? { TaskDoneKeeps(cfg, s, p.pay.value, false, p.sendOk); }
    else if s.voucherPending && p.voucher.Some? { TaskDoneKeeps(cfg, s, p.voucher.value, true, p.sendOk); }
    else if p.now >= s.keepaliveAt { KeepaliveKeeps(cfg, s, p); }
    else if !FrontendOpen(s) && p.now >= s.deadlineAt { TimeoutKeeps(cfg, s, p); }
    else if p.socket.Some? { FromSocketKeeps(cfg, s, p.socket.value, p.now); }
  }

  /** Every run of a session: variables that mirror the log, and a safe log. */
  lemma {:induction false} EveryRun(cfg: Config, polls: seq<Poll>)
    ensures Inv(cfg, Run(cfg, Initial(cfg), polls))
  {
    hide Inv, Step;
    if polls == [] {
      InitialInv(cfg);
    } else {
      EveryRun(cfg, polls[..|polls| - 1]);
      var before := Run(cfg, Initial(cfg), polls[..|polls| - 1]);
      if before.end.None? { StepKeeps(cfg, before, polls[|polls| - 1]); }
    }
  }

  lemma InitialInv(cfg: Config)
    ensures Inv(cfg, Initial(cfg))
  {
  }

  // ---------------------------------------------------------------- what a safe log means

  lemma {:induction false} SafePrefix(cfg: Config, log: seq<Event>, i: nat)
    requires Safe(cfg, log) && i <= |log|
    ensures Safe(cfg, log[..i])
    ensures i < |log| ==> Legal(cfg, Observe(cfg.start, log[..i]), log[i])
    decreases |log|
  {
    hide Legal, Observe;
    if i == |log| {
      assert log[..i] == log;
    } else if i < |log| - 1 {
      SafePrefix(cfg, log[..|log| - 1], i);
      assert log[..|log| - 1][..i] == log[..i];
    }
  }

  /** Application data never goes out before a credential, nor while a payment task runs. */
  lemma DataIsGated(cfg: Config, log: seq<Event>, i: nat)
    requires Safe(cfg, log) && i < |log| && (log[i].RpcSent? || log[i].RpcLost?)
    ensures exists j :: 0 <= j < i && log[j].CredentialSent?
    ensures var m := Observe(cfg.start, log[..i]); m.paySpawns == m.payCreds && m.voucherSpawns == m.voucherCreds
  {
    hide Observe, Safe;
    SafePrefix(cfg, log, i);
    CredentialInLog(cfg, log[..i]);
    var j :| 0 <= j < i && log[..i][j].CredentialSent?;
    assert log[j].CredentialSent?;
  }

  lemma {:induction false} CredentialInLog(cfg: Config, log: seq<Event>)
    requires var m := Observe(cfg.start, log); m.payCreds + m.voucherCreds > 0
    ensures exists j :: 0 <= j < |log| && log[j].CredentialSent?
  {
    if !log[|log| - 1].CredentialSent? {
      CredentialInLog(cfg, log[..|log| - 1]);
      var j :| 0 <= j < |log| - 1 && log[..|log| - 1][j].CredentialSent?;
      assert log[j].CredentialSent?;
    }
  }

  /** Data goes out in the order it came in, each piece once. */
  lemma {:induction false} DataInOrder(cfg: Config, log: seq<Event>)
    requires Safe(cfg, log)
    ensures var m := Observe(cfg.start, log); m.flushed <= m.received
  {
    hide Observe, Safe, Open, EndFor;
    if log == [] {
      NothingObserved(cfg.start);
    } else {
      var front, e := log[..|log| - 1], log[|log| - 1];
      assert log == front + [e];
      Snoc(cfg, front, e);
      DataInOrder(cfg, front);
    }
  }

  /** Between two pings there is a pong. */
  lemma PingsSeparated(cfg: Config, log: seq<Event>, i: nat, j: nat)
    requires Safe(cfg, log) && i < j < |log| && log[i].PingSent? && log[j].PingSent?
    ensures exists k :: i < k < j && log[k].PongSeen?
  {
    hide Observe, Safe;
    SafePrefix(cfg, log, j);
    Snoc(cfg, log[..i], log[i]);
    assert log[..i + 1] == log[..i] + [log[i]];
    if forall k :: i < k < j ==> !log[k].PongSeen? {
      PongStaysOwed(cfg, log, i + 1, j);
    }
  }

  lemma {:induction false} PongStaysOwed(cfg: Config, log: seq<Event>, i: nat, j: nat)
    requires i <= j <= |log| && Observe(cfg.start, log[..i]).pongOwed
    requires forall k :: i <= k < j ==> !log[k].PongSeen?
    ensures Observe(cfg.start, log[..j]).pongOwed
    decreases j
  {
    hide Observe;
    if i < j {
      PongStaysOwed(cfg, log, i, j - 1);
      Snoc(cfg, log[..j - 1], log[j - 1]);
      assert log[..j] == log[..j - 1] + [log[j - 1]];
    }
  }

  /** A peer is given up only with a ping unanswered, a full keepalive interval after the latest ping or RPC sent. */
  lemma PongGrace(cfg: Config, log: seq<Event>, n: nat)
    requires Safe(cfg, log) && n < |log| && log[n].PongMissed?
    ensures log[n].at >= Observe(cfg.start, log[..n]).lastBeat + cfg.keepalive
    ensures exists k :: 0 <= k < n && log[k].PingSent? && forall j :: k < j < n ==> !log[j].PongSeen?
  {
    hide Observe, Safe;
    SafePrefix(cfg, log, n);
    var k := UnansweredPing(cfg, log[..n]);
    assert log[k].PingSent?;
  }

  lemma {:induction false} UnansweredPing(cfg: Config, log: seq<Event>) returns (k: nat)
    requires Observe(cfg.start, log).pongOwed
    ensures k < |log| && log[k].PingSent? && forall j :: k < j < |log| ==> !log[j].PongSeen?
  {
    hide Observe;
    NothingObserved(cfg.start);
    var front := log[..|log| - 1];
    assert log == front + [log[|log| - 1]];
    Snoc(cfg, front, log[|log| - 1]);
    if log[|log| - 1].PingSent? {
      k := |log| - 1;
    } else {
      k := UnansweredPing(cfg, front);
    }
  }

  predicate Beat(e: Event) { e.RpcSent? || e.PingSent? }

  /** `lastBeat` is the time of the latest RPC or ping sent, or of the start. */
  lemma {:induction false} LastBeatMeaning(cfg: Config, log: seq<Event>, i: nat)
    requires i <= |log| && forall k :: i <= k < |log| ==> !Beat(log[k])
    requires i > 0 ==> Beat(log[i - 1])
    ensures Observe(cfg.start, log).lastBeat == if i == 0 then cfg.start else log[i - 1].at
    decreases |log|
  {
    hide Observe;
    if log == [] {
      NothingObserved(cfg.start);
    } else {
      var front, e := log[..|log| - 1], log[|log| - 1];
      assert log == front + [e];
      Snoc(cfg, front, e);
      if i < |log| {
        LastBeatMeaning(cfg, front, i);
      }
    }
  }

  predicate Spawn(e: Event) { e.PaySpawned? || e.VoucherSpawned? }

  /** An open session stays open until a task is spawned. */
  lemma {:induction false} StaysOpen(cfg: Config, log: seq<Event>, i: nat, j: nat)
    requires Safe(cfg, log) && i <= j <= |log| && Open(Observe(cfg.start, log[..i]))
    requires forall k :: i <= k < j ==> !Spawn(log[k])
    ensures Open(Observe(cfg.start, log[..j]))
    decreases j
  {
    hide Observe, Safe, EndFor;
    if i < j {
      StaysOpen(cfg, log, i, j - 1);
      SafePrefix(cfg, log, j - 1);
      Snoc(cfg, log[..j - 1], log[j - 1]);
      assert log[..j] == log[..j - 1] + [log[j - 1]];
    }
  }

  /**
    A timeout ends a session only a full handshake timeout after its latest spawn (or its start),
    and the session was closed at every moment since: an open session is never timed out.
   */
  lemma TimeoutJustified(cfg: Config, log: seq<Event>, i: nat, n: nat)
    requires Safe(cfg, log) && n < |log| && log[n].TimedOut?
    requires i <= n && forall k :: i <= k < n ==> !Spawn(log[k])
    ensures log[n].at >= Observe(cfg.start, log[..n]).lastSpawn + cfg.handshake
    ensures !Open(Observe(cfg.start, log[..i]))
  {
    hide Observe, Safe;
    SafePrefix(cfg, log, n);
    if Open(Observe(cfg.start, log[..i])) {
      StaysOpen(cfg, log, i, n);
    }
  }

  /** `lastSpawn` is the time of the latest spawn, or of the start. */
  lemma {:induction false} LastSpawnMeaning(cfg: Config, log: seq<Event>, i: nat)
    requires i <= |log| && forall k :: i <= k < |log| ==> !Spawn(log[k])
    requires i > 0 ==> Spawn(log[i - 1])
    ensures Observe(cfg.start, log).lastSpawn == if i == 0 then cfg.start else log[i - 1].at
    decreases |log|
  {
    hide Observe;
    if log == [] {
      NothingObserved(cfg.start);
    } else {
      var front, e := log[..|log| - 1], log[|log| - 1];
      assert log == front + [e];
      Snoc(cfg, front, e);
      if i < |log| {
        LastSpawnMeaning(cfg, front, i);
      }
    }
  }

  /** A credential is unreceipted exactly when no receipt followed some credential. */
  lemma {:induction false} AwaitingMeaning(cfg: Config, log: seq<Event>)
    ensures Observe(cfg.start, log).awaiting
      <==> exists i :: 0 <= i < |log| && log[i].CredentialSent? && NoReceiptAfter(log, i)
  {
    hide Observe;
    if log == [] {
      NothingObserved(cfg.start);
    } else {
      var front := log[..|log| - 1];
      assert log == front + [log[|log| - 1]];
      Snoc(cfg, front, log[|log| - 1]);
      AwaitingMeaning(cfg, front);
      if log[|log| - 1].CredentialSent? {
        assert NoReceiptAfter(log, |log| - 1);
      } else if !log[|log| - 1].ReceiptSeen? {
        forall i | 0 <= i < |front| && front[i].CredentialSent?
          ensures NoReceiptAfter(front, i) <==> NoReceiptAfter(log, i)
        {
        }
      }
    }
  }

  predicate NoReceiptAfter(log: seq<Event>, i: nat) { forall j :: i < j < |log| ==> !log[j].ReceiptSeen? }

  /** A session the read side ends: Fatal exactly if a credential is unreceipted or the close code says so. */
  lemma ReadSideEnd(cfg: Config, s: State)
    requires Inv(cfg, s) && s.end.Some? && |s.log| >= 2 && s.log[|s.log| - 2].ReadEnd?
    ensures var read := s.log[|s.log| - 2].read;
      s.end == Some(Some(
        if Observe(cfg.start, s.log[..|s.log| - 2]).awaiting
           || (read.Frame? && read.message.Close? && IsFatalClose(read.message.code))
        then Fatal else Transient))
  {
    hide Observe, Safe;
    var n := |s.log| - 2;
    SafePrefix(cfg, s.log, n + 1);
    Snoc(cfg, s.log[..n], s.log[n]);
    assert s.log[..n + 1] == s.log[..n] + [s.log[n]];
    assert s.log == s.log[..n + 1] + [s.log[n + 1]];
    Snoc(cfg, s.log[..n + 1], s.log[n + 1]);
  }

  /** Nothing is logged after the end. */
  lemma EndIsLast(cfg: Config, log: seq<Event>, i: nat)
    requires Safe(cfg, log) && i < |log| && log[i].Ended?
    ensures i == |log| - 1
  {
    hide Observe, Safe;
    if i < |log| - 1 {
      assert log[..i + 1] == log[..i] + [log[i]];
      Snoc(cfg, log[..i], log[i]);
      SafePrefix(cfg, log, i + 1);
    }
  }

  function SentAll(rpcs: seq<Rpc>, polls: seq<Poll>): (es: seq<Event>)
    requires |rpcs| == |polls|
    ensures |es| == |rpcs| && forall i :: 0 <= i < |rpcs| ==> es[i] == RpcSent(rpcs[i], polls[i].now)
  {
    seq(|rpcs|, i requires 0 <= i < |rpcs| => RpcSent(rpcs[i], polls[i].now))
  }

  /** From an open state with n queued RPCs, whatever else is ready, the next n steps send them. */
  lemma {:induction false} FlushesFirst(cfg: Config, s: State, polls: seq<Poll>)
    requires s.end.None? && FrontendOpen(s) && |polls| <= |s.outbound|
    requires forall i :: 0 <= i < |polls| ==> polls[i].sendOk
    ensures var s' := Run(cfg, s, polls);
      && s'.log == s.log + SentAll(s.outbound[..|polls|], polls)
      && s'.outbound == s.outbound[|polls|..]
      && s'.end.None? && FrontendOpen(s')
      && s' == s.(log := s'.log, outbound := s'.outbound, keepaliveAt := s'.keepaliveAt)
    decreases |polls|
  {
    hide FromFrontend, TaskDone, Keepalive, Timeout, FromSocket;
    if polls == [] {
      assert s.log + SentAll(s.outbound[..0], polls) == s.log;
    } else {
      var k := |polls| - 1;
      FlushesFirst(cfg, s, polls[..k]);
      assert s.outbound[k..][0] == s.outbound[k] && s.outbound[k..][1..] == s.outbound[k + 1..];
      assert SentAll(s.outbound[..k], polls[..k]) + [RpcSent(s.outbound[k], polls[k].now)]
        == SentAll(s.outbound[..k + 1], polls);
    }
  }
}
