/**
  The translator as the object its select loop is, and the connector whose sessions share the
  `fatal` latch.
 */
module Translator {
  import opened Prelude
  import opened Session

  /** After the loop: abort what still runs, report the reason. */
  function Leave(s: State, reason: Option<Reason>): State {
    s.(end := Some(reason), payPending := false, voucherPending := false, log := s.log + [Ended(reason)])
  }

  /** The deadline restarts when `s` has a task that `before` had not. */
  function RestartDeadline(cfg: Config, before: State, s: State, now: nat): State {
    if (!before.payPending && s.payPending) || (!before.voucherPending && s.voucherPending)
    then s.(deadlineAt := now + cfg.handshake)
    else s
  }

  class Translator {
    const cfg: Config
    var ended: bool
    var termination: Option<Reason>
    var expectingPong: bool
    var handshakeComplete: bool
    var credentialAwaitingReceipt: bool
    var keepaliveAt: nat
    var handshakeDeadline: nat
    var pendingPay: bool
    var pendingVoucher: bool
    var pendingOutbound: seq<Rpc>
    var lastReceipt: Option<string>
    var log: seq<Event>

    function View(): State
      reads this
    {
      State(if ended then Some(termination) else None, expectingPong, handshakeComplete, credentialAwaitingReceipt,
            keepaliveAt, handshakeDeadline, pendingPay, pendingVoucher, pendingOutbound, lastReceipt, log)
    }

    constructor (cfg: Config)
      ensures this.cfg == cfg && View() == Initial(cfg)
    {
      this.cfg := cfg;
      ended, termination, expectingPong := false, None, false;
      handshakeComplete, credentialAwaitingReceipt := false, false;
      keepaliveAt, handshakeDeadline := cfg.start + cfg.keepalive, cfg.start + cfg.handshake;
      pendingPay, pendingVoucher, pendingOutbound, lastReceipt, log := false, false, [], None, [];
    }

    /** `break`, the aborts behind the loop, and the report to the frontend. */
    method Break(reason: Option<Reason>)
      modifies this
      ensures View() == Leave(old(View()), reason)
    {
      ended, termination := true, reason;
      pendingPay, pendingVoucher := false, false;
      log := log + [Ended(reason)];
    }

    method FlushOne(p: Poll)
      requires !ended && pendingOutbound != []
      modifies this
      ensures View() == Flush(cfg, old(View()), p)
    {
      var rpc := pendingOutbound[0];
      pendingOutbound := pendingOutbound[1..];
      keepaliveAt := p.now + cfg.keepalive;
      if p.sendOk {
        log := log + [RpcSent(rpc, p.now)];
      } else {
        log := log + [RpcLost(rpc)];
        Break(Some(Transient));
      }
    }

    method ReceiveFromFrontend(inst: Option<Rpc>)
      requires !ended
      modifies this
      ensures View() == FromFrontend(old(View()), inst)
    {
      match inst {
        case Some(rpc) =>
          pendingOutbound := pendingOutbound + [rpc];
          log := log + [RpcReceived(rpc)];
        case None =>
          log := log + [FrontendGone];
          Break(None);
      }
    }

    method SendCredential(cred: Credential, voucher: bool, sendOk: bool) returns (err: Option<Reason>)
      modifies this`log
      ensures log == old(log) +
        [if !cred.formats then Violation
         else if !sendOk then CredentialLost(voucher, cred.body) else CredentialSent(voucher, cred.body)]
      ensures err == if !cred.formats then Some(Fatal) else if !sendOk then Some(Transient) else None
    {
      if !cred.formats {
        log := log + [Violation];
        return Some(Fatal);
      }
      if !sendOk {
        log := log + [CredentialLost(voucher, cred.body)];
        return Some(Transient);
      }
      log := log + [CredentialSent(voucher, cred.body)];
      return None;
    }

    method JoinTask(result: TaskResult, voucher: bool, sendOk: bool)
      requires !ended
      modifies this
      ensures View() == TaskDone(old(View()), result, voucher, sendOk)
    {
      if voucher { pendingVoucher := false; } else { pendingPay := false; }
      match result {
        case Produced(cred) =>
          var err := SendCredential(cred, voucher, sendOk);
          if err.Some? {
            Break(err);
          } else {
            handshakeComplete := true;
            credentialAwaitingReceipt := true;
          }
        case _ =>
          log := log + [Violation];
          Break(Some(Fatal));
      }
    }

    method KeepaliveTick(p: Poll)
      requires !ended
      modifies this
      ensures View() == Keepalive(cfg, old(View()), p)
    {
      if expectingPong {
        log := log + [PongMissed(p.now)];
        Break(Some(Transient));
      } else {
        keepaliveAt := p.now + cfg.keepalive;
        if p.sendOk {
          log := log + [PingSent(p.now)];
          expectingPong := true;
        } else {
          log := log + [PingLost];
          Break(Some(Transient));
        }
      }
    }

    method HandshakeExpired(p: Poll)
      requires !ended
      modifies this
      ensures View() == Timeout(old(View()), p)
    {
      log := log + [TimedOut(p.now)];
      Break(Some(Fatal));
    }

    /** Spawns and clears flags, but leaves ending the loop and the deadline to the caller. */
    method ProcessText(text: ServerText, now: nat) returns (err: Option<Reason>)
      requires !ended
      modifies this
      ensures !ended
      ensures var wanted := HandleText(cfg, old(View()), text, now);
        if err.Some? then wanted == Leave(View(), err) else wanted == RestartDeadline(cfg, old(View()), View(), now)
    {
      match text {
        case ChallengeText(challenge) =>
          if pendingPay || challenge.None? {
            log := log + [Violation];
            return Some(Fatal);
          }
          log := log + [ChallengeSeen(challenge.value)];
          if !challenge.value.supported {
            log := log + [Violation];
            return Some(Fatal);
          }
          pendingPay := true;
          log := log + [PaySpawned(now)];
        case DataText(item, frontendAlive) =>
          if item.None? || !frontendAlive {
            log := log + [Violation];
            return Some(Fatal);
          }
          log := log + [Delivered(item.value)];
        case NeedVoucherText(request) =>
          if pendingVoucher {
            log := log + [Violation];
            return Some(Fatal);
          }
          pendingVoucher := true;
          log := log + [VoucherSpawned(request, now)];
        case ReceiptText(receipt) =>
          if receipt.None? {
            log := log + [Violation];
            return Some(Fatal);
          }
          lastReceipt := receipt;
          log := log + [ReceiptSeen(receipt.value)];
          credentialAwaitingReceipt := false;
        case _ =>
          log := log + [Violation];
          return Some(Fatal);
      }
      return None;
    }

    method ReceiveFromSocket(read: SocketRead, now: nat)
      requires !ended
      modifies this
      ensures View() == FromSocket(cfg, old(View()), read, now)
    {
      hide HandleText;
      var payWasPending, voucherWasPending := pendingPay, pendingVoucher;
      var err: Option<Reason> := None;
      match read {
        case Frame(Text(text)) =>
          err := ProcessText(text, now);
          if err.None? && ((!payWasPending && pendingPay) || (!voucherWasPending && pendingVoucher)) {
            handshakeDeadline := now + cfg.handshake;
          }
        case Frame(Close(code)) =>
          log := log + [ReadEnd(read)];
          err := Some(if credentialAwaitingReceipt || IsFatalClose(code) then Fatal else Transient);
        case Frame(Binary) =>
          log := log + [Violation];
          err := Some(Fatal);
        case Frame(Pong) =>
          expectingPong := false;
          log := log + [PongSeen];
        case Frame(_) =>
        case _ =>
          log := log + [ReadEnd(read)];
          err := Some(if credentialAwaitingReceipt then Fatal else Transient);
      }
      if err.Some? {
        Break(err);
      }
    }

    /** The loop: each iteration runs the first enabled arm whose future is ready. */
    method RunTranslator(polls: seq<Poll>)
      requires View() == Initial(cfg)
      modifies this
      ensures View() == Run(cfg, Initial(cfg), polls)
      ensures Inv(cfg, View())
    {
      hide Flush, FromFrontend, TaskDone, Keepalive, Timeout, FromSocket, Inv, Initial;
      ghost var s0 := View();
      assert Run(cfg, s0, []) == s0;
      for i := 0 to |polls|
        invariant View() == Run(cfg, s0, polls[..i])
      {
        assert polls[..i + 1][..i] == polls[..i];
        if !ended {
          var p := polls[i];
          var paymentInFlight := pendingPay || pendingVoucher;
          var frontendOpen := handshakeComplete && !paymentInFlight;
          var canFlush := frontendOpen && pendingOutbound != [];
          if canFlush {
            FlushOne(p);
          } else if p.frontend.Some? {
            ReceiveFromFrontend(p.frontend.value);
          } else if pendingPay && p.pay.Some? {
            JoinTask(p.pay.value, false, p.sendOk);
          } else if pendingVoucher && p.voucher.Some? {
            JoinTask(p.voucher.value, true, p.sendOk);
          } else if p.now >= keepaliveAt {
            KeepaliveTick(p);
          } else if !frontendOpen && p.now >= handshakeDeadline {
            HandshakeExpired(p);
          } else if p.socket.Some? {
            ReceiveFromSocket(p.socket.value, p.now);
          }
        }
      }
      assert polls[..|polls|] == polls;
      EveryRun(cfg, polls);
    }
  }

  // ---------------------------------------------------------------- successive sessions

  /** One call of `connect`: whether the socket opens, and the session it would run. */
  datatype Attempt = Attempt(reachable: bool, cfg: Config, polls: seq<Poll>)

  datatype Connections = Connections(fatal: bool, sessions: seq<State>)

  predicate EndedFatally(s: State) { s.end == Some(Some(Fatal)) }

  /** The state some session ends a run in. */
  ghost predicate Reachable(s: State) { exists cfg, polls :: s == Run(cfg, Initial(cfg), polls) }

  function ConnectOnce(c: Connections, a: Attempt): Connections {
    if c.fatal || !a.reachable then c
    else
      var s := Run(a.cfg, Initial(a.cfg), a.polls);
      Connections(EndedFatally(s), c.sessions + [s])
  }

  function ConnectAll(attempts: seq<Attempt>): Connections {
    if attempts == [] then Connections(false, [])
    else ConnectOnce(ConnectAll(attempts[..|attempts| - 1]), attempts[|attempts| - 1])
  }

  /** A connector: every session publishes into the same latch. */
  class Connector {
    var fatal: bool
    var sessions: seq<State>

    constructor ()
      ensures !fatal && sessions == []
    {
      fatal, sessions := false, [];
    }

    /** Refuses once the latch is set; otherwise runs a session, which may set it. */
    method Connect(a: Attempt) returns (started: bool)
      modifies this
      ensures Connections(fatal, sessions) == ConnectOnce(Connections(old(fatal), old(sessions)), a)
      ensures started <==> !old(fatal) && a.reachable
    {
      hide Run, Initial;
      if fatal || !a.reachable {
        return false;
      }
      var translator := new Translator(a.cfg);
      translator.RunTranslator(a.polls);
      sessions := sessions + [translator.View()];
      if translator.ended && translator.termination == Some(Fatal) {
        fatal := true;
      }
      return true;
    }
  }

  /**
    However often `connect` is called: only the last session can have ended fatally, and it did iff
    the latch is set.
   */
  lemma {:induction false} NothingAfterFatal(attempts: seq<Attempt>)
    ensures var c := ConnectAll(attempts);
      && (forall i :: 0 <= i < |c.sessions| - 1 ==> !EndedFatally(c.sessions[i]))
      && (c.fatal <==> c.sessions != [] && EndedFatally(c.sessions[|c.sessions| - 1]))
      && (forall i :: 0 <= i < |c.sessions| ==> Reachable(c.sessions[i]))
  {
    hide Run, Initial;
    if attempts != [] {
      var a, before := attempts[|attempts| - 1], ConnectAll(attempts[..|attempts| - 1]);
      NothingAfterFatal(attempts[..|attempts| - 1]);
      if !before.fatal && a.reachable {
        var s := Run(a.cfg, Initial(a.cfg), a.polls);
        assert Reachable(s);
        assert ConnectAll(attempts) == Connections(EndedFatally(s), before.sessions + [s]);
        assert forall i :: 0 <= i < |before.sessions| ==> !EndedFatally(before.sessions[i]);
      } else {
        assert ConnectAll(attempts) == before;
      }
    }
  }

  /** A session whose read side ended on an unreceipted credential is the connector's last. */
  lemma UnreceiptedIsLast(attempts: seq<Attempt>, cfg: Config, polls: seq<Poll>, i: nat)
    requires var c := ConnectAll(attempts); i < |c.sessions| && c.sessions[i] == Run(cfg, Initial(cfg), polls)
    requires var s := ConnectAll(attempts).sessions[i];
      s.end.Some? && |s.log| >= 2 && s.log[|s.log| - 2].ReadEnd?
      && Observe(cfg.start, s.log[..|s.log| - 2]).awaiting
    ensures i == |ConnectAll(attempts).sessions| - 1 && ConnectAll(attempts).fatal
  {
    hide ConnectAll, Inv, Observe, Run, Initial;
    EveryRun(cfg, polls);
    ReadSideEnd(cfg, ConnectAll(attempts).sessions[i]);
    NothingAfterFatal(attempts);
  }
}
