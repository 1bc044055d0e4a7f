/** A payment channel's accounting and the writers the library runs on it. */
module Channel {
  import opened Prelude

  /** The fields of the source's ChannelState that its accounting reads or writes. */
  datatype ChannelState = ChannelState(
    deposit: nat, voucher: nat, settled: nat, spent: nat, units: nat, finalized: bool, closing: bool)

  datatype UpdateError = NotFound | ChannelClosed | Insufficient(requested: nat, available: nat) | OtherError

  type Outcome = Result<Option<ChannelState>, UpdateError>

  /**
    What a caller passes to `update_channel`: one of the writers of the session method, with the
    amounts it has read from the chain or the voucher before; a removal; or any other function.
   */
  datatype Updater =
    | Deduct(amount: nat)
    | Open(deposit: nat, settled: nat, voucher: nat)
    | TopUp(deposit: nat, settled: nat)
    | Refresh(deposit: nat, settled: nat, finalized: bool)
    | AcceptVoucher(voucher: nat)
    | BeginClose
    | AbortClose
    | FinishClose(deposit: nat, voucher: nat)
    | Remove
    | Custom(f: Option<ChannelState> -> Outcome)

  function Max(a: nat, b: nat): nat { if a >= b then a else b }

  function Available(c: ChannelState): nat {
    if c.voucher >= c.spent then c.voucher - c.spent else 0
  }

  predicate Closed(c: ChannelState) { c.finalized || c.closing }

  /** The updater of `deduct_from_channel`. */
  function DeductOutcome(current: Option<ChannelState>, amount: nat): Outcome {
    match current
    case None => Err(NotFound)
    case Some(c) =>
      if Closed(c) then Err(ChannelClosed)
      else if Available(c) >= amount then Ok(Some(c.(spent := c.spent + amount, units := c.units + 1)))
      else Err(Insufficient(amount, Available(c)))
  }

  /** The chain's deposit and settlement taken over: what is settled counts as spent. */
  function Settle(c: ChannelState, deposit: nat, settled: nat): ChannelState {
    var known := Max(settled, c.settled);
    c.(deposit := deposit, settled := known, spent := Max(known, c.spent))
  }

  function RunUpdater(u: Updater, current: Option<ChannelState>): Outcome {
    match u
    case Deduct(amount) => DeductOutcome(current, amount)
    case Custom(f) => f(current)
    case Remove => Ok(None)
    case Open(deposit, settled, voucher) =>
      Ok(Some(match current
              case None => ChannelState(deposit, voucher, settled, settled, 0, false, false)
              case Some(c) => Settle(c, deposit, settled).(voucher := Max(voucher, c.voucher))))
    case AbortClose =>
      Ok(match current case None => None case Some(c) => Some(if c.finalized then c else c.(closing := false)))
    case FinishClose(deposit, voucher) =>
      Ok(match current
         case None => None
         case Some(c) =>
           Some(c.(deposit := deposit, voucher := Max(voucher, c.voucher), finalized := true, closing := false)))
    case _ => if current.None? then Err(NotFound) else Existing(u, current.value)
  }

  /** The writers that need a channel. */
  function Existing(u: Updater, c: ChannelState): Outcome
    requires u.TopUp? || u.Refresh? || u.AcceptVoucher? || u.BeginClose?
  {
    match u
    case TopUp(deposit, settled) => Ok(Some(Settle(c, deposit, settled)))
    case Refresh(deposit, settled, finalized) => Ok(Some(Settle(c, deposit, settled).(finalized := finalized)))
    case AcceptVoucher(voucher) => Ok(Some(c.(voucher := Max(voucher, c.voucher))))
    case BeginClose => if Closed(c) then Err(ChannelClosed) else Ok(Some(c.(closing := true)))
  }

  /** The state after one update: a refused update changes nothing. */
  function After(u: Updater, current: Option<ChannelState>): Option<ChannelState> {
    match RunUpdater(u, current) case Ok(next) => next case Err(_) => current
  }

  /** The updates run one by one. */
  function Serial(start: Option<ChannelState>, us: seq<Updater>): Option<ChannelState> {
    if us == [] then start else After(us[|us| - 1], Serial(start, us[..|us| - 1]))
  }

  // ---------------------------------------------------------------- the books

  /** A removal, or a function that would remove a channel. */
  ghost predicate Removes(u: Updater) { exists c :: RunUpdater(u, Some(c)) == Ok(None) }

  /** A function of a caller's own that moves neither `spent` nor `units` and never lowers the voucher. */
  ghost predicate Neutral(f: Option<ChannelState> -> Outcome) {
    forall c :: match f(Some(c))
      case Ok(Some(next)) => next.spent == c.spent && next.units == c.units && next.voucher >= c.voucher
      case _ => true
  }

  /** The library's writers, and neutral functions of a caller's own. */
  ghost predicate Known(u: Updater) { u.Custom? ==> Neutral(u.f) }

  /** A writer that takes over what the chain has settled. */
  predicate Settles(u: Updater) { u.Open? || u.TopUp? || u.Refresh? }

  /** What a writer adds to `spent` because the chain has settled more than was spent here. */
  function Raise(u: Updater, c: ChannelState): nat {
    if Settles(u) then Max(Max(u.settled, c.settled), c.spent) - c.spent else 0
  }

  /** What a deduction pays, if it is one and succeeds. */
  function Pays(u: Updater, current: Option<ChannelState>): seq<nat> {
    if u.Deduct? && RunUpdater(u, current).Ok? then [u.amount] else []
  }

  /** The amounts of the deductions in `us` that succeed. */
  function Paid(start: Option<ChannelState>, us: seq<Updater>): seq<nat> {
    if us == [] then []
    else Paid(start, us[..|us| - 1]) + Pays(us[|us| - 1], Serial(start, us[..|us| - 1]))
  }

  /** What the settlements in `us` add to `spent`. */
  function Raises(start: Option<ChannelState>, us: seq<Updater>): nat {
    if us == [] then 0
    else
      var ch := Serial(start, us[..|us| - 1]);
      Raises(start, us[..|us| - 1]) + if ch.Some? then Raise(us[|us| - 1], ch.value) else 0
  }

  function Sum(amounts: seq<nat>): nat {
    if amounts == [] then 0 else Sum(amounts[..|amounts| - 1]) + amounts[|amounts| - 1]
  }

  lemma SumNone()
    ensures Sum([]) == 0
  {
  }

  lemma SumSnoc(amounts: seq<nat>, a: nat)
    ensures Sum(amounts + [a]) == Sum(amounts) + a
  {
    assert (amounts + [a])[..|amounts|] == amounts;
  }

  /** A deduction succeeds exactly on an open channel that covers it. */
  lemma DeductOne(c: ChannelState, amount: nat)
    ensures var next := After(Deduct(amount), Some(c));
      if !Closed(c) && amount <= Available(c)
      then next == Some(c.(spent := c.spent + amount, units := c.units + 1))
           && (c.spent <= c.voucher ==> c.spent + amount <= c.voucher)
      else next == Some(c)
    ensures RunUpdater(Deduct(amount), Some(c)).Ok? <==> !Closed(c) && amount <= Available(c)
  {
  }

  lemma SumPays(u: Updater, current: Option<ChannelState>)
    ensures Sum(Pays(u, current)) == if u.Deduct? && RunUpdater(u, current).Ok? then u.amount else 0
  {
    hide RunUpdater;
    SumNone();
    assert u.Deduct? ==> [u.amount][..0] == [];
  }

  /** A function of a caller's own that keeps the channel. */
  lemma OneNeutral(f: Option<ChannelState> -> Outcome, c: ChannelState)
    requires Neutral(f) && !Removes(Custom(f))
    ensures var next := After(Custom(f), Some(c));
      next.Some? && next.value.spent == c.spent && next.value.units == c.units && next.value.voucher >= c.voucher
  {
    assert RunUpdater(Custom(f), Some(c)) != Ok(None);
    assert RunUpdater(Custom(f), Some(c)) == f(Some(c));
  }

  /** One writer moves the books by what it pays and what it settles, and nothing else. */
  lemma OneWriter(u: Updater, c: ChannelState)
    requires Known(u) && !Removes(u)
    ensures var next := After(u, Some(c));
      && next.Some?
      && next.value.spent == c.spent + Sum(Pays(u, Some(c))) + Raise(u, c)
      && next.value.units == c.units + |Pays(u, Some(c))|
      && next.value.voucher >= c.voucher
  {
    hide Sum, Neutral, Removes;
    SumPays(u, Some(c));
    if u.Custom? {
      OneNeutral(u.f, c);
    } else if u == Remove {
      RemoveRemoves();
    }
  }

  lemma RemoveRemoves()
    ensures Removes(Remove)
  {
    assert RunUpdater(Remove, Some(ChannelState(0, 0, 0, 0, 0, false, false))) == Ok(None);
  }

  /**
    Conservation: after any sequence of writers, `spent` has grown by exactly the deductions that
    succeeded and what the chain settled beyond them, `units` by the number of those deductions.
   */
  lemma {:induction false} BooksBalance(c: ChannelState, us: seq<Updater>)
    requires forall i :: 0 <= i < |us| ==> Known(us[i]) && !Removes(us[i])
    ensures var end, paid := Serial(Some(c), us), Paid(Some(c), us);
      && end.Some?
      && end.value.spent == c.spent + Sum(paid) + Raises(Some(c), us)
      && end.value.units == c.units + |paid|
      && end.value.voucher >= c.voucher
  {
    hide After, RunUpdater, Sum, Raise, Pays, Known, Removes;
    SumNone();
    if us != [] {
      var front, u := us[..|us| - 1], us[|us| - 1];
      BooksBalance(c, front);
      OneWriter(u, Serial(Some(c), front).value);
      SumMorePays(Paid(Some(c), front), u, Serial(Some(c), front));
    }
  }

  lemma SumMorePays(amounts: seq<nat>, u: Updater, current: Option<ChannelState>)
    ensures Sum(amounts + Pays(u, current)) == Sum(amounts) + Sum(Pays(u, current))
  {
    hide RunUpdater, Sum;
    SumNone();
    SumPays(u, current);
    if Pays(u, current) == [] {
      assert amounts + [] == amounts;
    } else {
      SumSnoc(amounts, u.amount);
    }
  }

  // ---------------------------------------------------------------- within the voucher

  predicate Funded(c: ChannelState) { c.spent <= c.voucher }

  /** The settlement a writer takes over is within the voucher it leaves. */
  predicate Covered(u: Updater, c: ChannelState) {
    match u
    case Open(_, settled, voucher) => Max(settled, c.settled) <= Max(voucher, c.voucher)
    case TopUp(_, settled) => Max(settled, c.settled) <= c.voucher
    case Refresh(_, settled, _) => Max(settled, c.settled) <= c.voucher
    case _ => true
  }

  /** On a channel within its voucher, exactly the uncovered settlements overdraw it. */
  lemma FundedStep(u: Updater, c: ChannelState)
    requires Known(u) && Funded(c)
    ensures var next := After(u, Some(c)); (next.Some? ==> Funded(next.value)) <==> Covered(u, c)
  {
  }

  /** The same when there is no channel: only an open makes one. */
  lemma FundedOpening(u: Updater)
    requires !u.Custom?
    ensures var next := After(u, None);
      (next.Some? ==> Funded(next.value)) <==> (u.Open? ==> u.settled <= u.voucher)
  {
  }

  /** Without settlements `spent` stays within the voucher. */
  lemma {:induction false} FundedWithout(c: ChannelState, us: seq<Updater>)
    requires Funded(c) && forall i :: 0 <= i < |us| ==> Known(us[i]) && !Removes(us[i]) && !Settles(us[i])
    ensures var end := Serial(Some(c), us); end.Some? && Funded(end.value)
  {
    hide Known, Removes, After, Funded;
    if us != [] {
      var k := |us| - 1;
      FundedWithout(c, us[..k]);
      OneWriter(us[k], Serial(Some(c), us[..k]).value);
      FundedStep(us[k], Serial(Some(c), us[..k]).value);
    }
  }

  lemma {:induction false} NoSettlement(start: Option<ChannelState>, us: seq<Updater>)
    requires forall i :: 0 <= i < |us| ==> !Settles(us[i])
    ensures Raises(start, us) == 0
  {
    hide Serial;
    if us != [] {
      NoSettlement(start, us[..|us| - 1]);
    }
  }

  // ---------------------------------------------------------------- closing

  /** A closed channel is opened again, or removed. */
  predicate Reopens(u: Updater, c: ChannelState) {
    match u
    case Refresh(_, _, finalized) => !finalized && !c.closing
    case AbortClose => !c.finalized
    case Remove => true
    case Custom(_) => var next := After(u, Some(c)); next.None? || !Closed(next.value)
    case _ => false
  }

  /** A closed channel stays closed under exactly the writers that do not reopen it. */
  lemma ClosedStep(u: Updater, c: ChannelState)
    requires Closed(c)
    ensures var next := After(u, Some(c)); next.Some? && Closed(next.value) <==> !Reopens(u, c)
  {
  }

  // ---------------------------------------------------------------- the fields over a run

  /** A writer of the library that leaves a channel in place. */
  predicate Library(u: Updater) { !u.Custom? && !u.Remove? }

  predicate AllLibrary(us: seq<Updater>) { forall i :: 0 <= i < |us| ==> Library(us[i]) }

  predicate BringsVoucher(u: Updater) { u.Open? || u.AcceptVoucher? || u.FinishClose? }

  /** The cumulative amounts that vouchers handed in. */
  function Vouchers(us: seq<Updater>): seq<nat> {
    if us == [] then []
    else
      var u := us[|us| - 1];
      Vouchers(us[..|us| - 1]) + if BringsVoucher(u) then [u.voucher] else []
  }

  /** The deposits read from the chain. */
  function Deposits(us: seq<Updater>): seq<nat> {
    if us == [] then []
    else
      var u := us[|us| - 1];
      Deposits(us[..|us| - 1]) + if Settles(u) || u.FinishClose? then [u.deposit] else []
  }

  /** The settled amounts read from the chain. */
  function Settlements(us: seq<Updater>): seq<nat> {
    if us == [] then []
    else
      var u := us[|us| - 1];
      Settlements(us[..|us| - 1]) + if Settles(u) then [u.settled] else []
  }

  /** What the chain, or a finished close, said about the channel being final. */
  function Finalities(us: seq<Updater>): seq<bool> {
    if us == [] then []
    else
      var u := us[|us| - 1];
      Finalities(us[..|us| - 1])
      + match u case Refresh(_, _, finalized) => [finalized] case FinishClose(_, _) => [true] case _ => []
  }

  /** The steps of closing that take effect: begun while open, given up while not final, or done. */
  function Closings(start: ChannelState, us: seq<Updater>): seq<bool> {
    if us == [] then []
    else
      var front, u := us[..|us| - 1], us[|us| - 1];
      var done := Closings(start, front);
      var final := Latest(start.finalized, Finalities(front));
      done + match u
             case BeginClose => if final || Latest(start.closing, done) then [] else [true]
             case AbortClose => if final then [] else [false]
             case FinishClose(_, _) => [false]
             case _ => []
  }

  /** The last of `xs`, or `start`. */
  function Latest<T>(start: T, xs: seq<T>): T { if xs == [] then start else xs[|xs| - 1] }

  predicate Highest(x: nat, amounts: seq<nat>) { x in amounts && forall a :: a in amounts ==> a <= x }

  lemma HighestMore(x: nat, amounts: seq<nat>, a: nat)
    requires Highest(x, amounts)
    ensures Highest(if a >= x then a else x, amounts + [a])
  {
  }

  /** What one writer does to the deposit and the flags. */
  lemma OneMark(u: Updater, c: ChannelState)
    requires Library(u)
    ensures var next := After(u, Some(c));
      && next.Some?
      && next.value.deposit == (if Settles(u) || u.FinishClose? then u.deposit else c.deposit)
      && next.value.finalized == (if u.Refresh? then u.finalized else u.FinishClose? || c.finalized)
      && next.value.closing ==
         if u.BeginClose? then c.closing || !c.finalized
         else if u.AbortClose? then c.closing && c.finalized
         else c.closing && !u.FinishClose?
  {
  }

  lemma OneAmount(u: Updater, c: ChannelState)
    requires Library(u)
    ensures var next := After(u, Some(c));
      && next.Some?
      && next.value.settled == (if Settles(u) && u.settled >= c.settled then u.settled else c.settled)
      && next.value.voucher ==
         if BringsVoucher(u) && u.voucher >= c.voucher then u.voucher else c.voucher
  {
  }

  /**
    Over any sequence of the library's writers the voucher is the highest amount handed in, the
    settlement the highest read, and the deposit the one read last.
   */
  lemma {:induction false} AmountsOverRun(c: ChannelState, us: seq<Updater>)
    requires AllLibrary(us)
    ensures var end := Serial(Some(c), us);
      && end.Some?
      && Highest(end.value.voucher, [c.voucher] + Vouchers(us))
      && Highest(end.value.settled, [c.settled] + Settlements(us))
      && end.value.deposit == Latest(c.deposit, Deposits(us))
  {
    hide After, Library, Highest;
    if us == [] {
      JustOne(c.voucher);
      JustOne(c.settled);
      assert [c.voucher] + [] == [c.voucher] && [c.settled] + [] == [c.settled];
    } else {
      var front, u := us[..|us| - 1], us[|us| - 1];
      AmountsOverRun(c, front);
      var before := Serial(Some(c), front).value;
      OneAmount(u, before);
      OneMark(u, before);
      HighestNext(before.voucher, [c.voucher], Vouchers(front), if BringsVoucher(u) then [u.voucher] else []);
      HighestNext(before.settled, [c.settled], Settlements(front), if Settles(u) then [u.settled] else []);
    }
  }

  lemma HighestNext(x: nat, start: seq<nat>, amounts: seq<nat>, more: seq<nat>)
    requires Highest(x, start + amounts) && |more| <= 1
    ensures Highest(if more != [] && more[0] >= x then more[0] else x, start + (amounts + more))
  {
    hide Highest;
    assert start + (amounts + more) == start + amounts + more;
    if more == [] {
      assert start + amounts + more == start + amounts;
    } else {
      HighestMore(x, start + amounts, more[0]);
      assert more == [more[0]];
    }
  }

  lemma JustOne(x: nat)
    ensures Highest(x, [x])
  {
  }

  /** The same of the two flags that close a channel. */
  lemma {:induction false} FlagsOverRun(c: ChannelState, us: seq<Updater>)
    requires AllLibrary(us)
    ensures var end := Serial(Some(c), us);
      && end.Some?
      && end.value.finalized == Latest(c.finalized, Finalities(us))
      && end.value.closing == Latest(c.closing, Closings(c, us))
  {
    hide After, Library;
    if us != [] {
      var front, u := us[..|us| - 1], us[|us| - 1];
      FlagsOverRun(c, front);
      OneMark(u, Serial(Some(c), front).value);
    }
  }

  lemma {:induction false} SerialSplits(start: Option<ChannelState>, us: seq<Updater>, k: nat)
    requires k <= |us|
    ensures Serial(start, us) == Serial(Serial(start, us[..k]), us[k..])
  {
    hide After;
    if k == |us| {
      assert us[..k] == us;
    } else {
      var n := |us| - 1;
      SerialSplits(start, us[..n], k);
      assert us[..n][..k] == us[..k] && us[..n][k..] == us[k..][..n - k];
    }
  }

  /** Without a channel nothing but an open takes effect. */
  lemma {:induction false} NoChannel(us: seq<Updater>)
    requires AllLibrary(us) && forall i :: 0 <= i < |us| ==> !us[i].Open?
    ensures Serial(None, us) == None
  {
    if us != [] {
      NoChannel(us[..|us| - 1]);
    }
  }

  /**
    The first open makes the channel: with the amounts it brings, nothing spent beyond the
    settlement, no units, and open. From there on the laws above hold of what the later writers bring.
   */
  lemma FirstOpen(us: seq<Updater>, k: nat)
    requires AllLibrary(us) && k < |us| && us[k].Open? && forall i :: 0 <= i < k ==> !us[i].Open?
    ensures var made, rest := Serial(None, us[..k + 1]), us[k + 1..];
      && made == Some(ChannelState(us[k].deposit, us[k].voucher, us[k].settled, us[k].settled, 0, false, false))
      && Serial(None, us) == Serial(made, rest)
      && Serial(None, us).Some?
      && var end, paid := Serial(None, us).value, Paid(made, rest);
         && Highest(end.voucher, [us[k].voucher] + Vouchers(rest))
         && Highest(end.settled, [us[k].settled] + Settlements(rest))
         && end.deposit == Latest(us[k].deposit, Deposits(rest))
         && end.units == |paid|
         && end.spent == us[k].settled + Sum(paid) + Raises(made, rest)
  {
    var rest := us[k + 1..];
    NoChannel(us[..k]);
    assert us[..k + 1][..k] == us[..k];
    SerialSplits(None, us, k + 1);
    var made := Serial(None, us[..k + 1]).value;
    forall i | 0 <= i < |rest| ensures Known(rest[i]) && !Removes(rest[i]) { LibraryKeeps(rest[i]); }
    hide Serial, Known, Removes, Highest, Raises, Paid, Vouchers, Settlements, Deposits;
    AmountsOverRun(made, rest);
    BooksBalance(made, rest);
  }

  lemma LibraryKeeps(u: Updater)
    requires Library(u)
    ensures Known(u) && !Removes(u)
  {
    forall c ensures RunUpdater(u, Some(c)) != Ok(None) {}
  }

  /** Which writers are refused, and with what answer. */
  lemma RefusedExactly(u: Updater, current: Option<ChannelState>, e: UpdateError)
    requires Library(u)
    ensures RunUpdater(u, current) == Err(e) <==>
      if current.None? then e == NotFound && !u.Open? && !u.AbortClose? && !u.FinishClose?
      else if current.value.finalized || current.value.closing then e == ChannelClosed && (u.Deduct? || u.BeginClose?)
      else u.Deduct? && current.value.spent + u.amount > current.value.voucher && u.amount > 0
           && e == Insufficient(u.amount, Available(current.value))
  {
  }
}
