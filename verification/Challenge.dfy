/**
  Challenges bound to their contents by a MAC, and their two-tier verification.

  The MAC, the request codec and the timestamp format are parameters. Theorems name what they
  need of them: an ideal (collision-free) MAC, and a codec and format that read back what they write.
 */
module Challenge {
  import opened Prelude
  import opened Text
  import opened Numerals
  import Amount

  datatype Json = Num(n: nat) | Str(s: string) | Flag(b: bool) | Other

  datatype ChargeRequest = ChargeRequest(
    amount: string,
    currency: string,
    recipient: Option<string>,
    description: Option<string>,
    externalId: Option<string>,
    details: Option<map<string, Json>>)

  /** `opaqueData` is the source's `opaque`, `name` its `method`: reserved words here. */
  datatype Challenge = Challenge(
    id: string,
    realm: string,
    name: string,
    intent: string,
    request: string,
    expires: Option<string>,
    description: Option<string>,
    digest: Option<string>,
    opaqueData: Option<string>)

  datatype Echo = Echo(
    id: string,
    realm: string,
    name: string,
    intent: string,
    request: string,
    expires: Option<string>,
    digest: Option<string>,
    opaqueData: Option<string>)

  datatype World = World(
    mac: (string, string) -> string,
    encode: ChargeRequest -> string,
    decode: string -> Option<ChargeRequest>,
    timestamp: string -> Option<int>,
    format: int -> string,
    transfers: ChargeRequest -> Option<seq<string>>)

  /** Under one key, different inputs have different tags. */
  ghost predicate IdealMac(w: World) {
    forall key, a, b :: w.mac(key, a) == w.mac(key, b) ==> a == b
  }

  /** What is encoded or formatted can be read back. */
  ghost predicate ReadsBack(w: World) {
    (forall r :: w.decode(w.encode(r)) == Some(r)) && (forall t :: w.timestamp(w.format(t)) == Some(t))
  }

  function OrEmpty(s: Option<string>): string { match s case None => "" case Some(t) => t }

  function MacFields(
    realm: string, name: string, intent: string, request: string,
    expires: Option<string>, digest: Option<string>, opaqueData: Option<string>): seq<string>
  {
    [realm, name, intent, request, OrEmpty(expires), OrEmpty(digest), OrEmpty(opaqueData)]
  }

  function ComputeId(
    w: World, secret: string, realm: string, name: string, intent: string, request: string,
    expires: Option<string>, digest: Option<string>, opaqueData: Option<string>): string
  {
    w.mac(secret, Join(MacFields(realm, name, intent, request, expires, digest, opaqueData), "|"))
  }

  /** `to_echo` */
  function ToEcho(c: Challenge): Echo {
    Echo(c.id, c.realm, c.name, c.intent, c.request, c.expires, c.digest, c.opaqueData)
  }

  /** The invariant of issued challenges; `PaymentChallenge::verify` evaluates it. */
  predicate Bound(w: World, secret: string, c: Challenge) {
    c.id == ComputeId(w, secret, c.realm, c.name, c.intent, c.request, c.expires, c.digest, c.opaqueData)
  }

  /** The text under the MAC: all seven fields in this order, whether or not the last three are there. */
  lemma MacInput(
    w: World, secret: string, realm: string, name: string, intent: string, request: string,
    expires: Option<string>, digest: Option<string>, opaqueData: Option<string>)
    ensures ComputeId(w, secret, realm, name, intent, request, expires, digest, opaqueData)
      == w.mac(secret, realm + "|" + name + "|" + intent + "|" + request + "|"
               + (if expires.Some? then expires.value else "") + "|"
               + (if digest.Some? then digest.value else "") + "|"
               + if opaqueData.Some? then opaqueData.value else "")
  {
    hide Join;
    var fields := MacFields(realm, name, intent, request, expires, digest, opaqueData);
    JoinSeven(fields);
  }

  lemma JoinSeven(f: seq<string>)
    requires |f| == 7
    ensures Join(f, "|") == f[0] + "|" + f[1] + "|" + f[2] + "|" + f[3] + "|" + f[4] + "|" + f[5] + "|" + f[6]
  {
    JoinConcat(f[..6], f[6..], "|");
    JoinConcat(f[..5], f[5..6], "|");
    JoinConcat(f[..4], f[4..5], "|");
    JoinConcat(f[..3], f[3..4], "|");
    JoinConcat(f[..2], f[2..3], "|");
    JoinConcat(f[..1], f[1..2], "|");
    assert f == f[..6] + f[6..] && f[..6] == f[..5] + f[5..6] && f[..5] == f[..4] + f[4..5];
    assert f[..4] == f[..3] + f[3..4] && f[..3] == f[..2] + f[2..3] && f[..2] == f[..1] + f[1..2];
  }

  /** The comparison that looks at every byte whatever it finds. */
  method ConstantTimeEq(a: seq<bv8>, b: seq<bv8>) returns (equal: bool)
    ensures equal <==> a == b
  {
    if |a| != |b| {
      return false;
    }
    var result: bv8 := 0;
    for i := 0 to |a|
      invariant result == 0 <==> a[..i] == b[..i]
    {
      assert a[..i + 1] == a[..i] + [a[i]] && b[..i + 1] == b[..i] + [b[i]];
      OrXorZero(result, a[i], b[i]);
      result := result | (a[i] ^ b[i]);
    }
    assert a[..|a|] == a && b[..|b|] == b;
    return result == 0;
  }

  lemma OrXorZero(r: bv8, x: bv8, y: bv8)
    ensures (r | (x ^ y)) == 0 <==> r == 0 && x == y
  {
  }

  // ---------------------------------------------------------------- the pipe join

  function Pipes(s: string): nat {
    if s == "" then 0 else (if s[0] == '|' then 1 else 0) + Pipes(s[1..])
  }

  lemma {:induction false} PipesConcat(a: string, b: string)
    ensures Pipes(a + b) == Pipes(a) + Pipes(b)
  {
    if a == "" {
      assert a + b == b;
    } else {
      PipesConcat(a[1..], b);
      assert (a + b)[1..] == a[1..] + b;
    }
  }

  lemma {:induction false} NoPipes(s: string)
    ensures Pipes(s) == 0 <==> '|' !in s
  {
    if s != "" {
      NoPipes(s[1..]);
      assert s == [s[0]] + s[1..];
    }
  }

  predicate PipeFree(fields: seq<string>) { forall i :: 0 <= i < |fields| ==> '|' !in fields[i] }

  /** A join has one pipe per gap and those of its fields. */
  lemma {:induction false} PipesJoin(fields: seq<string>)
    requires fields != []
    ensures Pipes(Join(fields, "|")) >= |fields| - 1
    ensures Pipes(Join(fields, "|")) == |fields| - 1 <==> PipeFree(fields)
  {
    NoPipes(fields[0]);
    if |fields| > 1 {
      PipesJoin(fields[1..]);
      PipesConcat(fields[0] + "|", Join(fields[1..], "|"));
      PipesConcat(fields[0], "|");
      assert "|"[1..] == "";
      assert PipeFree(fields) <==> '|' !in fields[0] && PipeFree(fields[1..]) by {
        assert forall i :: 1 <= i < |fields| ==> fields[i] == fields[1..][i - 1];
      }
    }
  }

  /**
    Two lists of equal length with the same join are equal when one of them has no pipe in a
    field: the other cannot have one either, or its join would hold more pipes.
   */
  lemma JoinInjective(a: seq<string>, b: seq<string>)
    requires |a| == |b| > 0 && PipeFree(a)
    requires Join(a, "|") == Join(b, "|")
    ensures a == b
  {
    PipesJoin(a);
    PipesJoin(b);
    SplitJoin(a, '|');
    SplitJoin(b, '|');
  }

  lemma JoinTwo(p: string, q: string, rest: seq<string>)
    ensures Join([p] + ([q] + rest), "|") == (p + "|" + q) + if rest == [] then "" else "|" + Join(rest, "|")
  {
    JoinCons(p, [q] + rest, "|");
    if rest == [] {
      assert [q] + rest == [q];
    } else {
      JoinCons(q, rest, "|");
      assert p + "|" + (q + "|" + Join(rest, "|")) == (p + "|" + q) + ("|" + Join(rest, "|"));
    }
  }

  /** Moving the border between two neighbours leaves the join as it is. */
  lemma {:induction false} JoinNeighbours(a: seq<string>, i: nat, p: string, q: string)
    requires i + 1 < |a| && p + "|" + q == a[i] + "|" + a[i + 1]
    ensures Join(a[i := p][i + 1 := q], "|") == Join(a, "|")
  {
    hide Join;
    var b := a[i := p][i + 1 := q];
    if i > 0 {
      assert b[1..] == a[1..][i - 1 := p][i := q];
      JoinNeighbours(a[1..], i - 1, p, q);
      assert a == [a[0]] + a[1..] && b == [a[0]] + b[1..];
      JoinCons(a[0], a[1..], "|");
      JoinCons(a[0], b[1..], "|");
    } else {
      var rest := a[2..];
      assert a == [a[0]] + ([a[1]] + rest) && b == [p] + ([q] + rest);
      JoinTwo(a[0], a[1], rest);
      JoinTwo(p, q, rest);
    }
  }

  /** A pipe in a field lets its rest move to a neighbour. */
  lemma PipeMoves(a: seq<string>) returns (b: seq<string>)
    requires |a| >= 2 && !PipeFree(a)
    ensures |b| == |a| && b != a && Join(b, "|") == Join(a, "|")
  {
    hide Join, Find;
    var i :| 0 <= i < |a| && '|' in a[i];
    var k := Find(a[i], '|').value;
    var x, y := a[i][..k], a[i][k + 1..];
    assert a[i] == x + "|" + y;
    if i + 1 < |a| {
      b := a[i := x][i + 1 := y + "|" + a[i + 1]];
      assert x + "|" + (y + "|" + a[i + 1]) == a[i] + "|" + a[i + 1];
      JoinNeighbours(a, i, x, y + "|" + a[i + 1]);
      assert |b[i]| < |a[i]|;
    } else {
      b := a[i - 1 := a[i - 1] + "|" + x][i := y];
      assert a[i - 1] + "|" + x + "|" + y == a[i - 1] + "|" + a[i];
      JoinNeighbours(a, i - 1, a[i - 1] + "|" + x, y);
      assert |b[i]| < |a[i]|;
    }
  }

  /** The join determines its fields, their number given, exactly when no field holds a pipe. */
  lemma JoinExactly(a: seq<string>)
    requires |a| >= 2
    ensures (forall b :: |b| == |a| && Join(b, "|") == Join(a, "|") ==> b == a) <==> PipeFree(a)
  {
    hide Join;
    if PipeFree(a) {
      forall b | |b| == |a| && Join(b, "|") == Join(a, "|") ensures b == a { JoinInjective(a, b); }
    } else {
      var b := PipeMoves(a);
    }
  }

  // ---------------------------------------------------------------- verification

  datatype VerifyError = Mismatch | Undecodable | BadTimestamp | ExpiredChallenge | InvalidCredential

  datatype Handler = Handler(
    name: string,
    realm: string,
    secret: string,
    currency: Option<string>,
    recipient: Option<string>,
    decimals: nat,
    feePayer: bool,
    chainId: Option<nat>,
    opaqueData: Option<string>)

  /** `None` is success. */
  type Verdict = Option<VerifyError>

  function VerifyMacAndExpiry(w: World, h: Handler, e: Echo, now: int): Verdict {
    if e.id != ComputeId(w, h.secret, h.realm, e.name, e.intent, e.request, e.expires, e.digest, e.opaqueData)
    then Some(Mismatch)
    else if e.expires.None? then Some(Mismatch)
    else
      match w.timestamp(e.expires.value)
      case None => Some(BadTimestamp)
      case Some(at) => if at <= now then Some(ExpiredChallenge) else None
  }

  function VerifyOpaque(h: Handler, e: Echo): Verdict {
    if e.opaqueData != h.opaqueData then Some(Mismatch) else None
  }

  function ChainIdText(details: Option<map<string, Json>>): Option<string> {
    if details.None? || "chainId" !in details.value then None
    else
      match details.value["chainId"]
      case Num(n) => Some(ToDecimal(n))
      case Str(s) => Some(s)
      case _ => None
  }

  function VerifyPinned(h: Handler, e: Echo, request: ChargeRequest): Verdict {
    if e.name != h.name then Some(Mismatch)
    else if !EqIgnoreCase(e.intent, "charge") then Some(Mismatch)
    else if e.realm != h.realm then Some(Mismatch)
    else if VerifyOpaque(h, e).Some? then VerifyOpaque(h, e)
    else if h.currency.Some? && request.currency != h.currency.value then Some(Mismatch)
    else if h.recipient.Some? && request.recipient != h.recipient then Some(Mismatch)
    else if h.chainId.Some? && ChainIdText(request.details) != Some(ToDecimal(h.chainId.value)) then Some(Mismatch)
    else None
  }

  /** Both tiers of `verify`, before the payment method itself is asked. */
  function Verify(w: World, h: Handler, e: Echo, request: ChargeRequest, now: int): Verdict {
    var tier1 := VerifyMacAndExpiry(w, h, e, now);
    if tier1.Some? then tier1 else VerifyPinned(h, e, request)
  }

  function VerifyCredential(w: World, h: Handler, e: Echo, now: int): Verdict {
    match w.decode(e.request)
    case None => Some(Undecodable)
    case Some(request) => Verify(w, h, e, request, now)
  }

  function VerifyExpected(w: World, h: Handler, e: Echo, expected: ChargeRequest, now: int): Verdict {
    match w.decode(e.request)
    case None => Some(Undecodable)
    case Some(request) =>
      if request.amount != expected.amount then Some(Mismatch)
      else if request.currency != expected.currency then Some(Mismatch)
      else if request.recipient != expected.recipient then Some(Mismatch)
      else if e.name == "tempo" && w.transfers(request).None? then Some(InvalidCredential)
      else if e.name == "tempo" && w.transfers(expected).None? then Some(InvalidCredential)
      else if e.name == "tempo" && w.transfers(request) != w.transfers(expected) then Some(Mismatch)
      else Verify(w, h, e, request, now)
  }

  // ---------------------------------------------------------------- issuing

  datatype Options = Options(
    description: Option<string>,
    externalId: Option<string>,
    expires: Option<string>,
    feePayer: bool,
    metadata: bool)

  datatype IssueError = NotConfigured | BadAmount(e: Amount.AmountError) | BadTransfers

  const FIVE_MINUTES: int := 300_000_000_000

  /** The given expiry, or five minutes from now. */
  function ExpiresText(w: World, given: Option<string>, now: int): string {
    match given case Some(e) => e case None => w.format(now + FIVE_MINUTES)
  }

  function ApplyPinnedOpaque(w: World, h: Handler, c: Challenge): Challenge {
    if h.opaqueData.None? then c
    else
      c.(id := ComputeId(w, h.secret, c.realm, c.name, c.intent, c.request, c.expires, c.digest, h.opaqueData),
         opaqueData := h.opaqueData)
  }

  /** A charge challenge of `name` for `request`, its id computed without opaque, then re-stamped. */
  function IssueCharge(w: World, h: Handler, name: string, request: ChargeRequest, o: Options, now: int): Challenge {
    var raw := w.encode(request);
    var expires := Some(ExpiresText(w, o.expires, now));
    ApplyPinnedOpaque(w, h, Challenge(
      ComputeId(w, h.secret, h.realm, name, "charge", raw, expires, None, None),
      h.realm, name, "charge", raw, expires, o.description, None, None))
  }

  function TempoDetails(h: Handler, o: Options): Option<map<string, Json>> {
    var fee := if o.feePayer || h.feePayer then map["feePayer" := Flag(true)] else map[];
    var details := if h.chainId.Some? then fee["chainId" := Num(h.chainId.value)] else fee;
    if details == map[] then None else Some(details)
  }

  function TempoRequest(h: Handler, units: string, o: Options): ChargeRequest
    requires h.currency.Some?
  {
    ChargeRequest(units, h.currency.value, h.recipient, o.description, o.externalId, TempoDetails(h, o))
  }

  function ChargeWithOptions(w: World, h: Handler, amount: string, o: Options, now: int)
    : Result<Challenge, IssueError>
  {
    if h.currency.None? || h.recipient.None? then Err(NotConfigured)
    else
      match Amount.ParseDollarAmount(amount, h.decimals)
      case Err(e) => Err(BadAmount(e))
      case Ok(units) =>
        var request := TempoRequest(h, units, o);
        if w.transfers(request).None? then Err(BadTransfers)
        else Ok(IssueCharge(w, h, "tempo", request, o, now))
  }

  function StripeDetails(o: Options): map<string, Json> {
    var base := map["networkId" := Other, "paymentMethodTypes" := Other];
    if o.metadata then base["metadata" := Other] else base
  }

  function StripeRequest(h: Handler, units: string, o: Options): ChargeRequest {
    ChargeRequest(units, if h.currency.Some? then h.currency.value else "usd",
                  None, o.description, o.externalId, Some(StripeDetails(o)))
  }

  function StripeChargeWithOptions(w: World, h: Handler, amount: string, o: Options, now: int)
    : Result<Challenge, IssueError>
  {
    match Amount.ParseDollarAmount(amount, h.decimals)
    case Err(e) => Err(BadAmount(e))
    case Ok(units) => Ok(IssueCharge(w, h, "stripe", StripeRequest(h, units, o), o, now))
  }

  // ---------------------------------------------------------------- what was issued verifies

  /** Re-stamping re-establishes the id invariant and pins exactly the configured opaque. */
  lemma PinnedOpaqueRebinds(w: World, h: Handler, c: Challenge)
    requires Bound(w, h.secret, c) && c.opaqueData.None?
    ensures Bound(w, h.secret, ApplyPinnedOpaque(w, h, c))
    ensures ApplyPinnedOpaque(w, h, c).opaqueData == h.opaqueData
    ensures ApplyPinnedOpaque(w, h, c).(id := c.id, opaqueData := None) == c
  {
    hide ComputeId;
  }

  /** Not expired at `now`, as the verifier reads the text. */
  predicate Live(w: World, expires: Option<string>, now: int) {
    expires.Some? && w.timestamp(expires.value).Some? && w.timestamp(expires.value).value > now
  }

  /** An issued challenge, echoed, passes tier 1 exactly while it is live. */
  lemma IssuedPassesTier1(w: World, h: Handler, name: string, request: ChargeRequest, o: Options, issued: int, now: int)
    ensures var c := IssueCharge(w, h, name, request, o, issued);
      && Bound(w, h.secret, c)
      && c.name == name && c.intent == "charge" && c.realm == h.realm && c.opaqueData == h.opaqueData
      && c.request == w.encode(request)
      && (VerifyMacAndExpiry(w, h, ToEcho(c), now).None? <==> Live(w, c.expires, now))
  {
    hide Join;
  }

  /** The chain a Tempo request names is the one its handler binds. */
  lemma TempoChainBound(h: Handler, units: string, o: Options)
    requires h.currency.Some? && h.chainId.Some?
    ensures ChainIdText(TempoRequest(h, units, o).details) == Some(ToDecimal(h.chainId.value))
  {
    hide ToDecimal;
    var fee := if o.feePayer || h.feePayer then map["feePayer" := Flag(true)] else map[];
    assert "chainId" in fee["chainId" := Num(h.chainId.value)];
  }

  /** A bound Tempo route accepts what it issued exactly when its method is named "tempo" and the challenge is live. */
  lemma TempoChargeVerifies(w: World, h: Handler, amount: string, o: Options, issued: int, now: int)
    requires ReadsBack(w)
    ensures match ChargeWithOptions(w, h, amount, o, issued)
      case Err(_) => true
      case Ok(c) => VerifyCredential(w, h, ToEcho(c), now).None? <==> h.name == "tempo" && Live(w, c.expires, now)
  {
    hide Amount.ParseDollarAmount, Join, ToDecimal, TempoDetails, ChainIdText;
    if ChargeWithOptions(w, h, amount, o, issued).Ok? {
      var units := Amount.ParseDollarAmount(amount, h.decimals).value;
      var request := TempoRequest(h, units, o);
      IssuedPassesTier1(w, h, "tempo", request, o, issued, now);
      assert w.decode(w.encode(request)) == Some(request);
      if h.chainId.Some? { TempoChainBound(h, units, o); }
    }
  }

  /**
    A Stripe route accepts what it issued exactly when it binds neither a recipient nor a chain:
    its challenges carry neither. `create_stripe` binds neither.
   */
  lemma StripeChargeVerifies(w: World, h: Handler, amount: string, o: Options, issued: int, now: int)
    requires ReadsBack(w)
    ensures match StripeChargeWithOptions(w, h, amount, o, issued)
      case Err(_) => true
      case Ok(c) =>
        VerifyCredential(w, h, ToEcho(c), now).None?
        <==> h.name == "stripe" && h.recipient.None? && h.chainId.None? && Live(w, c.expires, now)
  {
    hide Amount.ParseDollarAmount, Join, ToDecimal;
    if StripeChargeWithOptions(w, h, amount, o, issued).Ok? {
      var request := StripeRequest(h, Amount.ParseDollarAmount(amount, h.decimals).value, o);
      IssuedPassesTier1(w, h, "stripe", request, o, issued, now);
      assert w.decode(w.encode(request)) == Some(request);
      assert ChainIdText(request.details).None?;
    }
  }

  /** Default expiry: live for the five minutes after issue, and no longer. */
  lemma DefaultExpiryWindow(
    w: World, h: Handler, name: string, request: ChargeRequest, o: Options, issued: int, now: int)
    requires ReadsBack(w) && o.expires.None?
    ensures Live(w, IssueCharge(w, h, name, request, o, issued).expires, now) <==> now < issued + FIVE_MINUTES
  {
    hide ComputeId;
    assert w.timestamp(w.format(issued + FIVE_MINUTES)) == Some(issued + FIVE_MINUTES);
  }

  /**
    A Stripe credential bought for `paid` is accepted on a route that expects `expected` dollars,
    in its own currency and without recipient, exactly when the two texts have the same value.
   */
  lemma StripeAmountEnforced(
    w: World, h: Handler, paid: string, expected: string, o: Options, o': Options, issued: int, now: int)
    requires ReadsBack(w)
    requires h.name == "stripe" && h.recipient.None? && h.chainId.None?
    requires Amount.Accepted(paid, h.decimals) && Amount.Accepted(expected, h.decimals)
    ensures StripeChargeWithOptions(w, h, paid, o, issued).Ok?
    ensures Amount.ParseDollarAmount(expected, h.decimals).Ok?
    ensures var c := StripeChargeWithOptions(w, h, paid, o, issued).value;
      var wanted := StripeRequest(h, Amount.ParseDollarAmount(expected, h.decimals).value, o');
      Live(w, c.expires, now) ==>
        (VerifyExpected(w, h, ToEcho(c), wanted, now).None?
         <==> SameValue(Trim(paid), Trim(expected)))
  {
    hide Amount.ParseDollarAmount, Scaled, IsDecimal, Trim, Join, ToDecimal, StripeDetails;
    Amount.ParseMeaning(paid, h.decimals);
    Amount.ParseMeaning(expected, h.decimals);
    Amount.EqualValueEqualText(paid, expected, h.decimals);
    var request := StripeRequest(h, Amount.ParseDollarAmount(paid, h.decimals).value, o);
    IssuedPassesTier1(w, h, "stripe", request, o, issued, now);
    assert w.decode(w.encode(request)) == Some(request);
  }

  /** Likewise on a Tempo route that expects `expected` dollars under the same options. */
  lemma TempoAmountEnforced(
    w: World, h: Handler, paid: string, expected: string, o: Options, issued: int, now: int)
    requires ReadsBack(w)
    requires h.name == "tempo" && h.currency.Some?
    requires Amount.Accepted(paid, h.decimals) && Amount.Accepted(expected, h.decimals)
    ensures Amount.ParseDollarAmount(expected, h.decimals).Ok?
    ensures match ChargeWithOptions(w, h, paid, o, issued)
      case Err(_) => true
      case Ok(c) =>
        var wanted := TempoRequest(h, Amount.ParseDollarAmount(expected, h.decimals).value, o);
        Live(w, c.expires, now) ==>
          (VerifyExpected(w, h, ToEcho(c), wanted, now).None?
           <==> SameValue(Trim(paid), Trim(expected)))
  {
    hide Amount.ParseDollarAmount, Scaled, IsDecimal, Trim, Join, ToDecimal, TempoDetails, ChainIdText;
    Amount.ParseMeaning(paid, h.decimals);
    Amount.ParseMeaning(expected, h.decimals);
    Amount.EqualValueEqualText(paid, expected, h.decimals);
    var units := Amount.ParseDollarAmount(paid, h.decimals).value;
    var request := TempoRequest(h, units, o);
    IssuedPassesTier1(w, h, "tempo", request, o, issued, now);
    assert w.decode(w.encode(request)) == Some(request);
    if h.chainId.Some? { TempoChainBound(h, units, o); }
  }

  // ---------------------------------------------------------------- what an issued challenge says

  /** A handler issues exactly for accepted amounts, and the request says what the handler binds and the options ask. */
  lemma TempoIssues(w: World, h: Handler, amount: string, o: Options, now: int)
    requires ReadsBack(w)
    ensures var r := ChargeWithOptions(w, h, amount, o, now);
      && (r.Ok? ==> h.currency.Some? && h.recipient.Some? && Amount.Accepted(amount, h.decimals))
      && (h.currency.Some? && h.recipient.Some? && Amount.Accepted(amount, h.decimals) && r.Err? ==>
            r.error == BadTransfers)
    ensures match ChargeWithOptions(w, h, amount, o, now)
      case Err(_) => true
      case Ok(c) =>
        && c.description == o.description && c.digest.None?
        && c.expires == Some(match o.expires case Some(e) => e case None => w.format(now + FIVE_MINUTES))
        && var q := w.decode(c.request);
           q.Some? && w.transfers(q.value).Some?
           && q.value.amount == ToDecimal(Scaled(Trim(amount), h.decimals))
           && Some(q.value.currency) == h.currency && q.value.recipient == h.recipient
           && q.value.description == o.description && q.value.externalId == o.externalId
           && FieldOf(q.value.details, "feePayer") == (if o.feePayer || h.feePayer then Some(Flag(true)) else None)
           && FieldOf(q.value.details, "chainId") == (if h.chainId.Some? then Some(Num(h.chainId.value)) else None)
  {
    hide Amount.ParseDollarAmount, Amount.Accepted, Trim, Join, ToDecimal, Scaled, TempoDetails;
    Amount.ParseMeaning(amount, h.decimals);
    if ChargeWithOptions(w, h, amount, o, now).Ok? {
      var request := TempoRequest(h, Amount.ParseDollarAmount(amount, h.decimals).value, o);
      assert w.decode(w.encode(request)) == Some(request);
      DetailsSay(h, o);
    }
  }

  /** The same of the other kind of handler: no recipient, and dollars unless a currency is bound. */
  lemma StripeIssues(w: World, h: Handler, amount: string, o: Options, now: int)
    requires ReadsBack(w)
    ensures StripeChargeWithOptions(w, h, amount, o, now).Ok? <==> Amount.Accepted(amount, h.decimals)
    ensures match StripeChargeWithOptions(w, h, amount, o, now)
      case Err(_) => true
      case Ok(c) =>
        && c.description == o.description && c.digest.None?
        && c.expires == Some(match o.expires case Some(e) => e case None => w.format(now + FIVE_MINUTES))
        && var q := w.decode(c.request);
           q.Some? && q.value.amount == ToDecimal(Scaled(Trim(amount), h.decimals))
           && q.value.currency == (match h.currency case Some(x) => x case None => "usd") && q.value.recipient == None
           && q.value.description == o.description && q.value.externalId == o.externalId
           && FieldOf(q.value.details, "networkId").Some? && FieldOf(q.value.details, "paymentMethodTypes").Some?
           && (FieldOf(q.value.details, "metadata").Some? <==> o.metadata)
  {
    hide Amount.ParseDollarAmount, Amount.Accepted, Trim, Join, ToDecimal, Scaled;
    Amount.ParseMeaning(amount, h.decimals);
    if StripeChargeWithOptions(w, h, amount, o, now).Ok? {
      var request := StripeRequest(h, Amount.ParseDollarAmount(amount, h.decimals).value, o);
      assert w.decode(w.encode(request)) == Some(request);
    }
  }

  function FieldOf(details: Option<map<string, Json>>, field: string): Option<Json> {
    if details.Some? && field in details.value then Some(details.value[field]) else None
  }

  lemma DetailsSay(h: Handler, o: Options)
    ensures FieldOf(TempoDetails(h, o), "feePayer") == (if o.feePayer || h.feePayer then Some(Flag(true)) else None)
    ensures FieldOf(TempoDetails(h, o), "chainId") == (if h.chainId.Some? then Some(Num(h.chainId.value)) else None)
  {
    var fee := if o.feePayer || h.feePayer then map["feePayer" := Flag(true)] else map[];
    var details := if h.chainId.Some? then fee["chainId" := Num(h.chainId.value)] else fee;
    assert details == map[] ==> "feePayer" !in details && "chainId" !in details;
  }

  // ---------------------------------------------------------------- across routes

  /** Two handlers with one secret that agree on all that does not depend on the request. */
  predicate SameRoute(h1: Handler, h2: Handler, name: string) {
    h2.name == name && h2.realm == h1.realm && h2.opaqueData == h1.opaqueData
  }

  /** The request names chain `id`, as a number or as its numeral. */
  predicate NamesChain(details: Option<map<string, Json>>, id: nat) {
    FieldOf(details, "chainId") == Some(Num(id)) || FieldOf(details, "chainId") == Some(Str(ToDecimal(id)))
  }

  lemma ChainIdTextMeaning(details: Option<map<string, Json>>, id: nat)
    ensures ChainIdText(details) == Some(ToDecimal(id)) <==> NamesChain(details, id)
  {
    hide ToDecimal;
    if FieldOf(details, "chainId").Some? {
      match FieldOf(details, "chainId").value
      case Num(n) => assert Value(ToDecimal(n)) == n && Value(ToDecimal(id)) == id;
      case _ =>
    }
  }

  /**
    What one route issues another of the same secret accepts exactly if it has the same name, realm
    and opaque, whatever it binds of currency, recipient and chain is what the request says, and the
    challenge is live.
   */
  lemma AcceptedAcross(
    w: World, h1: Handler, h2: Handler, name: string, request: ChargeRequest, o: Options, issued: int, now: int)
    requires ReadsBack(w) && h1.secret == h2.secret
    ensures var c := IssueCharge(w, h1, name, request, o, issued);
      VerifyCredential(w, h2, ToEcho(c), now).None?
      <==> SameRoute(h1, h2, name)
           && (h2.currency.Some? ==> h2.currency.value == request.currency)
           && (h2.recipient.Some? ==> h2.recipient == request.recipient)
           && (h2.chainId.Some? ==> NamesChain(request.details, h2.chainId.value))
           && Live(w, c.expires, now)
  {
    hide Join, ToDecimal, NamesChain, ChainIdText, IssueCharge, ComputeId, VerifyMacAndExpiry;
    var c := IssueCharge(w, h1, name, request, o, issued);
    IssuedPassesTier1(w, h1, name, request, o, issued, now);
    assert w.decode(w.encode(request)) == Some(request);
    if h2.chainId.Some? { ChainIdTextMeaning(request.details, h2.chainId.value); }
    if h2.realm == h1.realm {
      Tier1Depends(w, h1, h2, ToEcho(c), now);
    }
  }

  /** Tier 1 looks at a handler's secret and realm only. */
  lemma Tier1Depends(w: World, h1: Handler, h2: Handler, e: Echo, now: int)
    requires h1.secret == h2.secret && h1.realm == h2.realm
    ensures VerifyMacAndExpiry(w, h1, e, now) == VerifyMacAndExpiry(w, h2, e, now)
  {
  }

  /** A Tempo challenge on another route: whatever that binds must be what its issuer binds. */
  lemma TempoAcross(w: World, h1: Handler, h2: Handler, amount: string, o: Options, issued: int, now: int)
    requires ReadsBack(w) && h1.secret == h2.secret
    ensures match ChargeWithOptions(w, h1, amount, o, issued)
      case Err(_) => true
      case Ok(c) =>
        VerifyCredential(w, h2, ToEcho(c), now).None?
        <==> SameRoute(h1, h2, "tempo")
             && (h2.currency.Some? ==> h2.currency == h1.currency)
             && (h2.recipient.Some? ==> h2.recipient == h1.recipient)
             && (h2.chainId.Some? ==> h2.chainId == h1.chainId)
             && Live(w, c.expires, now)
  {
    hide Amount.ParseDollarAmount, Join, ToDecimal, TempoDetails, IssueCharge, VerifyCredential;
    if ChargeWithOptions(w, h1, amount, o, issued).Ok? {
      var units := Amount.ParseDollarAmount(amount, h1.decimals).value;
      AcceptedAcross(w, h1, h2, "tempo", TempoRequest(h1, units, o), o, issued, now);
      DetailsSay(h1, o);
    }
  }

  /** A Stripe challenge on another route: it carries no recipient and no chain, and dollars by default. */
  lemma StripeAcross(w: World, h1: Handler, h2: Handler, amount: string, o: Options, issued: int, now: int)
    requires ReadsBack(w) && h1.secret == h2.secret
    ensures match StripeChargeWithOptions(w, h1, amount, o, issued)
      case Err(_) => true
      case Ok(c) =>
        VerifyCredential(w, h2, ToEcho(c), now).None?
        <==> SameRoute(h1, h2, "stripe")
             && (h2.currency.Some? ==> h2.currency.value == match h1.currency case Some(x) => x case None => "usd")
             && h2.recipient.None? && h2.chainId.None?
             && Live(w, c.expires, now)
  {
    hide Amount.ParseDollarAmount, Join, ToDecimal, IssueCharge, VerifyCredential;
    if StripeChargeWithOptions(w, h1, amount, o, issued).Ok? {
      var request := StripeRequest(h1, Amount.ParseDollarAmount(amount, h1.decimals).value, o);
      AcceptedAcross(w, h1, h2, "stripe", request, o, issued, now);
      assert "chainId" !in request.details.value;
    }
  }

  /** A route that expects a request accepts exactly the credentials it would anyway whose request agrees with it. */
  lemma ExpectedAcross(
    w: World, h1: Handler, h2: Handler, name: string, request: ChargeRequest, expected: ChargeRequest,
    o: Options, issued: int, now: int)
    requires ReadsBack(w) && h1.secret == h2.secret
    ensures var e := ToEcho(IssueCharge(w, h1, name, request, o, issued));
      VerifyExpected(w, h2, e, expected, now).None?
      <==> VerifyCredential(w, h2, e, now).None?
           && expected.amount == request.amount && expected.currency == request.currency
           && expected.recipient == request.recipient
           && (name == "tempo" ==> w.transfers(request).Some? && w.transfers(expected) == w.transfers(request))
  {
    hide Verify, ComputeId, ExpiresText;
    assert w.decode(w.encode(request)) == Some(request);
  }

  /**
    A credential passes both tiers exactly if it passes each single check, and is told that its expiry
    has passed or is unreadable exactly if that is why; any other failure is a mismatch.
   */
  lemma VerifyExactly(w: World, h: Handler, e: Echo, request: ChargeRequest, now: int)
    ensures var id := ComputeId(w, h.secret, h.realm, e.name, e.intent, e.request, e.expires, e.digest, e.opaqueData);
      && (Verify(w, h, e, request, now).None?
          <==> e.id == id && Live(w, e.expires, now)
               && e.name == h.name && Lower(e.intent) == "charge" && e.realm == h.realm && e.opaqueData == h.opaqueData
               && (h.currency.Some? ==> h.currency.value == request.currency)
               && (h.recipient.Some? ==> h.recipient == request.recipient)
               && (h.chainId.Some? ==> NamesChain(request.details, h.chainId.value)))
      && (Verify(w, h, e, request, now) == Some(ExpiredChallenge)
          <==> e.id == id && e.expires.Some? && w.timestamp(e.expires.value).Some? && !Live(w, e.expires, now))
      && (Verify(w, h, e, request, now) == Some(BadTimestamp)
          <==> e.id == id && e.expires.Some? && w.timestamp(e.expires.value).None?)
      && Verify(w, h, e, request, now) != Some(Undecodable)
      && Verify(w, h, e, request, now) != Some(InvalidCredential)
  {
    hide Join, ToDecimal, NamesChain, ChainIdText, ComputeId;
    LowerCharge();
    if h.chainId.Some? { ChainIdTextMeaning(request.details, h.chainId.value); }
  }

  /** An unreadable request is reported as such, and so is one whose transfers or the expected ones are malformed. */
  lemma MalformedExactly(w: World, h: Handler, e: Echo, expected: ChargeRequest, now: int)
    ensures (VerifyExpected(w, h, e, expected, now) == Some(Undecodable)) <==> w.decode(e.request).None?
    ensures (VerifyCredential(w, h, e, now) == Some(Undecodable)) <==> w.decode(e.request).None?
    ensures VerifyExpected(w, h, e, expected, now) == Some(InvalidCredential)
      <==> e.name == "tempo" && w.decode(e.request).Some?
           && var request := w.decode(e.request).value;
              request.amount == expected.amount && request.currency == expected.currency
              && request.recipient == expected.recipient
              && (w.transfers(request).None? || w.transfers(expected).None?)
  {
    hide Verify;
    if w.decode(e.request).Some? { VerifyExactly(w, h, e, w.decode(e.request).value, now); }
  }

  lemma LowerCharge()
    ensures Lower("charge") == "charge"
  {
  }

  // ---------------------------------------------------------------- provenance

  function ChallengeFields(c: Challenge): seq<string> {
    MacFields(c.realm, c.name, c.intent, c.request, c.expires, c.digest, c.opaqueData)
  }

  /** Every seven texts are the MAC fields of some challenge bound under `secret`. */
  lemma FieldsOf(w: World, secret: string, fields: seq<string>) returns (d: Challenge)
    requires |fields| == 7
    ensures Bound(w, secret, d) && ChallengeFields(d) == fields
  {
    hide Join;
    var expires, digest, opaqueData := Some(fields[4]), Some(fields[5]), Some(fields[6]);
    var id := ComputeId(w, secret, fields[0], fields[1], fields[2], fields[3], expires, digest, opaqueData);
    d := Challenge(id, fields[0], fields[1], fields[2], fields[3], expires, None, digest, opaqueData);
    assert ChallengeFields(d) == fields;
  }

  /**
    The id of a challenge determines the fields it binds, among all challenges bound under the same
    secret, exactly when none of its seven fields holds a pipe.
   */
  lemma IdDeterminesExactly(w: World, secret: string, c: Challenge)
    requires IdealMac(w) && Bound(w, secret, c)
    ensures (forall d :: Bound(w, secret, d) && d.id == c.id ==> ChallengeFields(d) == ChallengeFields(c))
      <==> PipeFree(ChallengeFields(c))
  {
    hide Join, PipeFree;
    var fields := ChallengeFields(c);
    JoinExactly(fields);
    forall d | Bound(w, secret, d) ensures d.id == c.id <==> Join(ChallengeFields(d), "|") == Join(fields, "|") {
      assert d.id == w.mac(secret, Join(ChallengeFields(d), "|")) && c.id == w.mac(secret, Join(fields, "|"));
    }
    if !PipeFree(fields) {
      var other :| |other| == |fields| && Join(other, "|") == Join(fields, "|") && other != fields;
      var d := FieldsOf(w, secret, other);
      assert ChallengeFields(d) != fields;
    }
  }

  /** `e` repeats `c`, but for the one confusion the MAC input allows: absent against empty. */
  predicate Echoes(e: Echo, c: Challenge) {
    && e.realm == c.realm && e.name == c.name && e.intent == c.intent && e.request == c.request
    && e.expires == c.expires
    && OrEmpty(e.digest) == OrEmpty(c.digest) && OrEmpty(e.opaqueData) == OrEmpty(c.opaqueData)
  }

  /** One accepted credential whose id is that of a known challenge repeats that challenge. */
  lemma AcceptedEchoes(w: World, h: Handler, e: Echo, request: ChargeRequest, now: int, c: Challenge)
    requires IdealMac(w) && w.timestamp("").None?
    requires Bound(w, h.secret, c) && PipeFree(ChallengeFields(c)) && e.id == c.id
    requires Verify(w, h, e, request, now).None?
    ensures Echoes(e, c)
    ensures e.opaqueData == h.opaqueData
  {
    hide Join, ToDecimal, PipeFree;
    var shown := MacFields(h.realm, e.name, e.intent, e.request, e.expires, e.digest, e.opaqueData);
    assert w.mac(h.secret, Join(shown, "|")) == w.mac(h.secret, Join(ChallengeFields(c), "|"));
    JoinInjective(ChallengeFields(c), shown);
    FieldsDetermine(c, shown, e, h);
  }

  lemma FieldsDetermine(c: Challenge, shown: seq<string>, e: Echo, h: Handler)
    requires shown == MacFields(h.realm, e.name, e.intent, e.request, e.expires, e.digest, e.opaqueData)
    requires shown == ChallengeFields(c)
    ensures h.realm == c.realm && e.name == c.name && e.intent == c.intent && e.request == c.request
    ensures OrEmpty(e.expires) == OrEmpty(c.expires)
    ensures OrEmpty(e.digest) == OrEmpty(c.digest) && OrEmpty(e.opaqueData) == OrEmpty(c.opaqueData)
  {
    var f := ChallengeFields(c);
    assert shown[0] == f[0] && shown[1] == f[1] && shown[2] == f[2] && shown[3] == f[3];
    assert shown[4] == f[4] && shown[5] == f[5] && shown[6] == f[6];
  }

  /** A run of any number of issuing and verifying routes. */
  datatype Action =
    | Issue(challenge: Challenge)
    | Present(handler: Handler, echo: Echo, request: ChargeRequest, now: int)

  /**
    All routes share `secret`; issued ids are MACs of pipe-free fields; and whoever presents a
    credential can use no id but one issued before, which is what an unforgeable MAC leaves them.
   */
  ghost predicate IsRun(w: World, secret: string, run: seq<Action>) {
    forall i :: 0 <= i < |run| ==>
      match run[i]
      case Issue(c) => Bound(w, secret, c) && PipeFree(ChallengeFields(c))
      case Present(h, e, _, _) =>
        h.secret == secret && exists j :: 0 <= j < i && run[j].Issue? && run[j].challenge.id == e.id
  }

  /** In every run, an accepted credential repeats a challenge issued earlier in the run. */
  lemma Provenance(w: World, secret: string, run: seq<Action>, i: nat)
    requires IdealMac(w) && w.timestamp("").None?
    requires IsRun(w, secret, run)
    requires i < |run| && run[i].Present?
    requires Verify(w, run[i].handler, run[i].echo, run[i].request, run[i].now).None?
    ensures exists j :: 0 <= j < i && run[j].Issue? && Echoes(run[i].echo, run[j].challenge)
  {
    hide Verify, Bound, PipeFree, Echoes;
    var p := run[i];
    var j :| 0 <= j < i && run[j].Issue? && run[j].challenge.id == p.echo.id;
    AcceptedEchoes(w, p.handler, p.echo, p.request, p.now, run[j].challenge);
  }

  /**
    The opaque of an accepted credential is exactly that of its challenge if and only if the
    accepting route and the challenge agree on whether the empty text is pinned.
   */
  lemma OpaqueExact(w: World, h: Handler, e: Echo, request: ChargeRequest, now: int, c: Challenge)
    requires IdealMac(w) && w.timestamp("").None?
    requires Bound(w, h.secret, c) && PipeFree(ChallengeFields(c)) && e.id == c.id
    requires Verify(w, h, e, request, now).None?
    ensures e.opaqueData == c.opaqueData <==> (h.opaqueData == Some("") <==> c.opaqueData == Some(""))
  {
    hide Verify, Bound, PipeFree;
    AcceptedEchoes(w, h, e, request, now, c);
  }

  /** A route that pins the empty text accepts a credential for a challenge issued without opaque. */
  lemma EmptyOpaqueConfusion(w: World, h: Handler, request: ChargeRequest, o: Options, issued: int, now: int)
    requires ReadsBack(w) && h.opaqueData.None? && h.name == "stripe" && h.recipient.None? && h.chainId.None?
    requires h.currency == Some(request.currency)
    requires Live(w, IssueCharge(w, h, "stripe", request, o, issued).expires, now)
    ensures var c := IssueCharge(w, h, "stripe", request, o, issued);
      c.opaqueData.None?
      && VerifyCredential(w, h.(opaqueData := Some("")), ToEcho(c).(opaqueData := Some("")), now).None?
  {
    hide Join, ToDecimal;
    var c := IssueCharge(w, h, "stripe", request, o, issued);
    IssuedPassesTier1(w, h, "stripe", request, o, issued, now);
    assert w.decode(w.encode(request)) == Some(request);
    assert MacFields(c.realm, c.name, c.intent, c.request, c.expires, c.digest, Some(""))
        == MacFields(c.realm, c.name, c.intent, c.request, c.expires, c.digest, None);
  }
}
