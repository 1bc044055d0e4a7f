/**
  Ranking of server offers by client preferences, and its two users: the server's `compose`
  and the client's challenge selection. A reference into a slice is modelled by its index.
 */
module Ranking {
  import opened Prelude
  import opened AcceptPayment

  datatype Offer = Offer(name: string, intent: string)

  datatype Match = Match(q: nat, specificity: nat, index: nat)

  predicate Matches(offer: Offer, pref: Entry) {
    (pref.name == "*" || pref.name == offer.name) && (pref.intent == "*" || pref.intent == offer.intent)
  }

  /** Exact entries score 2, partial wildcards 1, the full wildcard 0. */
  function Specificity(pref: Entry): nat {
    (if pref.name != "*" then 1 else 0) + (if pref.intent != "*" then 1 else 0)
  }

  function MatchOf(pref: Entry): Match { Match(pref.q, Specificity(pref), pref.index) }

  /** The source's test whether a candidate replaces the best so far. */
  predicate Better(a: Match, b: Match) {
    a.specificity > b.specificity
    || (a.specificity == b.specificity && a.q > b.q)
    || (a.specificity == b.specificity && a.q == b.q && a.index < b.index)
  }

  /** At most as good, lexicographically by specificity, q and earliness. */
  predicate AtMost(a: Match, b: Match) {
    a.specificity < b.specificity
    || (a.specificity == b.specificity && (a.q < b.q || (a.q == b.q && a.index >= b.index)))
  }

  /** `best` is the lexicographically best matching entry, or nothing matches. */
  ghost predicate IsBestMatch(offer: Offer, prefs: seq<Entry>, best: Option<Match>) {
    match best
    case None => forall p :: p in prefs ==> !Matches(offer, p)
    case Some(m) =>
      && (exists p :: p in prefs && Matches(offer, p) && m == MatchOf(p))
      && (forall p :: p in prefs && Matches(offer, p) ==> AtMost(MatchOf(p), m))
  }

  function BestMatch(offer: Offer, prefs: seq<Entry>): (best: Option<Match>)
    ensures IsBestMatch(offer, prefs, best)
  {
    if prefs == [] then None
    else
      var p := prefs[|prefs| - 1];
      var before := BestMatch(offer, prefs[..|prefs| - 1]);
      assert prefs == prefs[..|prefs| - 1] + [p];
      if Matches(offer, p) && (before.None? || Better(MatchOf(p), before.value)) then Some(MatchOf(p)) else before
  }

  lemma BestMatchUnique(offer: Offer, prefs: seq<Entry>, a: Option<Match>, b: Option<Match>)
    requires IsBestMatch(offer, prefs, a) && IsBestMatch(offer, prefs, b)
    ensures a == b
  {
    if a.Some? && b.Some? {
      var p :| p in prefs && Matches(offer, p) && a.value == MatchOf(p);
      var q :| q in prefs && Matches(offer, q) && b.value == MatchOf(q);
      assert AtMost(MatchOf(p), b.value) && AtMost(MatchOf(q), a.value);
    }
  }

  /** The single pass: keep the best candidate so far. */
  method FindBestMatch(offer: Offer, prefs: seq<Entry>) returns (best: Option<Match>)
    ensures IsBestMatch(offer, prefs, best)
    ensures best == BestMatch(offer, prefs)
  {
    best := None;
    for i := 0 to |prefs|
      invariant IsBestMatch(offer, prefs[..i], best)
    {
      assert prefs[..i + 1] == prefs[..i] + [prefs[i]];
      if Matches(offer, prefs[i]) {
        var candidate := MatchOf(prefs[i]);
        if best.None? || Better(candidate, best.value) {
          best := Some(candidate);
        }
      }
    }
    assert prefs[..|prefs|] == prefs;
    BestMatchUnique(offer, prefs, best, BestMatch(offer, prefs));
  }

  /** The q of the best match; no match counts as 0, an explicit opt-out. */
  function Score(offer: Offer, prefs: seq<Entry>): nat {
    match BestMatch(offer, prefs) case None => 0 case Some(m) => m.q
  }

  predicate Exact(offer: Offer, pref: Entry) { pref.name == offer.name && pref.intent == offer.intent }

  predicate Half(offer: Offer, pref: Entry) {
    (pref.name == offer.name && pref.intent == "*") || (pref.name == "*" && pref.intent == offer.intent)
  }

  predicate Full(offer: Offer, pref: Entry) { pref.name == "*" && pref.intent == "*" }

  /** `q` is the best of the entries that stand in this relation to the offer. */
  ghost predicate BestOf(q: nat, offer: Offer, prefs: seq<Entry>, relation: (Offer, Entry) -> bool) {
    && (exists p :: p in prefs && relation(offer, p) && p.q == q)
    && (forall p :: p in prefs && relation(offer, p) ==> p.q <= q)
  }

  ghost predicate Any(offer: Offer, prefs: seq<Entry>, relation: (Offer, Entry) -> bool) {
    exists p :: p in prefs && relation(offer, p)
  }

  /**
    An entry that names the offer's method and intent decides, whatever wildcards say; without one an
    entry with one wildcard does, whatever the full wildcard says; and what nothing matches scores 0.
   */
  lemma ScoreMeaning(offer: Offer, prefs: seq<Entry>)
    ensures var q := Score(offer, prefs);
      if Any(offer, prefs, Exact) then BestOf(q, offer, prefs, Exact)
      else if Any(offer, prefs, Half) then BestOf(q, offer, prefs, Half)
      else if Any(offer, prefs, Full) then BestOf(q, offer, prefs, Full)
      else q == 0
  {
    hide BestMatch, Matches, Exact, Half, Full, MatchOf, AtMost;
    forall p: Entry ensures Matches(offer, p) <==> Tier(offer, p) > 0 { TierMatches(offer, p); }
    var best := BestMatch(offer, prefs);
    if best.Some? {
      var w :| w in prefs && Matches(offer, w) && best.value == MatchOf(w);
      assert best.value.q == w.q by { QOfMatch(w); }
      forall p | p in prefs && Matches(offer, p)
        ensures Tier(offer, p) <= Tier(offer, w) && (Tier(offer, p) == Tier(offer, w) ==> p.q <= w.q)
      {
        TierDecides(offer, p, w);
      }
    }
  }

  /** How closely an entry names the offer; 0 if it does not match. */
  function Tier(offer: Offer, pref: Entry): nat {
    if Exact(offer, pref) then 3 else if Half(offer, pref) then 2 else if Full(offer, pref) then 1 else 0
  }

  lemma TierMatches(offer: Offer, pref: Entry)
    ensures Matches(offer, pref) <==> Tier(offer, pref) > 0
  {
  }

  lemma QOfMatch(pref: Entry)
    ensures MatchOf(pref).q == pref.q
  {
  }

  lemma TierDecides(offer: Offer, p: Entry, w: Entry)
    requires Matches(offer, p) && Matches(offer, w) && AtMost(MatchOf(p), MatchOf(w))
    ensures Tier(offer, p) <= Tier(offer, w) && (Tier(offer, p) == Tier(offer, w) ==> p.q <= w.q)
  {
  }

  function Scores(offers: seq<Offer>, prefs: seq<Entry>): (qs: seq<nat>)
    ensures |qs| == |offers|
    ensures forall i :: 0 <= i < |offers| ==> qs[i] == Score(offers[i], prefs)
  {
    seq(|offers|, i requires 0 <= i < |offers| => Score(offers[i], prefs))
  }

  /** The order of the ranking: q descending, then offer position. */
  predicate Before(qs: seq<nat>, i: nat, j: nat)
    requires i < |qs| && j < |qs|
  {
    qs[i] > qs[j] || (qs[i] == qs[j] && i < j)
  }

  ghost predicate Ordered(qs: seq<nat>, r: seq<nat>) {
    && (forall a :: 0 <= a < |r| ==> r[a] < |qs|)
    && (forall a, b :: 0 <= a < b < |r| ==> Before(qs, r[a], r[b]))
  }

  /** `r` lists exactly the offers with a positive score, in order. */
  ghost predicate IsRanking(qs: seq<nat>, r: seq<nat>) {
    && Ordered(qs, r)
    && (forall i :: i in r <==> 0 <= i < |qs| && qs[i] > 0)
  }

  /** One insertion step of the sort. */
  function Insert(qs: seq<nat>, i: nat, r: seq<nat>): (r': seq<nat>)
    requires i < |qs| && Ordered(qs, r) && i !in r
    ensures Ordered(qs, r')
    ensures forall x :: x in r' <==> x == i || x in r
  {
    if r == [] then [i]
    else if Before(qs, i, r[0]) then [i] + r
    else
      assert r == [r[0]] + r[1..];
      var rest := Insert(qs, i, r[1..]);
      assert forall a :: 0 <= a < |rest| ==> rest[a] in rest;
      [r[0]] + rest
  }

  function SortPositive(qs: seq<nat>, n: nat): (r: seq<nat>)
    requires n <= |qs|
    ensures Ordered(qs, r)
    ensures forall i :: i in r <==> 0 <= i < n && qs[i] > 0
  {
    if n == 0 then []
    else if qs[n - 1] == 0 then SortPositive(qs, n - 1)
    else Insert(qs, n - 1, SortPositive(qs, n - 1))
  }

  /** `rank`, as positions in `offers`. */
  function Rank(offers: seq<Offer>, prefs: seq<Entry>): (r: seq<nat>)
    ensures IsRanking(Scores(offers, prefs), r)
  {
    SortPositive(Scores(offers, prefs), |offers|)
  }

  lemma SameEmptiness(a: seq<nat>, b: seq<nat>)
    requires forall x :: x in a <==> x in b
    ensures a == [] <==> b == []
  {
    if a != [] { assert a[0] in b; }
    if b != [] { assert b[0] in a; }
  }

  lemma {:induction false} OrderedUnique(qs: seq<nat>, a: seq<nat>, b: seq<nat>)
    requires Ordered(qs, a) && Ordered(qs, b)
    requires forall x :: x in a <==> x in b
    ensures a == b
  {
    SameEmptiness(a, b);
    if a != [] {
      assert a[0] in b && b[0] in a;
      assert a == [a[0]] + a[1..] && b == [b[0]] + b[1..];
      assert a[0] == b[0];
      assert a[0] !in a[1..] && a[0] !in b[1..];
      assert forall x :: x in a <==> x == a[0] || x in a[1..];
      assert forall x :: x in b <==> x == a[0] || x in b[1..];
      OrderedUnique(qs, a[1..], b[1..]);
    }
  }

  /** The ranking is determined by what it contains and how it is ordered. */
  lemma RankUnique(offers: seq<Offer>, prefs: seq<Entry>, r: seq<nat>)
    requires IsRanking(Scores(offers, prefs), r)
    ensures r == Rank(offers, prefs)
  {
    OrderedUnique(Scores(offers, prefs), r, Rank(offers, prefs));
  }

  /** Reordering the preference list, indices kept, changes no ranking. */
  lemma RankIgnoresPreferenceOrder(offers: seq<Offer>, prefs: seq<Entry>, prefs': seq<Entry>)
    requires multiset(prefs) == multiset(prefs')
    ensures Rank(offers, prefs) == Rank(offers, prefs')
  {
    forall p ensures p in prefs <==> p in prefs' {
      assert p in multiset(prefs) <==> p in multiset(prefs');
    }
    forall i | 0 <= i < |offers| ensures Score(offers[i], prefs) == Score(offers[i], prefs') {
      assert IsBestMatch(offers[i], prefs', BestMatch(offers[i], prefs));
      BestMatchUnique(offers[i], prefs', BestMatch(offers[i], prefs), BestMatch(offers[i], prefs'));
    }
    assert Scores(offers, prefs) == Scores(offers, prefs');
  }

  /** The ranked positions are pairwise distinct. */
  lemma RankDistinct(offers: seq<Offer>, prefs: seq<Entry>)
    ensures var r := Rank(offers, prefs);
      && (forall a :: 0 <= a < |r| ==> r[a] < |offers|)
      && (forall a, b :: 0 <= a < b < |r| ==> r[a] != r[b])
  {
    hide Rank, Scores;
    var r, qs := Rank(offers, prefs), Scores(offers, prefs);
    assert forall a, b :: 0 <= a < b < |r| ==> Before(qs, r[a], r[b]);
  }

  // ---------------------------------------------------------------- compose

  /** A missing or malformed header leaves no preferences. */
  function Preferences(header: Option<string>): Option<seq<Entry>> {
    match header case None => None case Some(h) => Parse(h)
  }

  /**
    Reorders the challenges by the client's preferences, moving each out of its slot. The
    verifier shows that no slot is found empty and no index is out of range.
   */
  method Compose(challenges: seq<Offer>, header: Option<string>) returns (result: seq<Offer>)
    ensures var prefs := Preferences(header);
      if prefs.None? || Rank(challenges, prefs.value) == [] then result == challenges
      else
        var ranked := Rank(challenges, prefs.value);
        |result| == |ranked| && forall k :: 0 <= k < |ranked| ==> result[k] == challenges[ranked[k]]
  {
    hide Rank, Parse, IsRanking, ValidEntry;
    var prefs := match Preferences(header) case None => [] case Some(es) => es;
    if prefs == [] {
      if header.Some? && Parse(header.value).Some? {
        ParsedValid(header.value);
      }
      return challenges;
    }
    var ranked := Rank(challenges, prefs);
    RankDistinct(challenges, prefs);
    if ranked == [] {
      return challenges;
    }
    var slots := new Option<Offer>[|challenges|](i requires 0 <= i < |challenges| => Some(challenges[i]));
    result := [];
    for k := 0 to |ranked|
      invariant |result| == k
      invariant forall a :: 0 <= a < k ==> result[a] == challenges[ranked[a]]
      invariant forall a :: k <= a < |ranked| ==> slots[ranked[a]] == Some(challenges[ranked[a]])
    {
      var i := ranked[k];
      assert slots[i].Some?;
      result := result + [slots[i].value];
      slots[i] := None;
    }
  }

  // ---------------------------------------------------------------- challenge selection

  /** A received challenge with the answers of `supports` and, at the fixed time, `is_expired`. */
  datatype Received = Received(offer: Offer, supported: bool, expired: bool)

  datatype Selection = Payable(index: nat) | Expired(index: nat) | NoSupported

  predicate Eligible(c: Received, unexpiredOnly: bool) { c.supported && (unexpiredOnly ==> !c.expired) }

  /** The positions below `n` of the eligible challenges: a `filter(..).collect()` of references. */
  function Positions(challenges: seq<Received>, unexpiredOnly: bool, n: nat): (r: seq<nat>)
    requires n <= |challenges|
    ensures forall a :: 0 <= a < |r| ==> r[a] < n && Eligible(challenges[r[a]], unexpiredOnly)
    ensures forall i :: 0 <= i < n && Eligible(challenges[i], unexpiredOnly) ==> i in r
    ensures forall a, b :: 0 <= a < b < |r| ==> r[a] < r[b]
  {
    hide Eligible;
    if n == 0 then []
    else
      var front := Positions(challenges, unexpiredOnly, n - 1);
      if Eligible(challenges[n - 1], unexpiredOnly) then
        assert forall i :: i in front + [n - 1] <==> i in front || i == n - 1;
        front + [n - 1]
      else front
  }

  function Supported(challenges: seq<Received>): (r: seq<nat>)
    ensures forall a :: 0 <= a < |r| ==> r[a] < |challenges|
  {
    Positions(challenges, false, |challenges|)
  }

  function Unexpired(challenges: seq<Received>): (r: seq<nat>)
    ensures forall a :: 0 <= a < |r| ==> r[a] < |challenges|
  {
    Positions(challenges, true, |challenges|)
  }

  function OffersAt(challenges: seq<Received>, at: seq<nat>): (offers: seq<Offer>)
    requires forall a :: 0 <= a < |at| ==> at[a] < |challenges|
    ensures |offers| == |at|
    ensures forall a :: 0 <= a < |at| ==> offers[a] == challenges[at[a]].offer
  {
    seq(|at|, a requires 0 <= a < |at| => challenges[at[a]].offer)
  }

  function SelectRanked(challenges: seq<Received>, at: seq<nat>, prefs: Option<seq<Entry>>): Option<nat>
    requires forall a :: 0 <= a < |at| ==> at[a] < |challenges|
  {
    match prefs
    case Some(ps) =>
      var ranked := Rank(OffersAt(challenges, at), ps);
      if ranked == [] then None else
        assert ranked[0] in ranked;
        Some(at[ranked[0]])
    case None => if at == [] then None else Some(at[0])
  }

  function SelectSupported(challenges: seq<Received>, header: Option<string>): Selection {
    var prefs := Preferences(header);
    match SelectRanked(challenges, Unexpired(challenges), prefs)
    case Some(i) => Payable(i)
    case None =>
      match SelectRanked(challenges, Supported(challenges), prefs)
      case Some(i) => Expired(i)
      case None => NoSupported
  }

  /** Without preferences every challenge ranks alike. */
  function Rating(c: Received, prefs: Option<seq<Entry>>): nat {
    match prefs case None => 1 case Some(ps) => Score(c.offer, ps)
  }

  /** `i` is the best-rated challenge of `at`, the earliest of the best, and not opted out of. */
  ghost predicate IsTop(challenges: seq<Received>, prefs: Option<seq<Entry>>, at: seq<nat>, i: nat)
    requires forall a :: 0 <= a < |at| ==> at[a] < |challenges|
  {
    && i in at
    && i < |challenges|
    && Rating(challenges[i], prefs) > 0
    && forall a :: 0 <= a < |at| ==>
         var rating := Rating(challenges[at[a]], prefs);
         rating < Rating(challenges[i], prefs) || (rating == Rating(challenges[i], prefs) && i <= at[a])
  }

  lemma SelectRankedIsTop(challenges: seq<Received>, at: seq<nat>, prefs: Option<seq<Entry>>)
    requires forall a :: 0 <= a < |at| ==> at[a] < |challenges|
    requires forall a, b :: 0 <= a < b < |at| ==> at[a] < at[b]
    ensures match SelectRanked(challenges, at, prefs)
      case Some(i) => IsTop(challenges, prefs, at, i)
      case None => NoneRated(challenges, prefs, at)
  {
    hide Rank, Score;
    if prefs.Some? {
      var offers := OffersAt(challenges, at);
      var qs := Scores(offers, prefs.value);
      var ranked := Rank(offers, prefs.value);
      assert forall a :: 0 <= a < |at| ==> qs[a] == Rating(challenges[at[a]], prefs);
      if ranked == [] {
        assert forall a :: 0 <= a < |at| ==> a !in ranked;
      } else {
        var top := ranked[0];
        assert top in ranked;
        forall a | 0 <= a < |at|
          ensures qs[a] < qs[top] || (qs[a] == qs[top] && at[top] <= at[a])
        {
          if qs[a] > 0 {
            assert a in ranked;
            var k :| 0 <= k < |ranked| && ranked[k] == a;
          }
        }
      }
    }
  }

  /** Only one position can be the top. */
  lemma TopUnique(challenges: seq<Received>, prefs: Option<seq<Entry>>, at: seq<nat>, i: nat, j: nat)
    requires forall a :: 0 <= a < |at| ==> at[a] < |challenges|
    requires IsTop(challenges, prefs, at, i) && IsTop(challenges, prefs, at, j)
    ensures i == j
  {
    var a :| 0 <= a < |at| && at[a] == i;
    var b :| 0 <= b < |at| && at[b] == j;
  }

  /** Every challenge of `at` is opted out of, or none is there. */
  ghost predicate NoneRated(challenges: seq<Received>, prefs: Option<seq<Entry>>, at: seq<nat>)
    requires forall a :: 0 <= a < |at| ==> at[a] < |challenges|
  {
    forall a :: 0 <= a < |at| ==> Rating(challenges[at[a]], prefs) == 0
  }

  /** The best-rated of the challenges that satisfy `fits`, the earliest of the best, and not opted out of. */
  ghost predicate Best(challenges: seq<Received>, prefs: Option<seq<Entry>>, fits: Received -> bool, i: nat) {
    && i < |challenges| && fits(challenges[i]) && Rating(challenges[i], prefs) > 0
    && forall j :: 0 <= j < |challenges| && fits(challenges[j]) ==>
         var rating := Rating(challenges[j], prefs);
         rating < Rating(challenges[i], prefs) || (rating == Rating(challenges[i], prefs) && i <= j)
  }

  ghost predicate NoneFits(challenges: seq<Received>, prefs: Option<seq<Entry>>, fits: Received -> bool) {
    forall j :: 0 <= j < |challenges| && fits(challenges[j]) ==> Rating(challenges[j], prefs) == 0
  }

  function Payables(): Received -> bool { (c: Received) => c.supported && !c.expired }

  function Supportables(): Received -> bool { (c: Received) => c.supported }

  /** What holds of the collected positions holds of the challenges. */
  lemma Collected(challenges: seq<Received>, prefs: Option<seq<Entry>>, i: nat)
    ensures IsTop(challenges, prefs, Unexpired(challenges), i) <==> Best(challenges, prefs, Payables(), i)
    ensures IsTop(challenges, prefs, Supported(challenges), i) <==> Best(challenges, prefs, Supportables(), i)
    ensures NoneRated(challenges, prefs, Unexpired(challenges)) <==> NoneFits(challenges, prefs, Payables())
    ensures NoneRated(challenges, prefs, Supported(challenges)) <==> NoneFits(challenges, prefs, Supportables())
  {
    CollectedBy(challenges, prefs, Unexpired(challenges), Payables(), i);
    CollectedBy(challenges, prefs, Supported(challenges), Supportables(), i);
  }

  lemma CollectedBy(
    challenges: seq<Received>, prefs: Option<seq<Entry>>, at: seq<nat>, fits: Received -> bool, i: nat)
    requires forall a :: 0 <= a < |at| ==> at[a] < |challenges| && fits(challenges[at[a]])
    requires forall j :: 0 <= j < |challenges| && fits(challenges[j]) ==> j in at
    ensures IsTop(challenges, prefs, at, i) <==> Best(challenges, prefs, fits, i)
    ensures NoneRated(challenges, prefs, at) <==> NoneFits(challenges, prefs, fits)
  {
    hide Rating;
  }

  /**
    The three outcomes of challenge selection, each exactly when it should happen: what is paid is the
    best of the supported challenges that have not expired, and only without one is the best of the
    supported reported as expired.
   */
  lemma SelectionMeaning(challenges: seq<Received>, header: Option<string>, i: nat)
    ensures var prefs := Preferences(header);
      var result := SelectSupported(challenges, header);
      && (result == Payable(i) <==> Best(challenges, prefs, Payables(), i))
      && (result == Expired(i)
          <==> NoneFits(challenges, prefs, Payables()) && Best(challenges, prefs, Supportables(), i))
      && (result == NoSupported <==> NoneFits(challenges, prefs, Supportables()))
  {
    hide Best, NoneFits, IsTop, NoneRated, SelectSupported, Preferences, Payables, Supportables, Supported, Unexpired;
    Collected(challenges, Preferences(header), i);
    SelectionOutcomes(challenges, header, i);
  }

  lemma SelectionOutcomes(challenges: seq<Received>, header: Option<string>, i: nat)
    ensures var prefs := Preferences(header);
      var result := SelectSupported(challenges, header);
      && (result == Payable(i) <==> IsTop(challenges, prefs, Unexpired(challenges), i))
      && (result == Expired(i)
          <==> NoneRated(challenges, prefs, Unexpired(challenges))
               && IsTop(challenges, prefs, Supported(challenges), i))
      && (result == NoSupported <==> NoneRated(challenges, prefs, Supported(challenges)))
  {
    hide SelectRanked, Rating, Preferences, Positions;
    var prefs := Preferences(header);
    var supported, unexpired := Supported(challenges), Unexpired(challenges);
    SelectRankedIsTop(challenges, unexpired, prefs);
    SelectRankedIsTop(challenges, supported, prefs);
    match SelectRanked(challenges, unexpired, prefs) {
      case Some(j) =>
        if IsTop(challenges, prefs, unexpired, i) { TopUnique(challenges, prefs, unexpired, i, j); }
        UnexpiredSupported(challenges, j);
      case None =>
    }
    match SelectRanked(challenges, supported, prefs) {
      case Some(j) =>
        if IsTop(challenges, prefs, supported, i) { TopUnique(challenges, prefs, supported, i, j); }
      case None =>
    }
  }

  lemma UnexpiredSupported(challenges: seq<Received>, i: nat)
    requires i in Unexpired(challenges)
    ensures i in Supported(challenges)
  {
  }
}
