/**
  What the header parser makes of every text. A text is taken apart once, into white space, an
  entry's token and its parameters, and read from that form without the parser's own functions.
 */
module HeaderText {
  import opened Prelude
  import opened Text
  import opened AcceptPayment

  /** A parameter with the white space around its name and value, or one that has no `=`. */
  datatype Param =
    | Pair(lead: string, name: string, behind: string, before: string, value: string, trail: string)
    | Bare(text: string)

  predicate Plain(p: Param) {
    match p
    case Bare(text) => ';' !in text && '=' !in text
    case Pair(lead, name, behind, before, value, trail) =>
      White(lead) && White(behind) && White(before) && White(trail) && Trimmed(name) && Trimmed(value)
      && ';' !in name && '=' !in name && ';' !in value
  }

  function ParamText(p: Param): string {
    match p
    case Bare(text) => text
    case Pair(lead, name, behind, before, value, trail) => lead + name + behind + "=" + before + value + trail
  }

  function ParamTexts(ps: seq<Param>): (texts: seq<string>)
    ensures |texts| == |ps|
  {
    seq(|ps|, i requires 0 <= i < |ps| => ParamText(ps[i]))
  }

  /** An entry's text: each parameter stands behind a semicolon. */
  function EntryText(lead: string, token: string, trail: string, ps: seq<Param>): string {
    lead + token + trail + if ps == [] then "" else ";" + Join(ParamTexts(ps), ";")
  }

  /** The values of the parameters named `q`, in order. */
  function QTexts(ps: seq<Param>): seq<string> {
    if ps == [] then []
    else
      var p := ps[|ps| - 1];
      QTexts(ps[..|ps| - 1]) + if p.Pair? && p.name == "q" then [p.value] else []
  }

  /** The quality the parameters ask for: the last `q`, 1 without one, none if any `q` is malformed. */
  function Asked(ps: seq<Param>): Option<nat> {
    var texts := QTexts(ps);
    if exists i :: 0 <= i < |texts| && ParseQValue(texts[i]).None? then None
    else if texts == [] then Some(Q_ONE)
    else ParseQValue(texts[|texts| - 1])
  }

  predicate AllPlain(ps: seq<Param>) { forall i :: 0 <= i < |ps| ==> Plain(ps[i]) }

  // ---------------------------------------------------------------- one parameter

  lemma WhiteLacks(w: string)
    requires White(w)
    ensures ';' !in w && '=' !in w && ',' !in w
  {
  }

  lemma SignsAreInk()
    ensures !IsWhitespace('=') && !IsWhitespace(';')
  {
  }

  lemma PairReads(p: Param)
    requires Plain(p) && p.Pair?
    ensures QValueOf(ParamText(p)) == if p.name == "q" then Some(p.value) else None
    ensures ';' !in ParamText(p)
  {
    hide IsWhitespace, Trim, TrimStart, TrimEnd, Find, White, Trimmed;
    var a, b := p.lead + p.name + p.behind, p.before + p.value + p.trail;
    WhiteLacks(p.lead);
    WhiteLacks(p.behind);
    WhiteLacks(p.before);
    WhiteLacks(p.trail);
    SignsAreInk();
    assert ParamText(p) == a + ['='] + b;
    TrimAround(a, '=', b);
    assert '=' !in a;
    var w := StartWhite(a);
    SuffixLacks(w, TrimStart(a), '=');
    FindAfter(TrimStart(a), '=', TrimEnd(b));
    TrimOfTrimStart(a);
    TrimOfTrimEnd(b);
    TrimPadded(p.lead, p.name, p.behind);
    TrimPadded(p.before, p.value, p.trail);
  }

  lemma SuffixLacks(w: string, s: string, c: char)
    requires c !in w + s
    ensures c !in s
  {
    assert forall x :: x in s ==> x in w + s;
  }

  lemma BareReads(text: string)
    requires '=' !in text
    ensures QValueOf(text).None?
  {
    hide Trim, Find;
    TrimLacks(text);
  }

  lemma ParamReads(p: Param)
    requires Plain(p)
    ensures QValueOf(ParamText(p)) == if p.Pair? && p.name == "q" then Some(p.value) else None
    ensures ';' !in ParamText(p)
  {
    hide QValueOf, White, Trimmed;
    if p.Bare? {
      BareReads(p.text);
    } else {
      PairReads(p);
    }
  }

  lemma {:induction false} ParamsRead(ps: seq<Param>)
    requires AllPlain(ps)
    ensures QValues(ParamTexts(ps)) == QTexts(ps)
  {
    hide QValueOf, ParamText, Plain;
    if ps != [] {
      var k := |ps| - 1;
      ParamsRead(ps[..k]);
      assert ParamTexts(ps)[..k] == ParamTexts(ps[..k]);
      ParamReads(ps[k]);
    }
  }

  // ---------------------------------------------------------------- white space at the ends

  lemma QValueOfPadded(w1: string, param: string, w2: string)
    requires White(w1) && White(w2)
    ensures QValueOf(w1 + param + w2) == QValueOf(param)
  {
    hide IsWhitespace, Trim, Find, White;
    TrimWhite(w1, param, w2);
  }

  lemma {:induction false} QOfCongruent(a: seq<string>, b: seq<string>)
    requires |a| == |b| && forall i :: 0 <= i < |a| ==> QValueOf(a[i]) == QValueOf(b[i])
    ensures QOf(a) == QOf(b)
  {
    hide QValueOf, ParseQValue;
    if a != [] {
      QOfCongruent(a[..|a| - 1], b[..|b| - 1]);
    }
  }

  /** `padded` is `plain` with `lead` before its first and `trail` behind its last piece. */
  predicate PaddedPieces(lead: string, plain: seq<string>, trail: string, padded: seq<string>) {
    |padded| == |plain| && forall i :: 0 <= i < |plain| ==> padded[i] == PaddedPiece(lead, plain, trail, i)
  }

  function PaddedPiece(lead: string, plain: seq<string>, trail: string, i: nat): string
    requires i < |plain|
  {
    (if i == 0 then lead else "") + plain[i] + if i == |plain| - 1 then trail else ""
  }

  lemma PaddedMore(lead: string, head: string, rest: seq<string>, trail: string, padded: seq<string>)
    requires PaddedPieces("", rest, trail, padded) && rest != []
    ensures PaddedPieces(lead, [head] + rest, trail, [lead + head] + padded)
  {
    var plain := [head] + rest;
    forall i | 0 <= i < |plain| ensures ([lead + head] + padded)[i] == PaddedPiece(lead, plain, trail, i) {
      if i == 0 {
        assert lead + head + "" == lead + head;
      } else {
        assert padded[i - 1] == PaddedPiece("", rest, trail, i - 1);
        assert "" + rest[i - 1] == rest[i - 1];
      }
    }
  }

  /** White space at the ends of a list of parameters ends up at the ends of its first and last piece. */
  lemma {:induction false} SplitPadded(lead: string, s: string, trail: string, c: char)
    requires c !in lead && c !in trail
    ensures PaddedPieces(lead, Split(s, c), trail, Split(lead + s + trail, c))
    decreases |s|
  {
    hide Find, PaddedPieces;
    if Find(s, c).None? {
      assert Find(lead + s + trail, c).None?;
      OnePadded(lead, s, trail);
    } else {
      var at := Find(s, c).value;
      var head, rest := s[..at], s[at + 1..];
      SplitPadded("", rest, trail, c);
      assert lead + s + trail == (lead + head) + [c] + ("" + rest + trail);
      SplitCons(lead + head, c, "" + rest + trail);
      PaddedMore(lead, head, Split(rest, c), trail, Split("" + rest + trail, c));
    }
  }

  lemma OnePadded(lead: string, s: string, trail: string)
    ensures PaddedPieces(lead, [s], trail, [lead + s + trail])
  {
  }

  lemma QOfTrimmed(s: string)
    ensures QOf(Split(Trim(s), ';')) == QOf(Split(s, ';'))
  {
    hide IsWhitespace, Trim, White, Split, QValueOf, QOf;
    var w1, w2 := TrimPieces(s);
    WhiteLacks(w1);
    WhiteLacks(w2);
    SplitPadded(w1, Trim(s), w2, ';');
    var plain, padded := Split(Trim(s), ';'), Split(s, ';');
    WhiteNothing();
    assert w1 + Trim(s) + w2 == s;
    forall i | 0 <= i < |plain| ensures QValueOf(padded[i]) == QValueOf(plain[i]) {
      QValueOfPadded(if i == 0 then w1 else "", plain[i], if i == |plain| - 1 then w2 else "");
    }
    QOfCongruent(plain, padded);
  }

  // ---------------------------------------------------------------- one entry

  lemma NoParams(lead: string, token: string, trail: string)
    requires White(lead) && White(trail) && Trimmed(token) && ';' !in token
    ensures TokenOf(lead + token + trail) == token && QualityOf(lead + token + trail) == Some(Q_ONE)
  {
    hide IsWhitespace, Trim, White, Trimmed;
    WhiteLacks(lead);
    WhiteLacks(trail);
    TrimPadded(lead, token, trail);
  }

  lemma SomeParams(lead: string, token: string, trail: string, ps: seq<Param>)
    requires White(lead) && White(trail) && Trimmed(token) && ';' !in token && AllPlain(ps) && ps != []
    ensures TokenOf(EntryText(lead, token, trail, ps)) == token
    ensures QualityOf(EntryText(lead, token, trail, ps)) == Asked(ps)
  {
    hide IsWhitespace, Trim, White, Trimmed, Split, QOf, QValues, Plain, ParseQValue, QTexts, ParamText;
    WhiteLacks(lead);
    WhiteLacks(trail);
    TrimPadded(lead, token, trail);
    var texts := ParamTexts(ps);
    var rest := Join(texts, ";");
    assert EntryText(lead, token, trail, ps) == (lead + token + trail) + [';'] + rest;
    FindAfter(lead + token + trail, ';', rest);
    forall i | 0 <= i < |texts| ensures ';' !in texts[i] { ParamReads(ps[i]); }
    SplitJoin(texts, ';');
    QOfTrimmed(rest);
    ParamsRead(ps);
    LastQWins(texts);
  }

  /**
    A text is read as an entry exactly if its token is the entry's method and intent with a slash
    between, and its parameters ask for the entry's quality. White space counts nowhere.
   */
  lemma EntryReads(lead: string, token: string, trail: string, ps: seq<Param>, index: nat, e: Entry)
    requires White(lead) && White(trail) && Trimmed(token) && ';' !in token && AllPlain(ps)
    ensures ParseEntry(EntryText(lead, token, trail, ps), index) == Some(e)
      <==> ValidEntry(e) && e.index == index && token == e.name + "/" + e.intent && Asked(ps) == Some(e.q)
  {
    hide IsWhitespace, White, Trimmed, Plain, Asked, ValidEntry, TokenOf, QualityOf, ParseEntry, Join, ParamTexts;
    var text := EntryText(lead, token, trail, ps);
    if ps == [] {
      NoParams(lead, token, trail);
      assert text == lead + token + trail;
      AskedNothing();
    } else {
      SomeParams(lead, token, trail, ps);
    }
    EntryMeaning(text, index, e);
  }

  lemma AskedNothing()
    ensures Asked([]) == Some(Q_ONE)
  {
  }

  /** Every text has this form. */
  lemma EveryText(text: string) returns (lead: string, token: string, trail: string, ps: seq<Param>)
    ensures White(lead) && White(trail) && Trimmed(token) && ';' !in token && AllPlain(ps)
    ensures text == EntryText(lead, token, trail, ps)
  {
    hide IsWhitespace, White, Trimmed, Trim, Plain, ParamText;
    ps := [];
    var head := text;
    if Find(text, ';').Some? {
      var at := Find(text, ';').value;
      head := text[..at];
      var pieces := Split(text[at + 1..], ';');
      SplitLacks(text[at + 1..], ';');
      ps := EveryParam(pieces);
      assert ParamTexts(ps) == pieces;
      JoinSplit(text[at + 1..], ';');
      assert text == head + (";" + text[at + 1..]);
    }
    lead, trail := TrimPieces(head);
    token := Trim(head);
    TrimLacks(head);
  }

  lemma {:induction false} EveryParam(pieces: seq<string>) returns (ps: seq<Param>)
    requires forall i :: 0 <= i < |pieces| ==> ';' !in pieces[i]
    ensures AllPlain(ps) && |ps| == |pieces| && forall i :: 0 <= i < |ps| ==> ParamText(ps[i]) == pieces[i]
  {
    hide Plain, ParamText;
    ps := [];
    if pieces != [] {
      ps := EveryParam(pieces[1..]);
      var p := OneParam(pieces[0]);
      ps := [p] + ps;
    }
  }

  lemma OneParam(piece: string) returns (p: Param)
    requires ';' !in piece
    ensures Plain(p) && ParamText(p) == piece
  {
    hide Plain, ParamText, Find;
    if Find(piece, '=').Some? {
      var at := Find(piece, '=').value;
      assert piece == piece[..at] + "=" + piece[at + 1..];
      p := PairParam(piece[..at], piece[at + 1..]);
    } else {
      p := Bare(piece);
      BareParam(piece);
    }
  }

  lemma BareParam(text: string)
    requires ';' !in text && '=' !in text
    ensures Plain(Bare(text)) && ParamText(Bare(text)) == text
  {
  }

  lemma PairParam(a: string, b: string) returns (p: Param)
    requires ';' !in a && ';' !in b && '=' !in a
    ensures Plain(p) && ParamText(p) == a + "=" + b
  {
    hide IsWhitespace, White, Trimmed, Trim, Find;
    var w1, w2 := TrimPieces(a);
    var w3, w4 := TrimPieces(b);
    p := Pair(w1, Trim(a), w2, w3, Trim(b), w4);
    TrimLacks(a);
    TrimLacks(b);
  }

  lemma TrimLacks(s: string)
    ensures forall c :: c in Trim(s) ==> c in s
  {
    hide IsWhitespace, White, Trimmed, Trim;
    var w1, w2 := TrimPieces(s);
    assert forall c :: c in Trim(s) ==> c in w1 + Trim(s) + w2;
  }

  // ---------------------------------------------------------------- the whole header

  lemma TrimmedEntry(part: string, index: nat)
    ensures ParseEntry(Trim(part), index) == ParseEntry(part, index)
  {
    hide IsWhitespace, White, Trimmed, Trim, Plain, ParamText, Asked, ParseEntry, EntryText, ValidEntry;
    var lead, token, trail, ps := EveryText(Trim(part));
    var w1, w2 := TrimPieces(part);
    PaddedEntry(w1, Trim(part), w2, index);
  }

  lemma PaddedEntry(w1: string, part: string, w2: string, index: nat)
    requires White(w1) && White(w2)
    ensures ParseEntry(w1 + part + w2, index) == ParseEntry(part, index)
  {
    hide IsWhitespace, White, Trim, QOf, Split, Find, ValidToken;
    WhiteLacks(w1);
    WhiteLacks(w2);
    WhiteNothing();
    if Find(part, ';').Some? {
      var at := Find(part, ';').value;
      var a, b := part[..at], part[at + 1..];
      assert w1 + part + w2 == (w1 + a) + [';'] + (b + w2);
      FindAfter(w1 + a, ';', b + w2);
      assert w1 + a + "" == w1 + a && "" + b + w2 == b + w2;
      TrimWhite(w1, a, "");
      TrimWhite("", b, w2);
    } else {
      assert Find(w1 + part + w2, ';').None?;
      TrimWhite(w1, part, w2);
    }
  }

  lemma TrimsToNothing(s: string)
    ensures Trim(s) == "" <==> White(s)
  {
    hide IsWhitespace, Trim, Trimmed;
    var w1, w2 := TrimPieces(s);
    if Trim(s) == "" {
      assert s == w1 + w2;
    } else {
      var t := Trim(s);
      assert s[|w1|] == t[0];
      TrimmedInk(s);
    }
  }

  lemma TrimmedInk(s: string)
    requires Trim(s) != ""
    ensures !IsWhitespace(Trim(s)[0])
  {
    hide IsWhitespace;
  }

  predicate Inked(piece: string) { !White(piece) }

  lemma {:induction false} KeptPieces(pieces: seq<string>)
    ensures var kept, parts := Filter(pieces, Inked), TrimmedParts(pieces);
      |parts| == |kept| && forall i :: 0 <= i < |kept| ==> parts[i] == Trim(kept[i])
  {
    hide White, Trim;
    if pieces != [] {
      KeptPieces(pieces[1..]);
      TrimsToNothing(pieces[0]);
    }
  }

  /** Each of `parts` reads as the entry at its position, counted from `index`. */
  predicate ReadAs(parts: seq<string>, index: nat, es: seq<Entry>) {
    |es| == |parts| && forall i :: 0 <= i < |parts| ==> ParseEntry(parts[i], index + i) == Some(es[i])
  }

  lemma ReadAsMore(parts: seq<string>, index: nat, es: seq<Entry>)
    requires parts != [] && es != []
    ensures ReadAs(parts, index, es)
      <==> ParseEntry(parts[0], index) == Some(es[0]) && ReadAs(parts[1..], index + 1, es[1..])
  {
    hide ParseEntry, ValidEntry;
    if ReadAs(parts[1..], index + 1, es[1..]) {
      forall i | 1 <= i < |parts| ensures ParseEntry(parts[i], index + i) == Some(es[i]) {
        assert ParseEntry(parts[1..][i - 1], index + 1 + (i - 1)) == Some(es[1..][i - 1]);
      }
    }
    if ReadAs(parts, index, es) {
      forall i | 0 <= i < |parts[1..]| ensures ParseEntry(parts[1..][i], index + 1 + i) == Some(es[1..][i]) {
        assert ParseEntry(parts[i + 1], index + (i + 1)) == Some(es[i + 1]);
      }
    }
  }

  lemma {:induction false} EntriesMeaning(parts: seq<string>, index: nat, es: seq<Entry>)
    ensures ParseEntries(parts, index) == Some(es) <==> ReadAs(parts, index, es)
  {
    hide ParseEntry, ValidEntry, ReadAs;
    if parts != [] && es != [] {
      EntriesMeaning(parts[1..], index + 1, es[1..]);
      EntriesFirst(parts, index, es);
      ReadAsMore(parts, index, es);
    } else {
      NothingRead(parts, index, es);
    }
  }

  lemma NothingRead(parts: seq<string>, index: nat, es: seq<Entry>)
    requires parts == [] || es == []
    ensures ParseEntries(parts, index) == Some(es) <==> ReadAs(parts, index, es)
  {
    hide ParseEntry, ValidEntry;
  }

  lemma EntriesFirst(parts: seq<string>, index: nat, es: seq<Entry>)
    requires parts != [] && es != []
    ensures ParseEntries(parts, index) == Some(es)
      <==> ParseEntry(parts[0], index) == Some(es[0]) && ParseEntries(parts[1..], index + 1) == Some(es[1..])
  {
    hide ParseEntry, ValidEntry;
    assert es == [es[0]] + es[1..];
  }

  /**
    A header is accepted exactly if one of the pieces between its commas is not blank and each of
    those reads as an entry; the result is these entries, in order.
   */
  lemma HeaderReads(pieces: seq<string>, es: seq<Entry>)
    requires pieces != [] && forall i :: 0 <= i < |pieces| ==> ',' !in pieces[i]
    ensures var kept := Filter(pieces, Inked);
      Parse(Join(pieces, ",")) == Some(es) <==> kept != [] && ReadAs(kept, 0, es)
  {
    hide ParseEntry, ValidEntry, Inked, Split, Join, Trim, TrimmedParts, Filter, ParseEntries;
    var kept, parts := Filter(pieces, Inked), TrimmedParts(pieces);
    SplitJoin(pieces, ',');
    KeptPieces(pieces);
    EntriesMeaning(parts, 0, es);
    forall i | 0 <= i < |kept| ensures ParseEntry(parts[i], i) == ParseEntry(kept[i], i) {
      TrimmedEntry(kept[i], i);
    }
  }
}
