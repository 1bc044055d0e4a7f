/**
  The Accept-Payment header: parser and printer.

  Quality values are kept in thousandths: the header grammar allows three decimals, so the
  1001 legal values are exactly the integers 0..1000 (section 12.4.2 of RFC 9110).
 */
module AcceptPayment {
  import opened Prelude
  import opened Text
  import opened Numerals

  const Q_ONE: nat := 1000

  /** `name` is the source's `method`, a reserved word here. */
  datatype Entry = Entry(name: string, intent: string, q: nat, index: nat)

  // ---------------------------------------------------------------- parsing

  predicate IsTokenChar(c: char) { IsAsciiLower(c) || IsDigit(c) || c == '-' }

  predicate ValidToken(token: string) {
    token == "*" || forall i :: 0 <= i < |token| ==> IsTokenChar(token[i])
  }

  /** The text behind an optional sign. */
  function Unsigned(val: string): string { if val != [] && val[0] in "+-" then val[1..] else val }

  /** A quality value in thousandths. Exponents, which `f32` parsing also reads, are not modelled. */
  function ParseQValue(val: string): (q: Option<nat>)
    ensures q.Some? ==> q.value <= Q_ONE
  {
    var text := Unsigned(val);
    if !IsDecimal(text) then None
    else
      var (whole, frac) := SplitDot(text);
      if |frac| > 3 then None
      else
        var thousandths := Value(whole) * 1000 + Value(frac) * Pow10(3 - |frac|);
        if val[0] == '-' && thousandths > 0 then None
        else if thousandths > Q_ONE then None
        else Some(thousandths)
  }

  /**
    Accepted are exactly the decimals between 0 and 1 with at most three places, with a sign unless
    it makes them negative.
   */
  lemma QValueMeaning(val: string, q: nat)
    ensures ParseQValue(val) == Some(q)
      <==> IsDecimal(Unsigned(val)) && Places(Unsigned(val)) <= 3
           && q == Scaled(Unsigned(val), 3) <= Q_ONE && (val[0] == '-' ==> q == 0)
  {
    hide Value, IsDecimal, SplitDot;
    if IsDecimal(Unsigned(val)) && Places(Unsigned(val)) <= 3 {
      ScaledSum(Unsigned(val), 3);
      assert Pow10(1) == 10 && Pow10(2) == 100 && Pow10(3) == 1000;
    }
  }

  /** The text after `=` when `param` is a `q` parameter. */
  function QValueOf(param: string): Option<string> {
    var p := Trim(param);
    match Find(p, '=')
    case None => None
    case Some(eq) => if Trim(p[..eq]) == "q" then Some(Trim(p[eq + 1..])) else None
  }

  /** The values of all `q` parameters, in order. */
  function QValues(params: seq<string>): seq<string> {
    if params == [] then []
    else
      var front := QValues(params[..|params| - 1]);
      match QValueOf(params[|params| - 1])
      case None => front
      case Some(v) => front + [v]
  }

  /** The quality value after reading `params` in order: each `q` overwrites the one before. */
  function QOf(params: seq<string>): (q: Option<nat>)
    ensures q.Some? ==> q.value <= Q_ONE
  {
    if params == [] then Some(Q_ONE)
    else
      var before := QOf(params[..|params| - 1]);
      match QValueOf(params[|params| - 1])
      case None => before
      case Some(v) => if before.None? then None else ParseQValue(v)
  }

  method ParseQParam(params: string) returns (q: Option<nat>)
    ensures q == QOf(Split(params, ';'))
  {
    hide ParseQValue, Split, Trim, Find;
    var pieces := Split(params, ';');
    var current := Q_ONE;
    var i := 0;
    while i < |pieces|
      invariant 0 <= i <= |pieces|
      invariant QOf(pieces[..i]) == Some(current)
    {
      assert pieces[..i + 1][..i] == pieces[..i];
      var p := Trim(pieces[i]);
      var eq := Find(p, '=');
      if eq.Some? && Trim(p[..eq.value]) == "q" {
        var v := ParseQValue(Trim(p[eq.value + 1..]));
        if v.None? {
          BadQStays(pieces, i + 1);
          return None;
        }
        current := v.value;
      }
      i := i + 1;
    }
    assert pieces[..i] == pieces;
    return Some(current);
  }

  /** An error in a prefix of the parameters is an error in them all. */
  lemma {:induction false} BadQStays(params: seq<string>, n: nat)
    requires n <= |params| && QOf(params[..n]).None?
    ensures QOf(params).None?
  {
    if n == |params| {
      assert params[..n] == params;
    } else {
      var front := params[..|params| - 1];
      assert front[..n] == params[..n];
      BadQStays(front, n);
    }
  }

  /** No `q` means 1; the last `q` wins; one malformed `q` anywhere is an error. */
  lemma {:induction false} LastQWins(params: seq<string>)
    ensures var values := QValues(params);
      QOf(params) ==
        if exists i :: 0 <= i < |values| && ParseQValue(values[i]).None? then None
        else if values == [] then Some(Q_ONE)
        else ParseQValue(values[|values| - 1])
  {
    hide ParseQValue, QValueOf;
    if params != [] {
      var front := params[..|params| - 1];
      LastQWins(front);
      var before, values := QValues(front), QValues(params);
      assert forall i :: 0 <= i < |before| ==> values[i] == before[i];
      if QValueOf(params[|params| - 1]).Some? && QOf(front).None? {
        var i :| 0 <= i < |before| && ParseQValue(before[i]).None?;
        assert ParseQValue(values[i]).None?;
      }
    }
  }

  /** The text before the first semicolon, and the quality value that what is behind it asks for. */
  function TokenOf(part: string): string {
    match Find(part, ';') case Some(pos) => Trim(part[..pos]) case None => Trim(part)
  }

  function QualityOf(part: string): Option<nat> {
    match Find(part, ';') case Some(pos) => QOf(Split(Trim(part[pos + 1..]), ';')) case None => Some(Q_ONE)
  }

  function ParseEntry(part: string, index: nat): (e: Option<Entry>)
    ensures e.Some? ==> ValidEntry(e.value) && e.value.index == index
  {
    var token, q := TokenOf(part), QualityOf(part);
    match Find(token, '/')
    case None => None
    case Some(slash) =>
      var name, intent := token[..slash], token[slash + 1..];
      if name == [] || intent == [] then None
      else if !ValidToken(name) || !ValidToken(intent) then None
      else if q.None? then None
      else Some(Entry(name, intent, q.value, index))
  }

  /** A text is read as an entry exactly if its token is the entry's `method/intent` and its quality the entry's. */
  lemma EntryMeaning(part: string, index: nat, e: Entry)
    ensures ParseEntry(part, index) == Some(e)
      <==> ValidEntry(e) && e.index == index
           && TokenOf(part) == e.name + "/" + e.intent && QualityOf(part) == Some(e.q)
  {
    hide Trim, QOf, Split, ValidToken, Find;
    var token := TokenOf(part);
    if Find(token, '/').Some? {
      var slash := Find(token, '/').value;
      assert token == token[..slash] + "/" + token[slash + 1..];
    }
    if ValidEntry(e) && token == e.name + "/" + e.intent {
      TokenShape(e);
      FindAfter(e.name, '/', e.intent);
      assert token == e.name + ['/'] + e.intent;
    }
  }

  /** The non-empty pieces, trimmed. */
  function TrimmedParts(pieces: seq<string>): seq<string> {
    if pieces == [] then []
    else (if Trim(pieces[0]) == [] then [] else [Trim(pieces[0])]) + TrimmedParts(pieces[1..])
  }

  function ParseEntries(parts: seq<string>, index: nat): (es: Option<seq<Entry>>)
  {
    if parts == [] then Some([])
    else
      match ParseEntry(parts[0], index)
      case None => None
      case Some(e) =>
        match ParseEntries(parts[1..], index + 1)
        case None => None
        case Some(es) => Some([e] + es)
  }

  function Parse(header: string): (es: Option<seq<Entry>>) {
    var parts := TrimmedParts(Split(header, ','));
    if parts == [] then None else ParseEntries(parts, 0)
  }

  // ---------------------------------------------------------------- printing

  function TrimEndChar(s: string, c: char): string {
    if s != [] && s[|s| - 1] == c then TrimEndChar(s[..|s| - 1], c) else s
  }

  /** `{:.3}` without its trailing zeros and dot. */
  function FormatQ(q: nat): string {
    var fixed := ToDecimal(q / 1000) + ['.', Digit(q / 100 % 10), Digit(q / 10 % 10), Digit(q % 10)];
    TrimEndChar(TrimEndChar(fixed, '0'), '.')
  }

  function SerializeEntry(e: Entry): string {
    var value := e.name + "/" + e.intent;
    if e.q == Q_ONE then value else value + ";q=" + FormatQ(e.q)
  }

  function SerializeAll(entries: seq<Entry>): (r: seq<string>)
    ensures |r| == |entries|
  {
    if entries == [] then [] else [SerializeEntry(entries[0])] + SerializeAll(entries[1..])
  }

  function Serialize(entries: seq<Entry>): string {
    Join(SerializeAll(entries), ", ")
  }

  // ---------------------------------------------------------------- round trips

  predicate ValidEntry(e: Entry) {
    e.name != [] && e.intent != [] && ValidToken(e.name) && ValidToken(e.intent) && e.q <= Q_ONE
  }

  /** What the parser produces: valid entries whose index is their position. */
  predicate ValidEntries(es: seq<Entry>) {
    es != [] && forall i :: 0 <= i < |es| ==> ValidEntry(es[i]) && es[i].index == i
  }

  lemma FormatQShape(q: nat)
    requires q < Q_ONE
    ensures var a, b, c := Digit(q / 100 % 10), Digit(q / 10 % 10), Digit(q % 10);
      FormatQ(q) ==
        if c != '0' then ['0', '.', a, b, c]
        else if b != '0' then ['0', '.', a, b]
        else if a != '0' then ['0', '.', a]
        else "0"
  {
    var a, b, c := Digit(q / 100 % 10), Digit(q / 10 % 10), Digit(q % 10);
    assert ToDecimal(q / 1000) == "0";
    var s3, s2, s1, s0 := ['0', '.', a, b, c], ['0', '.', a, b], ['0', '.', a], ['0', '.'];
    assert "0" + ['.', a, b, c] == s3;
    assert s3[..4] == s2 && s2[..3] == s1 && s1[..2] == s0 && s0[..1] == "0";
    if c != '0' {
      assert TrimEndChar(s3, '0') == s3;
    } else if b != '0' {
      assert TrimEndChar(s2, '0') == s2;
    } else if a != '0' {
      assert TrimEndChar(s1, '0') == s1;
    } else {
      assert TrimEndChar(s1, '0') == s0;
      assert TrimEndChar(s2, '0') == s0;
      assert TrimEndChar(s3, '0') == s0;
      assert TrimEndChar(s0, '.') == "0";
    }
  }

  predicate IsQChar(c: char) { IsDigit(c) || c == '.' }

  predicate QText(s: string) { s != [] && forall i :: 0 <= i < |s| ==> IsQChar(s[i]) }

  lemma FormatQText(q: nat)
    requires q < Q_ONE
    ensures QText(FormatQ(q))
  {
    FormatQShape(q);
    hide FormatQ;
  }

  /** Printing a quality value and reading it back gives the same value. */
  lemma QRoundTrip(q: nat)
    requires q < Q_ONE
    ensures ParseQValue(FormatQ(q)) == Some(q)
  {
    hide ParseQValue, FormatQ, Value, Pow10;
    FormatQShape(q);
    var x, y, z := q / 100 % 10, q / 10 % 10, q % 10;
    assert q == 100 * x + 10 * y + z;
    DigitsRoundTrip(x, y, z);
  }

  lemma DigitsRoundTrip(x: nat, y: nat, z: nat)
    requires x < 10 && y < 10 && z < 10
    ensures var a, b, c := Digit(x), Digit(y), Digit(z);
      ParseQValue(
        if c != '0' then ['0', '.', a, b, c]
        else if b != '0' then ['0', '.', a, b]
        else if a != '0' then ['0', '.', a]
        else "0") == Some(100 * x + 10 * y + z)
  {
    hide ParseQValue, Value, Pow10;
    var a, b, c := Digit(x), Digit(y), Digit(z);
    DigitsValue(a, b, c);
    if a == b == c == '0' {
      ZeroReads();
    } else {
      assert ['0', '.'] + [a, b, c] == ['0', '.', a, b, c];
      assert ['0', '.'] + [a, b] == ['0', '.', a, b] && ['0', '.'] + [a] == ['0', '.', a];
      ZeroPoint(if c != '0' then [a, b, c] else if b != '0' then [a, b] else [a]);
    }
  }

  lemma ZeroReads()
    ensures ParseQValue("0") == Some(0)
  {
    assert Find("0", '.').None?;
    assert "0"[..0] == [];
  }

  lemma ZeroText()
    ensures AllDigits("0") && Value("0") == 0 && '.' !in "0"
  {
    assert "0"[..0] == [];
  }

  lemma ZeroSplit(frac: string)
    ensures SplitDot(['0', '.'] + frac) == ("0", frac) && Unsigned(['0', '.'] + frac) == ['0', '.'] + frac
  {
    hide Find;
    ZeroText();
    assert ['0', '.'] + frac == "0" + ['.'] + frac;
    FindAfter("0", '.', frac);
  }

  lemma ZeroPoint(frac: string)
    requires AllDigits(frac) && |frac| <= 3
    ensures AllDigits("0") && Value("0") == 0
    ensures var q := Value(frac) * Pow10(3 - |frac|);
      q <= Q_ONE ==> ParseQValue(['0', '.'] + frac) == Some(q)
  {
    hide SplitDot, Value, Pow10, Unsigned;
    ZeroText();
    ZeroSplit(frac);
    var s := ['0', '.'] + frac;
    assert s[0] == '0';
  }

  lemma DigitsValue(a: char, b: char, c: char)
    requires IsDigit(a) && IsDigit(b) && IsDigit(c)
    ensures Value("0") == 0
    ensures Value([a]) * Pow10(2) == DigitValue(a) * 100
    ensures Value([a, b]) * Pow10(1) == DigitValue(a) * 100 + DigitValue(b) * 10
    ensures Value([a, b, c]) * Pow10(0) == DigitValue(a) * 100 + DigitValue(b) * 10 + DigitValue(c)
  {
    assert "0"[..0] == [] && [a][..0] == [] && [a, b][..1] == [a] && [a, b, c][..2] == [a, b];
    assert Pow10(1) == 10 && Pow10(2) == 100;
  }

  /** The method/intent part of an entry holds no separator and no white space. */
  lemma TokenShape(e: Entry)
    requires ValidEntry(e)
    ensures var token := e.name + "/" + e.intent;
      '/' !in e.name && ';' !in token && ',' !in token && Trimmed(token)
  {
    assert forall i :: 0 <= i < |e.name| ==> IsTokenChar(e.name[i]) || e.name[i] == '*';
    assert forall i :: 0 <= i < |e.intent| ==> IsTokenChar(e.intent[i]) || e.intent[i] == '*';
  }

  lemma QTextShape(s: string)
    requires QText(s)
    ensures Trimmed(s) && Trimmed("q=" + s)
    ensures ';' !in s && ',' !in s && '=' !in s
  {
    assert forall i :: 0 <= i < |s| ==> IsQChar(s[i]);
  }

  lemma SerializedShape(e: Entry)
    requires ValidEntry(e)
    ensures ',' !in SerializeEntry(e)
    ensures SerializeEntry(e) != [] && Trimmed(SerializeEntry(e))
  {
    TokenShape(e);
    if e.q < Q_ONE {
      FormatQText(e.q);
      QTextShape(FormatQ(e.q));
    }
  }

  lemma QParamRoundTrip(q: nat)
    requires q < Q_ONE
    ensures var params := "q=" + FormatQ(q);
      Trim(params) == params && QOf(Split(params, ';')) == Some(q)
  {
    hide ParseQValue, FormatQ, QText, QOf, Split, Trim, QValueOf;
    var fq := FormatQ(q);
    QRoundTrip(q);
    FormatQText(q);
    QTextShape(fq);
    QParamReads(fq);
    TrimIdentity("q=" + fq);
    SingleParam("q=" + fq);
  }

  lemma QParamReads(fq: string)
    requires Trimmed(fq) && Trimmed("q=" + fq)
    ensures QValueOf("q=" + fq) == Some(fq)
  {
    hide Trim, Find;
    var params := "q=" + fq;
    assert params == "q" + ['='] + fq;
    TrimIdentity(params);
    TrimIdentity(fq);
    TrimIdentity("q");
    FindAfter("q", '=', fq);
  }

  lemma SingleParam(param: string)
    requires ';' !in param
    ensures Split(param, ';') == [param]
    ensures QOf([param]) == match QValueOf(param) case None => Some(Q_ONE) case Some(v) => ParseQValue(v)
  {
    hide ParseQValue, QValueOf, Find;
    assert [param][..0] == [] && QOf([]) == Some(Q_ONE);
  }

  /** One entry survives printing and parsing. */
  lemma EntryRoundTrip(e: Entry)
    requires ValidEntry(e)
    ensures ParseEntry(SerializeEntry(e), e.index) == Some(e)
  {
    hide FormatQ, Trim, QOf, Split, ValidToken, Find;
    var token := e.name + "/" + e.intent;
    TokenShape(e);
    TrimIdentity(token);
    assert token == e.name + ['/'] + e.intent;
    FindAfter(e.name, '/', e.intent);
    assert Find(token, ';').None?;
    if e.q < Q_ONE {
      QParamRoundTrip(e.q);
      var params := "q=" + FormatQ(e.q);
      assert SerializeEntry(e) == token + [';'] + params;
      FindAfter(token, ';', params);
    }
  }

  function Spaced(parts: seq<string>): seq<string> {
    if parts == [] then [] else [" " + parts[0]] + Spaced(parts[1..])
  }

  /** Splitting ", "-joined text at the commas leaves a space before all pieces but the first. */
  lemma {:induction false} SplitSpaced(lead: string, parts: seq<string>)
    requires parts != [] && ',' !in lead
    requires forall i :: 0 <= i < |parts| ==> ',' !in parts[i]
    ensures Split(lead + Join(parts, ", "), ',') == [lead + parts[0]] + Spaced(parts[1..])
    decreases |parts|
  {
    if |parts| == 1 {
      assert Find(lead + parts[0], ',').None?;
    } else {
      var rest := Join(parts[1..], ", ");
      assert lead + Join(parts, ", ") == (lead + parts[0]) + [','] + (" " + rest);
      SplitCons(lead + parts[0], ',', " " + rest);
      SplitSpaced(" ", parts[1..]);
      assert parts[1..][0] == parts[1] && parts[1..][1..] == parts[2..];
    }
  }

  lemma {:induction false} TrimmedSpaced(parts: seq<string>)
    requires forall i :: 0 <= i < |parts| ==> parts[i] != [] && Trimmed(parts[i])
    ensures TrimmedParts(Spaced(parts)) == parts
  {
    if parts != [] {
      TrimmedSpaced(parts[1..]);
      TrimLeadingSpace(parts[0]);
      hide Trim, Trimmed;
      assert Spaced(parts)[0] == " " + parts[0];
      assert Spaced(parts)[1..] == Spaced(parts[1..]);
      assert parts == [parts[0]] + parts[1..];
    }
  }

  lemma {:induction false} SerializedAt(es: seq<Entry>, i: nat)
    requires i < |es|
    ensures SerializeAll(es)[i] == SerializeEntry(es[i])
  {
    hide SerializeEntry;
    if i > 0 {
      SerializedAt(es[1..], i - 1);
    }
  }

  lemma {:induction false} EntriesRoundTrip(es: seq<Entry>, index: nat)
    requires forall i :: 0 <= i < |es| ==> ValidEntry(es[i]) && es[i].index == index + i
    ensures ParseEntries(SerializeAll(es), index) == Some(es)
  {
    hide ParseEntry, SerializeEntry, ValidEntry;
    if es == [] {
      assert ParseEntries([], index) == Some([]);
    } else {
      EntryRoundTrip(es[0]);
      forall i | 0 <= i < |es[1..]| ensures ValidEntry(es[1..][i]) && es[1..][i].index == index + 1 + i {
        assert es[1..][i] == es[i + 1];
      }
      EntriesRoundTrip(es[1..], index + 1);
      assert SerializeAll(es)[1..] == SerializeAll(es[1..]);
      assert es == [es[0]] + es[1..];
    }
  }

  lemma {:induction false} ParsedEntriesValid(parts: seq<string>, index: nat)
    requires ParseEntries(parts, index).Some?
    ensures var es := ParseEntries(parts, index).value;
      |es| == |parts| && forall i :: 0 <= i < |es| ==> ValidEntry(es[i]) && es[i].index == index + i
  {
    hide ParseEntry, ValidEntry;
    if parts != [] {
      ParsedEntriesValid(parts[1..], index + 1);
    }
  }

  /** What the parser accepts satisfies `ValidEntries`. */
  lemma ParsedValid(h: string)
    ensures Parse(h).Some? ==> ValidEntries(Parse(h).value)
  {
    hide TrimmedParts, Split, ParseEntries, ValidEntry;
    if Parse(h).Some? { ParsedEntriesValid(TrimmedParts(Split(h, ',')), 0); }
  }

  /** Every list the parser could have produced survives printing and parsing. */
  lemma SerializeThenParse(es: seq<Entry>)
    requires ValidEntries(es)
    ensures Parse(Serialize(es)) == Some(es)
  {
    var parts := SerializeAll(es);
    forall i | 0 <= i < |es| ensures ',' !in parts[i] && parts[i] != [] && Trimmed(parts[i]) {
      SerializedAt(es, i);
      SerializedShape(es[i]);
    }
    hide SerializeEntry, Trimmed, Trim;
    SplitSpaced("", parts);
    assert "" + Serialize(es) == Serialize(es) && "" + parts[0] == parts[0];
    var pieces := Split(Serialize(es), ',');
    assert pieces[1..] == Spaced(parts[1..]);
    TrimIdentity(parts[0]);
    TrimmedSpaced(parts[1..]);
    assert TrimmedParts(pieces) == parts;
    EntriesRoundTrip(es, 0);
  }

  /** Printing what was parsed, and parsing that, changes nothing. */
  lemma ParseSerializeParse(h: string)
    ensures Parse(h).Some? ==> Parse(Serialize(Parse(h).value)) == Parse(h)
  {
    hide Parse, Serialize, ValidEntries;
    ParsedValid(h);
    if Parse(h).Some? { SerializeThenParse(Parse(h).value); }
  }

  /** Printing is injective on parser output: different preferences never print alike. */
  lemma SerializeInjective(a: seq<Entry>, b: seq<Entry>)
    requires ValidEntries(a) && ValidEntries(b) && Serialize(a) == Serialize(b)
    ensures a == b
  {
    SerializeThenParse(a);
    SerializeThenParse(b);
  }
}
