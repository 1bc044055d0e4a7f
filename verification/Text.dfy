/** The string operations of the Rust standard library that the modelled code calls. */
module Text {
  import opened Prelude

  /** `char::is_whitespace`: the Unicode property White_Space. */
  predicate IsWhitespace(c: char) {
    '\t' <= c <= '\r' || c == ' ' || c == '\U{85}' || c == '\U{A0}' || c == '\U{1680}'
    || '\U{2000}' <= c <= '\U{200A}' || c == '\U{2028}' || c == '\U{2029}'
    || c == '\U{202F}' || c == '\U{205F}' || c == '\U{3000}'
  }

  predicate IsDigit(c: char) { '0' <= c <= '9' }

  predicate IsAsciiLower(c: char) { 'a' <= c <= 'z' }

  function ToLower(c: char): char {
    if 'A' <= c <= 'Z' then ((c as int) - 'A' as int + 'a' as int) as char else c
  }

  /** `to_ascii_lowercase` */
  function Lower(s: string): (r: string)
    ensures |r| == |s|
    ensures forall i :: 0 <= i < |s| ==> r[i] == ToLower(s[i])
  {
    seq(|s|, i requires 0 <= i < |s| => ToLower(s[i]))
  }

  /** `eq_ignore_ascii_case` */
  predicate EqIgnoreCase(a: string, b: string) { Lower(a) == Lower(b) }

  lemma LowerIdempotent(s: string)
    ensures Lower(Lower(s)) == Lower(s)
  {
    forall i | 0 <= i < |s| ensures Lower(Lower(s))[i] == Lower(s)[i] {}
  }

  function TrimStart(s: string): (r: string)
    ensures |r| <= |s|
    ensures r != [] ==> !IsWhitespace(r[0])
  {
    if s != [] && IsWhitespace(s[0]) then TrimStart(s[1..]) else s
  }

  function TrimEnd(s: string): (r: string)
    ensures r <= s
    ensures r != [] ==> !IsWhitespace(r[|r| - 1])
  {
    if s != [] && IsWhitespace(s[|s| - 1]) then TrimEnd(s[..|s| - 1]) else s
  }

  /** `str::trim` */
  function Trim(s: string): (r: string)
    ensures |r| <= |s|
    ensures r != [] ==> !IsWhitespace(r[0]) && !IsWhitespace(r[|r| - 1])
  {
    TrimEnd(TrimStart(s))
  }

  /** Text with no white space at either end. */
  predicate Trimmed(s: string) {
    s == [] || (!IsWhitespace(s[0]) && !IsWhitespace(s[|s| - 1]))
  }

  lemma TrimIdentity(s: string)
    requires Trimmed(s)
    ensures Trim(s) == s
  {
  }

  lemma SpaceIsWhite()
    ensures IsWhitespace(' ')
  {
  }

  lemma TrimLeadingSpace(s: string)
    requires Trimmed(s)
    ensures Trim(" " + s) == s
  {
    hide IsWhitespace;
    SpaceIsWhite();
    assert (" " + s)[1..] == s;
    assert TrimStart(" " + s) == TrimStart(s);
    TrimIdentity(s);
  }

  predicate White(s: string) { forall i :: 0 <= i < |s| ==> IsWhitespace(s[i]) }

  lemma {:induction false} TrimStartWhite(w: string, s: string)
    requires White(w)
    ensures TrimStart(w + s) == TrimStart(s)
  {
    hide IsWhitespace;
    if w == "" {
      assert w + s == s;
    } else {
      assert (w + s)[1..] == w[1..] + s;
      TrimStartWhite(w[1..], s);
    }
  }

  lemma {:induction false} TrimEndWhite(s: string, w: string)
    requires White(w)
    ensures TrimEnd(s + w) == TrimEnd(s)
  {
    hide IsWhitespace;
    if w == "" {
      assert s + w == s;
    } else {
      assert (s + w)[..|s + w| - 1] == s + w[..|w| - 1];
      TrimEndWhite(s, w[..|w| - 1]);
    }
  }

  /** White space around a text that has none at its ends is what `trim` removes. */
  lemma TrimPadded(w1: string, s: string, w2: string)
    requires White(w1) && White(w2) && Trimmed(s)
    ensures Trim(w1 + s + w2) == s
  {
    hide IsWhitespace;
    assert w1 + s + w2 == w1 + (s + w2);
    TrimStartWhite(w1, s + w2);
    if s == "" {
      assert s + w2 == w2 + "";
      TrimStartWhite(w2, "");
    } else {
      TrimEndWhite(s, w2);
    }
  }

  lemma WhiteConcat(v: string, w: string)
    requires White(v) && White(w)
    ensures White(v + w)
  {
    hide IsWhitespace;
  }

  lemma TrimStartStep(s: string)
    ensures TrimStart(s) == if s != "" && IsWhitespace(s[0]) then TrimStart(s[1..]) else s
  {
    hide IsWhitespace;
  }

  lemma {:induction false} StartWhite(s: string) returns (w: string)
    ensures White(w) && s == w + TrimStart(s)
  {
    hide IsWhitespace, TrimStart, White;
    TrimStartStep(s);
    w := "";
    WhiteNothing();
    if s != "" && IsWhitespace(s[0]) {
      var rest := StartWhite(s[1..]);
      w := [s[0]] + rest;
      OneWhite(s[0]);
      WhiteConcat([s[0]], rest);
      assert s == [s[0]] + s[1..];
    }
  }

  lemma OneWhite(c: char)
    requires IsWhitespace(c)
    ensures White([c])
  {
    hide IsWhitespace;
  }

  lemma {:induction false} EndWhite(s: string) returns (w: string)
    ensures White(w) && s == TrimEnd(s) + w
  {
    hide IsWhitespace, TrimEnd, White;
    TrimEndStep(s);
    w := "";
    WhiteNothing();
    if s != "" && IsWhitespace(s[|s| - 1]) {
      var rest := EndWhite(s[..|s| - 1]);
      w := rest + [s[|s| - 1]];
      OneWhite(s[|s| - 1]);
      WhiteConcat(rest, [s[|s| - 1]]);
      assert s == s[..|s| - 1] + [s[|s| - 1]];
    }
  }

  lemma TrimEndStep(s: string)
    ensures TrimEnd(s) == if s != "" && IsWhitespace(s[|s| - 1]) then TrimEnd(s[..|s| - 1]) else s
  {
    hide IsWhitespace;
  }

  lemma WhiteNothing()
    ensures White("")
  {
  }

  /** Every text is its trimmed self with white space around it. */
  lemma TrimPieces(s: string) returns (w1: string, w2: string)
    ensures White(w1) && White(w2) && s == w1 + Trim(s) + w2 && Trimmed(Trim(s))
  {
    hide IsWhitespace, TrimStart, TrimEnd;
    w1 := StartWhite(s);
    w2 := EndWhite(TrimStart(s));
  }

  lemma {:induction false} TrimStartAround(a: string, c: char, b: string)
    requires !IsWhitespace(c)
    ensures TrimStart(a + [c] + b) == TrimStart(a) + [c] + b
  {
    hide IsWhitespace;
    var s := a + [c] + b;
    if a == "" {
      assert s == [c] + b && s[0] == c;
    } else if IsWhitespace(a[0]) {
      assert s[0] == a[0] && s[1..] == a[1..] + [c] + b;
      TrimStartAround(a[1..], c, b);
    } else {
      assert s[0] == a[0];
    }
  }

  lemma {:induction false} TrimEndAround(a: string, c: char, b: string)
    requires !IsWhitespace(c)
    ensures TrimEnd(a + [c] + b) == a + [c] + TrimEnd(b)
  {
    hide IsWhitespace;
    var s := a + [c] + b;
    if b == "" {
      assert s == a + [c] && s[|s| - 1] == c;
    } else if IsWhitespace(b[|b| - 1]) {
      assert s[|s| - 1] == b[|b| - 1] && s[..|s| - 1] == a + [c] + b[..|b| - 1];
      TrimEndAround(a, c, b[..|b| - 1]);
    } else {
      assert s[|s| - 1] == b[|b| - 1];
    }
  }

  /** A character that is no white space keeps what is inside. */
  lemma TrimAround(a: string, c: char, b: string)
    requires !IsWhitespace(c)
    ensures Trim(a + [c] + b) == TrimStart(a) + [c] + TrimEnd(b)
  {
    hide IsWhitespace, TrimStart, TrimEnd;
    TrimStartAround(a, c, b);
    TrimEndAround(TrimStart(a), c, b);
  }

  /** White space around any text makes no difference to `trim`. */
  lemma TrimWhite(w1: string, s: string, w2: string)
    requires White(w1) && White(w2)
    ensures Trim(w1 + s + w2) == Trim(s)
  {
    hide IsWhitespace, TrimStart, TrimEnd, Trim, Trimmed, White;
    var v1, v2 := TrimPieces(s);
    WhiteConcat(w1, v1);
    WhiteConcat(v2, w2);
    assert w1 + s + w2 == (w1 + v1) + Trim(s) + (v2 + w2);
    TrimPadded(w1 + v1, Trim(s), v2 + w2);
  }

  lemma TrimOfTrimStart(s: string)
    ensures Trim(TrimStart(s)) == Trim(s)
  {
    hide IsWhitespace, TrimEnd;
  }

  lemma TrimOfTrimEnd(s: string)
    ensures Trim(TrimEnd(s)) == Trim(s)
  {
    hide IsWhitespace, TrimStart, TrimEnd, Trim;
    var w := EndWhite(s);
    assert "" + TrimEnd(s) + w == s;
    TrimWhite("", TrimEnd(s), w);
  }

  /** `str::find` for one character: the first position of `c`. */
  function Find(s: string, c: char): (r: Option<nat>)
    ensures r.None? <==> c !in s
    ensures r.Some? ==> r.value < |s| && s[r.value] == c && c !in s[..r.value]
  {
    if s == [] then None
    else if s[0] == c then Some(0)
    else
      assert s == [s[0]] + s[1..];
      match Find(s[1..], c)
      case None => None
      case Some(i) =>
        assert s[..i + 1] == [s[0]] + s[1..][..i];
        Some(i + 1)
  }

  /** The first position is the only one with `c` there and nowhere before. */
  lemma FindAfter(a: string, c: char, b: string)
    requires c !in a
    ensures Find(a + [c] + b, c) == Some(|a|)
    ensures (a + [c] + b)[..|a|] == a
    ensures (a + [c] + b)[|a| + 1..] == b
  {
    var s := a + [c] + b;
    assert s[|a|] == c;
    assert s[..|a|] == a;
    assert forall i :: 0 <= i < |a| ==> s[i] == a[i] && a[i] in a;
    assert forall i :: |a| < i <= |s| ==> c == s[..i][|a|];
  }

  /** `str::split` for one character. */
  function Split(s: string, c: char): (r: seq<string>)
    ensures |r| >= 1
    decreases |s|
  {
    match Find(s, c)
    case None => [s]
    case Some(i) => [s[..i]] + Split(s[i + 1..], c)
  }

  lemma SplitCons(a: string, c: char, b: string)
    requires c !in a
    ensures Split(a + [c] + b, c) == [a] + Split(b, c)
  {
    FindAfter(a, c, b);
  }

  lemma {:induction false} SplitLacks(s: string, c: char)
    ensures forall i :: 0 <= i < |Split(s, c)| ==> c !in Split(s, c)[i]
    decreases |s|
  {
    if Find(s, c).Some? {
      var at := Find(s, c).value;
      SplitLacks(s[at + 1..], c);
      assert Split(s, c)[1..] == Split(s[at + 1..], c);
    }
  }

  /** `[..].join(sep)` */
  function Join(parts: seq<string>, sep: string): string {
    if parts == [] then ""
    else if |parts| == 1 then parts[0]
    else parts[0] + sep + Join(parts[1..], sep)
  }

  lemma JoinCons(p: string, rest: seq<string>, sep: string)
    requires rest != []
    ensures Join([p] + rest, sep) == p + sep + Join(rest, sep)
  {
    assert ([p] + rest)[1..] == rest;
  }

  lemma {:induction false} JoinConcat(a: seq<string>, b: seq<string>, sep: string)
    requires a != [] && b != []
    ensures Join(a + b, sep) == Join(a, sep) + sep + Join(b, sep)
  {
    if |a| == 1 {
      assert a + b == [a[0]] + b;
      JoinCons(a[0], b, sep);
    } else {
      JoinConcat(a[1..], b, sep);
      assert a + b == [a[0]] + (a[1..] + b) && a == [a[0]] + a[1..];
      JoinCons(a[0], a[1..] + b, sep);
    }
  }

  /** Splitting undoes joining on the same character. */
  lemma {:induction false} SplitJoin(parts: seq<string>, c: char)
    requires parts != []
    requires forall i :: 0 <= i < |parts| ==> c !in parts[i]
    ensures Split(Join(parts, [c]), c) == parts
  {
    if |parts| == 1 {
      assert parts == [parts[0]];
    } else {
      SplitJoin(parts[1..], c);
      SplitCons(parts[0], c, Join(parts[1..], [c]));
      assert parts == [parts[0]] + parts[1..];
    }
  }

  /** Joining undoes splitting on the same character. */
  lemma {:induction false} JoinSplit(s: string, c: char)
    ensures Join(Split(s, c), [c]) == s
    decreases |s|
  {
    if Find(s, c).Some? {
      var i := Find(s, c).value;
      JoinSplit(s[i + 1..], c);
      JoinCons(s[..i], Split(s[i + 1..], c), [c]);
      assert s == s[..i] + [c] + s[i + 1..];
    }
  }
}
