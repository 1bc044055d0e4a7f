/** Server-sent events: the three formatters and the one parser that reads them back. */
module Sse {
  import opened Prelude
  import opened Text

  datatype NeedVoucher = NeedVoucher(
    channelId: string,
    requiredCumulative: string,
    acceptedCumulative: string,
    deposit: string)

  datatype SseEvent<R> =
    | Message(data: string)
    | PaymentNeedVoucher(event: NeedVoucher)
    | PaymentReceipt(receipt: R)

  /** The JSON library, on the two payload types. */
  datatype Json<!R(!new)> = Json(
    printVoucher: NeedVoucher -> string,
    readVoucher: string -> Option<NeedVoucher>,
    printReceipt: R -> string,
    readReceipt: string -> Option<R>)

  /** Printing is compact (no line break) and reads back. */
  ghost predicate Faithful<R(!new)>(json: Json<R>) {
    && (forall v: NeedVoucher :: '\n' !in json.printVoucher(v) && json.readVoucher(json.printVoucher(v)) == Some(v))
    && (forall r: R :: '\n' !in json.printReceipt(r) && json.readReceipt(json.printReceipt(r)) == Some(r))
  }

  /** The layout all three events share. */
  function Format(eventType: string, data: string): string {
    "event: " + eventType + "\ndata: " + data + "\n\n"
  }

  function FormatMessage(data: string): string { Format("message", data) }

  function FormatNeedVoucher<R(!new)>(json: Json<R>, v: NeedVoucher): string {
    Format("payment-need-voucher", json.printVoucher(v))
  }

  function FormatReceipt<R(!new)>(json: Json<R>, r: R): string { Format("payment-receipt", json.printReceipt(r)) }

  // ---------------------------------------------------------------- parsing

  datatype Line = TypeLine(eventType: string) | DataLine(text: string) | OtherLine

  function Classify(line: string): Line {
    if "event: " <= line then TypeLine(Trim(line[7..]))
    else if "data: " <= line then DataLine(line[6..])
    else if line == "data:" then DataLine("")
    else OtherLine
  }

  /** The last type named, `message` if none is. */
  function EventType(lines: seq<string>): string {
    if lines == [] then "message"
    else
      match Classify(lines[|lines| - 1])
        case TypeLine(t) => t
        case _ => EventType(lines[..|lines| - 1])
  }

  function DataOf(line: string): seq<string> {
    match Classify(line)
    case DataLine(text) => [text]
    case _ => []
  }

  function DataLines(lines: seq<string>): seq<string> {
    if lines == [] then [] else DataLines(lines[..|lines| - 1]) + DataOf(lines[|lines| - 1])
  }

  function Typed<R(!new)>(json: Json<R>, eventType: string, data: string): Option<SseEvent<R>> {
    if eventType == "payment-need-voucher" then
      match json.readVoucher(data)
      case Some(v) => Some(PaymentNeedVoucher(v))
      case None => None
    else if eventType == "payment-receipt" then
      match json.readReceipt(data)
      case Some(r) => Some(PaymentReceipt(r))
      case None => None
    else Some(Message(data))
  }

  function Parsed<R(!new)>(json: Json<R>, raw: string): Option<SseEvent<R>> {
    var lines := Split(raw, '\n');
    var data := DataLines(lines);
    if data == [] then None else Typed(json, EventType(lines), Join(data, "\n"))
  }

  method ParseEvent<R(!new)>(json: Json<R>, raw: string) returns (r: Option<SseEvent<R>>)
    ensures r == Parsed(json, raw)
  {
    hide Split, Trim, Typed, Join;
    var eventType := "message";
    var dataLines: seq<string> := [];
    var lines := Split(raw, '\n');
    for i := 0 to |lines|
      invariant eventType == EventType(lines[..i]) && dataLines == DataLines(lines[..i])
    {
      assert lines[..i + 1][..i] == lines[..i];
      var line := lines[i];
      if "event: " <= line {
        eventType := Trim(line[7..]);
      } else if "data: " <= line {
        dataLines := dataLines + [line[6..]];
      } else if line == "data:" {
        dataLines := dataLines + [""];
      }
    }
    assert lines[..|lines|] == lines;
    if dataLines == [] {
      return None;
    }
    return Typed(json, eventType, Join(dataLines, "\n"));
  }

  // ---------------------------------------------------------------- the lines of a concatenation

  lemma SplitWhole(s: string, c: char)
    requires c !in s
    ensures Split(s, c) == [s]
  {
  }

  /** Splitting two texts around a separator splits each of them. */
  lemma {:induction false} SplitConcat(a: string, c: char, b: string)
    ensures Split(a + [c] + b, c) == Split(a, c) + Split(b, c)
    decreases |a|
  {
    hide Split, Find;
    match Find(a, c)
    case None =>
      SplitCons(a, c, b);
      SplitWhole(a, c);
    case Some(i) =>
      var head, tail := a[..i], a[i + 1..];
      SplitConcat(tail, c, b);
      SplitCons(head, c, tail);
      SplitCons(head, c, tail + [c] + b);
      assert a == head + [c] + tail;
      assert a + [c] + b == head + [c] + (tail + [c] + b);
  }

  lemma SplitPrefix(p: string, s: string, c: char)
    requires c !in p
    ensures Split(p + s, c) == [p + Split(s, c)[0]] + Split(s, c)[1..]
  {
    hide Split, Find;
    match Find(s, c)
    case None =>
      SplitWhole(s, c);
      SplitWhole(p + s, c);
    case Some(i) =>
      var head, tail := s[..i], s[i + 1..];
      assert s == head + [c] + tail;
      assert p + s == (p + head) + [c] + tail;
      SplitCons(head, c, tail);
      SplitCons(p + head, c, tail);
  }

  lemma OneLine(line: string)
    ensures DataLines([line]) == DataOf(line)
    ensures Classify(line).TypeLine? ==> EventType([line]) == Classify(line).eventType
  {
    hide Classify, DataOf;
    assert [line][..0] == [];
    assert DataLines([]) == [];
  }

  lemma {:induction false} Distribute(a: seq<string>, b: seq<string>)
    ensures DataLines(a + b) == DataLines(a) + DataLines(b)
    decreases |b|
  {
    hide DataOf;
    if b == [] {
      assert a + b == a;
    } else {
      var k := |b| - 1;
      assert (a + b)[..|a| + k] == a + b[..k];
      Distribute(a, b[..k]);
    }
  }

  predicate Untyped(lines: seq<string>) {
    forall i :: 0 <= i < |lines| ==> !Classify(lines[i]).TypeLine?
  }

  lemma {:induction false} TypeStays(a: seq<string>, b: seq<string>)
    requires Untyped(b)
    ensures EventType(a + b) == EventType(a)
    decreases |b|
  {
    hide Classify;
    if b == [] {
      assert a + b == a;
    } else {
      var k := |b| - 1;
      assert (a + b)[..|a| + k] == a + b[..k];
      TypeStays(a, b[..k]);
    }
  }

  lemma DataLineOf(text: string)
    ensures Classify("data: " + text) == DataLine(text)
    ensures DataOf("data: " + text) == [text]
  {
    var line := "data: " + text;
    assert line[0] == 'd';
    assert line[6..] == text;
  }

  lemma TypeLineOf(eventType: string)
    requires Trimmed(eventType)
    ensures Classify("event: " + eventType) == TypeLine(eventType)
    ensures DataOf("event: " + eventType) == []
  {
    hide Trim, Trimmed;
    TrimIdentity(eventType);
    assert ("event: " + eventType)[7..] == eventType;
  }

  // ---------------------------------------------------------------- what any text means

  /** A line of an event: its type with white space around it, a piece of its data, or neither. */
  datatype Written =
    | Named(lead: string, eventType: string, trail: string)
    | Text(text: string)
    | Empty
    | Noise(line: string)

  function WrittenText(w: Written): string {
    match w
    case Named(lead, eventType, trail) => "event: " + lead + eventType + trail
    case Text(text) => "data: " + text
    case Empty => "data:"
    case Noise(line) => line
  }

  /** Well formed, and one line. */
  predicate Plain(w: Written) {
    && '\n' !in WrittenText(w)
    && match w
       case Named(lead, eventType, trail) => White(lead) && White(trail) && Trimmed(eventType)
       case Noise(line) => !("event: " <= line) && !("data: " <= line) && line != "data:"
       case _ => true
  }

  function Texts(ws: seq<Written>): (texts: seq<string>)
    ensures |texts| == |ws|
  {
    seq(|ws|, i requires 0 <= i < |ws| => WrittenText(ws[i]))
  }

  function Payload(ws: seq<Written>): seq<string> {
    if ws == [] then []
    else
      Payload(ws[..|ws| - 1])
      + match ws[|ws| - 1] case Text(text) => [text] case Empty => [""] case _ => []
  }

  function Types(ws: seq<Written>): seq<string> {
    if ws == [] then []
    else Types(ws[..|ws| - 1]) + if ws[|ws| - 1].Named? then [ws[|ws| - 1].eventType] else []
  }

  lemma NamedReads(lead: string, eventType: string, trail: string)
    requires White(lead) && White(trail) && Trimmed(eventType)
    ensures Classify("event: " + lead + eventType + trail) == TypeLine(eventType)
  {
    hide Trim, Trimmed, White;
    TrimPadded(lead, eventType, trail);
    var line := "event: " + lead + eventType + trail;
    assert line == "event: " + (lead + eventType + trail);
    assert line[7..] == lead + eventType + trail;
  }

  lemma WrittenReads(w: Written)
    requires Plain(w)
    ensures Classify(WrittenText(w)) ==
      match w
      case Named(_, eventType, _) => TypeLine(eventType)
      case Text(text) => DataLine(text)
      case Empty => DataLine("")
      case Noise(_) => OtherLine
  {
    hide Trim, Trimmed, White;
    match w
    case Named(lead, eventType, trail) => NamedReads(lead, eventType, trail);
    case Text(text) => DataLineOf(text);
    case _ =>
  }

  lemma {:induction false} AllRead(ws: seq<Written>)
    requires forall i :: 0 <= i < |ws| ==> Plain(ws[i])
    ensures DataLines(Texts(ws)) == Payload(ws)
    ensures EventType(Texts(ws)) == if Types(ws) == [] then "message" else Types(ws)[|Types(ws)| - 1]
  {
    hide Classify, WrittenText, Plain;
    if ws != [] {
      var k := |ws| - 1;
      AllRead(ws[..k]);
      assert Texts(ws)[..k] == Texts(ws[..k]);
      WrittenReads(ws[k]);
    }
  }

  /**
    The data lines are the payload, `data:` alone an empty one. The last type decides how it is read;
    without a type, or with one that is not a payment event's, it is a message.
   */
  lemma EventMeaning<R(!new)>(json: Json<R>, ws: seq<Written>)
    requires ws != [] && forall i :: 0 <= i < |ws| ==> Plain(ws[i])
    ensures var r, payload, types := Parsed(json, Join(Texts(ws), "\n")), Payload(ws), Types(ws);
      var data := Join(payload, "\n");
      if payload == [] then r == None
      else if types != [] && types[|types| - 1] == "payment-need-voucher" then
        (forall v :: r == Some(PaymentNeedVoucher(v)) <==> json.readVoucher(data) == Some(v))
        && (r.None? || r.value.PaymentNeedVoucher?)
      else if types != [] && types[|types| - 1] == "payment-receipt" then
        (forall x :: r == Some(PaymentReceipt(x)) <==> json.readReceipt(data) == Some(x))
        && (r.None? || r.value.PaymentReceipt?)
      else r == Some(Message(data))
  {
    hide DataLines, EventType, Payload, Types, Join, Split, Plain;
    AllRead(ws);
    forall i | 0 <= i < |ws| ensures '\n' !in Texts(ws)[i] { OneLined(ws[i]); }
    SplitJoin(Texts(ws), '\n');
    TypeTexts();
  }

  lemma OneLined(w: Written)
    requires Plain(w)
    ensures '\n' !in WrittenText(w)
  {
  }

  lemma TypeTexts()
    ensures "message" != "payment-need-voucher" && "message" != "payment-receipt"
  {
    assert |"message"| == 7;
  }

  /** Every text consists of such lines. */
  lemma EveryEvent(raw: string) returns (ws: seq<Written>)
    ensures ws != [] && (forall i :: 0 <= i < |ws| ==> Plain(ws[i])) && raw == Join(Texts(ws), "\n")
  {
    hide Plain, WrittenText, Split, Join;
    var lines := Split(raw, '\n');
    SplitLacks(raw, '\n');
    ws := [];
    for i := 0 to |lines|
      invariant |ws| == i && forall j :: 0 <= j < i ==> Plain(ws[j]) && WrittenText(ws[j]) == lines[j]
    {
      var w := EveryLine(lines[i]);
      ws := ws + [w];
    }
    assert Texts(ws) == lines;
    JoinSplit(raw, '\n');
  }

  lemma EveryLine(line: string) returns (w: Written)
    requires '\n' !in line
    ensures Plain(w) && WrittenText(w) == line
  {
    hide Trim, Trimmed, White;
    if "event: " <= line {
      var w1, w2 := TrimPieces(line[7..]);
      w := Named(w1, Trim(line[7..]), w2);
      assert WrittenText(w) == "event: " + line[7..];
    } else if "data: " <= line {
      w := Text(line[6..]);
      assert WrittenText(w) == line;
    } else if line == "data:" {
      w := Empty;
    } else {
      w := Noise(line);
    }
  }

  // ---------------------------------------------------------------- round trips

  /** One `data: ` line for each of `lines`. */
  function Data(lines: seq<string>): string {
    if lines == [] then "" else "data: " + lines[0] + "\n" + Data(lines[1..])
  }

  lemma EmptyLine()
    ensures Classify("") == OtherLine && DataOf("") == []
  {
  }

  lemma BlankLines()
    ensures Split("\n", '\n') == ["", ""]
    ensures DataLines(["", ""]) == [] && Untyped(["", ""])
  {
    hide Split, Classify, DataOf;
    SplitCons("", '\n', "");
    SplitWhole("", '\n');
    assert "" + ['\n'] + "" == "\n";
    EmptyLine();
    OneLine("");
    Distribute([""], [""]);
    assert [""] + [""] == ["", ""];
  }

  lemma {:induction false} DataSplits(lines: seq<string>)
    requires forall i :: 0 <= i < |lines| ==> '\n' !in lines[i]
    ensures var split := Split(Data(lines) + "\n", '\n'); DataLines(split) == lines && Untyped(split)
  {
    hide Split, DataLines, Classify, DataOf;
    if lines == [] {
      BlankLines();
      assert Data(lines) + "\n" == "\n";
    } else {
      var first, rest := "data: " + lines[0], Data(lines[1..]) + "\n";
      DataSplits(lines[1..]);
      assert Data(lines) + "\n" == first + ['\n'] + rest;
      SplitCons(first, '\n', rest);
      Distribute([first], Split(rest, '\n'));
      OneLine(first);
      DataLineOf(lines[0]);
      assert lines == [lines[0]] + lines[1..];
    }
  }

  lemma EventLines(eventType: string, lines: seq<string>)
    requires '\n' !in eventType && Trimmed(eventType)
    requires forall i :: 0 <= i < |lines| ==> '\n' !in lines[i]
    ensures var split := Split("event: " + eventType + "\n" + (Data(lines) + "\n"), '\n');
      DataLines(split) == lines && EventType(split) == eventType
  {
    hide Split, DataLines, Classify, DataOf, Data, Trimmed;
    var first, rest := "event: " + eventType, Data(lines) + "\n";
    SplitCons(first, '\n', rest);
    DataSplits(lines);
    Distribute([first], Split(rest, '\n'));
    TypeStays([first], Split(rest, '\n'));
    OneLine(first);
    TypeLineOf(eventType);
    assert EventType([first]) == eventType;
  }

  /** A typed event with one data line per line of its payload delivers exactly the payload. */
  lemma EventRoundTrip<R(!new)>(json: Json<R>, eventType: string, lines: seq<string>)
    requires '\n' !in eventType && Trimmed(eventType)
    requires lines != [] && forall i :: 0 <= i < |lines| ==> '\n' !in lines[i]
    ensures Parsed(json, "event: " + eventType + "\n" + (Data(lines) + "\n"))
      == Typed(json, eventType, Join(lines, "\n"))
  {
    hide Split, DataLines, EventType, Data, Typed, Join, Trimmed;
    EventLines(eventType, lines);
  }

  lemma SingleLine<R(!new)>(json: Json<R>, eventType: string, data: string)
    requires '\n' !in eventType && Trimmed(eventType) && '\n' !in data
    ensures Parsed(json, Format(eventType, data)) == Typed(json, eventType, data)
  {
    hide Parsed, Typed, Trimmed;
    EventRoundTrip(json, eventType, [data]);
    assert [data][1..] == [] && Data([]) == "";
    assert "event: " + eventType + "\n" + (Data([data]) + "\n") == Format(eventType, data);
  }

  /** The two payment events survive the wire whatever their fields hold. */
  lemma PaymentEventsRoundTrip<R(!new)>(json: Json<R>, v: NeedVoucher, r: R)
    requires Faithful(json)
    ensures Parsed(json, FormatNeedVoucher(json, v)) == Some(PaymentNeedVoucher(v))
    ensures Parsed(json, FormatReceipt(json, r)) == Some(PaymentReceipt(r))
  {
    hide Parsed, Format;
    SingleLine(json, "payment-need-voucher", json.printVoucher(v));
    SingleLine(json, "payment-receipt", json.printReceipt(r));
  }

  /** Total length of the parts with one separator after each. */
  function Size(parts: seq<string>): nat {
    if parts == [] then 0 else |parts[0]| + 1 + Size(parts[1..])
  }

  lemma {:induction false} SizeOfJoin(parts: seq<string>)
    requires parts != []
    ensures |Join(parts, "\n")| == Size(parts) - 1
  {
    if |parts| > 1 {
      SizeOfJoin(parts[1..]);
    }
  }

  lemma {:induction false} SizeConcat(a: seq<string>, b: seq<string>)
    ensures Size(a + b) == Size(a) + Size(b)
  {
    if a == [] {
      assert a + b == b;
    } else {
      assert (a + b)[0] == a[0] && (a + b)[1..] == a[1..] + b;
      SizeConcat(a[1..], b);
    }
  }

  lemma LineShrinks(line: string)
    ensures Size(DataOf(line)) < Size([line])
  {
    assert [line][1..] == [] && Size([]) == 0;
    if Classify(line).DataLine? {
      var text := Classify(line).text;
      assert [text][1..] == [] && Size([text]) == |text| + 1;
    }
  }

  /** Reading data lines loses something of every line. */
  lemma {:induction false} DataShrinks(lines: seq<string>)
    ensures Size(DataLines(lines)) <= Size(lines)
    ensures lines != [] ==> Size(DataLines(lines)) < Size(lines)
  {
    hide DataOf, Size;
    if lines != [] {
      var front, last := lines[..|lines| - 1], lines[|lines| - 1];
      DataShrinks(front);
      assert lines == front + [last];
      SizeConcat(front, [last]);
      SizeConcat(DataLines(front), DataOf(last));
      LineShrinks(last);
    } else {
      NoLines();
    }
  }

  lemma NoLines()
    ensures DataLines([]) == [] && Size([]) == 0
  {
  }

  /** What the parser sees of a formatted message: its first line, then whatever later lines look like data. */
  lemma MessageLines(data: string)
    ensures var parts := Split(data, '\n');
      DataLines(Split(FormatMessage(data), '\n')) == [parts[0]] + DataLines(parts[1..])
  {
    hide Split, DataLines, DataOf, Classify, EventType;
    var parts := Split(data, '\n');
    var first, head := "event: " + "message", "data: " + data;
    var line := "data: " + parts[0];
    assert FormatMessage(data) == first + ['\n'] + (head + ['\n'] + "\n");
    SplitCons(first, '\n', head + ['\n'] + "\n");
    SplitConcat(head, '\n', "\n");
    SplitPrefix("data: ", data, '\n');
    BlankLines();
    Distribute([first], [line] + parts[1..] + ["", ""]);
    Distribute([line] + parts[1..], ["", ""]);
    Distribute([line], parts[1..]);
    OneLine(first);
    OneLine(line);
    TypeLineOf("message");
    DataLineOf(parts[0]);
  }

  /** A line break in a message always loses data. */
  lemma BrokenMessageShrinks(data: string)
    requires '\n' in data
    ensures var read := DataLines(Split(FormatMessage(data), '\n')); read != [] && |Join(read, "\n")| < |data|
  {
    hide DataLines, DataOf, Classify, EventType, FormatMessage;
    var parts := Split(data, '\n');
    var read := DataLines(Split(FormatMessage(data), '\n'));
    MessageLines(data);
    DataShrinks(parts[1..]);
    JoinSplit(data, '\n');
    SizeOfJoin(parts);
    SizeOfJoin(read);
    assert read[1..] == DataLines(parts[1..]);
  }

  /** A message survives the wire exactly when it is one line. */
  lemma MessageRoundTrip<R(!new)>(json: Json<R>, data: string)
    ensures Parsed(json, FormatMessage(data)) == Some(Message(data)) <==> '\n' !in data
  {
    hide Format, Split, DataLines, EventType, Join;
    if '\n' !in data {
      SingleLine(json, "message", data);
    } else {
      BrokenMessageShrinks(data);
    }
  }
}
