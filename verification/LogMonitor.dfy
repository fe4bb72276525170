/** The monitor of the trade log: it reads the file line by line and recovers exactly the trades logged. */
module LogMonitors {
  import opened Options
  import opened Orders
  import opened Ledger
  import opened Regex
  import opened TradeLog
  import opened Loggers

  // ---------------------------------------------------------------- lines

  /** Where the first line ends: at its newline, or at the end of the text. */
  function LineEnd(text: string): (n: nat)
    ensures n <= |text| && '\n' !in text[..n] && (n < |text| ==> text[n] == '\n')
  {
    if text == [] || text[0] == '\n' then 0
    else
      var n := 1 + LineEnd(text[1..]);
      assert text[..n] == [text[0]] + text[1..][..n - 1];
      n
  }

  function AfterLine(text: string): string {
    if LineEnd(text) < |text| then text[LineEnd(text) + 1..] else []
  }

  /** A carriage return before the newline is not part of the line. */
  function Strip(line: string): string {
    if line != [] && line[|line| - 1] == '\r' then line[..|line| - 1] else line
  }

  function FirstLine(text: string): string {
    Strip(text[..LineEnd(text)])
  }

  function Lines(text: string): seq<string>
    decreases |text|
  {
    if text == [] then [] else [FirstLine(text)] + Lines(AfterLine(text))
  }

  /** Nothing or whole lines. */
  predicate Complete(text: string) {
    text == [] || text[|text| - 1] == '\n'
  }

  lemma {:induction false} LineEndOf(line: string, rest: string)
    requires '\n' !in line
    ensures LineEnd(line + ("\n" + rest)) == |line|
  {
    if line != [] {
      assert (line + ("\n" + rest))[1..] == line[1..] + ("\n" + rest);
      LineEndOf(line[1..], rest);
    }
  }

  lemma LinesCons(line: string, rest: string)
    requires '\n' !in line
    ensures Lines(line + ("\n" + rest)) == [Strip(line)] + Lines(rest)
  {
    var text := line + ("\n" + rest);
    LineEndOf(line, rest);
    assert text[..|line|] == line && text[|line| + 1..] == rest;
  }

  lemma Associate<T>(a: seq<T>, b: seq<T>, c: seq<T>)
    ensures (a + b) + c == a + (b + c)
  {
  }

  /** Whole lines in front do not change how the rest is split. */
  lemma {:induction false} LinesConcat(a: string, b: string)
    requires Complete(a)
    ensures Lines(a + b) == Lines(a) + Lines(b)
    decreases |a|
  {
    if a == [] {
      assert a + b == b;
    } else {
      var line, rest := SplitFirst(a);
      assert "\n" + rest + b == "\n" + (rest + b);
      Associate(line, "\n" + rest, b);
      LinesCons(line, rest);
      LinesCons(line, rest + b);
      LinesConcat(rest, b);
      Associate([Strip(line)], Lines(rest), Lines(b));
    }
  }

  lemma SplitFirst(a: string) returns (line: string, rest: string)
    requires Complete(a) && a != []
    ensures a == line + ("\n" + rest) && '\n' !in line && Complete(rest)
  {
    var n := LineEnd(a);
    assert n < |a| by {
      assert a[|a| - 1] in a;
      assert a[..|a|] == a;
    }
    line, rest := a[..n], a[n + 1..];
    assert rest != [] ==> rest[|rest| - 1] == a[|a| - 1];
  }

  lemma OneLine(line: string)
    requires '\n' !in line && Strip(line) == line
    ensures Lines(line + "\n") == [line]
  {
    LinesCons(line, "");
    assert line + ("\n" + "") == line + "\n";
  }

  /** A carriage return in front of the newline makes no difference. */
  lemma ReturnIgnored(line: string)
    requires '\n' !in line && '\r' !in line
    ensures Lines(line + "\r\n") == Lines(line + "\n") == [line]
  {
    OneLine(line);
    LinesCons(line + "\r", "");
    assert line + "\r\n" == (line + "\r") + ("\n" + "");
    assert (line + "\r")[..|line|] == line;
  }

  /** A last line counts as one without its newline. */
  lemma LastLineCounts(line: string)
    requires '\n' !in line && '\r' !in line && line != []
    ensures Lines(line) == [line]
  {
    NoNewline(line);
    assert line[..|line|] == line;
  }

  lemma {:induction false} NoNewline(line: string)
    requires '\n' !in line
    ensures LineEnd(line) == |line|
  {
    if line != [] {
      NoNewline(line[1..]);
    }
  }

  // ---------------------------------------------------------------- entries

  /** What one line contributes. */
  function Read(line: string): seq<TradeEntry> {
    match ParseLine(line)
    case Some(e) => [e]
    case None => []
  }

  function Entries(lines: seq<string>): seq<TradeEntry> {
    if lines == [] then [] else Read(lines[0]) + Entries(lines[1..])
  }

  lemma EntriesStep(text: string)
    requires text != []
    ensures Entries(Lines(text)) == Read(FirstLine(text)) + Entries(Lines(AfterLine(text)))
  {
    assert Lines(text)[1..] == Lines(AfterLine(text));
  }

  lemma {:induction false} EntriesConcat(a: seq<string>, b: seq<string>)
    ensures Entries(a + b) == Entries(a) + Entries(b)
  {
    if a == [] {
      assert a + b == b;
    } else {
      assert (a + b)[1..] == a[1..] + b;
      EntriesConcat(a[1..], b);
      assert Read(a[0]) + (Entries(a[1..]) + Entries(b)) == Entries(a) + Entries(b);
    }
  }

  /** Reading is a homomorphism at line boundaries: a file that grew by whole lines reads as before, and then more. */
  lemma ReadConcat(a: string, b: string)
    requires Complete(a)
    ensures Entries(Lines(a + b)) == Entries(Lines(a)) + Entries(Lines(b))
  {
    LinesConcat(a, b);
    EntriesConcat(Lines(a), Lines(b));
  }

  /** Shares over the entries read. */
  function EntryVolume(es: seq<TradeEntry>): int {
    if es == [] then 0 else EntryVolume(es[..|es| - 1]) + es[|es| - 1].quantity
  }

  // ---------------------------------------------------------------- the file read back

  function EntriesOf(logged: seq<Logged>): seq<TradeEntry> {
    seq(|logged|, i requires 0 <= i < |logged| => EntryOf(logged[i]))
  }

  lemma EntriesOfSnoc(logged: seq<Logged>)
    requires logged != []
    ensures EntriesOf(logged) == EntriesOf(logged[..|logged| - 1]) + [EntryOf(logged[|logged| - 1])]
  {
  }

  lemma HeaderUnmatched(start: string)
    requires PlainTime(start)
    ensures ParseLine(Header(start)).None?
  {
    assert '[' !in Header(start);
    NoFirstNoMatch("[", TradePattern().next, Header(start));
  }

  lemma HeaderIsNoTrade(start: string)
    requires PlainTime(start)
    ensures Entries(Lines(Header(start) + "\n")) == []
  {
    OneLine(Header(start));
    HeaderUnmatched(start);
    NothingRead(Header(start));
  }

  lemma NothingRead(line: string)
    requires ParseLine(line).None?
    ensures Entries([line]) == []
  {
    assert [line][1..] == [];
    assert Read(line) == [];
  }

  lemma PrintedIsOneLine(l: Logged)
    requires Printable(l)
    ensures Lines(Line(l.time, Message(l)) + "\n") == [Line(l.time, Message(l))]
  {
    PrintedPlain(l, '\n');
    PrintedPlain(l, '\r');
    OneLine(Line(l.time, Message(l)));
  }

  lemma FileComplete(start: string, logged: seq<Logged>)
    requires forall l :: l in logged ==> Printable(l)
    ensures Complete(FileText(start, logged))
  {
  }

  lemma OneEntry(line: string, e: TradeEntry)
    requires ParseLine(line) == Some(e)
    ensures Entries([line]) == [e]
  {
    assert [line][1..] == [];
  }

  lemma ReadMore(before: string, l: Logged)
    requires Complete(before) && Printable(l)
    ensures Entries(Lines(before + Line(l.time, Message(l)) + "\n")) == Entries(Lines(before)) + [EntryOf(l)]
  {
    var line := Line(l.time, Message(l));
    ReadConcat(before, line + "\n");
    Associate(before, line, "\n");
    PrintedIsOneLine(l);
    ParsePrinted(l);
    OneEntry(line, EntryOf(l));
  }

  /** The monitor recovers every logged trade, in order, and nothing else. */
  lemma {:induction false} ReadBack(start: string, logged: seq<Logged>)
    requires PlainTime(start) && forall l :: l in logged ==> Printable(l)
    ensures Entries(Lines(FileText(start, logged))) == EntriesOf(logged)
  {
    if logged == [] {
      HeaderIsNoTrade(start);
    } else {
      var n := |logged| - 1;
      ReadBack(start, logged[..n]);
      FileComplete(start, logged[..n]);
      ReadMore(FileText(start, logged[..n]), logged[n]);
      EntriesOfSnoc(logged);
    }
  }

  /** The trades behind the lines. */
  function TradesOf(logged: seq<Logged>): seq<TradeRecord> {
    seq(|logged|, i requires 0 <= i < |logged| => logged[i].trade)
  }

  lemma {:induction false} ReadTotals(logged: seq<Logged>)
    ensures |EntriesOf(logged)| == |TradesOf(logged)| == |logged|
    ensures EntryVolume(EntriesOf(logged)) == Volume(TradesOf(logged))
  {
    if logged != [] {
      var n := |logged| - 1;
      ReadTotals(logged[..n]);
      VolumeConcat(TradesOf(logged[..n]), [logged[n].trade]);
      assert Volume([logged[n].trade]) == logged[n].trade.quantity;
      assert TradesOf(logged) == TradesOf(logged[..n]) + [logged[n].trade];
      EntriesOfSnoc(logged);
      VolumeSnoc(EntriesOf(logged[..n]), EntryOf(logged[n]));
    }
  }

  lemma VolumeSnoc(es: seq<TradeEntry>, e: TradeEntry)
    ensures EntryVolume(es + [e]) == EntryVolume(es) + e.quantity
  {
    assert (es + [e])[..|es|] == es;
  }

  // ---------------------------------------------------------------- the monitor

  class LogMonitor {
    var trades: seq<TradeEntry>
    var totalTrades: int
    var totalVolume: int

    constructor ()
      ensures trades == [] && totalTrades == 0 && totalVolume == 0
    {
      trades, totalTrades, totalVolume := [], 0, 0;
    }

    /** One more entry, counted. */
    method Append(e: TradeEntry)
      modifies this
      ensures trades == old(trades) + [e]
      ensures totalTrades == old(totalTrades) + 1 && totalVolume == old(totalVolume) + e.quantity
      ensures old(totalVolume) == EntryVolume(old(trades)) ==> totalVolume == EntryVolume(trades)
    {
      VolumeSnoc(trades, e);
      trades, totalTrades, totalVolume := trades + [e], totalTrades + 1, totalVolume + e.quantity;
    }

    /** Reads the whole file afresh; without a file there is nothing. */
    method ParseTradeLogs(file: Option<string>)
      modifies this
      ensures trades == if file.Some? then Entries(Lines(file.value)) else []
      ensures totalTrades == |trades| && totalVolume == EntryVolume(trades)
    {
      trades, totalTrades, totalVolume := [], 0, 0;
      if file.None? {
        return;
      }
      var rest := file.value;
      while rest != []
        invariant trades + Entries(Lines(rest)) == Entries(Lines(file.value))
        invariant totalTrades == |trades| && totalVolume == EntryVolume(trades)
        decreases |rest|
      {
        var line := FirstLine(rest);
        ghost var before := trades;
        EntriesStep(rest);
        Associate(trades, Read(line), Entries(Lines(AfterLine(rest))));
        match ParseLine(line) {
          case Some(e) => Append(e);
          case None =>
        }
        assert trades == before + Read(line);
        rest := AfterLine(rest);
      }
    }

    /** The last `count` entries; none for a negative count. */
    method GetRecentTrades(count: int) returns (recent: seq<TradeEntry>)
      ensures recent == LastN(trades, if count < 0 then 0 else count)
      ensures |recent| == (if count < 0 then 0 else Min(count, |trades|)) <= |trades|
      ensures forall k :: 0 <= k < |recent| ==> recent[k] == trades[|trades| - |recent| + k]
    {
      var start := Max(0, |trades| - count);
      recent := if start <= |trades| then trades[start..] else [];
    }
  }
}
