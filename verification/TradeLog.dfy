/** The trade log between two programs: the exchange prints a line for each trade, the monitor parses it back. */
module TradeLog {
  import opened Options
  import opened Orders
  import opened Regex

  // ---------------------------------------------------------------- numbers

  const INT_MAX := 0x7fff_ffff

  function DigitOf(d: nat): char
    requires d < 10
  {
    '0' + d as char
  }

  /** How an integer is printed. */
  function Dec(n: nat): (s: string)
    ensures s != [] && All(s, Digit)
  {
    if n < 10 then [DigitOf(n)] else Dec(n / 10) + [DigitOf(n % 10)]
  }

  function DigitValue(c: char): nat
    requires IsDigit(c)
  {
    c as int - '0' as int
  }

  /** The number a run of digits denotes. */
  function Value(s: string): nat
    requires All(s, Digit)
  {
    if s == [] then 0 else 10 * Value(s[..|s| - 1]) + DigitValue(s[|s| - 1])
  }

  /** QString::toInt: 0 for anything but a number that fits. */
  function ToInt(s: string): nat {
    if s != [] && All(s, Digit) && Value(s) <= INT_MAX then Value(s) else 0
  }

  lemma {:induction false} ValueOfDec(n: nat)
    ensures Value(Dec(n)) == n
  {
    if n >= 10 {
      ValueOfDec(n / 10);
      assert Dec(n)[..|Dec(n)| - 1] == Dec(n / 10);
    }
  }

  /** Printed numbers carry no leading zero. */
  lemma {:induction false} DecPlain(n: nat)
    ensures n > 0 ==> Dec(n)[0] != '0'
    ensures n < 10 ==> |Dec(n)| == 1
  {
    if n >= 10 {
      DecPlain(n / 10);
    }
  }

  function Pow10(k: nat): nat {
    if k == 0 then 1 else 10 * Pow10(k - 1)
  }

  lemma {:induction false} Pow10Positive(k: nat)
    ensures Pow10(k) >= 1
  {
    if k > 0 {
      Pow10Positive(k - 1);
    }
  }

  /** The digits behind the point. */
  function Fraction(digits: string): real
    requires All(digits, Digit)
  {
    Pow10Positive(|digits|);
    Value(digits) as real / Pow10(|digits|) as real
  }

  /** QString::toDouble on what the pattern captures: 0 unless there are digits and at most one point. */
  function ToDouble(s: string): real {
    RunIsAll(s, Digit);
    var n := RunLength(s, Digit);
    if n == |s| then (assert s[..n] == s; Value(s) as real)
    else if s[n] == '.' && All(s[n + 1..], Digit) && |s| > 1 then Value(s[..n]) as real + Fraction(s[n + 1..])
    else 0.0
  }

  /** A number that does not fit is read as 0. */
  lemma TooLargeIsZero(s: string)
    requires All(s, Digit) && Value(s) > 0x7fff_ffff
    ensures ToInt(s) == 0
  {
  }

  /** Something with two points is no number and is read as 0. */
  lemma TwoPointsIsZero(s: string, i: nat, j: nat)
    requires i < j < |s| && s[i] == '.' && s[j] == '.'
    ensures ToDouble(s) == 0.0
  {
    var n := RunLength(s, Digit);
    RunIsAll(s, Digit);
    assert forall k :: 0 <= k < n ==> s[..n][k] == s[k] && IsDigit(s[k]);
    if n < i {
      assert s[n + 1..][i - n - 1] == '.';
    } else {
      assert s[n + 1..][j - n - 1] == '.';
    }
  }

  /** A price of so many cents with two decimals. */
  function PrintCents(c: nat): string {
    Dec(c / 100) + ("." + [DigitOf(c / 10 % 10), DigitOf(c % 10)])
  }

  lemma PrintCentsDecimal(c: nat)
    ensures All(PrintCents(c), Decimal) && PrintCents(c) != []
  {
  }

  lemma TwoDigits(a: nat, b: nat)
    requires a < 10 && b < 10
    ensures All([DigitOf(a), DigitOf(b)], Digit) && Value([DigitOf(a), DigitOf(b)]) == 10 * a + b
  {
    var s := [DigitOf(a), DigitOf(b)];
    assert s[..1] == [DigitOf(a)];
    assert Value([DigitOf(a)]) == a;
  }

  lemma Hundredths(digits: string)
    requires All(digits, Digit) && |digits| == 2
    ensures Fraction(digits) == Value(digits) as real / 100.0
  {
    assert Pow10(1) == 10 && Pow10(2) == 100;
  }

  lemma ToDoubleOf(whole: string, digits: string)
    requires All(whole, Digit) && All(digits, Digit) && whole != []
    ensures ToDouble(whole + ("." + digits)) == Value(whole) as real + Fraction(digits)
  {
    var s := whole + ("." + digits);
    RunOf(whole, "." + digits, Digit);
    assert s[..|whole|] == whole && s[|whole| + 1..] == digits;
  }

  lemma CentsSplit(c: nat)
    ensures (c / 100) as real + (10 * (c / 10 % 10) + c % 10) as real / 100.0 == c as real / 100.0
  {
    assert c == 100 * (c / 100) + (10 * (c / 10 % 10) + c % 10);
  }

  lemma ToDoubleOfCents(c: nat)
    ensures ToDouble(PrintCents(c)) == c as real / 100.0
  {
    TwoDigits(c / 10 % 10, c % 10);
    Hundredths([DigitOf(c / 10 % 10), DigitOf(c % 10)]);
    ToDoubleOf(Dec(c / 100), [DigitOf(c / 10 % 10), DigitOf(c % 10)]);
    ValueOfDec(c / 100);
    CentsSplit(c);
  }

  /** Rounding to two decimals: c is a nearest whole number of cents, ties either way. */
  predicate NearestCents(price: real, c: nat) {
    -0.5 <= price * 100.0 - c as real <= 0.5
  }

  // ---------------------------------------------------------------- printing

  /** A trade as it is logged: when, which, and the cents its price is printed as. */
  datatype Logged = Logged(time: string, trade: TradeRecord, cents: nat)

  /** One blank, a key and its value, in front of the rest of the line. */
  function Field(key: string, value: string, rest: string): string {
    " " + (key + (value + rest))
  }

  /** The fields behind the symbol. */
  function Fields(qty: string, price: string, buyer: string, seller: string): string {
    Field("qty=", qty, Field("price=$", price, Field("buyer=T", buyer, Field("seller=T", seller, ""))))
  }

  function Message(l: Logged): string
    requires Printable(l)
  {
    "MATCH" + Field("", l.trade.symbol,
                    Fields(Dec(l.trade.quantity), PrintCents(l.cents),
                           Dec(l.trade.buyerTraderId), Dec(l.trade.sellerTraderId)))
  }

  /** The logger's line, without the newline. */
  function Line(time: string, message: string): string {
    "[" + (time + ("]" + (" [TRADE] " + message)))
  }

  /** A moment as the logger prints it: none of these characters occur in it. */
  predicate PlainTime(time: string) {
    time != [] && forall c :: c in time ==> c !in "[]\r\n"
  }

  predicate PlainSymbol(symbol: string) {
    symbol != [] && All(symbol, Word)
  }

  /** Letters, digits and underscores, at least one. */
  lemma PlainSymbolIs(symbol: string)
    ensures PlainSymbol(symbol) <==>
              symbol != "" && forall i :: 0 <= i < |symbol| ==>
                                            var c := symbol[i];
                                            'a' <= c <= 'z' || 'A' <= c <= 'Z' || '0' <= c <= '9' || c == '_'
  {
  }

  /** The trades this is about: numbers that fit the printed form and are not negative. */
  predicate Printable(l: Logged) {
    && PlainTime(l.time) && PlainSymbol(l.trade.symbol) && NearestCents(l.trade.price, l.cents)
    && 0 <= l.trade.quantity <= INT_MAX
    && 0 <= l.trade.buyerTraderId <= INT_MAX && 0 <= l.trade.sellerTraderId <= INT_MAX
  }

  lemma FieldText(key: string, value: string, rest: string)
    ensures Field(key, value, rest) == " " + key + (value + rest)
  {
  }

  /** The message and its line, piece by piece. */
  lemma PrintedText(l: Logged)
    requires Printable(l)
    ensures var buyer, seller := Dec(l.trade.buyerTraderId), Dec(l.trade.sellerTraderId);
            Message(l) == "MATCH" + (" " + (l.trade.symbol + (" qty=" + (Dec(l.trade.quantity)
                          + (" price=$" + (PrintCents(l.cents) + (" buyer=T" + (buyer + (" seller=T" + seller)))))))))
    ensures Line(l.time, Message(l)) == "[" + (l.time + ("]" + (" [TRADE] " + Message(l))))
  {
    var qty, price := Dec(l.trade.quantity), PrintCents(l.cents);
    var buyer, seller := Dec(l.trade.buyerTraderId), Dec(l.trade.sellerTraderId);
    var f4 := Field("seller=T", seller, "");
    var f3 := Field("buyer=T", buyer, f4);
    var f2 := Field("price=$", price, f3);
    FieldText("seller=T", seller, "");
    assert seller + "" == seller;
    FieldText("buyer=T", buyer, f4);
    FieldText("price=$", price, f3);
    FieldText("qty=", qty, f2);
    KeysText();
    assert "" + (l.trade.symbol + Field("qty=", qty, f2)) == l.trade.symbol + Field("qty=", qty, f2);
  }

  lemma KeysText()
    ensures " " + "qty=" == " qty=" && " " + "price=$" == " price=$"
    ensures " " + "buyer=T" == " buyer=T" && " " + "seller=T" == " seller=T"
  {
  }

  /** Dates and times of day in digits, dashes, colons and blanks are printed as they are read. */
  lemma TimeIsPlain(time: string)
    requires time != [] && forall c :: c in time ==> IsDigit(c) || c in "-: "
    ensures PlainTime(time)
  {
  }

  // ---------------------------------------------------------------- the monitor's pattern

  function SellerPart(): Pattern {
    Repeat(1, Space, false, Lit("seller=T", Repeat(1, Digit, true, End)))
  }

  function BuyerPart(): Pattern {
    Repeat(1, Space, false, Lit("buyer=T", Repeat(1, Digit, true, SellerPart())))
  }

  function PricePart(): Pattern {
    Repeat(1, Space, false, Lit("price=$", Repeat(1, Decimal, true, BuyerPart())))
  }

  function QuantityPart(): Pattern {
    Repeat(1, Space, false, Lit("qty=", Repeat(1, Digit, true, PricePart())))
  }

  function SymbolPart(): Pattern {
    Repeat(1, Space, false, Repeat(1, Word, true, QuantityPart()))
  }

  function MatchPart(): Pattern {
    Lit("MATCH", SymbolPart())
  }

  function TradePattern(): Pattern {
    Lit("[", Repeat(1, NotBracket, true, Lit("]", Repeat(0, Dot, false, MatchPart()))))
  }

  // ---------------------------------------------------------------- the printed line matches as printed

  lemma FieldHit(key: string, cls: Class, next: Pattern, value: string, rest: string, more: seq<string>)
    requires key != [] && !In(key[0], Space) && value != [] && All(value, cls)
    requires rest == [] || !In(rest[0], cls)
    requires MatchAt(next, rest) == Some(more)
    ensures MatchAt(Repeat(1, Space, false, Lit(key, Repeat(1, cls, true, next))), Field(key, value, rest))
         == Some([value] + more)
  {
    GreedyHit(1, cls, true, next, value, rest);
    LitHit(key, Repeat(1, cls, true, next), value + rest);
    GreedyHit(1, Space, false, Lit(key, Repeat(1, cls, true, next)), " ", key + (value + rest));
  }

  lemma FieldsHit(qty: string, price: string, buyer: string, seller: string)
    requires qty != [] && All(qty, Digit) && price != [] && All(price, Decimal)
    requires buyer != [] && All(buyer, Digit) && seller != [] && All(seller, Digit)
    ensures MatchAt(QuantityPart(), Fields(qty, price, buyer, seller)) == Some([qty, price, buyer, seller])
  {
    var f4 := Field("seller=T", seller, "");
    var f3 := Field("buyer=T", buyer, f4);
    var f2 := Field("price=$", price, f3);
    FieldHit("seller=T", Digit, End, seller, "", []);
    FieldHit("buyer=T", Digit, SellerPart(), buyer, f4, [seller] + []);
    FieldHit("price=$", Decimal, BuyerPart(), price, f3, [buyer] + ([seller] + []));
    FieldHit("qty=", Digit, PricePart(), qty, f2, [price] + ([buyer] + ([seller] + [])));
    assert [qty] + ([price] + ([buyer] + ([seller] + []))) == [qty, price, buyer, seller];
  }

  lemma SymbolHit(symbol: string, fields: string, more: seq<string>)
    requires PlainSymbol(symbol) && fields != [] && fields[0] == ' '
    requires MatchAt(QuantityPart(), fields) == Some(more)
    ensures MatchAt(SymbolPart(), Field("", symbol, fields)) == Some([symbol] + more)
  {
    GreedyHit(1, Word, true, QuantityPart(), symbol, fields);
    assert "" + (symbol + fields) == symbol + fields;
    GreedyHit(1, Space, false, Repeat(1, Word, true, QuantityPart()), " ", symbol + fields);
  }

  /** What follows the symbol cannot be read as a symbol and its fields. */
  lemma FieldsAreNoSymbol(fields: string)
    requires " qty=" <= fields
    ensures MatchAt(SymbolPart(), fields).None?
  {
    if MatchAt(SymbolPart(), fields).Some? {
      var m := RepeatSound(SymbolPart(), fields);
      assert m == 1 by {
        assert m > 1 ==> In(fields[..m][1], Space);
      }
      var word := Repeat(1, Word, true, QuantityPart());
      var n := RepeatSound(word, fields[1..]);
      assert n <= 3 by {
        assert n > 3 ==> In(fields[1..][..n][3], Word);
      }
      var blanks := RepeatSound(QuantityPart(), fields[1..][n..]);
    }
  }

  /** Nowhere in the symbol or behind it does the pattern's last part start again. */
  lemma NoMatchInside(symbol: string, fields: string, k: nat)
    requires PlainSymbol(symbol) && " qty=" <= fields && 'M' !in fields && k <= |symbol + fields|
    ensures MatchAt(MatchPart(), (symbol + fields)[k..]).None?
  {
    var u := symbol + fields;
    var s := u[k..];
    if "MATCH" <= s && MatchAt(SymbolPart(), s[5..]).Some? {
      assert s[0] == 'M' == u[k];
      assert k < |symbol|;
      assert u[|symbol|] == ' ' && forall i :: k <= i < k + 5 ==> u[i] == s[i - k] == "MATCH"[i - k] != ' ';
      assert k + 5 <= |symbol|;
      if k + 5 == |symbol| {
        assert s[5..] == fields;
        FieldsAreNoSymbol(fields);
      } else {
        var m := RepeatSound(SymbolPart(), s[5..]);
        assert s[5] == symbol[k + 5];
      }
    }
  }

  lemma NoLaterMatch(symbol: string, fields: string, j: nat)
    requires PlainSymbol(symbol) && " qty=" <= fields && 'M' !in fields
    requires 1 <= j <= |"MATCH" + Field("", symbol, fields)|
    ensures MatchAt(MatchPart(), ("MATCH" + Field("", symbol, fields))[j..]).None?
  {
    var t := "MATCH" + Field("", symbol, fields);
    if j >= 6 {
      assert t[j..] == (symbol + fields)[j - 6..];
      NoMatchInside(symbol, fields, j - 6);
    } else {
      assert t[j] in "ATCH ";
      assert t[j..][0] != 'M';
    }
  }

  /** A character of no number occurs in the fields only if it is in one of their keys. */
  lemma ForeignToFields(qty: string, price: string, buyer: string, seller: string, c: char)
    requires All(qty, Digit) && All(price, Decimal) && All(buyer, Digit) && All(seller, Digit)
    requires !In(c, Decimal) && c !in " qty=price=$buyer=Tseller=T"
    ensures c !in Fields(qty, price, buyer, seller)
  {
    var f4 := Field("seller=T", seller, "");
    var f3 := Field("buyer=T", buyer, f4);
    ForeignToField("seller=T", seller, "", c);
    ForeignToField("buyer=T", buyer, f4, c);
    ForeignToField("price=$", price, f3, c);
    ForeignToField("qty=", qty, Field("price=$", price, f3), c);
  }

  lemma ForeignToField(key: string, value: string, rest: string, c: char)
    requires All(value, Decimal) && !In(c, Decimal) && c != ' ' && c !in key && c !in rest
    ensures c !in Field(key, value, rest)
  {
  }

  /** The wildcard runs to the end of the line and comes back to the one place that the rest matches. */
  lemma WildcardHit(symbol: string, fields: string, more: seq<string>)
    requires PlainSymbol(symbol) && " qty=" <= fields && 'M' !in fields && '\n' !in fields
    requires MatchAt(SymbolPart(), Field("", symbol, fields)) == Some(more)
    ensures MatchAt(Repeat(0, Dot, false, MatchPart()), " [TRADE] " + ("MATCH" + Field("", symbol, fields)))
         == Some(more)
  {
    var blank, t := " [TRADE] ", "MATCH" + Field("", symbol, fields);
    var s := blank + t;
    var p := Repeat(0, Dot, false, MatchPart());
    assert '\n' !in s;
    RunOf(s, "", Dot);
    assert s + "" == s;
    assert s[|blank|..] == t;
    LitHit("MATCH", SymbolPart(), Field("", symbol, fields));
    forall k | |blank| < k <= |s|
      ensures MatchAt(MatchPart(), s[k..]).None?
    {
      assert s[k..] == t[k - |blank|..];
      NoLaterMatch(symbol, fields, k - |blank|);
    }
    LastPlace(p, s, |s|, |blank|);
  }

  lemma LineHit(time: string, rest: string, more: seq<string>)
    requires PlainTime(time)
    requires MatchAt(Repeat(0, Dot, false, MatchPart()), rest) == Some(more)
    ensures Search(TradePattern(), "[" + (time + ("]" + rest))) == Some([time] + more)
  {
    var dots := Repeat(0, Dot, false, MatchPart());
    LitHit("]", dots, rest);
    forall i | 0 <= i < |time|
      ensures In(time[i], NotBracket)
    {
      assert time[i] in time;
    }
    GreedyHit(1, NotBracket, true, Lit("]", dots), time, "]" + rest);
    LitHit("[", Repeat(1, NotBracket, true, Lit("]", dots)), time + ("]" + rest));
  }

  // ---------------------------------------------------------------- what the monitor reads

  datatype TradeEntry = TradeEntry(
    timestamp: string, symbol: string, quantity: int, price: real, buyerId: int, sellerId: int)

  lemma SixGroups()
    ensures Groups(TradePattern()) == 6
  {
    assert Groups(SellerPart()) == 1;
    assert Groups(BuyerPart()) == 2;
    assert Groups(PricePart()) == 3;
    assert Groups(QuantityPart()) == 4;
    assert Groups(SymbolPart()) == 5;
  }

  function ParseLine(line: string): Option<TradeEntry> {
    match Search(TradePattern(), line)
    case None => None
    case Some(c) =>
      SixGroups();
      SearchGroups(TradePattern(), line);
      Some(TradeEntry(c[0], c[1], ToInt(c[2]), ToDouble(c[3]), ToInt(c[4]), ToInt(c[5])))
  }

  /** The entry a logged trade is read back as: everything as it was, the price to the cent. */
  function EntryOf(l: Logged): TradeEntry {
    TradeEntry(l.time, l.trade.symbol, l.trade.quantity, l.cents as real / 100.0,
               l.trade.buyerTraderId, l.trade.sellerTraderId)
  }

  lemma NumberBack(n: nat)
    requires n <= INT_MAX
    ensures ToInt(Dec(n)) == n
  {
    ValueOfDec(n);
  }

  lemma CapturedBack(l: Logged)
    requires Printable(l)
    ensures Search(TradePattern(), Line(l.time, Message(l)))
         == Some([l.time, l.trade.symbol, Dec(l.trade.quantity), PrintCents(l.cents),
                  Dec(l.trade.buyerTraderId), Dec(l.trade.sellerTraderId)])
  {
    var qty, price := Dec(l.trade.quantity), PrintCents(l.cents);
    var buyer, seller := Dec(l.trade.buyerTraderId), Dec(l.trade.sellerTraderId);
    PrintCentsDecimal(l.cents);
    var fields := Fields(qty, price, buyer, seller);
    FieldsHit(qty, price, buyer, seller);
    SymbolHit(l.trade.symbol, fields, [qty, price, buyer, seller]);
    ForeignToFields(qty, price, buyer, seller, 'M');
    ForeignToFields(qty, price, buyer, seller, '\n');
    var more := [l.trade.symbol] + [qty, price, buyer, seller];
    WildcardHit(l.trade.symbol, fields, more);
    var t := "MATCH" + Field("", l.trade.symbol, fields);
    LineHit(l.time, " [TRADE] " + t, more);
    assert [l.time] + more == [l.time, l.trade.symbol, qty, price, buyer, seller];
  }

  /** A printed line is read back as the trade it was printed for. */
  lemma ParsePrinted(l: Logged)
    requires Printable(l)
    ensures ParseLine(Line(l.time, Message(l))) == Some(EntryOf(l))
    ensures var e := ParseLine(Line(l.time, Message(l))).value;
            && e.timestamp == l.time && e.symbol == l.trade.symbol && e.quantity == l.trade.quantity
            && e.buyerId == l.trade.buyerTraderId && e.sellerId == l.trade.sellerTraderId
            && e.price == l.cents as real / 100.0 && -0.005 <= e.price - l.trade.price <= 0.005
  {
    CapturedBack(l);
    NumberBack(l.trade.quantity);
    NumberBack(l.trade.buyerTraderId);
    NumberBack(l.trade.sellerTraderId);
    ToDoubleOfCents(l.cents);
  }

  /** A printed line has no line breaks. */
  lemma PrintedPlain(l: Logged, c: char)
    requires Printable(l) && c in "\r\n"
    ensures c !in Line(l.time, Message(l))
  {
    var qty, price := Dec(l.trade.quantity), PrintCents(l.cents);
    var buyer, seller := Dec(l.trade.buyerTraderId), Dec(l.trade.sellerTraderId);
    PrintCentsDecimal(l.cents);
    ForeignToFields(qty, price, buyer, seller, c);
    assert forall i :: 0 <= i < |l.trade.symbol| ==> In(l.trade.symbol[i], Word);
    assert c !in l.trade.symbol;
  }
}
