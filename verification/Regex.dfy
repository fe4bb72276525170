/** The backtracking regular expressions the log monitor uses: literals and greedy repetitions of a class. */
module Regex {
  import opened Options

  datatype Class = NotBracket | Dot | Space | Word | Digit | Decimal

  predicate IsDigit(c: char) {
    '0' <= c <= '9'
  }

  predicate In(c: char, cls: Class) {
    match cls
    case NotBracket => c != ']'
    case Dot => c != '\n'
    case Space => c == ' ' || '\t' <= c <= '\r'
    case Word => 'a' <= c <= 'z' || 'A' <= c <= 'Z' || IsDigit(c) || c == '_'
    case Digit => IsDigit(c)
    case Decimal => IsDigit(c) || c == '.'
  }

  /** `Repeat(1, cls, ...)` is cls+ and `Repeat(0, cls, ...)` is cls*; a captured one is in parentheses. */
  datatype Pattern = End | Lit(text: string, next: Pattern) | Repeat(min: nat, cls: Class, capture: bool, next: Pattern)

  /** Length of the longest prefix in the class. */
  function RunLength(s: string, cls: Class): (n: nat)
    ensures n <= |s|
  {
    if s == [] || !In(s[0], cls) then 0 else 1 + RunLength(s[1..], cls)
  }

  /** Captures of the first way to match the pattern at the start of s, trying longer repetitions first. */
  function MatchAt(p: Pattern, s: string): Option<seq<string>>
    decreases p, |s| + 1
  {
    match p
    case End => Some([])
    case Lit(text, next) => if text <= s then MatchAt(next, s[|text|..]) else None
    case Repeat(_, cls, _, _) => TryLengths(p, s, RunLength(s, cls))
  }

  /** Repetitions of length n, and if none leads to a match, shorter ones. */
  function TryLengths(p: Pattern, s: string, n: nat): Option<seq<string>>
    requires p.Repeat? && n <= |s|
    decreases p, n
  {
    if n < p.min then None
    else
      match MatchAt(p.next, s[n..])
      case Some(caps) => Some(if p.capture then [s[..n]] + caps else caps)
      case None => if n == 0 then None else TryLengths(p, s, n - 1)
  }

  /** The leftmost match anywhere in the line. */
  function Search(p: Pattern, s: string): Option<seq<string>> {
    var m := MatchAt(p, s);
    if m.Some? || s == [] then m else Search(p, s[1..])
  }

  predicate All(s: string, cls: Class) {
    forall i :: 0 <= i < |s| ==> In(s[i], cls)
  }

  /** The class run at the start of s ends where s stops being in the class. */
  lemma {:induction false} RunOf(run: string, tail: string, cls: Class)
    requires All(run, cls) && (tail == [] || !In(tail[0], cls))
    ensures RunLength(run + tail, cls) == |run|
  {
    if run == [] {
      assert run + tail == tail;
    } else {
      assert (run + tail)[1..] == run[1..] + tail;
      RunOf(run[1..], tail, cls);
    }
  }

  lemma {:induction false} RunIsAll(s: string, cls: Class)
    ensures All(s[..RunLength(s, cls)], cls)
  {
    if s != [] && In(s[0], cls) {
      RunIsAll(s[1..], cls);
      assert s[..RunLength(s, cls)] == [s[0]] + s[1..][..RunLength(s[1..], cls)];
    }
  }

  lemma LitHit(text: string, next: Pattern, tail: string)
    ensures MatchAt(Lit(text, next), text + tail) == MatchAt(next, tail)
  {
    assert (text + tail)[|text|..] == tail;
  }

  /** If the rest matches after the whole run, the repetition takes the whole run. */
  lemma GreedyHit(min: nat, cls: Class, capture: bool, next: Pattern, run: string, tail: string)
    requires All(run, cls) && |run| >= min && (tail == [] || !In(tail[0], cls))
    requires MatchAt(next, tail).Some?
    ensures MatchAt(Repeat(min, cls, capture, next), run + tail)
         == Some(if capture then [run] + MatchAt(next, tail).value else MatchAt(next, tail).value)
  {
    RunOf(run, tail, cls);
    assert (run + tail)[|run|..] == tail && (run + tail)[..|run|] == run;
  }

  /** A repetition only matches where some prefix in its class is followed by a match of the rest. */
  lemma {:induction false} TrySound(p: Pattern, s: string, n: nat) returns (m: nat)
    requires p.Repeat? && n <= |s| && TryLengths(p, s, n).Some?
    ensures p.min <= m <= n && MatchAt(p.next, s[m..]).Some?
    decreases n
  {
    if MatchAt(p.next, s[n..]).Some? {
      m := n;
    } else {
      m := TrySound(p, s, n - 1);
    }
  }

  lemma RepeatSound(p: Pattern, s: string) returns (m: nat)
    requires p.Repeat? && MatchAt(p, s).Some?
    ensures p.min <= m <= |s| && All(s[..m], p.cls) && MatchAt(p.next, s[m..]).Some?
    ensures m > 0 ==> In(s[0], p.cls)
  {
    m := TrySound(p, s, RunLength(s, p.cls));
    RunIsAll(s, p.cls);
    var run := s[..RunLength(s, p.cls)];
    assert s[..m] == run[..m];
    assert m > 0 ==> s[..m][0] == s[0];
  }

  /** A greedy repetition stops at the last place where the rest matches. */
  lemma {:induction false} LastPlace(p: Pattern, s: string, n: nat, at: nat)
    requires p.Repeat? && !p.capture && p.min <= at <= n <= |s|
    requires MatchAt(p.next, s[at..]).Some?
    requires forall k :: at < k <= n ==> MatchAt(p.next, s[k..]).None?
    ensures TryLengths(p, s, n) == MatchAt(p.next, s[at..])
    decreases n
  {
    if n > at {
      LastPlace(p, s, n - 1, at);
    }
  }

  /** A line without the pattern's first character does not match. */
  lemma {:induction false} NoFirstNoMatch(text: string, next: Pattern, s: string)
    requires text != [] && text[0] !in s
    ensures Search(Lit(text, next), s).None?
  {
    if s != [] {
      assert forall c :: c in s[1..] ==> c in s;
      NoFirstNoMatch(text, next, s[1..]);
    }
  }

  /** How many captures a match yields. */
  function Groups(p: Pattern): nat {
    match p
    case End => 0
    case Lit(_, next) => Groups(next)
    case Repeat(_, _, capture, next) => (if capture then 1 else 0) + Groups(next)
  }

  lemma {:induction false} MatchGroups(p: Pattern, s: string)
    ensures MatchAt(p, s).Some? ==> |MatchAt(p, s).value| == Groups(p)
    decreases p, |s| + 1
  {
    match p
    case End =>
    case Lit(text, next) =>
      if text <= s {
        MatchGroups(next, s[|text|..]);
      }
    case Repeat(_, cls, _, _) => TryGroups(p, s, RunLength(s, cls));
  }

  lemma {:induction false} TryGroups(p: Pattern, s: string, n: nat)
    requires p.Repeat? && n <= |s|
    ensures TryLengths(p, s, n).Some? ==> |TryLengths(p, s, n).value| == Groups(p)
    decreases p, n
  {
    MatchGroups(p.next, s[n..]);
    if n > 0 {
      TryGroups(p, s, n - 1);
    }
  }

  lemma {:induction false} SearchGroups(p: Pattern, s: string)
    ensures Search(p, s).Some? ==> |Search(p, s).value| == Groups(p)
  {
    MatchGroups(p, s);
    if s != [] {
      SearchGroups(p, s[1..]);
    }
  }

  /** The classes character by character. */
  lemma ClassesAre(c: char)
    ensures In(c, Space) <==> c in " \t\n\r" || c as int == 11 || c as int == 12
    ensures In(c, Word) <==> 'a' <= c <= 'z' || 'A' <= c <= 'Z' || '0' <= c <= '9' || c == '_'
    ensures In(c, Digit) <==> c in "0123456789"
    ensures In(c, Decimal) <==> c in "0123456789."
    ensures (In(c, NotBracket) <==> c != ']') && (In(c, Dot) <==> c != '\n')
  {
  }

  /** A match is looked for everywhere: text in front without the pattern's first character makes no difference. */
  lemma {:induction false} FrontSkipped(text: string, next: Pattern, front: string, s: string)
    requires text != [] && text[0] !in front
    ensures Search(Lit(text, next), front + s) == Search(Lit(text, next), s)
  {
    if front == [] {
      assert front + s == s;
    } else {
      assert (front + s)[0] == front[0] && (front + s)[1..] == front[1..] + s;
      FrontSkipped(text, next, front[1..], s);
    }
  }
}
