/** `CheckersMove` (NOISYSTRESS/Models/CheckersMove.swift): one step from a square to a square. */
module CheckersMoves {
  import opened CheckersTypes

  /**
   * `from`, `to` and `intermediates` are fixed by the initializer; `value` is the
   * score slot of the search framework's update protocol, which nothing in the
   * engine writes.
   */
  datatype CheckersMove = CheckersMove(value: int, from: Position, to: Position, intermediates: seq<Position>)

  /** `CheckersMove(from:to:intermediates:)` with its default empty list of intermediate squares. */
  function NewMove(from: Position, to: Position, intermediates: seq<Position> := []): (m: CheckersMove)
    ensures m.from == from && m.to == to && m.intermediates == intermediates
    ensures m.value == 0
  {
    CheckersMove(0, from, to, intermediates)
  }

  // Decimal rendering of integers, as Swift string interpolation prints an `Int`.

  function DigitChar(d: int): char
    requires 0 <= d < 10
  {
    "0123456789"[d]
  }

  predicate IsDigit(c: char) {
    '0' <= c <= '9'
  }

  function NatToString(n: nat): string
    decreases n
  {
    if n < 10 then [DigitChar(n)] else NatToString(n / 10) + [DigitChar(n % 10)]
  }

  /** A minus sign for negative numbers, then the digits of the magnitude. */
  function IntToString(i: int): string {
    if i < 0 then "-" + NatToString(-i) else NatToString(i)
  }

  /** `description`: `Move(r,c -> r,c)`. */
  function Description(m: CheckersMove): (r: string)
    ensures |r| > 9 && r[..5] == "Move(" && r[|r| - 1] == ')'
  {
    "Move(" + (IntToString(m.from.row) + ("," + (IntToString(m.from.column)
      + (" -> " + (IntToString(m.to.row) + ("," + (IntToString(m.to.column) + ")")))))))
  }

  /** The text of one concrete move, letter for letter. */
  lemma DescriptionExample()
    ensures Description(NewMove(Position(5, 0), Position(4, 1))) == "Move(5,0 -> 4,1)"
    ensures Description(NewMove(Position(2, 7), Position(4, 5))) == "Move(2,7 -> 4,5)"
  {
  }

  /** Reads back a string of decimal digits. */
  function ParseDigits(s: string): int
    requires forall i :: 0 <= i < |s| ==> IsDigit(s[i])
  {
    if s == [] then 0 else ParseDigits(s[..|s| - 1]) * 10 + (s[|s| - 1] as int - '0' as int)
  }

  lemma {:induction false} NatToStringDigits(n: nat)
    ensures |NatToString(n)| > 0
    ensures forall i :: 0 <= i < |NatToString(n)| ==> IsDigit(NatToString(n)[i])
    ensures ParseDigits(NatToString(n)) == n
    decreases n
  {
    if n >= 10 {
      NatToStringDigits(n / 10);
      var s := NatToString(n / 10);
      assert NatToString(n) == s + [DigitChar(n % 10)];
      assert NatToString(n)[..|NatToString(n)| - 1] == s;
    }
  }

  /** Distinct integers print differently. */
  lemma IntToStringInjective(a: int, b: int)
    requires IntToString(a) == IntToString(b)
    ensures a == b
  {
    NatToStringDigits(if a < 0 then -a else a);
    NatToStringDigits(if b < 0 then -b else b);
    assert IntToString(a)[0] == '-' <==> a < 0;
    assert IntToString(b)[0] == '-' <==> b < 0;
    if a < 0 {
      assert NatToString(-a) == IntToString(a)[1..] == NatToString(-b);
    }
  }

  lemma IntToStringHasNoSeparator(i: int)
    ensures ',' !in IntToString(i) && ' ' !in IntToString(i) && ')' !in IntToString(i)
  {
    NatToStringDigits(if i < 0 then -i else i);
  }

  /** Where the first occurrence of `c` in `s` stands (`|s|` when there is none). */
  function IndexOf(s: string, c: char): nat {
    if s == [] || s[0] == c then 0 else 1 + IndexOf(s[1..], c)
  }

  lemma {:induction false} IndexOfSeparator(x: string, y: string, sep: char)
    requires sep !in x
    ensures IndexOf(x + ([sep] + y), sep) == |x|
  {
    if x != [] {
      assert (x + ([sep] + y))[0] == x[0];
      assert (x + ([sep] + y))[1..] == x[1..] + ([sep] + y);
      IndexOfSeparator(x[1..], y, sep);
    }
  }

  /** Splitting at the first separator is unique when the left parts do not contain it. */
  lemma SplitAtSeparator(x: string, y: string, x': string, y': string, sep: char)
    requires sep !in x && sep !in x'
    requires x + ([sep] + y) == x' + ([sep] + y')
    ensures x == x' && y == y'
  {
    var s := x + ([sep] + y);
    IndexOfSeparator(x, y, sep);
    IndexOfSeparator(x', y', sep);
    assert x == s[..|x|] && x' == s[..|x'|];
    assert y == s[|x| + 1..] && y' == s[|x'| + 1..];
  }

  lemma DropPrefix(p: string, r: string)
    ensures (p + r)[|p|..] == r
  {
  }

  /** The description names both squares of the move: two moves print alike only if they join the same squares. */
  lemma DescriptionDeterminesSquares(m: CheckersMove, n: CheckersMove)
    requires Description(m) == Description(n)
    ensures m.from == n.from && m.to == n.to
  {
    var a, b, c, d := IntToString(m.from.row), IntToString(m.from.column), IntToString(m.to.row), IntToString(m.to.column);
    var a', b', c', d' := IntToString(n.from.row), IntToString(n.from.column), IntToString(n.to.row), IntToString(n.to.column);
    IntToStringHasNoSeparator(m.from.row); IntToStringHasNoSeparator(m.from.column);
    IntToStringHasNoSeparator(m.to.row);
    IntToStringHasNoSeparator(n.from.row); IntToStringHasNoSeparator(n.from.column);
    IntToStringHasNoSeparator(n.to.row);
    var tail, tail' := "-> " + (c + ("," + (d + ")"))), "-> " + (c' + ("," + (d' + ")")));
    assert " -> " + (c + ("," + (d + ")"))) == " " + tail;
    assert " -> " + (c' + ("," + (d' + ")"))) == " " + tail';
    assert Description(m) == "Move(" + (a + ("," + (b + (" " + tail))));
    assert Description(n) == "Move(" + (a' + ("," + (b' + (" " + tail'))));
    DropPrefix("Move(", a + ("," + (b + (" " + tail))));
    DropPrefix("Move(", a' + ("," + (b' + (" " + tail'))));
    SplitAtSeparator(a, b + (" " + tail), a', b' + (" " + tail'), ',');
    SplitAtSeparator(b, tail, b', tail', ' ');
    DropPrefix("-> ", c + ("," + (d + ")")));
    DropPrefix("-> ", c' + ("," + (d' + ")")));
    SplitAtSeparator(c, d + ")", c', d' + ")", ',');
    assert d == (d + ")")[..|d|] && d' == (d' + ")")[..|d'|];
    IntToStringInjective(m.from.row, n.from.row);
    IntToStringInjective(m.from.column, n.from.column);
    IntToStringInjective(m.to.row, n.to.row);
    IntToStringInjective(m.to.column, n.to.column);
  }
}
