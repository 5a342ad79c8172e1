/**
 * The goal's scoreboard: how the score evolves under baskets and resets, and
 * the decimal text the scoreboard shows (at least two characters, with a
 * leading zero below ten).
 */
module GoalRules {

  /** Points for one ball through the target. */
  const BasketPoints: int := 2

  function DigitChar(d: int): (c: char)
    requires 0 <= d < 10
    ensures '0' <= c <= '9' && c as int - '0' as int == d
  {
    ('0' as int + d) as char
  }

  predicate IsDigit(c: char)
  {
    '0' <= c <= '9'
  }

  predicate AllDigits(s: string)
  {
    forall i :: 0 <= i < |s| ==> IsDigit(s[i])
  }

  /** The decimal digits of n, most significant first, without leading zeros. */
  function NatToString(n: nat): (s: string)
    ensures |s| >= 1 && AllDigits(s)
    ensures n >= 10 <==> |s| >= 2
    ensures |s| >= 2 ==> s[0] != '0'
  {
    if n < 10 then [DigitChar(n)] else NatToString(n / 10) + [DigitChar(n % 10)]
  }

  /** The value of a string of decimal digits. */
  function ParseNat(s: string): nat
    requires AllDigits(s)
  {
    if s == [] then 0
    else ParseNat(s[..|s| - 1]) * 10 + (s[|s| - 1] as int - '0' as int)
  }

  /** Reading back the printed digits gives the number. */
  lemma {:induction false} ParsePrinted(n: nat)
    ensures ParseNat(NatToString(n)) == n
  {
    if n >= 10 {
      var s := NatToString(n);
      assert s[..|s| - 1] == NatToString(n / 10);
      ParsePrinted(n / 10);
    }
  }

  /** A leading zero does not change the value of a digit string. */
  lemma {:induction false} ParseLeadingZero(s: string)
    requires AllDigits(s)
    ensures ParseNat("0" + s) == ParseNat(s)
  {
    if s != [] {
      var z := "0" + s;
      assert z[..|z| - 1] == "0" + s[..|s| - 1];
      ParseLeadingZero(s[..|s| - 1]);
    } else {
      assert ("0" + s)[..0] == [];
    }
  }

  /** Stream insertion of an int: a minus sign for negative values, then the digits. */
  function IntToString(i: int): string
  {
    if i < 0 then "-" + NatToString(-i) else NatToString(i)
  }

  /**
   * The scoreboard text: a "0" is written first when the score is below ten,
   * and then the score itself.
   */
  function ScoreText(score: int): (s: string)
    ensures 0 <= score ==> AllDigits(s) && ParseNat(s) == score
    ensures 0 <= score < 100 ==> |s| == 2
    ensures 10 <= score ==> s == NatToString(score)
    ensures score < 0 ==> |s| >= 3 && s[..2] == "0-" && s[2..] == NatToString(-score)
  {
    var digits := IntToString(score);
    if score < 10 then
      if score >= 0 then
        ParseLeadingZero(digits);
        ParsePrinted(score);
        "0" + digits
      else
        "0" + digits
    else
      ParsePrinted(score);
      digits
  }

  /** What happens to a goal's score: a ball passes the target, or the machine is reset. */
  datatype GoalEvent = Basket | Reset

  /** The score after the events, starting from zero. */
  function ScoreAfter(events: seq<GoalEvent>): int
  {
    if events == [] then 0
    else
      match events[|events| - 1]
      case Basket => ScoreAfter(events[..|events| - 1]) + BasketPoints
      case Reset => 0
  }

  /** The number of baskets among the events. */
  function Baskets(events: seq<GoalEvent>): (n: nat)
    ensures n <= |events|
  {
    if events == [] then 0 else (if events[0] == Basket then 1 else 0) + Baskets(events[1..])
  }

  /** The position just after the last reset, or 0 when there is none. */
  function SinceReset(events: seq<GoalEvent>): (k: nat)
    ensures k <= |events|
    ensures forall i :: k <= i < |events| ==> events[i] == Basket
    ensures k > 0 ==> events[k - 1] == Reset
  {
    if events == [] then 0
    else if events[|events| - 1] == Reset then |events|
    else
      var front := events[..|events| - 1];
      assert forall i :: 0 <= i < |front| ==> front[i] == events[i];
      assert events[|events| - 1] == Basket;
      SinceReset(front)
  }

  lemma {:induction false} BasketsAppend(events: seq<GoalEvent>, e: GoalEvent)
    ensures Baskets(events + [e]) == Baskets(events) + (if e == Basket then 1 else 0)
  {
    if events == [] {
      assert [e][1..] == [];
    } else {
      assert (events + [e])[1..] == events[1..] + [e];
      BasketsAppend(events[1..], e);
    }
  }

  /** The score is two points for every basket since the last reset. */
  lemma {:induction false} ScoreCountsBaskets(events: seq<GoalEvent>)
    ensures ScoreAfter(events) == BasketPoints * Baskets(events[SinceReset(events)..])
  {
    if events != [] {
      var front := events[..|events| - 1];
      var e := events[|events| - 1];
      if e == Reset {
        assert events[|events|..] == [];
      } else {
        ScoreCountsBaskets(front);
        var k := SinceReset(front);
        assert events[k..] == front[k..] + [e];
        BasketsAppend(front[k..], e);
      }
    }
  }

  /** Every score a goal reaches is a non-negative even number. */
  lemma {:induction false} ScoreEven(events: seq<GoalEvent>)
    ensures ScoreAfter(events) >= 0 && ScoreAfter(events) % 2 == 0
  {
    if events != [] {
      ScoreEven(events[..|events| - 1]);
    }
  }
}
