/** The ordered risk levels LOW < MODERATE < HIGH < CRITICAL of lambda/predictor.py. */
module Risk {

  datatype Level = LOW | MODERATE | HIGH | CRITICAL

  /** Position of a level in the severity order. */
  function Rank(l: Level): nat
  {
    match l
    case LOW => 0
    case MODERATE => 1
    case HIGH => 2
    case CRITICAL => 3
  }

  /** `a` is no more severe than `b`. */
  predicate AtMost(a: Level, b: Level)
  {
    Rank(a) <= Rank(b)
  }

  /** The more severe of two levels. */
  function Max(a: Level, b: Level): (m: Level)
    ensures AtMost(a, m) && AtMost(b, m)
    ensures m == a || m == b
  {
    if Rank(a) >= Rank(b) then a else b
  }

  /** The text the source stores in `risk_level` and prints in messages. */
  function Name(l: Level): (s: string)
    ensures |s| >= 3
  {
    match l
    case LOW => "LOW"
    case MODERATE => "MODERATE"
    case HIGH => "HIGH"
    case CRITICAL => "CRITICAL"
  }

  /** Each level is told apart by the first letter of its name, so a name names one level. */
  lemma NameDeterminesLevel(a: Level, b: Level)
    requires Name(a)[0] == Name(b)[0]
    ensures a == b
  {
  }
}
