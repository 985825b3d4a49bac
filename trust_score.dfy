/**
 * The trust score derived from the number of khata entries. The score is
 * computed in two places with the operations in a different order:
 *   the khata screen:     min(100, round(2.5 n + bonus))
 *   the dashboard screen: round(min(100, 2.5 n + bonus))
 * where bonus is 25 once n reaches 30. Both are stated here over exact reals,
 * with JavaScript's Math.round, and proved equal to one integer closed form.
 */
module TrustScore {

  /** Entry count from which the 25-point bonus applies. */
  const BonusThreshold: nat := 30
  const BonusPoints: int := 25
  const MaxScore: int := 100
  /** Score from which the loan certificate is unlocked. */
  const LoanThreshold: int := 75

  /** JavaScript's Math.round: the nearest integer, halves rounding towards +infinity. */
  function JsRound(x: real): (r: int)
    ensures x - 0.5 < r as real <= x + 0.5
  {
    (x + 0.5).Floor
  }

  function Bonus(n: nat): real
  {
    if n >= BonusThreshold then BonusPoints as real else 0.0
  }

  /** The khata screen's formula: round first, then clamp; 100 from the bonus threshold on. */
  function KhataScore(n: nat): (r: int)
    ensures 0 <= r <= MaxScore
    ensures n >= BonusThreshold ==> r == MaxScore
  {
    var rounded := JsRound(2.5 * n as real + Bonus(n));
    if rounded < MaxScore then rounded else MaxScore
  }

  /** The dashboard screen's formula: clamp first, then round; 100 from the bonus threshold on. */
  function DashboardScore(n: nat): (r: int)
    ensures 0 <= r <= MaxScore
    ensures n >= BonusThreshold ==> r == MaxScore
  {
    var raw := 2.5 * n as real + Bonus(n);
    JsRound(if raw < MaxScore as real then raw else MaxScore as real)
  }

  /** The integer closed form: below the threshold, round(5n/2) is (5n + 1) / 2. */
  function Score(n: nat): int
  {
    if n >= BonusThreshold then MaxScore else (5 * n + 1) / 2
  }

  /** Rounding 2.5 n is exact integer arithmetic. */
  lemma RoundTwoAndAHalf(n: nat)
    ensures JsRound(2.5 * n as real) == (5 * n + 1) / 2
  {
    var k := (5 * n + 1) / 2;
    assert 2 * k <= 5 * n + 1 < 2 * k + 2;
    assert k as real <= 2.5 * n as real + 0.5 < k as real + 1.0;
  }

  lemma KhataScoreIsScore(n: nat)
    ensures KhataScore(n) == Score(n)
  {
    if n < BonusThreshold {
      RoundTwoAndAHalf(n);
    } else {
      assert 2.5 * n as real + Bonus(n) >= 100.0;
    }
  }

  lemma DashboardScoreIsScore(n: nat)
    ensures DashboardScore(n) == Score(n)
  {
    if n < BonusThreshold {
      RoundTwoAndAHalf(n);
    } else {
      assert 2.5 * n as real + Bonus(n) >= 100.0;
    }
  }

  /** The two screens always show the same score. */
  lemma ScreensAgree(n: nat)
    ensures KhataScore(n) == DashboardScore(n)
  {
    KhataScoreIsScore(n);
    DashboardScoreIsScore(n);
  }

  lemma ScoreMonotonic(m: nat, n: nat)
    requires m <= n
    ensures KhataScore(m) <= KhataScore(n)
  {
    KhataScoreIsScore(m);
    KhataScoreIsScore(n);
  }

  /** The jump at the bonus threshold: 29 entries score 73, 30 entries score 100. */
  lemma ScoreAtThreshold()
    ensures KhataScore(29) == 73 && KhataScore(30) == 100
    ensures DashboardScore(29) == 73 && DashboardScore(30) == 100
  {
    KhataScoreIsScore(29);
    KhataScoreIsScore(30);
    DashboardScoreIsScore(29);
    DashboardScoreIsScore(30);
  }

  /** No ledger at all scores 0. */
  lemma EmptyLedgerScoresZero()
    ensures KhataScore(0) == 0 && DashboardScore(0) == 0
  {
    KhataScoreIsScore(0);
    DashboardScoreIsScore(0);
  }

  /** The loan certificate is unlocked exactly from 30 entries on. */
  lemma LoanUnlockedIffThreshold(n: nat)
    ensures DashboardScore(n) >= LoanThreshold <==> n >= BonusThreshold
  {
    DashboardScoreIsScore(n);
  }
}
