/**
 * The questionnaire's step counter, shared by both versions of the survey:
 * steps 0..2 are form pages, step 3 is the summary. Also JavaScript's
 * `Math.round` on a ratio of integers, which the progress bar and the
 * personality bars use.
 */
module Steps {

  const TotalSteps: nat := 4
  /** The summary page. */
  const LastStep: nat := TotalSteps - 1
  /** The skills-and-preferences page; leaving it imports the typed skills. */
  const SkillsStep: nat := TotalSteps - 2

  /** `Math.min(s + 1, TOTAL_STEPS - 1)`: one page on, never past the summary. */
  function NextStep(s: nat): (r: nat)
    ensures r <= LastStep
    ensures s < LastStep ==> r == s + 1
    ensures s >= LastStep ==> r == LastStep
  {
    if s + 1 < LastStep then s + 1 else LastStep
  }

  /** `Math.max(0, s - 1)`: one page back, never before the first. */
  function PrevStep(s: nat): (r: nat)
    ensures s > 0 ==> r + 1 == s
    ensures s == 0 ==> r == 0
  {
    if s == 0 then 0 else s - 1
  }

  /** Going back undoes going forward from a form page, and forward undoes back. */
  lemma NextPrevInverse(s: nat)
    ensures s < LastStep ==> PrevStep(NextStep(s)) == s
    ensures 0 < s <= LastStep ==> NextStep(PrevStep(s)) == s
  {
  }

  /** `n` presses of "Next" from `s`, none of them blocked. */
  function Advance(s: nat, n: nat): nat
    decreases n
  {
    if n == 0 then s else Advance(NextStep(s), n - 1)
  }

  /** Unblocked presses of "Next" walk one page at a time to the summary (three suffice from any page) and stay there. */
  lemma {:induction false} AdvanceReachesSummary(s: nat, n: nat)
    requires s <= LastStep
    ensures Advance(s, n) <= LastStep
    ensures n >= LastStep - s ==> Advance(s, n) == LastStep
    ensures n < LastStep - s ==> Advance(s, n) == s + n
    decreases n
  {
    if n > 0 {
      AdvanceReachesSummary(NextStep(s), n - 1);
    }
  }

  /**
   * `Math.round(p / q)` for integers and a positive `q`: the integer nearest
   * to the ratio, halves rounded up.
   */
  function RoundRatio(p: int, q: int): (r: int)
    requires q > 0
    ensures 2 * r * q <= 2 * p + q < 2 * r * q + 2 * q
  {
    var n, d := 2 * p + q, 2 * q;
    assert n == d * (n / d) + n % d;
    n / d
  }

  /** Only one integer satisfies the rounding bounds, so they determine `RoundRatio`. */
  lemma RoundRatioUnique(p: int, q: int, r: int)
    requires q > 0
    requires 2 * r * q <= 2 * p + q < 2 * r * q + 2 * q
    ensures r == RoundRatio(p, q)
  {
    var r0 := RoundRatio(p, q);
    assert q * (2 * r) < q * (2 * r0 + 2) && q * (2 * r0) < q * (2 * r + 2);
    FactorLess(q, 2 * r, 2 * r0 + 2);
    FactorLess(q, 2 * r0, 2 * r + 2);
  }

  lemma FactorLess(q: int, a: int, b: int)
    requires q > 0 && q * a < q * b
    ensures a < b
  {
  }
}
