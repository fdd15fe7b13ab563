/**
 * The personality part of the questionnaire: twelve Likert questions, each
 * scoring one of the eight MBTI-style poles, the four-letter code derived from
 * the pole sums, and the percentage bars of the summary page. Both versions of
 * the survey share the questions and the code.
 */
module Personality {
  import Steps

  /** A question and the pole its answer counts towards. */
  datatype Question = Question(id: string, dim: char)

  /** The questions in the order they are asked. */
  const Questions: seq<Question> := [
    Question("E1", 'E'), Question("I1", 'I'), Question("E2", 'E'),
    Question("S1", 'S'), Question("N1", 'N'), Question("N2", 'N'),
    Question("T1", 'T'), Question("F1", 'F'), Question("T2", 'T'),
    Question("J1", 'J'), Question("P1", 'P'), Question("J2", 'J')
  ]

  /** The eight poles, each a key of the score table. */
  const Poles: set<char> := {'E', 'I', 'S', 'N', 'T', 'F', 'J', 'P'}

  /** Question id to the chosen Likert value (1..5); unanswered questions have no entry. */
  type Answers = map<string, nat>

  /** `Number(answers[id] || 0)`: an unanswered question counts 0. */
  function AnswerValue(answers: Answers, id: string): nat
  {
    if id in answers then answers[id] else 0
  }

  /** The sum of the answers to those of `qs` that count towards `pole`. */
  function Score(qs: seq<Question>, answers: Answers, pole: char): nat
  {
    if qs == [] then 0
    else
      var q := qs[|qs| - 1];
      Score(qs[..|qs| - 1], answers, pole) + (if q.dim == pole then AnswerValue(answers, q.id) else 0)
  }

  /** The table `dims` of the source once every question has been added in. */
  function ScoreTable(answers: Answers): (dims: map<char, nat>)
    ensures dims.Keys == Poles
  {
    map p | p in Poles :: Score(Questions, answers, p)
  }

  /** `letter(a, b)`: the pole with the larger score, or 'X' on a tie. */
  function Letter(dims: map<char, nat>, a: char, b: char): (c: char)
    requires a in dims && b in dims
    ensures c == 'X' || c == a || c == b
    ensures dims[a] > dims[b] ==> c == a
    ensures dims[a] < dims[b] ==> c == b
    ensures dims[a] == dims[b] ==> c == 'X'
  {
    if dims[a] == dims[b] then 'X' else if dims[a] > dims[b] then a else b
  }

  /** The four-letter code: E/I, S/N, T/F, J/P. */
  function Code(dims: map<char, nat>): (code: string)
    requires Poles <= dims.Keys
    ensures |code| == 4
    ensures code[0] == Letter(dims, 'E', 'I') && code[1] == Letter(dims, 'S', 'N')
    ensures code[2] == Letter(dims, 'T', 'F') && code[3] == Letter(dims, 'J', 'P')
  {
    [Letter(dims, 'E', 'I'), Letter(dims, 'S', 'N'), Letter(dims, 'T', 'F'), Letter(dims, 'J', 'P')]
  }

  /** The code the summary page shows for `answers`. */
  function Mbti(answers: Answers): string
  {
    Code(ScoreTable(answers))
  }

  /** Every question counts towards one of the eight poles. */
  lemma QuestionsScorePoles()
    ensures forall i :: 0 <= i < |Questions| ==> Questions[i].dim in Poles
  {
  }

  /** The loop of the `mbti` memo: start every pole at 0 and add each answer in `qs` to its pole. */
  method SumPoles(qs: seq<Question>, answers: Answers) returns (dims: map<char, nat>)
    requires forall i :: 0 <= i < |qs| ==> qs[i].dim in Poles
    ensures dims.Keys == Poles
    ensures forall p :: p in Poles ==> dims[p] == Score(qs, answers, p)
  {
    dims := map['E' := 0, 'I' := 0, 'S' := 0, 'N' := 0, 'T' := 0, 'F' := 0, 'J' := 0, 'P' := 0];
    for i := 0 to |qs|
      invariant dims.Keys == Poles
      invariant forall p :: p in Poles ==> dims[p] == Score(qs[..i], answers, p)
    {
      var q := qs[i];
      var v := AnswerValue(answers, q.id);
      assert qs[..i + 1][..i] == qs[..i] && qs[..i + 1][i] == q;
      dims := dims[q.dim := dims[q.dim] + v];
    }
    assert qs[..|qs|] == qs;
  }

  /**
   * The `mbti` memo: the pole sums over all questions and the code read off
   * them, which is the code of the score table.
   */
  method ComputeMbti(answers: Answers) returns (code: string, dims: map<char, nat>)
    ensures dims == ScoreTable(answers)
    ensures code == Mbti(answers)
  {
    QuestionsScorePoles();
    dims := SumPoles(Questions, answers);
    code := [Letter(dims, 'E', 'I'), Letter(dims, 'S', 'N'), Letter(dims, 'T', 'F'), Letter(dims, 'J', 'P')];
  }

  /** No answer to any of `qs` leaves every pole at 0. */
  lemma {:induction false} ScoreWithoutAnswers(qs: seq<Question>, answers: Answers, pole: char)
    requires forall i :: 0 <= i < |qs| ==> AnswerValue(answers, qs[i].id) == 0
    ensures Score(qs, answers, pole) == 0
  {
    if qs != [] {
      ScoreWithoutAnswers(qs[..|qs| - 1], answers, pole);
    }
  }

  /** With no question answered (or every answer 0) the code is "XXXX". */
  lemma NoAnswersGiveXXXX(answers: Answers)
    requires forall i :: 0 <= i < |Questions| ==> AnswerValue(answers, Questions[i].id) == 0
    ensures Mbti(answers) == "XXXX"
  {
    forall p | p in Poles ensures Score(Questions, answers, p) == 0 {
      ScoreWithoutAnswers(Questions, answers, p);
    }
  }

  /** A pole's score only depends on the answers to questions that count towards it. */
  lemma {:induction false} ScoreDependsOnOwnQuestions(qs: seq<Question>, a1: Answers, a2: Answers, pole: char)
    requires forall i :: 0 <= i < |qs| && qs[i].dim == pole ==> AnswerValue(a1, qs[i].id) == AnswerValue(a2, qs[i].id)
    ensures Score(qs, a1, pole) == Score(qs, a2, pole)
  {
    if qs != [] {
      ScoreDependsOnOwnQuestions(qs[..|qs| - 1], a1, a2, pole);
    }
  }

  /** Raising any answers never lowers the score of any pole. */
  lemma {:induction false} ScoreMonotone(qs: seq<Question>, a1: Answers, a2: Answers, pole: char)
    requires forall i :: 0 <= i < |qs| ==> AnswerValue(a1, qs[i].id) <= AnswerValue(a2, qs[i].id)
    ensures Score(qs, a1, pole) <= Score(qs, a2, pole)
  {
    if qs != [] {
      ScoreMonotone(qs[..|qs| - 1], a1, a2, pole);
    }
  }

  /**
   * `DimBar`: `Math.round(value / Math.max(1, value + pair) * 100)`, the share
   * of a pole in its pair as a whole percentage.
   */
  function BarPercent(value: nat, pair: nat): (pct: int)
    ensures 0 <= pct <= 100
    ensures value == 0 ==> pct == 0
    ensures value > 0 && pair == 0 ==> pct == 100
  {
    var total := if value + pair > 1 then value + pair else 1;
    var pct := Steps.RoundRatio(100 * value, total);
    BarBounds(value, pair, total, pct);
    pct
  }

  lemma BarBounds(value: nat, pair: nat, total: int, pct: int)
    requires total == if value + pair > 1 then value + pair else 1
    requires 2 * pct * total <= 200 * value + total < 2 * pct * total + 2 * total
    ensures 0 <= pct <= 100
    ensures value == 0 ==> pct == 0
    ensures value > 0 && pair == 0 ==> pct == 100
  {
    var m := total * (2 * pct);
    assert value <= total;
    assert m < total * 202;
    Steps.FactorLess(total, 2 * pct, 202);
    assert total * (-1) < m;
    Steps.FactorLess(total, -1, 2 * pct);
    if value == 0 {
      assert m < total * 2;
      Steps.FactorLess(total, 2 * pct, 2);
    }
    if value > 0 && pair == 0 {
      assert total * 199 < m;
      Steps.FactorLess(total, 199, 2 * pct);
    }
  }

  /** The two bars of a pair add up to 100, or 101 when both shares end in exactly one half. */
  lemma BarPercentComplement(value: nat, pair: nat)
    requires value + pair > 0
    ensures BarPercent(value, pair) + BarPercent(pair, value) in {100, 101}
  {
    var t := value + pair;
    var a, b := Steps.RoundRatio(100 * value, t), Steps.RoundRatio(100 * pair, t);
    assert a == BarPercent(value, pair) && b == BarPercent(pair, value);
    assert t * (2 * (a + b)) < t * 204;
    Steps.FactorLess(t, 2 * (a + b), 204);
    assert t * 198 < t * (2 * (a + b));
    Steps.FactorLess(t, 198, 2 * (a + b));
  }
}
