/**
 * The stand-alone questionnaire: the same four steps as the survey page, but
 * with validation switched on, a progress bar, a reset button and summary
 * helpers. Validation runs a fixed list of checks per step and reports the
 * first that fails.
 */
module Questionnaire {
  import opened Wrappers
  import opened Text
  import opened Steps
  import opened Personality

  /** The "Basic Info" answers; every field starts as "". */
  datatype Basic = Basic(
    name: string, ageBand: string, edu: string, major: string, status: string,
    years: string, city: string, workAuth: string, weekly: string, links: string)

  /** The "Skills & Preferences" answers besides the skills text. */
  datatype Prefs = Prefs(
    roles: seq<string>, industries: seq<string>, stage: string, size: string,
    workMode: string, travel: string, flexibility: string, values: seq<string>,
    risk: string, path: string, salary: string, startTime: string,
    constraints: string, vision: string)

  const EmptyBasic: Basic := Basic("", "", "", "", "", "", "", "", "", "")
  const EmptyPrefs: Prefs := Prefs([], [], "", "", "", "", "", [], "", "", "", "", "", "")

  /** Everything the form has collected. */
  datatype Form = Form(basic: Basic, personality: Answers, skillsText: string, prefs: Prefs)

  /** The checks of the form, one per message. */
  datatype Check =
    | NameGiven | AgeBandGiven | EduGiven | StatusGiven
    | PersonalityDone
    | SkillsGiven | WorkModeGiven | RolesGiven

  /** The checks of each step, in the order `validate` runs them; the summary has none. */
  function ChecksOf(step: nat): seq<Check>
  {
    if step == 0 then [NameGiven, AgeBandGiven, EduGiven, StatusGiven]
    else if step == 1 then [PersonalityDone]
    else if step == 2 then [SkillsGiven, WorkModeGiven, RolesGiven]
    else []
  }

  /** The number of questions in `qs` with no answer or a 0 answer (`!personality[q.id]`). */
  function Unanswered(qs: seq<Question>, answers: Answers): (n: nat)
    ensures n <= |qs|
    ensures n == 0 <==> forall i :: 0 <= i < |qs| ==> AnswerValue(answers, qs[i].id) != 0
  {
    if qs == [] then 0
    else
      var rest := Unanswered(qs[1..], answers);
      assert forall i :: 1 <= i < |qs| ==> qs[i] == qs[1..][i - 1];
      rest + (if AnswerValue(answers, qs[0].id) == 0 then 1 else 0)
  }

  /** Whether the form passes a check. */
  predicate Passes(c: Check, f: Form)
  {
    match c
    case NameGiven => Trim(f.basic.name) != ""
    case AgeBandGiven => f.basic.ageBand != ""
    case EduGiven => f.basic.edu != ""
    case StatusGiven => f.basic.status != ""
    case PersonalityDone => Unanswered(Questions, f.personality) == 0
    case SkillsGiven => Trim(f.skillsText) != ""
    case WorkModeGiven => f.prefs.workMode != ""
    case RolesGiven => |f.prefs.roles| > 0
  }

  const UnfinishedPrefix: string := "Please finish the personality test: "
  const UnfinishedSuffix: string := " item(s) left"

  /** The message shown when a check fails. */
  function Message(c: Check, f: Form): (msg: string)
    ensures msg != ""
  {
    match c
    case NameGiven => "Please enter your name"
    case AgeBandGiven => "Please select your age band"
    case EduGiven => "Please select your highest education"
    case StatusGiven => "Please select your current status"
    case PersonalityDone => UnfinishedPrefix + NatToString(Unanswered(Questions, f.personality)) + UnfinishedSuffix
    case SkillsGiven => "Please list the skills you currently possess"
    case WorkModeGiven => "Please choose a work mode"
    case RolesGiven => "Please choose at least one target role"
  }

  /** The position of the first check of `cs` that the form fails, or `|cs|` when it passes them all. */
  function FirstFailure(cs: seq<Check>, f: Form): (i: nat)
    ensures i <= |cs|
    ensures forall j :: 0 <= j < i ==> Passes(cs[j], f)
    ensures i < |cs| ==> !Passes(cs[i], f)
  {
    if cs == [] || !Passes(cs[0], f) then 0
    else
      var i := FirstFailure(cs[1..], f);
      assert forall j :: 1 <= j < 1 + i ==> cs[j] == cs[1..][j - 1];
      1 + i
  }

  /** What validation of a step reports: the message of its first failing check, or "" when none fails. */
  function Report(step: nat, f: Form): (msg: string)
    ensures msg == "" <==> forall i :: 0 <= i < |ChecksOf(step)| ==> Passes(ChecksOf(step)[i], f)
  {
    var cs := ChecksOf(step);
    var i := FirstFailure(cs, f);
    if i < |cs| then Message(cs[i], f) else ""
  }

  /** `validate(s)`, as the source writes it: one `if` per check, in order, returning the first message. */
  function Validate(step: nat, f: Form): (msg: string)
    ensures msg == Report(step, f)
  {
    ValidateIsReport(step, f);
    if step == 0 && Trim(f.basic.name) == "" then "Please enter your name"
    else if step == 0 && f.basic.ageBand == "" then "Please select your age band"
    else if step == 0 && f.basic.edu == "" then "Please select your highest education"
    else if step == 0 && f.basic.status == "" then "Please select your current status"
    else if step == 1 && Unanswered(Questions, f.personality) > 0 then
      UnfinishedPrefix + NatToString(Unanswered(Questions, f.personality)) + UnfinishedSuffix
    else if step == 2 && Trim(f.skillsText) == "" then "Please list the skills you currently possess"
    else if step == 2 && f.prefs.workMode == "" then "Please choose a work mode"
    else if step == 2 && |f.prefs.roles| == 0 then "Please choose at least one target role"
    else ""
  }

  lemma ValidateIsReport(step: nat, f: Form)
    ensures Report(step, f) ==
      if step == 0 && Trim(f.basic.name) == "" then "Please enter your name"
      else if step == 0 && f.basic.ageBand == "" then "Please select your age band"
      else if step == 0 && f.basic.edu == "" then "Please select your highest education"
      else if step == 0 && f.basic.status == "" then "Please select your current status"
      else if step == 1 && Unanswered(Questions, f.personality) > 0 then
        UnfinishedPrefix + NatToString(Unanswered(Questions, f.personality)) + UnfinishedSuffix
      else if step == 2 && Trim(f.skillsText) == "" then "Please list the skills you currently possess"
      else if step == 2 && f.prefs.workMode == "" then "Please choose a work mode"
      else if step == 2 && |f.prefs.roles| == 0 then "Please choose at least one target role"
      else ""
  {
    if step == 0 {
      ReportBasicInfo(f);
    } else if step == 2 {
      ReportSkills(f);
    }
  }

  lemma ReportBasicInfo(f: Form)
    ensures Report(0, f) ==
      if Trim(f.basic.name) == "" then "Please enter your name"
      else if f.basic.ageBand == "" then "Please select your age band"
      else if f.basic.edu == "" then "Please select your highest education"
      else if f.basic.status == "" then "Please select your current status"
      else ""
  {
    var cs := ChecksOf(0);
    assert cs == [NameGiven, AgeBandGiven, EduGiven, StatusGiven];
    var i := FirstFailure(cs, f);
    if Trim(f.basic.name) == "" {
      assert i == 0;
    } else if f.basic.ageBand == "" {
      assert Passes(cs[0], f) && !Passes(cs[1], f);
      assert i == 1;
    } else if f.basic.edu == "" {
      assert Passes(cs[1], f) && !Passes(cs[2], f);
      assert i == 2;
    } else if f.basic.status == "" {
      assert Passes(cs[2], f) && !Passes(cs[3], f);
      assert i == 3;
    } else {
      assert i == 4;
    }
  }

  lemma ReportSkills(f: Form)
    ensures Report(2, f) ==
      if Trim(f.skillsText) == "" then "Please list the skills you currently possess"
      else if f.prefs.workMode == "" then "Please choose a work mode"
      else if |f.prefs.roles| == 0 then "Please choose at least one target role"
      else ""
  {
    var cs := ChecksOf(2);
    assert cs == [SkillsGiven, WorkModeGiven, RolesGiven];
    var i := FirstFailure(cs, f);
    var skills := Trim(f.skillsText);
    if skills == "" {
      assert !Passes(cs[0], f);
      assert i == 0;
      assert Report(2, f) == Message(SkillsGiven, f);
    } else if f.prefs.workMode == "" {
      assert Passes(cs[0], f) && !Passes(cs[1], f);
      assert i == 1;
      assert Report(2, f) == Message(WorkModeGiven, f);
    } else if |f.prefs.roles| == 0 {
      assert Passes(cs[1], f) && !Passes(cs[2], f);
      assert i == 2;
      assert Report(2, f) == Message(RolesGiven, f);
    } else {
      assert Passes(cs[2], f);
      assert i == 3;
    }
  }

  /** The summary page is never refused, and the skills page accepts exactly a complete skills section. */
  lemma ValidateSteps(f: Form)
    ensures Validate(LastStep, f) == ""
    ensures Validate(SkillsStep, f) == "" <==> Trim(f.skillsText) != "" && f.prefs.workMode != "" && |f.prefs.roles| > 0
    ensures Validate(1, f) == "" <==> forall i :: 0 <= i < |Questions| ==> AnswerValue(f.personality, Questions[i].id) != 0
  {
    assert ChecksOf(SkillsStep) == [SkillsGiven, WorkModeGiven, RolesGiven];
  }

  /** The number in the personality message is exactly the number of unanswered questions. */
  lemma UnfinishedMessageCounts(f: Form)
    requires Unanswered(Questions, f.personality) > 0
    ensures var msg := Validate(1, f);
      |msg| > |UnfinishedPrefix| + |UnfinishedSuffix|
      && msg[..|UnfinishedPrefix|] == UnfinishedPrefix
      && msg[|msg| - |UnfinishedSuffix|..] == UnfinishedSuffix
      && var digits := msg[|UnfinishedPrefix|..|msg| - |UnfinishedSuffix|];
         (forall i :: 0 <= i < |digits| ==> '0' <= digits[i] <= '9')
         && ParseDigits(digits) == Unanswered(Questions, f.personality)
  {
    var n := Unanswered(Questions, f.personality);
    var d := NatToString(n);
    var msg := UnfinishedPrefix + d + UnfinishedSuffix;
    assert msg[|UnfinishedPrefix|..|msg| - |UnfinishedSuffix|] == d;
    assert msg[..|UnfinishedPrefix|] == UnfinishedPrefix;
    assert msg[|msg| - |UnfinishedSuffix|..] == UnfinishedSuffix;
    ParseNatToString(n);
  }

  /** `progressPct`: `Math.round(step / 3 * 100)`. */
  function ProgressPct(step: nat): (pct: int)
    ensures step <= LastStep ==> pct in {0, 33, 67, 100}
    ensures step <= LastStep ==> (pct == 100 <==> step == LastStep) && (pct == 0 <==> step == 0)
  {
    var pct := RoundRatio(100 * step, LastStep);
    ProgressBounds(step, pct);
    pct
  }

  lemma ProgressBounds(step: nat, pct: int)
    requires 2 * pct * 3 <= 200 * step + 3 < 2 * pct * 3 + 6
    ensures step == 0 ==> pct == 0
    ensures step == 1 ==> pct == 33
    ensures step == 2 ==> pct == 67
    ensures step == 3 ==> pct == 100
  {
  }

  /** The bar never shrinks when the step grows. */
  lemma ProgressMonotone(s1: nat, s2: nat)
    requires s1 <= s2
    ensures ProgressPct(s1) <= ProgressPct(s2)
  {
    var p1, p2 := ProgressPct(s1), ProgressPct(s2);
    assert p1 == RoundRatio(100 * s1, 3) && p2 == RoundRatio(100 * s2, 3);
    assert 3 * (2 * p1) < 3 * (2 * p2 + 2);
    FactorLess(3, 2 * p1, 2 * p2 + 2);
  }

  /** `fmtList`: the items joined with ", ", or "-" for a missing or empty list. */
  function FmtList(arr: Option<seq<string>>): (r: string)
    ensures arr.GetOr([]) == [] ==> r == "-"
    ensures |arr.GetOr([])| == 1 ==> r == arr.value[0]
  {
    match arr
    case Some(items) => if |items| > 0 then Join(items, ", ") else "-"
    case None => "-"
  }

  /** A list of two or more items shows its first item, ", ", then the rest as the list of the others would show. */
  lemma FmtListCons(x: string, rest: seq<string>)
    requires rest != []
    ensures FmtList(Some([x] + rest)) == x + ", " + FmtList(Some(rest))
  {
    JoinCons(x, rest, ", ");
  }

  /** A join of two or more items is at least as long as a separator. */
  lemma {:induction false} JoinLength(parts: seq<string>, sep: string)
    requires |parts| >= 2
    ensures |Join(parts, sep)| >= |sep|
  {
  }

  /** The placeholder "-" appears exactly for a missing or empty list, or for a list holding only "-". */
  lemma FmtListDash(arr: Option<seq<string>>)
    ensures FmtList(arr) == "-" <==> arr.GetOr([]) == [] || arr.GetOr([]) == ["-"]
  {
    var items := arr.GetOr([]);
    if |items| >= 2 {
      JoinLength(items, ", ");
    }
  }

  /** The questionnaire's state. */
  class Questionnaire {
    var step: nat
    var error: string
    var basic: Basic
    var personality: Answers
    var skillsText: string
    var prefs: Prefs

    predicate Valid()
      reads this
    {
      step <= LastStep
    }

    function CurrentForm(): Form
      reads this
    {
      Form(basic, personality, skillsText, prefs)
    }

    constructor ()
      ensures Valid() && step == 0 && error == ""
      ensures basic == EmptyBasic && personality == map[] && skillsText == "" && prefs == EmptyPrefs
    {
      step := 0;
      error := "";
      basic := EmptyBasic;
      personality := map[];
      skillsText := "";
      prefs := EmptyPrefs;
    }

    /** `next`: a failing check sets the error and keeps the step; otherwise the error is cleared and the step advances. */
    method Next()
      modifies this
      ensures Validate(old(step), old(CurrentForm())) != "" ==> step == old(step) && error == Validate(old(step), old(CurrentForm()))
      ensures Validate(old(step), old(CurrentForm())) == "" ==> step == NextStep(old(step)) && error == ""
      ensures CurrentForm() == old(CurrentForm())
      ensures old(Valid()) ==> Valid()
    {
      error := "";
      var msg := Validate(step, CurrentForm());
      if msg != "" {
        error := msg;
        return;
      }
      step := NextStep(step);
    }

    /** `back`: clear the error and move one page back, never before the first. */
    method Back()
      modifies this
      ensures error == "" && step == PrevStep(old(step))
      ensures CurrentForm() == old(CurrentForm())
      ensures old(Valid()) ==> Valid()
    {
      error := "";
      step := PrevStep(step);
    }

    /** `resetAll`: the first step and an empty form; the error line is left as it is. */
    method ResetAll()
      modifies this
      ensures Valid() && step == 0 && error == old(error)
      ensures basic == EmptyBasic && personality == map[] && skillsText == "" && prefs == EmptyPrefs
    {
      step := 0;
      basic := EmptyBasic;
      personality := map[];
      skillsText := "";
      prefs := EmptyPrefs;
    }

    /** The `mbti` memo on the current answers. */
    method Summary() returns (code: string, dims: map<char, nat>)
      ensures dims == ScoreTable(personality) && code == Mbti(personality)
    {
      code, dims := ComputeMbti(personality);
    }
  }

  /** Right after a reset, "Next" is refused with the name message. */
  method ResetBlocksNext(q: Questionnaire)
    modifies q
    ensures q.step == 0 && q.error == "Please enter your name"
  {
    q.ResetAll();
    TrimEmptyIffAllSpace("");
    q.Next();
  }
}
