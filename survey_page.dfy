/**
 * The survey page of the career-graph app: a four-step form whose "Next"
 * button, on leaving the skills page, imports the typed skills into the
 * learned-skill set that the graph highlights. Its validation has been
 * switched off, so "Next" is never blocked.
 */
module SurveyPage {
  import opened Wrappers
  import opened Steps
  import opened Personality
  import SkillImport
  import Checkbox

  /** `validate`: every check is commented out, so every step is accepted. */
  function Validate(step: nat): (msg: string)
  {
    ""
  }

  /** No step is ever refused. */
  lemma ValidateNeverBlocks(step: nat)
    ensures Validate(step) == ""
  {
  }

  /** The page's state: the step, the error line, the typed skills, the multi-select groups, the work mode, the personality answers, and the learned-skill set the page updates in its parent. */
  class Survey {
    var step: nat
    var error: string
    var skillsText: string
    var groups: map<string, seq<string>>
    var workMode: string
    var personality: Answers
    var learned: set<string>

    /** The step counter never leaves the pages 0..3. */
    predicate Valid()
      reads this
    {
      step <= LastStep
    }

    /** A fresh page: first step, no error, empty answers, empty role and industry lists; the learned set is the parent's. */
    constructor (learnedSkills: set<string>)
      ensures Valid()
      ensures step == 0 && error == "" && skillsText == "" && workMode == "" && personality == map[]
      ensures groups == map["roles" := [], "industries" := []]
      ensures learned == learnedSkills
    {
      step := 0;
      error := "";
      skillsText := "";
      groups := map["roles" := [], "industries" := []];
      workMode := "";
      personality := map[];
      learned := learnedSkills;
    }

    /**
     * `next`: clear the error; when leaving the skills page import the typed
     * skills into the learned set; move one page on, never past the summary.
     */
    method Next()
      modifies this
      ensures error == ""
      ensures step == NextStep(old(step))
      ensures old(step) == SkillsStep ==> learned == old(learned) + SkillImport.ImportedIds(skillsText)
      ensures old(step) != SkillsStep ==> learned == old(learned)
      ensures old(learned) <= learned
      ensures skillsText == old(skillsText) && groups == old(groups) && workMode == old(workMode)
      ensures personality == old(personality)
      ensures old(Valid()) ==> Valid()
    {
      error := "";
      var msg := Validate(step);
      // The early return on a non-empty `msg` is left out: `msg` is always "".
      assert msg == "";
      if step == SkillsStep {
        var text := skillsText;
        var updated := SkillImport.ImportSkills(learned, text);
        learned := updated;
      }
      step := NextStep(step);
    }

    /** `back`: clear the error and move one page back, never before the first. */
    method Back()
      modifies this
      ensures error == ""
      ensures step == PrevStep(old(step))
      ensures learned == old(learned) && skillsText == old(skillsText) && groups == old(groups)
      ensures workMode == old(workMode) && personality == old(personality)
      ensures old(Valid()) ==> Valid()
    {
      error := "";
      step := PrevStep(step);
    }

    /** `handleCheckboxChange(group, option)`: toggle the option in that group; everything else stays. */
    method HandleCheckboxChange(group: string, option: string)
      modifies this
      ensures groups == old(groups)[group := Checkbox.Toggle(if group in old(groups) then Some(old(groups)[group]) else None, option)]
      ensures option in groups[group] <==> !(group in old(groups) && option in old(groups)[group])
      ensures forall g :: g in old(groups) && g != group ==> g in groups && groups[g] == old(groups)[g]
      ensures step == old(step) && error == old(error) && learned == old(learned)
      ensures skillsText == old(skillsText) && workMode == old(workMode) && personality == old(personality)
    {
      var current := if group in groups then Some(groups[group]) else None;
      Checkbox.ToggleFlips(current, option);
      groups := groups[group := Checkbox.Toggle(current, option)];
    }

    /** `SectionSummary`'s `mbti` memo on the current answers. */
    method Summary() returns (code: string)
      ensures code == Mbti(personality)
    {
      var dims;
      code, dims := ComputeMbti(personality);
    }
  }

  /**
   * Three presses of "Next" from the first page reach the summary, and the
   * skills typed on the way are imported exactly once, on the third press.
   */
  method WalkToSummary(learnedSkills: set<string>, text: string) returns (s: Survey)
    ensures s.step == LastStep
    ensures s.learned == learnedSkills + SkillImport.ImportedIds(text)
  {
    s := new Survey(learnedSkills);
    s.skillsText := text;
    s.Next();
    s.Next();
    s.Next();
  }
}
