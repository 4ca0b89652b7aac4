/** The CV-builder page: a five-step wizard over one CV record. Next and
    Previous move one step and stop at the ends; each step's editor hands its
    new value to `updateCVData`, a shallow merge into the record. */
module CvBuilder {
  import opened Wrappers
  import PersonalInfoStep
  import ExperienceStep
  import EducationStep

  datatype Step = Personal | Experience | Education | Skills | Review

  /** `STEPS`, in wizard order. */
  const Steps: seq<Step> := [Personal, Experience, Education, Skills, Review]

  /** `STEPS.indexOf(currentStep)`: every step is listed once. */
  function IndexOf(s: Step): (i: nat)
    ensures i < |Steps| && Steps[i] == s
  {
    match s
    case Personal => 0
    case Experience => 1
    case Education => 2
    case Skills => 3
    case Review => 4
  }

  /** The step `handleNext` moves to. */
  function NextStep(s: Step): (r: Step)
    ensures s != Review ==> IndexOf(r) == IndexOf(s) + 1
    ensures s == Review ==> r == Review
  {
    var i := IndexOf(s);
    if i < |Steps| - 1 then Steps[i + 1] else s
  }

  /** The step `handlePrevious` moves to. */
  function PreviousStep(s: Step): (r: Step)
    ensures s != Personal ==> IndexOf(r) + 1 == IndexOf(s)
    ensures s == Personal ==> r == Personal
  {
    var i := IndexOf(s);
    if i > 0 then Steps[i - 1] else s
  }

  datatype CvData = CvData(
    title: string,
    personal: PersonalInfoStep.PersonalInfo,
    experience: seq<ExperienceStep.Experience>,
    education: seq<EducationStep.Education>,
    skills: seq<string>)

  /** `Partial<CVData>`. */
  datatype CvDataPatch = CvDataPatch(
    title: Option<string>,
    personal: Option<PersonalInfoStep.PersonalInfo>,
    experience: Option<seq<ExperienceStep.Experience>>,
    education: Option<seq<EducationStep.Education>>,
    skills: Option<seq<string>>)

  const NoChange := CvDataPatch(None, None, None, None, None)

  /** The record the page starts with. */
  const InitialCvData := CvData("My CV", PersonalInfoStep.Empty, [], [], [])

  /** `({ ...prev, ...updates })`. */
  function MergeCvData(prev: CvData, u: CvDataPatch): CvData
  {
    CvData(
      u.title.GetOr(prev.title),
      u.personal.GetOr(prev.personal),
      u.experience.GetOr(prev.experience),
      u.education.GetOr(prev.education),
      u.skills.GetOr(prev.skills))
  }

  /** The patch each step's `onUpdate` sends: only the step's own field. */
  function PersonalUpdate(p: PersonalInfoStep.PersonalInfo): CvDataPatch { NoChange.(personal := Some(p)) }
  function ExperienceUpdate(e: seq<ExperienceStep.Experience>): CvDataPatch { NoChange.(experience := Some(e)) }
  function EducationUpdate(e: seq<EducationStep.Education>): CvDataPatch { NoChange.(education := Some(e)) }
  function SkillsUpdate(s: seq<string>): CvDataPatch { NoChange.(skills := Some(s)) }

  /** The progress bar: segment `i` of `n` is coloured when `i` is at most
      the current index. */
  function Segments(n: nat, current: nat): (r: seq<bool>)
    ensures |r| == n
    ensures forall i :: 0 <= i < n ==> r[i] == (i <= current)
  {
    if n == 0 then [] else Segments(n - 1, current) + [n - 1 <= current]
  }

  function ProgressBar(s: Step): seq<bool>
  {
    Segments(|Steps|, IndexOf(s))
  }

  /** "Step {currentStepIndex + 1} of {STEPS.length}". */
  function StepLabel(s: Step): (int, int)
  {
    (IndexOf(s) + 1, |Steps|)
  }

  function CountTrue(bs: seq<bool>): nat
  {
    if bs == [] then 0 else CountTrue(bs[..|bs| - 1]) + (if bs[|bs| - 1] then 1 else 0)
  }

  // ---------------------------------------------------------------- properties

  /** `indexOf` gives back the position of every listed step. */
  lemma IndexOfSteps(i: nat)
    requires i < |Steps|
    ensures IndexOf(Steps[i]) == i
  {
  }

  /** Next then Previous returns to the step, except from the last one. */
  lemma PreviousAfterNext(s: Step)
    requires s != Review
    ensures PreviousStep(NextStep(s)) == s
  {
  }

  /** Previous then Next returns to the step, except from the first one. */
  lemma NextAfterPrevious(s: Step)
    requires s != Personal
    ensures NextStep(PreviousStep(s)) == s
  {
  }

  /** Four presses of Next reach the review step from anywhere; four of
      Previous reach the first. */
  lemma NextReachesReview(s: Step)
    ensures NextStep(NextStep(NextStep(NextStep(s)))) == Review
    ensures PreviousStep(PreviousStep(PreviousStep(PreviousStep(s)))) == Personal
  {
  }

  lemma {:induction false} CountSegments(n: nat, current: nat)
    ensures CountTrue(Segments(n, current)) == if n <= current then n else current + 1
  {
    if n > 0 {
      var r := Segments(n, current);
      assert r[..n - 1] == Segments(n - 1, current);
      CountSegments(n - 1, current);
    }
  }

  /** The bar colours as many segments as the label's step number, and every
      coloured segment comes before every grey one. */
  lemma ProgressMatchesLabel(s: Step)
    ensures CountTrue(ProgressBar(s)) == StepLabel(s).0
    ensures StepLabel(s).1 == 5 && 1 <= StepLabel(s).0 <= 5
    ensures forall i, j :: 0 <= i < j < 5 && ProgressBar(s)[j] ==> ProgressBar(s)[i]
  {
    CountSegments(|Steps|, IndexOf(s));
  }

  /** The merge sets exactly the fields the update carries. */
  lemma MergeFields(prev: CvData, u: CvDataPatch)
    ensures var m := MergeCvData(prev, u);
      && (m.title == if u.title.Some? then u.title.value else prev.title)
      && (m.personal == if u.personal.Some? then u.personal.value else prev.personal)
      && (m.experience == if u.experience.Some? then u.experience.value else prev.experience)
      && (m.education == if u.education.Some? then u.education.value else prev.education)
      && (m.skills == if u.skills.Some? then u.skills.value else prev.skills)
      && (u == NoChange ==> m == prev)
  {
  }

  /** A step editor's update replaces its own part of the record and nothing else. */
  lemma StepUpdatesAreLocal(prev: CvData, p: PersonalInfoStep.PersonalInfo, e: seq<ExperienceStep.Experience>,
                            d: seq<EducationStep.Education>, s: seq<string>)
    ensures MergeCvData(prev, PersonalUpdate(p)) == prev.(personal := p)
    ensures MergeCvData(prev, ExperienceUpdate(e)) == prev.(experience := e)
    ensures MergeCvData(prev, EducationUpdate(d)) == prev.(education := d)
    ensures MergeCvData(prev, SkillsUpdate(s)) == prev.(skills := s)
  {
  }

  /** Merging the same update twice is merging it once. */
  lemma MergeTwice(prev: CvData, u: CvDataPatch)
    ensures MergeCvData(MergeCvData(prev, u), u) == MergeCvData(prev, u)
  {
  }

  /** The page's state. */
  class CvBuilderPage {
    var currentStep: Step
    var cvData: CvData

    /** The two `useState` initial values. */
    constructor ()
      ensures currentStep == Personal && cvData == InitialCvData
      ensures IndexOf(currentStep) == 0 && cvData.title == "My CV"
      ensures cvData.personal == PersonalInfoStep.PersonalInfo("", "", "", "", "", "")
      ensures cvData.experience == [] && cvData.education == [] && cvData.skills == []
    {
      currentStep := Personal;
      cvData := InitialCvData;
    }

    /** `handleNext`. */
    method HandleNext()
      modifies this
      ensures currentStep == NextStep(old(currentStep)) && cvData == old(cvData)
    {
      var i := IndexOf(currentStep);
      if i < |Steps| - 1 {
        currentStep := Steps[i + 1];
      }
    }

    /** `handlePrevious`. */
    method HandlePrevious()
      modifies this
      ensures currentStep == PreviousStep(old(currentStep)) && cvData == old(cvData)
    {
      var i := IndexOf(currentStep);
      if i > 0 {
        currentStep := Steps[i - 1];
      }
    }

    /** `updateCVData`. */
    method UpdateCvData(u: CvDataPatch)
      modifies this
      ensures cvData == MergeCvData(old(cvData), u) && currentStep == old(currentStep)
    {
      cvData := MergeCvData(cvData, u);
    }
  }
}
