/** The "How It Works" section (v2/src/components/organisms/HowItWorksSection.tsx):
    the active dial position shown in the preview window, the target it
    hands to the dial, and the minimise button that advances through the
    four positions in a cycle. */
module HowItWorks {
  import opened Wrappers
  import opened DialGeometry

  /** The cycle `handleMinimizeAdvance` walks. */
  const ORDER: seq<string> := [GRADE, DIAGNOSE, REMEDIATE, PRACTICE]

  /** `Array.prototype.indexOf`: the first index holding `x`, or -1. */
  function IndexOf(s: seq<string>, x: string): (i: int)
    ensures -1 <= i < |s|
    ensures i == -1 <==> x !in s
    ensures 0 <= i ==> s[i] == x && forall k :: 0 <= k < i ==> s[k] != x
  {
    if s == [] then -1
    else if s[0] == x then 0
    else
      var r := IndexOf(s[1..], x);
      if r == -1 then -1 else r + 1
  }

  /** The position after `active` in the cycle; a position outside the
      cycle advances to Grade. */
  function NextPosition(active: string): string {
    var currentIndex := IndexOf(ORDER, active);
    var nextIndex := if currentIndex == -1 then 0 else (currentIndex + 1) % |ORDER|;
    ORDER[nextIndex]
  }

  /** Advancing goes Grade, Diagnose, Remediate, Practice and back to
      Grade; anything else goes to Grade. */
  lemma AdvanceCycle(active: string)
    ensures NextPosition(GRADE) == DIAGNOSE
    ensures NextPosition(DIAGNOSE) == REMEDIATE
    ensures NextPosition(REMEDIATE) == PRACTICE
    ensures NextPosition(PRACTICE) == GRADE
    ensures active !in ORDER ==> NextPosition(active) == GRADE
    ensures NextPosition(active) in ORDER
  {
    assert IndexOf(ORDER, GRADE) == 0;
    assert IndexOf(ORDER, DIAGNOSE) == 1;
    assert IndexOf(ORDER, REMEDIATE) == 2;
    assert IndexOf(ORDER, PRACTICE) == 3;
  }

  /** Four advances from a position of the cycle come back to it, and no
      single advance stays put. */
  lemma {:induction false} FourAdvancesReturn(active: string)
    requires active in ORDER
    ensures NextPosition(NextPosition(NextPosition(NextPosition(active)))) == active
    ensures NextPosition(active) != active
  {
    AdvanceCycle(active);
  }

  /** Which preview the window shows. */
  datatype Preview = GradePreview | DiagnosePreview | RemediatePreview | PracticePreview

  /** `renderPreviewContent`. */
  function PreviewFor(active: string): Preview {
    if active == GRADE then GradePreview
    else if active == DIAGNOSE then DiagnosePreview
    else if active == REMEDIATE then RemediatePreview
    else if active == PRACTICE then PracticePreview
    else GradePreview
  }

  /** Each position shows its own preview, distinct positions show distinct
      previews, and an unknown position shows the Grade preview. */
  lemma PreviewMatchesPosition(active: string, other: string)
    ensures active !in ORDER ==> PreviewFor(active) == GradePreview
    ensures active in ORDER && other in ORDER && active != other ==>
              PreviewFor(active) != PreviewFor(other)
    ensures PreviewFor(GRADE) == GradePreview && PreviewFor(DIAGNOSE) == DiagnosePreview
    ensures PreviewFor(REMEDIATE) == RemediatePreview && PreviewFor(PRACTICE) == PracticePreview
    ensures PreviewFor(active) == DiagnosePreview <==> active == DIAGNOSE
  {
  }

  class HowItWorksSection {
    /** `activePosition` state. */
    var activePosition: string
    /** `dialTargetPosition` state; `None` is `undefined`. */
    var dialTargetPosition: Option<string>

    /** A pending dial target is the active position, a stop of the
        cycle. */
    ghost predicate Valid()
      reads this
    {
      dialTargetPosition.Some? ==>
        dialTargetPosition.value == activePosition && activePosition in ORDER
    }

    /** The section starts on Grade and asks nothing of the dial. */
    constructor ()
      ensures Valid()
      ensures activePosition == GRADE && dialTargetPosition == None
    {
      activePosition := GRADE;
      dialTargetPosition := None;
    }

    /** `handleDialChange`: follow the dial and drop any pending target. */
    method HandleDialChange(position: string)
      requires Valid()
      modifies this
      ensures Valid()
      ensures activePosition == position && dialTargetPosition == None
    {
      activePosition := position;
      dialTargetPosition := None;
    }

    /** `handleMinimizeAdvance`: move to the next position of the cycle and
        ask the dial to turn there. */
    method HandleMinimizeAdvance()
      requires Valid()
      modifies this
      ensures Valid()
      ensures activePosition == NextPosition(old(activePosition))
      ensures dialTargetPosition == Some(activePosition)
      ensures activePosition in ORDER && activePosition in POSITION_ANGLES
    {
      var nextPosition := NextPosition(activePosition);
      AdvanceCycle(activePosition);
      activePosition := nextPosition;
      dialTargetPosition := Some(nextPosition);
    }
  }
}
