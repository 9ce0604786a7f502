/** The audience tabs of the "clearer paths" section
    (v2/src/components/organisms/ClearerPathsSection.tsx): four tabs, the
    copy and dashboard shown for each, and the single `activeTab` state.
    The tab bar shows the tab names upper-cased and the click handler
    lower-cases the label it receives.  Case mapping is modelled on ASCII
    letters, which is all the tab names use. */
module ClearerPaths {
  import opened Sequences
  import opened TabNavigation

  const TABS: seq<string> := ["student", "teacher", "parent", "school"]

  /** The copy shown for a tab. */
  datatype TabContent = TabContent(headline: string, subtext: string, bullets: seq<string>)

  const TAB_CONTENT: map<string, TabContent> := map[
    "student" := TabContent(
      "CLEARER PATHS TO FLUENCY.",
      "Learn with absolute clarity on where you are and exactly where you are going next.",
      ["Real-time feedback on every spoken phrase",
       "Personalized learning streaks and goals",
       "Daily clarity on your fluency progress"]),
    "teacher" := TabContent(
      "EMPOWER EVERY LEARNER.",
      "See exactly where each student stands and guide them to their next breakthrough.",
      ["Real-time class progress dashboards",
       "Individual student gap analysis",
       "Automated intervention recommendations"]),
    "parent" := TabContent(
      "WATCH THEM FLOURISH.",
      "Stay connected to your child's learning journey with clear, actionable insights.",
      ["Weekly progress reports delivered automatically",
       "Celebrate milestones together",
       "Know exactly how to support at home"]),
    "school" := TabContent(
      "TRANSFORM YOUR INSTITUTION.",
      "School-wide visibility into language learning outcomes across every classroom.",
      ["District-level analytics and reporting",
       "Curriculum alignment tracking",
       "ROI measurement on learning programs"])
  ]

  /** The dashboard preview shown beside the copy. */
  datatype Dashboard = StudentDashboard | TeacherDashboard | ParentDashboard | SchoolDashboard

  const DASHBOARD_COMPONENTS: map<string, Dashboard> := map[
    "student" := StudentDashboard,
    "teacher" := TeacherDashboard,
    "parent" := ParentDashboard,
    "school" := SchoolDashboard
  ]

  /** The copy for a tab: every tab has some, with three bullets. */
  function ContentFor(tab: string): (c: TabContent)
    requires tab in TABS
    ensures |c.bullets| == 3
  {
    TAB_CONTENT[tab]
  }

  /** The dashboard for a tab: every tab has one, and different tabs show
      different dashboards. */
  function DashboardFor(tab: string): (d: Dashboard)
    requires tab in TABS
    ensures forall t :: t in TABS && t != tab ==> DASHBOARD_COMPONENTS[t] != d
  {
    DASHBOARD_COMPONENTS[tab]
  }

  predicate IsLower(c: char) { 'a' <= c <= 'z' }
  predicate IsUpper(c: char) { 'A' <= c <= 'Z' }

  function UpperChar(c: char): char {
    if IsLower(c) then (c as int - 32) as char else c
  }

  function LowerChar(c: char): char {
    if IsUpper(c) then (c as int + 32) as char else c
  }

  /** `toUpperCase` on ASCII: letters mapped one by one, nothing else
      touched. */
  function ToUpper(s: string): (r: string)
    ensures |r| == |s|
    ensures forall i :: 0 <= i < |s| ==> r[i] == UpperChar(s[i])
  {
    if s == [] then [] else [UpperChar(s[0])] + ToUpper(s[1..])
  }

  /** `toLowerCase` on ASCII. */
  function ToLower(s: string): (r: string)
    ensures |r| == |s|
    ensures forall i :: 0 <= i < |s| ==> r[i] == LowerChar(s[i])
  {
    if s == [] then [] else [LowerChar(s[0])] + ToLower(s[1..])
  }

  /** A string with no upper-case letter. */
  predicate NoUpper(s: string) {
    forall i :: 0 <= i < |s| ==> !IsUpper(s[i])
  }

  /** Lower-casing undoes upper-casing on a string with no upper-case
      letter to begin with. */
  lemma {:induction false} LowerUndoesUpper(s: string)
    requires NoUpper(s)
    ensures ToLower(ToUpper(s)) == s
  {
    if s != [] {
      assert NoUpper(s[1..]) by {
        forall i | 0 <= i < |s[1..]| ensures !IsUpper(s[1..][i]) {
          assert s[1..][i] == s[i + 1];
        }
      }
      LowerUndoesUpper(s[1..]);
      assert ToUpper(s) == [UpperChar(s[0])] + ToUpper(s[1..]);
    }
  }

  /** `tabs.map(t => t.toUpperCase())`: the labels on the tab bar. */
  function TabLabels(): (ls: seq<string>)
    ensures |ls| == |TABS|
    ensures forall i :: 0 <= i < |TABS| ==> ls[i] == ToUpper(TABS[i])
  {
    seq(|TABS|, i requires 0 <= i < |TABS| => ToUpper(TABS[i]))
  }

  /** Upper-casing `s` gives `t` when it does so letter by letter. */
  lemma UpperByLetters(s: string, t: string)
    requires |s| == |t|
    requires forall i :: 0 <= i < |s| ==> UpperChar(s[i]) == t[i]
    ensures ToUpper(s) == t
  {
  }

  /** The labels are the tab names in capitals, in tab order. */
  lemma TabLabelsAreCapitals()
    ensures TabLabels() == ["STUDENT", "TEACHER", "PARENT", "SCHOOL"]
  {
    UpperByLetters("student", "STUDENT");
    UpperByLetters("teacher", "TEACHER");
    UpperByLetters("parent", "PARENT");
    UpperByLetters("school", "SCHOOL");
  }

  /** Lower-casing a label gives back the tab it was made from, so a label
      names exactly one tab. */
  lemma LabelNamesItsTab(i: int)
    requires 0 <= i < |TABS|
    ensures ToLower(TabLabels()[i]) == TABS[i]
    ensures forall j :: 0 <= j < |TABS| && j != i ==> ToLower(TabLabels()[i]) != TABS[j]
  {
    assert NoUpper(TABS[i]);
    LowerUndoesUpper(TABS[i]);
  }

  /** No two tabs share a label. */
  lemma LabelsDistinct()
    ensures Distinct(TabLabels())
  {
    forall i, j | 0 <= i < j < |TABS|
      ensures TabLabels()[i] != TabLabels()[j]
    {
      LabelNamesItsTab(i);
      LabelNamesItsTab(j);
    }
  }

  class ClearerPathsSection {
    var activeTab: string

    ghost predicate Valid()
      reads this
    {
      activeTab in TABS
    }

    /** Mounting: the student tab is active. */
    constructor ()
      ensures Valid() && activeTab == "student"
    {
      activeTab := "student";
    }

    /** The tab bar rendered for the current state: the capitalised
        labels with the capitalised active tab selected.  Exactly one
        button is highlighted, the active tab's. */
    function Buttons(): (bs: seq<TabButton>)
      requires Valid()
      reads this
      ensures |bs| == |TABS|
      ensures ActiveCount(bs) == 1
      ensures forall i :: 0 <= i < |TABS| ==> (bs[i].isActive <==> TABS[i] == activeTab)
    {
      var bs := TabButtons(TabLabels(), ToUpper(activeTab));
      LabelsDistinct();
      OneActiveButton(TabLabels(), ToUpper(activeTab));
      bs
    }

    /** A click on button `i`: the button reports its label and
        `onTabChange` stores the label lower-cased, which is that button's
        tab. */
    method ClickTab(i: int)
      requires Valid()
      requires 0 <= i < |TABS|
      modifies this
      ensures Valid()
      ensures activeTab == TABS[i]
      ensures Buttons()[i].isActive
    {
      var reported := TabButtons(TabLabels(), ToUpper(activeTab))[i].reports;
      LabelNamesItsTab(i);
      activeTab := ToLower(reported);
    }
  }
}
