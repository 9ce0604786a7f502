/** The comparison table (v2/src/components/molecules/ComparisonTable.tsx):
    four fixed rows, each showing either its "current way" or its "better
    way" value.  Row `i` shows the better value exactly when
    `i < activeCount`. */
module ComparisonTable {

  /** One entry of `COMPARISONS`. */
  datatype Comparison = Comparison(name: string, current: string, better: string)

  const COMPARISONS: seq<Comparison> := [
    Comparison("LEARNING MEASURED", "NEVER", "EVERY SESSION"),
    Comparison("GAP DETECTION", "AFTER EXAMS", "3 MINUTES"),
    Comparison("TEACHER TIME", "2HR GRADING", "0 GRADING"),
    Comparison("COST TO PARENTS", "+\U{20B9}5000 TUITION", "10X CHEAPER")
  ]

  /** `COMPARISON_COUNT`, exported to the section that drives the table. */
  const COMPARISON_COUNT: int := |COMPARISONS|

  /** The props one `ComparisonRow` receives. */
  datatype Row = Row(name: string, currentValue: string, betterValue: string, isBetterWay: bool)

  /** The rows `ComparisonTable` renders for a given `activeCount`. */
  function Rows(activeCount: int): seq<Row> {
    seq(|COMPARISONS|, i requires 0 <= i < |COMPARISONS| =>
      Row(COMPARISONS[i].name, COMPARISONS[i].current, COMPARISONS[i].better, i < activeCount))
  }

  /** There are four comparisons. */
  lemma ComparisonCountIsFour()
    ensures COMPARISON_COUNT == 4
  {
  }

  /** How many of `rows` show their better value. */
  function BetterCount(rows: seq<Row>): nat {
    if rows == [] then 0
    else BetterCount(rows[..|rows| - 1]) + (if rows[|rows| - 1].isBetterWay then 1 else 0)
  }

  /** Rows lit exactly below index `a` number `a` bounded to [0, |rows|]. */
  lemma {:induction false} PrefixBetterCount(rows: seq<Row>, a: int)
    requires forall i :: 0 <= i < |rows| ==> (rows[i].isBetterWay <==> i < a)
    ensures BetterCount(rows) == if a <= 0 then 0 else if a >= |rows| then |rows| else a
  {
    if rows != [] {
      PrefixBetterCount(rows[..|rows| - 1], a);
    }
  }

  /** Every row keeps its comparison, in order; row `i` is better exactly
      when `i < activeCount`; and the number of better rows is
      `activeCount` bounded to [0, 4] (none at or below 0, all from 4 on). */
  lemma {:induction false} RowsFollowActiveCount(activeCount: int)
    ensures |Rows(activeCount)| == COMPARISON_COUNT == 4
    ensures forall i :: 0 <= i < 4 ==>
      && Rows(activeCount)[i].name == COMPARISONS[i].name
      && Rows(activeCount)[i].currentValue == COMPARISONS[i].current
      && Rows(activeCount)[i].betterValue == COMPARISONS[i].better
      && (Rows(activeCount)[i].isBetterWay <==> i < activeCount)
    ensures BetterCount(Rows(activeCount)) ==
      if activeCount <= 0 then 0 else if activeCount >= 4 then 4 else activeCount
  {
    PrefixBetterCount(Rows(activeCount), activeCount);
  }

  /** The better rows form a prefix: a better row has only better rows
      before it. */
  lemma BetterRowsArePrefix(activeCount: int, i: int, j: int)
    requires 0 <= i < j < COMPARISON_COUNT
    requires Rows(activeCount)[j].isBetterWay
    ensures Rows(activeCount)[i].isBetterWay
  {
  }

  /** Raising `activeCount` never turns a better row back. */
  lemma RaisingCountKeepsBetterRows(a: int, b: int, i: int)
    requires a <= b && 0 <= i < COMPARISON_COUNT
    requires Rows(a)[i].isBetterWay
    ensures Rows(b)[i].isBetterWay
  {
  }
}
