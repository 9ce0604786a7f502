/** The hero section's card logic (v2/src/components/organisms/HeroSection.tsx):
    a Fisher-Yates shuffle of the eight fall delays, their assignment to
    the eight feature cards, and the per-label wiggle counters.  The
    shuffle's random draws are an input: `picks[i]` is the index drawn
    when the loop is at `i`, which `Math.floor(Math.random() * (i + 1))`
    keeps in [0, i]. */
module Hero {
  import opened Sequences

  /** One entry of `FEATURE_CARDS_BASE`. */
  datatype CardBase = CardBase(name: string, rotation: int, landingY: int, left: string)

  const FEATURE_CARDS_BASE: seq<CardBase> := [
    CardBase("Instant Grading", -3, 25, "3%"),
    CardBase("Handwriting Recognition", 4, 55, "14%"),
    CardBase("Progress Reports", -2, 20, "30%"),
    CardBase("Mastery Tracking", 5, 60, "42%"),
    CardBase("Gap Detection", -4, 30, "56%"),
    CardBase("Zero Grading Time", 3, 55, "68%"),
    CardBase("Parent Insights", -3, 25, "80%"),
    CardBase("Adaptive Learning", 4, 60, "90%")
  ]

  /** The fall delays, in seconds, before shuffling. */
  const DELAYS: seq<real> := [0.2, 0.4, 0.6, 0.8, 1.0, 1.2, 1.4, 1.6]

  /** A feature card with its assigned delay. */
  datatype Card = Card(name: string, rotation: int, landingY: int, left: string, delay: real)

  /** Valid random draws for shuffling `n` items. */
  predicate ValidPicks(picks: seq<int>, n: nat) {
    |picks| == n && forall i :: 0 < i < n ==> 0 <= picks[i] <= i
  }

  /** `s` with the entries at `i` and `j` exchanged. */
  function Swap<T>(s: seq<T>, i: nat, j: nat): (r: seq<T>)
    requires i < |s| && j < |s|
    ensures |r| == |s| && r[i] == s[j] && r[j] == s[i]
    ensures forall k :: 0 <= k < |s| && k != i && k != j ==> r[k] == s[k]
  {
    s[i := s[j]][j := s[i]]
  }

  /** The Fisher-Yates passes still to run when the loop index is `i`:
      swap at `i` with `picks[i]`, then carry on from `i - 1`, until the
      index reaches 0. */
  function FisherYates<T>(s: seq<T>, picks: seq<int>, i: int): seq<T>
    requires i < |s| && ValidPicks(picks, |s|)
    decreases i
  {
    if i <= 0 then s else FisherYates(Swap(s, i, picks[i]), picks, i - 1)
  }

  /** Fisher-Yates only rearranges: whatever the draws, the result holds
      the same items as the input. */
  lemma {:induction false} FisherYatesPermutes<T>(s: seq<T>, picks: seq<int>, i: int)
    requires i < |s| && ValidPicks(picks, |s|)
    ensures |FisherYates(s, picks, i)| == |s|
    ensures multiset(FisherYates(s, picks, i)) == multiset(s)
    decreases i
  {
    if i > 0 {
      var t := Swap(s, i, picks[i]);
      assert multiset(t) == multiset(s) by {
        var j := picks[i];
        if j != i {
          assert s == s[i := s[i]];
          assert t == s[i := s[j]][j := s[i]];
        }
      }
      FisherYatesPermutes(t, picks, i - 1);
    }
  }

  /** When every draw picks the current index, no entry moves. */
  lemma {:induction false} FisherYatesStayingDrawsKeepOrder<T>(s: seq<T>, picks: seq<int>, i: int)
    requires i < |s| && ValidPicks(picks, |s|)
    requires forall k :: 0 < k < |s| ==> picks[k] == k
    ensures FisherYates(s, picks, i) == s
    decreases i
  {
    if i > 0 {
      assert Swap(s, i, picks[i]) == s;
      FisherYatesStayingDrawsKeepOrder(s, picks, i - 1);
    }
  }

  /** `shuffleArray`: swap, in a copy of the input, each entry from the
      last index down to 1 with the one at the drawn index, at or below
      it.  The result is the Fisher-Yates arrangement for these draws,
      and so a permutation of the input. */
  method ShuffleArray<T>(items: seq<T>, picks: seq<int>) returns (shuffled: seq<T>)
    requires ValidPicks(picks, |items|)
    ensures shuffled == FisherYates(items, picks, |items| - 1)
    ensures |shuffled| == |items|
    ensures multiset(shuffled) == multiset(items)
  {
    var a := new T[|items|](k requires 0 <= k < |items| => items[k]);
    assert a[..] == items;
    var i := |items| - 1;
    while i > 0
      invariant -1 <= i <= |items| - 1
      invariant a.Length == |items|
      invariant FisherYates(a[..], picks, i) == FisherYates(items, picks, |items| - 1)
    {
      var j := picks[i];
      assert a[..][i := a[j]][j := a[i]] == Swap(a[..], i, j);
      a[i], a[j] := a[j], a[i];
      i := i - 1;
    }
    shuffled := a[..];
    FisherYatesPermutes(items, picks, |items| - 1);
  }

  /** The delays of a list of cards, in card order. */
  function DelaysOf(cards: seq<Card>): (ds: seq<real>)
    ensures |ds| == |cards|
    ensures forall i :: 0 <= i < |cards| ==> ds[i] == cards[i].delay
  {
    seq(|cards|, i requires 0 <= i < |cards| => cards[i].delay)
  }

  /** The `FEATURE_CARDS_BASE.map` step: card `i` gets `delays[i]` and keeps
      everything else. */
  function AssignDelays(base: seq<CardBase>, delays: seq<real>): seq<Card>
    requires |delays| == |base|
  {
    seq(|base|, i requires 0 <= i < |base| =>
      Card(base[i].name, base[i].rotation, base[i].landingY, base[i].left, delays[i]))
  }

  /** Assigning delays keeps the cards, their order and every field but
      the delay, and hands out exactly the given delays, in order. */
  lemma AssignDelaysKeepsCards(base: seq<CardBase>, delays: seq<real>)
    requires |delays| == |base|
    ensures |AssignDelays(base, delays)| == |base|
    ensures forall i :: 0 <= i < |base| ==>
      var c := AssignDelays(base, delays)[i];
      c.name == base[i].name && c.rotation == base[i].rotation
      && c.landingY == base[i].landingY && c.left == base[i].left
    ensures DelaysOf(AssignDelays(base, delays)) == delays
  {
  }

  /** The eight delays are distinct. */
  lemma DelaysDistinct()
    ensures Distinct(DELAYS)
  {
  }

  /** The `featureCards` memo: shuffle the delays, then hand them out.
      Each of the eight cards keeps its base fields and order, and every
      delay of 0.2 .. 1.6 is handed to exactly one card. */
  method FeatureCards(picks: seq<int>) returns (cards: seq<Card>)
    requires ValidPicks(picks, |DELAYS|)
    ensures |cards| == |FEATURE_CARDS_BASE| == 8
    ensures forall i :: 0 <= i < |cards| ==>
      cards[i].name == FEATURE_CARDS_BASE[i].name && cards[i].rotation == FEATURE_CARDS_BASE[i].rotation
      && cards[i].landingY == FEATURE_CARDS_BASE[i].landingY && cards[i].left == FEATURE_CARDS_BASE[i].left
    ensures multiset(DelaysOf(cards)) == multiset(DELAYS)
    ensures forall d :: d in DELAYS ==> multiset(DelaysOf(cards))[d] == 1
  {
    var delays := ShuffleArray(DELAYS, picks);
    cards := AssignDelays(FEATURE_CARDS_BASE, delays);
    AssignDelaysKeepsCards(FEATURE_CARDS_BASE, delays);
    DelaysDistinct();
    forall d | d in DELAYS
      ensures multiset(DelaysOf(cards))[d] == 1
    {
      DistinctOccursOnce(DELAYS, d);
    }
  }

  /** `wiggleCounters[label] ?? 0`: the count for a label, 0 if it has
      none yet. */
  function Counter(counters: map<string, nat>, l: string): nat {
    if l in counters then counters[l] else 0
  }

  /** `triggerWiggle`: bump the label's counter (from 0 if absent) and keep
      every other counter. */
  function TriggerWiggle(counters: map<string, nat>, l: string): (r: map<string, nat>)
    ensures r.Keys == counters.Keys + {l}
    ensures Counter(r, l) == Counter(counters, l) + 1
    ensures forall m :: m != l ==> Counter(r, m) == Counter(counters, m)
  {
    counters[l := Counter(counters, l) + 1]
  }

  /** Triggering the wiggles for `labels` one after another. */
  function TriggerAll(counters: map<string, nat>, labels: seq<string>): map<string, nat> {
    if labels == [] then counters
    else TriggerWiggle(TriggerAll(counters, labels[..|labels| - 1]), labels[|labels| - 1])
  }

  /** After any run of triggers, each label's counter is its starting
      count plus the number of triggers for it; so counters never
      decrease, and each card's `wiggleKey` counts its clicks. */
  lemma {:induction false} TriggerAllCounts(counters: map<string, nat>, labels: seq<string>, m: string)
    ensures Counter(TriggerAll(counters, labels), m) == Counter(counters, m) + multiset(labels)[m]
    ensures Counter(TriggerAll(counters, labels), m) >= Counter(counters, m)
  {
    if labels != [] {
      var init := labels[..|labels| - 1];
      assert labels == init + [labels[|labels| - 1]];
      TriggerAllCounts(counters, init, m);
    }
  }
}
