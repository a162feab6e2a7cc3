/**
 * The experience timeline: one item per entry, in order, each told whether it
 * sits on the left, and whether it is the first or the last.
 */
module Timeline {

  /** One rendered `TimelineItem`: the entry and its three position flags. */
  datatype Placed<T> = Placed(item: T, isLeft: bool, isFirst: bool, isLast: bool)

  /** The flags of position `index` in a list of `n` entries. */
  function Place<T>(item: T, index: nat, n: nat): (p: Placed<T>)
    ensures p.item == item
    ensures p.isLeft <==> index % 2 == 0
    ensures p.isFirst <==> index == 0
    ensures p.isLast <==> index == n - 1
  {
    Placed(item, index % 2 == 0, index == 0, index == n - 1)
  }

  /** `experiences.map((experience, index) => <TimelineItem … />)`. */
  function Layout<T>(experiences: seq<T>): (r: seq<Placed<T>>)
    ensures |r| == |experiences|
    ensures forall i :: 0 <= i < |r| ==> r[i] == Place(experiences[i], i, |experiences|)
  {
    seq(|experiences|, i requires 0 <= i < |experiences| => Place(experiences[i], i, |experiences|))
  }

  /** The indices whose item is flagged first, and those flagged last. */
  function FirstIndices<T>(r: seq<Placed<T>>): set<nat> {
    set i: nat | i < |r| && r[i].isFirst
  }

  function LastIndices<T>(r: seq<Placed<T>>): set<nat> {
    set i: nat | i < |r| && r[i].isLast
  }

  /**
   * A non-empty timeline has exactly one first item, at the top, and exactly
   * one last item, at the bottom; with a single entry they are the same item.
   */
  lemma OneFirstOneLast<T>(experiences: seq<T>)
    requires |experiences| > 0
    ensures FirstIndices(Layout(experiences)) == {0}
    ensures LastIndices(Layout(experiences)) == {|experiences| - 1}
    ensures |experiences| == 1 ==> Layout(experiences)[0].isFirst && Layout(experiences)[0].isLast
  {
    var r := Layout(experiences);
    assert r[0].isFirst;
    assert r[|r| - 1].isLast;
  }

  /** Neighbouring items sit on opposite sides, starting on the left. */
  lemma Alternates<T>(experiences: seq<T>)
    ensures |experiences| > 0 ==> Layout(experiences)[0].isLeft
    ensures forall i :: 0 <= i < |experiences| - 1 ==> Layout(experiences)[i].isLeft != Layout(experiences)[i + 1].isLeft
  {
  }

  /** How many of the items sit on the left. */
  function LeftCount<T>(r: seq<Placed<T>>): nat {
    if r == [] then 0 else LeftCount(r[..|r| - 1]) + (if r[|r| - 1].isLeft then 1 else 0)
  }

  /** Only the side flags matter to the count. */
  lemma {:induction false} LeftCountBySides<T>(a: seq<Placed<T>>, b: seq<Placed<T>>)
    requires |a| == |b|
    requires forall i :: 0 <= i < |a| ==> a[i].isLeft == b[i].isLeft
    ensures LeftCount(a) == LeftCount(b)
    decreases |a|
  {
    if a != [] {
      LeftCountBySides(a[..|a| - 1], b[..|b| - 1]);
    }
  }

  /** The left side gets the extra item when the count is odd: `ceil(n / 2)` items. */
  lemma {:induction false} LeftGetsHalfRoundedUp<T>(experiences: seq<T>)
    ensures LeftCount(Layout(experiences)) == (|experiences| + 1) / 2
    decreases |experiences|
  {
    if experiences != [] {
      var n := |experiences|;
      var init := experiences[..n - 1];
      var r := Layout(experiences);
      LeftGetsHalfRoundedUp(init);
      LeftCountBySides(r[..n - 1], Layout(init));
      assert r[n - 1].isLeft <==> (n - 1) % 2 == 0;
    }
  }
}
