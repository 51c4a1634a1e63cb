/**
 * The container counter page: five per-container counts that the "+" and "-"
 * buttons raise and lower by one, the total shown beneath them, and the
 * start/stop capture toggle.
 */
module CounterPage {

  /** The page shows five containers. */
  const ContainerCount: nat := 5

  /** The sum of a list of counts. */
  function Sum(counts: seq<int>): int
  {
    if counts == [] then 0 else counts[0] + Sum(counts[1..])
  }

  /**
   * `counts.reduce((acc, count) => acc + count, acc)`: a left-to-right fold
   * from the accumulator `acc`, which adds up to `acc` plus the sum.
   */
  function Reduce(acc: int, counts: seq<int>): (r: int)
    ensures r == acc + Sum(counts)
    decreases |counts|
  {
    if counts == [] then acc else Reduce(acc + counts[0], counts[1..])
  }

  /** Changing one count by `delta` changes the sum by exactly `delta`. */
  lemma {:induction false} SumAfterAdjust(counts: seq<int>, index: nat, delta: int)
    requires index < |counts|
    ensures Sum(counts[index := counts[index] + delta]) == Sum(counts) + delta
    decreases |counts|
  {
    var adjusted := counts[index := counts[index] + delta];
    if index == 0 {
      assert adjusted[1..] == counts[1..];
    } else {
      assert adjusted[1..] == counts[1..][index - 1 := counts[index] + delta];
      SumAfterAdjust(counts[1..], index - 1, delta);
    }
  }

  /**
   * The counts after one button press on container `index`: that count moves
   * by `delta`, every other count and the number of containers stay, and the
   * total moves by `delta` too.
   */
  function Adjusted(counts: seq<int>, index: nat, delta: int): (r: seq<int>)
    requires index < |counts|
    ensures |r| == |counts|
    ensures r[index] == counts[index] + delta
    ensures forall j :: 0 <= j < |r| && j != index ==> r[j] == counts[j]
    ensures Sum(r) == Sum(counts) + delta
  {
    SumAfterAdjust(counts, index, delta);
    counts[index := counts[index] + delta]
  }

  /** A press of "-" undoes a press of "+" on the same container, and the
      other way round. */
  lemma {:induction false} AdjustUndone(counts: seq<int>, index: nat, delta: int)
    requires index < |counts|
    ensures Adjusted(Adjusted(counts, index, delta), index, -delta) == counts
  {
    var there := Adjusted(counts, index, delta);
    var back := Adjusted(there, index, -delta);
    assert forall j :: 0 <= j < |counts| ==> back[j] == counts[j];
  }

  /** Presses on two different containers commute. */
  lemma {:induction false} AdjustCommutes(counts: seq<int>, i: nat, di: int, j: nat, dj: int)
    requires i < |counts| && j < |counts| && i != j
    ensures Adjusted(Adjusted(counts, i, di), j, dj) == Adjusted(Adjusted(counts, j, dj), i, di)
  {
    var left := Adjusted(Adjusted(counts, i, di), j, dj);
    var right := Adjusted(Adjusted(counts, j, dj), i, di);
    assert forall k :: 0 <= k < |counts| ==> left[k] == right[k];
  }

  /** The page's state. */
  class Counter {
    var counts: seq<int>
    var isCapturing: bool

    /** The page always shows exactly five containers. */
    ghost predicate Valid()
      reads this
    {
      |counts| == ContainerCount
    }

    /** Initial state: five zero counts, capture off. */
    constructor ()
      ensures Valid()
      ensures counts == [0, 0, 0, 0, 0] && !isCapturing
      ensures TotalCount() == 0
    {
      counts := [0, 0, 0, 0, 0];
      isCapturing := false;
    }

    /** `totalCount`: the sum of the counts. */
    function TotalCount(): (total: int)
      reads this
      ensures total == Sum(counts)
    {
      Reduce(0, counts)
    }

    /** `handleIncrement(index)`: copy the counts, add one at `index`,
        and replace the state with the copy. */
    method HandleIncrement(index: nat)
      requires Valid() && index < |counts|
      modifies this
      ensures Valid()
      ensures counts == Adjusted(old(counts), index, 1)
      ensures TotalCount() == old(TotalCount()) + 1
      ensures isCapturing == old(isCapturing)
    {
      var newCounts := counts;
      newCounts := newCounts[index := newCounts[index] + 1];
      counts := newCounts;
    }

    /** `handleDecrement(index)`: the same with minus one; nothing keeps a
        count from going below zero. */
    method HandleDecrement(index: nat)
      requires Valid() && index < |counts|
      modifies this
      ensures Valid()
      ensures counts == Adjusted(old(counts), index, -1)
      ensures TotalCount() == old(TotalCount()) - 1
      ensures isCapturing == old(isCapturing)
    {
      var newCounts := counts;
      newCounts := newCounts[index := newCounts[index] - 1];
      counts := newCounts;
    }

    /** `handleStartStopCapture`: flip the capture flag. */
    method HandleStartStopCapture()
      modifies this
      ensures isCapturing == !old(isCapturing)
      ensures counts == old(counts)
    {
      isCapturing := !isCapturing;
    }
  }

  /** "+" then "-" on the same container leaves the page as it was. */
  method IncrementThenDecrement(c: Counter, index: nat)
    requires c.Valid() && index < |c.counts|
    modifies c
    ensures c.Valid() && c.counts == old(c.counts) && c.isCapturing == old(c.isCapturing)
  {
    c.HandleIncrement(index);
    c.HandleDecrement(index);
    AdjustUndone(old(c.counts), index, 1);
  }

  /** Pressing the capture button twice restores the flag. */
  method StartStopTwice(c: Counter)
    modifies c
    ensures c.isCapturing == old(c.isCapturing) && c.counts == old(c.counts)
  {
    c.HandleStartStopCapture();
    c.HandleStartStopCapture();
  }

  /** From a fresh page, "-" on the first container shows a count of -1. */
  method DecrementFromFreshPage() returns (counts: seq<int>, total: int)
    ensures counts == [-1, 0, 0, 0, 0] && total == -1
  {
    var c := new Counter();
    c.HandleDecrement(0);
    counts, total := c.counts, c.TotalCount();
  }
}
