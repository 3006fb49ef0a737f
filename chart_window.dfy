/**
 * The sliding window behind both dashboard charts: a `timestamps` array of
 * 160 slots that also serves as the chart's `labels`, and three parallel
 * dataset arrays. Mounting fills the window with the 160 half-second ticks
 * before "now" and null data points; every new metrics sample drops the
 * oldest slot of each array (`shift`) and appends the new values (`push`).
 *
 * JavaScript arrays are objects whose length changes: each is a `Series`
 * whose `items` the methods reassign. A slot is a hole (never written, or
 * read past the end), `null`, or a number.
 */
module ChartWindow {

  datatype Cell = Hole | Null | Num(n: int)

  /** `new Array(160)`: the number of slots in the window. */
  const Window: nat := 160

  /** Milliseconds between two initial timestamps. */
  const Tick: int := 500

  /** `a.shift()`: everything moves one place left; an empty array stays empty. */
  function Shifted(s: seq<Cell>): (r: seq<Cell>)
    ensures |r| == if s == [] then 0 else |s| - 1
    ensures forall k :: 0 <= k < |r| ==> r[k] == s[k + 1]
  {
    if s == [] then [] else s[1..]
  }

  /** `a[i] = c`: writing past the end leaves holes before slot i. */
  function Stored(s: seq<Cell>, i: nat, c: Cell): (r: seq<Cell>)
    ensures |r| == if i < |s| then |s| else i + 1
    ensures r[i] == c
    ensures forall k :: 0 <= k < |s| && k != i ==> r[k] == s[k]
    ensures forall k :: |s| <= k < i ==> r[k] == Hole
  {
    if i < |s| then s[i := c] else s + seq(i - |s|, _ => Hole) + [c]
  }

  /** `a.shift(); a.push(c)` */
  function Slid(s: seq<Cell>, c: Cell): (r: seq<Cell>)
    ensures |r| == if s == [] then 1 else |s|
    ensures r[|r| - 1] == c
    ensures forall k :: 0 <= k < |r| - 1 ==> r[k] == s[k + 1]
  {
    Shifted(s) + [c]
  }

  /** The initial timestamps: slot i holds `now - 500 * (len - i)`. */
  function Timeline(now: int, len: nat): (r: seq<Cell>)
    ensures |r| == len
    ensures forall i :: 0 <= i < len ==> r[i].Num?
    ensures forall i :: 0 < i < len ==> r[i].n == r[i - 1].n + Tick
    ensures forall i, j :: 0 <= i < j < len ==> r[i].n < r[j].n
    ensures len > 0 ==> r[len - 1] == Num(now - Tick)
  {
    seq(len, i requires 0 <= i < len => Num(now - Tick * (len - i)))
  }

  /** The result of `data[i] = null` for i = 0 .. len - 1. */
  function Nulled(s: seq<Cell>, len: nat): (r: seq<Cell>)
    ensures |r| == if len < |s| then |s| else len
    ensures forall k :: 0 <= k < len ==> r[k] == Null
    ensures forall k :: len <= k < |s| ==> r[k] == s[k]
  {
    seq(if len < |s| then |s| else len, k requires 0 <= k < (if len < |s| then |s| else len) =>
      if k < len then Null else s[k])
  }

  /** One more null keeps the prefix null: the step of the initialisation loop. */
  lemma NulledStep(s: seq<Cell>, i: nat)
    ensures Stored(Nulled(s, i), i, Null) == Nulled(s, i + 1)
  {
  }

  /** A JavaScript array. */
  class Series {
    var items: seq<Cell>

    /** `new Array(n)` */
    constructor Holes(n: nat)
      ensures items == seq(n, _ => Hole)
    {
      items := seq(n, _ => Hole);
    }

    /** `[]` */
    constructor Empty()
      ensures items == []
    {
      items := [];
    }

    method Shift() returns (first: Cell)
      modifies this
      ensures items == Shifted(old(items))
      ensures first == if old(items) == [] then Hole else old(items)[0]
    {
      if items == [] {
        return Hole;
      }
      first := items[0];
      items := items[1..];
    }

    method Push(c: Cell)
      modifies this
      ensures items == old(items) + [c]
    {
      items := items + [c];
    }

    method Store(i: nat, c: Cell)
      modifies this
      ensures items == Stored(old(items), i, c)
    {
      if i < |items| {
        items := items[i := c];
      } else {
        items := items + seq(i - |items|, _ => Hole) + [c];
      }
    }
  }

  /** A chart's state: its `timestamps`, and its `ChartData` with `labels` and three datasets. */
  class Chart {
    const timestamps: Series
    var labels: Series
    /** `datasets[k].data` */
    const datasets: seq<Series>
    /** `datasets[k].label` */
    const names: seq<string>
    ghost const Repr: set<object>

    ghost predicate Valid()
      reads this
    {
      && |datasets| == 3 && |names| == 3
      && labels == timestamps
      && timestamps != datasets[0] && timestamps != datasets[1] && timestamps != datasets[2]
      && datasets[0] != datasets[1] && datasets[0] != datasets[2] && datasets[1] != datasets[2]
      && Repr == {this, timestamps, datasets[0], datasets[1], datasets[2]}
    }

    /** Every array has exactly the window's 160 slots. */
    ghost predicate Aligned()
      requires Valid()
      reads this, Repr
    {
      && |timestamps.items| == Window
      && |datasets[0].items| == Window && |datasets[1].items| == Window && |datasets[2].items| == Window
    }

    /** The two `useState` initial values: 160 empty slots, `labels: timestamps`, empty datasets. */
    constructor (names: seq<string>)
      requires |names| == 3
      ensures Valid() && fresh(Repr)
      ensures this.names == names
      ensures timestamps.items == seq(Window, _ => Hole)
      ensures forall k :: 0 <= k < 3 ==> datasets[k].items == []
    {
      var t := new Series.Holes(Window);
      var d0 := new Series.Empty();
      var d1 := new Series.Empty();
      var d2 := new Series.Empty();
      timestamps := t;
      labels := t;
      datasets := [d0, d1, d2];
      this.names := names;
      Repr := {this, t, d0, d1, d2};
    }

    /**
     * The mount effect: the two index-writing loops over 0 .. len - 1, where
     * len is the current length of `timestamps`.
     */
    method Init(now: int)
      requires Valid()
      modifies Repr
      ensures Valid() && labels == old(labels)
      ensures timestamps.items == Timeline(now, |old(timestamps.items)|)
      ensures forall k :: 0 <= k < 3 ==>
        datasets[k].items == Nulled(old(datasets[k].items), |old(timestamps.items)|)
    {
      var len := |timestamps.items|;
      for i := 0 to len
        modifies timestamps
        invariant |timestamps.items| == len
        invariant forall j :: 0 <= j < i ==> timestamps.items[j] == Num(now - Tick * (len - j))
      {
        timestamps.Store(i, Num(now - Tick * (len - i)));
      }
      assert timestamps.items == Timeline(now, len);
      for i := 0 to len
        modifies datasets[0], datasets[1], datasets[2]
        invariant timestamps.items == Timeline(now, len)
        invariant datasets[0].items == Nulled(old(datasets[0].items), i)
        invariant datasets[1].items == Nulled(old(datasets[1].items), i)
        invariant datasets[2].items == Nulled(old(datasets[2].items), i)
      {
        NulledStep(old(datasets[0].items), i);
        NulledStep(old(datasets[1].items), i);
        NulledStep(old(datasets[2].items), i);
        datasets[0].Store(i, Null);
        datasets[1].Store(i, Null);
        datasets[2].Store(i, Null);
      }
    }

    /**
     * The update effect's array work for one sample: shift and push the
     * timestamp, point `labels` at `timestamps` again, then shift all three
     * datasets and push one value onto each.
     */
    method Slide(t: int, v0: int, v1: int, v2: int)
      requires Valid()
      modifies Repr
      ensures Valid() && labels == timestamps
      ensures timestamps.items == Slid(old(timestamps.items), Num(t))
      ensures datasets[0].items == Slid(old(datasets[0].items), Num(v0))
      ensures datasets[1].items == Slid(old(datasets[1].items), Num(v1))
      ensures datasets[2].items == Slid(old(datasets[2].items), Num(v2))
      ensures old(Aligned()) ==> Aligned()
    {
      var _ := timestamps.Shift();
      timestamps.Push(Num(t));
      labels := timestamps;
      var _ := datasets[0].Shift();
      var _ := datasets[1].Shift();
      var _ := datasets[2].Shift();
      datasets[0].Push(Num(v0));
      datasets[1].Push(Num(v1));
      datasets[2].Push(Num(v2));
    }
  }

  /** After an update the window still has 160 slots, the newest last. */
  lemma SlideKeepsWindow(s: seq<Cell>, c: Cell, k: nat)
    requires |s| == Window && k < Window
    ensures |Slid(s, c)| == Window
    ensures Slid(s, c)[k] == if k == Window - 1 then c else s[k + 1]
  {
  }
}
