/**
 * The selection logic of the stream tree as values: which channels of a stream are
 * checked, which colour each channel is drawn in, and the selection events sent to
 * the plotting widget.
 */
module Selection {
  import opened Options

  /** The check state of a tree item. */
  datatype CheckState = Unchecked | PartiallyChecked | Checked

  /**
   * A display colour. `Hue(i, n)` stands for the i-th of n colours sampled evenly
   * around the hue wheel (hue i/n, saturation 0.75, value 0.92, converted to RGB and
   * scaled to 0..255); the floating-point conversion itself is not modelled.
   * `Black` is the foreground of an unchecked channel.
   */
  datatype Color = Black | Hue(sample: nat, count: nat)

  /** One channel item of a stream: its checkbox, its foreground and its text. */
  datatype Channel = Channel(state: CheckState, fg: Color, text: string)

  /** One emission of the selection signal: stream name, checked indices, colours. */
  datatype Event = Event(name: Option<string>, checked: seq<nat>, colors: seq<Color>)

  /** The part of the controller state that a recompute over one stream reads and writes. */
  datatype Panel = Panel(children: seq<Channel>, checked: seq<nat>, colors: seq<Color>, emitted: seq<Event>)

  /** `n` evenly spaced colours, one per checked channel. */
  function Palette(n: nat): (r: seq<Color>)
    ensures |r| == n
  {
    seq(n, i requires 0 <= i < n => Hue(i, n))
  }

  /** The indices 0, 1, ..., n - 1. */
  function Range(n: nat): seq<nat>
  {
    seq(n, i requires 0 <= i < n => i as nat)
  }

  predicate StrictlyIncreasing(xs: seq<nat>)
  {
    forall a, b :: 0 <= a < b < |xs| ==> xs[a] < xs[b]
  }

  /** The indices of the checked children, in ascending order. */
  function CheckedIndices(ch: seq<Channel>): (r: seq<nat>)
    ensures StrictlyIncreasing(r)
    ensures forall k :: 0 <= k < |r| ==> r[k] < |ch|
    ensures forall i :: 0 <= i < |ch| ==> (i in r <==> ch[i].state == Checked)
  {
    if ch == [] then []
    else
      var n := |ch| - 1;
      var pre := CheckedIndices(ch[..n]);
      assert forall i :: 0 <= i < n ==> ch[..n][i] == ch[i];
      if ch[n].state == Checked then pre + [n] else pre
  }

  /**
   * How many of the indices 0..i-1 occur in `xs`: the colour slot of child `i`.
   * The ensures is only a bound; what the slot means is stated by `RankOfKth`.
   */
  function CountIn(xs: seq<nat>, i: nat): (r: nat)
    ensures r <= i
  {
    if i == 0 then 0 else CountIn(xs, i - 1) + (if i - 1 in xs then 1 else 0)
  }

  /** How many elements of `xs` lie below `v`. */
  function NumBelow(xs: seq<nat>, v: nat): nat
  {
    if xs == [] then 0 else (if xs[0] < v then 1 else 0) + NumBelow(xs[1..], v)
  }

  lemma {:induction false} NumBelowNone(xs: seq<nat>, v: nat)
    requires forall j :: 0 <= j < |xs| ==> xs[j] >= v
    ensures NumBelow(xs, v) == 0
    decreases |xs|
  {
    if xs != [] {
      NumBelowNone(xs[1..], v);
    }
  }

  lemma {:induction false} NumBelowStep(xs: seq<nat>, v: nat)
    requires StrictlyIncreasing(xs)
    ensures NumBelow(xs, v + 1) == NumBelow(xs, v) + (if v in xs then 1 else 0)
    decreases |xs|
  {
    if xs != [] {
      var tail := xs[1..];
      assert StrictlyIncreasing(tail);
      NumBelowStep(tail, v);
      assert xs == [xs[0]] + tail;
      assert forall j :: 0 <= j < |tail| ==> tail[j] > xs[0];
    }
  }

  lemma {:induction false} CountInIsNumBelow(xs: seq<nat>, i: nat)
    requires StrictlyIncreasing(xs)
    ensures CountIn(xs, i) == NumBelow(xs, i)
    decreases i
  {
    if i == 0 {
      NumBelowNone(xs, 0);
    } else {
      CountInIsNumBelow(xs, i - 1);
      NumBelowStep(xs, i - 1);
    }
  }

  lemma {:induction false} NumBelowAtElement(xs: seq<nat>, k: nat)
    requires StrictlyIncreasing(xs) && k < |xs|
    ensures NumBelow(xs, xs[k]) == k
    decreases k
  {
    if k == 0 {
      NumBelowNone(xs, xs[0]);
    } else {
      assert StrictlyIncreasing(xs[1..]) && xs[1..][k - 1] == xs[k];
      NumBelowAtElement(xs[1..], k - 1);
    }
  }

  lemma {:induction false} NumBelowAll(xs: seq<nat>, v: nat)
    requires forall j :: 0 <= j < |xs| ==> xs[j] < v
    ensures NumBelow(xs, v) == |xs|
    decreases |xs|
  {
    if xs != [] {
      NumBelowAll(xs[1..], v);
    }
  }

  /** In an ascending list of indices, the k-th element has exactly k elements below it. */
  lemma RankOfKth(xs: seq<nat>, k: nat)
    requires StrictlyIncreasing(xs) && k < |xs|
    ensures CountIn(xs, xs[k]) == k
  {
    CountInIsNumBelow(xs, xs[k]);
    NumBelowAtElement(xs, k);
  }

  /** Every checked slot of an ascending list names one of its own colours. */
  lemma RanksInRange(xs: seq<nat>)
    requires StrictlyIncreasing(xs)
    ensures forall i :: i in xs ==> CountIn(xs, i) < |xs|
  {
    forall i | i in xs
      ensures CountIn(xs, i) < |xs|
    {
      var k :| 0 <= k < |xs| && xs[k] == i;
      RankOfKth(xs, k);
    }
  }

  /** When every index lies below `n`, the scan over `n` children uses one slot per index. */
  lemma CountInAll(xs: seq<nat>, n: nat)
    requires StrictlyIncreasing(xs)
    requires forall k :: 0 <= k < |xs| ==> xs[k] < n
    ensures CountIn(xs, n) == |xs|
  {
    CountInIsNumBelow(xs, n);
    NumBelowAll(xs, n);
  }

  /**
   * The children after positional recolouring: a child whose index occurs in
   * `checked` gets the colour at its slot (the number of checked indices below
   * it), every other child gets black; nothing but the foreground changes.
   */
  function Recolored(ch: seq<Channel>, checked: seq<nat>, colors: seq<Color>): (r: seq<Channel>)
    requires forall i :: 0 <= i < |ch| && i in checked ==> CountIn(checked, i) < |colors|
    ensures |r| == |ch|
    ensures forall i :: 0 <= i < |ch| ==>
              r[i] == ch[i].(fg := if i in checked then colors[CountIn(checked, i)] else Black)
  {
    if ch == [] then []
    else
      var n := |ch| - 1;
      var c := ch[n].(fg := if n in checked then colors[CountIn(checked, n)] else Black);
      Recolored(ch[..n], checked, colors) + [c]
  }

  /** Every child takes the check state `st`; nothing else changes. */
  function Cascade(ch: seq<Channel>, st: CheckState): (r: seq<Channel>)
    ensures |r| == |ch|
    ensures forall i :: 0 <= i < |ch| ==> r[i].state == st && r[i].fg == ch[i].fg && r[i].text == ch[i].text
  {
    seq(|ch|, i requires 0 <= i < |ch| => ch[i].(state := st))
  }

  /**
   * A recompute after a check edit: collect the checked indices; when they differ
   * from the stored list, store them with a fresh palette of the same length, emit
   * one event and recolour the stream; otherwise leave everything as it is.
   */
  function Recompute(p: Panel, name: Option<string>): Panel
  {
    var now := CheckedIndices(p.children);
    if now == p.checked then p
    else
      var cs := Palette(|now|);
      RanksInRange(now);
      Panel(Recolored(p.children, now, cs), now, cs, p.emitted + [Event(name, now, cs)])
  }

  /**
   * What a recompute promises: the stored list becomes the checked indices; an
   * unchanged list changes nothing and emits nothing; a changed list gets as many
   * colours as indices, exactly one event carrying both, the k-th checked child
   * drawn in the k-th colour and every unchecked child in black.
   */
  lemma RecomputeSpec(p: Panel, name: Option<string>)
    ensures var q := Recompute(p, name);
            var now := CheckedIndices(p.children);
            && q.checked == now
            && (now == p.checked ==> q == p)
            && (now != p.checked ==>
                && q.colors == Palette(|now|)
                && |q.colors| == |q.checked|
                && q.emitted == p.emitted + [Event(name, q.checked, q.colors)]
                && |q.children| == |p.children|
                && (forall k :: 0 <= k < |now| ==>
                      q.children[now[k]] == p.children[now[k]].(fg := q.colors[k]))
                && (forall i :: 0 <= i < |p.children| && p.children[i].state != Checked ==>
                      q.children[i] == p.children[i].(fg := Black)))
  {
    var now := CheckedIndices(p.children);
    if now != p.checked {
      forall k | 0 <= k < |now|
        ensures CountIn(now, now[k]) == k
      {
        RankOfKth(now, k);
      }
    }
  }

  lemma {:induction false} CheckedIndicesIgnoresColour(a: seq<Channel>, b: seq<Channel>)
    requires |a| == |b|
    requires forall i :: 0 <= i < |a| ==> a[i].state == b[i].state
    ensures CheckedIndices(a) == CheckedIndices(b)
    decreases |a|
  {
    if a != [] {
      var n := |a| - 1;
      CheckedIndicesIgnoresColour(a[..n], b[..n]);
    }
  }

  /** A second recompute with no check edit in between changes nothing and emits nothing. */
  lemma RecomputeIdempotent(p: Panel, name: Option<string>, name': Option<string>)
    ensures Recompute(Recompute(p, name), name') == Recompute(p, name)
  {
    var q := Recompute(p, name);
    RecomputeSpec(p, name);
    CheckedIndicesIgnoresColour(q.children, p.children);
  }

  lemma {:induction false} AllCheckedIndices(ch: seq<Channel>)
    requires forall i :: 0 <= i < |ch| ==> ch[i].state == Checked
    ensures CheckedIndices(ch) == Range(|ch|)
    decreases |ch|
  {
    if ch != [] {
      AllCheckedIndices(ch[..|ch| - 1]);
    }
  }

  lemma {:induction false} NoCheckedIndices(ch: seq<Channel>)
    requires forall i :: 0 <= i < |ch| ==> ch[i].state != Checked
    ensures CheckedIndices(ch) == []
    decreases |ch|
  {
    if ch != [] {
      NoCheckedIndices(ch[..|ch| - 1]);
    }
  }

  /**
   * Cascading a stream's state to its children: checked selects every channel in
   * ascending order, any other state selects none.
   */
  lemma CascadeSelects(ch: seq<Channel>, st: CheckState)
    ensures CheckedIndices(Cascade(ch, st)) == (if st == Checked then Range(|ch|) else [])
  {
    var r := Cascade(ch, st);
    if st == Checked {
      AllCheckedIndices(r);
    } else {
      NoCheckedIndices(r);
    }
  }

  /**
   * Toggling a non-empty stream off and then on again leaves every channel checked
   * and publishes the full selection with a palette of one colour per channel.
   */
  lemma ToggleOffThenOn(p: Panel, name: Option<string>)
    requires |p.children| > 0
    ensures var off := Recompute(p.(children := Cascade(p.children, Unchecked)), name);
            var on := Recompute(off.(children := Cascade(off.children, Checked)), name);
            var n := |p.children|;
            && off.checked == []
            && on.checked == Range(n)
            && on.colors == Palette(n)
            && |on.emitted| > 0
            && on.emitted[|on.emitted| - 1] == Event(name, Range(n), Palette(n))
            && |on.children| == n
            && (forall i :: 0 <= i < n ==> on.children[i].state == Checked)
  {
    var p0 := p.(children := Cascade(p.children, Unchecked));
    CascadeSelects(p.children, Unchecked);
    RecomputeSpec(p0, name);
    var off := Recompute(p0, name);
    var p1 := off.(children := Cascade(off.children, Checked));
    CascadeSelects(off.children, Checked);
    RecomputeSpec(p1, name);
    var on := Recompute(p1, name);
    assert Range(|p.children|) != [];
    forall i | 0 <= i < |p.children|
      ensures on.children[i].state == Checked
    {
      assert on.children[i].state == p1.children[i].state;
    }
  }
}
