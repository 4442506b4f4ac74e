/**
 * The stream tree panel: a tree of streams, each with its channel items, and the
 * controller whose handlers keep the checked channels, their colours and the
 * selection signal in step with the checkboxes.
 */
module Visualizer {
  import opened Options
  import opened Labels
  import opened Selection

  /** What the plotting side reports about one stream: its name and channel count. */
  datatype StreamMeta = StreamMeta(name: string, chCount: nat)

  /** A top-level tree item: one stream with its channel items. */
  class StreamItem {
    const name: string
    const children: array<Channel>
    var state: CheckState
    var expanded: bool

    constructor (name: string, state: CheckState, children: array<Channel>)
      ensures this.name == name && this.state == state && this.children == children
      ensures !expanded
    {
      this.name := name;
      this.state := state;
      this.children := children;
      expanded := false;
    }
  }

  /**
   * The item a handler is called with: a stream, or a channel of a stream. The index
   * only names which channel was clicked; no handler reads it, since a channel item
   * always leads to a recompute of its parent.
   */
  datatype Item = StreamNode(stream: StreamItem) | ChannelNode(parent: StreamItem, index: nat)

  /** The stream whose channels a recompute scans: the item itself, or its parent. */
  function Owner(it: Item): StreamItem
  {
    match it
    case StreamNode(s) => s
    case ChannelNode(p, _) => p
  }

  /**
   * Whether the owning stream can be found: a stream item without children is
   * taken for a channel item, and its parent is absent.
   */
  predicate Resolves(it: Item)
  {
    it.ChannelNode? || it.stream.children.Length > 0
  }

  /** Python's falsy test on the current stream name: absent or empty. */
  predicate Unset(name: Option<string>)
  {
    name == None || name == Some("")
  }

  /** The current stream name after a cascade by `it`: set from a stream item only if unset. */
  function NamedBy(it: Item, name: Option<string>): Option<string>
  {
    if it.StreamNode? && it.stream.children.Length > 0 && Unset(name) then Some(it.stream.name) else name
  }

  /** The channels of a stream just built: all checked, coloured by position, labelled. */
  function FreshChannels(n: nat, mapping: map<string, string>): (r: seq<Channel>)
    ensures |r| == n
  {
    seq(n, m requires 0 <= m < n => Channel(Checked, Palette(n)[m], ChannelLabel(m, mapping)))
  }

  /**
   * The indices a rebuild of the first `upTo` streams appends to the checked
   * list: 0..n-1 once per stream, in order.
   */
  function Accumulated(metadata: seq<StreamMeta>, upTo: nat): seq<nat>
    requires upTo <= |metadata|
  {
    if upTo == 0 then [] else Accumulated(metadata, upTo - 1) + Range(metadata[upTo - 1].chCount)
  }

  /** The number of channels over the first `upTo` streams. */
  function TotalChannels(metadata: seq<StreamMeta>, upTo: nat): nat
    requires upTo <= |metadata|
  {
    if upTo == 0 then 0 else TotalChannels(metadata, upTo - 1) + metadata[upTo - 1].chCount
  }

  /** Stream item `s` is as a rebuild leaves it for the metadata entry `meta`. */
  predicate IsBuilt(s: StreamItem, meta: StreamMeta, mapping: map<string, string>, expanded: bool)
    reads s, s.children
  {
    && s.name == meta.name && s.state == Checked && s.expanded == expanded
    && s.children[..] == FreshChannels(meta.chCount, mapping)
  }

  predicate DistinctNames(tree: seq<StreamItem>)
  {
    forall i, j :: 0 <= i < j < |tree| ==> tree[i].name != tree[j].name
  }

  predicate AtMostOneExpanded(tree: seq<StreamItem>)
    reads tree
  {
    forall i, j :: 0 <= i < j < |tree| && tree[i].expanded ==> !tree[j].expanded
  }

  /**
   * A freshly built stream is already in the state a recompute would leave it in
   * once its indices are stored: every channel is checked, and channel m carries
   * the m-th colour of the stream's palette.
   */
  lemma FreshStreamSettled(n: nat, mapping: map<string, string>, emitted: seq<Event>, name: Option<string>)
    ensures CheckedIndices(FreshChannels(n, mapping)) == Range(n)
    ensures var p := Panel(FreshChannels(n, mapping), Range(n), Palette(n), emitted);
            Recompute(p, name) == p
    ensures forall i :: 0 <= i < n ==> CountIn(Range(n), i) == i
  {
    var ch := FreshChannels(n, mapping);
    AllCheckedIndices(ch);
    forall i | 0 <= i < n
      ensures CountIn(Range(n), i) == i
    {
      RankOfKth(Range(n), i);
    }
  }

  /** A rebuild appends one index per channel of every stream. */
  lemma {:induction false} AccumulatedLength(metadata: seq<StreamMeta>, upTo: nat)
    requires upTo <= |metadata|
    ensures |Accumulated(metadata, upTo)| == TotalChannels(metadata, upTo)
    decreases upTo
  {
    if upTo > 0 {
      AccumulatedLength(metadata, upTo - 1);
    }
  }

  /**
   * Starting from an empty checked list, a rebuild leaves as many colours as
   * checked indices exactly when no stream but the last has channels: the
   * palette is that of the last stream while the indices of all streams pile up.
   */
  lemma RebuildPairing(metadata: seq<StreamMeta>)
    requires metadata != []
    ensures var n := |metadata|;
            |Accumulated(metadata, n)| == |Palette(metadata[n - 1].chCount)|
            <==> TotalChannels(metadata, n - 1) == 0
  {
    AccumulatedLength(metadata, |metadata|);
  }

  /** The controller behind the tree widget and the selection signal. */
  class SigVisualizer {
    /** The channel-name mapping, loaded once at start-up. */
    const channelsMapping: map<string, string>
    /** Set by an item-changed notification, consumed by the next click. */
    var checkedChanged: bool
    var streamName: Option<string>
    var checked: seq<nat>
    var colors: seq<Color>
    /** Every selection event emitted so far, oldest first. */
    var emitted: seq<Event>
    /** The top-level items of the tree widget. */
    var tree: seq<StreamItem>

    constructor (channelsMapping: map<string, string>)
      ensures this.channelsMapping == channelsMapping
      ensures !checkedChanged && streamName == None
      ensures checked == [] && colors == [] && emitted == [] && tree == []
    {
      this.channelsMapping := channelsMapping;
      checkedChanged := false;
      streamName := None;
      checked := [];
      colors := [];
      emitted := [];
      tree := [];
    }

    /** The state a recompute over stream `s` works on. */
    function View(s: StreamItem): Panel
      reads this, s.children
    {
      Panel(s.children[..], checked, colors, emitted)
    }

    /**
     * Walks the children in order with a colour counter: a child whose index is
     * checked takes the next colour, any other child is drawn in black.
     */
    method RecolorChecks(parent: StreamItem) returns (used: nat)
      requires forall i :: 0 <= i < parent.children.Length && i in checked ==> CountIn(checked, i) < |colors|
      modifies parent.children
      ensures parent.children[..] == Recolored(old(parent.children[..]), checked, colors)
      ensures used == CountIn(checked, parent.children.Length)
    {
      var a := parent.children;
      used := 0;
      for i := 0 to a.Length
        invariant used == CountIn(checked, i)
        invariant forall k :: 0 <= k < i ==>
                    a[k] == old(a[k]).(fg := if k in checked then colors[CountIn(checked, k)] else Black)
        invariant forall k :: i <= k < a.Length ==> a[k] == old(a[k])
      {
        if i in checked {
          a[i] := a[i].(fg := colors[used]);
          used := used + 1;
        } else {
          a[i] := a[i].(fg := Black);
        }
      }
    }

    /**
     * Recomputes the checked channels of the stream owning `it`. Fails, changing
     * nothing, when that stream cannot be found.
     */
    method UpdateChecks(it: Item) returns (ok: bool)
      modifies this`checked, this`colors, this`emitted, Owner(it).children
      ensures ok == Resolves(it)
      ensures ok ==> View(Owner(it)) == Recompute(old(View(Owner(it))), streamName)
      ensures !ok ==> View(Owner(it)) == old(View(Owner(it)))
    {
      var s := Owner(it);
      if !Resolves(it) {
        return false;
      }
      ok := true;
      ghost var before := View(s);
      var now := CheckedIndices(s.children[..]);
      if checked != now {
        checked := now;
        colors := Palette(|checked|);
        emitted := emitted + [Event(streamName, checked, colors)];
        RanksInRange(now);
        var used := RecolorChecks(s);
        assert View(s) == Panel(Recolored(before.children, now, colors), now, colors, emitted);
      } else {
        assert Recompute(before, streamName) == before;
      }
    }

    /** A checkbox value changed: remember it until the click that caused it arrives. */
    method UpdateChanged(it: Item)
      modifies this`checkedChanged
      ensures checkedChanged
    {
      checkedChanged := true;
    }

    /**
     * A click on `it`. Only after a checkbox change: a stream pushes its own check
     * state to every channel and names the current stream if none is set; then the
     * owning stream is recomputed. The change flag is consumed, except when the
     * recompute fails.
     */
    method ToggleChecks(it: Item) returns (ok: bool)
      modifies this`checkedChanged, this`streamName, this`checked, this`colors, this`emitted, Owner(it).children
      ensures !old(checkedChanged) ==> ok && View(Owner(it)) == old(View(Owner(it))) && streamName == old(streamName)
      ensures old(checkedChanged) ==> ok == Resolves(it) && streamName == NamedBy(it, old(streamName))
      ensures old(checkedChanged) && ok ==>
                View(Owner(it)) == Recompute(old(View(Owner(it))).(children := if it.StreamNode?
                                                   then Cascade(old(Owner(it).children[..]), Owner(it).state)
                                                   else old(Owner(it).children[..])), streamName)
      ensures old(checkedChanged) && !ok ==> View(Owner(it)) == old(View(Owner(it)))
      ensures checkedChanged == !ok
    {
      if checkedChanged {
        if it.StreamNode? && it.stream.children.Length > 0 {
          var s := it.stream;
          if Unset(streamName) {
            streamName := Some(s.name);
          }
          var toggle := s.state;
          for i := 0 to s.children.Length
            modifies s.children
            invariant forall k :: 0 <= k < i ==> s.children[k] == old(s.children[k]).(state := toggle)
            invariant forall k :: i <= k < s.children.Length ==> s.children[k] == old(s.children[k])
          {
            s.children[i] := s.children[i].(state := toggle);
          }
          assert s.children[..] == Cascade(old(s.children[..]), toggle);
        }
        ok := UpdateChecks(it);
        if !ok {
          return;
        }
      } else {
        ok := true;
      }
      checkedChanged := false;
    }

    /**
     * Stream `x` was expanded: it becomes the current stream, every top-level
     * stream with another name is collapsed, and the current selection is emitted.
     */
    method TreeItemExpanded(x: StreamItem)
      modifies this`streamName, this`emitted, tree
      ensures streamName == Some(x.name)
      ensures forall s :: s in tree && s.name != x.name ==> !s.expanded
      ensures forall s :: s in old(tree) && s.name == x.name ==> s.expanded == old(s.expanded)
      ensures forall s :: s in old(tree) ==> s.state == old(s.state)
      ensures emitted == old(emitted) + [Event(Some(x.name), checked, colors)]
      ensures DistinctNames(tree) ==> AtMostOneExpanded(tree)
    {
      streamName := Some(x.name);
      for i := 0 to |tree|
        modifies tree
        invariant forall s :: s in tree && s.name != x.name && s in tree[..i] ==> !s.expanded
        invariant forall s :: s in tree && s.name != x.name && s !in tree[..i] ==> s.expanded == old(s.expanded)
        invariant forall s :: s in tree && s.name == x.name ==> s.expanded == old(s.expanded)
        invariant forall s :: s in tree ==> s.state == old(s.state)
      {
        var item := tree[i];
        assert tree[..i + 1] == tree[..i] + [item];
        if item.name != x.name {
          item.expanded := false;
        }
      }
      assert tree[..|tree|] == tree;
      emitted := emitted + [Event(streamName, checked, colors)];
    }

    /**
     * Creates the channel items of a stream with `n` channels: all checked,
     * coloured by position from a fresh palette and labelled; each index is
     * appended to the checked list as its channel is created.
     */
    method BuildChannels(n: nat) returns (kids: array<Channel>)
      modifies this`checked
      ensures fresh(kids) && kids[..] == FreshChannels(n, channelsMapping)
      ensures checked == old(checked) + Range(n)
    {
      var palette := Palette(n);
      kids := new Channel[n];
      for m := 0 to n
        invariant forall k :: 0 <= k < m ==> kids[k] == Channel(Checked, palette[k], ChannelLabel(k, channelsMapping))
        invariant checked == old(checked) + Range(m)
      {
        kids[m] := Channel(Checked, palette[m], ChannelLabel(m, channelsMapping));
        checked := checked + [m];
      }
      assert kids[..] == FreshChannels(n, channelsMapping);
    }

    /**
     * Builds one stream item and its channels, expanded or not, appends it to the
     * tree, and leaves the stream's palette as the current colours.
     */
    method BuildStream(meta: StreamMeta, expanded: bool) returns (item: StreamItem)
      modifies this`colors, this`checked, this`tree
      ensures fresh(item) && fresh(item.children)
      ensures IsBuilt(item, meta, channelsMapping, expanded)
      ensures colors == Palette(meta.chCount)
      ensures checked == old(checked) + Range(meta.chCount)
      ensures tree == old(tree) + [item]
    {
      colors := Palette(meta.chCount);
      var kids := BuildChannels(meta.chCount);
      item := new StreamItem(meta.name, Checked, kids);
      item.expanded := expanded;
      tree := tree + [item];
    }

    /**
     * A metadata event: appends one stream item per entry, expands only the one at
     * `defaultIdx`, and appends each stream's channel indices to the checked list,
     * which is never cleared. Fails after the build when `defaultIdx` does not
     * index the metadata (negative indices count from the end).
     */
    method UpdateMetadataWidget(metadata: seq<StreamMeta>, defaultIdx: int) returns (ok: bool)
      modifies this`checked, this`colors, this`tree
      ensures ok <==> -|metadata| <= defaultIdx < |metadata|
      ensures |tree| == |old(tree)| + |metadata| && tree[..|old(tree)|] == old(tree)
      ensures forall k :: 0 <= k < |metadata| ==>
                var s := tree[|old(tree)| + k];
                fresh(s) && fresh(s.children) && IsBuilt(s, metadata[k], channelsMapping, k == defaultIdx)
      ensures checked == old(checked) + Accumulated(metadata, |metadata|)
      ensures colors == if metadata == [] then old(colors) else Palette(metadata[|metadata| - 1].chCount)
    {
      ghost var built: seq<StreamItem> := [];
      ghost var acc: seq<nat> := [];
      for sIx := 0 to |metadata|
        modifies this`colors, this`checked, this`tree
        invariant |built| == sIx && tree == old(tree) + built
        invariant forall k :: 0 <= k < sIx ==>
                    fresh(built[k]) && fresh(built[k].children)
                    && IsBuilt(built[k], metadata[k], channelsMapping, k == defaultIdx)
        invariant acc == Accumulated(metadata, sIx) && checked == old(checked) + acc
        invariant colors == if sIx == 0 then old(colors) else Palette(metadata[sIx - 1].chCount)
      {
        var item := BuildStream(metadata[sIx], sIx == defaultIdx);
        built := built + [item];
        acc := acc + Range(metadata[sIx].chCount);
      }
      assert forall k :: 0 <= k < |metadata| ==> tree[|old(tree)| + k] == built[k];
      ok := -|metadata| <= defaultIdx < |metadata|;
    }
  }
}
