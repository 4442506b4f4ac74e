/** Example scenarios of the panel, stated as lemmas and as a client of the controller. */
module Scenarios {
  import opened Options
  import opened Selection
  import opened Visualizer

  lemma CheckedFirstTwo(ch: seq<Channel>)
    requires |ch| == 3
    requires ch[0].state == Checked && ch[1].state == Checked && ch[2].state == Unchecked
    ensures CheckedIndices(ch) == [0, 1]
  {
    var c1, c2 := ch[..1], ch[..2];
    assert c1[..0] == [] && c2[..1] == c1 && ch[..2] == c2;
    assert CheckedIndices(c1) == CheckedIndices([]) + [0];
    assert CheckedIndices(c2) == CheckedIndices(c1) + [1];
    assert CheckedIndices(ch) == CheckedIndices(c2);
  }

  /**
   * Unchecking channel 2 of a fully selected three-channel stream publishes the
   * indices [0, 1] with a fresh two-colour palette.
   */
  lemma UncheckThird(ch: seq<Channel>, colors: seq<Color>, emitted: seq<Event>, name: Option<string>)
    requires |ch| == 3
    requires ch[0].state == Checked && ch[1].state == Checked && ch[2].state == Unchecked
    ensures var q := Recompute(Panel(ch, [0, 1, 2], colors, emitted), name);
            && q.checked == [0, 1]
            && q.colors == Palette(2)
            && q.emitted == emitted + [Event(name, [0, 1], Palette(2))]
            && q.children[2].fg == Black
  {
    CheckedFirstTwo(ch);
    RecomputeSpec(Panel(ch, [0, 1, 2], colors, emitted), name);
  }

  /**
   * A recompute that finds the checked list unchanged keeps the colours as they are,
   * even when a rebuild left fewer colours than checked indices.
   */
  lemma MismatchSurvivesRecompute(ch: seq<Channel>, emitted: seq<Event>, name: Option<string>)
    requires |ch| == 2 && ch[0].state == Checked && ch[1].state == Checked
    ensures var q := Recompute(Panel(ch, [0, 1], [], emitted), name);
            q.checked == [0, 1] && q.colors == [] && q.emitted == emitted
  {
    AllCheckedIndices(ch);
    assert Range(2) == [0, 1];
  }

  /**
   * Two streams arrive and the default one is expanded. The emission carries the
   * indices of both streams piled up, with the palette of the last stream only.
   */
  method TwoStreams() returns (v: SigVisualizer)
    ensures |v.tree| == 2 && v.tree[0].name == "EEG" && v.tree[0].children.Length == 4
    ensures v.streamName == Some("EEG") && !v.checkedChanged
    ensures v.emitted == [Event(Some("EEG"), [0, 1, 2, 3, 0], Palette(1))]
  {
    v := new SigVisualizer(map["ch-1" := "Fp1"]);
    var metadata := [StreamMeta("EEG", 4), StreamMeta("ECG", 1)];
    assert Accumulated(metadata, 2) == Range(4) + Range(1);
    var ok := v.UpdateMetadataWidget(metadata, 0);
    assert ok;
    var eeg := v.tree[0];
    assert eeg.expanded && !v.tree[1].expanded;
    assert Range(4) == [0, 1, 2, 3] && Range(1) == [0];
    assert v.checked == [0, 1, 2, 3, 0];
    assert v.colors == Palette(1);
    v.TreeItemExpanded(eeg);
    assert v.emitted == [Event(Some("EEG"), [0, 1, 2, 3, 0], Palette(1))];
  }
}
