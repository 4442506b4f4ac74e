# Stream-tree selection panel of the real-time signal visualizer

The visualizer shows a tree of live streams. Each stream is a top-level item with one
item per channel. Every item has a checkbox. The controller `SigVisualizer` keeps three
things in step with those checkboxes:

- the list of checked channel indices of the current stream;
- one display colour per checked channel, drawn from a palette of evenly spaced hues;
- the selection signal `(stream name, checked indices, colours)` sent to the plotting side.

This project models that controller:

- the handlers that recolour a stream, recompute its selection, record that a checkbox
  changed, react to a click (including the cascade from a stream item to its channels),
  and react to a stream being expanded;
- the handler that builds the tree from stream metadata, including the text of each
  channel item.

It proves what those handlers guarantee.

Files:

- `options.dfy`: the `Option` type.
- `labels.dfy`: channel label text (`Ch-01:  Fp1`) and decimal digits, as pure functions.
  The round-trip lemma reads the channel number and mapped name back from a label.
- `selection.dfy`: the selection logic on values. It defines the checked indices of a
  stream, the positional recolouring, the cascade, and `Recompute`, the specification of
  one recompute step. The lemmas about them include the rank lemma: the k-th checked
  channel gets the k-th colour.
- `visualizer.dfy`: the tree items and the controller as classes.
  - A stream item owns an `array<Channel>` that the handlers update in place.
  - The controller's selection state and the list of emitted events are fields that the
    handler methods reassign.
  - `RecolorChecks`, `UpdateChecks` and `ToggleChecks` are proved against the functions
    `Recolored`, `Recompute` and `Cascade` of `selection.dfy`.
  - `BuildChannels`, `BuildStream` and `UpdateMetadataWidget` are proved against
    `FreshChannels`, `IsBuilt` and `Accumulated` in `visualizer.dfy`.
  - `UpdateChanged` and `TreeItemExpanded` state their new field values directly.
- `scenarios.dfy`: worked examples. They cover unchecking one channel of three, and a
  two-stream rebuild followed by an expansion.

Colours are symbolic. `Hue(i, n)` is the i-th of `n` hue samples, and `Black` is the
colour of an unchecked channel. Equality of these values is finer than equality of RGB
triples: `Hue(1, 2)` and `Hue(2, 4)` differ as values but denote the same hue. No
lemma depends on two colours being different. The event stream is modelled as the sequence `emitted`,
to which each emission appends one `Event`. The channel-name mapping is a constructor
parameter, because it is loaded from a file at start-up.

A handler that fails returns `ok == false`:

- a recompute started from a stream item with no channels, where the source dereferences a
  missing parent;
- a rebuild whose default index does not index the metadata, checked after the tree is
  built (Python's negative indices count as valid).

The model follows the code in three behaviours of the rebuild that look unintended.
A second metadata event leaves the streams of the first one in the tree as stale
duplicates. `tree_item_expanded` still walks and collapses them
(`sigvisualizer.py:96-99`). The indices of the second event pile onto the old checked
list, and that mixed list is what the controller sends to the plotting side
(`sigvisualizer.py:100`) and compares against on the next recompute
(`sigvisualizer.py:67`). The current colours also stop pairing up with the checked
indices:

- A metadata rebuild appends stream items to the tree. It does not clear the tree (`sigvisualizer.py:104`).
- The checked list is never reset before a rebuild appends each stream's channel indices
  to it (`sigvisualizer.py:119`).
- After a rebuild the current colours are the palette of the last stream only
  (`sigvisualizer.py:109`). The rule "as many colours as checked indices" holds after
  every recompute that changes the checked list (`Selection.RecomputeSpec`). A recompute
  that finds the list unchanged changes nothing, so it keeps a mismatch left by a rebuild.
  After a rebuild the rule holds only under the condition `Visualizer.RebuildPairing`
  states. For example, a rebuild from the initial state with streams `A` (two channels) and
  `B` (none) leaves the indices `[0, 1]` with no colours. A later click on `A` that leaves both
  channels checked keeps it that way (`Scenarios.MismatchSurvivesRecompute`).

## Model

| member | source | states |
|---|---|---|
| Selection.Palette | sigvisualizer.py:44-47 | the palette for `n` channels has exactly `n` colours |
| Selection.CheckedIndices | sigvisualizer.py:65-66 | the collected indices are strictly ascending and below the child count, and index `i` is collected exactly when child `i` is checked |
| Selection.CountIn | sigvisualizer.py:50-56 | the value of the colour counter before child `i`; its ensures is only the bound that the slot is at most `i`, and the slot's meaning is stated by `Selection.RankOfKth` |
| Selection.RankOfKth | sigvisualizer.py:52-56 | in an ascending index list, the k-th index has exactly k indices below it, so the colour counter gives the k-th checked child the k-th colour |
| Selection.RanksInRange | sigvisualizer.py:53-54 | every checked child's colour slot lies inside a palette as long as the checked list |
| Selection.CountInAll | sigvisualizer.py:52-56 | a full scan over the children advances the colour counter once per checked index |
| Selection.Recolored | sigvisualizer.py:49-58 | a checked child takes the colour at its slot, any other child turns black, and no other field or length changes |
| Selection.Recompute | sigvisualizer.py:66-71 | the value form of one recompute; it has no contract of its own, and what it guarantees is stated by `Selection.RecomputeSpec` and `Selection.RecomputeIdempotent` |
| Selection.RecomputeSpec | sigvisualizer.py:60-71 | the stored list becomes the checked indices. If they did not change, nothing changes and nothing is emitted. Otherwise the new palette has one colour per index, exactly one event carries both, the k-th checked child is drawn in the k-th colour and every unchecked child in black |
| Selection.CheckedIndicesIgnoresColour | sigvisualizer.py:66 | the collected indices depend only on the check states, not on colours or text |
| Selection.RecomputeIdempotent | sigvisualizer.py:67-71 | a second recompute without an intervening check edit changes nothing and emits nothing |
| Selection.AllCheckedIndices | sigvisualizer.py:66 | when every child is checked, the collected indices are 0..n-1 |
| Selection.NoCheckedIndices | sigvisualizer.py:66 | when no child is checked, nothing is collected |
| Selection.Cascade | sigvisualizer.py:82-84 | every child takes the stream's check state; the count of children and each child's colour and text are kept |
| Selection.CascadeSelects | sigvisualizer.py:82-85 | after the cascade, a checked stream selects all channels in order and any other state selects none |
| Selection.ToggleOffThenOn | sigvisualizer.py:76-86 | unchecking and then rechecking a non-empty stream leaves every channel checked and emits the full selection with one colour per channel |
| Labels.DigitChar | sigvisualizer.py:112-113 | the character is a decimal digit whose value is `d` |
| Labels.Decimal | sigvisualizer.py:112-113 | the decimal text of `n` is all digits, a single digit exactly when `n < 10`, and has no leading zero for `n > 0` |
| Labels.ParseDecimalOfDecimal | sigvisualizer.py:112-113 | reading back the decimal text of `n` gives `n` |
| Labels.ParseSkipsLeadingZero | sigvisualizer.py:113 | a padding zero does not change the number read back |
| Labels.LeadingDigits | sigvisualizer.py:115 | the leading digit run is all digits, a prefix of the text, and the longest such prefix: the next character, if any, is not a digit |
| Labels.LeadingDigitsOfConcat | sigvisualizer.py:114-115 | a digit run followed by a non-digit suffix reads back as exactly that run |
| Labels.PaddedNumber | sigvisualizer.py:113 | the displayed channel number is all digits and at least two characters long |
| Labels.ChannelKey | sigvisualizer.py:112 | the mapping key of channel `m`; no contract of its own, its shape is stated by `Labels.KeyRoundTrip` |
| Labels.KeyRoundTrip | sigvisualizer.py:112 | the key is `ch-` followed by the unpadded decimal digits of `m+1`, with no leading zero, reading back as `m+1` |
| Labels.NameSuffix | sigvisualizer.py:114 | the optional name suffix; no contract of its own, `Labels.LabelRoundTrip` states what it contributes to a label |
| Labels.ChannelLabel | sigvisualizer.py:112-115 | the text of channel `m`'s item; no contract of its own, `Labels.LabelRoundTrip` states its number, padding and suffix |
| Labels.LabelRoundTrip | sigvisualizer.py:112-115 | the label of channel `m` reads back as number `m+1`, its suffix is `":  "` plus the mapped name exactly when the unpadded key `ch-<m+1>` is in the mapping, and the number has two digits with a leading zero below 10 and no leading zero from 10 on |
| Visualizer.Owner | sigvisualizer.py:61-64 | the stream a recompute scans: the item itself, or a channel's parent; no contract of its own, `Visualizer.SigVisualizer.UpdateChecks` states its use |
| Visualizer.Resolves | sigvisualizer.py:61-64 | whether that stream exists (a stream item with no children has no parent); no contract of its own, `Visualizer.SigVisualizer.UpdateChecks` succeeds exactly when it holds |
| Visualizer.Unset | sigvisualizer.py:80 | Python's falsy test on the stream name; no contract of its own |
| Visualizer.NamedBy | sigvisualizer.py:79-81 | the current stream name after a click; no contract of its own, `Visualizer.SigVisualizer.ToggleChecks` states that the name becomes this value |
| Visualizer.Accumulated | sigvisualizer.py:110-119 | the indices a rebuild appends to the checked list; no contract of its own, its length is stated by `Visualizer.AccumulatedLength` |
| Visualizer.StreamItem.constructor | sigvisualizer.py:104-106 | a new stream item has the given name, check state and channel items, and starts collapsed; the rebuild sets its expansion afterwards (`sigvisualizer.py:121-122`) |
| Visualizer.FreshChannels | sigvisualizer.py:110-118 | a stream built with `n` channels has exactly `n` channel items |
| Visualizer.FreshStreamSettled | sigvisualizer.py:106-119 | a freshly built stream has all channels checked, and once its indices are stored with its palette a recompute changes nothing; channel `m` has colour slot `m` |
| Visualizer.AccumulatedLength | sigvisualizer.py:103-119 | a rebuild appends one index per channel, summed over all streams |
| Visualizer.RebuildPairing | sigvisualizer.py:103-119 | from an empty list, a rebuild leaves as many colours as checked indices exactly when no stream before the last has channels |
| Visualizer.SigVisualizer.constructor | sigvisualizer.py:36-42 | the controller starts with the flag clear, no current stream, no checked indices, no colours, no emissions and an empty tree |
| Visualizer.SigVisualizer.RecolorChecks | sigvisualizer.py:49-58 | the children after the loop are the positional recolouring of the children before it, and the counter ends at one step per checked index seen |
| Visualizer.SigVisualizer.UpdateChecks | sigvisualizer.py:60-71 | succeeds exactly when the owning stream exists (the item itself if it has children, else its parent), and then moves the owning stream's children, checked list, colours and emissions to what `Recompute` gives. On failure nothing changes |
| Visualizer.SigVisualizer.UpdateChanged | sigvisualizer.py:73-74 | any checkbox change sets the change flag |
| Visualizer.SigVisualizer.ToggleChecks | sigvisualizer.py:76-86 | with the flag clear, a click changes nothing. With it set, a stream item with children cascades its state and names the current stream if none is set, the owning stream is recomputed, and the flag is cleared unless that recompute failed |
| Visualizer.SigVisualizer.TreeItemExpanded | sigvisualizer.py:94-100 | the expanded stream becomes current; every stream with another name is collapsed, streams with its name and all check states are untouched; the current selection is emitted once. With distinct names, at most one stream stays expanded |
| Visualizer.SigVisualizer.BuildChannels | sigvisualizer.py:109-119 | creates `n` new channel items, all checked, coloured by position from an `n`-colour palette and labelled, and appends 0..n-1 to the checked list |
| Visualizer.SigVisualizer.BuildStream | sigvisualizer.py:103-123 | appends one new checked stream item with the given name, expansion and fresh channels to the tree, and leaves its palette as the current colours |
| Visualizer.SigVisualizer.UpdateMetadataWidget | sigvisualizer.py:102-128 | appends one built stream per metadata entry, in order, and keeps the old tree as a prefix. Only the entry at the default index is expanded. Each stream's indices are appended to the checked list, and the colours become the last stream's palette. Succeeds exactly when the default index is a valid Python index |
| Scenarios.CheckedFirstTwo | sigvisualizer.py:66 | with channels checked, checked, unchecked, the collected indices are [0, 1] |
| Scenarios.UncheckThird | sigvisualizer.py:60-71 | unchecking the third of three selected channels stores [0, 1] with a two-colour palette, emits that once and blackens the third channel |
| Scenarios.MismatchSurvivesRecompute | sigvisualizer.py:66-67 | with both channels checked, indices `[0, 1]` and no colours, as left by a rebuild of streams with two and zero channels, a recompute keeps the list, keeps the empty colours and emits nothing |
| Scenarios.TwoStreams | sigvisualizer.py:94-128 | an EEG/ECG rebuild followed by expanding EEG leaves two streams with EEG current and the flag clear, and the one emission carries `[0, 1, 2, 3, 0]`, the indices of both streams, with the one-colour palette of the last stream |

## Left out

- Selection.Palette: the colour values are symbolic hue samples. The HSV-to-RGB floating-point conversion and the scaling to 0..255 (`sigvisualizer.py:45-46`) are not modelled; only the palette's length and order are.
- Window set-up, icons, the window title, the status bar widget and the button wiring (`sigvisualizer.py:15-38`) are toolkit plumbing and are not modelled.
- The toolkit calls the handlers again from inside other handlers, and the model does not capture these nested calls. Each handler runs to completion as written, so the state after a rebuild differs from the toolkit's in these ways:
  - Expanding the default stream during a rebuild (`sigvisualizer.py:122`) fires the expansion signal connected at `sigvisualizer.py:34`. So `tree_item_expanded` runs in the middle of the rebuild: it sets the current stream name, collapses the streams with other names that are already built, and emits an event with the partly built checked list. `Visualizer.SigVisualizer.UpdateMetadataWidget` leaves the current stream name and the emissions unchanged.
  - Setting an item's text, foreground or check state (`sigvisualizer.py:55`, `58`, `84`, `105-106`, `115`, `117-118`) fires the item-changed signal connected at `sigvisualizer.py:37`. So after a rebuild or a recolour the change flag is set; the model leaves it as it was. After a click, the source clears the flag at the end (`sigvisualizer.py:86`), as the model does.
- `load_channels` (`sigvisualizer.py:88-92`) reads a JSON file. The model takes its result as the constructor parameter `channelsMapping`, and a missing file is not modelled.
- `toggle_panel` (`sigvisualizer.py:130-142`) only shows or hides widgets and is not modelled.
- Visualizer.SigVisualizer.UpdateMetadataWidget: the status-bar text with the sample rate (`sigvisualizer.py:126-128`) is not modelled, and neither is the sample-rate field. Only the index lookup that can fail is modelled, as `ok`.
- The program entry point (`sigvisualizer.py:145-149`) and the animation flag (`sigvisualizer.py:125`) are not modelled.
- The plotting collaborator that receives the selection signal and requests stream updates is not part of this model. Its input is the sequence `emitted`.
- The emitted lists alias the controller's own `checked` and `colors` lists. Later in-place appends to `checked` during a rebuild would be visible through earlier events. The model records each event by value.
- Visualizer.SigVisualizer.UpdateChecks: an exception from a missing parent is modelled as `ok == false` with nothing changed. In `ToggleChecks` it leaves the change flag set, as the aborted source method does.
