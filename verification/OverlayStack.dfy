/** The overlay stack of the TUI class, packages/pi-tui/src/tui.ts: overlays are
    shown, hidden, focused and removed by their handles, and composited into each
    frame.  Components are numbers; asking for a render has no part here. */
module OverlayStack {
  import opened Common
  import opened Layout
  import opened Compositor

  class Entry {
    const component: nat
    const options: Options
    const nonCapturing: bool
    const visibleAt: Option<(int, int) -> bool>
    const preFocus: Option<nat>
    var hidden: bool
    var focusOrder: nat

    constructor (component: nat, options: Options, nonCapturing: bool, visibleAt: Option<(int, int) -> bool>,
                 preFocus: Option<nat>, focusOrder: nat)
      ensures this.component == component && this.options == options && this.nonCapturing == nonCapturing
      ensures this.visibleAt == visibleAt && this.preFocus == preFocus && !hidden && this.focusOrder == focusOrder
    {
      this.component, this.options, this.nonCapturing := component, options, nonCapturing;
      this.visibleAt, this.preFocus := visibleAt, preFocus;
      hidden, this.focusOrder := false, focusOrder;
    }

    predicate VisibleAt(columns: nat, rows: nat)
      reads this`hidden
    {
      !hidden && (visibleAt.None? || visibleAt.value(columns, rows))
    }
  }

  /** The place of an entry in a list, or -1. */
  function IndexOf(entries: seq<Entry>, e: Entry): (r: int)
    ensures r == -1 <==> e !in entries
    ensures r != -1 ==> 0 <= r < |entries| && entries[r] == e
  {
    if entries == [] then -1
    else if entries[0] == e then 0
    else
      var r := IndexOf(entries[1..], e);
      if r == -1 then -1 else r + 1
  }

  function Without(entries: seq<Entry>, e: Entry): seq<Entry> {
    var i := IndexOf(entries, e);
    if i == -1 then entries else entries[..i] + entries[i + 1..]
  }

  /** Exactly that entry goes; every other stays, in order. */
  lemma OthersStay(entries: seq<Entry>, e: Entry)
    ensures e !in entries ==> Without(entries, e) == entries
    ensures e in entries ==>
              exists i :: 0 <= i < |entries| && entries[i] == e && e !in entries[..i]
                          && Without(entries, e) == entries[..i] + entries[i + 1..]
  {
    if e in entries {
      FirstIndex(entries, e);
    }
  }

  lemma {:induction false} FirstIndex(entries: seq<Entry>, e: Entry)
    requires e in entries
    ensures IndexOf(entries, e) >= 0 && e !in entries[..IndexOf(entries, e)]
    decreases |entries|
  {
    if entries[0] != e {
      FirstIndex(entries[1..], e);
      var i := IndexOf(entries[1..], e);
      assert entries[..i + 1] == [entries[0]] + entries[1..][..i];
    }
  }

  /** The last of the entries that is visible and takes the focus. */
  function Topmost(entries: seq<Entry>, columns: nat, rows: nat): (r: Option<Entry>)
    reads entries
    decreases |entries|
  {
    if entries == [] then None
    else
      var last := entries[|entries| - 1];
      if !last.nonCapturing && last.VisibleAt(columns, rows) then Some(last)
      else Topmost(entries[..|entries| - 1], columns, rows)
  }

  lemma {:induction false} TopmostIsLast(entries: seq<Entry>, columns: nat, rows: nat) returns (i: int)
    ensures var r := Topmost(entries, columns, rows);
            && -1 <= i < |entries| && (r.None? <==> i == -1)
            && (r.Some? ==> entries[i] == r.value && !r.value.nonCapturing && r.value.VisibleAt(columns, rows))
            && forall j :: i < j < |entries| ==> entries[j].nonCapturing || !entries[j].VisibleAt(columns, rows)
    decreases |entries|
  {
    i := |entries| - 1;
    if entries != [] && !(!entries[i].nonCapturing && entries[i].VisibleAt(columns, rows)) {
      i := TopmostIsLast(entries[..i], columns, rows);
    }
  }

  /** No entry twice, and no focus order twice or beyond the counter. */
  ghost predicate Ranked(entries: seq<Entry>, counter: nat)
    reads (set i | 0 <= i < |entries| :: entries[i])`focusOrder
  {
    && (forall i, j :: 0 <= i < j < |entries| ==>
          entries[i] != entries[j] && entries[i].focusOrder != entries[j].focusOrder)
    && (forall i :: 0 <= i < |entries| ==> entries[i].focusOrder <= counter)
  }

  lemma RankedWithout(entries: seq<Entry>, counter: nat, k: nat)
    requires Ranked(entries, counter) && k < |entries|
    ensures Ranked(entries[..k] + entries[k + 1..], counter) && entries[k] !in entries[..k] + entries[k + 1..]
  {
    var rest := entries[..k] + entries[k + 1..];
    assert forall i :: 0 <= i < |rest| ==> rest[i] == entries[if i < k then i else i + 1];
  }

  class Overlays {
    const render: (nat, int) -> seq<Line>
    const focusable: nat -> bool
    var columns: nat
    var rows: nat
    var maxLinesRendered: nat
    var stack: seq<Entry>
    var counter: nat
    var focused: Option<nat>
    /** The components whose `focused` flag is set. */
    var flagged: set<nat>

    /** One flag at most is set: that of the focused component. */
    ghost predicate Valid()
      reads this, stack
    {
      && Ranked(stack, counter)
      && flagged == (if focused.Some? && focusable(focused.value) then {focused.value} else {})
    }

    constructor (render: (nat, int) -> seq<Line>, focusable: nat -> bool, columns: nat, rows: nat)
      ensures Valid() && stack == [] && focused == None && counter == 0
      ensures this.columns == columns && this.rows == rows && maxLinesRendered == 0
    {
      this.render, this.focusable, this.columns, this.rows := render, focusable, columns, rows;
      maxLinesRendered, stack, counter, focused, flagged := 0, [], 0, None, {};
    }

    method SetFocus(component: Option<nat>)
      modifies this`focused, this`flagged
      ensures focused == component
      ensures old(flagged) == (if old(focused).Some? && focusable(old(focused).value) then {old(focused).value} else {})
              ==> flagged == if component.Some? && focusable(component.value) then {component.value} else {}
    {
      if focused.Some? && focusable(focused.value) {
        flagged := flagged - {focused.value};
      }
      focused := component;
      if component.Some? && focusable(component.value) {
        flagged := flagged + {component.value};
      }
    }

    method GetTopmostVisible() returns (r: Option<Entry>)
      ensures r == Topmost(stack, columns, rows)
    {
      assert stack[..|stack|] == stack;
      for i := |stack| downto 0
        invariant Topmost(stack[..i], columns, rows) == Topmost(stack, columns, rows)
      {
        assert stack[..i + 1][..i] == stack[..i];
        if !stack[i].nonCapturing && stack[i].VisibleAt(columns, rows) {
          return Some(stack[i]);
        }
      }
      return None;
    }

    /** Where focus goes when `e` gives it up. */
    function Heir(e: Entry): Option<nat>
      reads this, stack
    {
      var top := Topmost(stack, columns, rows);
      if top.Some? then Some(top.value.component) else e.preFocus
    }

    /** The new overlay is in front of all others. */
    method ShowOverlay(component: nat, options: Options, nonCapturing: bool, visibleAt: Option<(int, int) -> bool>)
      returns (entry: Entry)
      requires Valid()
      modifies this`stack, this`counter, this`focused, this`flagged
      ensures Valid() && fresh(entry) && stack == old(stack) + [entry]
      ensures entry.component == component && entry.options == options && entry.nonCapturing == nonCapturing
      ensures entry.visibleAt == visibleAt && entry.preFocus == old(focused) && !entry.hidden
      ensures entry.focusOrder == counter == old(counter) + 1
      ensures forall e :: e in old(stack) ==> e.focusOrder < entry.focusOrder
      ensures focused == if !nonCapturing && entry.VisibleAt(columns, rows) then Some(component) else old(focused)
    {
      hide Topmost;
      counter := counter + 1;
      entry := new Entry(component, options, nonCapturing, visibleAt, focused, counter);
      stack := stack + [entry];
      if !nonCapturing && entry.VisibleAt(columns, rows) {
        SetFocus(Some(component));
      }
    }

    /** A handle outlives its overlay; removing it again does nothing. */
    method Hide(entry: Entry)
      requires Valid()
      modifies this`stack, this`focused, this`flagged
      ensures Valid() && stack == Without(old(stack), entry) && entry !in stack
      ensures focused == if entry in old(stack) && old(focused) == Some(entry.component) then Heir(entry)
              else old(focused)
    {
      hide Topmost, Ranked, IndexOf;
      var index := IndexOf(stack, entry);
      if index != -1 {
        RankedWithout(stack, counter, index);
        stack := stack[..index] + stack[index + 1..];
        if focused == Some(entry.component) {
          var top := GetTopmostVisible();
          SetFocus(if top.Some? then Some(top.value.component) else entry.preFocus);
        }
      }
    }

    /** Showing an overlay again brings it to the front if it takes the focus. */
    method SetHidden(entry: Entry, hidden: bool)
      requires Valid()
      modifies this`counter, this`focused, this`flagged, entry
      ensures Valid() && stack == old(stack) && entry.hidden == hidden
      ensures var raised := old(entry.hidden) && !hidden && !entry.nonCapturing && entry.VisibleAt(columns, rows);
              && counter == old(counter) + (if raised then 1 else 0)
              && entry.focusOrder == (if raised then counter else old(entry.focusOrder))
              && focused == if raised then Some(entry.component)
                            else if !old(entry.hidden) && hidden && old(focused) == Some(entry.component)
                            then Heir(entry)
                            else old(focused)
    {
      hide Topmost, Ranked;
      if entry.hidden == hidden {
        return;
      }
      entry.hidden := hidden;
      if hidden {
        if focused == Some(entry.component) {
          var top := GetTopmostVisible();
          SetFocus(if top.Some? then Some(top.value.component) else entry.preFocus);
        }
      } else if !entry.nonCapturing && entry.VisibleAt(columns, rows) {
        Raise(entry);
        SetFocus(Some(entry.component));
      }
    }

    method Raise(entry: Entry)
      requires Ranked(stack, counter)
      modifies this`counter, entry`focusOrder
      ensures Ranked(stack, counter) && counter == old(counter) + 1 && entry.focusOrder == counter
      ensures forall e :: e in stack && e != entry ==> e.focusOrder < entry.focusOrder
    {
      counter := counter + 1;
      entry.focusOrder := counter;
      assert forall i :: 0 <= i < |stack| && stack[i] != entry ==> stack[i].focusOrder == old(stack[i].focusOrder);
    }

    /** The overlay, unless removed or not visible, comes to the front. */
    method Focus(entry: Entry)
      requires Valid()
      modifies this`counter, this`focused, this`flagged, entry`focusOrder
      ensures Valid() && stack == old(stack)
      ensures var acts := entry in stack && entry.VisibleAt(columns, rows);
              && counter == old(counter) + (if acts then 1 else 0)
              && entry.focusOrder == (if acts then counter else old(entry.focusOrder))
              && focused == (if acts then Some(entry.component) else old(focused))
              && (acts ==> forall e :: e in stack && e != entry ==> e.focusOrder < entry.focusOrder)
    {
      hide Topmost, Ranked;
      if entry !in stack || !entry.VisibleAt(columns, rows) {
        return;
      }
      if focused != Some(entry.component) {
        SetFocus(Some(entry.component));
      }
      Raise(entry);
    }

    method Unfocus(entry: Entry)
      requires Valid()
      modifies this`focused, this`flagged
      ensures Valid()
      ensures var top := Topmost(stack, columns, rows);
              focused == if old(focused) != Some(entry.component) then old(focused)
                         else if top.Some? && top.value != entry then Some(top.value.component)
                         else entry.preFocus
    {
      if focused != Some(entry.component) {
        return;
      }
      var top := GetTopmostVisible();
      SetFocus(if top.Some? && top.value != entry then Some(top.value.component) else entry.preFocus);
    }

    method HideOverlay()
      requires Valid()
      modifies this`stack, this`focused, this`flagged
      ensures Valid()
      ensures if old(stack) == [] then stack == [] && focused == old(focused)
              else var entry := old(stack)[|old(stack)| - 1];
                   && stack == old(stack)[..|old(stack)| - 1]
                   && focused == if old(focused) == Some(entry.component) then Heir(entry) else old(focused)
    {
      hide Topmost, Ranked;
      if |stack| == 0 {
        return;
      }
      RankedWithout(stack, counter, |stack| - 1);
      assert stack[..|stack| - 1] + stack[|stack|..] == stack[..|stack| - 1];
      var overlay := stack[|stack| - 1];
      stack := stack[..|stack| - 1];
      if focused == Some(overlay.component) {
        var top := GetTopmostVisible();
        SetFocus(if top.Some? then Some(top.value.component) else overlay.preFocus);
      }
    }

    method HasOverlay() returns (r: bool)
      ensures r <==> exists e :: e in stack && e.VisibleAt(columns, rows)
    {
      r := false;
      for i := 0 to |stack|
        invariant !r && forall j :: 0 <= j < i ==> !stack[j].VisibleAt(columns, rows)
      {
        if stack[i].VisibleAt(columns, rows) {
          return true;
        }
      }
    }

    // ---- compositing ---------------------------------------------------------------------

    function ViewOf(e: Entry): View
      reads this`columns, this`rows, e
    {
      View(e.options, w => render(e.component, w), e.VisibleAt(columns, rows), e.focusOrder)
    }

    function Views(entries: seq<Entry>): (r: seq<View>)
      reads this`columns, this`rows, entries
      ensures |r| == |entries| && forall i :: 0 <= i < |r| ==> r[i] == ViewOf(entries[i])
      decreases |entries|
    {
      if entries == [] then [] else Views(entries[..|entries| - 1]) + [ViewOf(entries[|entries| - 1])]
    }

    /** The views of a stack have the distinct focus orders that make the front
        one unique. */
    lemma ViewsAreDistinct()
      requires Valid()
      ensures Distinct(Views(stack))
    {
    }

    method CompositeOverlays(lines: seq<Line>) returns (result: seq<Line>)
      ensures result == Composite(lines, Views(stack), maxLinesRendered, columns, rows)
    {
      hide *;
      result := CompositeViews(lines, Views(stack), maxLinesRendered, columns, rows);
    }
  }

  /** Whether the `i`-th overlay of a stack is visible and takes the focus. */
  predicate TakesFocus(o: Overlays, i: int)
    reads o, o.stack
  {
    && 0 <= i < |o.stack| && !o.stack[i].nonCapturing && !o.stack[i].hidden
    && (o.stack[i].visibleAt.None? || o.stack[i].visibleAt.value(o.columns, o.rows))
  }

  /** An overlay gives up the focus to the last of those that are visible and take
      it, and only without one to what had it before the overlay was shown. */
  lemma HeirIs(o: Overlays, e: Entry)
    ensures forall i :: TakesFocus(o, i) && (forall j :: i < j ==> !TakesFocus(o, j)) ==>
              o.Heir(e) == Some(o.stack[i].component)
    ensures (forall i :: !TakesFocus(o, i)) ==> o.Heir(e) == e.preFocus
  {
    var k := TopmostIsLast(o.stack, o.columns, o.rows);
    hide Topmost;
    if k >= 0 {
      assert TakesFocus(o, k) && forall j :: k < j ==> !TakesFocus(o, j);
    }
  }

  /** Showing an overlay and hiding it leaves the stack as it was.  The focus comes
      back to where it was exactly when the overlay did not get it, or no visible
      overlay that takes the focus is left, or the last of these had it. */
  method ShowThenHide(o: Overlays, component: nat, options: Options, nonCapturing: bool,
                      visibleAt: Option<(int, int) -> bool>)
    requires o.Valid()
    modifies o
    ensures o.Valid() && o.stack == old(o.stack)
    ensures var gets := !nonCapturing && (visibleAt.None? || visibleAt.value(o.columns, o.rows));
            var top := Topmost(o.stack, o.columns, o.rows);
            o.focused == old(o.focused) <==>
              || (!gets && old(o.focused) != Some(component))
              || top.None? || Some(top.value.component) == old(o.focused)
  {
    hide Topmost, Ranked, IndexOf, Without;
    var entry := o.ShowOverlay(component, options, nonCapturing, visibleAt);
    LastWithout(old(o.stack), entry);
    o.Hide(entry);
  }

  lemma LastWithout(entries: seq<Entry>, e: Entry)
    requires e !in entries
    ensures Without(entries + [e], e) == entries
  {
    FirstIndex(entries + [e], e);
    assert forall k :: 0 <= k < |entries| ==> (entries + [e])[k] == entries[k];
    assert (entries + [e])[..|entries|] == entries && (entries + [e])[|entries| + 1..] == [];
    assert entries + [] == entries;
  }

  method CompositeViews(lines: seq<Line>, views: seq<View>, maxLinesRendered: nat, columns: nat, rows: nat)
    returns (result: seq<Line>)
    ensures result == Composite(lines, views, maxLinesRendered, columns, rows)
  {
    CompositeUnfolds(lines, views, maxLinesRendered, columns, rows);
    hide Ordered, LayersOf, Composite, CompositeLayers, PaintAll, Needed, Extend;
    if |views| == 0 {
      return lines;
    }
    var rendered, needed := PlaceLayers(Ordered(views), |lines|, columns, rows);
    var workingHeight := Max(maxLinesRendered, needed);
    result := PadLines(lines, workingHeight);
    LayersUnfold(lines, rendered, maxLinesRendered, columns, rows, needed);
    var viewportStart := Max(0, workingHeight - rows);
    result := PaintLayers(result, rendered, viewportStart, columns);
  }

  method PadLines(lines: seq<Line>, workingHeight: nat) returns (result: seq<Line>)
    ensures result == Extend(lines, workingHeight)
  {
    hide Extend;
    result := lines;
    ExtendStep(lines, [], |lines|);
    ExtendNone(lines, workingHeight);
    while |result| < workingHeight
      invariant |lines| <= |result| <= Max(workingHeight, |lines|) && result == Extend(lines, |result|)
    {
      ExtendStep(lines, result, |result| + 1);
      result := result + [""];
    }
  }

  method PaintLayers(lines: seq<Line>, rendered: seq<Layer>, viewportStart: nat, columns: nat)
    returns (result: seq<Line>)
    ensures result == PaintAll(lines, rendered, viewportStart, columns)
  {
    hide Paint, PaintAll;
    result := lines;
    PaintNone(lines, viewportStart, columns);
    assert rendered[..0] == [];
    for k := 0 to |rendered|
      invariant result == PaintAll(lines, rendered[..k], viewportStart, columns)
    {
      PaintNext(lines, rendered, k, viewportStart, columns);
      result := PaintLayer(result, rendered[k], viewportStart, columns);
    }
    assert rendered[..|rendered|] == rendered;
  }

  method PlaceLayers(views: seq<View>, least: nat, columns: nat, rows: nat) returns (rendered: seq<Layer>, needed: nat)
    ensures rendered == LayersOf(views, columns, rows) && needed == Needed(rendered, least)
  {
    hide LayerOf, LayersOf, Needed;
    rendered, needed := [], least;
    NoLayers(columns, rows, least);
    for i := 0 to |views|
      invariant rendered == LayersOf(views[..i], columns, rows) && needed == Needed(rendered, least)
    {
      var layer := Place(views[i], columns, rows);
      LayersStep(views, i, columns, rows, least);
      rendered := rendered + [layer];
      needed := Max(needed, layer.row + |layer.lines|);
    }
    assert views[..|views|] == views;
  }

  method Place(v: View, columns: nat, rows: nat) returns (layer: Layer)
    ensures layer == LayerOf(v, columns, rows)
  {
    var first := Resolve(v.options, 0, columns, rows);
    var overlayLines := v.render(first.width);
    if first.maxHeight.Some? && |overlayLines| > first.maxHeight.value {
      overlayLines := overlayLines[..first.maxHeight.value];
    }
    var placed := Resolve(v.options, |overlayLines|, columns, rows);
    layer := Layer(overlayLines, placed.row, placed.col, first.width);
  }

  method PaintLayer(lines: seq<Line>, layer: Layer, viewportStart: nat, columns: nat) returns (result: seq<Line>)
    ensures result == Paint(lines, layer, viewportStart, columns)
  {
    hide CompositeLine, Cut;
    result := lines;
    for i := 0 to |layer.lines|
      invariant |result| == |lines|
      invariant forall y :: 0 <= y < |lines| ==>
                  result[y] == if y < viewportStart + layer.row + i
                               then PaintRow(lines[y], layer, viewportStart, y, columns)
                               else lines[y]
    {
      var idx := viewportStart + layer.row + i;
      if idx < |result| {
        result := result[idx := CompositeLine(result[idx], Cut(layer.lines[i], layer.width), layer.col, layer.width,
                                              columns)];
      }
    }
  }

  lemma CompositeUnfolds(lines: seq<Line>, views: seq<View>, maxRendered: nat, columns: nat, rows: nat)
    ensures views == [] ==> Composite(lines, views, maxRendered, columns, rows) == lines
    ensures views != [] ==>
              var layers := LayersOf(Ordered(views), columns, rows);
              Composite(lines, views, maxRendered, columns, rows) ==
              CompositeLayers(lines, layers, maxRendered, columns, rows)
  {
    hide Ordered, LayersOf, CompositeLayers;
  }

  lemma LayersUnfold(lines: seq<Line>, layers: seq<Layer>, maxRendered: nat, columns: nat, rows: nat, needed: nat)
    requires needed == Needed(layers, |lines|)
    ensures var height := Max(maxRendered, needed);
            CompositeLayers(lines, layers, maxRendered, columns, rows) ==
            PaintAll(Extend(lines, height), layers, Max(0, height - rows), columns)
  {
    hide PaintAll, Needed, Extend;
  }

  lemma ExtendStep(lines: seq<Line>, extended: seq<Line>, height: nat)
    ensures Extend(lines, |lines|) == lines
    ensures height > |lines| && extended == Extend(lines, height - 1) ==> extended + [""] == Extend(lines, height)
  {
  }

  lemma ExtendNone(lines: seq<Line>, height: nat)
    ensures height <= |lines| ==> Extend(lines, height) == lines
  {
  }

  lemma NoLayers(columns: int, rows: int, least: nat)
    ensures LayersOf([], columns, rows) == [] && Needed([], least) == least
  {
  }

  lemma LayersStep(views: seq<View>, i: nat, columns: int, rows: int, least: nat)
    requires i < |views|
    ensures var before, layer := LayersOf(views[..i], columns, rows), LayerOf(views[i], columns, rows);
            && LayersOf(views[..i + 1], columns, rows) == before + [layer]
            && Needed(before + [layer], least) == Max(Needed(before, least), layer.row + |layer.lines|)
  {
    hide LayerOf;
    var before, layer := LayersOf(views[..i], columns, rows), LayerOf(views[i], columns, rows);
    assert (before + [layer])[..|before|] == before;
  }

  lemma PaintNone(lines: seq<Line>, top: nat, columns: nat)
    ensures PaintAll(lines, [], top, columns) == lines
  {
  }

  lemma PaintNext(lines: seq<Line>, layers: seq<Layer>, k: nat, top: nat, columns: nat)
    requires k < |layers|
    ensures PaintAll(lines, layers[..k + 1], top, columns) ==
            Paint(PaintAll(lines, layers[..k], top, columns), layers[k], top, columns)
  {
    assert layers[..k + 1][..k] == layers[..k];
  }
}
