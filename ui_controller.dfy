// ui/controller.go: the UI Controller caches the Widget and Mask components
// below its game object, hands out stencil mask levels at render time, and
// routes one frame of cursor input to the widgets as events.
// Widgets are identified by their component id; what a widget does with an
// event, its hit test (Raycast) and its Dragging state are parameters, as are
// the input flags and the window resolution. The framebuffer and every GL call
// are left out.

module UIController {
  import opened Common
  import opened UIMask

  type WidgetId = nat

  datatype EventKind =
    | Drag | DragEnd | MouseLeave | MouseEnter | Deselect | Select | DragStart | Click | MouseWheel

  /** An event sent to one widget. */
  datatype Event = Event(widget: WidgetId, kind: EventKind)

  /** The mouse-button-1 and wheel flags of the frame. */
  datatype Input = Input(mouseDown: bool, mouseUp: bool, wheel: bool)

  /** The controller's selected and highlighted widgets (None for nil). */
  datatype Focus = Focus(selected: Option<WidgetId>, highlighted: Option<WidgetId>)

  // ---------------------------------------------------------------------------
  // The cache filters.

  /** The ids of the Widget components, in order. */
  function Widgets(cs: seq<Component>): seq<WidgetId> {
    if |cs| == 0 then []
    else Widgets(cs[..|cs| - 1]) + (if cs[|cs| - 1].isWidget then [cs[|cs| - 1].id] else [])
  }

  /** The Mask components, in order. */
  function Masks(cs: seq<Component>): seq<Mask> {
    if |cs| == 0 then []
    else Masks(cs[..|cs| - 1]) + (if cs[|cs| - 1].mask.Some? then [cs[|cs| - 1].mask.value] else [])
  }

  /** Filtering a concatenation filters each part. */
  lemma {:induction false} FilterAppend(a: seq<Component>, b: seq<Component>)
    ensures Widgets(a + b) == Widgets(a) + Widgets(b)
    ensures Masks(a + b) == Masks(a) + Masks(b)
    decreases |b|
  {
    if |b| > 0 {
      var b' := b[..|b| - 1];
      var ab := a + b;
      assert ab[..|ab| - 1] == a + b';
      assert ab[|ab| - 1] == b[|b| - 1];
      FilterAppend(a, b');
      assert Widgets(ab) == Widgets(a + b') + Widgets([b[|b| - 1]]);
      assert Masks(ab) == Masks(a + b') + Masks([b[|b| - 1]]);
    } else {
      assert a + b == a;
    }
  }

  /** The widget cache holds the id of every Widget component and nothing
      else, and never more entries than there are components. */
  lemma {:induction false} WidgetsExact(cs: seq<Component>)
    ensures |Widgets(cs)| <= |cs|
    ensures forall w :: w in Widgets(cs) <==> exists i :: 0 <= i < |cs| && cs[i].isWidget && cs[i].id == w
    decreases |cs|
  {
    if |cs| > 0 {
      var init := cs[..|cs| - 1];
      WidgetsExact(init);
      forall w | w in Widgets(cs)
        ensures exists i :: 0 <= i < |cs| && cs[i].isWidget && cs[i].id == w
      {
        if w in Widgets(init) {
          var i :| 0 <= i < |init| && init[i].isWidget && init[i].id == w;
          assert cs[i] == init[i];
        }
      }
      forall w | exists i :: 0 <= i < |cs| && cs[i].isWidget && cs[i].id == w
        ensures w in Widgets(cs)
      {
        var i :| 0 <= i < |cs| && cs[i].isWidget && cs[i].id == w;
        if i < |cs| - 1 {
          assert init[i] == cs[i];
        }
      }
    }
  }

  /** The mask cache holds every Mask component and nothing else. */
  lemma {:induction false} MasksExact(cs: seq<Component>)
    ensures |Masks(cs)| <= |cs|
    ensures forall k :: 0 <= k < |Masks(cs)| ==> exists i :: 0 <= i < |cs| && cs[i].mask == Some(Masks(cs)[k])
    ensures forall i :: 0 <= i < |cs| && cs[i].mask.Some? ==> cs[i].mask.value in Masks(cs)
    decreases |cs|
  {
    if |cs| > 0 {
      var init := cs[..|cs| - 1];
      MasksExact(init);
      var ms := Masks(cs);
      assert Masks(init) == ms[..|Masks(init)|];
      forall k | 0 <= k < |ms|
        ensures exists i :: 0 <= i < |cs| && cs[i].mask == Some(ms[k])
      {
        if k < |Masks(init)| {
          assert ms[k] == Masks(init)[k];
          var i :| 0 <= i < |init| && init[i].mask == Some(Masks(init)[k]);
          assert cs[i] == init[i];
        } else {
          assert cs[|cs| - 1].mask == Some(ms[k]);
        }
      }
      forall i | 0 <= i < |cs| && cs[i].mask.Some?
        ensures cs[i].mask.value in ms
      {
        if i < |cs| - 1 {
          assert init[i] == cs[i];
        }
      }
    }
  }

  // ---------------------------------------------------------------------------
  // The mask levels.

  function Min(a: int, b: int): int { if a <= b then a else b }

  /** One call of nextMaskIndex on the counter: one up, but never past 255. */
  function NextIndex(m: UInt8): UInt8 {
    if m != 255 then m + 1 else 255
  }

  /** The counter after n calls of nextMaskIndex from 0. */
  function MaskIndexAfter(n: nat): UInt8 {
    if n == 0 then 0 else NextIndex(MaskIndexAfter(n - 1))
  }

  /** The counter counts calls until it saturates at 255, the largest uint8. */
  lemma {:induction false} MaskLevelsSaturate(n: nat)
    ensures MaskIndexAfter(n) == Min(n, 255)
  {
    if n > 0 {
      MaskLevelsSaturate(n - 1);
    }
  }

  /** The first widget, in cache order, whose hit test accepts the cursor. */
  function FirstHit(ws: seq<WidgetId>, hit: WidgetId -> bool): (r: Option<WidgetId>)
    ensures r.None? <==> forall i :: 0 <= i < |ws| ==> !hit(ws[i])
    ensures r.Some? ==> exists i :: && 0 <= i < |ws| && ws[i] == r.value && hit(r.value)
                                    && forall j :: 0 <= j < i ==> !hit(ws[j])
  {
    if |ws| == 0 then None
    else if hit(ws[0]) then Some(ws[0])
    else
      var r := FirstHit(ws[1..], hit);
      assert forall i :: 0 < i < |ws| ==> ws[i] == ws[1..][i - 1];
      r
  }

  // ---------------------------------------------------------------------------
  // Interaction routing, as one step over the focus.

  /** The event for an optional target: none when the target is nil. */
  function Send(target: Option<WidgetId>, kind: EventKind): seq<Event> {
    if target.Some? then [Event(target.value, kind)] else []
  }

  /** The press, release and wheel stage: the new selection and its events. */
  function PressStage(selected: Option<WidgetId>, target: Option<WidgetId>, input: Input): (Option<WidgetId>, seq<Event>) {
    if input.mouseDown then
      if target.Some? then
        if target != selected then (target, Send(selected, Deselect) + [Event(target.value, Select), Event(target.value, DragStart)])
        else (selected, [Event(target.value, DragStart)])
      else (None, Send(selected, Deselect))
    else if input.mouseUp then (selected, Send(target, Click))
    else if input.wheel then (selected, Send(target, MouseWheel))
    else (selected, [])
  }

  /** processInteractions as a function of the focus, the raycast target, the
      input flags and whether the selected widget is dragging. */
  function Step(f: Focus, target: Option<WidgetId>, input: Input, dragging: bool): (Focus, seq<Event>) {
    if f.selected.Some? && dragging && !input.mouseUp then
      (f, [Event(f.selected.value, Drag)])
    else
      var dragEnd := if f.selected.Some? && dragging then [Event(f.selected.value, DragEnd)] else [];
      var hover := if target != f.highlighted then Send(f.highlighted, MouseLeave) + Send(target, MouseEnter) else [];
      var press := PressStage(f.selected, target, input);
      (Focus(press.0, target), dragEnd + hover + press.1)
  }

  /** A drag in progress without mouse-up sends exactly one Drag to the
      selected widget and changes nothing. */
  lemma DragKeepsFocus(f: Focus, target: Option<WidgetId>, input: Input, dragging: bool)
    requires f.selected.Some? && dragging && !input.mouseUp
    ensures Step(f, target, input, dragging) == (f, [Event(f.selected.value, Drag)])
  {
  }

  /** Whenever processing does not stop at the drag stage, the target becomes
      the highlighted widget; on mouse-up during a drag, DragEnd comes first. */
  lemma HoverFollowsTarget(f: Focus, target: Option<WidgetId>, input: Input, dragging: bool)
    requires !(f.selected.Some? && dragging && !input.mouseUp)
    ensures Step(f, target, input, dragging).0.highlighted == target
    ensures f.selected.Some? && dragging ==> Step(f, target, input, dragging).1[0] == Event(f.selected.value, DragEnd)
  {
  }

  /** On a change of target, MouseLeave to the old widget comes before
      MouseEnter to the new one, and both come before any press event. */
  lemma LeaveBeforeEnter(f: Focus, target: Option<WidgetId>, input: Input, dragging: bool)
    requires !(f.selected.Some? && dragging && !input.mouseUp)
    requires target != f.highlighted && f.highlighted.Some? && target.Some?
    ensures var events := Step(f, target, input, dragging).1;
            var d := if f.selected.Some? && dragging then 1 else 0;
            && |events| >= d + 2
            && events[d] == Event(f.highlighted.value, MouseLeave)
            && events[d + 1] == Event(target.value, MouseEnter)
  {
  }

  /** Mouse-down selection: a new target is selected (after the old selection
      is deselected) and starts dragging; the selected target only starts
      dragging again; no target clears the selection. */
  lemma PressSelects(f: Focus, target: Option<WidgetId>, input: Input, dragging: bool)
    requires !(f.selected.Some? && dragging && !input.mouseUp)
    requires input.mouseDown
    ensures var (f', events) := Step(f, target, input, dragging);
            var pre := (if f.selected.Some? && dragging then 1 else 0)
                       + (if target != f.highlighted then |Send(f.highlighted, MouseLeave)| + |Send(target, MouseEnter)| else 0);
            && f'.selected == target
            && (target.Some? && target != f.selected ==>
                  events[pre..] == Send(f.selected, Deselect) + [Event(target.value, Select), Event(target.value, DragStart)])
            && (target.Some? && target == f.selected ==> events[pre..] == [Event(target.value, DragStart)])
            && (target.None? ==> events[pre..] == Send(f.selected, Deselect))
  {
  }

  /** At most one of press, release and wheel fires, in that priority, and
      Click and MouseWheel go only to a present target. */
  lemma OneAction(f: Focus, target: Option<WidgetId>, input: Input, dragging: bool, k: nat)
    requires k < |Step(f, target, input, dragging).1|
    ensures var e := Step(f, target, input, dragging).1[k];
            && (e.kind == Click ==> !input.mouseDown && input.mouseUp && target == Some(e.widget))
            && (e.kind == MouseWheel ==> !input.mouseDown && !input.mouseUp && input.wheel && target == Some(e.widget))
            && (e.kind in {Select, DragStart, Deselect} ==> input.mouseDown)
  {
  }

  class Controller {
    var name: string
    var wCache: seq<WidgetId>
    var mCache: seq<Mask>
    var selected: Option<WidgetId>
    var highlighted: Option<WidgetId>
    var pixelPerfect: bool
    var maskIndex: UInt8
    /** The framebuffer size set by Resize. */
    var size: IVec2

    /** NewController: empty caches, no focus, named "UIController"; the
        framebuffer starts at the window resolution. */
    constructor (resolution: IVec2)
      ensures name == "UIController" && wCache == [] && mCache == []
      ensures selected == None && highlighted == None && maskIndex == 0 && size == resolution
    {
      name := "UIController";
      wCache, mCache := [], [];
      selected, highlighted := None, None;
      pixelPerfect := false;
      maskIndex := 0;
      size := resolution;
    }

    function CurrentFocus(): Focus
      reads this
    {
      Focus(selected, highlighted)
    }

    /** UpdateCache discards the old caches and keeps exactly the Widget and
        the Mask components of the objects below, each in order. */
    method UpdateCache(components: seq<Component>)
      modifies this
      ensures wCache == Widgets(components) && mCache == Masks(components)
      ensures CurrentFocus() == old(CurrentFocus()) && maskIndex == old(maskIndex) && size == old(size)
    {
      wCache := [];
      mCache := [];
      var i := 0;
      while i < |components|
        invariant 0 <= i <= |components|
        invariant wCache == Widgets(components[..i]) && mCache == Masks(components[..i])
        invariant CurrentFocus() == old(CurrentFocus()) && maskIndex == old(maskIndex) && size == old(size)
      {
        assert components[..i + 1][..i] == components[..i];
        if components[i].isWidget {
          wCache := wCache + [components[i].id];
        }
        if components[i].mask.Some? {
          mCache := mCache + [components[i].mask.value];
        }
        i := i + 1;
      }
      assert components[..i] == components;
    }

    /** nextMaskIndex returns the counter and advances it, except at 255. */
    method NextMaskIndex() returns (m: UInt8)
      modifies this
      ensures m == old(maskIndex)
      ensures maskIndex == NextIndex(old(maskIndex))
      ensures wCache == old(wCache) && mCache == old(mCache) && CurrentFocus() == old(CurrentFocus())
    {
      m := maskIndex;
      if maskIndex != 255 {
        maskIndex := maskIndex + 1;
      }
    }

    /** The mask-level assignment of GUIRender: nothing at all happens when no
        widget is cached; otherwise the counter restarts at 0 and the i-th
        cached Mask gets level min(i, 255) (a Mask cached twice keeps the level
        of its last position). */
    method GUIRender()
      modifies this, mCache
      ensures |old(wCache)| == 0 ==> maskIndex == old(maskIndex)
      ensures |old(wCache)| == 0 ==> forall m :: m in old(mCache) ==> m.maskID == old(m.maskID)
      ensures |old(wCache)| > 0 ==> maskIndex == Min(|mCache|, 255)
      ensures |old(wCache)| > 0 ==> forall i :: 0 <= i < |mCache| && (forall j :: i < j < |mCache| ==> mCache[j] != mCache[i])
                                      ==> mCache[i].maskID == Min(i, 255)
      ensures wCache == old(wCache) && mCache == old(mCache) && CurrentFocus() == old(CurrentFocus())
    {
      if |wCache| == 0 {
        return;
      }
      maskIndex := 0;
      var i := 0;
      while i < |mCache|
        invariant 0 <= i <= |mCache|
        invariant wCache == old(wCache) && mCache == old(mCache) && CurrentFocus() == old(CurrentFocus())
        invariant maskIndex == MaskIndexAfter(i)
        invariant forall k :: 0 <= k < i && (forall j :: k < j < i ==> mCache[j] != mCache[k])
                    ==> mCache[k].maskID == Min(k, 255)
      {
        var level := NextMaskIndex();
        MaskLevelsSaturate(i);
        mCache[i].SetMaskID(level);
        i := i + 1;
      }
      MaskLevelsSaturate(i);
    }

    /** Resize sets the framebuffer to the window resolution. */
    method Resize(resolution: IVec2)
      modifies this
      ensures size == resolution
      ensures wCache == old(wCache) && mCache == old(mCache) && CurrentFocus() == old(CurrentFocus()) && maskIndex == old(maskIndex)
    {
      size := resolution;
    }

    /** Start resizes, then rebuilds the caches. */
    method Start(resolution: IVec2, components: seq<Component>)
      modifies this
      ensures size == resolution
      ensures wCache == Widgets(components) && mCache == Masks(components)
      ensures CurrentFocus() == old(CurrentFocus()) && maskIndex == old(maskIndex)
    {
      Resize(resolution);
      UpdateCache(components);
    }

    /** The hover stage of processInteractions: on a change of target, leave
        the old widget, then enter the new one, which becomes highlighted. */
    method Hover(target: Option<WidgetId>) returns (events: seq<Event>)
      modifies this
      ensures highlighted == target && selected == old(selected)
      ensures events == if target != old(highlighted) then Send(old(highlighted), MouseLeave) + Send(target, MouseEnter) else []
      ensures wCache == old(wCache) && mCache == old(mCache) && maskIndex == old(maskIndex) && size == old(size)
    {
      events := [];
      if target != highlighted {
        var prev := highlighted;
        if prev.Some? {
          events := events + [Event(prev.value, MouseLeave)];
        }
        highlighted := target;
        if highlighted.Some? {
          events := events + [Event(highlighted.value, MouseEnter)];
        }
      }
    }

    /** The press, release and wheel stage of processInteractions, run once
        the target is highlighted. */
    method Press(target: Option<WidgetId>, input: Input) returns (events: seq<Event>)
      requires highlighted == target
      modifies this
      ensures selected == PressStage(old(selected), target, input).0
      ensures events == PressStage(old(selected), target, input).1
      ensures highlighted == old(highlighted)
      ensures wCache == old(wCache) && mCache == old(mCache) && maskIndex == old(maskIndex) && size == old(size)
    {
      events := [];
      if input.mouseDown {
        if target.Some? {
          if target != selected {
            var prev := selected;
            if prev.Some? {
              events := events + [Event(prev.value, Deselect)];
            }
            selected := target;
            events := events + [Event(highlighted.value, Select)];
            events := events + [Event(highlighted.value, DragStart)];
          } else {
            events := events + [Event(highlighted.value, DragStart)];
          }
        } else {
          if selected.Some? {
            events := events + [Event(selected.value, Deselect)];
          }
          selected := None;
        }
      } else if input.mouseUp {
        if target.Some? {
          events := events + [Event(highlighted.value, Click)];
        }
      } else if input.wheel {
        if target.Some? {
          events := events + [Event(highlighted.value, MouseWheel)];
        }
      }
    }

    /** processInteractions performs one Step over the focus: the drag stage,
        which may end the call, then the hover stage, then the press stage. */
    method ProcessInteractions(target: Option<WidgetId>, input: Input, dragging: bool) returns (events: seq<Event>)
      modifies this
      ensures CurrentFocus() == Step(old(CurrentFocus()), target, input, dragging).0
      ensures events == Step(old(CurrentFocus()), target, input, dragging).1
      ensures wCache == old(wCache) && mCache == old(mCache) && maskIndex == old(maskIndex) && size == old(size)
    {
      events := [];
      if selected.Some? && dragging {
        if input.mouseUp {
          events := events + [Event(selected.value, DragEnd)];
        } else {
          events := events + [Event(selected.value, Drag)];
          return;
        }
      }
      var hover := Hover(target);
      var press := Press(target, input);
      events := events + hover + press;
    }

    /** raycast: the target is the first cached widget whose hit test accepts
        the cursor, or none; then the interactions are processed for it.
        hit(w) is widget w's Raycast at the cursor position. */
    method Raycast(hit: WidgetId -> bool, input: Input, dragging: bool) returns (target: Option<WidgetId>, events: seq<Event>)
      modifies this
      ensures target == FirstHit(wCache, hit)
      ensures CurrentFocus() == Step(old(CurrentFocus()), target, input, dragging).0
      ensures events == Step(old(CurrentFocus()), target, input, dragging).1
      ensures wCache == old(wCache) && mCache == old(mCache) && maskIndex == old(maskIndex) && size == old(size)
    {
      target := None;
      var i := 0;
      while i < |wCache|
        invariant 0 <= i <= |wCache|
        invariant FirstHit(wCache, hit) == FirstHit(wCache[i..], hit)
      {
        if hit(wCache[i]) {
          target := Some(wCache[i]);
          break;
        }
        assert wCache[i..][1..] == wCache[i + 1..];
        i := i + 1;
      }
      events := ProcessInteractions(target, input, dragging);
    }

    /** Update: a resize when the window was resized, then a raycast when there
        are input events. */
    method Update(resized: bool, resolution: IVec2, hasEvents: bool, hit: WidgetId -> bool, input: Input, dragging: bool)
      returns (events: seq<Event>)
      modifies this
      ensures size == if resized then resolution else old(size)
      ensures !hasEvents ==> events == [] && CurrentFocus() == old(CurrentFocus())
      ensures hasEvents ==> CurrentFocus() == Step(old(CurrentFocus()), FirstHit(wCache, hit), input, dragging).0
      ensures hasEvents ==> events == Step(old(CurrentFocus()), FirstHit(wCache, hit), input, dragging).1
      ensures wCache == old(wCache) && mCache == old(mCache) && maskIndex == old(maskIndex)
    {
      if resized {
        Resize(resolution);
      }
      events := [];
      if hasEvents {
        var target;
        target, events := Raycast(hit, input, dragging);
      }
    }
  }
}
