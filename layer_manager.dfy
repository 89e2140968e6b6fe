/** The layer manager: registered overlay layers with their visibility and
    z-index, the stack of shown layers (the last one on top), top-down
    dispatch of key and touch events to the shown layers, and the full-page
    section scroller the events fall through to. */
module Layers {
  import opened Seqs

  const BaseZIndex: int := 1000

  /** A registered layer. `hasKeyHandler` / `hasTouchHandler` say whether its
      configuration has an `onKeydown` / `onTouchmove` callback. */
  datatype LayerInfo = LayerInfo(hasKeyHandler: bool, hasTouchHandler: bool, isVisible: bool, zIndex: int)

  /** The section scroller: the number of sections, the current one, the
      scrolling lock and the number of armed lock-release timers. */
  datatype PageScroll = PageScroll(sectionCount: nat, currentSection: nat, isScrolling: bool, pendingTimers: nat)

  /** The current section is one of the sections. */
  predicate PageOk(ps: PageScroll) {
    ps.currentSection < ps.sectionCount
  }

  /** `scrollToSection`: the scroll itself is not modelled; it arms the
      800 ms timer that releases the lock. */
  function ScrolledTo(ps: PageScroll, section: nat): PageScroll {
    ps.(currentSection := section, pendingTimers := ps.pendingTimers + 1)
  }

  /** `handlePageScroll`: while not locked, a wheel step down moves one
      section down and a step up one section up, unless at the boundary;
      the lock is taken only when the section moves. */
  function PageScrolled(ps: PageScroll, deltaY: real): (r: PageScroll)
    requires PageOk(ps)
    ensures PageOk(r) && r.sectionCount == ps.sectionCount
    ensures ps.isScrolling ==> r == ps
    ensures r.currentSection == ps.currentSection + 1 ==> deltaY > 0.0 && !ps.isScrolling
    ensures r.currentSection + 1 == ps.currentSection ==> deltaY < 0.0 && !ps.isScrolling
    ensures r.currentSection == ps.currentSection || r.currentSection == ps.currentSection + 1
            || r.currentSection + 1 == ps.currentSection
    ensures r.currentSection != ps.currentSection <==> r.isScrolling && !ps.isScrolling
    ensures !ps.isScrolling && deltaY > 0.0 && ps.currentSection + 1 < ps.sectionCount ==> r.currentSection == ps.currentSection + 1
    ensures !ps.isScrolling && deltaY < 0.0 && ps.currentSection > 0 ==> r.currentSection + 1 == ps.currentSection
  {
    if ps.isScrolling then ps
    else if deltaY > 0.0 && ps.currentSection < ps.sectionCount - 1 then
      ScrolledTo(ps.(isScrolling := true), ps.currentSection + 1)
    else if deltaY < 0.0 && ps.currentSection > 0 then
      ScrolledTo(ps.(isScrolling := true), ps.currentSection - 1)
    else ps.(isScrolling := false)
  }

  /** `handlePageKeydown`: ArrowDown and ArrowUp move one section while not
      locked and not at the boundary; every other key changes nothing. */
  function PageKeyed(ps: PageScroll, key: string): (r: PageScroll)
    requires PageOk(ps)
    ensures PageOk(r) && r.sectionCount == ps.sectionCount
    ensures ps.isScrolling || (key != "ArrowDown" && key != "ArrowUp") ==> r == ps
    ensures r.currentSection == ps.currentSection ==> r == ps
    ensures r.currentSection == ps.currentSection + 1 || r.currentSection + 1 == ps.currentSection
            ==> r.isScrolling && r.pendingTimers == ps.pendingTimers + 1
    ensures r.currentSection == ps.currentSection || r.currentSection == ps.currentSection + 1
            || r.currentSection + 1 == ps.currentSection
    ensures !ps.isScrolling && key == "ArrowDown" && ps.currentSection + 1 < ps.sectionCount ==> r.currentSection == ps.currentSection + 1
    ensures !ps.isScrolling && key == "ArrowUp" && ps.currentSection > 0 ==> r.currentSection + 1 == ps.currentSection
    ensures r.currentSection == ps.currentSection + 1 ==> key == "ArrowDown" && !ps.isScrolling
    ensures r.currentSection + 1 == ps.currentSection ==> key == "ArrowUp" && !ps.isScrolling
  {
    if ps.isScrolling then ps
    else if key == "ArrowDown" && ps.currentSection < ps.sectionCount - 1 then
      ScrolledTo(ps.(isScrolling := true), ps.currentSection + 1)
    else if key == "ArrowUp" && ps.currentSection > 0 then
      ScrolledTo(ps.(isScrolling := true), ps.currentSection - 1)
    else ps
  }

  /** `goToPage`: jump to a section while not locked; an index outside the
      sections is ignored. The jump does not take the lock. */
  function PageGone(ps: PageScroll, pageIndex: int): (r: PageScroll)
    requires PageOk(ps)
    ensures PageOk(r) && r.sectionCount == ps.sectionCount && r.isScrolling == ps.isScrolling
    ensures ps.isScrolling || !(0 <= pageIndex < ps.sectionCount) ==> r == ps
    ensures !ps.isScrolling && 0 <= pageIndex < ps.sectionCount ==> r.currentSection == pageIndex
  {
    if ps.isScrolling then ps
    else if pageIndex < 0 || pageIndex >= ps.sectionCount then ps
    else ScrolledTo(ps, pageIndex)
  }

  /** A run of wheel steps never leaves the sections. */
  lemma {:induction false} PageStaysInRange(ps: PageScroll, deltas: seq<real>)
    requires PageOk(ps)
    ensures PageOk(WheelSteps(ps, deltas))
    decreases |deltas|
  {
    if deltas != [] {
      PageStaysInRange(PageScrolled(ps, deltas[0]), deltas[1..]);
    }
  }

  /** The scroller after each wheel step of `deltas` in turn, with no timer
      expiring in between. */
  function WheelSteps(ps: PageScroll, deltas: seq<real>): PageScroll
    requires PageOk(ps)
    decreases |deltas|
  {
    if deltas == [] then ps else WheelSteps(PageScrolled(ps, deltas[0]), deltas[1..])
  }

  /** Without a timer expiring, a burst of wheel steps moves at most one section. */
  lemma {:induction false} LockedBurstMovesOnce(ps: PageScroll, deltas: seq<real>)
    requires PageOk(ps)
    ensures var r := WheelSteps(ps, deltas);
            r.currentSection == ps.currentSection || r.currentSection == ps.currentSection + 1
            || r.currentSection + 1 == ps.currentSection
    ensures ps.isScrolling ==> WheelSteps(ps, deltas) == ps
    decreases |deltas|
  {
    if deltas != [] {
      var next := PageScrolled(ps, deltas[0]);
      LockedBurstMovesOnce(next, deltas[1..]);
      if next.currentSection != ps.currentSection {
        assert next.isScrolling;
      }
    }
  }

  /** The layer at a stack position has a key (`touch` false) or touch
      (`touch` true) callback, and that callback returns true. */
  predicate Accepts(layers: map<string, LayerInfo>, id: string, accepting: set<string>, touch: bool) {
    id in layers && (if touch then layers[id].hasTouchHandler else layers[id].hasKeyHandler) && id in accepting
  }

  /** The stack holds registered layers without duplicates and every
      visible layer is on it. */
  ghost predicate StackOk(layers: map<string, LayerInfo>, stack: seq<string>) {
    NoDuplicates(stack)
    && (forall i :: 0 <= i < |stack| ==> stack[i] in layers)
    && (forall id :: id in layers && layers[id].isVisible ==> id in stack)
  }

  /** Every z-index lies between the base and the next free slot. */
  ghost predicate ZIndicesOk(layers: map<string, LayerInfo>) {
    forall id :: id in layers ==> BaseZIndex <= layers[id].zIndex < BaseZIndex + 10 * |layers|
  }

  lemma InsertCardinality(layers: map<string, LayerInfo>, id: string, info: LayerInfo)
    ensures id in layers ==> |layers[id := info]| == |layers|
    ensures id !in layers ==> |layers[id := info]| == |layers| + 1
  {
    if id in layers {
      assert layers[id := info].Keys == layers.Keys;
    } else {
      assert layers[id := info].Keys == layers.Keys + {id};
    }
  }

  /** Storing a layer in the last slot keeps the z-indices on the grid. */
  lemma RegisterKeepsZIndices(layers: map<string, LayerInfo>, id: string, info: LayerInfo)
    requires ZIndicesOk(layers)
    requires info.zIndex == BaseZIndex + 10 * (|layers[id := info]| - 1)
    ensures ZIndicesOk(layers[id := info])
  {
    InsertCardinality(layers, id, info);
  }

  /** Changing only a layer's visibility keeps the z-indices on the grid. */
  lemma VisibilityKeepsZIndices(layers: map<string, LayerInfo>, id: string, visible: bool)
    requires ZIndicesOk(layers) && id in layers
    ensures ZIndicesOk(layers[id := layers[id].(isVisible := visible)])
  {
    InsertCardinality(layers, id, layers[id].(isVisible := visible));
  }

  /** Re-registering leaves the stack valid: the new record is invisible. */
  lemma RegisterKeepsStack(layers: map<string, LayerInfo>, stack: seq<string>, id: string, info: LayerInfo)
    requires StackOk(layers, stack) && !info.isVisible
    ensures StackOk(layers[id := info], stack)
  {
  }

  /** Showing a layer and moving it to the top keeps the stack valid. */
  lemma ShowKeepsStack(layers: map<string, LayerInfo>, stack: seq<string>, id: string)
    requires StackOk(layers, stack) && id in layers
    ensures StackOk(layers[id := layers[id].(isVisible := true)], MoveToBack(stack, id))
  {
    MoveToBackSpec(stack, id);
  }

  /** Hiding a layer and dropping it from the stack keeps the stack valid. */
  lemma HideKeepsStack(layers: map<string, LayerInfo>, stack: seq<string>, id: string)
    requires StackOk(layers, stack) && id in layers
    ensures StackOk(layers[id := layers[id].(isVisible := false)], RemoveFirst(stack, id))
    ensures id !in RemoveFirst(stack, id)
  {
    RemoveFirstSpec(stack, id);
  }

  /** The layer manager object. */
  class LayerManager {
    var layers: map<string, LayerInfo>
    var layerStack: seq<string>
    var pageScroll: Option<PageScroll>

    /** The stack holds registered layers without duplicates, every visible
        layer is on the stack, z-indices lie on the 10-step grid below the
        next free slot, and the current section is a section. */
    ghost predicate Valid()
      reads this
    {
      StackOk(layers, layerStack) && ZIndicesOk(layers)
      && (pageScroll.Some? ==> PageOk(pageScroll.value))
    }

    constructor ()
      ensures Valid() && layers == map[] && layerStack == [] && pageScroll == None
    {
      layers := map[];
      layerStack := [];
      pageScroll := None;
    }

    /** `initPageScroll`: with at least one section the scroller starts at
        section 0, unlocked; with none nothing changes. */
    method InitPageScroll(sectionCount: nat)
      requires Valid()
      modifies this
      ensures Valid() && layers == old(layers) && layerStack == old(layerStack)
      ensures sectionCount == 0 ==> pageScroll == old(pageScroll)
      ensures sectionCount > 0 ==> pageScroll == Some(PageScroll(sectionCount, 0, false, 0))
    {
      if sectionCount == 0 {
        return;
      }
      pageScroll := Some(PageScroll(sectionCount, 0, false, 0));
    }

    /** `registerLayer`: the layer is stored invisible with z-index
        1000 + 10 * (number of registered layers - 1). Registering an id
        again replaces its record (keeping any stack entry) and gives it the
        z-index of the last slot. */
    method RegisterLayer(id: string, hasKeyHandler: bool, hasTouchHandler: bool)
      requires Valid()
      modifies this
      ensures Valid() && layerStack == old(layerStack) && pageScroll == old(pageScroll)
      ensures layers.Keys == old(layers.Keys) + {id}
      ensures layers == old(layers)[id := LayerInfo(hasKeyHandler, hasTouchHandler, false, BaseZIndex + 10 * (|layers| - 1))]
      ensures id !in old(layers) ==> layers[id].zIndex == BaseZIndex + 10 * |old(layers)|
      ensures id !in old(layers) ==> forall other :: other in old(layers) ==> old(layers)[other].zIndex < layers[id].zIndex
    {
      var registered := layers[id := LayerInfo(hasKeyHandler, hasTouchHandler, false, 0)];
      var layerIndex := |registered| - 1;
      var info := LayerInfo(hasKeyHandler, hasTouchHandler, false, BaseZIndex + layerIndex * 10);
      assert registered[id := info] == layers[id := info];
      InsertCardinality(layers, id, info);
      RegisterKeepsZIndices(layers, id, info);
      RegisterKeepsStack(layers, layerStack, id, info);
      layers := layers[id := info];
    }

    /** `showLayer`: an unregistered id changes nothing; otherwise the layer
        becomes visible and moves to the top of the stack. */
    method ShowLayer(id: string)
      requires Valid()
      modifies this
      ensures Valid() && pageScroll == old(pageScroll) && layers.Keys == old(layers.Keys)
      ensures id !in old(layers) ==> layers == old(layers) && layerStack == old(layerStack)
      ensures id in old(layers) ==> layers == old(layers)[id := old(layers)[id].(isVisible := true)]
      ensures id in old(layers) ==> layerStack == MoveToBack(old(layerStack), id) && GetTopLayer() == Some(id)
    {
      if id !in layers {
        return;
      }
      ShowKeepsStack(layers, layerStack, id);
      VisibilityKeepsZIndices(layers, id, true);
      layers := layers[id := layers[id].(isVisible := true)];
      var stack := MoveToBackOf(layerStack, id);
      layerStack := stack;
    }

    /** `hideLayer`: an unregistered id changes nothing; otherwise the layer
        becomes invisible and leaves the stack. */
    method HideLayer(id: string)
      requires Valid()
      modifies this
      ensures Valid() && pageScroll == old(pageScroll) && layers.Keys == old(layers.Keys)
      ensures id !in old(layers) ==> layers == old(layers) && layerStack == old(layerStack)
      ensures id in old(layers) ==> layers == old(layers)[id := old(layers)[id].(isVisible := false)]
      ensures id in old(layers) ==> layerStack == RemoveFirst(old(layerStack), id)
    {
      if id !in layers {
        return;
      }
      var stack := RemoveFirstOf(layerStack, id);
      HideKeepsStack(layers, layerStack, id);
      VisibilityKeepsZIndices(layers, id, false);
      layers := layers[id := layers[id].(isVisible := false)];
      layerStack := stack;
    }

    /** `switchLayer`: hide `fromId` unless it is kept, then show `toId`;
        the new stack and layers are exactly those of the two calls, so no
        other layer changes. */
    method SwitchLayer(fromId: string, toId: string, keepFromLayer: bool)
      requires Valid()
      modifies this
      ensures Valid() && pageScroll == old(pageScroll) && layers.Keys == old(layers.Keys)
      ensures toId in old(layers) ==> GetTopLayer() == Some(toId) && layers[toId].isVisible
      ensures !keepFromLayer && fromId != toId && fromId in old(layers) ==>
                fromId !in layerStack && !layers[fromId].isVisible
      ensures keepFromLayer && fromId != toId && fromId in old(layerStack) ==> fromId in layerStack
      ensures var hidden := !keepFromLayer && fromId in old(layers);
              var stack1 := if hidden then RemoveFirst(old(layerStack), fromId) else old(layerStack);
              var layers1 := if hidden then old(layers)[fromId := old(layers)[fromId].(isVisible := false)] else old(layers);
              layerStack == (if toId in old(layers) then MoveToBack(stack1, toId) else stack1)
              && layers == (if toId in old(layers) then layers1[toId := layers1[toId].(isVisible := true)] else layers1)
    {
      ghost var stack0 := layerStack;
      if !keepFromLayer {
        HideLayer(fromId);
      }
      ghost var stack1 := layerStack;
      ShowLayer(toId);
      if fromId != toId {
        if !keepFromLayer && fromId in old(layers) {
          RemoveFirstSpec(stack0, fromId);
          if toId in layers {
            MoveToBackMembers(stack1, toId, fromId);
          }
        }
        if keepFromLayer && toId in layers {
          MoveToBackMembers(stack1, toId, fromId);
        }
      }
    }

    /** `hideAllLayers`: every registered layer is hidden and the stack emptied. */
    method HideAllLayers()
      requires Valid()
      modifies this
      ensures Valid() && pageScroll == old(pageScroll)
      ensures layerStack == [] && layers.Keys == old(layers.Keys)
      ensures forall id :: id in layers ==> !layers[id].isVisible && layers[id].zIndex == old(layers)[id].zIndex
                                            && layers[id].hasKeyHandler == old(layers)[id].hasKeyHandler
                                            && layers[id].hasTouchHandler == old(layers)[id].hasTouchHandler
    {
      var remaining := layers.Keys;
      while remaining != {}
        invariant Valid() && pageScroll == old(pageScroll)
        invariant remaining <= layers.Keys && layers.Keys == old(layers.Keys)
        invariant forall id :: id in layers && id !in remaining ==> !layers[id].isVisible
        invariant forall id :: id in layers ==> layers[id] == old(layers)[id].(isVisible := layers[id].isVisible)
        decreases remaining
      {
        var id :| id in remaining;
        HideLayer(id);
        remaining := remaining - {id};
      }
      layerStack := [];
    }

    /** `getTopLayer`: the last layer of the stack, if any. */
    function GetTopLayer(): (r: Option<string>)
      reads this
      ensures r.None? <==> layerStack == []
      ensures r.Some? ==> r.value == Last(layerStack) && r.value in layerStack
    {
      if |layerStack| > 0 then Some(layerStack[|layerStack| - 1]) else None
    }

    /** `isLayerVisible`: false for an unregistered id. */
    function IsLayerVisible(id: string): (r: bool)
      reads this
      ensures r <==> id in layers && layers[id].isVisible
      ensures Valid() && r ==> id in layerStack
    {
      if id in layers then layers[id].isVisible else false
    }

    /** Walk the stack from the top and stop at the first layer whose
        callback accepts the event; the answer is its stack position. */
    method Dispatch(accepting: set<string>, touch: bool) returns (handledAt: Option<nat>)
      ensures handledAt.Some? ==> handledAt.value < |layerStack|
                                  && Accepts(layers, layerStack[handledAt.value], accepting, touch)
                                  && forall j :: handledAt.value < j < |layerStack| ==> !Accepts(layers, layerStack[j], accepting, touch)
      ensures handledAt.None? ==> forall j :: 0 <= j < |layerStack| ==> !Accepts(layers, layerStack[j], accepting, touch)
    {
      var i := |layerStack| - 1;
      while i >= 0
        invariant -1 <= i < |layerStack|
        invariant forall j :: i < j < |layerStack| ==> !Accepts(layers, layerStack[j], accepting, touch)
        decreases i
      {
        var layerId := layerStack[i];
        if layerId in layers && (if touch then layers[layerId].hasTouchHandler else layers[layerId].hasKeyHandler) {
          if layerId in accepting {
            return Some(i);
          }
        }
        i := i - 1;
      }
      return None;
    }

    /** `handleKeydownEvent`: the key goes to the shown layers from the top
        down; `accepting` holds the layers whose `onKeydown` returns true for
        it. If none does, the section scroller gets the key. */
    method HandleKeydown(key: string, accepting: set<string>) returns (handledAt: Option<nat>)
      requires Valid()
      modifies this
      ensures Valid() && layers == old(layers) && layerStack == old(layerStack)
      ensures handledAt.Some? ==> handledAt.value < |layerStack|
                                  && Accepts(layers, layerStack[handledAt.value], accepting, false)
                                  && forall j :: handledAt.value < j < |layerStack| ==> !Accepts(layers, layerStack[j], accepting, false)
      ensures handledAt.None? ==> forall j :: 0 <= j < |layerStack| ==> !Accepts(layers, layerStack[j], accepting, false)
      ensures handledAt.Some? || old(pageScroll).None? ==> pageScroll == old(pageScroll)
      ensures handledAt.None? && old(pageScroll).Some? ==> pageScroll == Some(PageKeyed(old(pageScroll).value, key))
    {
      handledAt := Dispatch(accepting, false);
      if handledAt.None? && pageScroll.Some? {
        HandlePageKeydown(key);
      }
    }

    /** `handleTouchmoveEvent`: the same top-down walk over `onTouchmove`;
        nothing falls through. */
    method HandleTouchmove(accepting: set<string>) returns (handledAt: Option<nat>)
      ensures handledAt.Some? ==> handledAt.value < |layerStack|
                                  && Accepts(layers, layerStack[handledAt.value], accepting, true)
                                  && forall j :: handledAt.value < j < |layerStack| ==> !Accepts(layers, layerStack[j], accepting, true)
      ensures handledAt.None? ==> forall j :: 0 <= j < |layerStack| ==> !Accepts(layers, layerStack[j], accepting, true)
    {
      handledAt := Dispatch(accepting, true);
    }

    /** `handlePageScroll`. */
    method HandlePageScroll(deltaY: real)
      requires Valid()
      modifies this
      ensures Valid() && layers == old(layers) && layerStack == old(layerStack)
      ensures old(pageScroll).None? ==> pageScroll == None
      ensures old(pageScroll).Some? ==> pageScroll == Some(PageScrolled(old(pageScroll).value, deltaY))
    {
      if pageScroll.None? || pageScroll.value.isScrolling {
        return;
      }
      var ps := pageScroll.value.(isScrolling := true);
      if deltaY > 0.0 && ps.currentSection < ps.sectionCount - 1 {
        ps := ps.(currentSection := ps.currentSection + 1);
        ps := ps.(pendingTimers := ps.pendingTimers + 1);
      } else if deltaY < 0.0 && ps.currentSection > 0 {
        ps := ps.(currentSection := ps.currentSection - 1);
        ps := ps.(pendingTimers := ps.pendingTimers + 1);
      } else {
        ps := ps.(isScrolling := false);
      }
      pageScroll := Some(ps);
    }

    /** `handlePageKeydown`. */
    method HandlePageKeydown(key: string)
      requires Valid()
      modifies this
      ensures Valid() && layers == old(layers) && layerStack == old(layerStack)
      ensures old(pageScroll).None? ==> pageScroll == None
      ensures old(pageScroll).Some? ==> pageScroll == Some(PageKeyed(old(pageScroll).value, key))
    {
      if pageScroll.None? || pageScroll.value.isScrolling {
        return;
      }
      var ps := pageScroll.value;
      if key == "ArrowDown" && ps.currentSection < ps.sectionCount - 1 {
        ps := ps.(isScrolling := true, currentSection := ps.currentSection + 1, pendingTimers := ps.pendingTimers + 1);
      } else if key == "ArrowUp" && ps.currentSection > 0 {
        ps := ps.(isScrolling := true, currentSection := ps.currentSection - 1, pendingTimers := ps.pendingTimers + 1);
      }
      pageScroll := Some(ps);
    }

    /** `goToPage`. */
    method GoToPage(pageIndex: int)
      requires Valid()
      modifies this
      ensures Valid() && layers == old(layers) && layerStack == old(layerStack)
      ensures old(pageScroll).None? ==> pageScroll == None
      ensures old(pageScroll).Some? ==> pageScroll == Some(PageGone(old(pageScroll).value, pageIndex))
    {
      if pageScroll.None? || pageScroll.value.isScrolling {
        return;
      }
      if pageIndex < 0 || pageIndex >= pageScroll.value.sectionCount {
        return;
      }
      pageScroll := Some(ScrolledTo(pageScroll.value, pageIndex));
    }

    /** Expiry of one 800 ms timer armed by `scrollToSection`: the lock is released. */
    method FinishScroll()
      requires Valid()
      modifies this
      ensures Valid() && layers == old(layers) && layerStack == old(layerStack)
      ensures old(pageScroll).Some? && old(pageScroll).value.pendingTimers > 0 ==>
                pageScroll == Some(old(pageScroll).value.(isScrolling := false, pendingTimers := old(pageScroll).value.pendingTimers - 1))
      ensures !(old(pageScroll).Some? && old(pageScroll).value.pendingTimers > 0) ==> pageScroll == old(pageScroll)
    {
      if pageScroll.Some? && pageScroll.value.pendingTimers > 0 {
        pageScroll := Some(pageScroll.value.(isScrolling := false, pendingTimers := pageScroll.value.pendingTimers - 1));
      }
    }

    /** `getCurrentPage`: the current section, 0 without a scroller. */
    function GetCurrentPage(): (r: nat)
      reads this
      ensures pageScroll.None? ==> r == 0
      ensures Valid() && pageScroll.Some? ==> r < pageScroll.value.sectionCount
    {
      if pageScroll.Some? then pageScroll.value.currentSection else 0
    }
  }
}
