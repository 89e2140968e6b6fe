/** The fullscreen viewer: one image of a character at a time, stepped with
    wrap-around by keys (through a 100 ms debounce timer) and swipes, or
    chosen by index from the thumbnails. Every successful step takes a lock
    that only the 300 ms transition timer releases, and resets the pan and
    zoom. */
module Viewer {
  import opened Seqs
  import opened JsText
  import opened SiteData
  import opened Navigation

  /** The minimal horizontal swipe, in pixels. */
  const SwipeThreshold: real := 50.0

  class FullscreenViewer {
    var character: Option<Character>
    var currentImageIndex: int
    var isTransitioning: bool
    /** The 300 ms transition timer is armed. */
    var transitionPending: bool
    var currentScale: real
    var translateX: real
    var translateY: real
    /** The viewer layer is shown. */
    var active: bool
    /** The direction of the armed 100 ms debounce timer, if any. */
    var pendingMove: Option<Direction>
    var dragging: bool
    var startX: real
    var startY: real

    /** A shown character has images and the index is one of them; a
        transition has its timer armed. */
    ghost predicate Valid()
      reads this
    {
      (character.Some? ==> 0 <= currentImageIndex < |character.value.images|)
      && (isTransitioning ==> transitionPending)
    }

    /** The pan and zoom are at rest. */
    predicate AtRest()
      reads this
    {
      currentScale == 1.0 && translateX == 0.0 && translateY == 0.0
    }

    constructor ()
      ensures Valid() && character == None && !active && !isTransitioning && !transitionPending
      ensures AtRest() && pendingMove == None && !dragging
    {
      character := None;
      currentImageIndex := 0;
      isTransitioning := false;
      transitionPending := false;
      currentScale := 1.0;
      translateX := 0.0;
      translateY := 0.0;
      active := false;
      pendingMove := None;
      dragging := false;
      startX := 0.0;
      startY := 0.0;
    }

    /** `resetTransform`: zoom 1, no pan. */
    method ResetTransform()
      modifies this
      ensures AtRest()
      ensures character == old(character) && currentImageIndex == old(currentImageIndex)
      ensures isTransitioning == old(isTransitioning) && transitionPending == old(transitionPending)
      ensures active == old(active) && pendingMove == old(pendingMove)
      ensures dragging == old(dragging) && startX == old(startX) && startY == old(startY)
    {
      currentScale := 1.0;
      translateX := 0.0;
      translateY := 0.0;
    }

    /** `show`: store the character and the image index, reset the pan and
        zoom and show the viewer layer. */
    method Show(c: Character, imageIndex: int)
      requires Valid() && 0 <= imageIndex < |c.images|
      modifies this
      ensures Valid() && AtRest() && active
      ensures character == Some(c) && currentImageIndex == imageIndex
      ensures isTransitioning == old(isTransitioning) && transitionPending == old(transitionPending)
      ensures pendingMove == old(pendingMove) && dragging == old(dragging) && startX == old(startX) && startY == old(startY)
    {
      character := Some(c);
      currentImageIndex := imageIndex;
      ResetTransform();
      active := true;
    }

    /** `hide`: hide the viewer layer. */
    method Hide()
      requires Valid()
      modifies this
      ensures Valid() && !active
      ensures character == old(character) && currentImageIndex == old(currentImageIndex)
      ensures isTransitioning == old(isTransitioning) && transitionPending == old(transitionPending)
      ensures pendingMove == old(pendingMove) && currentScale == old(currentScale) && translateX == old(translateX) && translateY == old(translateY)
      ensures dragging == old(dragging) && startX == old(startX) && startY == old(startY)
    {
      active := false;
    }

    /** `showNextImage` / `showPreviousImage`: with a character and outside
        a transition, take the lock, step with wrap-around, reset the pan
        and zoom and arm the timer; otherwise nothing changes. */
    method ShowAdjacent(d: Direction)
      requires Valid()
      modifies this
      ensures Valid()
      ensures character == old(character) && active == old(active) && pendingMove == old(pendingMove)
      ensures dragging == old(dragging) && startX == old(startX) && startY == old(startY)
      ensures old(character).None? || old(isTransitioning) ==>
                currentImageIndex == old(currentImageIndex) && isTransitioning == old(isTransitioning)
                && transitionPending == old(transitionPending) && currentScale == old(currentScale)
                && translateX == old(translateX) && translateY == old(translateY)
      ensures old(character).Some? && !old(isTransitioning) ==>
                currentImageIndex == Step(d, old(currentImageIndex), |character.value.images|)
                && isTransitioning && transitionPending && AtRest()
    {
      if character.None? || isTransitioning {
        return;
      }
      isTransitioning := true;
      var n := |character.value.images|;
      if d == Next {
        currentImageIndex := JsRem(currentImageIndex + 1, n);
      } else {
        currentImageIndex := JsRem(currentImageIndex - 1 + n, n);
      }
      UpdateCurrentImage();
      transitionPending := true;
    }

    /** `showImageByIndex`: with a character and outside a transition, jump
        to an image index as a step does; indices outside the images are
        ignored. */
    method ShowImageByIndex(index: int)
      requires Valid()
      modifies this
      ensures Valid()
      ensures character == old(character) && active == old(active) && pendingMove == old(pendingMove)
      ensures dragging == old(dragging) && startX == old(startX) && startY == old(startY)
      ensures old(character).None? || old(isTransitioning) || !(0 <= index < |old(character).value.images|) ==>
                currentImageIndex == old(currentImageIndex) && isTransitioning == old(isTransitioning)
                && transitionPending == old(transitionPending) && currentScale == old(currentScale)
                && translateX == old(translateX) && translateY == old(translateY)
      ensures old(character).Some? && !old(isTransitioning) && 0 <= index < |old(character).value.images| ==>
                currentImageIndex == index && isTransitioning && transitionPending && AtRest()
    {
      if character.None? || isTransitioning {
        return;
      }
      if index < 0 || index >= |character.value.images| {
        return;
      }
      isTransitioning := true;
      currentImageIndex := index;
      UpdateCurrentImage();
      transitionPending := true;
    }

    /** `updateCurrentImage`: the shown image changes and the pan and zoom
        are reset. */
    method UpdateCurrentImage()
      modifies this
      ensures character == old(character) && currentImageIndex == old(currentImageIndex)
      ensures isTransitioning == old(isTransitioning) && transitionPending == old(transitionPending)
      ensures active == old(active) && pendingMove == old(pendingMove)
      ensures dragging == old(dragging) && startX == old(startX) && startY == old(startY)
      ensures character.Some? && 0 <= currentImageIndex < |character.value.images| ==> AtRest()
      ensures !(character.Some? && 0 <= currentImageIndex < |character.value.images|) ==>
                currentScale == old(currentScale) && translateX == old(translateX) && translateY == old(translateY)
    {
      if character.None? {
        return;
      }
      if !(0 <= currentImageIndex < |character.value.images|) {
        return;
      }
      ResetTransform();
    }

    /** Expiry of the 300 ms transition timer: the lock is released. */
    method FinishTransition()
      requires Valid()
      modifies this
      ensures Valid()
      ensures old(transitionPending) ==> !isTransitioning && !transitionPending
      ensures !old(transitionPending) ==> isTransitioning == old(isTransitioning) && !transitionPending
      ensures character == old(character) && currentImageIndex == old(currentImageIndex)
      ensures active == old(active) && pendingMove == old(pendingMove)
      ensures currentScale == old(currentScale) && translateX == old(translateX) && translateY == old(translateY)
      ensures dragging == old(dragging) && startX == old(startX) && startY == old(startY)
    {
      if transitionPending {
        transitionPending := false;
        isTransitioning := false;
      }
    }

    /** `debouncedShowNextImage` / `debouncedShowPreviousImage`: (re)arm
        the 100 ms timer for a step in direction `d`. */
    method DebouncedMove(d: Direction)
      modifies this
      ensures pendingMove == Some(d)
      ensures character == old(character) && currentImageIndex == old(currentImageIndex)
      ensures isTransitioning == old(isTransitioning) && transitionPending == old(transitionPending)
      ensures active == old(active) && currentScale == old(currentScale) && translateX == old(translateX) && translateY == old(translateY)
      ensures dragging == old(dragging) && startX == old(startX) && startY == old(startY)
    {
      pendingMove := Some(d);
    }

    /** Expiry of the 100 ms debounce timer: the step it was armed for. */
    method FireDebounce()
      requires Valid()
      modifies this
      ensures Valid() && pendingMove == None && character == old(character)
      ensures old(pendingMove).Some? && character.Some? && !old(isTransitioning) ==>
                currentImageIndex == Step(old(pendingMove).value, old(currentImageIndex), |character.value.images|)
                && isTransitioning && transitionPending && AtRest()
      ensures old(pendingMove).None? || character.None? || old(isTransitioning) ==>
                currentImageIndex == old(currentImageIndex) && isTransitioning == old(isTransitioning)
                && transitionPending == old(transitionPending) && currentScale == old(currentScale) && translateX == old(translateX) && translateY == old(translateY)
      ensures active == old(active) && dragging == old(dragging) && startX == old(startX) && startY == old(startY)
    {
      if pendingMove.None? {
        return;
      }
      var d := pendingMove.value;
      pendingMove := None;
      ShowAdjacent(d);
    }

    /** The document key handler: while the viewer is shown, Escape hides
        it, ArrowLeft arms a backward and ArrowRight a forward step. */
    method HandleKeydown(key: string)
      requires Valid()
      modifies this
      ensures Valid()
      ensures character == old(character) && currentImageIndex == old(currentImageIndex)
      ensures isTransitioning == old(isTransitioning) && transitionPending == old(transitionPending)
      ensures currentScale == old(currentScale) && translateX == old(translateX) && translateY == old(translateY)
      ensures dragging == old(dragging) && startX == old(startX) && startY == old(startY)
      ensures !old(active) ==> active == old(active) && pendingMove == old(pendingMove)
      ensures old(active) && key == "Escape" ==> !active && pendingMove == old(pendingMove)
      ensures old(active) && key == "ArrowLeft" ==> active && pendingMove == Some(Prev)
      ensures old(active) && key == "ArrowRight" ==> active && pendingMove == Some(Next)
      ensures old(active) && key != "Escape" && key != "ArrowLeft" && key != "ArrowRight" ==>
                active && pendingMove == old(pendingMove)
    {
      if !active {
        return;
      }
      if key == "Escape" {
        Hide();
      } else if key == "ArrowLeft" {
        DebouncedMove(Prev);
      } else if key == "ArrowRight" {
        DebouncedMove(Next);
      }
    }

    /** `touchstart`: a single touch starts a drag at its point. */
    method TouchStart(touchCount: nat, x: real, y: real)
      requires Valid()
      modifies this
      ensures Valid()
      ensures touchCount == 1 ==> dragging && startX == x && startY == y
      ensures touchCount != 1 ==> dragging == old(dragging) && startX == old(startX) && startY == old(startY)
      ensures character == old(character) && currentImageIndex == old(currentImageIndex)
      ensures isTransitioning == old(isTransitioning) && pendingMove == old(pendingMove)
      ensures transitionPending == old(transitionPending) && active == old(active)
      ensures currentScale == old(currentScale) && translateX == old(translateX) && translateY == old(translateY)
    {
      if touchCount == 1 {
        startX := x;
        startY := y;
        dragging := true;
      }
    }

    /** `touchend`: a drag with a character, ended by a single touch, steps
        at once when it is a swipe (mostly horizontal and longer than 50 px);
        the drag ends in every case. */
    method TouchEnd(changedCount: nat, x: real, y: real)
      requires Valid()
      modifies this
      ensures Valid() && !dragging
      ensures character == old(character) && pendingMove == old(pendingMove) && active == old(active)
      ensures startX == old(startX) && startY == old(startY)
      ensures var swipe := Swipe(old(startX) - x, old(startY) - y, SwipeThreshold);
              if old(dragging) && character.Some? && changedCount == 1 && swipe.Some? && !old(isTransitioning)
              then currentImageIndex == Step(swipe.value, old(currentImageIndex), |character.value.images|)
                   && isTransitioning && transitionPending && AtRest()
              else currentImageIndex == old(currentImageIndex) && isTransitioning == old(isTransitioning)
                   && transitionPending == old(transitionPending) && currentScale == old(currentScale) && translateX == old(translateX) && translateY == old(translateY)
    {
      if !dragging || character.None? || changedCount != 1 {
        dragging := false;
        return;
      }
      var swipe := Swipe(startX - x, startY - y, SwipeThreshold);
      if swipe.Some? {
        ShowAdjacent(swipe.value);
      }
      dragging := false;
    }
  }

  /** Between two timer expiries at most one step happens: once a step has
      taken the lock, further steps change nothing until `FinishTransition`. */
  method LockedStepsAreIgnored(v: FullscreenViewer, d1: Direction, d2: Direction)
    requires v.Valid() && v.character.Some? && !v.isTransitioning
    modifies v
    ensures v.Valid() && v.isTransitioning && v.character == old(v.character)
    ensures v.currentImageIndex == Step(d1, old(v.currentImageIndex), |v.character.value.images|)
  {
    v.ShowAdjacent(d1);
    v.ShowAdjacent(d2);
  }
}
