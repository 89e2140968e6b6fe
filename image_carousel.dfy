/** The image carousel of the home page: the current character's images
    shown three at a time (previous, current, next), stepped with wrap-around
    by buttons, keys, swipes and clicks on the side slots. An animated step
    takes a lock that only the 500 ms transition timer releases, and button,
    key and swipe steps go through a 100 ms debounce timer. */
module Carousel {
  import opened Seqs
  import opened JsText
  import opened SiteData
  import opened Navigation

  /** The minimal horizontal swipe, in pixels. */
  const SwipeThreshold: real := 30.0

  function ImageCount(character: Option<Character>): nat {
    if character.Some? then |character.value.images| else 0
  }

  /** The image indices of the three slots around `i`: previous, current,
      next (wrapping); no slots without images. */
  function SlotWindow(i: int, n: int): (r: seq<int>)
    requires n == 0 || 0 <= i < n
    ensures n == 0 ==> r == []
    ensures n > 0 ==> |r| == 3 && r[1] == i && forall k :: 0 <= k < 3 ==> 0 <= r[k] < n
  {
    if n == 0 then [] else [WrapPrev(i, n), i, WrapNext(i, n)]
  }

  /** `(i - 1 + k + n) % n` for the slot in position `k` is the window:
      the slot loop shows the previous, the current and the next image. */
  lemma SlotFormula(i: int, n: int, k: int)
    requires 0 <= i < n && 0 <= k < 3
    ensures JsRem(i - 1 + k + n, n) == SlotWindow(i, n)[k]
  {
    if k == 1 {
      UniqueRemainder(i + n, 1, i, n);
    } else if k == 2 {
      if i + 1 < n {
        UniqueRemainder(i + 1 + n, 1, i + 1, n);
      } else {
        UniqueRemainder(i + 1 + n, 2, 0, n);
      }
    }
  }

  /** The index of the image slid in by an animated step, computed from the
      index after the step, as the carousel writes it. */
  function TransitionIndexAsWritten(d: Direction, i: int, n: int): (r: int)
    requires 0 <= i < n
    ensures 0 <= r < n
  {
    if n == 1 then 0
    else if n == 2 then JsRem(i + 1, 2)
    else if d == Next then JsRem(i + 1, n)
    else JsRem(i - 2 + n, n)
  }

  /** The image slid in by an animated step: the one at the incoming edge
      of the window after the step (the next image when stepping forward,
      the previous one when stepping back). */
  function TransitionIndex(d: Direction, i: int, n: int): (r: int)
    requires 0 <= i < n
    ensures 0 <= r < n
    ensures d == Next ==> r == SlotWindow(i, n)[2]
    ensures d == Prev ==> r == SlotWindow(i, n)[0]
  {
    if n == 1 then 0
    else if n == 2 then JsRem(i + 1, 2)
    else Step(d, i, n)
  }

  /** The written index agrees with the incoming edge for forward steps and
      for one or two images. */
  lemma TransitionAsWrittenAgrees(d: Direction, i: int, n: int)
    requires 0 <= i < n && (d == Next || n <= 2)
    ensures TransitionIndexAsWritten(d, i, n) == TransitionIndex(d, i, n)
  {
  }

  /** With three or more images, a backward step slides in the image two
      before the new current one instead of the previous one. */
  lemma TransitionAsWrittenMissesBackward(i: int, n: int)
    requires 0 <= i < n && n >= 3
    ensures TransitionIndexAsWritten(Prev, i, n) != TransitionIndex(Prev, i, n)
    ensures TransitionIndexAsWritten(Prev, i, n) == (if i >= 2 then i - 2 else i - 2 + n)
  {
    if i >= 2 {
      UniqueRemainder(i - 2 + n, 1, i - 2, n);
    } else {
      UniqueRemainder(i - 2 + n, 0, i - 2 + n, n);
    }
  }

  /** Stepping back from image 1 of four: the written index slides in
      image 2, while the window after the step shows image 3 at its left. */
  lemma TransitionAsWrittenExample()
    ensures TransitionIndexAsWritten(Prev, 0, 4) == 2
    ensures SlotWindow(0, 4) == [3, 0, 1] && TransitionIndex(Prev, 0, 4) == 3
  {
  }

  /** The `for` loop of the slot builder. */
  method BuildSlots(i: int, n: int) returns (slots: seq<int>)
    requires 0 <= i < n
    ensures slots == SlotWindow(i, n)
  {
    slots := [];
    for k := 0 to 3
      invariant |slots| == k
      invariant forall j :: 0 <= j < k ==> slots[j] == SlotWindow(i, n)[j]
    {
      var imageIndex := JsRem(i - 1 + k + n, n);
      SlotFormula(i, n, k);
      slots := slots + [imageIndex];
    }
  }

  class ImageCarousel {
    var character: Option<Character>
    var currentImageIndex: int
    var isTransitioning: bool
    /** The 500 ms transition timer is armed. */
    var transitionPending: bool
    /** The index of the transition image on display, if any. */
    var transitionImage: Option<int>
    /** The image indices on display, by slot position. */
    var slots: seq<int>
    /** The direction of the armed 100 ms debounce timer, if any. */
    var pendingMove: Option<Direction>
    var dragging: bool
    var startX: real
    var startY: real

    function Count(): nat
      reads this
    {
      ImageCount(character)
    }

    /** The index is an image index (0 without images); a transition holds a
        transition image and an armed timer; outside a transition the slots
        show the window around the current image. */
    ghost predicate Valid()
      reads this
    {
      (Count() == 0 ==> currentImageIndex == 0)
      && (Count() > 0 ==> 0 <= currentImageIndex < Count())
      && (isTransitioning ==> transitionPending)
      && (transitionPending ==> character.Some?)
      && (isTransitioning <==> transitionImage.Some?)
      && (transitionImage.Some? ==> 0 <= transitionImage.value < Count())
      && (!isTransitioning ==> slots == SlotWindow(currentImageIndex, Count()))
    }

    constructor ()
      ensures Valid() && character == None && currentImageIndex == 0 && !isTransitioning
      ensures !transitionPending && pendingMove == None && !dragging && slots == []
    {
      character := None;
      currentImageIndex := 0;
      isTransitioning := false;
      transitionPending := false;
      transitionImage := None;
      slots := [];
      pendingMove := None;
      dragging := false;
      startX := 0.0;
      startY := 0.0;
    }

    /** `updateDisplay`: rebuild the slots, none without images. */
    method UpdateDisplay()
      requires Count() == 0 || 0 <= currentImageIndex < Count()
      modifies this
      ensures character == old(character) && currentImageIndex == old(currentImageIndex)
      ensures isTransitioning == old(isTransitioning) && transitionPending == old(transitionPending)
      ensures transitionImage == old(transitionImage) && pendingMove == old(pendingMove)
      ensures dragging == old(dragging) && startX == old(startX) && startY == old(startY)
      ensures slots == SlotWindow(currentImageIndex, Count())
    {
      if Count() == 0 {
        slots := [];
        return;
      }
      slots := BuildSlots(currentImageIndex, Count());
    }

    /** `setCharacter`: show the first image of `c`, dropping any transition
        (its timer stays armed). */
    method SetCharacter(c: Character)
      requires Valid()
      modifies this
      ensures Valid()
      ensures character == Some(c) && currentImageIndex == 0 && !isTransitioning && transitionImage == None
      ensures slots == SlotWindow(0, |c.images|)
      ensures transitionPending == old(transitionPending) && pendingMove == old(pendingMove)
      ensures dragging == old(dragging) && startX == old(startX) && startY == old(startY)
    {
      character := Some(c);
      currentImageIndex := 0;
      isTransitioning := false;
      transitionImage := None;
      UpdateDisplay();
    }

    /** `nextImage` / `previousImage` and their animated bodies: outside a
        transition and with images, step with wrap-around, then, as
        `updateDisplayWithAnimation`, take the lock, slide in the image at
        the incoming edge and arm the 500 ms timer; otherwise nothing
        changes. The slots keep showing the old window until the timer
        fires. */
    method Move(d: Direction)
      requires Valid()
      modifies this
      ensures Valid()
      ensures character == old(character) && slots == old(slots) && pendingMove == old(pendingMove)
      ensures dragging == old(dragging) && startX == old(startX) && startY == old(startY)
      ensures old(isTransitioning) || old(Count()) == 0 ==>
                currentImageIndex == old(currentImageIndex) && isTransitioning == old(isTransitioning)
                && transitionImage == old(transitionImage) && transitionPending == old(transitionPending)
      ensures !old(isTransitioning) && old(Count()) > 0 ==>
                currentImageIndex == Step(d, old(currentImageIndex), Count()) && isTransitioning && transitionPending
                && transitionImage == Some(TransitionIndex(d, currentImageIndex, Count()))
    {
      if isTransitioning {
        return;
      }
      if character.None? || |character.value.images| == 0 {
        return;
      }
      var n := |character.value.images|;
      if d == Next {
        currentImageIndex := JsRem(currentImageIndex + 1, n);
      } else {
        currentImageIndex := JsRem(currentImageIndex - 1 + n, n);
      }
      isTransitioning := true;
      transitionImage := Some(TransitionIndex(d, currentImageIndex, n));
      transitionPending := true;
    }

    /** `goToImage`: outside a transition, jump to an image index; indices
        outside the images are ignored. */
    method GoToImage(index: int)
      requires Valid()
      modifies this
      ensures Valid()
      ensures old(isTransitioning) || !(0 <= index < old(Count())) ==>
                currentImageIndex == old(currentImageIndex) && slots == old(slots)
      ensures !old(isTransitioning) && 0 <= index < old(Count()) ==>
                currentImageIndex == index && slots == SlotWindow(index, Count())
      ensures character == old(character) && isTransitioning == old(isTransitioning)
      ensures transitionImage == old(transitionImage) && transitionPending == old(transitionPending)
      ensures pendingMove == old(pendingMove) && dragging == old(dragging) && startX == old(startX) && startY == old(startY)
    {
      if character.None? || |character.value.images| == 0 || isTransitioning {
        return;
      }
      if index < 0 || index >= |character.value.images| {
        return;
      }
      currentImageIndex := index;
      UpdateDisplay();
    }

    /** Expiry of the 500 ms transition timer: rebuild the slots around the
        current image, drop the transition image and release the lock. */
    method FinishTransition()
      requires Valid()
      modifies this
      ensures Valid()
      ensures old(transitionPending) ==>
                !isTransitioning && !transitionPending && transitionImage == None
                && slots == SlotWindow(currentImageIndex, Count())
      ensures !old(transitionPending) ==> slots == old(slots) && isTransitioning == old(isTransitioning)
                                          && transitionPending == old(transitionPending)
      ensures character == old(character) && currentImageIndex == old(currentImageIndex)
      ensures pendingMove == old(pendingMove) && dragging == old(dragging) && startX == old(startX) && startY == old(startY)
    {
      if !transitionPending {
        return;
      }
      transitionPending := false;
      UpdateDisplay();
      transitionImage := None;
      isTransitioning := false;
    }

    /** `debouncedNextImage` / `debouncedPreviousImage`: outside a
        transition, (re)arm the 100 ms timer for a step in direction `d`. */
    method DebouncedMove(d: Direction)
      requires Valid()
      modifies this
      ensures Valid()
      ensures pendingMove == (if old(isTransitioning) then old(pendingMove) else Some(d))
      ensures character == old(character) && currentImageIndex == old(currentImageIndex)
      ensures isTransitioning == old(isTransitioning) && transitionPending == old(transitionPending)
      ensures transitionImage == old(transitionImage) && slots == old(slots)
      ensures dragging == old(dragging) && startX == old(startX) && startY == old(startY)
    {
      if isTransitioning {
        return;
      }
      pendingMove := Some(d);
    }

    /** Expiry of the 100 ms debounce timer: the step it was armed for. */
    method FireDebounce()
      requires Valid()
      modifies this
      ensures Valid() && pendingMove == None && character == old(character)
      ensures old(pendingMove).Some? && !old(isTransitioning) && old(Count()) > 0 ==>
                currentImageIndex == Step(old(pendingMove).value, old(currentImageIndex), Count()) && isTransitioning
                && transitionPending && transitionImage == Some(TransitionIndex(old(pendingMove).value, currentImageIndex, Count()))
      ensures old(pendingMove).None? || old(isTransitioning) || old(Count()) == 0 ==>
                currentImageIndex == old(currentImageIndex) && isTransitioning == old(isTransitioning)
                && transitionPending == old(transitionPending) && transitionImage == old(transitionImage)
      ensures slots == old(slots) && dragging == old(dragging) && startX == old(startX) && startY == old(startY)
    {
      if pendingMove.None? {
        return;
      }
      var d := pendingMove.value;
      pendingMove := None;
      Move(d);
    }

    /** The carousel's key handler: with a character and outside a
        transition, ArrowLeft arms a backward and ArrowRight a forward step. */
    method HandleKeydown(key: string)
      requires Valid()
      modifies this
      ensures Valid()
      ensures character.Some? && !isTransitioning && key == "ArrowLeft" ==> pendingMove == Some(Prev)
      ensures character.Some? && !isTransitioning && key == "ArrowRight" ==> pendingMove == Some(Next)
      ensures character.None? || isTransitioning || (key != "ArrowLeft" && key != "ArrowRight") ==>
                pendingMove == old(pendingMove)
      ensures character == old(character) && currentImageIndex == old(currentImageIndex)
      ensures dragging == old(dragging) && startX == old(startX) && startY == old(startY)
      ensures isTransitioning == old(isTransitioning) && slots == old(slots)
      ensures transitionPending == old(transitionPending) && transitionImage == old(transitionImage)
    {
      if character.None? || isTransitioning {
        return;
      }
      if key == "ArrowLeft" {
        DebouncedMove(Prev);
      } else if key == "ArrowRight" {
        DebouncedMove(Next);
      }
    }

    /** A click on a slot image: outside a transition, the middle slot
        opens the current image (the answer is the index handed to the
        click callback) and the side slots arm a step towards themselves. */
    method SlotClick(position: int) returns (openedIndex: Option<int>)
      requires Valid() && 0 <= position < |slots|
      modifies this
      ensures Valid()
      ensures openedIndex.Some? <==> !isTransitioning && position == 1
      ensures openedIndex.Some? ==> openedIndex.value == currentImageIndex && 0 <= openedIndex.value < Count()
      ensures !isTransitioning && position == 0 ==> pendingMove == Some(Prev)
      ensures !isTransitioning && position == 2 ==> pendingMove == Some(Next)
      ensures isTransitioning || position == 1 ==> pendingMove == old(pendingMove)
      ensures character == old(character) && currentImageIndex == old(currentImageIndex)
      ensures dragging == old(dragging) && startX == old(startX) && startY == old(startY)
      ensures isTransitioning == old(isTransitioning) && slots == old(slots)
      ensures transitionPending == old(transitionPending) && transitionImage == old(transitionImage)
    {
      openedIndex := None;
      if isTransitioning {
        return;
      }
      if position == 1 {
        openedIndex := Some(slots[1]);
      } else if position == 0 {
        DebouncedMove(Prev);
      } else if position == 2 {
        DebouncedMove(Next);
      }
    }

    /** `touchstart`: outside a transition, record the start point. */
    method TouchStart(x: real, y: real)
      requires Valid()
      modifies this
      ensures Valid()
      ensures old(isTransitioning) ==> dragging == old(dragging) && startX == old(startX) && startY == old(startY)
      ensures !old(isTransitioning) ==> dragging && startX == x && startY == y
      ensures character == old(character) && currentImageIndex == old(currentImageIndex)
      ensures isTransitioning == old(isTransitioning) && pendingMove == old(pendingMove) && slots == old(slots)
      ensures transitionPending == old(transitionPending) && transitionImage == old(transitionImage)
    {
      if isTransitioning {
        return;
      }
      startX := x;
      startY := y;
      dragging := true;
    }

    /** `touchend`: a drag with a character, outside a transition, arms a
        step when it is a swipe (mostly horizontal and longer than 30 px);
        the drag ends in every case. */
    method TouchEnd(x: real, y: real)
      requires Valid()
      modifies this
      ensures Valid() && !dragging
      ensures var swipe := Swipe(old(startX) - x, old(startY) - y, SwipeThreshold);
              if old(dragging) && character.Some? && !isTransitioning && swipe.Some?
              then pendingMove == swipe
              else pendingMove == old(pendingMove)
      ensures character == old(character) && currentImageIndex == old(currentImageIndex)
      ensures startX == old(startX) && startY == old(startY)
      ensures isTransitioning == old(isTransitioning) && slots == old(slots)
      ensures transitionPending == old(transitionPending) && transitionImage == old(transitionImage)
    {
      if !dragging || character.None? || isTransitioning {
        dragging := false;
        return;
      }
      var swipe := Swipe(startX - x, startY - y, SwipeThreshold);
      if swipe.Some? {
        DebouncedMove(swipe.value);
      }
      dragging := false;
    }

    /** `getCurrentImage`: none without a character or without images. */
    function GetCurrentImage(): (r: Option<CharacterImage>)
      requires Valid()
      reads this
      ensures r.None? <==> character.None? || |character.value.images| == 0
      ensures r.Some? ==> r.value == character.value.images[currentImageIndex]
      ensures r.Some? ==> r.value in character.value.images
    {
      if character.None? || |character.value.images| == 0 then None
      else Some(character.value.images[currentImageIndex])
    }
  }
}
