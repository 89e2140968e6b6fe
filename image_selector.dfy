/** The image selector modal: the images of one character, filtered by a
    lowercased search over name and description, each card remembering the
    image's position in the full list. */
module Picker {
  import opened Seqs
  import opened JsText
  import opened SiteData

  /** A card of the modal: the image and its index in the character's list. */
  datatype ImageCard = ImageCard(image: CharacterImage, originalIndex: int)

  /** The search predicate: an empty term keeps every image; otherwise the
      lowercased name or description contains the term. */
  predicate ImageMatches(image: CharacterImage, term: string) {
    term == [] || Includes(ToLower(image.name), term) || Includes(ToLower(image.description), term)
  }

  /** The images listed, in the character's order. */
  function FilterImages(images: seq<CharacterImage>, term: string): (r: seq<CharacterImage>)
    ensures |r| <= |images|
    ensures forall i :: 0 <= i < |r| ==> r[i] in images && ImageMatches(r[i], term)
    ensures forall i :: 0 <= i < |images| && ImageMatches(images[i], term) ==> images[i] in r
  {
    Filter(images, (img: CharacterImage) => ImageMatches(img, term))
  }

  /** The listed images keep their order, and an empty term lists them all. */
  lemma FilterImagesSpec(images: seq<CharacterImage>, term: string)
    ensures IsSubsequence(FilterImages(images, term), images)
    ensures term == [] ==> FilterImages(images, term) == images
  {
    FilterIsSubsequence(images, (img: CharacterImage) => ImageMatches(img, term));
    if term == [] {
      FilterAll(images, (img: CharacterImage) => ImageMatches(img, term));
    }
  }

  /** The cards: every listed image with `indexOf` of it in the full list. */
  function ModalCards(images: seq<CharacterImage>, term: string): (r: seq<ImageCard>)
    ensures |r| == |FilterImages(images, term)|
    ensures forall k :: 0 <= k < |r| ==> r[k].image == FilterImages(images, term)[k]
    ensures forall k :: 0 <= k < |r| ==>
              0 <= r[k].originalIndex < |images| && images[r[k].originalIndex] == r[k].image
              && r[k].image !in images[..r[k].originalIndex]
  {
    var filtered := FilterImages(images, term);
    seq(|filtered|, k requires 0 <= k < |filtered| => ImageCard(filtered[k], IndexOf(images, filtered[k])))
  }

  /** The count line: the number of cards and the number of images. */
  function ImageCount(images: seq<CharacterImage>, term: string): (r: (nat, nat))
    ensures r.0 <= r.1 && r.1 == |images|
    ensures r.0 == |ModalCards(images, term)|
  {
    (|FilterImages(images, term)|, |images|)
  }

  class ImageSelector {
    var currentCharacter: Option<Character>
    var viewMode: ViewMode
    var searchTerm: string

    constructor ()
      ensures currentCharacter == None && viewMode == Grid && searchTerm == []
    {
      currentCharacter := None;
      viewMode := Grid;
      searchTerm := [];
    }

    /** `show`: the character's images with an empty search. */
    method Show(c: Character)
      modifies this
      ensures currentCharacter == Some(c) && searchTerm == [] && viewMode == old(viewMode)
      ensures Cards() == ModalCards(c.images, []) && |Cards()| == |c.images|
    {
      currentCharacter := Some(c);
      searchTerm := [];
      FilterImagesSpec(c.images, []);
    }

    /** `switchModalView`. */
    method SwitchModalView(mode: ViewMode)
      modifies this
      ensures viewMode == mode
      ensures currentCharacter == old(currentCharacter) && searchTerm == old(searchTerm)
    {
      viewMode := mode;
    }

    /** The search input: the term is the lowercased input. */
    method SetSearchInput(value: string)
      modifies this
      ensures searchTerm == ToLower(value) && IsLower(searchTerm)
      ensures currentCharacter == old(currentCharacter) && viewMode == old(viewMode)
    {
      searchTerm := ToLower(value);
      ToLowerIsLower(value);
    }

    /** The cards on display: none without a character. */
    function Cards(): (r: seq<ImageCard>)
      reads this
      ensures currentCharacter.None? ==> r == []
      ensures currentCharacter.Some? ==> r == ModalCards(currentCharacter.value.images, searchTerm)
    {
      if currentCharacter.None? then [] else ModalCards(currentCharacter.value.images, searchTerm)
    }
  }
}
