/** The gallery query store: multilingual search text, the search / character /
    image-type filter chain over a read-only image catalogue, match counts,
    id and index lookups, and the state machine that saves the character and
    type selection when a search starts and restores it when it is cleared. */
module AppStore {
  import opened Seqs
  import opened JsText

  /** A text given in the three site languages. */
  datatype I18nText = I18nText(en: string, zh: string, jp: string)

  /** What the searchable-text flattening can be handed: a plain string,
      a multilingual record, or a missing / non-object value. */
  datatype TextValue = Plain(s: string) | Multilingual(t: I18nText) | Absent

  /** A tag of the catalogue, with its display name. */
  datatype ImageTag = ImageTag(id: string, name: I18nText)

  /** An image of the catalogue. `tags` holds tag ids, `characters` character
      ids and `types` image-type ids. */
  datatype GalleryImage = GalleryImage(
    id: string,
    name: TextValue,
    description: TextValue,
    artist: TextValue,
    tags: seq<string>,
    characters: seq<string>,
    types: seq<string>)

  /** The read-only catalogue: images, tags, the image-type ids and the character ids. */
  datatype Catalogue = Catalogue(
    images: seq<GalleryImage>,
    tags: seq<ImageTag>,
    imageTypes: seq<string>,
    characterIds: seq<string>)

  /** The store's own fields. `previousCharacterId` and `previousImageType`
      hold the selection saved when a search started ("" when none is saved). */
  datatype StoreState = StoreState(
    searchQuery: string,
    selectedCharacterId: string,
    selectedImageType: string,
    previousCharacterId: string,
    previousImageType: string)

  const All: string := "all"

  // ---------------------------------------------------------------- search text

  /** The three languages in declaration order, separated by single spaces. */
  function Joined(t: I18nText): string {
    t.en + " " + t.zh + " " + t.jp
  }

  /** Flattens a value into lower-case searchable text: a string is lower-cased,
      a multilingual record becomes its space-joined languages lower-cased, and
      anything else becomes the empty string. */
  function SearchableText(v: TextValue): (r: string)
    ensures IsLower(r)
    ensures v.Absent? ==> r == []
    ensures v.Plain? ==> |r| == |v.s|
    ensures v.Multilingual? ==> r == ToLower(v.t.en) + " " + ToLower(v.t.zh) + " " + ToLower(v.t.jp)
  {
    match v
    case Plain(s) =>
      ToLowerIsLower(s);
      ToLower(s)
    case Multilingual(t) =>
      ToLowerIsLower(Joined(t));
      ToLowerConcat(t.en + " " + t.zh + " ", t.jp);
      ToLowerConcat(t.en + " " + t.zh, " ");
      ToLowerConcat(t.en + " ", t.zh);
      ToLowerConcat(t.en, " ");
      ToLower(Joined(t))
    case Absent => []
  }

  /** `b` is part of `a + b + c`, so everything `b` includes, `a + b + c` includes. */
  lemma IncludesWithin(a: string, b: string, c: string, q: string)
    requires Includes(b, q)
    ensures Includes(a + b + c, q)
  {
    var j :| 0 <= j <= |b| - |q| && OccursAt(b, q, j);
    var s := a + b + c;
    assert OccursAt(s, q, |a| + j) by {
      assert s[|a| + j..|a| + j + |q|] == b[j..j + |q|];
    }
  }

  /** A query found in any one language of a multilingual text is found in
      its flattened searchable text. */
  lemma SearchableTextCoversEachLanguage(t: I18nText, q: string)
    ensures Includes(ToLower(t.en), q) || Includes(ToLower(t.zh), q) || Includes(ToLower(t.jp), q)
            ==> Includes(SearchableText(Multilingual(t)), q)
  {
    var en, zh, jp := ToLower(t.en), ToLower(t.zh), ToLower(t.jp);
    var r := SearchableText(Multilingual(t));
    assert r == en + (" " + zh + " " + jp);
    assert r == (en + " ") + zh + (" " + jp);
    assert r == (en + " " + zh + " ") + jp + [];
    if Includes(en, q) {
      IncludesWithin([], en, " " + zh + " " + jp, q);
      assert [] + en + (" " + zh + " " + jp) == r;
    } else if Includes(zh, q) {
      IncludesWithin(en + " ", zh, " " + jp, q);
    } else if Includes(jp, q) {
      IncludesWithin(en + " " + zh + " ", jp, [], q);
    }
  }

  /** The guard on a missing description: a value is truthy unless it is the
      empty string or missing. */
  predicate Truthy(v: TextValue) {
    match v
    case Plain(s) => s != []
    case Multilingual(_) => true
    case Absent => false
  }

  /** The description's searchable text, empty for a falsy description. */
  function DescriptionText(v: TextValue): (r: string)
    ensures r == SearchableText(v)
  {
    if Truthy(v) then SearchableText(v) else []
  }

  /** The first catalogue tag with the id exists and its flattened name
      includes the lower-cased query. */
  function TagMatches(tags: seq<ImageTag>, tagId: string, lowerQuery: string): (r: bool)
    ensures (forall i :: 0 <= i < |tags| ==> tags[i].id != tagId) ==> !r
    ensures r <==> exists i :: 0 <= i < |tags| && tags[i].id == tagId
                               && (forall j :: 0 <= j < i ==> tags[j].id != tagId)
                               && Includes(SearchableText(Multilingual(tags[i].name)), lowerQuery)
  {
    var k := FindIndex(tags, (t: ImageTag) => t.id == tagId);
    if k < 0 then false
    else
      assert forall i :: 0 <= i < |tags| && tags[i].id == tagId && (forall j :: 0 <= j < i ==> tags[j].id != tagId) ==> i == k by {
        assert forall j :: 0 <= j < k ==> tags[j].id != tagId;
      }
      Includes(SearchableText(Multilingual(tags[k].name)), lowerQuery)
  }

  /** Some tag id the image carries matches the query. */
  predicate AnyTagMatches(tags: seq<ImageTag>, tagIds: seq<string>, lowerQuery: string) {
    exists k | 0 <= k < |tagIds| :: TagMatches(tags, tagIds[k], lowerQuery)
  }

  /** The per-image test of the search filter, on an already lower-cased query. */
  predicate MatchesSearch(tags: seq<ImageTag>, img: GalleryImage, lowerQuery: string) {
    Includes(SearchableText(img.name), lowerQuery)
    || Includes(DescriptionText(img.description), lowerQuery)
    || Includes(SearchableText(img.artist), lowerQuery)
    || AnyTagMatches(tags, img.tags, lowerQuery)
  }

  /** The images whose name, description, artist or some tag name contains
      the lower-cased query, in catalogue order. */
  function FilterImagesBySearch(images: seq<GalleryImage>, tags: seq<ImageTag>, query: string): (r: seq<GalleryImage>)
    ensures |r| <= |images|
    ensures forall i :: 0 <= i < |r| ==> r[i] in images && MatchesSearch(tags, r[i], ToLower(query))
    ensures forall i :: 0 <= i < |images| && MatchesSearch(tags, images[i], ToLower(query)) ==> images[i] in r
  {
    Filter(images, (img: GalleryImage) => MatchesSearch(tags, img, ToLower(query)))
  }

  /** An image carrying only tag ids unknown to the catalogue is found only
      through its name, description or artist. */
  lemma UnknownTagsNeverMatch(tags: seq<ImageTag>, img: GalleryImage, lowerQuery: string)
    requires forall k, i :: 0 <= k < |img.tags| && 0 <= i < |tags| ==> tags[i].id != img.tags[k]
    ensures MatchesSearch(tags, img, lowerQuery)
            <==> Includes(SearchableText(img.name), lowerQuery)
                 || Includes(SearchableText(img.description), lowerQuery)
                 || Includes(SearchableText(img.artist), lowerQuery)
  {
    forall k | 0 <= k < |img.tags| ensures !TagMatches(tags, img.tags[k], lowerQuery) {
      assert forall i :: 0 <= i < |tags| ==> tags[i].id != img.tags[k];
    }
  }

  // ------------------------------------------------------------ filter chain

  /** `isSearching`: the trimmed query is not empty. */
  function IsSearching(query: string): (r: bool)
    ensures r <==> exists i :: 0 <= i < |query| && !IsWhiteSpace(query[i])
  {
    TrimSpec(query);
    if Trim(query) != [] then
      assert !AllWhiteSpace(query);
      true
    else
      assert AllWhiteSpace(query);
      false
  }

  /** The image passes the search stage of the filter chain. */
  predicate SearchOk(cat: Catalogue, query: string, img: GalleryImage) {
    Trim(query) == [] || MatchesSearch(cat.tags, img, ToLower(Trim(query)))
  }

  /** The image passes the character stage. */
  predicate CharacterOk(characterId: string, img: GalleryImage) {
    characterId == All || characterId in img.characters
  }

  /** The image passes the type stage. */
  predicate TypeOk(typeId: string, img: GalleryImage) {
    typeId == All || typeId in img.types
  }

  /** The search stage followed by the character stage, shared by the shown
      list and the type counts. */
  function SearchedForCharacter(cat: Catalogue, query: string, characterId: string): (r: seq<GalleryImage>)
    ensures |r| <= |cat.images|
    ensures characterId != All ==> forall i :: 0 <= i < |r| ==> characterId in r[i].characters
    ensures Trim(query) != [] ==> forall i :: 0 <= i < |r| ==> MatchesSearch(cat.tags, r[i], ToLower(Trim(query)))
  {
    var images := if Trim(query) != [] then FilterImagesBySearch(cat.images, cat.tags, Trim(query)) else cat.images;
    if characterId != All then Filter(images, (img: GalleryImage) => characterId in img.characters) else images
  }

  /** `characterImages`: the catalogue images shown for the query, character
      selection and type selection. */
  function CharacterImages(cat: Catalogue, query: string, characterId: string, typeId: string): (r: seq<GalleryImage>)
    ensures |r| <= |cat.images|
    ensures characterId != All ==> forall i :: 0 <= i < |r| ==> characterId in r[i].characters
    ensures typeId != All ==> forall i :: 0 <= i < |r| ==> typeId in r[i].types
    ensures Trim(query) != [] ==> forall i :: 0 <= i < |r| ==> MatchesSearch(cat.tags, r[i], ToLower(Trim(query)))
  {
    var images := SearchedForCharacter(cat, query, characterId);
    if typeId != All then Filter(images, (img: GalleryImage) => typeId in img.types) else images
  }

  /** The image passes all three stages. */
  predicate Shown(cat: Catalogue, query: string, characterId: string, typeId: string, img: GalleryImage) {
    SearchOk(cat, query, img) && CharacterOk(characterId, img) && TypeOk(typeId, img)
  }

  /** A stage that is switched off keeps everything: each stage is a filter by
      its predicate. */
  lemma SearchStage(cat: Catalogue, query: string)
    ensures (if Trim(query) != [] then FilterImagesBySearch(cat.images, cat.tags, Trim(query)) else cat.images)
            == Filter(cat.images, (img: GalleryImage) => SearchOk(cat, query, img))
  {
    if Trim(query) != [] {
      var p := (img: GalleryImage) => MatchesSearch(cat.tags, img, ToLower(Trim(query)));
      var q := (img: GalleryImage) => SearchOk(cat, query, img);
      assert A: FilterImagesBySearch(cat.images, cat.tags, Trim(query)) == Filter(cat.images, p);
      assert B: forall i :: 0 <= i < |cat.images| ==> p(cat.images[i]) == q(cat.images[i]);
      FilterCongruent(cat.images, p, q);
    } else {
      forall i | 0 <= i < |cat.images| ensures SearchOk(cat, query, cat.images[i]) {
      }
      FilterAll(cat.images, (img: GalleryImage) => SearchOk(cat, query, img));
    }
  }

  lemma CharacterStage(images: seq<GalleryImage>, characterId: string)
    ensures (if characterId != All then Filter(images, (img: GalleryImage) => characterId in img.characters) else images)
            == Filter(images, (img: GalleryImage) => CharacterOk(characterId, img))
  {
    if characterId != All {
      FilterCongruent(images, (img: GalleryImage) => characterId in img.characters, (img: GalleryImage) => CharacterOk(characterId, img));
    } else {
      FilterAll(images, (img: GalleryImage) => CharacterOk(characterId, img));
    }
  }

  lemma TypeStage(images: seq<GalleryImage>, typeId: string)
    ensures (if typeId != All then Filter(images, (img: GalleryImage) => typeId in img.types) else images)
            == Filter(images, (img: GalleryImage) => TypeOk(typeId, img))
  {
    if typeId != All {
      FilterCongruent(images, (img: GalleryImage) => typeId in img.types, (img: GalleryImage) => TypeOk(typeId, img));
    } else {
      FilterAll(images, (img: GalleryImage) => TypeOk(typeId, img));
    }
  }

  /** The search and character stages together are one filter by the
      conjunction of their predicates. */
  lemma SearchedForCharacterIsOneFilter(cat: Catalogue, query: string, characterId: string)
    ensures SearchedForCharacter(cat, query, characterId)
            == Filter(cat.images, (img: GalleryImage) => SearchOk(cat, query, img) && CharacterOk(characterId, img))
  {
    var p1 := (img: GalleryImage) => SearchOk(cat, query, img);
    var p2 := (img: GalleryImage) => CharacterOk(characterId, img);
    var p12 := (img: GalleryImage) => SearchOk(cat, query, img) && CharacterOk(characterId, img);
    SearchStage(cat, query);
    CharacterStage(Filter(cat.images, p1), characterId);
    forall i | 0 <= i < |cat.images| ensures p12(cat.images[i]) == (p1(cat.images[i]) && p2(cat.images[i])) {
    }
    FilterFilter(cat.images, p1, p2, p12);
  }

  /** The filter chain is one filter of the catalogue by the conjunction of
      its stages; hence the shown list is an order-preserving subsequence of
      the catalogue holding exactly the images that pass every stage. */
  lemma CharacterImagesIsOneFilter(cat: Catalogue, query: string, characterId: string, typeId: string)
    ensures CharacterImages(cat, query, characterId, typeId)
            == Filter(cat.images, (img: GalleryImage) => Shown(cat, query, characterId, typeId, img))
    ensures IsSubsequence(CharacterImages(cat, query, characterId, typeId), cat.images)
  {
    var p12 := (img: GalleryImage) => SearchOk(cat, query, img) && CharacterOk(characterId, img);
    var p3 := (img: GalleryImage) => TypeOk(typeId, img);
    var shown := (img: GalleryImage) => Shown(cat, query, characterId, typeId, img);
    var searched := Filter(cat.images, p12);
    assert CharacterImages(cat, query, characterId, typeId) == Filter(searched, p3) by {
      SearchedForCharacterIsOneFilter(cat, query, characterId);
      TypeStage(searched, typeId);
    }
    assert Filter(searched, p3) == Filter(cat.images, shown) by {
      forall i | 0 <= i < |cat.images| ensures shown(cat.images[i]) == (p12(cat.images[i]) && p3(cat.images[i])) {
      }
      FilterFilter(cat.images, p12, p3, shown);
    }
    FilterIsSubsequence(cat.images, shown);
  }

  /** While searching with the character and type set to "all", the shown list
      is exactly the search result over the whole catalogue. */
  lemma SearchingAllShowsSearchResult(cat: Catalogue, query: string)
    requires Trim(query) != []
    ensures CharacterImages(cat, query, All, All) == FilterImagesBySearch(cat.images, cat.tags, Trim(query))
  {
  }

  // ------------------------------------------------------------------ counts

  /** The number of images of `images` that have the type. */
  function TypeCount(images: seq<GalleryImage>, typeId: string): (r: nat)
    ensures r <= |images|
  {
    |Filter(images, (img: GalleryImage) => typeId in img.types)|
  }

  /** Counting a type after the search and character stages counts the
      images shown for that type; the "all" count is the number shown for
      "all". */
  lemma TypeCountIsShownCount(cat: Catalogue, query: string, characterId: string, typeId: string)
    ensures typeId == All ==> |SearchedForCharacter(cat, query, characterId)| == |CharacterImages(cat, query, characterId, All)|
    ensures typeId != All ==> TypeCount(SearchedForCharacter(cat, query, characterId), typeId)
                              == |CharacterImages(cat, query, characterId, typeId)|
  {
  }

  /** The counting loop of `imageTypeCounts` over the images that passed the
      search and character stages: one entry per listed type, then "all" set
      to the number of images. */
  method CountTypes(images: seq<GalleryImage>, types: seq<string>) returns (counts: map<string, nat>)
    ensures forall t :: t in counts <==> t in types || t == All
    ensures counts[All] == |images|
    ensures forall t :: t in types && t != All ==> counts[t] == TypeCount(images, t)
    ensures forall t :: t in counts ==> counts[t] <= counts[All]
  {
    counts := map[All := 0];
    var k := 0;
    while k < |types|
      invariant 0 <= k <= |types|
      invariant forall t :: t in counts <==> t in types[..k] || t == All
      invariant forall j :: 0 <= j < k ==> counts[types[j]] == TypeCount(images, types[j])
      invariant forall t :: t in counts ==> counts[t] <= |images|
    {
      counts := counts[types[k] := TypeCount(images, types[k])];
      k := k + 1;
    }
    counts := counts[All := |images|];
  }

  /** `imageTypeCounts`: for every image type the number of images of that
      type among those passing the search and character stages, and under
      "all" the number of those images. */
  method ImageTypeCounts(cat: Catalogue, query: string, characterId: string) returns (counts: map<string, nat>)
    ensures forall t :: t in counts <==> t in cat.imageTypes || t == All
    ensures counts[All] == |SearchedForCharacter(cat, query, characterId)|
    ensures forall t :: t in cat.imageTypes && t != All ==>
              counts[t] == TypeCount(SearchedForCharacter(cat, query, characterId), t)
    ensures forall t :: t in counts ==> counts[t] <= counts[All]
  {
    counts := CountTypes(SearchedForCharacter(cat, query, characterId), cat.imageTypes);
  }

  /** `getCharacterMatchCount`: the whole catalogue size without a search;
      otherwise the number of search matches, restricted to the character
      unless it is "all". */
  function CharacterMatchCount(cat: Catalogue, query: string, characterId: string): (r: nat)
    ensures Trim(query) == [] ==> r == |cat.images|
    ensures Trim(query) != [] ==> r == |CharacterImages(cat, query, characterId, All)|
    ensures Trim(query) != [] ==> r <= |FilterImagesBySearch(cat.images, cat.tags, Trim(query))|
    ensures r <= |cat.images|
  {
    if Trim(query) == [] then |cat.images|
    else
      var filteredImages := FilterImagesBySearch(cat.images, cat.tags, Trim(query));
      if characterId == All then |filteredImages|
      else |Filter(filteredImages, (img: GalleryImage) => characterId in img.characters)|
  }

  // ----------------------------------------------------------------- lookups

  /** `getImageById`: the first catalogue image with that id. */
  function ImageById(cat: Catalogue, id: string): (r: Option<GalleryImage>)
    ensures r.None? <==> forall i :: 0 <= i < |cat.images| ==> cat.images[i].id != id
    ensures r.Some? ==> r.value in cat.images && r.value.id == id
    ensures r.Some? ==> exists k :: 0 <= k < |cat.images| && cat.images[k] == r.value
                                    && forall i :: 0 <= i < k ==> cat.images[i].id != id
  {
    Find(cat.images, (img: GalleryImage) => img.id == id)
  }

  /** The list the index lookups work on. */
  function ShownImages(cat: Catalogue, st: StoreState): seq<GalleryImage> {
    CharacterImages(cat, st.searchQuery, st.selectedCharacterId, st.selectedImageType)
  }

  /** `getImageIndexById`: the first index of the shown list holding that id, or -1. */
  function ImageIndexById(cat: Catalogue, st: StoreState, id: string): (r: int)
    ensures -1 <= r < |ShownImages(cat, st)|
    ensures r == -1 <==> forall i :: 0 <= i < |ShownImages(cat, st)| ==> ShownImages(cat, st)[i].id != id
    ensures r >= 0 ==> ShownImages(cat, st)[r].id == id
                       && forall i :: 0 <= i < r ==> ShownImages(cat, st)[i].id != id
  {
    FindIndex(ShownImages(cat, st), (img: GalleryImage) => img.id == id)
  }

  /** `getImageByIndex`: the shown image at that index, nothing outside the list. */
  function ImageByIndex(cat: Catalogue, st: StoreState, index: int): (r: Option<GalleryImage>)
    ensures r.None? <==> !(0 <= index < |ShownImages(cat, st)|)
    ensures r.Some? ==> r.value == ShownImages(cat, st)[index]
  {
    var images := ShownImages(cat, st);
    if index < 0 || index >= |images| then None else Some(images[index])
  }

  /** Looking an id up by index and then the index up again gives the same id;
      an index into the list whose id first occurs there comes back unchanged. */
  lemma IndexLookupsCompose(cat: Catalogue, st: StoreState, id: string, index: int)
    ensures ImageIndexById(cat, st, id) >= 0 ==>
              ImageByIndex(cat, st, ImageIndexById(cat, st, id)) == Some(ShownImages(cat, st)[ImageIndexById(cat, st, id)])
              && ImageByIndex(cat, st, ImageIndexById(cat, st, id)).value.id == id
    ensures ImageByIndex(cat, st, index).Some?
            && (forall i :: 0 <= i < index ==> ShownImages(cat, st)[i].id != ImageByIndex(cat, st, index).value.id)
            ==> ImageIndexById(cat, st, ImageByIndex(cat, st, index).value.id) == index
  {
  }

  // ---------------------------------------------------- search snapshot machine

  /** `setSearchQuery`: store the query; a non-blank query with no saved
      selection saves the current one and switches to "all"; a blank query
      restores whatever was saved and forgets it. */
  function SetQuery(st: StoreState, query: string): (r: StoreState)
    ensures r.searchQuery == query
    ensures IsSearching(query) && st.previousCharacterId != [] ==> r == st.(searchQuery := query)
    ensures IsSearching(query) && st.previousCharacterId == [] ==>
              r.previousCharacterId == st.selectedCharacterId && r.previousImageType == st.selectedImageType
              && r.selectedCharacterId == All && r.selectedImageType == All
    ensures !IsSearching(query) ==> r.previousCharacterId == [] && r.previousImageType == []
    ensures !IsSearching(query) && st.previousCharacterId != [] ==> r.selectedCharacterId == st.previousCharacterId
    ensures !IsSearching(query) && st.previousImageType != [] ==> r.selectedImageType == st.previousImageType
    ensures !IsSearching(query) && st.previousCharacterId == [] ==> r.selectedCharacterId == st.selectedCharacterId
    ensures !IsSearching(query) && st.previousImageType == [] ==> r.selectedImageType == st.selectedImageType
  {
    var st := st.(searchQuery := query);
    if Trim(query) != [] then
      if st.previousCharacterId == [] then
        st.(previousCharacterId := st.selectedCharacterId, previousImageType := st.selectedImageType,
            selectedCharacterId := All, selectedImageType := All)
      else st
    else
      var st := if st.previousCharacterId != [] then
                  st.(selectedCharacterId := st.previousCharacterId, previousCharacterId := [])
                else st;
      if st.previousImageType != [] then
        st.(selectedImageType := st.previousImageType, previousImageType := [])
      else st
  }

  /** `clearSearch`. */
  function Cleared(st: StoreState): (r: StoreState)
    ensures r.searchQuery == [] && !IsSearching(r.searchQuery)
    ensures r.previousCharacterId == [] && r.previousImageType == []
  {
    SetQuery(st, [])
  }

  /** The state after typing each query of `queries` in turn. */
  function TypeQueries(st: StoreState, queries: seq<string>): StoreState
    decreases |queries|
  {
    if queries == [] then st else TypeQueries(SetQuery(st, queries[0]), queries[1..])
  }

  /** Once a non-empty character is saved, further non-blank queries keep the
      saved selection and the "all" selection. */
  lemma {:induction false} SearchingKeepsSnapshot(st: StoreState, queries: seq<string>)
    requires st.previousCharacterId != []
    requires forall i :: 0 <= i < |queries| ==> IsSearching(queries[i])
    ensures TypeQueries(st, queries).previousCharacterId == st.previousCharacterId
    ensures TypeQueries(st, queries).previousImageType == st.previousImageType
    ensures TypeQueries(st, queries).selectedCharacterId == st.selectedCharacterId
    ensures TypeQueries(st, queries).selectedImageType == st.selectedImageType
    decreases |queries|
  {
    if queries != [] {
      SearchingKeepsSnapshot(SetQuery(st, queries[0]), queries[1..]);
    }
  }

  /** Typing any non-empty run of non-blank queries and then clearing the
      search gives back the selection held before the search, provided no
      search was active and both selections are non-empty. */
  lemma SearchThenClearRestores(st: StoreState, queries: seq<string>)
    requires !IsSearching(st.searchQuery)
    requires st.previousCharacterId == [] && st.previousImageType == []
    requires st.selectedCharacterId != [] && st.selectedImageType != []
    requires queries != [] && forall i :: 0 <= i < |queries| ==> IsSearching(queries[i])
    ensures Cleared(TypeQueries(st, queries)) == st.(searchQuery := [])
  {
    var first := SetQuery(st, queries[0]);
    SearchingKeepsSnapshot(first, queries[1..]);
  }

  /** The round trip needs a non-empty character selection: with an empty one
      (no characters in the catalogue) the second keystroke saves "all" over
      it, and clearing then selects "all". */
  lemma EmptySelectionIsNotRestored()
    ensures var st := StoreState([], [], "illustration", [], []);
            Cleared(TypeQueries(st, ["a", "ab"])).selectedCharacterId == All
  {
    var st := StoreState([], [], "illustration", [], []);
    assert !IsWhiteSpace("a"[0]) && !IsWhiteSpace("ab"[0]);
    assert IsSearching("a") && IsSearching("ab");
    assert TypeQueries(st, ["a", "ab"]) == SetQuery(SetQuery(st, "a"), "ab");
  }

  /** Clearing twice is clearing once. */
  lemma ClearedIdempotent(st: StoreState)
    ensures Cleared(Cleared(st)) == Cleared(st)
  {
  }

  /** The initial state: no query, the first character (or ""), type "all". */
  function InitialState(cat: Catalogue): (r: StoreState)
    ensures !IsSearching(r.searchQuery) && r.selectedImageType == All
    ensures r.previousCharacterId == [] && r.previousImageType == []
    ensures r.selectedCharacterId == (if cat.characterIds == [] then [] else cat.characterIds[0])
  {
    StoreState([], if cat.characterIds != [] then cat.characterIds[0] else [], All, [], [])
  }

  /** The store object: the catalogue plus the five string fields. */
  class GalleryStore {
    const catalogue: Catalogue
    var searchQuery: string
    var selectedCharacterId: string
    var selectedImageType: string
    var previousCharacterId: string
    var previousImageType: string

    function State(): StoreState
      reads this
    {
      StoreState(searchQuery, selectedCharacterId, selectedImageType, previousCharacterId, previousImageType)
    }

    constructor (cat: Catalogue)
      ensures catalogue == cat && State() == InitialState(cat)
    {
      catalogue := cat;
      searchQuery := [];
      selectedCharacterId := if cat.characterIds != [] then cat.characterIds[0] else [];
      selectedImageType := All;
      previousCharacterId := [];
      previousImageType := [];
    }

    /** `setSearchQuery`. */
    method SetSearchQuery(query: string)
      modifies this
      ensures State() == SetQuery(old(State()), query)
    {
      searchQuery := query;
      if Trim(query) != [] {
        if previousCharacterId == [] {
          previousCharacterId := selectedCharacterId;
          previousImageType := selectedImageType;
          selectedCharacterId := All;
          selectedImageType := All;
        }
      } else {
        if previousCharacterId != [] {
          selectedCharacterId := previousCharacterId;
          previousCharacterId := [];
        }
        if previousImageType != [] {
          selectedImageType := previousImageType;
          previousImageType := [];
        }
      }
    }

    /** `clearSearch`: an empty query, which restores the saved selection. */
    method ClearSearch()
      modifies this
      ensures State() == Cleared(old(State()))
    {
      SetSearchQuery([]);
    }
  }
}
