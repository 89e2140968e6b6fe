/** The character selector: the active character among the site's
    characters, changed by tabs, keys, next/previous and the cards of the
    expandable modal, whose list is filtered by a lowercased name search. */
module Selector {
  import opened Seqs
  import opened JsText
  import opened SiteData
  import opened Navigation

  /** Where a card selection was requested from: the main page closes the
      modal after a selection, the fullscreen viewer keeps it open. */
  datatype SelectionContext = MainPage | FullscreenPage

  /** The position of the character with id `id`, or -1. */
  function IndexOfId(characters: seq<Character>, id: string): (r: int)
    ensures -1 <= r < |characters|
    ensures r == -1 <==> forall i :: 0 <= i < |characters| ==> characters[i].id != id
    ensures r >= 0 ==> characters[r].id == id && forall i :: 0 <= i < r ==> characters[i].id != id
  {
    FindIndex(characters, (c: Character) => c.id == id)
  }

  /** The index a key moves to from `i` among `n` characters: the arrows
      step with wrap-around, Home goes to the first and End to the last;
      any other key stays. */
  function KeyTarget(key: string, i: int, n: int): (r: int)
    requires 0 <= i < n
    ensures 0 <= r < n
    ensures key == "ArrowLeft" || key == "ArrowUp" ==> r == WrapPrev(i, n)
    ensures key == "ArrowRight" || key == "ArrowDown" ==> r == WrapNext(i, n)
    ensures key == "Home" ==> r == 0
    ensures key == "End" ==> r == n - 1
    ensures key !in {"ArrowLeft", "ArrowUp", "ArrowRight", "ArrowDown", "Home", "End"} ==> r == i
  {
    if key == "ArrowLeft" || key == "ArrowUp" then JsRem(i - 1 + n, n)
    else if key == "ArrowRight" || key == "ArrowDown" then JsRem(i + 1, n)
    else if key == "Home" then 0
    else if key == "End" then n - 1
    else i
  }

  /** Left then right, or up then down, comes back to the same character. */
  lemma KeysUndo(i: int, n: int)
    requires 0 <= i < n
    ensures KeyTarget("ArrowRight", KeyTarget("ArrowLeft", i, n), n) == i
    ensures KeyTarget("ArrowUp", KeyTarget("ArrowDown", i, n), n) == i
  {
    StepUndone(Prev, i, n);
    StepUndone(Next, i, n);
  }

  /** The search predicate of the modal: the lowercased name contains the term. */
  predicate NameMatches(c: Character, term: string) {
    Includes(ToLower(c.name), term)
  }

  /** The characters listed in the modal, in site order. */
  function ModalCharacters(characters: seq<Character>, term: string): (r: seq<Character>)
    ensures |r| <= |characters|
    ensures forall i :: 0 <= i < |r| ==> r[i] in characters && NameMatches(r[i], term)
    ensures forall i :: 0 <= i < |characters| && NameMatches(characters[i], term) ==> characters[i] in r
  {
    Filter(characters, (c: Character) => NameMatches(c, term))
  }

  /** The modal list keeps the site order, and an empty term lists every
      character. */
  lemma ModalCharactersSpec(characters: seq<Character>, term: string)
    ensures IsSubsequence(ModalCharacters(characters, term), characters)
    ensures term == [] ==> ModalCharacters(characters, term) == characters
  {
    FilterIsSubsequence(characters, (c: Character) => NameMatches(c, term));
    if term == [] {
      forall i | 0 <= i < |characters| ensures NameMatches(characters[i], term) {
        assert OccursAt(ToLower(characters[i].name), term, 0);
      }
      FilterAll(characters, (c: Character) => NameMatches(c, term));
    }
  }

  /** Characters whose names the modal's search tells apart: "Ax" matches
      the term "x" and "B" does not. */
  const StaleExample: seq<Character> := [Character("a", "Ax", []), Character("b", "B", [])]

  /** After a search for "x" the grid lists only "Ax"; an empty search lists
      both characters. */
  lemma StaleCardsExample()
    ensures ModalCharacters(StaleExample, "x") == [StaleExample[0]]
    ensures ModalCharacters(StaleExample, []) == StaleExample
  {
    assert NameMatches(StaleExample[0], "x") by {
      assert ToLower("Ax") == "ax";
      assert OccursAt("ax", "x", 1);
    }
    assert !NameMatches(StaleExample[1], "x") by {
      assert ToLower("B") == "b";
      assert "b"[0..1][0] != "x"[0];
    }
    assert Filter(StaleExample[1..], (c: Character) => NameMatches(c, "x")) == [] by {
      assert StaleExample[1..][1..] == [];
    }
    ModalCharactersSpec(StaleExample, []);
  }

  class CharacterSelector {
    const characters: seq<Character>
    var currentCharacterId: string
    var searchTerm: string
    var isExpanded: bool
    var viewMode: ViewMode
    var selectionContext: SelectionContext
    /** Whether `setCharacterChangeCallback` has registered a change callback. */
    var hasChangeCallback: bool
    /** Whether `setCharacterSelectionCallback` has registered a selection callback. */
    var hasSelectionCallback: bool
    /** The term the modal grid was last rendered from by
        `updateModalCharacters`; none before the first rendering, when the
        grid is empty. */
    var renderedTerm: Option<string>
    /** The ids handed to the change callback, oldest first. */
    var changes: seq<string>
    /** The ids handed to the selection callback, oldest first. */
    var selections: seq<string>

    /** `init`: select the first character, if there is one. No callback
        is registered yet, so nothing is reported. */
    constructor (cs: seq<Character>)
      ensures characters == cs && searchTerm == [] && !isExpanded && viewMode == Grid && selectionContext == MainPage
      ensures currentCharacterId == (if cs != [] then cs[0].id else [])
      ensures !hasChangeCallback && !hasSelectionCallback && renderedTerm == None
      ensures changes == [] && selections == []
    {
      characters := cs;
      currentCharacterId := [];
      searchTerm := [];
      isExpanded := false;
      viewMode := Grid;
      selectionContext := MainPage;
      hasChangeCallback := false;
      hasSelectionCallback := false;
      renderedTerm := None;
      changes := [];
      selections := [];
      new;
      if |cs| > 0 {
        SetActiveCharacter(cs[0].id);
      }
    }

    /** `setCharacterChangeCallback`: later changes are reported. */
    method SetChangeCallback()
      modifies this
      ensures hasChangeCallback
      ensures currentCharacterId == old(currentCharacterId) && changes == old(changes)
      ensures hasSelectionCallback == old(hasSelectionCallback) && selections == old(selections)
      ensures searchTerm == old(searchTerm) && isExpanded == old(isExpanded) && renderedTerm == old(renderedTerm)
      ensures viewMode == old(viewMode) && selectionContext == old(selectionContext)
    {
      hasChangeCallback := true;
    }

    /** `setActiveCharacter`: selecting the current id does nothing;
        another id becomes current and is reported once to the change
        callback when one is registered. */
    method SetActiveCharacter(id: string)
      modifies this
      ensures id == old(currentCharacterId) ==> currentCharacterId == old(currentCharacterId) && changes == old(changes)
      ensures id != old(currentCharacterId) ==> currentCharacterId == id
      ensures id != old(currentCharacterId) && hasChangeCallback ==> changes == old(changes) + [id]
      ensures !hasChangeCallback ==> changes == old(changes)
      ensures searchTerm == old(searchTerm) && isExpanded == old(isExpanded) && viewMode == old(viewMode)
      ensures selectionContext == old(selectionContext) && selections == old(selections) && renderedTerm == old(renderedTerm)
      ensures hasChangeCallback == old(hasChangeCallback) && hasSelectionCallback == old(hasSelectionCallback)
    {
      if currentCharacterId == id {
        return;
      }
      currentCharacterId := id;
      if hasChangeCallback {
        changes := changes + [id];
      }
    }

    /** `getCurrentCharacter`: the first character with the current id. */
    function GetCurrentCharacter(): (r: Option<Character>)
      reads this
      ensures r.None? <==> forall i :: 0 <= i < |characters| ==> characters[i].id != currentCharacterId
      ensures r.Some? ==> r.value == characters[IndexOfId(characters, currentCharacterId)]
    {
      var i := IndexOfId(characters, currentCharacterId);
      if i < 0 then None else Some(characters[i])
    }

    /** The document key handler: ignored while the modal is open or when
        the current id is not a character's; otherwise the key's target
        becomes active when it is another position. */
    method HandleKeydown(key: string)
      modifies this
      ensures var i := IndexOfId(characters, old(currentCharacterId));
              if old(isExpanded) || i < 0 || KeyTarget(key, i, |characters|) == i
              then currentCharacterId == old(currentCharacterId) && changes == old(changes)
              else var target := characters[KeyTarget(key, i, |characters|)].id;
                   (target == old(currentCharacterId) || !hasChangeCallback ==> changes == old(changes))
                   && (target != old(currentCharacterId) && hasChangeCallback ==> changes == old(changes) + [target])
                   && currentCharacterId == target
      ensures searchTerm == old(searchTerm) && isExpanded == old(isExpanded) && selections == old(selections)
      ensures hasChangeCallback == old(hasChangeCallback) && renderedTerm == old(renderedTerm)
      ensures viewMode == old(viewMode) && selectionContext == old(selectionContext) && hasSelectionCallback == old(hasSelectionCallback)
    {
      if isExpanded {
        return;
      }
      var currentIndex := IndexOfId(characters, currentCharacterId);
      if currentIndex == -1 {
        return;
      }
      var newIndex := KeyTarget(key, currentIndex, |characters|);
      if newIndex != currentIndex {
        SetActiveCharacter(characters[newIndex].id);
      }
    }

    /** `nextCharacter` / `previousCharacter`: step with wrap-around from
        the current character; nothing happens when the current id is not a
        character's. */
    method StepCharacter(d: Direction)
      modifies this
      ensures var i := IndexOfId(characters, old(currentCharacterId));
              if i < 0 then currentCharacterId == old(currentCharacterId) && changes == old(changes)
              else var target := characters[Step(d, i, |characters|)].id;
                   (target == old(currentCharacterId) || !hasChangeCallback ==> changes == old(changes))
                   && (target != old(currentCharacterId) && hasChangeCallback ==> changes == old(changes) + [target])
                   && currentCharacterId == target
      ensures searchTerm == old(searchTerm) && isExpanded == old(isExpanded) && selections == old(selections)
      ensures hasChangeCallback == old(hasChangeCallback) && renderedTerm == old(renderedTerm)
      ensures viewMode == old(viewMode) && selectionContext == old(selectionContext) && hasSelectionCallback == old(hasSelectionCallback)
    {
      var currentIndex := IndexOfId(characters, currentCharacterId);
      if currentIndex == -1 {
        return;
      }
      var n := |characters|;
      var target := if d == Next then JsRem(currentIndex + 1, n) else JsRem(currentIndex - 1 + n, n);
      SetActiveCharacter(characters[target].id);
    }

    /** `toggleExpanded`. */
    method ToggleExpanded()
      modifies this
      ensures isExpanded == !old(isExpanded)
      ensures !old(isExpanded) ==> searchTerm == [] && renderedTerm == Some(old(searchTerm))
      ensures old(isExpanded) ==> searchTerm == old(searchTerm) && renderedTerm == old(renderedTerm)
      ensures currentCharacterId == old(currentCharacterId) && changes == old(changes)
      ensures viewMode == old(viewMode) && selections == old(selections) && selectionContext == old(selectionContext)
      ensures hasChangeCallback == old(hasChangeCallback) && hasSelectionCallback == old(hasSelectionCallback)
    {
      if isExpanded {
        CloseExpanded();
      } else {
        OpenExpanded();
      }
    }

    /** `openExpanded`: the layer's open hook renders the grid and only then
        empties the search input and term, so the grid shows the cards of
        the previous term. */
    method OpenExpanded()
      modifies this
      ensures isExpanded && searchTerm == []
      ensures renderedTerm == Some(old(searchTerm))
      ensures ModalCards() == ModalCharacters(characters, old(searchTerm))
      ensures currentCharacterId == old(currentCharacterId) && changes == old(changes)
      ensures viewMode == old(viewMode) && selections == old(selections) && selectionContext == old(selectionContext)
      ensures hasChangeCallback == old(hasChangeCallback) && hasSelectionCallback == old(hasSelectionCallback)
    {
      isExpanded := true;
      renderedTerm := Some(searchTerm);
      searchTerm := [];
    }

    /** The evidently intended opening: the term is emptied before the grid
        is rendered, so the grid lists every character under the empty
        input. */
    method OpenExpandedCleared()
      modifies this
      ensures isExpanded && searchTerm == [] && renderedTerm == Some([])
      ensures ModalCards() == characters
      ensures currentCharacterId == old(currentCharacterId) && changes == old(changes)
      ensures viewMode == old(viewMode) && selections == old(selections) && selectionContext == old(selectionContext)
      ensures hasChangeCallback == old(hasChangeCallback) && hasSelectionCallback == old(hasSelectionCallback)
    {
      isExpanded := true;
      searchTerm := [];
      renderedTerm := Some(searchTerm);
      ModalCharactersSpec(characters, []);
    }

    /** `closeExpanded`. */
    method CloseExpanded()
      modifies this
      ensures !isExpanded && searchTerm == old(searchTerm) && renderedTerm == old(renderedTerm)
      ensures currentCharacterId == old(currentCharacterId) && changes == old(changes)
      ensures viewMode == old(viewMode) && selections == old(selections) && selectionContext == old(selectionContext)
      ensures hasChangeCallback == old(hasChangeCallback) && hasSelectionCallback == old(hasSelectionCallback)
    {
      isExpanded := false;
    }

    /** The search input: the term is the lowercased input, and the grid is
        rendered from it. */
    method SetSearchInput(value: string)
      modifies this
      ensures searchTerm == ToLower(value) && IsLower(searchTerm)
      ensures renderedTerm == Some(searchTerm)
      ensures currentCharacterId == old(currentCharacterId) && isExpanded == old(isExpanded)
      ensures changes == old(changes) && viewMode == old(viewMode)
      ensures selections == old(selections) && selectionContext == old(selectionContext)
      ensures hasChangeCallback == old(hasChangeCallback) && hasSelectionCallback == old(hasSelectionCallback)
    {
      searchTerm := ToLower(value);
      renderedTerm := Some(searchTerm);
      ToLowerIsLower(value);
    }

    /** `switchModalView`: the grid is rendered again from the term. */
    method SwitchModalView(mode: ViewMode)
      modifies this
      ensures viewMode == mode && searchTerm == old(searchTerm)
      ensures renderedTerm == Some(searchTerm)
      ensures currentCharacterId == old(currentCharacterId) && isExpanded == old(isExpanded)
      ensures changes == old(changes) && selections == old(selections) && selectionContext == old(selectionContext)
      ensures hasChangeCallback == old(hasChangeCallback) && hasSelectionCallback == old(hasSelectionCallback)
    {
      viewMode := mode;
      renderedTerm := Some(searchTerm);
    }

    /** `setCharacterSelectionCallback`: registers the selection callback
        and the page the selections come from. */
    method SetSelectionContext(context: SelectionContext)
      modifies this
      ensures selectionContext == context && hasSelectionCallback
      ensures currentCharacterId == old(currentCharacterId) && isExpanded == old(isExpanded)
      ensures changes == old(changes) && selections == old(selections)
      ensures hasChangeCallback == old(hasChangeCallback) && renderedTerm == old(renderedTerm)
      ensures searchTerm == old(searchTerm) && viewMode == old(viewMode)
    {
      selectionContext := context;
      hasSelectionCallback := true;
    }

    /** A click on a modal card, or Enter or Space on it: activate the
        character, report the selection when a selection callback is
        registered, and close the modal on the main page. */
    method SelectCard(id: string)
      modifies this
      ensures currentCharacterId == id
      ensures changes == (if id == old(currentCharacterId) || !hasChangeCallback then old(changes) else old(changes) + [id])
      ensures selections == (if hasSelectionCallback then old(selections) + [id] else old(selections))
      ensures isExpanded == (old(isExpanded) && selectionContext == FullscreenPage)
      ensures selectionContext == old(selectionContext) && searchTerm == old(searchTerm)
      ensures renderedTerm == old(renderedTerm) && viewMode == old(viewMode)
      ensures hasChangeCallback == old(hasChangeCallback) && hasSelectionCallback == old(hasSelectionCallback)
    {
      SetActiveCharacter(id);
      if hasSelectionCallback {
        selections := selections + [id];
      }
      if selectionContext == MainPage {
        CloseExpanded();
      }
    }

    /** The cards of the modal grid: none before its first rendering,
        otherwise the characters whose lowercased name contains the term
        it was last rendered from. */
    function ModalCards(): (r: seq<Character>)
      reads this
      ensures |r| <= |characters|
      ensures renderedTerm.None? ==> r == []
      ensures renderedTerm.Some? ==> forall i :: 0 <= i < |r| ==> r[i] in characters && NameMatches(r[i], renderedTerm.value)
      ensures renderedTerm.Some? ==> forall i :: 0 <= i < |characters| && NameMatches(characters[i], renderedTerm.value) ==> characters[i] in r
    {
      if renderedTerm.None? then [] else ModalCharacters(characters, renderedTerm.value)
    }
  }
}
