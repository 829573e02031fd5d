/**
 * The autocomplete input (src/components/AutoCompleteInput.tsx): the lifting of
 * `suggestionKey` into a getter, the keyboard index over the suggestions, the
 * selection kept as a key and looked up again among the suggestions, and the
 * focus, blur and query events that open, close and fill the popup.
 */
module AutoCompleteInput {
  import opened Util
  import opened Form

  // ---------------------------------------------------------------------------
  // getter
  // ---------------------------------------------------------------------------

  /** The `suggestionKey` prop: a property name, a function, or any other value (with its `${}` rendering). */
  datatype KeySpec<!T, K> =
    | PropertyName(name: string)
    | KeyFunction(f: T -> K)
    | OtherValue(shown: string)

  /**
   * `getter(key)`: a property name becomes the lookup of that property
   * (`property(item, name)` stands for `item[name]`), a function is returned
   * unchanged, and anything else throws.
   */
  function Getter<T(!new), K>(spec: KeySpec<T, K>, property: (T, string) -> K): (r: Fallible<T -> K>)
    ensures r.Threw? <==> spec.OtherValue?
    ensures spec.OtherValue? ==> r.message == "Could not lift " + spec.shown + " into a getter"
    ensures spec.KeyFunction? ==> r == Returned(spec.f)
    ensures spec.PropertyName? ==> r.Returned? && forall item :: r.value(item) == property(item, spec.name)
  {
    match spec
    case PropertyName(name) => Returned((item: T) => property(item, name))
    case KeyFunction(f) => Returned(f)
    case OtherValue(shown) => Threw("Could not lift " + shown + " into a getter")
  }

  // ---------------------------------------------------------------------------
  // The keyboard index
  // ---------------------------------------------------------------------------

  /** The ArrowDown update of the index (None is `null`): onto the first, past the last back to none. */
  function ArrowDown(index: Option<int>, length: int): Option<int>
  {
    match index
    case None => Some(0)
    case Some(i) => if i == length - 1 then None else Some(i + 1)
  }

  /** The ArrowUp update of the index: onto the last, before the first back to none. */
  function ArrowUp(index: Option<int>, length: int): Option<int>
  {
    match index
    case None => Some(length - 1)
    case Some(i) => if i == 0 then None else Some(i - 1)
  }

  /** The index is none or points at one of `length` suggestions. */
  predicate InRange(index: Option<int>, length: int)
  {
    index.None? || 0 <= index.value < length
  }

  /** With at least one suggestion, both keys keep the index in range. */
  lemma ArrowKeysStayInRange(index: Option<int>, length: int)
    requires length > 0 && InRange(index, length)
    ensures InRange(ArrowDown(index, length), length)
    ensures InRange(ArrowUp(index, length), length)
  {
  }

  /** With at least one suggestion, ArrowUp undoes ArrowDown and ArrowDown undoes ArrowUp. */
  lemma ArrowKeysUndo(index: Option<int>, length: int)
    requires length > 0 && InRange(index, length)
    ensures ArrowUp(ArrowDown(index, length), length) == index
    ensures ArrowDown(ArrowUp(index, length), length) == index
  {
  }

  /**
   * An empty suggestion list is still truthy, so the keys act on it, and
   * they move the index out of range.
   */
  lemma ArrowKeysOnEmptyList()
    ensures ArrowDown(None, 0) == Some(0) && !InRange(Some(0), 0)
    ensures ArrowUp(None, 0) == Some(-1) && !InRange(Some(-1), 0)
  {
  }

  /** The index after `n` presses of ArrowDown. */
  function DownPresses(index: Option<int>, length: int, n: nat): Option<int>
    decreases n
  {
    if n == 0 then index else DownPresses(ArrowDown(index, length), length, n - 1)
  }

  /** From none, the k-th press of ArrowDown (k from 1 to `length`) highlights suggestion k - 1. */
  lemma {:induction false} DownPressesWalk(length: int, k: nat)
    requires 0 < k <= length
    ensures DownPresses(None, length, k) == Some(k - 1)
  {
    if k > 1 {
      DownPressesWalk(length, k - 1);
      DownPressesStep(None, length, k - 1);
    }
  }

  /** One more press is one more ArrowDown after the others. */
  lemma {:induction false} DownPressesStep(index: Option<int>, length: int, n: nat)
    ensures DownPresses(index, length, n + 1) == ArrowDown(DownPresses(index, length, n), length)
    decreases n
  {
    if n > 0 {
      DownPressesStep(ArrowDown(index, length), length, n - 1);
    }
  }

  /** `length + 1` presses of ArrowDown from none walk through every suggestion and come back to none. */
  lemma DownPressesCycle(length: int)
    requires length > 0
    ensures DownPresses(None, length, length + 1) == None
  {
    DownPressesWalk(length, length);
    DownPressesStep(None, length, length);
  }

  // ---------------------------------------------------------------------------
  // The `selected` lookup
  // ---------------------------------------------------------------------------

  /** The position of the first item whose key is the selection, if any (`null` matches no key). */
  function FirstMatch<T, K(==)>(items: seq<T>, key: T -> K, selection: Option<K>): (r: Option<nat>)
    ensures r.Some? ==> r.value < |items| && Some(key(items[r.value])) == selection
    ensures r.Some? ==> forall j :: 0 <= j < r.value ==> Some(key(items[j])) != selection
    ensures r.None? ==> forall j :: 0 <= j < |items| ==> Some(key(items[j])) != selection
  {
    if items == [] then None
    else if Some(key(items[0])) == selection then Some(0)
    else match FirstMatch(items[1..], key, selection)
      case None => None
      case Some(i) => Some(i + 1)
  }

  /** `selected`: the first suggestion (none when there is no list) whose key is the selection. */
  function Selected<T, K(==)>(suggestions: Option<seq<T>>, key: T -> K, selection: Option<K>): (r: Option<T>)
    ensures r.Some? ==> suggestions.Some? && r.value in suggestions.value && Some(key(r.value)) == selection
    ensures r.None? && suggestions.Some? ==> forall item :: item in suggestions.value ==> Some(key(item)) != selection
  {
    var items := if suggestions.Some? then suggestions.value else [];
    match FirstMatch(items, key, selection)
    case None => None
    case Some(i) => Some(items[i])
  }

  /** Selecting a listed suggestion makes `selected` a suggestion with its key (the first such). */
  lemma SelectingFindsSelected<T, K>(items: seq<T>, key: T -> K, item: T)
    requires item in items
    ensures Selected(Some(items), key, Some(key(item))).Some?
    ensures key(Selected(Some(items), key, Some(key(item))).value) == key(item)
  {
    var i :| 0 <= i < |items| && items[i] == item;
    assert Some(key(items[i])) == Some(key(item));
  }

  /** After a clear (selection `null`) nothing is selected. */
  lemma ClearedSelectsNothing<T, K>(suggestions: Option<seq<T>>, key: T -> K)
    ensures Selected(suggestions, key, None) == None
  {
  }

  // ---------------------------------------------------------------------------
  // The component's state
  // ---------------------------------------------------------------------------

  /** The keys the keyboard handler tells apart. */
  datatype Key = ArrowDownKey | ArrowUpKey | EnterKey | OtherKey

  /** What the caller's `onChange` receives: `null` (None) after a clear. */
  type Report<T> = Either<seq<FormError>, Option<T>>

  /**
   * What a key press did: nothing; a move of the index (default prevented);
   * a pick through Enter, with the report made; or a pick of a position the
   * list does not have, which hands `undefined` to `select`.
   */
  datatype KeyOutcome<T> = Ignored | Navigated | Picked(reported: Option<Report<T>>) | PickedUndefined

  class AutoCompleteInput<T, K(==)> {
    /** `getItemKey`, the lifted `suggestionKey`. */
    const itemKey: T -> K
    /** Whether the caller passed `onChange`, `onFocus`, `onBlur`. */
    const hasOnChange: bool
    const hasOnFocus: bool
    const hasOnBlur: bool
    /** The `selection` state: the selected suggestion's key, `null` as None. */
    var selection: Option<K>
    /** The `open` state of the popup. */
    var open: bool
    /** The `index` state: the highlighted suggestion. */
    var index: Option<int>
    /** `suggestionsRef.current`: the last query's answer, `undefined` as None. */
    var suggestions: Option<seq<T>>
    /** The `isLoading` state. */
    var isLoading: bool
    /** `clickedRef.current`: the element of the last mouse press. */
    var clicked: Option<Element>
    /**
     * The `open` the registered keydown listener sees. The listener is
     * memoised on `suggestions` and `index` only, so it keeps the `open` of
     * the last render in which one of those two changed.
     */
    var listenerOpen: bool

    /** Mounting: nothing selected, popup closed, no index, no suggestions, nothing clicked. */
    constructor (itemKey: T -> K, hasOnChange: bool, hasOnFocus: bool, hasOnBlur: bool)
      ensures this.itemKey == itemKey && this.hasOnChange == hasOnChange
      ensures this.hasOnFocus == hasOnFocus && this.hasOnBlur == hasOnBlur
      ensures selection == None && !open && index == None && suggestions == None
      ensures !isLoading && clicked == None && !listenerOpen
    {
      this.itemKey := itemKey;
      this.hasOnChange := hasOnChange;
      this.hasOnFocus := hasOnFocus;
      this.hasOnBlur := hasOnBlur;
      selection := None;
      open := false;
      index := None;
      suggestions := None;
      isLoading := false;
      clicked := None;
      listenerOpen := false;
    }

    /** `select(item)`: reports Right of the item, then keeps the item's key as the selection. */
    method Select(item: T) returns (reported: Option<Report<T>>)
      modifies this`selection
      ensures selection == Some(itemKey(item))
      ensures reported == if hasOnChange then Some(Right(Some(item))) else None
    {
      reported := if hasOnChange then Some(Right(Some(item))) else None;
      selection := Some(itemKey(item));
    }

    /** `clear()`: reports Right of `null`, then drops the selection. */
    method Clear() returns (reported: Option<Report<T>>)
      modifies this`selection
      ensures selection == None
      ensures reported == if hasOnChange then Some(Right(None)) else None
    {
      reported := if hasOnChange then Some(Right(None)) else None;
      selection := None;
    }

    /**
     * The keyboard handler. When the `open` it captured is false, or there is
     * no list, nothing happens. ArrowDown and ArrowUp move the index, and the
     * render that follows registers a new listener with the current `open`.
     * Enter with an index selects the suggestion there, if the list has that
     * position. Any other key, or Enter without an index, does nothing.
     */
    method KeyDown(key: Key) returns (outcome: KeyOutcome<T>)
      modifies this`index, this`selection, this`listenerOpen
      ensures !old(listenerOpen) || suggestions.None? ==>
        outcome == Ignored && index == old(index) && selection == old(selection) && listenerOpen == old(listenerOpen)
      ensures old(listenerOpen) && suggestions.Some? ==>
        var items := suggestions.value;
        match key
        case ArrowDownKey =>
          outcome == Navigated && index == ArrowDown(old(index), |items|) && selection == old(selection)
          && listenerOpen == open
        case ArrowUpKey =>
          outcome == Navigated && index == ArrowUp(old(index), |items|) && selection == old(selection)
          && listenerOpen == open
        case EnterKey =>
          index == old(index) && listenerOpen == old(listenerOpen)
          && (old(index).None? ==> outcome == Ignored && selection == old(selection))
          && (old(index).Some? && InRange(old(index), |items|) ==>
                var item := items[old(index).value];
                outcome == Picked(if hasOnChange then Some(Right(Some(item))) else None)
                && selection == Some(itemKey(item)))
          && (old(index).Some? && !InRange(old(index), |items|) ==> outcome == PickedUndefined && selection == old(selection))
        case OtherKey =>
          outcome == Ignored && index == old(index) && selection == old(selection) && listenerOpen == old(listenerOpen)
    {
      if !listenerOpen || suggestions.None? {
        return Ignored;
      }
      var items := suggestions.value;
      match key
      case ArrowDownKey =>
        index := ArrowDown(index, |items|);
        listenerOpen := open;
        outcome := Navigated;
      case ArrowUpKey =>
        index := ArrowUp(index, |items|);
        listenerOpen := open;
        outcome := Navigated;
      case EnterKey =>
        if index.None? {
          outcome := Ignored;
        } else if 0 <= index.value < |items| {
          var reported := Select(items[index.value]);
          outcome := Picked(reported);
        } else {
          outcome := PickedUndefined;
        }
      case OtherKey =>
        outcome := Ignored;
    }

    /**
     * Hovering suggestion `i` highlights it. Only a change of the index
     * registers a new keydown listener, with the current `open`.
     */
    method Hover(i: int)
      modifies this`index, this`listenerOpen
      ensures index == Some(i)
      ensures listenerOpen == if old(index) == Some(i) then old(listenerOpen) else open
    {
      if index != Some(i) {
        listenerOpen := open;
      }
      index := Some(i);
    }

    /** Clicking suggestion `i` of the shown list selects it. */
    method ClickSuggestion(i: int) returns (reported: Option<Report<T>>)
      requires suggestions.Some? && 0 <= i < |suggestions.value|
      modifies this`selection
      ensures selection == Some(itemKey(suggestions.value[i]))
      ensures reported == if hasOnChange then Some(Right(Some(suggestions.value[i]))) else None
    {
      reported := Select(suggestions.value[i]);
    }

    /**
     * The input's `onFocus`: the caller's `onFocus` runs first and may prevent
     * the default (`prevented`); unless it did, the popup opens.
     */
    method Focus(prevented: bool) returns (callerCalled: bool)
      modifies this`open
      ensures callerCalled == hasOnFocus
      ensures open == (if hasOnFocus && prevented then old(open) else true)
    {
      callerCalled := hasOnFocus;
      var defaultPrevented := hasOnFocus && prevented;
      if !defaultPrevented {
        open := true;
      }
    }

    /** A mouse press anywhere in the window records its target. */
    method MouseDown(target: Option<Element>)
      modifies this`clicked
      ensures clicked == target
    {
      clicked := target;
    }

    /**
     * The input's `onBlur`. A blur caused by a press inside the popup is
     * swallowed: the recorded press is forgotten and the popup stays as it
     * is. Otherwise the caller's `onBlur` runs and may prevent the default
     * (`prevented`); unless it did, the popup closes.
     */
    method Blur(document: map<Element, Element>, popup: Option<Element>, prevented: bool) returns (callerCalled: bool)
      requires DocumentOrdered(document)
      modifies this`clicked, this`open
      ensures var inside := old(clicked).Some? && popup.Some? && popup.value in ParentChain(document, old(clicked).value);
        && (inside ==> !callerCalled && clicked == None && open == old(open))
        && (!inside ==>
              callerCalled == hasOnBlur && clicked == old(clicked)
              && open == (if hasOnBlur && prevented then old(open) else false))
    {
      if clicked.Some? && popup.Some? {
        var inside := IsChildOf(document, clicked.value, popup.value);
        if inside {
          clicked := None;
          return false;
        }
      }
      callerCalled := hasOnBlur;
      var defaultPrevented := hasOnBlur && prevented;
      if !defaultPrevented {
        open := false;
      }
    }

    /**
     * The input's `onChange`, with the query's outcome passed in (`answer`,
     * None when the query throws). A Left is ignored; otherwise loading
     * starts, and only an answer ends it and replaces the suggestions. The
     * index is left as it was. An answer is a new array, so the render that
     * shows it registers a new keydown listener with the current `open`.
     */
    method QueryChange(result: Either<seq<FormError>, string>, answer: Option<seq<T>>)
      modifies this`isLoading, this`suggestions, this`listenerOpen
      ensures IsLeft(result) ==> isLoading == old(isLoading) && suggestions == old(suggestions)
      ensures IsRight(result) && answer.None? ==> isLoading && suggestions == old(suggestions)
      ensures IsRight(result) && answer.Some? ==> !isLoading && suggestions == answer
      ensures listenerOpen == if IsRight(result) && answer.Some? then open else old(listenerOpen)
    {
      if IsLeft(result) {
        return;
      }
      isLoading := true;
      if answer.None? {
        return;
      }
      isLoading := false;
      suggestions := answer;
      listenerOpen := open;
    }
  }

  /**
   * A highlighted position survives a new, shorter answer, and Enter then
   * picks a position the list does not have.
   */
  method StaleIndexScenario<T, K(==)>(itemKey: T -> K, first: T, second: T) returns (outcome: KeyOutcome<T>)
    ensures outcome == PickedUndefined
  {
    var input := new AutoCompleteInput(itemKey, true, false, false);
    var _ := input.Focus(false);
    input.QueryChange(Right("a"), Some([first, second]));
    var o := input.KeyDown(ArrowDownKey);
    o := input.KeyDown(ArrowDownKey);
    input.QueryChange(Right("ab"), Some([first]));
    outcome := input.KeyDown(EnterKey);
  }

  /**
   * The listener keeps the `open` of the render that last changed `suggestions`
   * or `index`: after an ArrowDown the popup closes on a blur, yet Enter still
   * selects the highlighted suggestion.
   */
  method EnterAfterCloseScenario<T, K(==)>(itemKey: T -> K, first: T, second: T)
    returns (outcome: KeyOutcome<T>, open: bool, selection: Option<K>)
    ensures !open
    ensures outcome == Picked(Some(Right(Some(first)))) && selection == Some(itemKey(first))
  {
    var input := new AutoCompleteInput(itemKey, true, false, false);
    var _ := input.Focus(false);
    input.QueryChange(Right("a"), Some([first, second]));
    var o := input.KeyDown(ArrowDownKey);
    var called := input.Blur(map[], None, false);
    outcome := input.KeyDown(EnterKey);
    open, selection := input.open, input.selection;
  }

  /**
   * The reverse: an answer that arrives while the popup is closed leaves a
   * listener that ignores the arrow keys after the popup opens.
   */
  method ArrowsAfterOpenScenario<T, K(==)>(itemKey: T -> K, first: T) returns (outcome: KeyOutcome<T>, open: bool, index: Option<int>)
    ensures open
    ensures outcome == Ignored && index == None
  {
    var input := new AutoCompleteInput(itemKey, true, false, false);
    input.QueryChange(Right("a"), Some([first]));
    var _ := input.Focus(false);
    outcome := input.KeyDown(ArrowDownKey);
    open, index := input.open, input.index;
  }

  // ---------------------------------------------------------------------------
  // fill
  // ---------------------------------------------------------------------------

  /** `fill(factory, count)`: the list of `factory(i)` for i from 0 below `count`. */
  method Fill<T>(factory: int -> T, count: int) returns (out: seq<T>)
    ensures |out| == if count > 0 then count else 0
    ensures forall i :: 0 <= i < |out| ==> out[i] == factory(i)
  {
    out := [];
    var i := 0;
    while i < count
      invariant 0 <= i <= (if count > 0 then count else 0)
      invariant |out| == i
      invariant forall j :: 0 <= j < i ==> out[j] == factory(j)
    {
      out := out + [factory(i)];
      i := i + 1;
    }
  }
}
