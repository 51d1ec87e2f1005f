/**
 * The search box with a suggestion list (components/ui/AutocompleteInput.tsx).
 * The input's text and the option list are props owned by the parent; the
 * component keeps whether the list is open and which suggestion is
 * highlighted, and reports typing and picks back through callbacks.
 */
module Autocomplete {
  import opened Text

  /** One suggestion: a store, neighbourhood or category. `labelText` is the `label` field (`label` is a Dafny keyword). */
  datatype AutocompleteOption = AutocompleteOption(id: string, labelText: string, category: string, value: string)

  /** The keys `handleKeyDown` tells apart; every other key is `Other`. */
  datatype Key = ArrowDown | ArrowUp | Enter | Escape | Other

  /** The most suggestions shown at once. */
  const MaxSuggestions := 8

  /** The option's label or value holds the typed text, ignoring case. */
  predicate OptionMatches(option: AutocompleteOption, input: string) {
    Contains(Lower(option.labelText), Lower(input)) || Contains(Lower(option.value), Lower(input))
  }

  /**
   * `options.filter(...)`: every matching option, as often as the list holds
   * it; `MatchingAppend` states that the given order is kept.
   */
  function Matching(options: seq<AutocompleteOption>, input: string): (r: seq<AutocompleteOption>)
    ensures |r| <= |options|
    ensures forall o :: o in r <==> o in options && OptionMatches(o, input)
    ensures forall o :: multiset(r)[o] == if OptionMatches(o, input) then multiset(options)[o] else 0
  {
    if options == [] then []
    else
      var rest := Matching(options[1..], input);
      assert options == [options[0]] + options[1..];
      assert forall o :: o in options <==> o == options[0] || o in options[1..];
      if OptionMatches(options[0], input) then [options[0]] + rest else rest
  }

  /**
   * Filtering a list made of two parts filters each part and keeps the
   * first part's matches before the second's; with `Matching([o], input)`
   * being `[o]` or `[]`, this fixes the result completely.
   */
  lemma {:induction false} MatchingAppend(a: seq<AutocompleteOption>, b: seq<AutocompleteOption>, input: string)
    ensures Matching(a + b, input) == Matching(a, input) + Matching(b, input)
  {
    if a == [] {
      assert a + b == b;
    } else {
      assert (a + b)[0] == a[0];
      assert (a + b)[1..] == a[1..] + b;
      MatchingAppend(a[1..], b, input);
    }
  }

  /** One option is kept exactly when it matches. */
  lemma MatchingSingle(o: AutocompleteOption, input: string)
    ensures Matching([o], input) == if OptionMatches(o, input) then [o] else []
  {
    assert [o][1..] == [];
  }

  /** An empty input is found in every label, so every option matches it. */
  lemma {:induction false} MatchingEmptyInput(options: seq<AutocompleteOption>)
    ensures Matching(options, "") == options
  {
    if options != [] {
      ContainsEmpty(Lower(options[0].labelText));
      MatchingEmptyInput(options[1..]);
    }
  }

  /**
   * `filteredOptions`: the first eight matching options, in the given order.
   * Fewer than eight only when fewer match.
   */
  function FilteredOptions(options: seq<AutocompleteOption>, input: string): (r: seq<AutocompleteOption>)
    ensures |r| <= MaxSuggestions
    ensures forall o :: o in r ==> o in options && OptionMatches(o, input)
    ensures |r| <= |Matching(options, input)| && r == Matching(options, input)[..|r|]
    ensures |r| < MaxSuggestions ==> r == Matching(options, input)
  {
    var all := Matching(options, input);
    if |all| <= MaxSuggestions then all else all[..MaxSuggestions]
  }

  /** With nothing typed, the suggestions are the first eight options. */
  lemma EmptyInputShowsFirstEight(options: seq<AutocompleteOption>)
    ensures |options| <= MaxSuggestions ==> FilteredOptions(options, "") == options
    ensures |options| > MaxSuggestions ==> FilteredOptions(options, "") == options[..MaxSuggestions]
  {
    MatchingEmptyInput(options);
  }

  /** The ArrowDown update of the highlight for `n` suggestions: the next one, wrapping from the last to the first. */
  function NextDown(prev: int, n: nat): (r: int)
    requires n > 0
    ensures prev >= -1 ==> 0 <= r < n
    ensures -1 <= prev < n - 1 ==> r == prev + 1
    ensures prev >= n - 1 ==> r == 0
  {
    if prev < n - 1 then prev + 1 else 0
  }

  /**
   * The ArrowUp update: the previous one, wrapping from the first (or from no
   * highlight) to the last. It stays in range only from an index at most `n`.
   */
  function NextUp(prev: int, n: nat): (r: int)
    requires n > 0
    ensures -1 <= prev <= n ==> 0 <= r < n
    ensures prev > 0 ==> r == prev - 1
    ensures prev <= 0 ==> r == n - 1
  {
    if prev > 0 then prev - 1 else n - 1
  }

  /** Pressing ArrowDown from no highlight visits the suggestions in order, and the press after the last comes back to the first. */
  lemma {:induction false} DownCycles(n: nat, k: nat)
    requires n > 0 && k <= n + 1
    ensures 0 < k <= n ==> Iterate(-1, n, k) == k - 1
    ensures k == n + 1 ==> Iterate(-1, n, k) == 0
    decreases k
  {
    if k > 1 {
      DownCycles(n, k - 1);
    }
  }

  /** The highlight after pressing ArrowDown `k` times from `start`. */
  function Iterate(start: int, n: nat, k: nat): int
    requires n > 0
  {
    if k == 0 then start else NextDown(Iterate(start, n, k - 1), n)
  }

  /** A highlight that went stale when the options shrank: ArrowUp from 5 with two suggestions leaves the list. */
  lemma StaleHighlightAfterArrowUp()
    ensures NextUp(5, 2) == 4
  {
  }

  class AutocompleteInput {
    /** The `value` prop: the text in the box. */
    var value: string
    /** The `options` prop. */
    var options: seq<AutocompleteOption>
    /** Whether an `onSelect` prop was passed. */
    var hasOnSelect: bool
    var isOpen: bool
    var highlightedIndex: int
    /** Every text passed to `onChange`, oldest first. */
    var changes: seq<string>
    /** Every option passed to `onSelect`, oldest first. */
    var selections: seq<AutocompleteOption>

    /** The first render: closed, nothing highlighted, no callback called yet. */
    constructor (value: string, options: seq<AutocompleteOption>, hasOnSelect: bool)
      ensures this.value == value && this.options == options && this.hasOnSelect == hasOnSelect
      ensures !isOpen && highlightedIndex == -1
      ensures changes == [] && selections == []
      ensures Valid()
    {
      this.value := value;
      this.options := options;
      this.hasOnSelect := hasOnSelect;
      isOpen := false;
      highlightedIndex := -1;
      changes := [];
      selections := [];
    }

    /** The highlight is never below -1, the "nothing highlighted" mark. */
    predicate Valid()
      reads this
    {
      highlightedIndex >= -1
    }

    /** The suggestions for the current props. */
    function Suggestions(): (r: seq<AutocompleteOption>)
      reads this
      ensures |r| <= MaxSuggestions
    {
      FilteredOptions(options, value)
    }

    /** A re-render with new props; the open flag and the highlight are kept. */
    method SetProps(value: string, options: seq<AutocompleteOption>)
      modifies this
      ensures this.value == value && this.options == options
      ensures hasOnSelect == old(hasOnSelect) && isOpen == old(isOpen)
      ensures highlightedIndex == old(highlightedIndex)
      ensures changes == old(changes) && selections == old(selections)
    {
      this.value := value;
      this.options := options;
    }

    /** `handleInputChange`: reports the text, opens the list exactly when the text is non-empty, clears the highlight. */
    method HandleInputChange(newValue: string)
      modifies this
      ensures changes == old(changes) + [newValue]
      ensures isOpen <==> |newValue| > 0
      ensures highlightedIndex == -1 && Valid()
      ensures value == old(value) && options == old(options) && hasOnSelect == old(hasOnSelect)
      ensures selections == old(selections)
    {
      changes := changes + [newValue];
      isOpen := |newValue| > 0;
      highlightedIndex := -1;
    }

    /** The clear button, shown only while there is text: typing the empty text. */
    method ClearButton()
      requires value != ""
      modifies this
      ensures changes == old(changes) + [""]
      ensures !isOpen && highlightedIndex == -1
      ensures value == old(value) && options == old(options) && hasOnSelect == old(hasOnSelect)
      ensures selections == old(selections)
    {
      HandleInputChange("");
    }

    /** `handleOptionSelect`: reports the option's value, closes the list, clears the highlight and calls `onSelect` once if given. */
    method HandleOptionSelect(option: AutocompleteOption)
      modifies this
      ensures changes == old(changes) + [option.value]
      ensures !isOpen && highlightedIndex == -1 && Valid()
      ensures selections == if hasOnSelect then old(selections) + [option] else old(selections)
      ensures value == old(value) && options == old(options) && hasOnSelect == old(hasOnSelect)
    {
      changes := changes + [option.value];
      isOpen := false;
      highlightedIndex := -1;
      if hasOnSelect {
        selections := selections + [option];
      }
    }

    /** `handleKeyDown`. */
    method HandleKeyDown(key: Key)
      requires Valid()
      modifies this
      ensures Valid()
      ensures value == old(value) && options == old(options) && hasOnSelect == old(hasOnSelect)
      // closed, or nothing to show: ArrowDown opens the list, nothing else happens
      ensures !old(isOpen) || |Suggestions()| == 0 ==>
        isOpen == (old(isOpen) || key == ArrowDown) && highlightedIndex == old(highlightedIndex)
        && changes == old(changes) && selections == old(selections)
      // open with suggestions: the highlight moves and wraps
      ensures old(isOpen) && |Suggestions()| > 0 && key == ArrowDown ==>
        highlightedIndex == NextDown(old(highlightedIndex), |Suggestions()|) && 0 <= highlightedIndex < |Suggestions()|
        && isOpen && changes == old(changes) && selections == old(selections)
      ensures old(isOpen) && |Suggestions()| > 0 && key == ArrowUp ==>
        highlightedIndex == NextUp(old(highlightedIndex), |Suggestions()|)
        && (old(highlightedIndex) <= |Suggestions()| ==> 0 <= highlightedIndex < |Suggestions()|)
        && isOpen && changes == old(changes) && selections == old(selections)
      // Enter picks the highlighted suggestion only when it exists
      ensures old(isOpen) && |Suggestions()| > 0 && key == Enter ==>
        if 0 <= old(highlightedIndex) < |Suggestions()| then
          var picked := Suggestions()[old(highlightedIndex)];
          changes == old(changes) + [picked.value] && !isOpen && highlightedIndex == -1
          && selections == (if hasOnSelect then old(selections) + [picked] else old(selections))
        else
          isOpen && highlightedIndex == old(highlightedIndex) && changes == old(changes) && selections == old(selections)
      // Escape closes and clears the highlight
      ensures old(isOpen) && |Suggestions()| > 0 && key == Escape ==>
        !isOpen && highlightedIndex == -1 && changes == old(changes) && selections == old(selections)
      ensures old(isOpen) && |Suggestions()| > 0 && key == Other ==>
        isOpen && highlightedIndex == old(highlightedIndex) && changes == old(changes) && selections == old(selections)
    {
      var filtered := FilteredOptions(options, value);
      if !isOpen || |filtered| == 0 {
        if key == ArrowDown {
          isOpen := true;
        }
        return;
      }
      match key {
        case ArrowDown =>
          highlightedIndex := NextDown(highlightedIndex, |filtered|);
        case ArrowUp =>
          highlightedIndex := NextUp(highlightedIndex, |filtered|);
        case Enter =>
          if highlightedIndex >= 0 && highlightedIndex < |filtered| {
            HandleOptionSelect(filtered[highlightedIndex]);
          }
        case Escape =>
          isOpen := false;
          highlightedIndex := -1;
        case Other =>
      }
    }

    /** The document `mousedown` listener: a press outside the input closes the list and clears the highlight. */
    method MouseDown(insideInput: bool)
      modifies this
      ensures !insideInput ==> !isOpen && highlightedIndex == -1
      ensures insideInput ==> isOpen == old(isOpen) && highlightedIndex == old(highlightedIndex)
      ensures value == old(value) && options == old(options) && hasOnSelect == old(hasOnSelect)
      ensures changes == old(changes) && selections == old(selections)
    {
      if !insideInput {
        isOpen := false;
        highlightedIndex := -1;
      }
    }

    /** `onFocus`: opens the list when there is text. */
    method Focus()
      modifies this
      ensures isOpen == (old(isOpen) || |value| > 0)
      ensures highlightedIndex == old(highlightedIndex)
      ensures value == old(value) && options == old(options) && hasOnSelect == old(hasOnSelect)
      ensures changes == old(changes) && selections == old(selections)
    {
      if |value| > 0 {
        isOpen := true;
      }
    }
  }
}
