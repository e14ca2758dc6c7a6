/**
 * The filter drawer: a staged selection the user edits freely, committed to
 * the ledger's filters only by "Apply Filters", reset to "All Assets" by
 * "Reset", and re-synchronised with the committed filters whenever the
 * drawer opens.
 */
module FilterDrawer {
  import opened Assets

  /** One button of the drawer. */
  datatype FilterOption = FilterOption(title: string, value: TypeFilter)

  /** The drawer's buttons, in display order. */
  const FilterOptions: seq<FilterOption> := [
    FilterOption("All Assets", All),
    FilterOption("Stocks", Only(Stock)),
    FilterOption("Bonds", Only(Bond)),
    FilterOption("Crypto", Only(Crypto)),
    FilterOption("Real Estate", Only(RealEstate)),
    FilterOption("Commodities", Only(Commodity))
  ]

  /** A button is highlighted when its value is the staged category. */
  predicate IsActive(option: FilterOption, staged: Filters) {
    staged.kind == option.value
  }

  /** "Reset" is offered when the staged selection is not "All Assets". */
  predicate IsFiltered(staged: Filters) {
    staged.kind != All
  }

  /** How many of `options` are highlighted. */
  function ActiveCount(options: seq<FilterOption>, staged: Filters): nat {
    if options == [] then 0
    else (if IsActive(options[0], staged) then 1 else 0) + ActiveCount(options[1..], staged)
  }

  /**
   * The buttons are "All Assets" followed by the five categories, each value
   * exactly once, so whatever is staged, exactly one button is highlighted.
   */
  lemma {:induction false} ExactlyOneActive(staged: Filters)
    ensures FilterOptions[0].value == All
    ensures forall t: AssetType :: ActiveCount(FilterOptions, Filters(Only(t))) == 1
    ensures ActiveCount(FilterOptions, staged) == 1
  {
    forall t: AssetType
      ensures ActiveCount(FilterOptions, Filters(Only(t))) == 1
    {
      EachValueOnce(Only(t));
    }
    EachValueOnce(staged.kind);
  }

  /** Every value appears on exactly one button, counted suffix by suffix. */
  lemma {:induction false} EachValueOnce(v: TypeFilter)
    ensures ActiveCount(FilterOptions, Filters(v)) == 1
  {
    var s := FilterOptions;
    assert s[6..] == [];
    assert s[5..][0] == s[5] && s[5..][1..] == s[6..];
    assert ActiveCount(s[5..], Filters(v)) == (if v == Only(Commodity) then 1 else 0) + ActiveCount(s[6..], Filters(v));
    assert s[4..][0] == s[4] && s[4..][1..] == s[5..];
    assert ActiveCount(s[4..], Filters(v)) == (if v == Only(RealEstate) then 1 else 0) + ActiveCount(s[5..], Filters(v));
    assert s[3..][0] == s[3] && s[3..][1..] == s[4..];
    assert ActiveCount(s[3..], Filters(v)) == (if v == Only(Crypto) then 1 else 0) + ActiveCount(s[4..], Filters(v));
    assert s[2..][0] == s[2] && s[2..][1..] == s[3..];
    assert ActiveCount(s[2..], Filters(v)) == (if v == Only(Bond) then 1 else 0) + ActiveCount(s[3..], Filters(v));
    assert s[1..][0] == s[1] && s[1..][1..] == s[2..];
    assert ActiveCount(s[1..], Filters(v)) == (if v == Only(Stock) then 1 else 0) + ActiveCount(s[2..], Filters(v));
    assert ActiveCount(s, Filters(v)) == (if v == All then 1 else 0) + ActiveCount(s[1..], Filters(v));
    match v
    case All =>
    case Only(t) =>
      assert t == Stock || t == Bond || t == Crypto || t == RealEstate || t == Commodity;
  }

  /** The position of a category's button. */
  function TypeButton(t: AssetType): (i: nat)
    ensures 1 <= i < |FilterOptions| && FilterOptions[i].value == Only(t)
  {
    match t
    case Stock => 1
    case Bond => 2
    case Crypto => 3
    case RealEstate => 4
    case Commodity => 5
  }

  /**
   * A JavaScript object holding an `AssetFilters` value. React compares
   * state by reference, so the model keeps the objects apart from their
   * values: a new object with an equal value still counts as a change.
   */
  class FiltersObject {
    const value: Filters

    constructor (value: Filters)
      ensures this.value == value
    {
      this.value := value;
    }
  }

  /**
   * The drawer's state: the ledger's committed filters and open flag, and
   * the drawer's own staged selection (`tempFilters`).
   */
  class DrawerState {
    var committed: FiltersObject
    var staged: FiltersObject
    var open: bool

    /** The ledger starts with `{ type: "all" }`, closed; the drawer stages the same object. */
    constructor ()
      ensures committed.value == Filters(All) && staged == committed && !open
    {
      var initial := new FiltersObject(Filters(All));
      committed, staged, open := initial, initial, false;
    }

    /**
     * "Reset" is shown exactly when the "All Assets" button is not the
     * highlighted one, that is, when one of the five category buttons is.
     */
    function ResetShown(): (shown: bool)
      reads this
      ensures shown <==> !IsActive(FilterOptions[0], staged.value)
      ensures shown <==> exists i :: 1 <= i < |FilterOptions| && IsActive(FilterOptions[i], staged.value)
    {
      ExactlyOneActive(staged.value);
      assert staged.value.kind.Only? ==> IsActive(FilterOptions[TypeButton(staged.value.kind.only)], staged.value);
      IsFiltered(staged.value)
    }

    /**
     * The filter button opens the drawer; when that flips the open flag the
     * synchronising effect stages the committed object itself. Opening an
     * open drawer changes nothing.
     */
    method Open()
      modifies this
      ensures open
      ensures committed == old(committed)
      ensures staged == if old(open) then old(staged) else committed
    {
      if !open {
        open := true;
        staged := committed;
      }
    }

    /** Clicking a button stages a new object with its value and touches nothing else. */
    method Pick(option: FilterOption)
      modifies this
      ensures fresh(staged) && staged.value == Filters(option.value)
      ensures committed == old(committed) && open == old(open)
    {
      staged := new FiltersObject(Filters(option.value));
    }

    /** "Reset" stages a new "all" object without committing or closing. */
    method Reset()
      modifies this
      ensures fresh(staged) && staged.value == Filters(All) && !IsFiltered(staged.value)
      ensures committed == old(committed) && open == old(open)
    {
      staged := new FiltersObject(Filters(All));
    }

    /**
     * "Apply Filters" hands exactly the staged object to the ledger and
     * closes the drawer; `applied` is the value passed to `onChange`.
     */
    method Apply() returns (applied: Filters)
      modifies this
      ensures applied == old(staged).value
      ensures committed == old(staged) && staged == old(staged) && !open
    {
      applied := staged.value;
      committed := staged;
      open := false;
    }

    /** The backdrop and the close button shut the drawer without committing. */
    method Close()
      modifies this
      ensures !open
      ensures committed == old(committed) && staged == old(staged)
    {
      open := false;
    }

    /**
     * Closing without applying and opening again discards whatever was
     * staged in between: the drawer shows the committed filters once more.
     */
    method ReopenAfterPick(option: FilterOption)
      requires !open
      modifies this
      ensures open && committed == old(committed) && staged == committed
    {
      Open();
      Pick(option);
      Close();
      Open();
    }
  }
}
