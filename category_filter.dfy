/**
 * The category chips above the dashboard's product grid: which categories the grid's
 * `category.id` filter selects, what a click on one chip asks the grid to filter by,
 * and the "all categories" chip that clears the selection.
 */
module CategoryFilter {
  import opened Options
  import opened JsValues
  import opened Seqs

  const CategoryField := "category.id"
  const InOperator := "in"

  /** The value of a logical filter: nullish, an array, or anything else (which has no `map`). */
  datatype FilterValue = Nullish | Items(items: seq<JsValue>) | NotArray

  /** A grid filter: a logical one on a field, or an `and`/`or` of other filters (no `field`). */
  datatype CrudFilter =
    | Logical(field: string, operator: string, value: FilterValue)
    | Conditional(operator: string, filters: seq<CrudFilter>)

  /** What the memo computes before keeping only its `value`. */
  datatype Extracted = Extracted(operator: string, value: seq<JsValue>)

  predicate IsCategoryFilter(filter: CrudFilter) {
    filter.Logical? && filter.field == CategoryField
  }

  /** `filters.find(...)`: the first logical filter on `category.id`. */
  function FindCategoryFilter(filters: seq<CrudFilter>): (r: Option<CrudFilter>)
    ensures r.None? <==> forall i :: 0 <= i < |filters| ==> !IsCategoryFilter(filters[i])
    ensures r.Some? ==> IsCategoryFilter(r.value)
    ensures r.Some? ==>
      exists i :: 0 <= i < |filters| && filters[i] == r.value && (forall j :: 0 <= j < i ==> !IsCategoryFilter(filters[j]))
  {
    if filters == [] then None
    else if IsCategoryFilter(filters[0]) then Some(filters[0])
    else
      var r := FindCategoryFilter(filters[1..]);
      if r.Some? then
        var i :| 0 <= i < |filters[1..]| && filters[1..][i] == r.value &&
          (forall j :: 0 <= j < i ==> !IsCategoryFilter(filters[1..][j]));
        assert filters[i + 1] == r.value;
        assert forall j :: 0 <= j < i + 1 ==> !IsCategoryFilter(filters[j]) by {
          forall j | 0 <= j < i + 1 ensures !IsCategoryFilter(filters[j]) {
            if j > 0 {
              assert filters[j] == filters[1..][j - 1];
            }
          }
        }
        r
      else
        assert forall i :: 0 <= i < |filters| ==> !IsCategoryFilter(filters[i]) by {
          forall i | 0 <= i < |filters| ensures !IsCategoryFilter(filters[i]) {
            if i > 0 {
              assert filters[i] == filters[1..][i - 1];
            }
          }
        }
        r
  }

  /** `values.map(value => Number(value))`. */
  function Numbers(values: seq<JsValue>): (r: seq<JsValue>)
    ensures |r| == |values|
    ensures forall i :: 0 <= i < |r| ==> r[i].Num? || r[i].NaN?
  {
    seq(|values|, i requires 0 <= i < |values| => ToNumber(values[i]))
  }

  /** Every element is a number, as `Number()` yields. */
  predicate AllNumbers(values: seq<JsValue>) {
    forall i :: 0 <= i < |values| ==> values[i].Num? || values[i].NaN?
  }

  /**
   * The memo over the grid's filters. `None` is the `TypeError` thrown when the category
   * filter's value is neither nullish nor an array, so `.map` is not a function.
   */
  function Extract(filters: seq<CrudFilter>): Option<Extracted> {
    match FindCategoryFilter(filters)
    case None => Some(Extracted(InOperator, []))
    case Some(filter) =>
      var operator := if filter.operator == "" then InOperator else filter.operator;
      match filter.value
      case Nullish => Some(Extracted(operator, []))
      case Items(items) => Some(Extracted(operator, Numbers(items)))
      case NotArray => None
  }

  /** `categoryFilters`: the selected category ids, the memo's `value`. */
  function CategoryFilters(filters: seq<CrudFilter>): Option<seq<JsValue>> {
    match Extract(filters)
    case None => None
    case Some(e) => Some(e.value)
  }

  /** `hasCategoryFilter`. */
  predicate HasCategoryFilter(categoryFilters: seq<JsValue>) {
    |categoryFilters| > 0
  }

  /** Whether the chip of `categoryId` is highlighted: `categoryFilters.includes(categoryId)`. */
  predicate IsSelected(categoryFilters: seq<JsValue>, categoryId: int) {
    Num(categoryId) in categoryFilters
  }

  /** The selection after clicking the chip of `categoryId`: deselect it if selected, else select it. */
  function Toggled(categoryFilters: seq<JsValue>, categoryId: int): seq<JsValue> {
    if IsSelected(categoryFilters, categoryId) then RemoveFirst(categoryFilters, Num(categoryId))
    else categoryFilters + [Num(categoryId)]
  }

  /** The filters a chip click hands to the grid. */
  function SelectionFilters(selection: seq<JsValue>): seq<CrudFilter> {
    [Logical(CategoryField, InOperator, Items(selection))]
  }

  /**
   * `handleOnTagClick(categoryId)`: copy the selection, remove the id's first occurrence with
   * `splice` or append it with `push`, then set a single `category.id in` filter and page 1.
   * The caller's selection is a value here, so the copy leaves it as it was.
   */
  method HandleOnTagClick(categoryFilters: seq<JsValue>, categoryId: int)
    returns (filtersArg: seq<CrudFilter>, pageArg: int)
    ensures filtersArg == SelectionFilters(Toggled(categoryFilters, categoryId))
    ensures pageArg == 1
    ensures AllNumbers(categoryFilters) ==> CategoryFilters(filtersArg) == Some(Toggled(categoryFilters, categoryId))
  {
    var newFilters := categoryFilters;
    var hasCurrentFilter := Num(categoryId) in newFilters;
    if hasCurrentFilter {
      var start := IndexOf(newFilters, Num(categoryId));
      newFilters := newFilters[..start] + newFilters[start + 1..];
      RemoveFirstAt(categoryFilters, Num(categoryId), start);
    } else {
      newFilters := newFilters + [Num(categoryId)];
    }
    filtersArg := SelectionFilters(newFilters);
    pageArg := 1;
    if AllNumbers(categoryFilters) {
      ToggledNumbers(categoryFilters, categoryId);
      ReExtract(newFilters);
    }
  }

  /** The "all categories" chip: an empty `category.id in` filter and page 1. */
  method SelectAllCategories() returns (filtersArg: seq<CrudFilter>, pageArg: int)
    ensures filtersArg == SelectionFilters([])
    ensures CategoryFilters(filtersArg) == Some([])
    ensures !HasCategoryFilter(CategoryFilters(filtersArg).value)
    ensures forall id :: !IsSelected(CategoryFilters(filtersArg).value, id)
    ensures pageArg == 1
  {
    filtersArg := [Logical(CategoryField, InOperator, Items([]))];
    pageArg := 1;
    assert IsCategoryFilter(filtersArg[0]);
  }

  // ----- extraction -----

  /** Without a `category.id` filter nothing is selected and the operator is `in`. */
  lemma NoCategoryFilter(filters: seq<CrudFilter>)
    requires forall i :: 0 <= i < |filters| ==> !IsCategoryFilter(filters[i])
    ensures Extract(filters) == Some(Extracted(InOperator, []))
  {
  }

  /** The first `category.id` filter decides: its values through `Number()`, its operator or `in`. */
  lemma {:induction false} FirstCategoryFilterDecides(filters: seq<CrudFilter>, i: nat)
    requires i < |filters| && IsCategoryFilter(filters[i])
    requires forall j :: 0 <= j < i ==> !IsCategoryFilter(filters[j])
    ensures Extract(filters) ==
      var f := filters[i];
      var operator := if f.operator == "" then InOperator else f.operator;
      match f.value
      case Nullish => Some(Extracted(operator, []))
      case Items(items) => Some(Extracted(operator, Numbers(items)))
      case NotArray => None
  {
    var r := FindCategoryFilter(filters);
    var k :| 0 <= k < |filters| && filters[k] == r.value && (forall j :: 0 <= j < k ==> !IsCategoryFilter(filters[j]));
    assert k == i;
  }

  /** Extraction fails exactly when the first `category.id` filter's value is not an array or nullish. */
  lemma ExtractFails(filters: seq<CrudFilter>)
    ensures Extract(filters).None? <==>
      FindCategoryFilter(filters).Some? && FindCategoryFilter(filters).value.value.NotArray?
  {
  }

  /** Whatever is extracted is a list of numbers. */
  lemma ExtractedNumbers(filters: seq<CrudFilter>)
    requires Extract(filters).Some?
    ensures AllNumbers(Extract(filters).value.value)
  {
  }

  /** Reading back the filters a click produced gives exactly the handed selection. */
  lemma ReExtract(selection: seq<JsValue>)
    requires AllNumbers(selection)
    ensures Extract(SelectionFilters(selection)) == Some(Extracted(InOperator, selection))
    ensures CategoryFilters(SelectionFilters(selection)) == Some(selection)
  {
    var filters := SelectionFilters(selection);
    assert IsCategoryFilter(filters[0]);
    assert Numbers(selection) == selection;
  }

  // ----- toggling -----

  /** An id not selected is appended at the end. */
  lemma ToggleAbsentAppends(categoryFilters: seq<JsValue>, categoryId: int)
    requires !IsSelected(categoryFilters, categoryId)
    ensures Toggled(categoryFilters, categoryId) == categoryFilters + [Num(categoryId)]
  {
  }

  /** A selected id loses its first occurrence; the others stay, in order. */
  lemma ToggleRemovesFirst(categoryFilters: seq<JsValue>, categoryId: int, i: nat)
    requires i < |categoryFilters| && categoryFilters[i] == Num(categoryId)
    requires forall j :: 0 <= j < i ==> categoryFilters[j] != Num(categoryId)
    ensures Toggled(categoryFilters, categoryId) == categoryFilters[..i] + categoryFilters[i + 1..]
  {
    RemoveFirstAt(categoryFilters, Num(categoryId), i);
  }

  /**
   * A click changes the count of its own id by one (up when absent, down when present) and
   * leaves every other value's count alone.
   */
  lemma ToggleCounts(categoryFilters: seq<JsValue>, categoryId: int)
    ensures IsSelected(categoryFilters, categoryId) ==>
      multiset(Toggled(categoryFilters, categoryId)) == multiset(categoryFilters) - multiset{Num(categoryId)}
    ensures !IsSelected(categoryFilters, categoryId) ==>
      multiset(Toggled(categoryFilters, categoryId)) == multiset(categoryFilters) + multiset{Num(categoryId)}
  {
    if IsSelected(categoryFilters, categoryId) {
      RemoveFirstMultiset(categoryFilters, Num(categoryId));
    }
  }

  /** After a click the chip is highlighted exactly when the id was not selected exactly once. */
  lemma ToggleHighlight(categoryFilters: seq<JsValue>, categoryId: int)
    ensures IsSelected(Toggled(categoryFilters, categoryId), categoryId) <==>
      multiset(categoryFilters)[Num(categoryId)] != 1
  {
    ToggleCounts(categoryFilters, categoryId);
    var r := Toggled(categoryFilters, categoryId);
    assert IsSelected(r, categoryId) <==> multiset(r)[Num(categoryId)] > 0;
    assert IsSelected(categoryFilters, categoryId) <==> multiset(categoryFilters)[Num(categoryId)] > 0;
  }

  /** After a click some category is selected unless the only selected id was the one clicked. */
  lemma ToggleLeavesSelection(categoryFilters: seq<JsValue>, categoryId: int)
    ensures HasCategoryFilter(Toggled(categoryFilters, categoryId)) <==> categoryFilters != [Num(categoryId)]
  {
    ToggleCounts(categoryFilters, categoryId);
    var r := Toggled(categoryFilters, categoryId);
    if categoryFilters != [Num(categoryId)] && IsSelected(categoryFilters, categoryId) {
      assert |multiset(categoryFilters)| == |categoryFilters|;
      assert |multiset(r)| == |r|;
      assert categoryFilters == [categoryFilters[0]] + categoryFilters[1..];
    }
  }

  /** Clicking an unselected chip twice gives back the very same selection. */
  lemma ToggleTwiceAbsent(categoryFilters: seq<JsValue>, categoryId: int)
    requires !IsSelected(categoryFilters, categoryId)
    ensures Toggled(Toggled(categoryFilters, categoryId), categoryId) == categoryFilters
  {
    var s := categoryFilters + [Num(categoryId)];
    ToggleRemovesFirst(s, categoryId, |categoryFilters|);
    assert s[..|categoryFilters|] == categoryFilters;
  }

  /**
   * Clicking a chip selected once twice gives back the same set of ids, with that id moved last:
   * the order is restored only when it already was last.
   */
  lemma ToggleTwicePresent(categoryFilters: seq<JsValue>, categoryId: int)
    requires multiset(categoryFilters)[Num(categoryId)] == 1
    ensures multiset(Toggled(Toggled(categoryFilters, categoryId), categoryId)) == multiset(categoryFilters)
    ensures Toggled(Toggled(categoryFilters, categoryId), categoryId) ==
      RemoveFirst(categoryFilters, Num(categoryId)) + [Num(categoryId)]
  {
    var once := Toggled(categoryFilters, categoryId);
    ToggleCounts(categoryFilters, categoryId);
    assert multiset(once)[Num(categoryId)] == 0;
    ToggleCounts(once, categoryId);
  }

  /** The order can change: `[3, 5]` clicked twice on 3 becomes `[5, 3]`. */
  lemma ToggleTwiceReorders()
    ensures Toggled(Toggled([Num(3), Num(5)], 3), 3) == [Num(5), Num(3)]
  {
    assert Toggled([Num(3), Num(5)], 3) == [Num(5)];
  }

  /** A toggled selection of numbers is still a selection of numbers. */
  lemma {:induction false} ToggledNumbers(categoryFilters: seq<JsValue>, categoryId: int)
    requires AllNumbers(categoryFilters)
    ensures AllNumbers(Toggled(categoryFilters, categoryId))
  {
    if IsSelected(categoryFilters, categoryId) {
      RemoveFirstMultiset(categoryFilters, Num(categoryId));
      var r := Toggled(categoryFilters, categoryId);
      forall i | 0 <= i < |r|
        ensures r[i].Num? || r[i].NaN?
      {
        assert multiset(r)[r[i]] > 0;
        assert r[i] in categoryFilters;
      }
    }
  }
}
