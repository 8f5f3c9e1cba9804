/**
 * The employee list page: the sort-state toggle, the comparator and the
 * sorted copy of the list it renders, the trimmed-query search, "show all",
 * and the delete confirmation, with the page's React state as an object.
 */
module EmployeesPage {
  import opened Wrappers
  import opened Text
  import opened EmployeesSlice

  datatype SearchField = SearchByName | SearchByEmployeeId | SearchByDepartment
  datatype SortField = SortByEmployeeId | SortByName | SortByDepartment
  datatype Direction = Asc | Desc
  datatype SortState = SortState(field: SortField, direction: Direction)

  /** The `condition` string a search field sends; distinct fields send distinct strings. */
  function ConditionName(f: SearchField): (r: string)
    ensures r == "name" <==> f == SearchByName
    ensures r == "employeeId" <==> f == SearchByEmployeeId
    ensures r == "department" <==> f == SearchByDepartment
  {
    match f
    case SearchByName => "name"
    case SearchByEmployeeId => "employeeId"
    case SearchByDepartment => "department"
  }

  /** The sort the page starts with: by employee id, ascending. */
  function InitialSort(): (r: SortState)
    ensures r.field == SortByEmployeeId && r.direction == Asc
    ensures HandleSort(r, SortByEmployeeId).direction == Desc
    ensures forall f :: f != SortByEmployeeId ==> HandleSort(r, f) == SortState(f, Asc)
  {
    SortState(SortByEmployeeId, Asc)
  }

  /** `handleSort`: the current field flips its direction; a new field starts ascending. */
  function HandleSort(prev: SortState, field: SortField): (r: SortState)
    ensures r.field == field
    ensures prev.field == field ==> r.direction != prev.direction
    ensures prev.field != field ==> r.direction == Asc
  {
    if prev.field == field then SortState(field, if prev.direction == Asc then Desc else Asc)
    else SortState(field, Asc)
  }

  /** Clicking the same header twice restores the sort. */
  lemma HandleSortTwiceRestores(prev: SortState)
    ensures HandleSort(HandleSort(prev, prev.field), prev.field) == prev
  {
  }

  /** `a[sort.field] ?? ""`. */
  function SortKey(e: Employee, f: SortField): (r: string)
    ensures f == SortByEmployeeId ==> r == e.employeeId
    ensures f == SortByName ==> r == e.name
    ensures f == SortByDepartment ==> r == (if e.department.Some? then e.department.value else "")
    ensures f == SortByDepartment && e.department.None? ==> forall x :: x == r || LexLess(r, x)
  {
    match f
    case SortByEmployeeId => e.employeeId
    case SortByName => e.name
    case SortByDepartment => e.department.GetOr("")
  }

  /**
   * The comparator handed to `sort`: always -1, 0 or 1, and 0 only for equal
   * keys; `CompareMeaning` relates its sign to the chosen order.
   */
  function Compare(sort: SortState, a: Employee, b: Employee): (r: int)
    ensures r == -1 || r == 0 || r == 1
    ensures r == 0 <==> SortKey(a, sort.field) == SortKey(b, sort.field)
  {
    var x, y := SortKey(a, sort.field), SortKey(b, sort.field);
    if x == y then 0
    else if sort.direction == Asc then (if LexLess(y, x) then 1 else -1)
    else (if LexLess(x, y) then 1 else -1)
  }

  /** String `<=`. */
  predicate KeyLe(x: string, y: string) {
    x == y || LexLess(x, y)
  }

  /** `a` may stand before `b`: its key is no larger in ascending order, no smaller in descending order. */
  predicate InOrder(sort: SortState, a: Employee, b: Employee) {
    var x, y := SortKey(a, sort.field), SortKey(b, sort.field);
    if sort.direction == Asc then KeyLe(x, y) else KeyLe(y, x)
  }

  /** The comparator is zero exactly on equal keys, antisymmetric, and non-positive exactly on ordered pairs. */
  lemma CompareMeaning(sort: SortState, a: Employee, b: Employee)
    ensures Compare(sort, a, b) == 0 <==> SortKey(a, sort.field) == SortKey(b, sort.field)
    ensures Compare(sort, a, b) == -Compare(sort, b, a)
    ensures Compare(sort, a, b) <= 0 <==> InOrder(sort, a, b)
  {
    LexLessTrichotomy(SortKey(a, sort.field), SortKey(b, sort.field));
  }

  lemma InOrderTransitive(sort: SortState, a: Employee, b: Employee, c: Employee)
    requires InOrder(sort, a, b) && InOrder(sort, b, c)
    ensures InOrder(sort, a, c)
  {
    var x, y, z := SortKey(a, sort.field), SortKey(b, sort.field), SortKey(c, sort.field);
    if sort.direction == Asc {
      if x != y && y != z { LexLessTransitive(x, y, z); }
    } else {
      if x != y && y != z { LexLessTransitive(z, y, x); }
    }
  }

  /** Every pair of the list, not only neighbours, is in order. */
  predicate Sorted(sort: SortState, xs: seq<Employee>) {
    forall i, j :: 0 <= i < j < |xs| ==> InOrder(sort, xs[i], xs[j])
  }

  /** Neighbours in order on `[lo, hi)`, except the pair ending at `skip`. */
  predicate NeighboursInOrder(sort: SortState, xs: seq<Employee>, hi: int, skip: int)
    requires hi <= |xs|
  {
    forall k :: 0 < k < hi && k != skip ==> InOrder(sort, xs[k - 1], xs[k])
  }

  lemma {:induction false} NeighboursGiveSorted(sort: SortState, xs: seq<Employee>)
    requires NeighboursInOrder(sort, xs, |xs|, -1)
    ensures Sorted(sort, xs)
    decreases |xs|
  {
    if |xs| > 1 {
      var init := xs[..|xs| - 1];
      assert NeighboursInOrder(sort, init, |init|, -1) by {
        forall k | 0 < k < |init| ensures InOrder(sort, init[k - 1], init[k]) {
          assert init[k - 1] == xs[k - 1] && init[k] == xs[k];
        }
      }
      NeighboursGiveSorted(sort, init);
      var last := |xs| - 1;
      forall i | 0 <= i < last
        ensures InOrder(sort, xs[i], xs[last])
      {
        LastAbove(sort, xs, i);
      }
    }
  }

  lemma {:induction false} LastAbove(sort: SortState, xs: seq<Employee>, i: int)
    requires NeighboursInOrder(sort, xs, |xs|, -1)
    requires 0 <= i < |xs| - 1
    ensures InOrder(sort, xs[i], xs[|xs| - 1])
    decreases |xs| - i
  {
    if i < |xs| - 2 {
      LastAbove(sort, xs, i + 1);
      InOrderTransitive(sort, xs[i], xs[i + 1], xs[|xs| - 1]);
    }
  }

  /** `s` with the neighbours at `j - 1` and `j` exchanged. */
  function Swapped(s: seq<Employee>, j: int): (r: seq<Employee>)
    requires 0 < j < |s|
    ensures |r| == |s| && multiset(r) == multiset(s)
  {
    s[j - 1 := s[j]][j := s[j - 1]]
  }

  /** While the element from `i` sinks to `j`: all neighbours up to `i` are in order but the pair at `j`, which its outer neighbours bridge. */
  predicate Sinking(sort: SortState, s: seq<Employee>, i: int, j: int) {
    0 <= j <= i < |s| &&
    NeighboursInOrder(sort, s, i + 1, j) &&
    (0 < j < i ==> InOrder(sort, s[j - 1], s[j + 1]))
  }

  /** One swap of an out-of-order pair moves the gap one place down. */
  lemma SwapSinks(sort: SortState, s: seq<Employee>, i: int, j: int)
    requires Sinking(sort, s, i, j) && j > 0
    requires Compare(sort, s[j - 1], s[j]) > 0
    ensures Sinking(sort, Swapped(s, j), i, j - 1)
  {
    CompareMeaning(sort, s[j - 1], s[j]);
    var t := Swapped(s, j);
    forall k | 0 < k < i + 1 && k != j - 1
      ensures InOrder(sort, t[k - 1], t[k])
    {
      if k == j {
      } else if k == j + 1 {
      } else {
        assert t[k - 1] == s[k - 1] && t[k] == s[k];
      }
    }
  }

  /** Sink `a[i]` into the ordered prefix `a[..i]`. */
  method Insert(a: array<Employee>, i: int, sort: SortState)
    requires 0 < i < a.Length
    requires NeighboursInOrder(sort, a[..], i, -1)
    modifies a
    ensures multiset(a[..]) == old(multiset(a[..]))
    ensures NeighboursInOrder(sort, a[..], i + 1, -1)
  {
    var j := i;
    while j > 0 && Compare(sort, a[j - 1], a[j]) > 0
      invariant Sinking(sort, a[..], i, j)
      invariant multiset(a[..]) == old(multiset(a[..]))
    {
      ghost var before := a[..];
      SwapSinks(sort, before, i, j);
      a[j - 1], a[j] := a[j], a[j - 1];
      assert a[..] == Swapped(before, j);
      j := j - 1;
    }
    if j > 0 {
      CompareMeaning(sort, a[j - 1], a[j]);
    }
  }

  /**
   * `sortedItems`: no list gives `[]`; otherwise a sorted copy.  The copy is
   * a fresh array, so the store's list is never reordered; it is sorted by
   * insertion, swapping neighbours while the comparator is positive.
   */
  method SortedItems(items: Option<seq<Employee>>, sort: SortState) returns (r: seq<Employee>)
    ensures items.None? ==> r == []
    ensures items.Some? ==> multiset(r) == multiset(items.value) && |r| == |items.value|
    ensures Sorted(sort, r)
  {
    if items.None? {
      return [];
    }
    var xs := items.value;
    var copied := new Employee[|xs|](k requires 0 <= k < |xs| => xs[k]);
    assert copied[..] == xs;
    var i := 1;
    while i < copied.Length
      invariant 1 <= i
      invariant multiset(copied[..]) == multiset(xs)
      invariant NeighboursInOrder(sort, copied[..], if i < copied.Length then i else copied.Length, -1)
    {
      Insert(copied, i, sort);
      i := i + 1;
    }
    r := copied[..];
    NeighboursGiveSorted(sort, r);
  }

  /**
   * `searchEmployees`: a query that is blank after trimming sends nothing;
   * otherwise a by-condition request for the selected field and the trimmed query.
   */
  function SearchRequest(query: string, field: SearchField): (r: Option<Action>)
    ensures r.None? <==> AllIn(query, IsJsWhitespace)
    ensures r.Some? ==> r.value.FetchEmployeesByConditionRequest?
    ensures r.Some? ==> r.value.condition.condition == ConditionName(field)
    ensures r.Some? ==> r.value.condition.value == Trim(query) && r.value.condition.value != ""
  {
    var trimmed := Trim(query);
    if trimmed == "" then None
    else Some(FetchEmployeesByConditionRequest(SearchCondition(ConditionName(field), trimmed)))
  }

  /** The page's state, and the actions it has dispatched to the store, in order. */
  class ListPage {
    var query: string
    var searchField: SearchField
    var sort: SortState
    var deleteConfirmOpen: bool
    var selectedEmployeeId: Nullable<int>
    var dispatched: seq<Action>

    /** The first render and its mount effect, which asks for the whole list. */
    constructor ()
      ensures query == "" && searchField == SearchByName && sort == InitialSort()
      ensures !deleteConfirmOpen && selectedEmployeeId == Null
      ensures dispatched == [FetchEmployeesRequest]
    {
      query := "";
      searchField := SearchByName;
      sort := InitialSort();
      deleteConfirmOpen := false;
      selectedEmployeeId := Null;
      dispatched := [FetchEmployeesRequest];
    }

    method QueryChange(value: string)
      modifies this
      ensures query == value
      ensures searchField == old(searchField) && sort == old(sort) && dispatched == old(dispatched)
      ensures deleteConfirmOpen == old(deleteConfirmOpen) && selectedEmployeeId == old(selectedEmployeeId)
    {
      query := value;
    }

    method SearchFieldChange(field: SearchField)
      modifies this
      ensures searchField == field
      ensures query == old(query) && sort == old(sort) && dispatched == old(dispatched)
      ensures deleteConfirmOpen == old(deleteConfirmOpen) && selectedEmployeeId == old(selectedEmployeeId)
    {
      searchField := field;
    }

    /** `searchEmployees`; the alert on a blank query is not modelled. */
    method Search()
      modifies this
      ensures AllIn(query, IsJsWhitespace) ==> dispatched == old(dispatched)
      ensures !AllIn(query, IsJsWhitespace) ==>
        dispatched == old(dispatched) + [SearchRequest(query, searchField).value]
      ensures query == old(query) && searchField == old(searchField) && sort == old(sort)
      ensures deleteConfirmOpen == old(deleteConfirmOpen) && selectedEmployeeId == old(selectedEmployeeId)
    {
      var request := SearchRequest(query, searchField);
      if request.Some? {
        dispatched := dispatched + [request.value];
      }
    }

    /** `showAllEmployees`: clear the query and ask for the whole list. */
    method ShowAll()
      modifies this
      ensures query == "" && dispatched == old(dispatched) + [FetchEmployeesRequest]
      ensures searchField == old(searchField) && sort == old(sort)
      ensures deleteConfirmOpen == old(deleteConfirmOpen) && selectedEmployeeId == old(selectedEmployeeId)
    {
      query := "";
      dispatched := dispatched + [FetchEmployeesRequest];
    }

    /** `handleKeyDown`: Enter outside an IME composition searches; any other key does nothing. */
    method KeyDown(key: string, isComposing: bool)
      modifies this
      ensures key == "Enter" && !isComposing && !AllIn(query, IsJsWhitespace) ==>
        dispatched == old(dispatched) + [SearchRequest(query, searchField).value]
      ensures !(key == "Enter" && !isComposing && !AllIn(query, IsJsWhitespace)) ==> dispatched == old(dispatched)
      ensures query == old(query) && searchField == old(searchField) && sort == old(sort)
      ensures deleteConfirmOpen == old(deleteConfirmOpen) && selectedEmployeeId == old(selectedEmployeeId)
    {
      if key == "Enter" && !isComposing {
        Search();
      }
    }

    method SortBy(field: SortField)
      modifies this
      ensures sort == HandleSort(old(sort), field)
      ensures query == old(query) && searchField == old(searchField) && dispatched == old(dispatched)
      ensures deleteConfirmOpen == old(deleteConfirmOpen) && selectedEmployeeId == old(selectedEmployeeId)
    {
      sort := HandleSort(sort, field);
    }

    /** `handleDeleteClick`: remember the id and open the confirmation. */
    method DeleteClick(id: int)
      modifies this
      ensures selectedEmployeeId == NonNull(id) && deleteConfirmOpen
      ensures query == old(query) && searchField == old(searchField) && sort == old(sort)
      ensures dispatched == old(dispatched)
    {
      selectedEmployeeId := NonNull(id);
      deleteConfirmOpen := true;
    }

    /** `handleConfirmDelete`: delete the selected id if there is one; always clear and close. */
    method ConfirmDelete()
      modifies this
      ensures old(selectedEmployeeId).NonNull? ==>
        dispatched == old(dispatched) + [DeleteEmployeeRequest(old(selectedEmployeeId).value)]
      ensures old(selectedEmployeeId).Null? ==> dispatched == old(dispatched)
      ensures selectedEmployeeId == Null && !deleteConfirmOpen
      ensures query == old(query) && searchField == old(searchField) && sort == old(sort)
    {
      if selectedEmployeeId.NonNull? {
        dispatched := dispatched + [DeleteEmployeeRequest(selectedEmployeeId.value)];
      }
      selectedEmployeeId := Null;
      deleteConfirmOpen := false;
    }
  }
}
