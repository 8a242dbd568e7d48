/**
 * The list synchronisation logic that the three list pages (insumos,
 * proveedores, almacenes) each repeat with their own state, factored here
 * into one class: a snapshot of the fetched collection,
 * a filtered copy derived from a text filter on one name field, and a
 * page of that copy chosen by `page` and `rowsPerPage`.
 */
module ListSync {
  import opened JsText

  // ---------------------------------------------------------------------
  // The filter effect
  // ---------------------------------------------------------------------

  /** The filter predicate: the record's name, lower-cased, contains the lower-cased filter text. */
  predicate Matches<R>(name: R -> string, text: string, x: R)
    ensures text == "" ==> Matches(name, text, x)
    ensures Matches(name, text, x) ==> |text| <= |name(x)|
  {
    Includes(ToLower(name(x)), ToLower(text))
  }

  /** `rows.filter(item => name(item).toLowerCase().includes(text.toLowerCase()))`. */
  function Filter<R>(rows: seq<R>, name: R -> string, text: string): (r: seq<R>)
    ensures |r| <= |rows|
    ensures forall k :: 0 <= k < |r| ==> Matches(name, text, r[k])
  {
    if rows == [] then []
    else (if Matches(name, text, rows[0]) then [rows[0]] else []) + Filter(rows[1..], name, text)
  }

  /** `idx` lists, in strictly increasing order, the positions in `b` that make up `a`. */
  ghost predicate SubsequenceVia<T>(a: seq<T>, b: seq<T>, idx: seq<nat>) {
    && |idx| == |a|
    && (forall k :: 0 <= k < |idx| ==> idx[k] < |b| && a[k] == b[idx[k]])
    && (forall k, m :: 0 <= k < m < |idx| ==> idx[k] < idx[m])
  }

  /** `a` is an order-preserving subsequence of `b`. */
  ghost predicate IsSubsequence<T>(a: seq<T>, b: seq<T>) {
    exists idx :: SubsequenceVia(a, b, idx)
  }

  /** Every position of `idx`, moved one place to the right. */
  function Shifted(idx: seq<nat>): (r: seq<nat>)
    ensures |r| == |idx| && forall k :: 0 <= k < |idx| ==> r[k] == idx[k] + 1
  {
    seq(|idx|, k requires 0 <= k < |idx| => idx[k] + 1)
  }

  /** A subsequence of the tail of `b` is a subsequence of `b`, at the shifted positions. */
  lemma SubsequenceSkip<T>(a: seq<T>, b: seq<T>, idx: seq<nat>)
    requires b != [] && SubsequenceVia(a, b[1..], idx)
    ensures SubsequenceVia(a, b, Shifted(idx))
  {
  }

  /** Putting the head of `b` in front of a subsequence of its tail gives a subsequence of `b`. */
  lemma SubsequenceTake<T>(a: seq<T>, b: seq<T>, idx: seq<nat>)
    requires b != [] && SubsequenceVia(a, b[1..], idx)
    ensures SubsequenceVia([b[0]] + a, b, [0] + Shifted(idx))
  {
    SubsequenceSkip(a, b, idx);
  }

  /** The positions in `rows` that the filter keeps, in order. */
  lemma {:induction false} FilterPositions<R>(rows: seq<R>, name: R -> string, text: string)
    returns (idx: seq<nat>)
    ensures SubsequenceVia(Filter(rows, name, text), rows, idx)
  {
    if rows == [] {
      idx := [];
    } else {
      var tail := FilterPositions(rows[1..], name, text);
      var rest := Filter(rows[1..], name, text);
      if Matches(name, text, rows[0]) {
        SubsequenceTake(rest, rows, tail);
        idx := [0] + Shifted(tail);
      } else {
        SubsequenceSkip(rest, rows, tail);
        idx := Shifted(tail);
      }
    }
  }

  /** The filtered view is an order-preserving subsequence of the snapshot. */
  lemma FilterIsSubsequence<R>(rows: seq<R>, name: R -> string, text: string)
    ensures IsSubsequence(Filter(rows, name, text), rows)
  {
    var idx := FilterPositions(rows, name, text);
  }

  /** The filter keeps exactly the records that match, and drops exactly those that do not. */
  lemma {:induction false} FilterMembership<R>(rows: seq<R>, name: R -> string, text: string, x: R)
    ensures x in Filter(rows, name, text) <==> x in rows && Matches(name, text, x)
  {
    if rows != [] {
      FilterMembership(rows[1..], name, text, x);
      assert rows == [rows[0]] + rows[1..];
    }
  }

  /** Filtering distributes over concatenation: it decides record by record. */
  lemma {:induction false} FilterAppend<R>(a: seq<R>, b: seq<R>, name: R -> string, text: string)
    ensures Filter(a + b, name, text) == Filter(a, name, text) + Filter(b, name, text)
  {
    if a == [] {
      assert a + b == b;
    } else {
      var ab := a + b;
      assert ab[0] == a[0];
      assert ab[1..] == a[1..] + b;
      FilterAppend(a[1..], b, name, text);
      var head := if Matches(name, text, a[0]) then [a[0]] else [];
      calc {
        Filter(ab, name, text);
        head + Filter(a[1..] + b, name, text);
        head + (Filter(a[1..], name, text) + Filter(b, name, text));
        (head + Filter(a[1..], name, text)) + Filter(b, name, text);
      }
    }
  }

  /** A sequence all of whose records match passes through the filter unchanged. */
  lemma {:induction false} FilterKeepsMatching<R>(rows: seq<R>, name: R -> string, text: string)
    requires forall k :: 0 <= k < |rows| ==> Matches(name, text, rows[k])
    ensures Filter(rows, name, text) == rows
  {
    if rows != [] {
      FilterKeepsMatching(rows[1..], name, text);
    }
  }

  /** An empty filter text keeps every record. */
  lemma FilterEmptyText<R>(rows: seq<R>, name: R -> string)
    ensures Filter(rows, name, "") == rows
  {
    FilterKeepsMatching(rows, name, "");
  }

  /** Filtering the filtered view again with the same text changes nothing. */
  lemma FilterIdempotent<R>(rows: seq<R>, name: R -> string, text: string)
    ensures Filter(Filter(rows, name, text), name, text) == Filter(rows, name, text)
  {
    FilterKeepsMatching(Filter(rows, name, text), name, text);
  }

  /** The filter ignores the ASCII case of the filter text: lower-casing it first changes nothing. */
  lemma FilterIgnoresCase<R>(rows: seq<R>, name: R -> string, text: string)
    ensures Filter(rows, name, ToLower(text)) == Filter(rows, name, text)
  {
    ToLowerIdempotent(text);
  }

  // ---------------------------------------------------------------------
  // applyPagination
  // ---------------------------------------------------------------------

  /** `rows.slice(page * rowsPerPage, page * rowsPerPage + rowsPerPage)`. */
  function ApplyPagination<R>(rows: seq<R>, page: int, rowsPerPage: int): (r: seq<R>)
    ensures |r| <= |rows|
    ensures |r| == Max(RelativeIndex(page * rowsPerPage + rowsPerPage, |rows|) - RelativeIndex(page * rowsPerPage, |rows|), 0)
    ensures RelativeIndex(page * rowsPerPage, |rows|) + |r| <= |rows|
    ensures forall k :: 0 <= k < |r| ==> r[k] == rows[RelativeIndex(page * rowsPerPage, |rows|) + k]
  {
    var r := Slice(rows, page * rowsPerPage, page * rowsPerPage + rowsPerPage);
    assert r == rows[RelativeIndex(page * rowsPerPage, |rows|)..RelativeIndex(page * rowsPerPage, |rows|) + |r|];
    r
  }

  /** A slice `[start, start + n)` with non-negative bounds is the clipped slice, of at most `n` records. */
  lemma SliceFrom<R>(rows: seq<R>, start: nat, n: nat)
    ensures var r := Slice(rows, start, start + n);
            && r == rows[Min(start, |rows|)..Min(start + n, |rows|)]
            && |r| <= n
            && (forall k :: 0 <= k < |r| ==> r[k] == rows[start + k])
            && (n > 0 ==> (r == [] <==> start >= |rows|))
  {
  }

  /**
   * For a non-negative page and page size, the page is the slice
   * `[page*n, page*n + n)` clipped to the bounds of `rows`: at most `n`
   * records, record `k` of the page is record `page*n + k` of `rows`, and
   * the page is empty exactly when it starts at or past the end.
   */
  lemma PaginationIsClippedSlice<R>(rows: seq<R>, page: int, rowsPerPage: int)
    requires page >= 0 && rowsPerPage >= 0
    ensures var start := page * rowsPerPage;
            var r := ApplyPagination(rows, page, rowsPerPage);
            && start >= 0
            && r == rows[Min(start, |rows|)..Min(start + rowsPerPage, |rows|)]
            && |r| <= rowsPerPage
            && (forall k :: 0 <= k < |r| ==> r[k] == rows[start + k])
            && (rowsPerPage > 0 ==> (r == [] <==> start >= |rows|))
  {
    SliceFrom(rows, page * rowsPerPage, rowsPerPage);
  }

  /** The example of a seven-record view shown five per page: page 1 holds records 5 and 6. */
  lemma SecondPageOfSeven<R>(rows: seq<R>)
    requires |rows| == 7
    ensures ApplyPagination(rows, 1, 5) == [rows[5], rows[6]]
  {
    PaginationIsClippedSlice(rows, 1, 5);
  }

  /** Consecutive pages tile the view: the first `p` pages of size `n`, laid end to end, are its first `p*n` records (clipped). */
  lemma {:induction false} PagesTile<R>(rows: seq<R>, p: nat, n: nat)
    ensures Min(p * n, |rows|) <= |rows|
    ensures rows[..Min(p * n, |rows|)] + ApplyPagination(rows, p, n) == rows[..Min(p * n + n, |rows|)]
  {
    PaginationIsClippedSlice(rows, p, n);
    assert p * n >= 0;
  }

  // ---------------------------------------------------------------------
  // The controller state of one list page
  // ---------------------------------------------------------------------

  /** What `await fetch(url)` followed by `await response.json()` produced: the parsed list, or an exception. */
  datatype FetchOutcome<T> = Fetched(data: T) | Threw

  /**
   * The React state of a list page: `snapshot` is the fetched collection
   * (`insumo`, `proveedor`, `almacen`), `filtered` its filtered copy
   * (`filteredInsumo`, ...). `name` is the page's name field.
   */
  class ListController<R> {
    const name: R -> string
    var snapshot: seq<R>
    var filtered: seq<R>
    var filterText: string
    var page: int
    var rowsPerPage: int

    /** The filtered copy agrees with the filter effect applied to the current state. */
    ghost predicate Settled()
      reads this
    {
      filtered == Filter(snapshot, name, filterText)
    }

    /** The `useState` initial values, the same in all three pages. */
    constructor (name: R -> string)
      ensures this.name == name
      ensures snapshot == [] && filtered == []
      ensures filterText == "" && page == 0 && rowsPerPage == 5
      ensures Settled()
    {
      this.name := name;
      snapshot, filtered := [], [];
      filterText, page, rowsPerPage := "", 0, 5;
    }

    /**
     * `reloadTable` (and the mount-time `fetchData`, which has the same
     * body): on success both the snapshot and the filtered copy become the
     * fetched data; when the fetch or the JSON parse throws, nothing changes.
     */
    method ReloadTable(outcome: FetchOutcome<seq<R>>)
      modifies this
      ensures outcome.Fetched? ==> snapshot == outcome.data && filtered == outcome.data
      ensures outcome.Threw? ==> snapshot == old(snapshot) && filtered == old(filtered)
      ensures filterText == old(filterText) && page == old(page) && rowsPerPage == old(rowsPerPage)
    {
      match outcome
      case Fetched(data) =>
        snapshot := data;
        filtered := data;
      case Threw =>
    }

    /** The effect keyed on `[filterText, snapshot]`: recompute the filtered copy. */
    method FilterEffect()
      modifies this
      ensures Settled()
      ensures filtered == Filter(snapshot, name, filterText)
      ensures snapshot == old(snapshot) && filterText == old(filterText)
      ensures page == old(page) && rowsPerPage == old(rowsPerPage)
    {
      filtered := Filter(snapshot, name, filterText);
    }

    /** `onFilterChange`: `setFilterText(text)`, after which React runs the filter effect. */
    method ChangeFilter(text: string)
      modifies this
      ensures filterText == text && Settled()
      ensures snapshot == old(snapshot)
      ensures page == old(page) && rowsPerPage == old(rowsPerPage)
    {
      filterText := text;
      FilterEffect();
    }

    /** `onPageChange`. */
    method SetPage(p: int)
      modifies this
      ensures page == p
      ensures snapshot == old(snapshot) && filtered == old(filtered)
      ensures filterText == old(filterText) && rowsPerPage == old(rowsPerPage)
    {
      page := p;
    }

    /** `onRowsPerPageChange`. */
    method SetRowsPerPage(n: int)
      modifies this
      ensures rowsPerPage == n
      ensures snapshot == old(snapshot) && filtered == old(filtered)
      ensures filterText == old(filterText) && page == old(page)
    {
      rowsPerPage := n;
    }

    /** The rows handed to the table: `applyPagination(filtered, page, rowsPerPage)`. */
    function VisibleRows(): (r: seq<R>)
      reads this
      ensures |r| <= |filtered|
      ensures page >= 0 && rowsPerPage >= 0 ==> |r| <= rowsPerPage
    {
      if page >= 0 && rowsPerPage >= 0 then
        PaginationIsClippedSlice(filtered, page, rowsPerPage);
        ApplyPagination(filtered, page, rowsPerPage)
      else
        ApplyPagination(filtered, page, rowsPerPage)
    }

    /** The `count` handed to the table, as written: the snapshot's length. */
    function Count(): (c: nat)
      reads this
      ensures Settled() ==> |filtered| <= c
    {
      |snapshot|
    }

    /** The `count` the pager evidently needs: the length of the view it pages through. */
    function FilteredCount(): (c: nat)
      reads this
      ensures Settled() ==> c <= Count()
    {
      |filtered|
    }
  }

  /** After a successful reload and the effect React runs next, the view is the filtered fetched data. */
  method ReloadThenFilter<R>(list: ListController<R>, data: seq<R>)
    modifies list
    ensures list.snapshot == data && list.filtered == Filter(data, list.name, list.filterText)
    ensures list.filterText == old(list.filterText)
    ensures list.page == old(list.page) && list.rowsPerPage == old(list.rowsPerPage)
  {
    list.ReloadTable(Fetched(data));
    list.FilterEffect();
  }

  /** When no filter text is set, a successful reload alone leaves the view settled. */
  method ReloadWithoutFilter<R>(list: ListController<R>, data: seq<R>)
    requires list.filterText == ""
    modifies list
    ensures list.Settled() && list.snapshot == data && list.filtered == data
    ensures list.filterText == old(list.filterText) && list.page == old(list.page) && list.rowsPerPage == old(list.rowsPerPage)
  {
    list.ReloadTable(Fetched(data));
    FilterEmptyText(data, list.name);
  }

  /** Reloading twice from an unchanged backing collection ends with the same snapshot and view as reloading once. */
  method ReloadTwice<R>(list: ListController<R>, data: seq<R>)
    modifies list
    ensures list.snapshot == data && list.filtered == data
    ensures list.filterText == old(list.filterText) && list.page == old(list.page) && list.rowsPerPage == old(list.rowsPerPage)
  {
    list.ReloadTable(Fetched(data));
    list.ReloadTable(Fetched(data));
  }

  // ---------------------------------------------------------------------
  // The table count
  // ---------------------------------------------------------------------

  /** The name projection of a list of plain names. */
  function NameItself(s: string): string { s }

  /** A string with no upper-case letter is its own lower-case form. */
  lemma LowerIsFixed(s: string)
    requires forall i :: 0 <= i < |s| ==> !IsAsciiUpper(s[i])
    ensures ToLower(s) == s
  {
  }

  lemma CentralMatchesCent()
    ensures Matches(NameItself, "cent", "Central")
  {
    var central := "Central";
    assert central[1..] == "entral";
    LowerIsFixed("entral");
    LowerIsFixed("cent");
    assert ToLower(central) == "central";
    assert "central"[..4] == "cent";
  }

  lemma NorteMissesCent()
    ensures !Matches(NameItself, "cent", "Norte")
  {
    var norte := "Norte";
    assert norte[1..] == "orte";
    LowerIsFixed("orte");
    LowerIsFixed("cent");
    assert ToLower(norte) == "norte";
    IncludesIff("norte", "cent");
    forall i | 0 <= i <= 1 ensures !OccursAt("norte", "cent", i) {
      assert "norte"[i] != 'c';
    }
  }

  /** The filter text "cent" over the names "Central" and "Norte" keeps "Central" only. */
  lemma CentExample()
    ensures Filter(["Central", "Norte"], NameItself, "cent") == ["Central"]
  {
    CentralMatchesCent();
    NorteMissesCent();
    var rows: seq<string> := ["Central", "Norte"];
    assert rows[1..] == ["Norte"];
    assert rows[1..][1..] == [];
  }

  /**
   * With the snapshot length as `count`, the pager can offer a page index
   * (one whose first row is below `count`) that shows no row at all: a
   * settled controller over "Central" and "Norte", filter "cent", one row
   * per page, on page 1.
   */
  method SnapshotCountOffersEmptyPage() returns (list: ListController<string>)
    ensures list.snapshot == ["Central", "Norte"] && list.filterText == "cent"
    ensures list.page == 1 && list.rowsPerPage == 1
    ensures list.Settled() && list.page * list.rowsPerPage < list.Count() && list.VisibleRows() == []
  {
    list := new ListController(NameItself);
    list.ReloadTable(Fetched(["Central", "Norte"]));
    list.ChangeFilter("cent");
    list.SetRowsPerPage(1);
    list.SetPage(1);
    CentExample();
  }

  /** With the filtered length as `count`, every page the pager offers shows at least one row, the view's record at `page*rowsPerPage` first. */
  lemma FilteredCountOffersOnlyNonEmptyPages<R>(list: ListController<R>)
    requires list.rowsPerPage > 0 && list.page >= 0
    requires list.page * list.rowsPerPage < list.FilteredCount()
    ensures list.VisibleRows() != []
    ensures list.VisibleRows()[0] == list.filtered[list.page * list.rowsPerPage]
  {
    PaginationIsClippedSlice(list.filtered, list.page, list.rowsPerPage);
  }
}
