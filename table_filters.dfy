/**
 * The filter bar both data tables share: a search box bound to the
 * table's global filter, select boxes bound to column filters, and a
 * "Clear Filters" button. The table library keeps the column filters as
 * (column id, value) pairs with at most one entry per column; here they
 * are a map from column id to value. `getColumn(id)` yields nothing for
 * an id that is not one of the table's columns, so reading and writing a
 * filter through `?.` does nothing for such an id.
 */
module TableFilters {
  import opened Js

  datatype Filters = Filters(columnFilters: map<string, string>, globalFilter: string)

  /** Both tables start with no column filter and an empty search. */
  const NoFilters := Filters(map[], "")

  /** `value === "all" ? undefined : value`: the select's "all" entry
      stands for no filter. */
  function SelectToFilter(value: string): (r: Option<string>)
    ensures r.None? <==> value == "all"
    ensures r.Some? ==> r.value == value
  {
    if value == "all" then None else Some(value)
  }

  /** `getFilterValue() ?? "all"`: what the select shows for a stored filter. */
  function FilterToSelect(stored: Option<string>): (r: string)
    ensures stored.None? ==> r == "all"
    ensures stored.Some? ==> r == stored.value
  {
    if stored.Some? then stored.value else "all"
  }

  /** Whatever the user picks, the select shows it back. */
  lemma SelectRoundTrip(value: string)
    ensures FilterToSelect(SelectToFilter(value)) == value
  {
  }

  /** `table.getColumn(column)?.getFilterValue()`. */
  function GetFilterValue(f: Filters, columns: set<string>, column: string): (r: Option<string>)
    ensures r.Some? <==> column in columns && column in f.columnFilters
    ensures r.Some? ==> r.value == f.columnFilters[column]
  {
    if column in columns && column in f.columnFilters then Some(f.columnFilters[column]) else None
  }

  /** What a select bound to `column` shows. */
  function Displayed(f: Filters, columns: set<string>, column: string): (r: string)
    ensures column !in columns ==> r == "all"
    ensures column in columns && column in f.columnFilters ==> r == f.columnFilters[column]
    ensures column in columns && column !in f.columnFilters ==> r == "all"
  {
    FilterToSelect(GetFilterValue(f, columns, column))
  }

  /** `onValueChange` of a select bound to `column`:
      `table.getColumn(column)?.setFilterValue(value === "all" ? undefined : value)`.
      Setting `undefined` removes the column's filter. */
  function OnSelect(f: Filters, columns: set<string>, column: string, value: string): (r: Filters)
    ensures column !in columns ==> r == f
    ensures r.globalFilter == f.globalFilter
    ensures column in columns ==> (column in r.columnFilters <==> value != "all")
    ensures column in r.columnFilters && column in columns ==> r.columnFilters[column] == value
    ensures forall c :: c != column ==> (c in r.columnFilters <==> c in f.columnFilters)
    ensures forall c :: c != column && c in r.columnFilters ==> r.columnFilters[c] == f.columnFilters[c]
  {
    if column !in columns then f
    else match SelectToFilter(value)
      case None => f.(columnFilters := f.columnFilters - {column})
      case Some(v) => f.(columnFilters := f.columnFilters[column := v])
  }

  /** A select bound to one of the table's columns shows what was just
      picked in it, and the other selects keep showing what they showed. */
  lemma SelectThenDisplay(f: Filters, columns: set<string>, column: string, value: string, other: string)
    requires column in columns && other != column
    ensures Displayed(OnSelect(f, columns, column, value), columns, column) == value
    ensures Displayed(OnSelect(f, columns, column, value), columns, other) == Displayed(f, columns, other)
  {
  }

  /** A select bound to an id that is not a column stores nothing and
      always shows "all". */
  lemma SelectOnMissingColumn(f: Filters, columns: set<string>, column: string, value: string)
    requires column !in columns
    ensures OnSelect(f, columns, column, value) == f
    ensures Displayed(f, columns, column) == "all"
  {
  }

  /** Typing in the search box. */
  function OnSearch(f: Filters, text: string): (r: Filters)
    ensures r.globalFilter == text && r.columnFilters == f.columnFilters
  {
    f.(globalFilter := text)
  }

  /** `globalFilter || columnFilters.length > 0`: "Clear Filters" is shown
      exactly when some filter is active. */
  predicate ShowClear(f: Filters)
    ensures ShowClear(f) <==> f != NoFilters
  {
    f.globalFilter != "" || |f.columnFilters| > 0
  }

  /** "Clear Filters": `setGlobalFilter("")` and `setColumnFilters([])`. */
  function Clear(f: Filters): (r: Filters)
    ensures r == NoFilters && !ShowClear(r)
  {
    Filters(map[], "")
  }

  /** After clearing, every select shows "all" again. */
  lemma ClearResetsSelects(f: Filters, columns: set<string>, column: string)
    ensures Displayed(Clear(f), columns, column) == "all"
  {
  }

  /** No stored column filter is the value "all": the selects never store
      their "no filter" entry. */
  predicate NoAllStored(f: Filters)
  {
    forall c :: c in f.columnFilters ==> f.columnFilters[c] != "all"
  }

  /** The filter bar's operations keep `NoAllStored`. */
  lemma OperationsKeepNoAllStored(f: Filters, columns: set<string>, column: string, value: string, text: string)
    requires NoAllStored(f)
    ensures NoAllStored(NoFilters)
    ensures NoAllStored(OnSelect(f, columns, column, value))
    ensures NoAllStored(OnSearch(f, text))
    ensures NoAllStored(Clear(f))
  {
  }

  /** Under `NoAllStored`, a select shows "all" exactly when its column has
      no filter, so the select tells "no filter" apart from every filter. */
  lemma DisplayedAllIff(f: Filters, columns: set<string>, column: string)
    requires NoAllStored(f)
    ensures Displayed(f, columns, column) == "all" <==> GetFilterValue(f, columns, column).None?
  {
  }

  /** The filter state of one data table. `columns` are the ids of the
      table's columns. */
  class FilterBar {
    const columns: set<string>
    var columnFilters: map<string, string>
    var globalFilter: string

    function State(): Filters
      reads this
    {
      Filters(columnFilters, globalFilter)
    }

    constructor (columns: set<string>)
      ensures this.columns == columns && State() == NoFilters
    {
      this.columns := columns;
      columnFilters, globalFilter := map[], "";
    }

    method Select(column: string, value: string)
      modifies this
      ensures State() == OnSelect(old(State()), columns, column, value)
    {
      if column in columns {
        if value == "all" {
          columnFilters := columnFilters - {column};
        } else {
          columnFilters := columnFilters[column := value];
        }
      }
    }

    method Search(text: string)
      modifies this
      ensures State() == OnSearch(old(State()), text)
    {
      globalFilter := text;
    }

    method ClearFilters()
      modifies this
      ensures State() == Clear(old(State()))
    {
      globalFilter := "";
      columnFilters := map[];
    }
  }
}
