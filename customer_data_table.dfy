/**
 * The customers table's filter bar (app/modules/customers/ui/data-table.tsx):
 * a login-method select and an email-verified select, their options and
 * labels.
 *
 * The verified select is bound to the column id "email_verified", which
 * the customers table's columns (app/modules/customers/ui/columns.tsx) do
 * not define, so as written that select can never set a filter.
 * `VerifiedSelectIsInert` shows this; the filter bar below is built over
 * the columns plus an "email_verified" column, the evident intent.
 */
module CustomerDataTable {
  import opened Js
  import opened TableFilters
  import CustomerSchema
  import CustomerColumns

  const LoginMethods: seq<string> := ["all", "Google", "Facebook", "Apple", "Email"]
  const VerifiedOptions: seq<string> := ["all", "true", "false"]

  /** After "all", the login select offers exactly the login picklist, in order. */
  lemma LoginOptionsMatchPicklist()
    ensures LoginMethods == ["all"] + CustomerSchema.LoginWithOptions
  {
  }

  /** A login option's label: "All Methods", or the method's own name. */
  function LoginOptionLabel(login: string): (r: string)
    ensures login == "all" ==> r == "All Methods"
    ensures login != "all" ==> r == login
  {
    if login == "all" then "All Methods" else login
  }

  /** A verified option's label: "All" for "all", "Verified" for "true",
      and "Not Verified" for anything else. */
  function VerifiedOptionLabel(option: string): (r: string)
    ensures r == "All" <==> option == "all"
    ensures r == "Verified" <==> option == "true"
    ensures r == "Not Verified" <==> option != "all" && option != "true"
  {
    if option == "all" then "All" else if option == "true" then "Verified" else "Not Verified"
  }

  /** The login options get distinct labels. */
  lemma LoginOptionLabelsDistinct(a: string, b: string)
    requires a in LoginMethods && b in LoginMethods
    requires LoginOptionLabel(a) == LoginOptionLabel(b)
    ensures a == b
  {
  }

  const LoginSelect := "loginWith"
  const VerifiedSelect := "email_verified"

  /** The ids of the table's columns, as the columns file defines them. */
  const TableColumns: set<string> := set c | c in CustomerColumns.ColumnIds

  /** The login select is bound to a column the table has, so it shows
      back what is picked in it. */
  lemma LoginSelectIsBound(f: Filters, value: string)
    ensures LoginSelect in TableColumns
    ensures Displayed(OnSelect(f, TableColumns, LoginSelect, value), TableColumns, LoginSelect) == value
  {
    assert CustomerColumns.ColumnIds[3] == LoginSelect;
  }

  /** As written, the verified select is bound to no column: picking an
      option changes no filter and the select keeps showing "all". */
  lemma VerifiedSelectIsInert(f: Filters, value: string)
    ensures VerifiedSelect !in TableColumns
    ensures OnSelect(f, TableColumns, VerifiedSelect, value) == f
    ensures Displayed(OnSelect(f, TableColumns, VerifiedSelect, value), TableColumns, VerifiedSelect) == "all"
  {
    assert VerifiedSelect !in CustomerColumns.ColumnIds;
  }

  /** The columns the filter bar is evidently meant to have: the table's
      columns and an "email_verified" column to filter on. */
  const FilterColumns: set<string> := TableColumns + {VerifiedSelect}

  /** Over those columns both selects are bound and show back what is
      picked in them, and picking in one leaves the other as it was. */
  lemma CorrectedSelectsAreBound(f: Filters, value: string)
    ensures LoginSelect in FilterColumns && VerifiedSelect in FilterColumns
    ensures Displayed(OnSelect(f, FilterColumns, VerifiedSelect, value), FilterColumns, VerifiedSelect) == value
    ensures Displayed(OnSelect(f, FilterColumns, VerifiedSelect, value), FilterColumns, LoginSelect) == Displayed(f, FilterColumns, LoginSelect)
    ensures Displayed(OnSelect(f, FilterColumns, LoginSelect, value), FilterColumns, LoginSelect) == value
  {
    LoginSelectIsBound(f, value);
    SelectThenDisplay(f, FilterColumns, VerifiedSelect, value, LoginSelect);
    SelectThenDisplay(f, FilterColumns, LoginSelect, value, VerifiedSelect);
  }

  /** The corrected customers filter bar: over the table's columns plus
      `email_verified`, so that both selects are bound. */
  method CorrectedFilterBar() returns (bar: FilterBar)
    ensures fresh(bar) && bar.columns == FilterColumns && bar.State() == NoFilters
  {
    bar := new FilterBar(FilterColumns);
  }
}
