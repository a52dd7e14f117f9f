/** Lake Formation permission filtering.

    The list-permissions call of the Lake Formation API can answer with more grants than
    belong to the resource a Terraform `aws_lakeformation_permissions` resource manages:
    a SELECT grant on a table is listed separately, as a table-with-columns grant with a
    column wildcard, and a table-with-columns resource cannot be asked for directly, so
    the grants on the bare table come back too. The provider therefore picks one of five
    filters by the shape of the request and keeps only the grants that belong to it.

    Every filter scans the listed grants in order and appends a kept grant once, so its
    result is a subsequence of the listing (SubsequenceAt / Kept). Reading a field of a
    nil requested table is a run-time panic in Go; it is modelled as the outcome
    NilPointerPanic. */
module LakeFormationFilter {
  import opened AwsValues
  import opened Sequences
  import StringSort

  // SDK and provider constants.
  const PermissionSelect := "SELECT"
  const TableNameAllTables := "ALL_TABLES"
  const TableTypeTable := "Table"
  const TableTypeTableWithColumns := "TableWithColumns"

  // ---------------------------------------------------------------------------------
  // Data model: the SDK records that the filters read
  // ---------------------------------------------------------------------------------

  datatype DataLakePrincipal = DataLakePrincipal(dataLakePrincipalIdentifier: Option<string>)

  /** An empty marker struct: its presence is all that matters. */
  datatype CatalogResource = CatalogResource

  /** Only the presence of a data-location resource is read. */
  datatype DataLocationResource = DataLocationResource

  /** Only the presence of a database resource is read. */
  datatype DatabaseResource = DatabaseResource

  /** An empty marker struct: "every table of the database". */
  datatype TableWildcard = TableWildcard

  datatype TableResource = TableResource(
    databaseName: Option<string>,
    name: Option<string>,
    tableWildcard: Option<TableWildcard>)

  /** A nil `ExcludedColumnNames` (None) differs from an empty list where the filter tests for nil. */
  datatype ColumnWildcard = ColumnWildcard(excludedColumnNames: Option<seq<Option<string>>>)

  datatype TableWithColumnsResource = TableWithColumnsResource(
    name: Option<string>,
    columnNames: Option<seq<Option<string>>>,
    columnWildcard: Option<ColumnWildcard>)

  datatype Resource = Resource(
    catalog: Option<CatalogResource>,
    dataLocation: Option<DataLocationResource>,
    database: Option<DatabaseResource>,
    table: Option<TableResource>,
    tableWithColumns: Option<TableWithColumnsResource>)

  /** One grant as the list-permissions call reports it. */
  datatype PrincipalResourcePermissions = PrincipalResourcePermissions(
    principal: DataLakePrincipal,
    resource: Resource,
    permissions: seq<Option<string>>,
    permissionsWithGrantOption: seq<Option<string>>)

  /** The fields of the list-permissions request that the dispatch reads. */
  datatype ListPermissionsInput = ListPermissionsInput(principal: DataLakePrincipal, resource: Resource)

  /** What a filter returns: the kept grants, or the panic of reading a nil requested table. */
  datatype FilterOutcome = Permissions(list: seq<PrincipalResourcePermissions>) | NilPointerPanic

  /** Which of the five filters, with the request arguments it reads besides the principal. */
  datatype Criterion =
    | CatalogGrants
    | DataLocationGrants
    | DatabaseGrants
    | TableGrants(table: Option<TableResource>)
    | TableWithColumnsGrants(
        twc: Option<TableResource>,
        columnNames: seq<Option<string>>,
        excludedColumnNames: seq<Option<string>>,
        columnWildcard: bool)

  /** What one filter does with one listed grant. */
  datatype Decision = Keep | Drop | Panic

  // ---------------------------------------------------------------------------------
  // Specification functions
  // ---------------------------------------------------------------------------------

  /** The grant is for the requested principal, nil identifiers compared as "". */
  predicate PrincipalMatches(principal: Option<string>, perm: PrincipalResourcePermissions) {
    StringValue(principal) == StringValue(perm.principal.dataLakePrincipalIdentifier)
  }

  /** The list's first entry is SELECT. */
  predicate FirstIsSelect(ps: seq<Option<string>>) {
    |ps| > 0 && StringValue(ps[0]) == PermissionSelect
  }

  /** Two column lists hold the same names, in any order, nil entries read as "". */
  predicate EqualIgnoreOrder(s1: seq<Option<string>>, s2: seq<Option<string>>) {
    |s1| == |s2| && multiset(StringValueSlice(s1)) == multiset(StringValueSlice(s2))
  }

  /** The grant is a table-with-columns grant with a column wildcard. */
  predicate HasColumnWildcard(perm: PrincipalResourcePermissions) {
    perm.resource.tableWithColumns.Some? && perm.resource.tableWithColumns.value.columnWildcard.Some?
  }

  /** The decision of the table filter (`filterTablePermissions`) on one grant. */
  function TableDecision(principal: Option<string>, table: Option<TableResource>, perm: PrincipalResourcePermissions): Decision {
    if !PrincipalMatches(principal, perm) then Drop
    else if HasColumnWildcard(perm) && table.None? then Panic
    else if HasColumnWildcard(perm)
         && (StringValue(perm.resource.tableWithColumns.value.name) == StringValue(table.value.name)
             || (table.value.tableWildcard.Some? && StringValue(perm.resource.tableWithColumns.value.name) == TableNameAllTables))
         && (FirstIsSelect(perm.permissions) || FirstIsSelect(perm.permissionsWithGrantOption))
    then Keep
    else if perm.resource.table.Some? && table.None? then Panic
    else if perm.resource.table.Some?
         && StringValue(perm.resource.table.value.databaseName) == StringValue(table.value.databaseName)
         && (StringValue(perm.resource.table.value.name) == StringValue(table.value.name)
             || (perm.resource.table.value.tableWildcard.Some? && table.value.tableWildcard.Some?))
    then Keep
    else Drop
  }

  /** The grant lists exactly the requested columns. */
  predicate SameColumns(columnNames: seq<Option<string>>, perm: PrincipalResourcePermissions) {
    && perm.resource.tableWithColumns.Some?
    && perm.resource.tableWithColumns.value.columnNames.Some?
    && EqualIgnoreOrder(perm.resource.tableWithColumns.value.columnNames.value, columnNames)
  }

  /** The grant is a column wildcard matching the requested wildcard and exclusions. */
  predicate SameWildcard(excludedColumnNames: seq<Option<string>>, columnWildcard: bool, perm: PrincipalResourcePermissions) {
    && HasColumnWildcard(perm)
    && (columnWildcard || |excludedColumnNames| > 0)
    && var excluded := perm.resource.tableWithColumns.value.columnWildcard.value.excludedColumnNames;
       || (excluded.None? && |excludedColumnNames| == 0)
       || (|excludedColumnNames| > 0 && EqualIgnoreOrder(NilAsEmpty(excluded), excludedColumnNames))
  }

  /** The decision of the table-with-columns filter (`filterTableWithColumnsPermissions`) on one grant. */
  function TableWithColumnsDecision(
    principal: Option<string>, twc: Option<TableResource>, columnNames: seq<Option<string>>,
    excludedColumnNames: seq<Option<string>>, columnWildcard: bool, perm: PrincipalResourcePermissions): Decision
  {
    if !PrincipalMatches(principal, perm) then Drop
    else if SameColumns(columnNames, perm) then Keep
    else if SameWildcard(excludedColumnNames, columnWildcard, perm) then Keep
    else if perm.resource.table.Some? && twc.None? then Panic
    else if perm.resource.table.Some? && StringValue(perm.resource.table.value.name) == StringValue(twc.value.name) then Keep
    else Drop
  }

  /** What the filter chosen by `c` does with one listed grant. A grant for another
      principal is dropped by every filter before anything else of it is read. */
  function Decide(principal: Option<string>, c: Criterion, perm: PrincipalResourcePermissions): (d: Decision)
    ensures !PrincipalMatches(principal, perm) ==> d == Drop
  {
    match c
    case CatalogGrants =>
      if PrincipalMatches(principal, perm) && perm.resource.catalog.Some? then Keep else Drop
    case DataLocationGrants =>
      if PrincipalMatches(principal, perm) && perm.resource.dataLocation.Some? then Keep else Drop
    case DatabaseGrants =>
      if PrincipalMatches(principal, perm) && perm.resource.database.Some? then Keep else Drop
    case TableGrants(table) =>
      TableDecision(principal, table, perm)
    case TableWithColumnsGrants(twc, columnNames, excludedColumnNames, columnWildcard) =>
      TableWithColumnsDecision(principal, twc, columnNames, excludedColumnNames, columnWildcard, perm)
  }

  /** The grants of `s` that `c` keeps, in their order. */
  function Kept(principal: Option<string>, c: Criterion, s: seq<PrincipalResourcePermissions>): seq<PrincipalResourcePermissions>
    decreases |s|
  {
    if s == [] then []
    else
      var last := s[|s| - 1];
      Kept(principal, c, s[..|s| - 1]) + (if Decide(principal, c, last) == Keep then [last] else [])
  }

  /** A filter panics when it reaches a grant that makes it read the nil requested
      table; otherwise it returns the grants it keeps. */
  function FilterSpec(principal: Option<string>, c: Criterion, s: seq<PrincipalResourcePermissions>): FilterOutcome {
    if exists j :: 0 <= j < |s| && Decide(principal, c, s[j]) == Panic then NilPointerPanic
    else Permissions(Kept(principal, c, s))
  }

  /** The filter `filterPermissions` chooses for a request, in its fixed order; None is "no filter". */
  function SelectFilter(
    input: ListPermissionsInput, tableType: string, columnNames: seq<Option<string>>,
    excludedColumnNames: seq<Option<string>>, columnWildcard: bool): Option<Criterion>
  {
    if input.resource.catalog.Some? then Some(CatalogGrants)
    else if input.resource.dataLocation.Some? then Some(DataLocationGrants)
    else if input.resource.database.Some? then Some(DatabaseGrants)
    else if tableType == TableTypeTableWithColumns then
      Some(TableWithColumnsGrants(input.resource.table, columnNames, excludedColumnNames, columnWildcard))
    else if input.resource.table.Some? || tableType == TableTypeTable then Some(TableGrants(input.resource.table))
    else None
  }

  // ---------------------------------------------------------------------------------
  // Properties of the specification
  // ---------------------------------------------------------------------------------

  lemma KeptStep(principal: Option<string>, c: Criterion, s: seq<PrincipalResourcePermissions>, i: int)
    requires 0 <= i < |s|
    ensures Kept(principal, c, s[..i + 1])
         == Kept(principal, c, s[..i]) + (if Decide(principal, c, s[i]) == Keep then [s[i]] else [])
  {
    assert s[..i + 1][..i] == s[..i];
  }

  /** Each grant appears in the result exactly as often as in the listing if it is kept, and not at all otherwise. */
  lemma {:induction false} KeptCount(principal: Option<string>, c: Criterion, s: seq<PrincipalResourcePermissions>, x: PrincipalResourcePermissions)
    ensures multiset(Kept(principal, c, s))[x] == if Decide(principal, c, x) == Keep then multiset(s)[x] else 0
    decreases |s|
  {
    if s != [] {
      var n := |s| - 1;
      KeptCount(principal, c, s[..n], x);
      assert s == s[..n] + [s[n]];
    }
  }

  /** A grant is in the result if and only if it is listed and kept. */
  lemma {:induction false} KeptMembership(principal: Option<string>, c: Criterion, s: seq<PrincipalResourcePermissions>, x: PrincipalResourcePermissions)
    ensures x in Kept(principal, c, s) <==> x in s && Decide(principal, c, x) == Keep
  {
    KeptCount(principal, c, s, x);
    assert x in Kept(principal, c, s) <==> x in multiset(Kept(principal, c, s));
    assert x in s <==> x in multiset(s);
  }

  /** The result keeps listed grants in their order, none twice. */
  lemma {:induction false} KeptIsSubsequence(principal: Option<string>, c: Criterion, s: seq<PrincipalResourcePermissions>)
    ensures IsSubsequence(Kept(principal, c, s), s)
    decreases |s|
  {
    if s == [] {
      assert SubsequenceAt([], s, []);
    } else {
      var n := |s| - 1;
      var take := Decide(principal, c, s[n]) == Keep;
      var r := Kept(principal, c, s[..n]);
      KeptStep(principal, c, s, n);
      assert s[..n + 1] == s && s[..n] + [s[n]] == s;
      assert Kept(principal, c, s) == if take then r + [s[n]] else r;
      KeptIsSubsequence(principal, c, s[..n]);
      SubsequenceSnoc(r, s[..n], s[n], take);
    }
  }

  /** Every grant a filter returns is one of the listed grants, for the requested principal,
      kept by that filter; the result is a subsequence of the listing; and every listed grant
      the filter keeps is returned as often as it is listed. */
  lemma FilterSpecSound(principal: Option<string>, c: Criterion, s: seq<PrincipalResourcePermissions>)
    ensures FilterSpec(principal, c, s).Permissions? ==> IsSubsequence(FilterSpec(principal, c, s).list, s)
    ensures FilterSpec(principal, c, s).Permissions? ==>
              forall x :: x in FilterSpec(principal, c, s).list <==>
                            x in s && PrincipalMatches(principal, x) && Decide(principal, c, x) == Keep
    ensures FilterSpec(principal, c, s).Permissions? ==>
              forall x :: multiset(FilterSpec(principal, c, s).list)[x] ==
                            if Decide(principal, c, x) == Keep then multiset(s)[x] else 0
    ensures FilterSpec(principal, c, s).Permissions? ==>
              |FilterSpec(principal, c, s).list| <= |s| && multiset(FilterSpec(principal, c, s).list) <= multiset(s)
  {
    KeptIsSubsequence(principal, c, s);
    var idx :| SubsequenceAt(Kept(principal, c, s), s, idx);
    SubsequenceBounds(Kept(principal, c, s), s, idx);
    forall x ensures x in Kept(principal, c, s) <==> x in s && PrincipalMatches(principal, x) && Decide(principal, c, x) == Keep {
      KeptMembership(principal, c, s, x);
    }
    forall x ensures multiset(Kept(principal, c, s))[x] == if Decide(principal, c, x) == Keep then multiset(s)[x] else 0 {
      KeptCount(principal, c, s, x);
    }
  }

  /** A filter panics exactly when one of the listed grants makes it read the nil requested table:
      never for the catalog, data-location and database filters, never when a table is given,
      and for the table-with-columns filter only on a table grant it has not kept already. */
  lemma FilterPanicsOnlyWithoutTable(principal: Option<string>, c: Criterion, s: seq<PrincipalResourcePermissions>)
    ensures c.CatalogGrants? || c.DataLocationGrants? || c.DatabaseGrants? ==> FilterSpec(principal, c, s).Permissions?
    ensures c.TableGrants? && c.table.Some? ==> FilterSpec(principal, c, s).Permissions?
    ensures c.TableWithColumnsGrants? && c.twc.Some? ==> FilterSpec(principal, c, s).Permissions?
    ensures c.TableGrants? && c.table.None? ==>
              (FilterSpec(principal, c, s).NilPointerPanic? <==>
                 exists j :: 0 <= j < |s| && PrincipalMatches(principal, s[j])
                             && (HasColumnWildcard(s[j]) || s[j].resource.table.Some?))
    ensures c.TableWithColumnsGrants? && c.twc.None? ==>
              (FilterSpec(principal, c, s).NilPointerPanic? <==>
                 exists j :: 0 <= j < |s| && PrincipalMatches(principal, s[j]) && s[j].resource.table.Some?
                             && !SameColumns(c.columnNames, s[j])
                             && !SameWildcard(c.excludedColumnNames, c.columnWildcard, s[j]))
  {
  }

  /** With no requested table, the table filter keeps nothing: every keep branch reads the table. */
  lemma TableFilterWithoutTableKeepsNothing(principal: Option<string>, s: seq<PrincipalResourcePermissions>)
    ensures FilterSpec(principal, TableGrants(None), s) != Permissions([]) ==> FilterSpec(principal, TableGrants(None), s) == NilPointerPanic
  {
    var kept := Kept(principal, TableGrants(None), s);
    if kept != [] {
      KeptMembership(principal, TableGrants(None), s, kept[0]);
    }
  }

  /** The catalog, data-location and database filters each keep exactly the grants of the
      requested principal on a resource of their kind. */
  lemma KindFilterDecisions(principal: Option<string>, perm: PrincipalResourcePermissions)
    ensures Decide(principal, CatalogGrants, perm) == Keep <==> PrincipalMatches(principal, perm) && perm.resource.catalog.Some?
    ensures Decide(principal, DataLocationGrants, perm) == Keep <==> PrincipalMatches(principal, perm) && perm.resource.dataLocation.Some?
    ensures Decide(principal, DatabaseGrants, perm) == Keep <==> PrincipalMatches(principal, perm) && perm.resource.database.Some?
    ensures Decide(principal, CatalogGrants, perm) != Panic
    ensures Decide(principal, DataLocationGrants, perm) != Panic
    ensures Decide(principal, DatabaseGrants, perm) != Panic
  {
  }

  /** The table filter keeps a column-wildcard grant (with no table part) exactly when it names the
      requested table, or ALL_TABLES under a table wildcard, and its first permission or its first
      grantable permission is SELECT. */
  lemma TableFilterColumnWildcardGrant(principal: Option<string>, table: TableResource, perm: PrincipalResourcePermissions)
    requires HasColumnWildcard(perm) && perm.resource.table.None?
    ensures Decide(principal, TableGrants(Some(table)), perm) == Keep <==>
              && PrincipalMatches(principal, perm)
              && (|| StringValue(perm.resource.tableWithColumns.value.name) == StringValue(table.name)
                  || (table.tableWildcard.Some? && StringValue(perm.resource.tableWithColumns.value.name) == TableNameAllTables))
              && (FirstIsSelect(perm.permissions) || FirstIsSelect(perm.permissionsWithGrantOption))
  {
  }

  /** The table filter keeps a table grant (with no column wildcard) exactly when its database
      matches and either its name matches or both it and the request carry a table wildcard. */
  lemma TableFilterTableGrant(principal: Option<string>, table: TableResource, perm: PrincipalResourcePermissions)
    requires perm.resource.table.Some? && !HasColumnWildcard(perm)
    ensures Decide(principal, TableGrants(Some(table)), perm) == Keep <==>
              && PrincipalMatches(principal, perm)
              && StringValue(perm.resource.table.value.databaseName) == StringValue(table.databaseName)
              && (|| StringValue(perm.resource.table.value.name) == StringValue(table.name)
                  || (perm.resource.table.value.tableWildcard.Some? && table.tableWildcard.Some?))
  {
  }

  /** The table filter drops every grant that is neither a column-wildcard grant nor a table grant. */
  lemma TableFilterDropsOtherGrants(principal: Option<string>, table: Option<TableResource>, perm: PrincipalResourcePermissions)
    requires !HasColumnWildcard(perm) && perm.resource.table.None?
    ensures Decide(principal, TableGrants(table), perm) == Drop
  {
  }

  /** The table-with-columns filter, given a requested table, keeps a grant of the requested
      principal exactly in its three cases: the same columns in any order; a matching column
      wildcard; or a table grant with the same table name, whatever its database. */
  lemma TableWithColumnsFilterDecision(
    principal: Option<string>, twc: TableResource, columnNames: seq<Option<string>>,
    excludedColumnNames: seq<Option<string>>, columnWildcard: bool, perm: PrincipalResourcePermissions)
    ensures Decide(principal, TableWithColumnsGrants(Some(twc), columnNames, excludedColumnNames, columnWildcard), perm) == Keep <==>
              && PrincipalMatches(principal, perm)
              && (|| SameColumns(columnNames, perm)
                  || SameWildcard(excludedColumnNames, columnWildcard, perm)
                  || (perm.resource.table.Some? && StringValue(perm.resource.table.value.name) == StringValue(twc.name)))
    ensures Decide(principal, TableWithColumnsGrants(Some(twc), columnNames, excludedColumnNames, columnWildcard), perm) != Panic
  {
  }

  /** The database name of a table grant does not matter to the table-with-columns filter. */
  lemma TableWithColumnsFilterIgnoresDatabase(
    principal: Option<string>, twc: TableResource, columnNames: seq<Option<string>>,
    excludedColumnNames: seq<Option<string>>, columnWildcard: bool, perm: PrincipalResourcePermissions, db: Option<string>)
    requires perm.resource.table.Some?
    ensures var c := TableWithColumnsGrants(Some(twc), columnNames, excludedColumnNames, columnWildcard);
            var perm' := perm.(resource := perm.resource.(table := Some(perm.resource.table.value.(databaseName := db))));
            Decide(principal, c, perm') == Decide(principal, c, perm)
  {
  }

  /** Column lists compared ignoring order: a list equals itself, and the comparison is symmetric. */
  lemma EqualIgnoreOrderIsEquivalence(s1: seq<Option<string>>, s2: seq<Option<string>>)
    ensures EqualIgnoreOrder(s1, s1)
    ensures EqualIgnoreOrder(s1, s2) == EqualIgnoreOrder(s2, s1)
  {
  }

  /** The dispatch: the first of catalog, data location, database, table-with-columns type,
      and table (given, or table type) decides; nothing chosen means an empty result. */
  lemma DispatchOrder(
    input: ListPermissionsInput, tableType: string, columnNames: seq<Option<string>>,
    excludedColumnNames: seq<Option<string>>, columnWildcard: bool)
    ensures var f := SelectFilter(input, tableType, columnNames, excludedColumnNames, columnWildcard);
            && (input.resource.catalog.Some? ==> f == Some(CatalogGrants))
            && (input.resource.catalog.None? && input.resource.dataLocation.Some? ==> f == Some(DataLocationGrants))
            && (input.resource.catalog.None? && input.resource.dataLocation.None? && input.resource.database.Some? ==>
                  f == Some(DatabaseGrants))
            && (f.Some? && f.value.TableWithColumnsGrants? <==>
                  input.resource.catalog.None? && input.resource.dataLocation.None? && input.resource.database.None?
                  && tableType == TableTypeTableWithColumns)
            && (f.Some? && f.value.TableWithColumnsGrants? ==>
                  f == Some(TableWithColumnsGrants(input.resource.table, columnNames, excludedColumnNames, columnWildcard)))
            && (f.Some? && f.value.TableGrants? ==> f == Some(TableGrants(input.resource.table)))
            && (f.Some? && f.value.TableGrants? <==>
                  input.resource.catalog.None? && input.resource.dataLocation.None? && input.resource.database.None?
                  && tableType != TableTypeTableWithColumns && (input.resource.table.Some? || tableType == TableTypeTable))
            && (f.None? <==>
                  input.resource.catalog.None? && input.resource.dataLocation.None? && input.resource.database.None?
                  && input.resource.table.None? && tableType != TableTypeTableWithColumns && tableType != TableTypeTable)
  {
  }

  // ---------------------------------------------------------------------------------
  // The filters as the provider runs them
  // ---------------------------------------------------------------------------------

  /** `stringSlicesEqualIgnoreOrder`: compare lengths, then sort fresh copies of both lists and
      compare them entry by entry. The arguments are values, so they are left as they were. */
  method StringSlicesEqualIgnoreOrder(s1: seq<Option<string>>, s2: seq<Option<string>>) returns (equal: bool)
    ensures equal == EqualIgnoreOrder(s1, s2)
  {
    if |s1| != |s2| {
      return false;
    }
    var v1 := CopyStringValues(s1);
    var v2 := CopyStringValues(s2);
    StringSort.SortStrings(v1);
    StringSort.SortStrings(v2);
    equal := v1[..] == v2[..];
    if multiset(StringValueSlice(s1)) == multiset(StringValueSlice(s2)) {
      StringSort.SortedPermutationsEqual(v1[..], v2[..]);
    }
  }

  /** `filterCatalogPermissions`: the grants of the principal on the catalog. */
  method FilterCatalogPermissions(principal: Option<string>, allPermissions: seq<PrincipalResourcePermissions>)
    returns (clean: seq<PrincipalResourcePermissions>)
    ensures Permissions(clean) == FilterSpec(principal, CatalogGrants, allPermissions)
    ensures forall p :: p in clean <==> p in allPermissions && PrincipalMatches(principal, p) && p.resource.catalog.Some?
  {
    clean := [];
    for i := 0 to |allPermissions|
      invariant clean == Kept(principal, CatalogGrants, allPermissions[..i])
    {
      KeptStep(principal, CatalogGrants, allPermissions, i);
      var perm := allPermissions[i];
      if StringValue(principal) != StringValue(perm.principal.dataLakePrincipalIdentifier) {
        continue;
      }
      if perm.resource.catalog.Some? {
        clean := clean + [perm];
      }
    }
    assert allPermissions[..|allPermissions|] == allPermissions;
    forall p ensures p in clean <==> p in allPermissions && PrincipalMatches(principal, p) && p.resource.catalog.Some? {
      KeptMembership(principal, CatalogGrants, allPermissions, p);
    }
  }

  /** `filterDataLocationPermissions`: the grants of the principal on a data location. */
  method FilterDataLocationPermissions(principal: Option<string>, allPermissions: seq<PrincipalResourcePermissions>)
    returns (clean: seq<PrincipalResourcePermissions>)
    ensures Permissions(clean) == FilterSpec(principal, DataLocationGrants, allPermissions)
    ensures forall p :: p in clean <==> p in allPermissions && PrincipalMatches(principal, p) && p.resource.dataLocation.Some?
  {
    clean := [];
    for i := 0 to |allPermissions|
      invariant clean == Kept(principal, DataLocationGrants, allPermissions[..i])
    {
      KeptStep(principal, DataLocationGrants, allPermissions, i);
      var perm := allPermissions[i];
      if StringValue(principal) != StringValue(perm.principal.dataLakePrincipalIdentifier) {
        continue;
      }
      if perm.resource.dataLocation.Some? {
        clean := clean + [perm];
      }
    }
    assert allPermissions[..|allPermissions|] == allPermissions;
    forall p ensures p in clean <==> p in allPermissions && PrincipalMatches(principal, p) && p.resource.dataLocation.Some? {
      KeptMembership(principal, DataLocationGrants, allPermissions, p);
    }
  }

  /** `filterDatabasePermissions`: the grants of the principal on a database. */
  method FilterDatabasePermissions(principal: Option<string>, allPermissions: seq<PrincipalResourcePermissions>)
    returns (clean: seq<PrincipalResourcePermissions>)
    ensures Permissions(clean) == FilterSpec(principal, DatabaseGrants, allPermissions)
    ensures forall p :: p in clean <==> p in allPermissions && PrincipalMatches(principal, p) && p.resource.database.Some?
  {
    clean := [];
    for i := 0 to |allPermissions|
      invariant clean == Kept(principal, DatabaseGrants, allPermissions[..i])
    {
      KeptStep(principal, DatabaseGrants, allPermissions, i);
      var perm := allPermissions[i];
      if StringValue(principal) != StringValue(perm.principal.dataLakePrincipalIdentifier) {
        continue;
      }
      if perm.resource.database.Some? {
        clean := clean + [perm];
      }
    }
    assert allPermissions[..|allPermissions|] == allPermissions;
    forall p ensures p in clean <==> p in allPermissions && PrincipalMatches(principal, p) && p.resource.database.Some? {
      KeptMembership(principal, DatabaseGrants, allPermissions, p);
    }
  }

  /** `filterTablePermissions`: the grants on the table, including the separately listed SELECT
      grant, which comes back as a column-wildcard grant on the same table name. */
  method FilterTablePermissions(principal: Option<string>, table: Option<TableResource>, allPermissions: seq<PrincipalResourcePermissions>)
    returns (outcome: FilterOutcome)
    ensures outcome == FilterSpec(principal, TableGrants(table), allPermissions)
  {
    var c := TableGrants(table);
    var clean := [];
    for i := 0 to |allPermissions|
      invariant clean == Kept(principal, c, allPermissions[..i])
      invariant forall j :: 0 <= j < i ==> Decide(principal, c, allPermissions[j]) != Panic
    {
      KeptStep(principal, c, allPermissions, i);
      var perm := allPermissions[i];
      if StringValue(principal) != StringValue(perm.principal.dataLakePrincipalIdentifier) {
        continue;
      }
      if perm.resource.tableWithColumns.Some? && perm.resource.tableWithColumns.value.columnWildcard.Some? {
        if table.None? {
          assert Decide(principal, c, allPermissions[i]) == Panic;
          return NilPointerPanic;
        }
        var name := StringValue(perm.resource.tableWithColumns.value.name);
        if name == StringValue(table.value.name) || (table.value.tableWildcard.Some? && name == TableNameAllTables) {
          if |perm.permissions| > 0 && StringValue(perm.permissions[0]) == PermissionSelect {
            clean := clean + [perm];
            continue;
          }
          if |perm.permissionsWithGrantOption| > 0 && StringValue(perm.permissionsWithGrantOption[0]) == PermissionSelect {
            clean := clean + [perm];
            continue;
          }
        }
      }
      if perm.resource.table.Some? {
        if table.None? {
          assert Decide(principal, c, allPermissions[i]) == Panic;
          return NilPointerPanic;
        }
        if StringValue(perm.resource.table.value.databaseName) == StringValue(table.value.databaseName) {
          if StringValue(perm.resource.table.value.name) == StringValue(table.value.name) {
            clean := clean + [perm];
            continue;
          }
          if perm.resource.table.value.tableWildcard.Some? && table.value.tableWildcard.Some? {
            clean := clean + [perm];
            continue;
          }
        }
      }
      continue;
    }
    assert allPermissions[..|allPermissions|] == allPermissions;
    outcome := Permissions(clean);
  }

  /** `filterTableWithColumnsPermissions`: the grants on the requested columns, on the column
      wildcard, and, since the bare table's grants come back for such a request too, on a table of
      the same name. */
  method FilterTableWithColumnsPermissions(
    principal: Option<string>, twc: Option<TableResource>, columnNames: seq<Option<string>>,
    excludedColumnNames: seq<Option<string>>, columnWildcard: bool, allPermissions: seq<PrincipalResourcePermissions>)
    returns (outcome: FilterOutcome)
    ensures outcome == FilterSpec(principal, TableWithColumnsGrants(twc, columnNames, excludedColumnNames, columnWildcard), allPermissions)
  {
    var c := TableWithColumnsGrants(twc, columnNames, excludedColumnNames, columnWildcard);
    var clean := [];
    for i := 0 to |allPermissions|
      invariant clean == Kept(principal, c, allPermissions[..i])
      invariant forall j :: 0 <= j < i ==> Decide(principal, c, allPermissions[j]) != Panic
    {
      KeptStep(principal, c, allPermissions, i);
      var perm := allPermissions[i];
      ghost var d := TableWithColumnsDecision(principal, twc, columnNames, excludedColumnNames, columnWildcard, perm);
      assert Decide(principal, c, perm) == d;
      if StringValue(principal) != StringValue(perm.principal.dataLakePrincipalIdentifier) {
        assert d == Drop;
        continue;
      }
      if perm.resource.tableWithColumns.Some? && perm.resource.tableWithColumns.value.columnNames.Some? {
        var same := StringSlicesEqualIgnoreOrder(perm.resource.tableWithColumns.value.columnNames.value, columnNames);
        if same {
          assert d == Keep;
          clean := clean + [perm];
          continue;
        }
      }
      assert !SameColumns(columnNames, perm);
      if && perm.resource.tableWithColumns.Some? && perm.resource.tableWithColumns.value.columnWildcard.Some?
         && (columnWildcard || |excludedColumnNames| > 0)
      {
        var excluded := perm.resource.tableWithColumns.value.columnWildcard.value.excludedColumnNames;
        if excluded.None? && |excludedColumnNames| == 0 {
          assert d == Keep;
          clean := clean + [perm];
          continue;
        }
        if |excludedColumnNames| > 0 {
          var same := StringSlicesEqualIgnoreOrder(NilAsEmpty(excluded), excludedColumnNames);
          if same {
            assert d == Keep;
            clean := clean + [perm];
            continue;
          }
        }
      }
      assert !SameWildcard(excludedColumnNames, columnWildcard, perm);
      if perm.resource.table.Some? {
        if twc.None? {
          assert d == Panic;
          return NilPointerPanic;
        }
        if StringValue(perm.resource.table.value.name) == StringValue(twc.value.name) {
          assert d == Keep;
          clean := clean + [perm];
          continue;
        }
      }
      assert d == Drop;
    }
    assert allPermissions[..|allPermissions|] == allPermissions;
    outcome := Permissions(clean);
  }

  /** `filterPermissions`: choose the filter by the shape of the request and run it; no filter
      chosen gives the empty (nil) list. Whatever is returned is a subsequence of the listing, holds
      only grants of the requested principal, and holds every listed grant the chosen filter keeps. */
  method FilterPermissions(
    input: ListPermissionsInput, tableType: string, columnNames: seq<Option<string>>,
    excludedColumnNames: seq<Option<string>>, columnWildcard: bool, allPermissions: seq<PrincipalResourcePermissions>)
    returns (outcome: FilterOutcome)
    ensures outcome == match SelectFilter(input, tableType, columnNames, excludedColumnNames, columnWildcard)
                       case None => Permissions([])
                       case Some(c) => FilterSpec(input.principal.dataLakePrincipalIdentifier, c, allPermissions)
    ensures outcome.Permissions? ==> IsSubsequence(outcome.list, allPermissions)
    ensures outcome.Permissions? ==>
              forall p :: p in outcome.list ==> PrincipalMatches(input.principal.dataLakePrincipalIdentifier, p)
  {
    var principal := input.principal.dataLakePrincipalIdentifier;
    var f := SelectFilter(input, tableType, columnNames, excludedColumnNames, columnWildcard);
    if f.Some? {
      FilterSpecSound(principal, f.value, allPermissions);
    } else {
      assert SubsequenceAt([], allPermissions, []);
    }

    if input.resource.catalog.Some? {
      var clean := FilterCatalogPermissions(principal, allPermissions);
      return Permissions(clean);
    }
    if input.resource.dataLocation.Some? {
      var clean := FilterDataLocationPermissions(principal, allPermissions);
      return Permissions(clean);
    }
    if input.resource.database.Some? {
      var clean := FilterDatabasePermissions(principal, allPermissions);
      return Permissions(clean);
    }
    if tableType == TableTypeTableWithColumns {
      outcome := FilterTableWithColumnsPermissions(
        principal, input.resource.table, columnNames, excludedColumnNames, columnWildcard, allPermissions);
      return;
    }
    if input.resource.table.Some? || tableType == TableTypeTable {
      outcome := FilterTablePermissions(principal, input.resource.table, allPermissions);
      return;
    }
    return Permissions([]);
  }
}
