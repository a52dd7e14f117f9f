# Lake Formation permission filtering and route-table-association import, in Dafny

This project models two pieces of logic of the Terraform AWS provider and proves what they promise.

**Lake Formation permission filtering** (`internal/service/lakeformation/filter.go`). The provider reads back the grants of an `aws_lakeformation_permissions` resource with the Lake Formation list-permissions call. That call can return more grants than belong to the resource, for two reasons:

- a SELECT grant on a table is listed on its own, as a table-with-columns grant with a column wildcard;
- a table-with-columns resource cannot be asked for directly, so the grants on the bare table come back too.

`filterPermissions` chooses one of five filters by the shape of the request. The filters are catalog, data location, database, table-with-columns and table. Each filter walks the listed grants in order and keeps those of the requested principal that fit its resource shape. `stringSlicesEqualIgnoreOrder` compares column lists as multisets. It does this by sorting fresh copies.

**Route-table-association import** (`internal/service/ec2/table_association.go`, `resourceAwsRouteTableAssociationImport`). The importer splits an import id `target/routeTableID` on "/". It looks up the route table, then takes the first association whose subnet id or gateway id is the target. It records which of the two matched, and it makes that association's id the resource id.

Files:

- `aws_values.dfy` (module `AwsValues`) models SDK pointers as `Option`. It also holds `aws.StringValue` (nil reads as "") and `aws.StringValueSlice`.
- `sequences.dfy` (module `Sequences`) defines a subsequence by strictly increasing positions.
- `string_sort.dfy` (module `StringSort`) holds `sort.Strings`: lexicographic order on strings, an in-place insertion sort on an `array<string>`, and the proof that two sorted orderings of one multiset are equal.
- `lakeformation_filter.dfy` (module `LakeFormationFilter`) holds the SDK records, the five filters, the dispatch and their properties.
- `route_table_association_import.dfy` (module `RouteTableAssociationImport`) holds `strings.Split`, the import-id parse, the first-match search, the importer and its properties.

How the filters are modelled:

- Each filter is a method with the source's `for … range` loop and its `continue`s.
- Each one is proved equal to `FilterSpec`. `FilterSpec` keeps, in order, the grants whose per-grant `Decide` is `Keep`.
- Go panics when a filter reads a field of a nil requested table. This happens in the table filter when `tableType` is `Table` but the request has no table, and at line 126 of the table-with-columns filter. The model returns `NilPointerPanic` in those cases. A filter panics exactly when some grant's decision is `Panic`. When the requested table is present, no filter panics.

How the importer is modelled:

- The importer is a method over a `ResourceData` object. The method changes the object's id and attributes as `d.SetId` and `d.Set` do.
- The route-table lookup (`findRouteTableByID`) is a function parameter. It maps a route-table id to either the table's associations or an error.

## Model

| member | source | states |
|---|---|---|
| `LakeFormationFilter.FilterPermissions` | internal/service/lakeformation/filter.go:11-46 | The result is the one the filter chosen by `SelectFilter` returns, or the empty list when none is chosen. When it does not panic, the result is a subsequence of the listing and holds only grants of the requested principal. |
| `LakeFormationFilter.DispatchOrder` | internal/service/lakeformation/filter.go:25-45 | The first match in a fixed order picks the filter: catalog set, data location set, database set, table type TableWithColumns, then table set or table type Table. The table-with-columns filter receives the requested table, the column names, the excluded column names and the wildcard flag. The table filter receives the requested table. No filter (an empty result) exactly when none of these holds. |
| `LakeFormationFilter.Decide` | internal/service/lakeformation/filter.go:59-62 | Every filter drops a grant for another principal, with nil identifiers compared as "". It never panics on such a grant. |
| `LakeFormationFilter.KeptCount` | internal/service/lakeformation/filter.go:48-181 | A kept grant appears in a filter's result exactly as often as it is listed. A grant that is not kept does not appear. So no grant is appended twice. |
| `LakeFormationFilter.KeptMembership` | internal/service/lakeformation/filter.go:48-181 | A grant is in a filter's result if and only if it is listed and the filter keeps it. |
| `LakeFormationFilter.KeptIsSubsequence` | internal/service/lakeformation/filter.go:48-181 | A filter's result keeps listed grants in their listed order, at strictly increasing positions. |
| `LakeFormationFilter.FilterSpecSound` | internal/service/lakeformation/filter.go:48-181 | For every filter that does not panic, the result is a subsequence of the listing. It holds exactly the listed grants that are kept and belong to the principal, each as often as listed. So it is no longer than the listing, and its multiset of grants is contained in the listing's. |
| `LakeFormationFilter.FilterPanicsOnlyWithoutTable` | internal/service/lakeformation/filter.go:64-129 | The catalog, data-location and database filters never panic, and no filter panics when a table is given. Without a table, the table filter panics if and only if some grant of the principal has a column wildcard or a table part. The table-with-columns filter panics if and only if some grant of the principal has a table part and matched neither the columns nor the wildcard. |
| `LakeFormationFilter.TableFilterWithoutTableKeepsNothing` | internal/service/lakeformation/filter.go:64-89 | Without a requested table, the table filter either panics or returns nothing, because every branch that keeps a grant reads the table. |
| `LakeFormationFilter.FilterTablePermissions` | internal/service/lakeformation/filter.go:48-93 | The loop's result equals `FilterSpec` for the table filter, including the panic on a nil table. |
| `LakeFormationFilter.TableFilterColumnWildcardGrant` | internal/service/lakeformation/filter.go:64-76 | A column-wildcard grant with no table part is kept if and only if three things hold. It is for the principal. It names the table, or names ALL_TABLES while the request carries a table wildcard. Its first permission or its first grantable permission is SELECT. |
| `LakeFormationFilter.TableFilterTableGrant` | internal/service/lakeformation/filter.go:78-89 | A table grant with no column wildcard is kept if and only if it is for the principal and its database matches. In addition, either its name matches, or both it and the request carry a table wildcard. |
| `LakeFormationFilter.TableFilterDropsOtherGrants` | internal/service/lakeformation/filter.go:59-90 | The table filter drops a grant that is neither a column-wildcard grant nor a table grant. |
| `LakeFormationFilter.FilterTableWithColumnsPermissions` | internal/service/lakeformation/filter.go:95-133 | The loop's result equals `FilterSpec` for the table-with-columns filter, including the panic on a nil table. |
| `LakeFormationFilter.TableWithColumnsFilterDecision` | internal/service/lakeformation/filter.go:107-129 | Given a table, a grant is kept if and only if it is for the principal and one of three cases holds. The grant has the same column names in any order. Or it is a column wildcard, the request asks for a wildcard or for exclusions, and either the grant's exclusions are nil while none are requested, or the requested exclusions are non-empty and equal to the grant's in any order. Or it is a table grant with the same name. It never panics. |
| `LakeFormationFilter.TableWithColumnsFilterIgnoresDatabase` | internal/service/lakeformation/filter.go:126-129 | Changing the database name of a table grant does not change the table-with-columns filter's decision. |
| `LakeFormationFilter.FilterCatalogPermissions` | internal/service/lakeformation/filter.go:135-149 | The loop's result equals `FilterSpec`. It holds exactly the listed grants of the principal that have a catalog resource. |
| `LakeFormationFilter.FilterDataLocationPermissions` | internal/service/lakeformation/filter.go:151-165 | The loop's result equals `FilterSpec`. It holds exactly the listed grants of the principal that have a data-location resource. |
| `LakeFormationFilter.FilterDatabasePermissions` | internal/service/lakeformation/filter.go:167-181 | The loop's result equals `FilterSpec`. It holds exactly the listed grants of the principal that have a database resource. |
| `LakeFormationFilter.KindFilterDecisions` | internal/service/lakeformation/filter.go:138-146 | The catalog, data-location and database filters keep a grant if and only if it is for the principal and has a resource of their kind. They never panic. |
| `LakeFormationFilter.StringSlicesEqualIgnoreOrder` | internal/service/lakeformation/filter.go:183-195 | The answer is `EqualIgnoreOrder`: true if and only if the lengths agree and the two lists, with nil entries read as "", are equal as multisets. The inputs are values, so they are left unchanged. |
| `LakeFormationFilter.EqualIgnoreOrderIsEquivalence` | internal/service/lakeformation/filter.go:183-195 | Comparing column lists ignoring order is reflexive and symmetric. |
| `AwsValues.CopyStringValues` | internal/service/lakeformation/filter.go:188-189 | The copy is a fresh array holding each entry read with nil as "". |
| `StringSort.SortStrings` | internal/service/lakeformation/filter.go:191-192 | Sorting in place leaves the array in lexicographic order and a permutation of what it was. |
| `StringSort.SortedPermutationsEqual` | internal/service/lakeformation/filter.go:194 | Two sorted sequences with the same multiset are equal. So comparing the sorted copies is comparing multisets. |
| `RouteTableAssociationImport.ResourceRouteTableAssociationImport` | internal/service/ec2/table_association.go:152-197 | The answer is `ImportSpec` of the import id. The resource id becomes the association id on success only. The attributes gain the matched `subnet_id`/`gateway_id` once an association matches, and gain `route_table_id` on success. |
| `RouteTableAssociationImport.SplitJoin` | internal/service/ec2/table_association.go:153 | Splitting on "/" loses nothing. No piece holds "/". There is one more piece than separators. Joining the pieces gives the id back. |
| `RouteTableAssociationImport.JoinSplit` | internal/service/ec2/table_association.go:153 | Splitting undoes joining pieces that hold no "/". |
| `RouteTableAssociationImport.ParseImportIdExactly` | internal/service/ec2/table_association.go:153-159 | An id parses to (target, route table) if and only if it is the two joined by "/" and neither part holds a "/". The first part is the target and the second is the route-table id. |
| `RouteTableAssociationImport.MalformedIdIsRejected` | internal/service/ec2/table_association.go:154-156 | An id that does not split into exactly two parts fails with the format error and writes no attribute, whatever the lookup. |
| `RouteTableAssociationImport.FirstMatchIsFirst` | internal/service/ec2/table_association.go:173-187 | When association k matches and none before it does, the match found is association k's. Its attribute is `subnet_id` when the subnet id matched, else `gateway_id`. |
| `RouteTableAssociationImport.FirstMatchNone` | internal/service/ec2/table_association.go:173-187 | No match is found if and only if no association matches the target. |
| `RouteTableAssociationImport.FirstMatchIgnoresLater` | internal/service/ec2/table_association.go:173-187 | Associations after the first match are never consulted. Appending any associations leaves the match unchanged. |
| `RouteTableAssociationImport.ImportSucceedsExactly` | internal/service/ec2/table_association.go:173-196 | With a well-formed id, a found table, and association k as the first match, two outcomes are possible. If association k's id is empty, the import fails. Otherwise it succeeds with that id, with the matched attribute (subnet tried first), and with the two parts of the import id. |
| `RouteTableAssociationImport.NoMatchFails` | internal/service/ec2/table_association.go:189-191 | When no association matches, the import fails with "no association found" and writes no attribute. |
| `RouteTableAssociationImport.EmptyTargetImportsFirstEmptyId` | internal/service/ec2/table_association.go:173-196 | An id with an empty target such as "/rtb-1" stops at the first association whose subnet id or gateway id reads as "" (nil or empty). It is recorded as `subnet_id` = "" when its subnet id reads as "", and as `gateway_id` = "" otherwise. If its association id reads as "", the import fails with "no association found". |
| `RouteTableAssociationImport.MainAssociationFirstImportedByEmptyTarget` | internal/service/ec2/table_association.go:173-196 | When the main association, which has neither a subnet nor a gateway, is listed first, "/rtb-1" imports it with `subnet_id` = "". |
| `RouteTableAssociationImport.SubnetAssociationBeforeMainImportedByEmptyTarget` | internal/service/ec2/table_association.go:179-185 | A subnet association listed before the main association has a nil gateway id. So "/rtb-1" imports that subnet association, with `gateway_id` = "", and not the main association. |

## Left out

- CRUD handlers: every Create, Read, Update and Delete handler in every file is left out. They are remote SDK calls plus field copying.
- Waiters: the resource-state waiters (`resource.StateChangeConf`), their refresh functions and their timing constants are left out. They are the Terraform plugin SDK's polling loop over the network, not logic of this repository.
- Retry: `tfresource.RetryWhenAwsErrCodeEquals` is left out. It is a time-based retry around a network call.
- Route-table lookup: `findRouteTableByID` calls the EC2 API, so it is not part of this model. It is the parameter `findRouteTable`. A lookup failure is the `LookupFailed` answer.
- Logging: the import's debug `log.Printf` call is I/O and is left out.
- Nil-pointer panics on the request and the listed grants are not modelled. This covers a nil `Principal` or `Resource` pointer on the request or on a listed grant. It also covers a nil entry of the listing itself, which the filters dereference at filter.go:60, 103, 139, 155 and 171. The listing is a sequence of values here, so it has no nil entries. These fields are non-optional here. The source dereferences them unconditionally, so a nil value would be a panic. The provider always builds the request with both, and the API reports both for every grant. Only the nil requested table, which `filterPermissions` itself tests for, is modelled as a panic.
- Nil versus empty results: Go's nil result slice and an empty one are both the empty sequence. On import errors, the source returns an empty list in one case (bad format) and nil in the others. Both become `ImportFailed`.
- Constants defined in another file: `tableTypeTable`, `tableTypeTableWithColumns` and `tableNameAllTables` are defined in a file that is not part of this model. They are taken as "Table", "TableWithColumns" and "ALL_TABLES". `lakeformation.PermissionSelect` is the SDK's "SELECT".
- `sort.Strings`: the standard library sort is modelled by an insertion sort with the same contract, a sorted permutation. The sorted result of a multiset is unique (`SortedPermutationsEqual`), so the choice of algorithm is not observable.
- The records hold only the fields the filters read. Left out are LF-tag resources, catalog ids, the request's `CatalogId`, `AdditionalDetails`, data-location ARNs, database names, and the database name of a table-with-columns resource. The filters only test whether a data-location or database resource is present, so those two are markers.
- Other files: schema definitions, validators, tag merging, ARN construction, name generation and the float attributes of the other files are left out. They are foreign helpers or not logic of this core.
