# Grafana: aggregator registration, entity-store schema, tri-state browse selection

This project models three pieces of Grafana in Dafny and proves properties of them.

- **API aggregator registration** (`pkg/services/k8s/apiserver/aggregator.go`).
  - The priority table `apiVersionPriorities`.
  - `makeAPIService`, which builds an `APIService` record for a group-version when the table lists it.
  - `apiServicesToRegister`, which walks the paths the delegate server lists. It turns `/api/v1` and `/apis/G/V` paths into records and hands each record to the auto-registration controller.
  - The boot health check from `makeAPIServiceAvailableHealthCheck`. It keeps a pending set of service names, drops a name once the informer reports that service Available, and is healthy when nothing is pending.
- **Entity-store schema and migration plan** (`pkg/services/store/entity/migrations/entity_store_mig.go`).
  - The seven tables that `initEntityTables` declares, with their columns, lengths, nullability, primary keys and indices.
  - The ordered migration list it registers, which ends with the collation step.
- **Tri-state selection in the dashboard browser** (`public/app/features/browse-dashboards/components/BrowseView.tsx`).
  - `isSelected`, which gives the header and every row Selected, Mixed or Unselected.
  - The recursive `hasSelectedDescendants`.
  - `isItemLoaded`.

Files:

- `wrappers.dfy`: `Option` and `Outcome`.
- `strings.dfy` (module `GoStrings`): the parts of Go's `strings` and `fmt` packages that the core uses.
  - `strings.Split` with a one-character separator, with its inverse `Join`.
  - `strings.HasPrefix`.
  - A take-until-separator helper.
  - Decimal formatting of naturals (`%d`).
- `aggregator.dfy` (module `Aggregator`).
- `entity_store_mig.dfy` (module `EntityStoreMigrations`).
- `browse_view.dfy` (module `BrowseView`).

How the source's own forms are modelled:

- Loops that append and call collaborators are methods with loop invariants.
  - `APIServicesToRegister` walks the paths. `RegisterPath` is one pass of its loop body.
  - `RegisterPlan` is the outer registration loop. `RegisterTable` is one pass of it, and `RegisterIndices` is the inner loop over the indices.
  - `InitEntityTables` grows the table list with repeated appends.
- Each such method is proved equal to a specification function on values: `ServicesToRegister` and `Plan`.
- The collaborators are classes that keep the calls made to them.
  - `AutoRegistration` keeps the records passed to `AddAPIServiceToSyncOnStart`.
  - `Migrator` keeps the `(id, operation)` pairs passed to `AddMigration`.
- The health checker is a class. Its invariant ties the pending set to a fold (`PendingAfter`) over the events it has observed.
- The browse logic is pure: functions, predicates and lemmas.

The schema facts the model proves about the code:

- `initEntityTables` declares seven tables (`entity_store_mig.go:22-206`).
- Five of them carry a unique index. `entity_nested(tenant_id, kind, uid)` is one of the five (`entity_store_mig.go:188`).

## Model

| member | source | states |
|---|---|---|
| GoStrings.Split | pkg/services/k8s/apiserver/aggregator.go:254 | `strings.Split` on one separator gives one token more than there are separators, and no token contains the separator |
| GoStrings.HasPrefix | pkg/services/k8s/apiserver/aggregator.go:250 | `strings.HasPrefix(s, prefix)`: `s` is at least as long as `prefix` and begins with it; `HasPrefixOfConcat` is the property proved about it |
| GoStrings.JoinSplit | pkg/services/k8s/apiserver/aggregator.go:254 | joining the tokens of a split with the separator gives back the original string |
| GoStrings.SplitJoin | pkg/services/k8s/apiserver/aggregator.go:254 | splitting a join of separator-free tokens gives back those tokens |
| GoStrings.HasPrefixOfConcat | pkg/services/k8s/apiserver/aggregator.go:250 | `prefix + rest` starts with `prefix` |
| GoStrings.NatToString | pkg/services/store/entity/migrations/entity_store_mig.go:213 | `%d` of a natural is a non-empty string of decimal digits, one digit exactly for values below 10 |
| GoStrings.NatToStringInjective | pkg/services/store/entity/migrations/entity_store_mig.go:213 | distinct index numbers print differently |
| Aggregator.APIVersionPriorities | pkg/services/k8s/apiserver/aggregator.go:228-237 | the table has four entries; the core group-version ("", "v1") has priority 18000/1; no registered version contains a dot |
| Aggregator.MakeAPIService | pkg/services/k8s/apiserver/aggregator.go:157-174 | nil exactly when the group-version is not in the table; otherwise the record is named `version + "." + group`, carries that group and version, and carries the table's group and version priorities |
| Aggregator.NameRoundTrip | pkg/services/k8s/apiserver/aggregator.go:166 | a record name determines its group-version when the version has no dot |
| Aggregator.TableNamesDistinct | pkg/services/k8s/apiserver/aggregator.go:157-174 | distinct table entries give distinct APIService names |
| Aggregator.CorePathRegistered | pkg/services/k8s/apiserver/aggregator.go:243-247 | "/api/v1" always yields the core record named "v1." with priority 18000/1, never nothing |
| Aggregator.GroupPathRegistered | pkg/services/k8s/apiserver/aggregator.go:250-262 | "/apis/G/V" with slash-free G and V yields `makeAPIService({G, V})`: the record when (G, V) is in the table, nothing otherwise |
| Aggregator.ServiceForPath | pkg/services/k8s/apiserver/aggregator.go:243-262 | the record one listed path yields: a path yields a record only if it is "/api/v1" or starts with "/apis/"; what each shape yields is proved in `CorePathRegistered`, `GroupPathRegistered`, `PathShapeOfRecord` and `PathRecordFromTable` |
| Aggregator.SplitUnderApis | pkg/services/k8s/apiserver/aggregator.go:250-254 | the tokens of "/apis/" + rest are "", "apis", then the tokens of rest |
| Aggregator.PathShapeOfRecord | pkg/services/k8s/apiserver/aggregator.go:243-262 | a path yields a record only if it is "/api/v1" or has the exact shape "/apis/G/V", with (G, V) in the table; every other path, including one with a different token count, is skipped |
| Aggregator.PathRecordFromTable | pkg/services/k8s/apiserver/aggregator.go:259-262 | a record a path yields is exactly `makeAPIService` of the record's own group-version, and that group-version is in the table |
| Aggregator.ApisRecord | pkg/services/k8s/apiserver/aggregator.go:254-262 | a path under "/apis/" that yields a record spells out its slash-free group and version, and that pair is in the table |
| Aggregator.ServicesBounded | pkg/services/k8s/apiserver/aggregator.go:240-267 | at most one record per listed path |
| Aggregator.ServicesOfConcat | pkg/services/k8s/apiserver/aggregator.go:242-265 | the records of two runs of paths are the records of the first run followed by those of the second (input order is kept) |
| Aggregator.ServicesFromPaths | pkg/services/k8s/apiserver/aggregator.go:242-265 | every returned record is what some listed path yields (no nil and no invented record) |
| Aggregator.ServicesToRegister | pkg/services/k8s/apiserver/aggregator.go:240-267 | the records of the listed paths, path by path in input order, without the paths that yield nothing |
| Aggregator.AutoRegistration.AddAPIServiceToSyncOnStart | pkg/services/k8s/apiserver/aggregator.go:242-265 | the record is appended to the records to sync on start |
| Aggregator.RegisterPath | pkg/services/k8s/apiserver/aggregator.go:243-264 | one pass of the loop: returns exactly the records the path yields (none or one) and hands the same records to the registration |
| Aggregator.APIServicesToRegister | pkg/services/k8s/apiserver/aggregator.go:239-268 | returns exactly `ServicesToRegister(listedPaths)`, and hands the same records, in the same order, to the registration |
| Aggregator.PendingShrinks | pkg/services/k8s/apiserver/aggregator.go:186-196 | events only remove names: the pending set never grows and stays inside the registered names |
| Aggregator.PendingAfter | pkg/services/k8s/apiserver/aggregator.go:186-196 | the pending set after a run of events: a subset of the starting set |
| Aggregator.PendingExactly | pkg/services/k8s/apiserver/aggregator.go:179-196 | a name is pending exactly when it was registered and no observed event reported it Available |
| Aggregator.APIServiceAvailableHealthCheck.constructor | pkg/services/k8s/apiserver/aggregator.go:179-184 | every given service's name starts pending |
| Aggregator.APIServiceAvailableHealthCheck.HandleAPIServiceChange | pkg/services/k8s/apiserver/aggregator.go:187-196 | a pending name is removed when the event reports it Available; every other event leaves the set as it was; the invariant is kept |
| Aggregator.APIServiceAvailableHealthCheck.Check | pkg/services/k8s/apiserver/aggregator.go:205-212 | healthy exactly when nothing is pending; otherwise the error names all pending services |
| Aggregator.HealthyIffAllSeen | pkg/services/k8s/apiserver/aggregator.go:176-212 | the check passes after a run of events exactly when every registered service was seen Available at least once |
| EntityStoreMigrations.LatinPathColumn | pkg/services/store/entity/migrations/entity_store_mig.go:9-17 | a non-null, Latin, 1024-character NVarchar column with the given name, not a primary key |
| EntityStoreMigrations.EntityKeyColumns | pkg/services/store/entity/migrations/entity_store_mig.go:26-30 | contains the `grn` primary key, a non-null 256-character NVarchar column; no GRN-valued or etag column breaks the sizing rules |
| EntityStoreMigrations.EntityIdentifierColumns | pkg/services/store/entity/migrations/entity_store_mig.go:32-37 | no GRN-valued or etag column breaks the sizing rules |
| EntityStoreMigrations.EntityBodyColumns | pkg/services/store/entity/migrations/entity_store_mig.go:39-46 | contains the etag column, a non-null, Latin, 32-character NVarchar column; no GRN-valued or etag column breaks the sizing rules |
| EntityStoreMigrations.EntityAuditColumns | pkg/services/store/entity/migrations/entity_store_mig.go:48-52 | no GRN-valued or etag column breaks the sizing rules |
| EntityStoreMigrations.EntityOriginColumns | pkg/services/store/entity/migrations/entity_store_mig.go:54-57 | no GRN-valued or etag column breaks the sizing rules |
| EntityStoreMigrations.SummaryColumns | pkg/services/store/entity/migrations/entity_store_mig.go:59-65 | no GRN-valued or etag column breaks the sizing rules |
| EntityStoreMigrations.FolderKeyColumns | pkg/services/store/entity/migrations/entity_store_mig.go:81-83 | contains the `grn` primary key, a non-null 256-character NVarchar column; no GRN-valued or etag column breaks the sizing rules |
| EntityStoreMigrations.FolderTreeColumns | pkg/services/store/entity/migrations/entity_store_mig.go:84-89 | no GRN-valued or etag column breaks the sizing rules |
| EntityStoreMigrations.LabelColumns | pkg/services/store/entity/migrations/entity_store_mig.go:100-103 | contains `grn` (non-null) and `parent_grn` (nullable), both 256-character NVarchar columns; no GRN-valued or etag column breaks the sizing rules |
| EntityStoreMigrations.RefSourceColumns | pkg/services/store/entity/migrations/entity_store_mig.go:115-121 | contains `grn` (non-null) and `parent_grn` (nullable), both 256-character NVarchar columns; no GRN-valued or etag column breaks the sizing rules |
| EntityStoreMigrations.RefResolutionColumns | pkg/services/store/entity/migrations/entity_store_mig.go:124-127 | no GRN-valued or etag column breaks the sizing rules |
| EntityStoreMigrations.HistoryVersionColumns | pkg/services/store/entity/migrations/entity_store_mig.go:141-146 | contains a non-null 256-character NVarchar `grn` column; no GRN-valued or etag column breaks the sizing rules |
| EntityStoreMigrations.HistorySnapshotColumns | pkg/services/store/entity/migrations/entity_store_mig.go:147-156 | contains the etag column, a non-null, Latin, 32-character NVarchar column; no GRN-valued or etag column breaks the sizing rules |
| EntityStoreMigrations.NestedIdentifierColumns | pkg/services/store/entity/migrations/entity_store_mig.go:167-174 | contains the `grn` primary key and a non-null `parent_grn`, both 256-character NVarchar columns; no GRN-valued or etag column breaks the sizing rules |
| EntityStoreMigrations.NestedSummaryColumns | pkg/services/store/entity/migrations/entity_store_mig.go:177-181 | no GRN-valued or etag column breaks the sizing rules |
| EntityStoreMigrations.AccessRuleColumns | pkg/services/store/entity/migrations/entity_store_mig.go:195-200 | contains `policy`, `scope` and `role`, each a non-null 256-character NVarchar column; no GRN-valued or etag column breaks the sizing rules |
| EntityStoreMigrations.EntityTable | pkg/services/store/entity/migrations/entity_store_mig.go:22-75 | the table is named `entity` and declares four indices |
| EntityStoreMigrations.EntityFolderTable | pkg/services/store/entity/migrations/entity_store_mig.go:78-95 | the table is named `entity_folder` and declares one index |
| EntityStoreMigrations.EntityLabelsTable | pkg/services/store/entity/migrations/entity_store_mig.go:97-109 | the table is named `entity_labels` and declares two indices |
| EntityStoreMigrations.EntityRefTable | pkg/services/store/entity/migrations/entity_store_mig.go:111-136 | the table is named `entity_ref` and declares five indices |
| EntityStoreMigrations.EntityHistoryTable | pkg/services/store/entity/migrations/entity_store_mig.go:138-162 | the table is named `entity_history` and declares two indices |
| EntityStoreMigrations.EntityNestedTable | pkg/services/store/entity/migrations/entity_store_mig.go:164-190 | the table is named `entity_nested` and declares five indices |
| EntityStoreMigrations.EntityAccessRuleTable | pkg/services/store/entity/migrations/entity_store_mig.go:192-206 | the table is named `entity_access_rule` and declares one index |
| EntityStoreMigrations.EntityTables | pkg/services/store/entity/migrations/entity_store_mig.go:22-206 | the seven declared tables, in the order they are appended |
| EntityStoreMigrations.EntityTableIndexColumns | pkg/services/store/entity/migrations/entity_store_mig.go:22-75 | every column an `entity` index names is a column of `entity`; the table name has no comma |
| EntityStoreMigrations.EntityTableSized | pkg/services/store/entity/migrations/entity_store_mig.go:20-65 | in `entity`, every GRN-valued column has length `grnLength` = 256 and every etag column is a non-null, Latin, 32-character column |
| EntityStoreMigrations.EntityTableKeys | pkg/services/store/entity/migrations/entity_store_mig.go:22-75 | grn is the only primary-key column of `entity`; its only unique index is (tenant_id, kind, uid) |
| EntityStoreMigrations.EntityFolderTableIndexColumns | pkg/services/store/entity/migrations/entity_store_mig.go:78-95 | the index columns of `entity_folder` are declared; grn is its only primary key; its only unique index is (tenant_id, uid) |
| EntityStoreMigrations.EntityFolderTableSized | pkg/services/store/entity/migrations/entity_store_mig.go:80-90 | `entity_folder` keeps the GRN and etag sizing rules |
| EntityStoreMigrations.EntityLabelsTableFacts | pkg/services/store/entity/migrations/entity_store_mig.go:97-109 | `entity_labels` is well formed, has no primary key, and its only unique index is (grn, label) |
| EntityStoreMigrations.EntityRefTableIndexColumns | pkg/services/store/entity/migrations/entity_store_mig.go:111-136 | the index columns of `entity_ref` are declared; it has no primary key and no unique index |
| EntityStoreMigrations.EntityRefTableSized | pkg/services/store/entity/migrations/entity_store_mig.go:113-128 | `entity_ref` keeps the GRN and etag sizing rules |
| EntityStoreMigrations.EntityHistoryTableIndexColumns | pkg/services/store/entity/migrations/entity_store_mig.go:138-162 | the index columns of `entity_history` are declared; it has no primary key; its only unique index is (grn, version) |
| EntityStoreMigrations.EntityHistoryTableSized | pkg/services/store/entity/migrations/entity_store_mig.go:140-157 | `entity_history` keeps the GRN and etag sizing rules |
| EntityStoreMigrations.EntityNestedTableIndexColumns | pkg/services/store/entity/migrations/entity_store_mig.go:164-190 | the index columns of `entity_nested` are declared; grn is its only primary key; its only unique index is (tenant_id, kind, uid) |
| EntityStoreMigrations.EntityNestedTableSized | pkg/services/store/entity/migrations/entity_store_mig.go:166-182 | `entity_nested` keeps the GRN and etag sizing rules |
| EntityStoreMigrations.EntityAccessRuleTableFacts | pkg/services/store/entity/migrations/entity_store_mig.go:192-206 | `entity_access_rule` is well formed, has no primary key and no unique index |
| EntityStoreMigrations.EtagColumnsPresent | pkg/services/store/entity/migrations/entity_store_mig.go:22-162 | `entity` and `entity_history` both contain the non-null, Latin, 32-character etag column |
| EntityStoreMigrations.EntityTableNamesPlain | pkg/services/store/entity/migrations/entity_store_mig.go:22-206 | every declared table name is non-empty and has no comma |
| EntityStoreMigrations.EntityTableNamesDistinct | pkg/services/store/entity/migrations/entity_store_mig.go:22-206 | no two declared tables share a name |
| EntityStoreMigrations.DropId | pkg/services/store/entity/migrations/entity_store_mig.go:210 | a drop id starts with "drop table " and the rest is the table name |
| EntityStoreMigrations.CreateId | pkg/services/store/entity/migrations/entity_store_mig.go:211 | a create id starts with "create table " and the rest is the table name |
| EntityStoreMigrations.IndexId | pkg/services/store/entity/migrations/entity_store_mig.go:213 | an index id starts with the table's create id followed by ", index: " |
| EntityStoreMigrations.IndexSteps | pkg/services/store/entity/migrations/entity_store_mig.go:212-214 | one index step per index of the table |
| EntityStoreMigrations.TableSteps | pkg/services/store/entity/migrations/entity_store_mig.go:210-214 | a table contributes two steps more than it has indices: first its drop, then its create |
| EntityStoreMigrations.PlanOf | pkg/services/store/entity/migrations/entity_store_mig.go:209-215 | every table contributes at least its drop and create steps |
| EntityStoreMigrations.Plan | pkg/services/store/entity/migrations/entity_store_mig.go:209-220 | the plan is never empty, and its last step is the collation step |
| EntityStoreMigrations.PlanOfLength | pkg/services/store/entity/migrations/entity_store_mig.go:209-215 | the table steps number two per table plus one per index |
| EntityStoreMigrations.PlanLength | pkg/services/store/entity/migrations/entity_store_mig.go:209-220 | the plan is the sum over tables of (2 + number of indices) steps, plus one collation step |
| EntityStoreMigrations.PlanOfPrefix | pkg/services/store/entity/migrations/entity_store_mig.go:209-215 | the steps of the first k tables are a prefix of the steps of all tables; tables are handled in declaration order |
| EntityStoreMigrations.PlanLayout | pkg/services/store/entity/migrations/entity_store_mig.go:209-220 | table k's steps start at the step count of the tables before it: its drop, then its create, then one step per index in index order; the collation step is last |
| EntityStoreMigrations.EntityPlanLength | pkg/services/store/entity/migrations/entity_store_mig.go:22-220 | the seven declared tables with their twenty indices make 35 steps |
| EntityStoreMigrations.DropIdName | pkg/services/store/entity/migrations/entity_store_mig.go:210 | a drop id names its comma-free table and is not the collation id |
| EntityStoreMigrations.CreateIdName | pkg/services/store/entity/migrations/entity_store_mig.go:211 | a create id names its comma-free table and is not the collation id |
| EntityStoreMigrations.IndexIdName | pkg/services/store/entity/migrations/entity_store_mig.go:213 | an index id names its comma-free table and is not the collation id |
| EntityStoreMigrations.TableNameOfIdOf | pkg/services/store/entity/migrations/entity_store_mig.go:210-213 | every id registered for a comma-free table names that table |
| EntityStoreMigrations.TableStepIds | pkg/services/store/entity/migrations/entity_store_mig.go:210-214 | the ids of one table's steps belong to that table and are pairwise distinct |
| EntityStoreMigrations.PlanOfIds | pkg/services/store/entity/migrations/entity_store_mig.go:209-215 | when table names are distinct and comma-free, every table step names a listed table, none uses the collation id, and all are pairwise distinct |
| EntityStoreMigrations.PlanIdsDistinct | pkg/services/store/entity/migrations/entity_store_mig.go:209-220 | when table names are distinct and comma-free, all migration ids of the plan are pairwise distinct |
| EntityStoreMigrations.EntityPlanIdsDistinct | pkg/services/store/entity/migrations/entity_store_mig.go:22-220 | the 35 migration ids of the declared schema are pairwise distinct |
| EntityStoreMigrations.Migrator.AddMigration | pkg/services/store/entity/migrations/entity_store_mig.go:210-213 | the migration is appended under its id |
| EntityStoreMigrations.RegisterIndices | pkg/services/store/entity/migrations/entity_store_mig.go:212-214 | the inner loop registers exactly the index steps of the table, after what the migrator already held |
| EntityStoreMigrations.RegisterTable | pkg/services/store/entity/migrations/entity_store_mig.go:210-214 | one pass of the outer loop registers exactly the table's steps: drop, create, then its indices |
| EntityStoreMigrations.RegisterPlan | pkg/services/store/entity/migrations/entity_store_mig.go:208-220 | the nested loops register exactly `Plan(tables)`, after what the migrator already held |
| EntityStoreMigrations.InitEntityTables | pkg/services/store/entity/migrations/entity_store_mig.go:19-220 | registers exactly the plan of the seven declared tables, in declaration order |
| BrowseView.Checked | public/app/features/browse-dashboards/components/BrowseView.tsx:86 | `selectedItems[item.kind][item.uid]` is truthy; a uid absent from its kind's map is never checked |
| BrowseView.HasSelectedDescendants | public/app/features/browse-dashboards/components/BrowseView.tsx:155-173 | when true, the item has a children collection and it is not empty; the lemmas below prove it equal to reachability of a checked item |
| BrowseView.DescendantsFoundArePaths | public/app/features/browse-dashboards/components/BrowseView.tsx:155-173 | when `hasSelectedDescendants` holds, some chain of children below the item ends in a checked item |
| BrowseView.PathsAreFound | public/app/features/browse-dashboards/components/BrowseView.tsx:155-173 | when a chain of children ends in a checked item, `hasSelectedDescendants` holds |
| BrowseView.HasSelectedDescendantsIffReachable | public/app/features/browse-dashboards/components/BrowseView.tsx:155-173 | `hasSelectedDescendants` is true exactly when some transitive descendant is checked, and false for an item without a children collection |
| BrowseView.IsSelected | public/app/features/browse-dashboards/components/BrowseView.tsx:59-101 | header: Selected exactly when `$all` is set; Mixed exactly when `$all` is not set and some uid of some kind is selected. Row: Selected exactly when it is checked (so never Mixed then); Mixed exactly when it is unchecked and has a selected descendant; Unselected otherwise. Acyclicity of the children map is needed only for an unchecked row, the one case that searches descendants |
| BrowseView.RowMixedIffDescendantChecked | public/app/features/browse-dashboards/components/BrowseView.tsx:86-98 | an unchecked row is Mixed exactly when a reachable item is checked, and Unselected exactly when none is |
| BrowseView.IsItemLoaded | public/app/features/browse-dashboards/components/BrowseView.tsx:103-114 | false for an index with no row; false for a UI row whose `uiKind` is "pagination-placeholder"; true for every other row |

## Left out

- `createAggregatorConfig` and `createAggregatorServer` (`aggregator.go:58-155`): Kubernetes configuration and server wiring, goroutines, informers, post-start hooks and controllers. All of them are calls into libraries that are not part of this model.
- Health check locking and event wiring: the `sync.RWMutex` and the informer event-handler registration. The model applies events one at a time, in the order they arrive.
- `Aggregator.APIServicesToRegister`: `delegateAPIServer.ListedPaths()` becomes the parameter `listedPaths`. The delegation target is not part of this model.
- `Aggregator.APIServiceAvailableHealthCheck.HandleAPIServiceChange`: `v1helper.IsAPIServiceConditionTrue(service, v1.Available)` becomes the event's `available` flag. The condition helper is not part of this model.
- `Aggregator.APIServiceAvailableHealthCheck.Check`: the error carries the pending set, not the formatted "missing APIService: [...]" message with its sorted name list.
- `Aggregator.MakeAPIService`: the `klog.Infof` line logged for a group-version missing from the table is not modelled; it is output only.
- `Aggregator.APIVersionPriorities`: the `int32` priority fields are unbounded integers. Every value in the table fits in 32 bits.
- The `autoregister` controller behind `AddAPIServiceToSyncOnStart` is out of scope. Only the sequence of records handed to it is kept.
- `migrator.*` internals are out of scope, and so is running the migrations against a database. Each migration is an opaque `(id, operation)` record. The dialect-specific Postgres collation SQL is the opaque `RawSQL` step.
- Entity-store runtime behaviour is not in the source files; they only declare storage. That covers version increments, history appends, folder-tree renumbering, label extraction and reference resolution, and none of it is modelled.
- Column comments and the commented-out indices are not part of the schema, so they are not in the model.
- React rendering, hooks, Redux `dispatch` and the folder-click and selection-change handlers in `BrowseView.tsx` (30-153) are not modelled. Neither is `useLoadNextChildrenPage` (175-193), whose in-flight flag only deduplicates asynchronous requests.
- `BrowseView.HasSelectedDescendants`: requires a rank map showing that the whole children map has no cycle. The source recurses without bound only when its search reaches a cycle before it finds a checked item, because `.some` stops at the first checked child (`BrowseView.tsx:165-169`). On a cyclic map where the search would stop early, the model says nothing.
- `BrowseView.IsItemLoaded`: the index is an integer, so fractional or non-numeric indices (which also find no row) are not modelled. A `DashboardViewItem` keeps only its kind and uid, and a tree row keeps its item, level and open flag.
- `modowners.go`: reads a file, prints, and delegates parsing to `golang.org/x/mod/modfile`. It is only I/O and a foreign call.
