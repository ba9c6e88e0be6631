/**
 * The entity store's schema declaration and the ordered migration plan that
 * creates it: seven tables, each dropped, created and indexed in turn,
 * followed by one collation step for the folder path column.
 */
module EntityStoreMigrations {
  import opened GoStrings

  /** The `migrator.DB_*` column types this schema uses. */
  datatype ColumnType = NVarchar | Uuid | BigInt | Int | Bool | DateTime | Text | Blob | LongBlob

  /** `migrator.Column`; fields a declaration leaves unset are Go zero values (0, false). */
  datatype Column = Column(
    name: string,
    columnType: ColumnType,
    length: nat,
    nullable: bool,
    isPrimaryKey: bool,
    isLatin: bool)

  /** `migrator.IndexType` (the zero value: a plain index) or `migrator.UniqueIndex`. */
  datatype IndexKind = PlainIndex | UniqueIndex

  datatype Index = Index(cols: seq<string>, kind: IndexKind)

  datatype Table = Table(name: string, columns: seq<Column>, indices: seq<Index>)

  /** What a migration does; the dialect-specific collation SQL is not modelled. */
  datatype Operation =
    | DropTable(tableName: string)
    | AddTable(table: Table)
    | AddIndex(table: Table, index: Index)
    | RawSQL

  /** A migration registered under its id. */
  datatype Migration = Migration(id: string, op: Operation)

  /** `grnLength`: the key budget of every GRN-valued column. */
  const GrnLength: nat := 256

  /** The columns that hold a GRN-sized key. */
  const GrnValued: set<string> := {"grn", "parent_grn", "policy", "scope", "role"}

  function Col(name: string, columnType: ColumnType, length: nat, nullable: bool): Column
  {
    Column(name, columnType, length, nullable, false, false)
  }

  function GrnCol(name: string, nullable: bool): Column
  {
    Column(name, NVarchar, GrnLength, nullable, false, false)
  }

  function GrnKeyCol(): Column
  {
    Column("grn", NVarchar, GrnLength, false, true, false)
  }

  /** `md5(body)`: 32 Latin characters. */
  function EtagCol(): Column
  {
    Column("etag", NVarchar, 32, false, false, true)
  }

  function Plain(cols: seq<string>): Index { Index(cols, PlainIndex) }

  function Unique(cols: seq<string>): Index { Index(cols, UniqueIndex) }

  /** `getLatinPathColumn`: a non-null, Latin-collated text column of 1024 characters. */
  function LatinPathColumn(name: string): (c: Column)
    ensures c.name == name && c.columnType == NVarchar && c.length == 1024
    ensures !c.nullable && c.isLatin && !c.isPrimaryKey
  {
    Column(name, NVarchar, 1024, false, false, true)
  }

  // ---------------------------------------------------------------------------
  // Schema predicates

  function NamesOf(cs: seq<Column>): seq<string>
  {
    seq(|cs|, k requires 0 <= k < |cs| => cs[k].name)
  }

  /** The column at `p` is the only primary-key column (none when `p` is out of range). */
  predicate PrimaryKeyAt(cs: seq<Column>, p: int)
  {
    forall k :: 0 <= k < |cs| ==> (cs[k].isPrimaryKey <==> k == p)
  }

  /** The table's primary key is the single column named `name`. */
  predicate SolePrimaryKey(cs: seq<Column>, name: string)
  {
    exists p :: 0 <= p < |cs| && PrimaryKeyAt(cs, p) && cs[p].name == name
  }

  predicate NoPrimaryKey(cs: seq<Column>)
  {
    PrimaryKeyAt(cs, -1)
  }

  /** Every GRN-valued column is a `GrnLength` text column. */
  predicate GrnColumnsSized(cs: seq<Column>)
  {
    forall k :: 0 <= k < |cs| && cs[k].name in GrnValued ==>
      cs[k].columnType == NVarchar && cs[k].length == GrnLength
  }

  /** Every etag column is a non-null, Latin, 32-character text column. */
  predicate EtagColumnsHashSized(cs: seq<Column>)
  {
    forall k :: 0 <= k < |cs| && cs[k].name == "etag" ==> cs[k] == EtagCol()
  }

  /** Every column an index names is a column of its table. */
  predicate IndexColumnsDeclared(t: Table)
  {
    forall i, j :: 0 <= i < |t.indices| && 0 <= j < |t.indices[i].cols| ==>
      t.indices[i].cols[j] in NamesOf(t.columns)
  }

  /** The GRN and etag sizing rules together. */
  predicate SizedColumns(cs: seq<Column>)
  {
    GrnColumnsSized(cs) && EtagColumnsHashSized(cs)
  }

  lemma SizedConcat(a: seq<Column>, b: seq<Column>)
    requires SizedColumns(a) && SizedColumns(b)
    ensures SizedColumns(a + b)
  {
    forall k | 0 <= k < |a + b|
      ensures (a + b)[k] == if k < |a| then a[k] else b[k - |a|]
    {
    }
  }

  predicate WellFormedTable(t: Table)
  {
    && t.name != "" && ',' !in t.name
    && IndexColumnsDeclared(t)
    && SizedColumns(t.columns)
  }

  /** The column lists of the unique indices, in index order. */
  function UniqueKeys(ix: seq<Index>): seq<seq<string>>
  {
    if ix == [] then []
    else (if ix[0].kind == UniqueIndex then [ix[0].cols] else []) + UniqueKeys(ix[1..])
  }

  // ---------------------------------------------------------------------------
  // The seven declared tables, their columns grouped as the declaration groups them.

  function EntityKeyColumns(): (cs: seq<Column>)
    ensures SizedColumns(cs)
    ensures GrnKeyCol() in cs
  {
    [ Col("guid", Uuid, 0, false),
      GrnKeyCol() ]
  }

  function EntityIdentifierColumns(): (cs: seq<Column>)
    ensures SizedColumns(cs)
  {
    [ Col("tenant_id", BigInt, 0, false),
      Col("kind", NVarchar, 255, false),
      Col("uid", NVarchar, 40, false),
      Col("folder", NVarchar, 40, false),
      Col("access", Text, 0, true) ]
  }

  function EntityBodyColumns(): (cs: seq<Column>)
    ensures SizedColumns(cs)
    ensures EtagCol() in cs
  {
    [ Col("meta", Blob, 0, true),
      Col("body", LongBlob, 0, true),
      Col("status", Blob, 0, true),
      Col("size", BigInt, 0, false),
      EtagCol(),
      Col("version", BigInt, 128, false) ]
  }

  function EntityAuditColumns(): (cs: seq<Column>)
    ensures SizedColumns(cs)
  {
    [ Col("updated_at", BigInt, 0, false),
      Col("created_at", BigInt, 0, false),
      Col("updated_by", NVarchar, 190, false),
      Col("created_by", NVarchar, 190, false) ]
  }

  function EntityOriginColumns(): (cs: seq<Column>)
    ensures SizedColumns(cs)
  {
    [ Col("origin", NVarchar, 40, false),
      LatinPathColumn("origin_key"),
      Col("origin_ts", BigInt, 0, false) ]
  }

  /** Summary data, always extracted from the body. */
  function SummaryColumns(): (cs: seq<Column>)
    ensures SizedColumns(cs)
  {
    [ Col("name", NVarchar, 255, false),
      Col("description", NVarchar, 255, true),
      Col("slug", NVarchar, 189, false),
      Col("labels", Text, 0, true),
      Col("fields", Text, 0, true),
      Col("errors", Text, 0, true) ]
  }

  /** `entity`: the current record of every object. */
  function EntityTable(): (t: Table)
    ensures t.name == "entity" && |t.indices| == 4
  {
    Table("entity",
      EntityKeyColumns() + EntityIdentifierColumns() + EntityBodyColumns() +
      EntityAuditColumns() + EntityOriginColumns() + SummaryColumns(),
      [ Plain(["kind"]),
        Plain(["folder"]),
        Plain(["uid"]),
        Unique(["tenant_id", "kind", "uid"]) ])
  }

  function FolderKeyColumns(): (cs: seq<Column>)
    ensures SizedColumns(cs)
    ensures GrnKeyCol() in cs
  {
    [ GrnKeyCol(),
      Col("tenant_id", BigInt, 0, false),
      Col("uid", NVarchar, 40, false) ]
  }

  function FolderTreeColumns(): (cs: seq<Column>)
    ensures SizedColumns(cs)
  {
    [ LatinPathColumn("slug_path"),
      Col("tree", Text, 0, false),
      Col("depth", Int, 0, false),
      Col("left", Int, 0, false),
      Col("right", Int, 0, false),
      Col("detached", Bool, 0, false) ]
  }

  /** `entity_folder`: the cached tree position of each folder. */
  function EntityFolderTable(): (t: Table)
    ensures t.name == "entity_folder" && |t.indices| == 1
  {
    Table("entity_folder",
      FolderKeyColumns() + FolderTreeColumns(),
      [ Unique(["tenant_id", "uid"]) ])
  }

  function LabelColumns(): (cs: seq<Column>)
    ensures SizedColumns(cs)
    ensures GrnCol("grn", false) in cs && GrnCol("parent_grn", true) in cs
  {
    [ GrnCol("grn", false),
      Col("label", NVarchar, 191, false),
      Col("value", NVarchar, 1024, false),
      GrnCol("parent_grn", true) ]
  }

  /** `entity_labels`: one row per (grn, label). */
  function EntityLabelsTable(): (t: Table)
    ensures t.name == "entity_labels" && |t.indices| == 2
  {
    Table("entity_labels",
      LabelColumns(),
      [ Unique(["grn", "label"]),
        Plain(["parent_grn"]) ])
  }

  function RefSourceColumns(): (cs: seq<Column>)
    ensures SizedColumns(cs)
    ensures GrnCol("grn", false) in cs && GrnCol("parent_grn", true) in cs
  {
    [ GrnCol("grn", false),
      GrnCol("parent_grn", true),
      Col("family", NVarchar, 255, false),
      Col("type", NVarchar, 255, true),
      Col("id", NVarchar, 1024, true) ]
  }

  function RefResolutionColumns(): (cs: seq<Column>)
    ensures SizedColumns(cs)
  {
    [ Col("resolved_ok", Bool, 0, false),
      Col("resolved_to", NVarchar, 40, false),
      Col("resolved_warning", NVarchar, 255, false),
      Col("resolved_time", DateTime, 0, false) ]
  }

  /** `entity_ref`: references declared in bodies, with their cached resolution. */
  function EntityRefTable(): (t: Table)
    ensures t.name == "entity_ref" && |t.indices| == 5
  {
    Table("entity_ref",
      RefSourceColumns() + RefResolutionColumns(),
      [ Plain(["grn"]),
        Plain(["family"]),
        Plain(["type"]),
        Plain(["resolved_to"]),
        Plain(["parent_grn"]) ])
  }

  function HistoryVersionColumns(): (cs: seq<Column>)
    ensures SizedColumns(cs)
    ensures GrnCol("grn", false) in cs
  {
    [ GrnCol("grn", false),
      Col("version", BigInt, 128, false),
      Col("folder", NVarchar, 40, false),
      Col("access", Text, 0, true) ]
  }

  function HistorySnapshotColumns(): (cs: seq<Column>)
    ensures SizedColumns(cs)
    ensures EtagCol() in cs
  {
    [ Col("body", LongBlob, 0, false),
      Col("size", BigInt, 0, false),
      EtagCol(),
      Col("updated_at", BigInt, 0, false),
      Col("updated_by", NVarchar, 190, false),
      Col("message", Text, 0, false) ]
  }

  /** `entity_history`: one snapshot per (grn, version). */
  function EntityHistoryTable(): (t: Table)
    ensures t.name == "entity_history" && |t.indices| == 2
  {
    Table("entity_history",
      HistoryVersionColumns() + HistorySnapshotColumns(),
      [ Unique(["grn", "version"]),
        Plain(["updated_by"]) ])
  }

  function NestedIdentifierColumns(): (cs: seq<Column>)
    ensures SizedColumns(cs)
    ensures GrnKeyCol() in cs && GrnCol("parent_grn", false) in cs
  {
    [ GrnKeyCol(),
      GrnCol("parent_grn", false),
      Col("tenant_id", BigInt, 0, false),
      Col("kind", NVarchar, 255, false),
      Col("uid", NVarchar, 40, false),
      Col("folder", NVarchar, 40, false) ]
  }

  function NestedSummaryColumns(): (cs: seq<Column>)
    ensures SizedColumns(cs)
  {
    [ Col("name", NVarchar, 255, false),
      Col("description", NVarchar, 255, true),
      Col("labels", Text, 0, true),
      Col("fields", Text, 0, true),
      Col("errors", Text, 0, true) ]
  }

  /** `entity_nested`: objects that live inside another entity's body. */
  function EntityNestedTable(): (t: Table)
    ensures t.name == "entity_nested" && |t.indices| == 5
  {
    Table("entity_nested",
      NestedIdentifierColumns() + NestedSummaryColumns(),
      [ Plain(["parent_grn"]),
        Plain(["kind"]),
        Plain(["folder"]),
        Plain(["uid"]),
        Unique(["tenant_id", "kind", "uid"]) ])
  }

  function AccessRuleColumns(): (cs: seq<Column>)
    ensures SizedColumns(cs)
    ensures GrnCol("policy", false) in cs && GrnCol("scope", false) in cs && GrnCol("role", false) in cs
  {
    [ GrnCol("policy", false),
      GrnCol("scope", false),
      GrnCol("role", false),
      Col("kind", NVarchar, 64, false),
      Col("verb", NVarchar, 32, false),
      Col("target", NVarchar, 32, true) ]
  }

  /** `entity_access_rule`: policy bindings, interpreted elsewhere. */
  function EntityAccessRuleTable(): (t: Table)
    ensures t.name == "entity_access_rule" && |t.indices| == 1
  {
    Table("entity_access_rule",
      AccessRuleColumns(),
      [ Plain(["policy"]) ])
  }

  /** The tables in the order `initEntityTables` appends them. */
  function EntityTables(): (ts: seq<Table>)
    ensures |ts| == 7
  {
    [ EntityTable(), EntityFolderTable(), EntityLabelsTable(), EntityRefTable(),
      EntityHistoryTable(), EntityNestedTable(), EntityAccessRuleTable() ]
  }

  // ---------------------------------------------------------------------------
  // Facts about the declared tables

  // Each fact is proved table by table, in lemmas small enough for the solver.

  lemma EntityTableIndexColumns()
    ensures IndexColumnsDeclared(EntityTable()) && ',' !in EntityTable().name
  {
    var names := NamesOf(EntityTable().columns);
    assert names[2] == "tenant_id" && names[3] == "kind" && names[4] == "uid" && names[5] == "folder";
  }

  lemma EntityTableSized()
    ensures SizedColumns(EntityTable().columns)
  {
    SizedConcat(EntityKeyColumns(), EntityIdentifierColumns());
    SizedConcat(EntityKeyColumns() + EntityIdentifierColumns(), EntityBodyColumns());
    SizedConcat(EntityKeyColumns() + EntityIdentifierColumns() + EntityBodyColumns(), EntityAuditColumns());
    SizedConcat(EntityKeyColumns() + EntityIdentifierColumns() + EntityBodyColumns() + EntityAuditColumns(),
      EntityOriginColumns());
    SizedConcat(EntityKeyColumns() + EntityIdentifierColumns() + EntityBodyColumns() + EntityAuditColumns() +
      EntityOriginColumns(), SummaryColumns());
  }

  lemma EntityTableKeys()
    ensures SolePrimaryKey(EntityTable().columns, "grn")
    ensures UniqueKeys(EntityTable().indices) == [["tenant_id", "kind", "uid"]]
  {
    assert PrimaryKeyAt(EntityTable().columns, 1);
  }

  lemma EntityFolderTableIndexColumns()
    ensures IndexColumnsDeclared(EntityFolderTable()) && ',' !in EntityFolderTable().name
    ensures SolePrimaryKey(EntityFolderTable().columns, "grn")
    ensures UniqueKeys(EntityFolderTable().indices) == [["tenant_id", "uid"]]
  {
    var cs := EntityFolderTable().columns;
    var names := NamesOf(cs);
    assert names[1] == "tenant_id" && names[2] == "uid";
    assert PrimaryKeyAt(cs, 0);
  }

  lemma EntityFolderTableSized()
    ensures SizedColumns(EntityFolderTable().columns)
  {
    SizedConcat(FolderKeyColumns(), FolderTreeColumns());
  }

  lemma EntityLabelsTableFacts()
    ensures WellFormedTable(EntityLabelsTable())
    ensures NoPrimaryKey(EntityLabelsTable().columns)
    ensures UniqueKeys(EntityLabelsTable().indices) == [["grn", "label"]]
  {
    var names := NamesOf(EntityLabelsTable().columns);
    assert names[0] == "grn" && names[1] == "label" && names[3] == "parent_grn";
  }

  lemma EntityRefTableIndexColumns()
    ensures IndexColumnsDeclared(EntityRefTable()) && ',' !in EntityRefTable().name
    ensures NoPrimaryKey(EntityRefTable().columns)
    ensures UniqueKeys(EntityRefTable().indices) == []
  {
    var names := NamesOf(EntityRefTable().columns);
    assert names[0] == "grn" && names[1] == "parent_grn" && names[2] == "family" && names[3] == "type" &&
      names[6] == "resolved_to";
  }

  lemma EntityRefTableSized()
    ensures SizedColumns(EntityRefTable().columns)
  {
    SizedConcat(RefSourceColumns(), RefResolutionColumns());
  }

  lemma EntityHistoryTableIndexColumns()
    ensures IndexColumnsDeclared(EntityHistoryTable()) && ',' !in EntityHistoryTable().name
    ensures NoPrimaryKey(EntityHistoryTable().columns)
    ensures UniqueKeys(EntityHistoryTable().indices) == [["grn", "version"]]
  {
    var names := NamesOf(EntityHistoryTable().columns);
    assert names[0] == "grn" && names[1] == "version" && names[8] == "updated_by";
  }

  lemma EntityHistoryTableSized()
    ensures SizedColumns(EntityHistoryTable().columns)
  {
    SizedConcat(HistoryVersionColumns(), HistorySnapshotColumns());
  }

  lemma EntityNestedTableIndexColumns()
    ensures IndexColumnsDeclared(EntityNestedTable()) && ',' !in EntityNestedTable().name
    ensures SolePrimaryKey(EntityNestedTable().columns, "grn")
    ensures UniqueKeys(EntityNestedTable().indices) == [["tenant_id", "kind", "uid"]]
  {
    var cs := EntityNestedTable().columns;
    var names := NamesOf(cs);
    assert names[1] == "parent_grn" && names[2] == "tenant_id" && names[3] == "kind" && names[4] == "uid" &&
      names[5] == "folder";
    assert PrimaryKeyAt(cs, 0);
  }

  lemma EntityNestedTableSized()
    ensures SizedColumns(EntityNestedTable().columns)
  {
    SizedConcat(NestedIdentifierColumns(), NestedSummaryColumns());
  }

  lemma EntityAccessRuleTableFacts()
    ensures WellFormedTable(EntityAccessRuleTable())
    ensures NoPrimaryKey(EntityAccessRuleTable().columns)
    ensures UniqueKeys(EntityAccessRuleTable().indices) == []
  {
    var names := NamesOf(EntityAccessRuleTable().columns);
    assert names[0] == "policy";
  }

  /** `entity` and `entity_history` each carry the hash-sized etag column. */
  lemma EtagColumnsPresent()
    ensures EtagCol() in EntityTable().columns && EtagCol() in EntityHistoryTable().columns
  {
    assert EntityTable().columns == (EntityKeyColumns() + EntityIdentifierColumns()) + EntityBodyColumns() +
      (EntityAuditColumns() + EntityOriginColumns() + SummaryColumns());
  }

  /** The declared tables have non-empty names without a comma. */
  lemma EntityTableNamesPlain()
    ensures forall k :: 0 <= k < |EntityTables()| ==> EntityTables()[k].name != "" && ',' !in EntityTables()[k].name
  {
    DeclaredNamesPlain();
    assert forall k | 0 <= k < 7 :: EntityTables()[k].name == DeclaredTableNames()[k];
  }

  /** The table names in declaration order. */
  function DeclaredTableNames(): seq<string>
  {
    ["entity", "entity_folder", "entity_labels", "entity_ref", "entity_history", "entity_nested", "entity_access_rule"]
  }

  lemma DeclaredNamesPlain()
    ensures forall k | 0 <= k < |DeclaredTableNames()| :: DeclaredTableNames()[k] != "" && ',' !in DeclaredTableNames()[k]
  {
  }

  /** No two declared tables share a name. */
  lemma EntityTableNamesDistinct()
    ensures forall k, l :: 0 <= k < l < |EntityTables()| ==> EntityTables()[k].name != EntityTables()[l].name
  {
  }

  // ---------------------------------------------------------------------------
  // The migration plan

  function DropId(name: string): (id: string)
    ensures HasPrefix(id, "drop table ") && id[11..] == name
  {
    "drop table " + name
  }

  function CreateId(name: string): (id: string)
    ensures HasPrefix(id, "create table ") && id[13..] == name
  {
    "create table " + name
  }

  /** `fmt.Sprintf("create table %s, index: %d", name, i)`. */
  function IndexId(name: string, i: nat): (id: string)
    ensures HasPrefix(id, CreateId(name) + ", index: ")
  {
    "create table " + name + ", index: " + NatToString(i)
  }

  const CollationId: string := "set path collation on entity table"

  /** One index step per index of `t`, in index order. */
  function IndexSteps(t: Table): (steps: seq<Migration>)
    ensures |steps| == |t.indices|
  {
    seq(|t.indices|, i requires 0 <= i < |t.indices| => Migration(IndexId(t.name, i), AddIndex(t, t.indices[i])))
  }

  /** The steps one table contributes: drop, create, then its indices. */
  function TableSteps(t: Table): (steps: seq<Migration>)
    ensures |steps| == 2 + |t.indices|
    ensures steps[0].op == DropTable(t.name) && steps[1].op == AddTable(t)
  {
    [Migration(DropId(t.name), DropTable(t.name)), Migration(CreateId(t.name), AddTable(t))] + IndexSteps(t)
  }

  /** The table steps of `ts`, table after table. */
  function PlanOf(ts: seq<Table>): (steps: seq<Migration>)
    ensures |steps| >= 2 * |ts|
  {
    if ts == [] then [] else PlanOf(ts[..|ts| - 1]) + TableSteps(ts[|ts| - 1])
  }

  /** Everything `initEntityTables` registers for the tables `ts`. */
  function Plan(ts: seq<Table>): (steps: seq<Migration>)
    ensures |steps| > 0 && steps[|steps| - 1] == Migration(CollationId, RawSQL)
  {
    PlanOf(ts) + [Migration(CollationId, RawSQL)]
  }

  /** The number of table steps: two per table plus one per index. */
  function StepCount(ts: seq<Table>): nat
  {
    if ts == [] then 0 else StepCount(ts[..|ts| - 1]) + 2 + |ts[|ts| - 1].indices|
  }

  lemma {:induction false} PlanOfLength(ts: seq<Table>)
    ensures |PlanOf(ts)| == StepCount(ts)
  {
    if ts != [] {
      PlanOfLength(ts[..|ts| - 1]);
    }
  }

  /** The plan has two steps per table, one per index, and the collation step. */
  lemma PlanLength(ts: seq<Table>)
    ensures |Plan(ts)| == StepCount(ts) + 1
  {
    PlanOfLength(ts);
  }

  /** The plan of a prefix of the tables is a prefix of the plan. */
  lemma {:induction false} PlanOfPrefix(ts: seq<Table>, k: nat)
    requires k <= |ts|
    ensures StepCount(ts[..k]) <= |PlanOf(ts)|
    ensures PlanOf(ts)[..StepCount(ts[..k])] == PlanOf(ts[..k])
  {
    PlanOfLength(ts);
    PlanOfLength(ts[..k]);
    if k < |ts| {
      var init := ts[..|ts| - 1];
      assert init[..k] == ts[..k];
      PlanOfPrefix(init, k);
      PlanOfLength(init);
    } else {
      assert ts[..k] == ts;
    }
  }

  /**
   * Table `k`'s steps sit at offset `StepCount(ts[..k])`: its drop, its create,
   * then one step per index in index order. The collation step comes last.
   */
  lemma PlanLayout(ts: seq<Table>, k: nat)
    requires k < |ts|
    ensures StepCount(ts[..k + 1]) == StepCount(ts[..k]) + 2 + |ts[k].indices|
    ensures StepCount(ts[..k + 1]) <= |Plan(ts)| - 1
    ensures Plan(ts)[StepCount(ts[..k]) .. StepCount(ts[..k + 1])] == TableSteps(ts[k])
    ensures Plan(ts)[|Plan(ts)| - 1] == Migration(CollationId, RawSQL)
  {
    var pre := ts[..k + 1];
    assert pre[..|pre| - 1] == ts[..k];
    PlanOfPrefix(ts, k + 1);
    PlanOfLength(ts[..k]);
    PlanOfLength(ts);
    var p := PlanOf(ts);
    var lo, hi := StepCount(ts[..k]), StepCount(ts[..k + 1]);
    assert p[..hi] == PlanOf(ts[..k]) + TableSteps(ts[k]);
    assert p[lo..hi] == p[..hi][lo..];
    assert Plan(ts)[lo..hi] == p[lo..hi];
  }

  /** The seven declared tables with their twenty indices make 35 steps. */
  lemma EntityPlanLength()
    ensures |Plan(EntityTables())| == 35
  {
    var ts := EntityTables();
    PlanLength(ts);
    assert StepCount(ts[..0]) == 0;
    assert ts[..1][..0] == ts[..0];
    assert StepCount(ts[..1]) == 6;
    assert ts[..2][..1] == ts[..1];
    assert StepCount(ts[..2]) == 9;
    assert ts[..3][..2] == ts[..2];
    assert StepCount(ts[..3]) == 13;
    assert ts[..4][..3] == ts[..3];
    assert StepCount(ts[..4]) == 20;
    assert ts[..5][..4] == ts[..4];
    assert StepCount(ts[..5]) == 24;
    assert ts[..6][..5] == ts[..5];
    assert StepCount(ts[..6]) == 31;
    assert ts[..7][..6] == ts[..6];
    assert ts[..7] == ts;
  }

  // ---------------------------------------------------------------------------
  // Migration ids

  /** `id` is one of the ids the plan registers for the table called `name`. */
  ghost predicate IdOfTable(id: string, name: string)
  {
    id == DropId(name) || id == CreateId(name) || exists i: nat :: id == IndexId(name, i)
  }

  /** Recovers the table name from a table step's id. */
  function TableNameOfId(id: string): string
  {
    if HasPrefix(id, "drop table ") then TakeUntil(id[11..], ',')
    else if HasPrefix(id, "create table ") then TakeUntil(id[13..], ',')
    else ""
  }

  lemma DropIdName(name: string)
    requires ',' !in name
    ensures TableNameOfId(DropId(name)) == name && DropId(name) != CollationId
  {
    var id := DropId(name);
    HasPrefixOfConcat("drop table ", name);
    assert id[11..] == name;
    TakeUntilFree(name, ',');
    assert id[0] != CollationId[0];
  }

  lemma CreateIdName(name: string)
    requires ',' !in name
    ensures TableNameOfId(CreateId(name)) == name && CreateId(name) != CollationId
  {
    var id := CreateId(name);
    assert !HasPrefix(id, "drop table ") by { assert id[0] == 'c'; }
    HasPrefixOfConcat("create table ", name);
    assert id[13..] == name;
    TakeUntilFree(name, ',');
    assert id[0] != CollationId[0];
  }

  lemma IndexIdName(name: string, i: nat)
    requires ',' !in name
    ensures TableNameOfId(IndexId(name, i)) == name && IndexId(name, i) != CollationId
  {
    var id := IndexId(name, i);
    var rest := " index: " + NatToString(i);
    assert id == "create table " + (name + [','] + rest);
    assert !HasPrefix(id, "drop table ") by { assert id[0] == 'c'; }
    HasPrefixOfConcat("create table ", name + [','] + rest);
    assert id[13..] == name + [','] + rest;
    TakeUntilPrefix(name, ',', rest);
    assert id[0] != CollationId[0];
  }

  /** A comma-free table name can be read back from every id registered for it. */
  lemma TableNameOfIdOf(id: string, name: string)
    requires ',' !in name && IdOfTable(id, name)
    ensures TableNameOfId(id) == name && id != CollationId
  {
    if id == DropId(name) {
      DropIdName(name);
    } else if id == CreateId(name) {
      CreateIdName(name);
    } else {
      var i: nat :| id == IndexId(name, i);
      IndexIdName(name, i);
    }
  }

  lemma ConcatCancel(a: string, b: string, c: string)
    requires a + b == a + c
    ensures b == c
  {
    assert b == (a + b)[|a|..];
    assert c == (a + c)[|a|..];
  }

  /** The ids of one table's steps belong to it and are pairwise distinct. */
  lemma TableStepIds(t: Table)
    ensures forall p :: 0 <= p < |TableSteps(t)| ==> IdOfTable(TableSteps(t)[p].id, t.name)
    ensures forall p, q :: 0 <= p < q < |TableSteps(t)| ==> TableSteps(t)[p].id != TableSteps(t)[q].id
  {
    var steps := TableSteps(t);
    forall p | 2 <= p < |steps|
      ensures steps[p].id == IndexId(t.name, p - 2)
    {
    }
    forall p, q | 0 <= p < q < |steps|
      ensures steps[p].id != steps[q].id
    {
      if p == 0 {
        assert steps[p].id[0] == 'd' && steps[q].id[0] == 'c';
      } else if p == 1 {
        assert |steps[p].id| < |steps[q].id|;
      } else if steps[p].id == steps[q].id {
        ConcatCancel("create table " + t.name + ", index: ", NatToString(p - 2), NatToString(q - 2));
        NatToStringInjective(p - 2, q - 2);
      }
    }
  }

  /** The names of the tables `ts`. */
  function TableNames(ts: seq<Table>): set<string>
  {
    set k | 0 <= k < |ts| :: ts[k].name
  }

  /** Distinct table names without a comma give every table step its own id. */
  lemma {:induction false} PlanOfIds(ts: seq<Table>)
    requires forall k :: 0 <= k < |ts| ==> ',' !in ts[k].name
    requires forall k, l :: 0 <= k < l < |ts| ==> ts[k].name != ts[l].name
    ensures forall p :: 0 <= p < |PlanOf(ts)| ==>
      TableNameOfId(PlanOf(ts)[p].id) in TableNames(ts) && PlanOf(ts)[p].id != CollationId
    ensures forall p, q :: 0 <= p < q < |PlanOf(ts)| ==> PlanOf(ts)[p].id != PlanOf(ts)[q].id
  {
    if ts != [] {
      var init, t := ts[..|ts| - 1], ts[|ts| - 1];
      PlanOfIds(init);
      TableStepIds(t);
      var a, b := PlanOf(init), TableSteps(t);
      assert PlanOf(ts) == a + b;
      assert t.name !in TableNames(init);
      forall p | 0 <= p < |b|
        ensures TableNameOfId(b[p].id) == t.name && b[p].id != CollationId
      {
        TableNameOfIdOf(b[p].id, t.name);
      }
      assert TableNames(init) <= TableNames(ts);
      assert t.name in TableNames(ts);
    }
  }

  /** Every migration the plan registers has its own id. */
  lemma PlanIdsDistinct(ts: seq<Table>)
    requires forall k :: 0 <= k < |ts| ==> ',' !in ts[k].name
    requires forall k, l :: 0 <= k < l < |ts| ==> ts[k].name != ts[l].name
    ensures forall p, q :: 0 <= p < q < |Plan(ts)| ==> Plan(ts)[p].id != Plan(ts)[q].id
  {
    PlanOfIds(ts);
  }

  lemma EntityPlanIdsDistinct()
    ensures forall p, q :: 0 <= p < q < |Plan(EntityTables())| ==> Plan(EntityTables())[p].id != Plan(EntityTables())[q].id
  {
    EntityTableNamesPlain();
    EntityTableNamesDistinct();
    PlanIdsDistinct(EntityTables());
  }

  // ---------------------------------------------------------------------------
  // The migrator and `initEntityTables`

  /** The migrator, as far as this plan uses it: the registered migrations, in order. */
  class Migrator {
    var migrations: seq<Migration>

    constructor()
      ensures migrations == []
    {
      migrations := [];
    }

    method AddMigration(id: string, op: Operation)
      modifies this
      ensures migrations == old(migrations) + [Migration(id, op)]
    {
      migrations := migrations + [Migration(id, op)];
    }
  }

  lemma PlanOfNext(ts: seq<Table>, k: nat)
    requires k < |ts|
    ensures PlanOf(ts[..k + 1]) == PlanOf(ts[..k]) + TableSteps(ts[k])
  {
    assert ts[..k + 1][..k] == ts[..k];
  }

  /** The inner loop of `initEntityTables`: one index migration per index of `table`. */
  method RegisterIndices(mg: Migrator, table: Table)
    modifies mg
    ensures mg.migrations == old(mg.migrations) + IndexSteps(table)
  {
    var i := 0;
    while i < |table.indices|
      invariant 0 <= i <= |table.indices|
      invariant mg.migrations == old(mg.migrations) + IndexSteps(table)[..i]
    {
      mg.AddMigration(IndexId(table.name, i), AddIndex(table, table.indices[i]));
      assert IndexSteps(table)[..i + 1] == IndexSteps(table)[..i] + [IndexSteps(table)[i]];
      i := i + 1;
    }
    assert IndexSteps(table)[..i] == IndexSteps(table);
  }

  /** One pass of the outer loop of `initEntityTables`: drop, create, then the indices. */
  method RegisterTable(mg: Migrator, table: Table)
    modifies mg
    ensures mg.migrations == old(mg.migrations) + TableSteps(table)
  {
    mg.AddMigration(DropId(table.name), DropTable(table.name));
    mg.AddMigration(CreateId(table.name), AddTable(table));
    RegisterIndices(mg, table);
  }

  /** The registration loop of `initEntityTables`, over the declared `tables`. */
  method RegisterPlan(mg: Migrator, tables: seq<Table>)
    modifies mg
    ensures mg.migrations == old(mg.migrations) + Plan(tables)
  {
    var t := 0;
    while t < |tables|
      invariant 0 <= t <= |tables|
      invariant mg.migrations == old(mg.migrations) + PlanOf(tables[..t])
    {
      RegisterTable(mg, tables[t]);
      PlanOfNext(tables, t);
      t := t + 1;
    }
    assert tables[..t] == tables;
    mg.AddMigration(CollationId, RawSQL);
  }

  /** Declares the seven tables and registers their migrations on `mg`. */
  method InitEntityTables(mg: Migrator)
    modifies mg
    ensures mg.migrations == old(mg.migrations) + Plan(EntityTables())
  {
    var tables: seq<Table> := [];
    tables := tables + [EntityTable()];
    tables := tables + [EntityFolderTable()];
    tables := tables + [EntityLabelsTable()];
    tables := tables + [EntityRefTable()];
    tables := tables + [EntityHistoryTable()];
    tables := tables + [EntityNestedTable()];
    tables := tables + [EntityAccessRuleTable()];
    assert tables == EntityTables();
    RegisterPlan(mg, tables);
  }
}
