/** The schema (or database) node of the relational tree: its group children and their
    cache, the drop and truncate guards, the icon, the tooltip and the active check. */
module Schema {
  import opened Wrappers
  import opened Strings
  import opened NodeCommon
  import Wrapper
  import opened Files

  /** The children a schema node can have. */
  datatype GroupKind =
    | TableGroup | ViewGroup | QueryGroup | ProcedureGroup | FunctionGroup | TriggerGroup
    | MongoTableGroup

  /** The configuration flags that gate the optional groups. */
  datatype GroupFlags = GroupFlags(
    showView: bool,
    showQuery: bool,
    showProcedure: bool,
    showFunction: bool,
    showTrigger: bool)

  /** Position of a relational group in the enumeration order. */
  function GroupRank(k: GroupKind): nat {
    match k
    case TableGroup => 0
    case ViewGroup => 1
    case QueryGroup => 2
    case ProcedureGroup => 3
    case FunctionGroup => 4
    case TriggerGroup => 5
    case MongoTableGroup => 6
  }

  /** Whether the configuration asks for an optional group; the table group is always shown. */
  predicate Shown(f: GroupFlags, k: GroupKind) {
    match k
    case TableGroup => true
    case ViewGroup => f.showView
    case QueryGroup => f.showQuery
    case ProcedureGroup => f.showProcedure
    case FunctionGroup => f.showFunction
    case TriggerGroup => f.showTrigger
    case MongoTableGroup => false
  }

  function FlagCount(f: GroupFlags): nat {
    (if f.showView then 1 else 0) + (if f.showQuery then 1 else 0) +
    (if f.showProcedure then 1 else 0) + (if f.showFunction then 1 else 0) +
    (if f.showTrigger then 1 else 0)
  }

  function Optional(b: bool, k: GroupKind): seq<GroupKind> {
    if b then [k] else []
  }

  /** The relational groups in enumeration order, each with the flag that shows it. */
  function Candidates(f: GroupFlags): seq<(bool, GroupKind)> {
    [(true, TableGroup), (f.showView, ViewGroup), (f.showQuery, QueryGroup),
     (f.showProcedure, ProcedureGroup), (f.showFunction, FunctionGroup),
     (f.showTrigger, TriggerGroup)]
  }

  /** The outcome of a run of conditional pushes: the kinds whose flag is on, in order. */
  function Selected(c: seq<(bool, GroupKind)>): seq<GroupKind> {
    if c == [] then [] else Selected(c[..|c| - 1]) + Optional(c[|c| - 1].0, c[|c| - 1].1)
  }

  function CountOn(c: seq<(bool, GroupKind)>): nat {
    if c == [] then 0 else CountOn(c[..|c| - 1]) + (if c[|c| - 1].0 then 1 else 0)
  }

  /** The groups a relational schema node enumerates for a configuration. */
  function SchemaGroups(f: GroupFlags): seq<GroupKind> {
    Selected(Candidates(f))
  }

  /** Every group of `s` ranks below `n`. */
  predicate RanksBelow(s: seq<GroupKind>, n: nat) {
    forall i :: 0 <= i < |s| ==> GroupRank(s[i]) < n
  }

  predicate Ascending(s: seq<GroupKind>) {
    forall i, j :: 0 <= i < j < |s| ==> GroupRank(s[i]) < GroupRank(s[j])
  }

  /** One conditional push keeps the list ascending when the pushed group ranks
      above everything before it. */
  lemma {:induction false} PushOptional(s: seq<GroupKind>, b: bool, k: GroupKind)
    requires Ascending(s) && RanksBelow(s, GroupRank(k))
    ensures Ascending(s + Optional(b, k))
    ensures |s + Optional(b, k)| == |s| + (if b then 1 else 0)
    ensures forall x :: x in s + Optional(b, k) <==> x in s || (b && x == k)
  {
    var t := s + Optional(b, k);
    if b {
      assert t[|s|] == k;
      forall i, j | 0 <= i < j < |t| ensures GroupRank(t[i]) < GroupRank(t[j]) {
        if j == |s| { assert t[i] == s[i]; } else { assert t[i] == s[i] && t[j] == s[j]; }
      }
    } else {
      assert t == s;
    }
  }

  /** One entry per candidate whose flag is on. */
  lemma {:induction false} SelectedCount(c: seq<(bool, GroupKind)>)
    ensures |Selected(c)| == CountOn(c)
  {
    if c != [] {
      SelectedCount(c[..|c| - 1]);
    }
  }

  /** Exactly the candidates whose flag is on are listed. */
  lemma {:induction false} SelectedMembers(c: seq<(bool, GroupKind)>)
    ensures forall x :: x in Selected(c) <==> exists i :: 0 <= i < |c| && c[i] == (true, x)
  {
    if c != [] {
      var n := |c| - 1;
      var front := c[..n];
      SelectedMembers(front);
      assert forall i :: 0 <= i < n ==> front[i] == c[i];
      forall x ensures x in Selected(c) <==> exists i :: 0 <= i < |c| && c[i] == (true, x) {
        if x in Selected(c) && !(x in Selected(front)) {
          assert c[n] == (true, x);
        }
      }
    }
  }

  /** Candidates in ascending rank order are listed in ascending rank order. */
  lemma {:induction false} SelectedAscending(c: seq<(bool, GroupKind)>)
    requires forall i, j :: 0 <= i < j < |c| ==> GroupRank(c[i].1) < GroupRank(c[j].1)
    ensures Ascending(Selected(c))
  {
    if c != [] {
      var n := |c| - 1;
      var front := c[..n];
      assert forall i :: 0 <= i < n ==> front[i] == c[i];
      SelectedAscending(front);
      SelectedMembers(front);
      var sf := Selected(front);
      forall i | 0 <= i < |sf| ensures GroupRank(sf[i]) < GroupRank(c[n].1) {
        assert sf[i] in sf;
        var j :| 0 <= j < n && front[j] == (true, sf[i]);
      }
      PushOptional(sf, c[n].0, c[n].1);
    }
  }

  /** Conditional pushes over candidates in ascending order give an ascending list
      holding exactly the candidates whose flag is on, one per such flag. */
  lemma {:induction false} SelectedShape(c: seq<(bool, GroupKind)>)
    requires forall i, j :: 0 <= i < j < |c| ==> GroupRank(c[i].1) < GroupRank(c[j].1)
    ensures |Selected(c)| == CountOn(c)
    ensures forall x :: x in Selected(c) <==> exists i :: 0 <= i < |c| && c[i] == (true, x)
    ensures Ascending(Selected(c))
  {
    SelectedCount(c);
    SelectedMembers(c);
    SelectedAscending(c);
  }

  /** One more conditional push extends the outcome by that push. */
  lemma {:induction false} SelectedPush(c: seq<(bool, GroupKind)>, p: (bool, GroupKind))
    ensures Selected(c + [p]) == Selected(c) + Optional(p.0, p.1)
    ensures CountOn(c + [p]) == CountOn(c) + (if p.0 then 1 else 0)
  {
    assert (c + [p])[..|c|] == c;
  }

  /** The schema groups as the five conditional pushes after the table group. */
  lemma {:induction false} SchemaGroupsUnfold(f: GroupFlags)
    ensures SchemaGroups(f) ==
      [TableGroup] + Optional(f.showView, ViewGroup) + Optional(f.showQuery, QueryGroup) +
      Optional(f.showProcedure, ProcedureGroup) + Optional(f.showFunction, FunctionGroup) +
      Optional(f.showTrigger, TriggerGroup)
    ensures CountOn(Candidates(f)) == 1 + FlagCount(f)
  {
    var c := Candidates(f);
    var c0: seq<(bool, GroupKind)> := [];
    var c1 := c0 + [c[0]];
    var c2 := c1 + [c[1]];
    var c3 := c2 + [c[2]];
    var c4 := c3 + [c[3]];
    var c5 := c4 + [c[4]];
    assert c == c5 + [c[5]];
    SelectedPush(c0, c[0]);
    assert Selected(c1) == [TableGroup];
    SelectedPush(c1, c[1]);
    SelectedPush(c2, c[2]);
    SelectedPush(c3, c[3]);
    SelectedPush(c4, c[4]);
    SelectedPush(c5, c[5]);
  }

  /** A group is listed exactly when the configuration shows it. */
  lemma {:induction false} SchemaGroupsMembers(f: GroupFlags, k: GroupKind)
    ensures k in SchemaGroups(f) <==> Shown(f, k)
  {
    SchemaGroupsUnfold(f);
  }

  /** The candidates are listed in rank order. */
  lemma {:induction false} CandidatesAscending(f: GroupFlags)
    ensures forall i, j :: 0 <= i < j < |Candidates(f)| ==>
      GroupRank(Candidates(f)[i].1) < GroupRank(Candidates(f)[j].1)
  {
    var c := Candidates(f);
    assert forall i :: 0 <= i < |c| ==> GroupRank(c[i].1) == i;
  }

  /** The table group comes first, a group is present exactly when its flag is on,
      the groups appear in the fixed order without repetition, and there is one
      group per flag that is on plus the table group. */
  lemma {:induction false} SchemaGroupsShape(f: GroupFlags)
    ensures |SchemaGroups(f)| == 1 + FlagCount(f)
    ensures SchemaGroups(f)[0] == TableGroup
    ensures forall k :: k in SchemaGroups(f) <==> Shown(f, k)
    ensures Ascending(SchemaGroups(f))
  {
    CandidatesAscending(f);
    SelectedShape(Candidates(f));
    SchemaGroupsUnfold(f);
    forall k ensures k in SchemaGroups(f) <==> Shown(f, k) {
      SchemaGroupsMembers(f, k);
    }
  }


  /** With views off and procedures on (the other flags off), exactly the table and
      procedure groups are listed, in that order. */
  lemma {:induction false} TablesAndProceduresScenario(f: GroupFlags)
    requires f == GroupFlags(false, false, true, false, false)
    ensures SchemaGroups(f) == [TableGroup, ProcedureGroup]
  {
    SchemaGroupsUnfold(f);
  }

  /** The kinds of a list of group nodes. */
  function Kinds(gs: seq<GroupNode>): (r: seq<GroupKind>)
    ensures |r| == |gs|
    ensures forall i :: 0 <= i < |gs| ==> r[i] == gs[i].kind
  {
    seq(|gs|, i requires 0 <= i < |gs| => gs[i].kind)
  }

  /** The MongoDB and ClickHouse strategies, which bypass the cache. */
  function FixedGroups(t: DatabaseType): seq<GroupKind>
    requires t == MongoDB || t == ClickHouse
  {
    if t == MongoDB then [MongoTableGroup] else [TableGroup, ViewGroup, FunctionGroup]
  }

  /** The cache is served when it holds at least one child and no refresh is asked for. */
  predicate CacheHit(cache: Option<seq<GroupNode>>, isRefresh: bool) {
    cache.Some? && |cache.value| > 0 && !isRefresh
  }

  /** The relation `getChildren` establishes between the cache before, the cache
      after and the children it returns. */
  ghost predicate Served(t: DatabaseType, f: GroupFlags, isRefresh: bool,
                         before: Option<seq<GroupNode>>, after: Option<seq<GroupNode>>,
                         served: seq<GroupNode>)
  {
    if t == MongoDB || t == ClickHouse then
      Kinds(served) == FixedGroups(t) && after == before
    else if CacheHit(before, isRefresh) then
      served == before.value && after == before
    else
      Kinds(served) == SchemaGroups(f) && after == Some(served)
  }

  /** A group node under a schema; what matters here is its own child cache. */
  class GroupNode {
    const kind: GroupKind
    var childCache: Option<seq<string>>

    constructor (kind: GroupKind)
      ensures this.kind == kind && childCache == None
    {
      this.kind := kind;
      childCache := None;
    }
  }

  /** The node a schema node hangs under (a connection or database node). */
  class ParentNode {
    var childCache: Option<seq<string>>

    constructor (cache: Option<seq<string>>)
      ensures childCache == cache
    {
      childCache := cache;
    }

    /** `clearCache()`: the next expansion recomputes the children. */
    method ClearCache()
      modifies this
      ensures childCache == None
    {
      childCache := None;
    }
  }

  /** MySQL's charset and collation of a schema. */
  datatype SchemaMeta = SchemaMeta(charset: string, collation: string)

  /** The node ConnectionManager reports as active. */
  datatype ActiveNode = ActiveNode(database: string, schema: string)

  datatype ThemeIcon = ThemeIcon(id: string, color: Option<string>)

  /** The icon id: a database symbol for MySQL and ClickHouse, a struct otherwise. */
  function SchemaIconId(t: DatabaseType): (id: string)
    ensures id == "database" <==> t == MySQL || t == ClickHouse
    ensures id == "database" || id == "symbol-struct"
  {
    if t == MySQL || t == ClickHouse then "database" else "symbol-struct"
  }

  /** `getIcon(active)`: coloured only when colour icons are supported (an outside setting). */
  function SchemaIcon(t: DatabaseType, active: bool, supportColor: bool): (r: ThemeIcon)
    ensures r.id == SchemaIconId(t)
    ensures r.color.Some? <==> supportColor
    ensures supportColor ==> r.color.value == (if active then "charts.blue" else "dropdown.foreground")
  {
    if supportColor then
      ThemeIcon(SchemaIconId(t), Some(if active then "charts.blue" else "dropdown.foreground"))
    else ThemeIcon(SchemaIconId(t), None)
  }

  /** `checkActive`: the schema is active when the active node passes `isActive`
      (an outside check, given as `isActive`) and names the same database and schema. */
  function IsActiveSchema(isActive: bool, lcp: Option<ActiveNode>, database: string, schema: string): (r: bool)
    ensures r <==> isActive && lcp == Some(ActiveNode(database, schema))
  {
    isActive && lcp.Some? && lcp.value.database == database && lcp.value.schema == schema
  }

  /** `bindTooTip`: MySQL schemas with metadata show their charset and collation. */
  function SchemaTooltip(t: DatabaseType, meta: Option<SchemaMeta>): (r: Option<string>)
    ensures r.Some? <==> t == MySQL && meta.Some?
    ensures r.Some? ==> r.value == "Charset: " + meta.value.charset + "\nCollation: " + meta.value.collation
  {
    if t == MySQL && meta.Some? then
      Some("Charset: " + meta.value.charset + "\nCollation: " + meta.value.collation)
    else None
  }

  // ---------------------------------------------------------------------------
  // drop and truncate

  /** The typed confirmation: a non-empty input equal to the name up to ASCII case. */
  predicate Confirmed(input: Option<string>, name: string) {
    input.Some? && input.value != "" && AsciiLower(input.value) == AsciiLower(name)
  }

  /** A confirmation is a character-by-character match ignoring ASCII case, so it has
      the name's length; the name itself (in any case) confirms unless it is empty. */
  lemma {:induction false} ConfirmedMeansSameLetters(x: string, name: string)
    ensures Confirmed(Some(x), name) <==>
      x != "" && |x| == |name| && forall i :: 0 <= i < |x| ==> LowerChar(x[i]) == LowerChar(name[i])
    ensures Confirmed(Some(name), name) <==> name != ""
    ensures Confirmed(Some(AsciiLower(name)), name) <==> name != ""
  {
    var lx, ln := AsciiLower(x), AsciiLower(name);
    if x != "" && |x| == |name| && forall i :: 0 <= i < |x| ==> LowerChar(x[i]) == LowerChar(name[i]) {
      assert lx == ln;
    }
    var lln := AsciiLower(ln);
    assert lln == ln;
  }

  /** "Orders" confirms the target "orders"; "Order" does not, nor does an empty or
      cancelled input. */
  lemma {:induction false} ConfirmationExamples()
    ensures Confirmed(Some("Orders"), "orders")
    ensures !Confirmed(Some("Order"), "orders")
    ensures !Confirmed(Some(""), "orders") && !Confirmed(None, "orders")
  {
    assert AsciiLower("Orders") == "orders";
    assert |AsciiLower("Order")| == 5;
  }

  /** `schema` for SqlServer and PostgreSQL, `database` otherwise. */
  function DropTarget(t: DatabaseType): (r: string)
    ensures r == "schema" <==> t == SqlServer || t == PostgreSQL
    ensures r == "schema" || r == "database"
  {
    if t == SqlServer || t == PostgreSQL then "schema" else "database"
  }

  /** `DROP <target> <wrap(schema)>`, quoting the name with the node's dialect. */
  function DropCommand(t: DatabaseType, schema: string): string {
    "DROP " + DropTarget(t) + " " + Wrapper.WrapByDb(Some(schema), t).value
  }

  /** One row of the dialect's truncate query: the statement in its `trun` column. */
  datatype TruncateRow = TruncateRow(trun: string)

  datatype TruncateOutcome = Truncated(batch: seq<string>) | Cancelled(message: string)

  /** `truncateDb`: on confirmation the statements the dialect's query produced are run
      as one batch, in order; otherwise a cancel message is shown and nothing runs. */
  function TruncateDb(input: Option<string>, schema: string, rows: seq<TruncateRow>): (r: TruncateOutcome)
    ensures r.Truncated? <==> Confirmed(input, schema)
    ensures r.Truncated? ==> |r.batch| == |rows| && forall i :: 0 <= i < |rows| ==> r.batch[i] == rows[i].trun
    ensures r.Cancelled? ==> r.message == "Cancel truncate database " + schema + "!"
  {
    if Confirmed(input, schema) then
      Truncated(seq(|rows|, i requires 0 <= i < |rows| => rows[i].trun))
    else Cancelled("Cancel truncate database " + schema + "!")
  }

  // ---------------------------------------------------------------------------
  // the node

  /** `if (flag) childs.push(new <Kind>GroupNode(this))`. */
  method PushGroup(childs: seq<GroupNode>, show: bool, kind: GroupKind) returns (r: seq<GroupNode>)
    ensures Kinds(r) == Kinds(childs) + Optional(show, kind)
    ensures |r| >= |childs| && forall i :: 0 <= i < |childs| ==> r[i] == childs[i]
    ensures forall i :: |childs| <= i < |r| ==> fresh(r[i]) && r[i].childCache == None
  {
    r := childs;
    if show {
      var g := new GroupNode(kind);
      r := childs + [g];
      assert Kinds(r) == Kinds(childs) + [kind];
    }
  }

  /** `child.setChildCache(null)` for every child, in order; no other node changes. */
  method ClearCaches(children: seq<GroupNode>)
    modifies set g | g in children
    ensures forall i :: 0 <= i < |children| ==> children[i].childCache == None
  {
    for i := 0 to |children|
      invariant forall j :: 0 <= j < i ==> children[j].childCache == None
    {
      children[i].childCache := None;
    }
  }

  /** The relational strategy's list: a table group, then one group per enabled flag. */
  method NewSchemaGroups(flags: GroupFlags) returns (childs: seq<GroupNode>)
    ensures Kinds(childs) == SchemaGroups(flags)
    ensures forall i :: 0 <= i < |childs| ==> fresh(childs[i]) && childs[i].childCache == None
  {
    var table := new GroupNode(TableGroup);
    childs := [table];
    ghost var kinds := [TableGroup];
    assert Kinds(childs) == kinds;
    childs := PushGroup(childs, flags.showView, ViewGroup);
    kinds := kinds + Optional(flags.showView, ViewGroup);
    childs := PushGroup(childs, flags.showQuery, QueryGroup);
    kinds := kinds + Optional(flags.showQuery, QueryGroup);
    childs := PushGroup(childs, flags.showProcedure, ProcedureGroup);
    kinds := kinds + Optional(flags.showProcedure, ProcedureGroup);
    childs := PushGroup(childs, flags.showFunction, FunctionGroup);
    kinds := kinds + Optional(flags.showFunction, FunctionGroup);
    childs := PushGroup(childs, flags.showTrigger, TriggerGroup);
    kinds := kinds + Optional(flags.showTrigger, TriggerGroup);
    assert Kinds(childs) == kinds;
    SchemaGroupsUnfold(flags);
  }

  class SchemaNode {
    const schema: string
    const database: string
    const dbType: DatabaseType
    const meta: Option<SchemaMeta>
    const parent: ParentNode
    var childCache: Option<seq<GroupNode>>
    var iconPath: ThemeIcon
    var tooltip: Option<string>

    /** The groups currently held in the cache. */
    function CachedGroups(): set<GroupNode>
      reads this
    {
      if childCache.Some? then set g | g in childCache.value else {}
    }

    /** The constructor: `database` and `dbType` come from the parent (`init`),
        `lcp`/`isActive` from ConnectionManager, `supportColor` from the settings. */
    constructor (schema: string, meta: Option<SchemaMeta>, parent: ParentNode,
                 dbType: DatabaseType, database: string,
                 lcp: Option<ActiveNode>, isActive: bool, supportColor: bool)
      ensures this.schema == schema && this.meta == meta && this.parent == parent
      ensures this.dbType == dbType && this.database == database
      ensures childCache == None
      ensures tooltip == SchemaTooltip(dbType, meta)
      ensures iconPath == SchemaIcon(dbType, IsActiveSchema(isActive, lcp, database, schema), supportColor)
    {
      this.schema := schema;
      this.meta := meta;
      this.parent := parent;
      this.dbType := dbType;
      this.database := database;
      childCache := None;
      iconPath := SchemaIcon(dbType, false, supportColor);
      tooltip := None;
      new;
      BindToolTip();
      CheckActive(lcp, isActive, supportColor);
    }

    method BindToolTip()
      modifies this`tooltip
      ensures tooltip == if dbType == MySQL && meta.Some? then SchemaTooltip(dbType, meta) else old(tooltip)
    {
      if dbType == MySQL && meta.Some? {
        tooltip := Some("Charset: " + meta.value.charset + "\nCollation: " + meta.value.collation);
      }
    }

    method CheckActive(lcp: Option<ActiveNode>, isActive: bool, supportColor: bool)
      modifies this`iconPath
      ensures iconPath == SchemaIcon(dbType, IsActiveSchema(isActive, lcp, database, schema), supportColor)
    {
      var active := isActive && lcp.Some? && lcp.value.database == database && lcp.value.schema == schema;
      iconPath := SchemaIcon(dbType, active, supportColor);
    }

    /** `getChildren(isRresh)`, its cache and its configuration flags. */
    method GetChildren(flags: GroupFlags, isRefresh: bool := false) returns (childs: seq<GroupNode>)
      modifies this`childCache
      ensures Served(dbType, flags, isRefresh, old(childCache), childCache, childs)
      ensures forall i :: 0 <= i < |childs| ==>
        (fresh(childs[i]) && childs[i].childCache == None) ||
        (old(childCache).Some? && childs[i] in old(childCache).value)
      ensures (dbType == MongoDB || dbType == ClickHouse || !CacheHit(old(childCache), isRefresh)) ==>
        forall i :: 0 <= i < |childs| ==> fresh(childs[i]) && childs[i].childCache == None
    {
      if dbType == MongoDB {
        var g := new GroupNode(MongoTableGroup);
        return [g];
      } else if dbType == ClickHouse {
        var t := new GroupNode(TableGroup);
        var v := new GroupNode(ViewGroup);
        var f := new GroupNode(FunctionGroup);
        return [t, v, f];
      }
      if childCache.Some? && |childCache.value| > 0 && !isRefresh {
        return childCache.value;
      }
      childs := NewSchemaGroups(flags);
      childCache := Some(childs);
    }

    /** `dropDatatabase`: the confirmation dialog's result is `input`, whether the
        DROP statement succeeded is `executed`. On success the children (as
        `getChildren()` serves them) lose their caches and the parent's cache is cleared. */
    method DropDatabase(input: Option<string>, flags: GroupFlags, executed: bool)
      returns (command: Option<string>, cleared: seq<GroupNode>)
      modifies this`childCache, parent, CachedGroups()
      ensures command == if Confirmed(input, schema) then Some(DropCommand(dbType, schema)) else None
      ensures command.None? || !executed ==>
        cleared == [] && childCache == old(childCache) && parent.childCache == old(parent.childCache) &&
        forall g :: g in old(CachedGroups()) ==> g.childCache == old(g.childCache)
      ensures command.Some? && executed ==>
        Served(dbType, flags, false, old(childCache), childCache, cleared) &&
        parent.childCache == None &&
        (forall i :: 0 <= i < |cleared| ==> cleared[i].childCache == None) &&
        (forall g :: g in old(CachedGroups()) && g !in cleared ==> g.childCache == old(g.childCache))
    {
      cleared := [];
      command := None;
      var target := if dbType == SqlServer || dbType == PostgreSQL then "schema" else "database";
      if input.Some? && input.value != "" && AsciiLower(input.value) == AsciiLower(schema) {
        command := Some("DROP " + target + " " + Wrapper.WrapByDb(Some(schema), dbType).value);
        if executed {
          cleared := GetChildren(flags);
          ClearCaches(cleared);
          parent.ClearCache();
        }
      }
    }

    /** `newQuery`: an empty document named after the schema, opened through
        `showSQLTextDocument` in write mode; `uidFor` is the node's `getUid`. */
    method NewQuery(fm: FileManager, uidFor: bool -> string) returns (r: Result<string>)
      modifies fm`files, fm`dirs
      ensures var o := fm.RecordOutcome(old(fm.files), old(fm.dirs),
                                        fm.SqlDocumentName(dbType, uidFor, Some(schema + ".sql")), "", Some(Write));
        r == o.result && fm.files == o.files && fm.dirs == o.dirs
    {
      r := fm.ShowSqlTextDocument(dbType, uidFor, "", Some(schema + ".sql"), None);
    }
  }
}
