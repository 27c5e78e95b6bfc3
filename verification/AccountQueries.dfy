/** The query builders of accounts and of their join rows. Running one loads its requested
    edges by running the sub-builders, which may again be account queries. */
module AccountQueries {
  import opened Wrappers
  import opened Schema
  import opened Relational
  import opened Columns
  import opened Statements
  import opened Entities
  import opened Mirrors
  import opened Drivers
  import opened LeafQueries
  import opened Agreement
  import opened EagerLoading
  import opened AccountLoading

  // ----- optional sub-builders -----

  ghost function Parts(q: AccountQuery?): set<object> {
    if q == null then {} else q.Repr
  }

  ghost function JoinParts(q: AccountGroupQuery?): set<object> {
    if q == null then {} else q.Repr
  }

  ghost function Vertices(q: AccountQuery?): nat {
    if q == null then 0 else q.vertices
  }

  ghost function JoinVertices(q: AccountGroupQuery?): nat {
    if q == null then 0 else q.vertices
  }

  ghost function TreeOf(q: AccountQuery?): Option<AccountTree> {
    if q == null then None else Some(q.tree)
  }

  ghost function JoinTreeOf(q: AccountGroupQuery?): Option<JoinTree> {
    if q == null then None else Some(q.tree)
  }

  /** The statements of the last three edges of these nodes. */
  ghost function LastStatements(children: AccountQuery?, usageLogs: UsageLogQuery?, accountGroups: AccountGroupQuery?,
                                nodes: seq<Account>, db: Tables): nat
  {
    ChildStatements(TreeOf(children), Origins(nodes), db) + OneIf(usageLogs != null)
    + LinkStatements(JoinTreeOf(accountGroups), Origins(nodes), db)
  }

  ghost function LaterStatements(parent: AccountQuery?, children: AccountQuery?, usageLogs: UsageLogQuery?,
                                 accountGroups: AccountGroupQuery?, nodes: seq<Account>, db: Tables): nat
  {
    ParentStatements(TreeOf(parent), Origins(nodes), db) + LastStatements(children, usageLogs, accountGroups, nodes, db)
  }

  /** The id comes first, and only there. */
  ghost predicate IdFirst(columns: seq<Column>) {
    |columns| > 0 && columns[0] == Id && forall i | 0 < i < |columns| :: columns[i] != Id
  }

  /** Neither these builders nor their sub-builders have been restricted to a parent's nodes yet. */
  ghost predicate Ready(q: AccountQuery?)
    reads Parts(q)
  {
    q == null || (q.Shape() && q.Pristine())
  }

  ghost predicate JoinReady(q: AccountGroupQuery?)
    reads JoinParts(q)
  {
    q == null || (q.Shape() && q.Pristine())
  }

  // ----- how many builders a query has -----

  /** They are the vertices of the With* tree. */
  lemma {:induction false} VerticesAreTreeSize(q: AccountQuery?)
    requires q != null ==> q.Shape()
    ensures Vertices(q) == AccountTreeSize(TreeOf(q))
    decreases Vertices(q)
  {
    hide Apart, LeafParts, LogParts, Parts, JoinParts;
    if q != null {
      VerticesAreTreeSize(q.withParent);
      VerticesAreTreeSize(q.withChildren);
      JoinVerticesAreTreeSize(q.withAccountGroups);
    }
  }

  lemma {:induction false} JoinVerticesAreTreeSize(q: AccountGroupQuery?)
    requires q != null ==> q.Shape()
    ensures JoinVertices(q) == JoinTreeSize(JoinTreeOf(q))
    decreases JoinVertices(q)
  {
    if q != null {
      VerticesAreTreeSize(q.withAccount);
    }
  }

  class AccountQuery {
    ghost const tree: AccountTree   // the configuration of this builder and its sub-builders
    var predicates: seq<AccountPred>
    var fields: seq<Column>
    // the sub-builders installed by the With* calls; each call installs a fresh one
    const withGroups: LeafQuery?
    const withProxy: LeafQuery?
    const withOwner: LeafQuery?
    const withParent: AccountQuery?
    const withChildren: AccountQuery?
    const withUsageLogs: UsageLogQuery?
    const withAccountGroups: AccountGroupQuery?

    ghost const Repr: set<object>   // this builder and all sub-builders
    ghost const vertices: nat       // how many builders that is

    constructor (predicates: seq<AccountPred>, fields: seq<Column>, groups: LeafQuery?, proxy: LeafQuery?,
                 owner: LeafQuery?, parent: AccountQuery?, children: AccountQuery?, usageLogs: UsageLogQuery?,
                 accountGroups: AccountGroupQuery?)
      requires LeafReady(groups, Groups) && LeafReady(proxy, Proxies) && LeafReady(owner, Users) && LogReady(usageLogs)
      requires Ready(parent)
      requires Ready(children)
      requires JoinReady(accountGroups)
      requires Apart(LeafParts(groups) + LeafParts(proxy) + LeafParts(owner) + LogParts(usageLogs),
                     Parts(parent), Parts(children), JoinParts(accountGroups))
      ensures Shape() && Pristine()
      ensures tree == AccountTree(predicates, fields,
                                  AccountEdges(LeafTreeOf(groups), LeafTreeOf(proxy), LeafTreeOf(owner), TreeOf(parent),
                                               TreeOf(children), LogTreeOf(usageLogs), JoinTreeOf(accountGroups)))
    {
      hide Apart, OneIf, Vertices, JoinVertices, TreeOf, JoinTreeOf, LeafTreeOf, LogTreeOf, LeafReady, LogReady;
      this.predicates, this.fields := predicates, fields;
      withGroups, withProxy, withOwner, withParent := groups, proxy, owner, parent;
      withChildren, withUsageLogs, withAccountGroups := children, usageLogs, accountGroups;
      tree := AccountTree(predicates, fields,
                          AccountEdges(LeafTreeOf(groups), LeafTreeOf(proxy), LeafTreeOf(owner), TreeOf(parent),
                                       TreeOf(children), LogTreeOf(usageLogs), JoinTreeOf(accountGroups)));
      Repr := {this} + LeafParts(groups) + LeafParts(proxy) + LeafParts(owner) + LogParts(usageLogs)
              + Parts(parent) + Parts(children) + JoinParts(accountGroups);
      vertices := 1 + OneIf(groups != null) + OneIf(proxy != null) + OneIf(owner != null) + OneIf(usageLogs != null)
                  + Vertices(parent) + Vertices(children) + JoinVertices(accountGroups);
      new;
      Assembled();
    }

    /** A builder is well shaped once its sub-builders are and share nothing. */
    lemma {:induction false} Assembled()
      requires withParent != null ==> withParent.Shape()
      requires withChildren != null ==> withChildren.Shape()
      requires withAccountGroups != null ==> withAccountGroups.Shape()
      requires this !in LeafParts(withGroups) + LeafParts(withProxy) + LeafParts(withOwner) + LogParts(withUsageLogs)
      requires this !in Parts(withParent) + Parts(withChildren) + JoinParts(withAccountGroups)
      requires Repr == {this} + LeafParts(withGroups) + LeafParts(withProxy) + LeafParts(withOwner) + LogParts(withUsageLogs)
                       + Parts(withParent) + Parts(withChildren) + JoinParts(withAccountGroups)
      requires Apart(LeafParts(withGroups) + LeafParts(withProxy) + LeafParts(withOwner) + LogParts(withUsageLogs),
                     Parts(withParent), Parts(withChildren), JoinParts(withAccountGroups))
      requires vertices == 1 + OneIf(withGroups != null) + OneIf(withProxy != null) + OneIf(withOwner != null)
                           + OneIf(withUsageLogs != null)
                           + Vertices(withParent) + Vertices(withChildren) + JoinVertices(withAccountGroups)
      requires tree.edges == AccountEdges(LeafTreeOf(withGroups), LeafTreeOf(withProxy), LeafTreeOf(withOwner), TreeOf(withParent),
                                          TreeOf(withChildren), LogTreeOf(withUsageLogs), JoinTreeOf(withAccountGroups))
      ensures Shape()
    {
      hide LeafParts, LogParts, Parts, JoinParts, Apart, OneIf, Vertices, JoinVertices, TreeOf, JoinTreeOf;
      hide LeafTreeOf, LogTreeOf;
    }

    /** The builders reachable from this one form a tree, the one it was configured with. */
    ghost predicate Shape()
      decreases vertices
    {
      && this in Repr
      && LeafParts(withGroups) + LeafParts(withProxy) + LeafParts(withOwner) + LogParts(withUsageLogs) <= Repr - {this}
      && Parts(withParent) + Parts(withChildren) + JoinParts(withAccountGroups) <= Repr - {this}
      && Apart(LeafParts(withGroups) + LeafParts(withProxy) + LeafParts(withOwner) + LogParts(withUsageLogs),
               Parts(withParent), Parts(withChildren), JoinParts(withAccountGroups))
      && vertices == 1 + OneIf(withGroups != null) + OneIf(withProxy != null) + OneIf(withOwner != null)
                     + OneIf(withUsageLogs != null)
                     + Vertices(withParent) + Vertices(withChildren) + JoinVertices(withAccountGroups)
      && tree.edges == AccountEdges(LeafTreeOf(withGroups), LeafTreeOf(withProxy), LeafTreeOf(withOwner), TreeOf(withParent),
                                    TreeOf(withChildren), LogTreeOf(withUsageLogs), JoinTreeOf(withAccountGroups))
      && (withParent != null ==> withParent.Shape())
      && (withChildren != null ==> withChildren.Shape())
      && (withAccountGroups != null ==> withAccountGroups.Shape())
    }

    /** As it was configured, and so are its sub-builders. */
    ghost predicate Pristine()
      requires Shape()
      reads Repr
      decreases vertices, 1
    {
      predicates == tree.preds && fields == tree.fields && SubsReady()
    }

    ghost predicate SubsReady()
      requires Shape()
      reads Repr - {this}
      decreases vertices, 0
    {
      && LeafReady(withGroups, Groups) && LeafReady(withProxy, Proxies) && LeafReady(withOwner, Users) && LogReady(withUsageLogs)
      && (withParent != null ==> withParent.Pristine())
      && (withChildren != null ==> withChildren.Pristine())
      && (withAccountGroups != null ==> withAccountGroups.Pristine())
    }

    method Where(p: AccountPred)
      modifies this`predicates
      ensures predicates == old(predicates) + [p]
    {
      predicates := predicates + [p];
    }

    /** What the O2M loaders ask of a child query: the foreign key, if fields are selected at all. */
    method SelectForeignKey(fk: Column)
      modifies this`fields
      ensures fields == WithForeignKey(old(fields), fk)
    {
      if |fields| > 0 {
        fields := AppendOnce(fields, fk);
      }
    }

    /** The rows this query asks for, scanned into fresh nodes; no edge is loaded yet. */
    method Scan(db: Driver) returns (r: Result<seq<Account>, LoadError>, ghost rows: seq<AccountRow>)
      requires Shape() && WellFormed(db.tables) && db !in Repr
      modifies db
      ensures db.queries <= old(db.queries) + 1
      ensures r.Err? ==> Excused(r.error, old(db.failures), db.failures, BadAccountFields(fields, tree.edges))
      ensures r.Err? && r.error.InvalidField? ==>
        BadField(r.error.column, fields, ACCOUNT_COLUMNS) && db.queries == old(db.queries)
      ensures r.Ok? ==> ValidFields(fields, ACCOUNT_COLUMNS)
      ensures r.Ok? ==> db.failures == old(db.failures) && db.queries == old(db.queries) + 1
      ensures r.Ok? ==>
        && Enumerates(rows, MatchingAccounts(predicates, db.tables))
        && Scanned(r.value, rows, tree.edges, fields, db.tables) && fresh(NodeSet(r.value))
        && forall n | n in r.value :: Unloaded(n) && n !in Repr
    {
      rows := [];
      var bad := InvalidColumn(fields, ACCOUNT_COLUMNS);
      if bad.Some? {
        return Err(InvalidField(bad.value)), rows;
      }
      var columns := QuerySpec();
      var ok, found := db.QueryAccounts(predicates);
      if !ok {
        return Err(DriverFailure), rows;
      }
      rows := found;
      forall x | x in found ensures WellTyped(x) {
        assert x in db.tables.accounts;
      }
      var nodes := NewNodes(columns, found, RequestedEdges(), tree.edges, fields, db.tables);
      r := Ok(nodes);
    }

    function RequestedEdges(): Loaded {
      Loaded(withGroups != null, withProxy != null, withOwner != null, withParent != null, withChildren != null,
             withUsageLogs != null, withAccountGroups != null)
    }

    /** The columns to select: all of them, or the id first, the fields, and each foreign key
        that a requested edge needs. */
    method QuerySpec() returns (columns: seq<Column>)
      ensures Cols(columns) == AccountColumnsOf(fields, RequestedEdges())
      ensures fields == [] ==> forall c :: c in columns <==> TableType(c) != NoColumn
      ensures fields != [] ==> forall c :: c in columns <==>
        || c in fields || c == Id || (c == ProxyID && withProxy != null) || (c == OwnerUserID && withOwner != null)
        || (c == ParentAccountID && withParent != null)
      ensures fields != [] ==> IdFirst(columns)
    {
      hide Cols, IdFirst, AppendOnce;
      if |fields| == 0 {
        columns := ACCOUNT_COLUMNS;
        Selection(columns);
        return;
      }
      columns := [Id];
      ColsNothing();
      ColsAppend([], Id);
      assert [] + [Id] == columns && fields[..0] == [];
      IdAlone();
      for i := 0 to |fields|
        invariant IdFirst(columns)
        invariant Cols(columns) == Cols(fields[..i]) + {Id}
      {
        assert fields[..i + 1] == fields[..i] + [fields[i]];
        ColsAppend(fields[..i], fields[i]);
        if fields[i] != Id {
          ColsAppend(columns, fields[i]);
          IdStaysFirst(columns, fields[i]);
          columns := columns + [fields[i]];
        }
      }
      assert fields[..|fields|] == fields;
      columns := AddWanted(columns, withProxy != null, ProxyID);
      columns := AddWanted(columns, withOwner != null, OwnerUserID);
      columns := AddWanted(columns, withParent != null, ParentAccountID);
      Selection(columns);
    }

    lemma {:induction false} Selection(columns: seq<Column>)
      requires Cols(columns) == AccountColumnsOf(fields, RequestedEdges())
      ensures fields == [] ==> forall c :: c in columns <==> TableType(c) != NoColumn
      ensures fields != [] ==> forall c :: c in columns <==>
        || c in fields || c == Id || (c == ProxyID && withProxy != null) || (c == OwnerUserID && withOwner != null)
        || (c == ParentAccountID && withParent != null)
    {
      hide AccountColumnsOf, TableType;
      forall c ensures c in columns <==> c in Cols(columns) {
      }
      forall c {
        AccountSelection(fields, RequestedEdges(), c);
      }
    }

    /** A foreign key, if the edge it belongs to is requested. */
    static method AddWanted(columns: seq<Column>, wanted: bool, fk: Column) returns (r: seq<Column>)
      requires fk != Id
      ensures Cols(r) == Cols(columns) + (if wanted then {fk} else {})
      ensures IdFirst(columns) ==> IdFirst(r)
    {
      hide Cols, IdFirst, AppendOnce;
      if !wanted {
        return columns;
      }
      ColsAppend(columns, fk);
      if IdFirst(columns) {
        IdStaysFirst(columns, fk);
      }
      r := AppendOnce(columns, fk);
    }

    static lemma {:induction false} IdAlone()
      ensures IdFirst([Id])
    {
    }

    static lemma {:induction false} IdStaysFirst(columns: seq<Column>, c: Column)
      requires IdFirst(columns) && c != Id
      ensures IdFirst(columns + [c]) && IdFirst(AppendOnce(columns, c))
    {
    }

    static method LoadChildrenAndLogs(children: AccountQuery?, usageLogs: UsageLogQuery?, nodes: seq<Account>,
                                      db: Driver)
      returns (err: Option<LoadError>, ghost kids: seq<Account>, ghost logs: seq<UsageLog>, ghost g: Graph)
      requires Ready(children)
      requires LogReady(usageLogs)
      requires WellFormed(db.tables) && db !in Parts(children) && LogParts(usageLogs) !! Parts(children)
      requires OnePerID(nodes)
      requires forall n | n in nodes :: n !in Parts(children) && n.data.id == n.origin.id
      requires forall n | n in nodes :: n.children == [] && n.usageLogs == []
      modifies Parts(children), LogParts(usageLogs), NodeSet(nodes)`children, NodeSet(nodes)`usageLogs, db
      decreases Vertices(children), 5
      ensures db.queries <= old(db.queries) + ChildStatements(TreeOf(children), Origins(nodes), db.tables) + OneIf(usageLogs != null)
      ensures err.None? ==>
        db.queries == old(db.queries) + ChildStatements(TreeOf(children), Origins(nodes), db.tables) + OneIf(usageLogs != null)
      ensures err.Some? ==> Excused(err.value, old(db.failures), db.failures, BadTreeFields(TreeOf(children)))
      ensures err.None? ==> db.failures == old(db.failures)
      ensures err.None? ==> Complete(g) && fresh(g.accounts) && fresh(g.joins) && NodeSet(kids) <= g.accounts
      ensures err.None? ==>
        && ChildrenRight(nodes, kids, TreeOf(children), db.tables)
        && LogsRight(nodes, logs, LogTreeOf(usageLogs), db.tables)
      ensures err.None? ==> forall n | n in nodes ::
        && n.children == With(kids, ParentKey, n.origin.id)
        && n.usageLogs == With(logs, LogKey, n.origin.id)
    {
      hide AccountQuery.Shape, OnePerID, Complete, ChildrenRight, LogsRight, With, TreeOf, LogTreeOf;
      hide BadTreeFields, Vertices, OneIf, ChildStatements;
      logs := [];
      err, kids, g := LoadChildren(children, nodes, db);
      if err.Some? {
        return;
      }
      ghost var all;
      err, logs, all := LoadUsageLogs(usageLogs, nodes, db);
    }

    /** The last three edges of sqlAll, in its order. */
    static method LoadLastEdges(children: AccountQuery?, usageLogs: UsageLogQuery?, accountGroups: AccountGroupQuery?,
                                nodes: seq<Account>, db: Driver)
      returns (err: Option<LoadError>, ghost kids: seq<Account>, ghost logs: seq<UsageLog>,
               ghost joins: seq<AccountGroup>, ghost g: Graph)
      requires Ready(children)
      requires LogReady(usageLogs)
      requires JoinReady(accountGroups)
      requires WellFormed(db.tables) && db !in Parts(children) && db !in JoinParts(accountGroups)
      requires LogParts(usageLogs) !! Parts(children) && LogParts(usageLogs) !! JoinParts(accountGroups)
      requires Parts(children) !! JoinParts(accountGroups)
      requires OnePerID(nodes)
      requires forall n | n in nodes :: n !in Parts(children) && n !in JoinParts(accountGroups) && n.data.id == n.origin.id
      requires forall n | n in nodes :: n.children == [] && n.usageLogs == [] && n.accountGroups == []
      modifies Parts(children), LogParts(usageLogs), JoinParts(accountGroups), db
      modifies NodeSet(nodes)`children, NodeSet(nodes)`usageLogs, NodeSet(nodes)`accountGroups
      decreases Vertices(children) + JoinVertices(accountGroups), 6
      ensures db.queries <= old(db.queries) + LastStatements(children, usageLogs, accountGroups, nodes, db.tables)
      ensures err.None? ==>
        db.queries == old(db.queries) + LastStatements(children, usageLogs, accountGroups, nodes, db.tables)
      ensures err.Some? ==> Excused(err.value, old(db.failures), db.failures,
                                    BadTreeFields(TreeOf(children)) + BadJoinTreeFields(JoinTreeOf(accountGroups)))
      ensures err.None? ==> db.failures == old(db.failures)
      ensures err.None? ==> Complete(g) && fresh(g.accounts) && fresh(g.joins)
      ensures err.None? ==> NodeSet(kids) <= g.accounts && JoinSet(joins) <= g.joins
      ensures err.None? ==>
        && ChildrenRight(nodes, kids, TreeOf(children), db.tables)
        && LogsRight(nodes, logs, LogTreeOf(usageLogs), db.tables)
        && JoinsRight(nodes, joins, JoinTreeOf(accountGroups), db.tables)
      ensures err.None? ==> forall n | n in nodes :: LastAssigned(n, kids, logs, joins)
    {
      hide AccountQuery.Shape, AccountGroupQuery.Shape, OnePerID, WellFormed, Complete, ChildrenRight, LogsRight;
      hide JoinsRight, With, TreeOf, JoinTreeOf, LogTreeOf, BadTreeFields, BadJoinTreeFields, Vertices;
      hide JoinVertices, OneIf, ChildStatements, LinkStatements;
      joins := [];
      ghost var h;
      err, kids, logs, g := LoadChildrenAndLogs(children, usageLogs, nodes, db);
      if err.Some? {
        return;
      }
      err, joins, h := LoadAccountGroups(accountGroups, nodes, db);
      if err.Some? {
        return;
      }
      CompleteUnion(g, h);
      g := Union(g, h);
    }

    /** The last four edges of sqlAll, in its order. */
    static method LoadFromParent(parent: AccountQuery?, children: AccountQuery?, usageLogs: UsageLogQuery?,
                                 accountGroups: AccountGroupQuery?, nodes: seq<Account>, db: Driver)
      returns (err: Option<LoadError>, ghost parents: seq<Account>, ghost kids: seq<Account>, ghost logs: seq<UsageLog>,
               ghost joins: seq<AccountGroup>, ghost g: Graph)
      requires Ready(parent)
      requires Ready(children)
      requires JoinReady(accountGroups)
      requires WellFormed(db.tables)
      requires db !in Parts(parent) && db !in Parts(children) && db !in JoinParts(accountGroups)
      requires Apart(LogParts(usageLogs), Parts(parent), Parts(children), JoinParts(accountGroups))
      requires LogReady(usageLogs)
      requires OnePerID(nodes)
      requires forall n | n in nodes :: n !in Parts(parent) && n !in Parts(children) && n !in JoinParts(accountGroups)
      requires forall n | n in nodes ::
        && n.data.id == n.origin.id && (parent != null ==> n.data.parentAccountID == ParentKey(n))
        && n.parent == null && n.children == [] && n.usageLogs == [] && n.accountGroups == []
      modifies Parts(parent), Parts(children), LogParts(usageLogs), JoinParts(accountGroups), db
      modifies NodeSet(nodes)`parent, NodeSet(nodes)`children, NodeSet(nodes)`usageLogs, NodeSet(nodes)`accountGroups
      decreases Vertices(parent) + Vertices(children) + JoinVertices(accountGroups), 7
      ensures db.queries <= old(db.queries) + LaterStatements(parent, children, usageLogs, accountGroups, nodes, db.tables)
      ensures err.None? ==>
        db.queries == old(db.queries) + LaterStatements(parent, children, usageLogs, accountGroups, nodes, db.tables)
      ensures err.Some? ==> Excused(err.value, old(db.failures), db.failures,
                                    BadTreeFields(TreeOf(parent)) + BadTreeFields(TreeOf(children))
                                    + BadJoinTreeFields(JoinTreeOf(accountGroups)))
      ensures err.None? ==> db.failures == old(db.failures)
      ensures err.None? ==> Complete(g) && fresh(g.accounts) && fresh(g.joins)
      ensures err.None? ==> NodeSet(parents) <= g.accounts && NodeSet(kids) <= g.accounts && JoinSet(joins) <= g.joins
      ensures err.None? ==>
        && AccountsRight(nodes, ParentKey, parents, TreeOf(parent), db.tables)
        && ChildrenRight(nodes, kids, TreeOf(children), db.tables)
        && LogsRight(nodes, logs, LogTreeOf(usageLogs), db.tables)
        && JoinsRight(nodes, joins, JoinTreeOf(accountGroups), db.tables)
      ensures err.None? ==> forall n | n in nodes ::
        n.parent == PickAccount(parents, ParentKey(n)) && LastAssigned(n, kids, logs, joins)
    {
      hide AccountQuery.Shape, AccountGroupQuery.Shape, Ready, JoinReady, LogReady, OnePerID, WellFormed, Complete;
      hide AccountsRight, ChildrenRight, LogsRight, JoinsRight, LastAssigned, PickAccount, With, TreeOf;
      hide JoinTreeOf, LogTreeOf;
      hide BadTreeFields, BadJoinTreeFields, Vertices, JoinVertices, ParentStatements, LastStatements;
      kids, logs, joins := [], [], [];
      ghost var h;
      err, parents, g := LoadParent(parent, nodes, db);
      if err.Some? {
        return;
      }
      err, kids, logs, joins, h := LoadLastEdges(children, usageLogs, accountGroups, nodes, db);
      if err.Some? {
        return;
      }
      CompleteUnion(g, h);
      g := Union(g, h);
    }

    /** The first three edges; the builders of the others are as before. */
    static method LoadBeforeParent(groups: LeafQuery?, proxy: LeafQuery?, owner: LeafQuery?, parent: AccountQuery?,
                                   children: AccountQuery?, usageLogs: UsageLogQuery?,
                                   accountGroups: AccountGroupQuery?, nodes: seq<Account>, db: Driver)
      returns (err: Option<LoadError>, ghost leaves: LeafNeighbors)
      requires LeafReady(groups, Groups) && LeafReady(proxy, Proxies) && LeafReady(owner, Users)
      requires Ready(parent) && Ready(children) && JoinReady(accountGroups) && LogReady(usageLogs)
      requires WellFormed(db.tables)
      requires db !in Parts(parent) && db !in Parts(children) && db !in JoinParts(accountGroups)
      requires Apart(LeafParts(proxy) + LeafParts(owner), Parts(parent), Parts(children), JoinParts(accountGroups))
      requires OnePerID(nodes)
      requires forall n | n in nodes :: Unloaded(n) && n !in Parts(parent) && n !in Parts(children) && n !in JoinParts(accountGroups)
      requires Keyed(nodes, Loaded(groups != null, proxy != null, owner != null, parent != null, children != null,
                                   usageLogs != null, accountGroups != null))
      modifies LeafParts(proxy), LeafParts(owner), db
      modifies NodeSet(nodes)`groups, NodeSet(nodes)`proxy, NodeSet(nodes)`owner
      ensures Ready(parent) && Ready(children) && JoinReady(accountGroups) && LogReady(usageLogs)
      ensures forall n | n in nodes ::
        && n.data.id == n.origin.id && (parent != null ==> n.data.parentAccountID == ParentKey(n))
        && n.parent == null && n.children == [] && n.usageLogs == [] && n.accountGroups == []
      ensures db.queries <= old(db.queries) + LeafStatements(groups, proxy, owner, nodes)
      ensures err.None? ==> db.queries == old(db.queries) + LeafStatements(groups, proxy, owner, nodes)
      ensures err.Some? ==> err.value.DriverFailure? && db.failures == old(db.failures) + 1
      ensures err.None? ==> db.failures == old(db.failures)
      ensures err.None? ==> LeafEdgesRight(nodes, leaves, LeafTreeOf(groups), LeafTreeOf(proxy),
                                           LeafTreeOf(owner), db.tables)
      ensures err.None? ==> forall n | n in nodes :: LeafAssigned(n, leaves)
    {
      hide AccountQuery.Shape, AccountGroupQuery.Shape, LeafReady, OnePerID, WellFormed, LeafEdgesRight, LeafAssigned;
      hide PickLeaf, GroupsOf, LeafTreeOf, LeafStatements;
      err, leaves := LoadLeafEdges(groups, proxy, owner, nodes, db);
    }

    /** Every requested edge, in sqlAll's order. */
    static method LoadEdges(groups: LeafQuery?, proxy: LeafQuery?, owner: LeafQuery?, parent: AccountQuery?,
                            children: AccountQuery?, usageLogs: UsageLogQuery?, accountGroups: AccountGroupQuery?,
                            nodes: seq<Account>, db: Driver)
      returns (err: Option<LoadError>, ghost found: Neighbors, ghost g: Graph)
      requires LeafReady(groups, Groups) && LeafReady(proxy, Proxies) && LeafReady(owner, Users)
      requires Ready(parent)
      requires Ready(children)
      requires JoinReady(accountGroups)
      requires WellFormed(db.tables)
      requires db !in Parts(parent) && db !in Parts(children) && db !in JoinParts(accountGroups)
      requires Apart(LogParts(usageLogs), Parts(parent), Parts(children), JoinParts(accountGroups))
      requires Apart(LeafParts(proxy) + LeafParts(owner), Parts(parent), Parts(children), JoinParts(accountGroups))
      requires LogReady(usageLogs)
      requires OnePerID(nodes)
      requires forall n | n in nodes :: Unloaded(n) && n !in Parts(parent) && n !in Parts(children) && n !in JoinParts(accountGroups)
      requires Keyed(nodes, Loaded(groups != null, proxy != null, owner != null, parent != null, children != null,
                                   usageLogs != null, accountGroups != null))
      modifies LeafParts(proxy), LeafParts(owner), LogParts(usageLogs)
      modifies Parts(parent), Parts(children), JoinParts(accountGroups), db
      modifies NodeSet(nodes)`groups, NodeSet(nodes)`proxy, NodeSet(nodes)`owner, NodeSet(nodes)`parent
      modifies NodeSet(nodes)`children, NodeSet(nodes)`usageLogs, NodeSet(nodes)`accountGroups
      decreases Vertices(parent) + Vertices(children) + JoinVertices(accountGroups), 8
      ensures db.queries <= old(db.queries) + LeafStatements(groups, proxy, owner, nodes)
                + LaterStatements(parent, children, usageLogs, accountGroups, nodes, db.tables)
      ensures err.None? ==> (db.queries == old(db.queries) + LeafStatements(groups, proxy, owner, nodes)
                + LaterStatements(parent, children, usageLogs, accountGroups, nodes, db.tables))
      ensures err.Some? ==> Excused(err.value, old(db.failures), db.failures,
                                    BadTreeFields(TreeOf(parent)) + BadTreeFields(TreeOf(children))
                                    + BadJoinTreeFields(JoinTreeOf(accountGroups)))
      ensures err.None? ==> db.failures == old(db.failures)
      ensures err.None? ==> Complete(g) && fresh(g.accounts) && fresh(g.joins) && NeighborsIn(found, g)
      ensures err.None? ==> EdgesRight(nodes, found,
        AccountEdges(LeafTreeOf(groups), LeafTreeOf(proxy), LeafTreeOf(owner), TreeOf(parent),
                     TreeOf(children), LogTreeOf(usageLogs), JoinTreeOf(accountGroups)), db.tables)
      ensures err.None? ==> forall n | n in nodes :: Assigned(n, found)
    {
      hide AccountQuery.Shape, AccountGroupQuery.Shape, Ready, JoinReady, LogReady, LeafReady, OnePerID;
      hide WellFormed, Complete;
      hide LeafEdgesRight, AccountsRight, ChildrenRight, LogsRight, JoinsRight, LeafAssigned, LastAssigned;
      hide PickLeaf, PickAccount, GroupsOf, With, TreeOf, JoinTreeOf, LeafTreeOf, LogTreeOf, Assigned;
      hide BadTreeFields, BadJoinTreeFields, Vertices, JoinVertices, LeafStatements, LaterStatements;
      ghost var leaves, parents, kids, logs, joins;
      found, g := Neighbors(LeafNeighbors([], [], [], []), [], [], [], []), Graph({}, {});
      err, leaves := LoadBeforeParent(groups, proxy, owner, parent, children, usageLogs, accountGroups, nodes, db);
      if err.Some? {
        return;
      }
      err, parents, kids, logs, joins, g := LoadFromParent(parent, children, usageLogs, accountGroups, nodes, db);
      found := Neighbors(leaves, parents, kids, logs, joins);
      if err.None? {
        forall n | n in nodes ensures Assigned(n, found) {
          PutTogether(n, found);
        }
      }
    }

    static lemma {:induction false} PutTogether(n: Account, found: Neighbors)
      requires LeafAssigned(n, found.leaves) && n.parent == PickAccount(found.parents, ParentKey(n))
      requires LastAssigned(n, found.children, found.logs, found.joins)
      ensures Assigned(n, found)
    {
    }

    /** Never more than one statement per builder; one when nothing was found, and strictly fewer than
        builders when no row needs a requested to-one edge. */
    lemma {:induction false} StatementsBound(rows: set<AccountRow>, db: Tables)
      requires Shape()
      ensures QueryStatements(tree.edges, {}, db) == 1
      ensures QueryStatements(tree.edges, rows, db) <= vertices == 1 + EdgesSize(tree.edges)
      ensures withProxy != null && Keyless(rows, RowProxy) ==> QueryStatements(tree.edges, rows, db) < vertices
      ensures withOwner != null && Keyless(rows, RowOwner) ==> QueryStatements(tree.edges, rows, db) < vertices
      ensures withParent != null && Keyless(rows, RowParent) ==> QueryStatements(tree.edges, rows, db) < vertices
    {
      hide Apart, Keyless, EdgeStatements;
      AtMostTreeSize(tree.edges, rows, db);
      VerticesAreTreeSize(withParent);
      VerticesAreTreeSize(withChildren);
      JoinVerticesAreTreeSize(withAccountGroups);
    }

    /** The statements of the requested edges, builder by builder, are those of the tree. */
    lemma {:induction false} EdgesCounted(nodes: seq<Account>, db: Tables)
      requires Shape()
      ensures EdgeStatements(tree.edges, Origins(nodes), db) == LeafStatements(withGroups, withProxy, withOwner, nodes)
        + LaterStatements(withParent, withChildren, withUsageLogs, withAccountGroups, nodes, db)
    {
      hide Apart, Keyless, AllNil, ParentStatements, ChildStatements, LinkStatements;
      KeylessNodes(nodes);
    }

    lemma {:induction false} SubBuilders()
      requires Shape() && SubsReady()
      ensures LeafReady(withGroups, Groups) && LeafReady(withProxy, Proxies) && LeafReady(withOwner, Users) && LogReady(withUsageLogs)
      ensures Ready(withParent) && Ready(withChildren) && JoinReady(withAccountGroups)
      ensures LeafParts(withGroups) + LeafParts(withProxy) + LeafParts(withOwner) + LogParts(withUsageLogs) <= Repr - {this}
      ensures Parts(withParent) + Parts(withChildren) + JoinParts(withAccountGroups) <= Repr - {this}
      ensures Apart(LogParts(withUsageLogs), Parts(withParent), Parts(withChildren), JoinParts(withAccountGroups))
      ensures Apart(LeafParts(withProxy) + LeafParts(withOwner), Parts(withParent), Parts(withChildren),
                    JoinParts(withAccountGroups))
      ensures tree.edges == AccountEdges(LeafTreeOf(withGroups), LeafTreeOf(withProxy), LeafTreeOf(withOwner), TreeOf(withParent),
                                         TreeOf(withChildren), LogTreeOf(withUsageLogs), JoinTreeOf(withAccountGroups))
      ensures LoadedOf(tree.edges) == RequestedEdges()
      ensures Vertices(withParent) + Vertices(withChildren) + JoinVertices(withAccountGroups) < vertices
    {
      hide LeafParts, LogParts, LeafReady, LogReady, OneIf;
    }

    lemma {:induction false} FieldsOfSubBuilders()
      requires Shape()
      ensures BadTreeFields(TreeOf(withParent)) + BadTreeFields(TreeOf(withChildren))
              + BadJoinTreeFields(JoinTreeOf(withAccountGroups)) <= BadAccountFields(fields, tree.edges)
    {
      hide Apart, LeafParts, LogParts, Parts, JoinParts, OneIf, Vertices, JoinVertices;
    }

    /** What sqlAll does once rows have been scanned into nodes. */
    method LoadRequested(nodes: seq<Account>, db: Driver, ghost rows: seq<AccountRow>)
      returns (err: Option<LoadError>, ghost g: Graph)
      requires Shape() && SubsReady() && WellFormed(db.tables) && db !in Repr
      requires rows != [] && Enumerates(rows, MatchingAccounts(predicates, db.tables))
      requires Scanned(nodes, rows, tree.edges, fields, db.tables)
      requires forall n | n in nodes :: Unloaded(n) && n !in Repr
      modifies Repr - {this}, NodeSet(nodes), db
      decreases vertices, 1
      ensures db.queries <= old(db.queries) + EdgeStatements(tree.edges, MatchingAccounts(predicates, db.tables), db.tables)
      ensures err.None? ==>
        db.queries == old(db.queries) + EdgeStatements(tree.edges, MatchingAccounts(predicates, db.tables), db.tables)
      ensures err.Some? ==> Excused(err.value, old(db.failures), db.failures, BadAccountFields(fields, tree.edges))
      ensures err.None? ==> db.failures == old(db.failures)
      ensures err.None? ==> Complete(g) && NodeSet(nodes) <= g.accounts
      ensures err.None? ==> fresh(g.accounts - NodeSet(nodes)) && fresh(g.joins)
    {
      hide Shape, SubsReady, Ready, JoinReady, LogReady, LeafReady, WellFormed, Complete, OnePerID, Enumerates;
      hide BadAccountFields, BadTreeFields, BadJoinTreeFields, TreeOf, JoinTreeOf, LeafTreeOf, LogTreeOf;
      hide EdgesRight, Assigned, Keyed, LoadedOf, Parts, JoinParts, LeafParts, LogParts, Apart, NeighborsIn;
      hide NaiveAccount, NoDup, OneIf, AllNil, Vertices, JoinVertices, MatchingAccounts, LeafStatements, EdgeStatements;
      hide LaterStatements;
      SubBuilders();
      FieldsOfSubBuilders();
      UnloadedKeepsKeys(nodes, tree.edges, fields, db.tables);
      DistinctIDs(nodes, rows, predicates, db.tables);
      EdgesCounted(nodes, db.tables);
      OriginsAre(nodes, rows, MatchingAccounts(predicates, db.tables));
      ghost var found;
      err, found, g := LoadEdges(withGroups, withProxy, withOwner, withParent, withChildren, withUsageLogs,
                                 withAccountGroups, nodes, db);
      if err.None? {
        g := WithRoots(nodes, found, tree.edges, fields, db.tables, g);
      }
    }

    /** All: fresh nodes in order of the rows, each the root of a complete graph. */
    method All(db: Driver) returns (r: Result<seq<Account>, LoadError>, ghost rows: seq<AccountRow>, ghost g: Graph)
      requires Shape() && SubsReady() && WellFormed(db.tables) && db !in Repr
      modifies Repr - {this}, db
      decreases vertices, 2
      ensures db.queries <= old(db.queries) + QueryStatements(tree.edges, MatchingAccounts(predicates, db.tables), db.tables)
      ensures r.Ok? ==>
        db.queries == old(db.queries) + QueryStatements(tree.edges, MatchingAccounts(predicates, db.tables), db.tables)
      ensures db.queries <= old(db.queries) + vertices
      ensures r.Err? ==> Excused(r.error, old(db.failures), db.failures, BadAccountFields(fields, tree.edges))
      ensures r.Ok? ==> db.failures == old(db.failures)
      ensures r.Ok? ==>
        && Enumerates(rows, MatchingAccounts(predicates, db.tables))
        && Scanned(r.value, rows, tree.edges, fields, db.tables)
        && NodeSet(r.value) <= g.accounts
        && Complete(g) && fresh(g.accounts) && fresh(g.joins)
      ensures r.Ok? ==> ValidFields(fields, ACCOUNT_COLUMNS)
      ensures r.Ok? ==> ResultMirrors(r.value, rows, g, tree.edges, fields, predicates, db.tables)
    {
      hide Shape, SubsReady, WellFormed, MatchingAccounts, EdgeStatements, ResultMirrors, NaiveAccount, EdgesIn;
      StatementsBound(MatchingAccounts(predicates, db.tables), db.tables);
      g := Graph({}, {});
      r, rows := Scan(db);
      if r.Err? {
        return;
      }
      OriginsAre(r.value, rows, MatchingAccounts(predicates, db.tables));
      if |r.value| == 0 {
        ResultMirrored(r.value, rows, g, tree.edges, fields, predicates, db.tables);
        return;
      }
      assert r.value[0].origin in MatchingAccounts(predicates, db.tables);
      var err;
      err, g := LoadRequested(r.value, db, rows);
      if err.Some? {
        r := Err(err.value);
      } else {
        ResultMirrored(r.value, rows, g, tree.edges, fields, predicates, db.tables);
      }
    }

    /** The statements of this query when it is restricted once. */
    ghost function StatementsWith(p: AccountPred, db: Tables): nat {
      QueryStatements(tree.edges, MatchingAccounts(tree.preds + [p], db), db)
    }

    /** The second half of an M2O load: restrict the sub-query to the ids and run it. */
    method AllByID(ids: seq<int>, db: Driver) returns (r: Result<seq<Account>, LoadError>, ghost g: Graph)
      requires Shape() && Pristine() && WellFormed(db.tables) && db !in Repr
      modifies Repr, db
      decreases vertices, 3
      ensures db.queries <= old(db.queries) + StatementsWith(IDIn(ids), db.tables)
      ensures r.Ok? ==> db.queries == old(db.queries) + StatementsWith(IDIn(ids), db.tables)
      ensures r.Err? ==> Excused(r.error, old(db.failures), db.failures, BadAccountFields(tree.fields, tree.edges))
      ensures r.Ok? ==> db.failures == old(db.failures)
      ensures r.Ok? ==> Complete(g) && fresh(g.accounts) && fresh(g.joins)
      ensures r.Ok? ==>
        && Answers(r.value, tree.preds, db.tables, ids)
        && Represent(r.value, tree.edges, tree.fields, db.tables)
        && NodeSet(r.value) <= g.accounts && IDsKept(r.value)
    {
      hide ResultMirrors, ValidFields;
      Where(IDIn(ids));
      ghost var rows;
      r, rows, g := All(db);
      if r.Ok? {
        CompleteKeepsIDs(r.value, tree.edges, tree.fields, db.tables, g);
        BatchAnswers(r.value, rows, tree.preds, ids, db.tables);
      }
    }

    /** The second half of loadChildren: ask for the foreign key, restrict, run. */
    method AllByParent(fks: seq<int>, db: Driver)
      returns (r: Result<seq<Account>, LoadError>, ghost rows: seq<AccountRow>, ghost g: Graph)
      requires Shape() && Pristine() && WellFormed(db.tables) && db !in Repr
      modifies Repr, db
      decreases vertices, 3
      ensures db.queries <= old(db.queries) + StatementsWith(ParentIn(fks), db.tables)
      ensures r.Ok? ==> db.queries == old(db.queries) + StatementsWith(ParentIn(fks), db.tables)
      ensures r.Err? ==> Excused(r.error, old(db.failures), db.failures, BadAccountFields(tree.fields, tree.edges))
      ensures r.Ok? ==> db.failures == old(db.failures)
      ensures r.Ok? ==> Complete(g) && fresh(g.accounts) && fresh(g.joins)
      ensures r.Ok? ==>
        && Enumerates(rows, MatchingAccounts(tree.preds + [ParentIn(fks)], db.tables))
        && Scanned(r.value, rows, tree.edges, WithForeignKey(tree.fields, ParentAccountID), db.tables)
        && NodeSet(r.value) <= g.accounts && ParentsKept(r.value)
    {
      hide ResultMirrors;
      SelectForeignKey(ParentAccountID);
      Where(ParentIn(fks));
      r, rows, g := All(db);
      if r.Ok? {
        CompleteKeepsParents(r.value, tree.edges, tree.fields, db.tables, g);
      }
    }

    /** The parents of these nodes, found by one run of the query. */
    static method FindParents(query: AccountQuery, nodes: seq<Account>, ids: seq<int>, db: Driver,
                              ghost nodeids: map<int, seq<Account>>)
      returns (r: Result<seq<Account>, LoadError>, ghost g: Graph)
      requires query.Shape() && query.Pristine() && WellFormed(db.tables) && db !in query.Repr
      requires Grouped(nodes, ParentKey, ids, nodeids) && ids != []
      modifies query.Repr, db
      decreases query.vertices, 4
      ensures db.queries <= old(db.queries) + ParentStatements(Some(query.tree), Origins(nodes), db.tables)
      ensures r.Ok? ==> db.queries == old(db.queries) + ParentStatements(Some(query.tree), Origins(nodes), db.tables)
      ensures r.Err? ==> Excused(r.error, old(db.failures), db.failures, BadTreeFields(Some(query.tree)))
      ensures r.Ok? ==> db.failures == old(db.failures)
      ensures r.Ok? ==> Complete(g) && fresh(g.accounts) && fresh(g.joins) && NodeSet(r.value) <= g.accounts
      ensures r.Ok? ==> IDsKept(r.value) && forall nb | nb in r.value :: nb.origin.id in ids
      ensures r.Ok? ==> AccountsRight(nodes, ParentKey, r.value, Some(query.tree), db.tables)
    {
      hide AccountQuery.Shape, AccountQuery.Pristine, Keyless, ParentRows, QueryStatements, MatchingAccounts, PickAccount;
      hide Represent;
      KeylessNodes(nodes);
      SomeKey(nodes, ParentKey, ids, nodeids);
      ParentsAsked(nodes, ids, nodeids, query.tree, db.tables);
      r, g := query.AllByID(ids, db);
      if r.Ok? {
        AccountsAgree(nodes, ParentKey, r.value, query.tree, db.tables, ids);
      }
    }

    static method LoadParent(query: AccountQuery?, nodes: seq<Account>, db: Driver)
      returns (err: Option<LoadError>, ghost neighbors: seq<Account>, ghost g: Graph)
      requires Ready(query) && WellFormed(db.tables) && db !in Parts(query)
      requires forall n | n in nodes :: n !in Parts(query)
      requires forall n | n in nodes :: n.parent == null && (query != null ==> n.data.parentAccountID == ParentKey(n))
      modifies Parts(query), NodeSet(nodes)`parent, db
      decreases Vertices(query), 5
      ensures db.queries <= old(db.queries) + ParentStatements(TreeOf(query), Origins(nodes), db.tables)
      ensures err.None? ==> db.queries == old(db.queries) + ParentStatements(TreeOf(query), Origins(nodes), db.tables)
      ensures err.Some? ==> Excused(err.value, old(db.failures), db.failures, BadTreeFields(TreeOf(query)))
      ensures err.None? ==> db.failures == old(db.failures)
      ensures err.None? ==> Complete(g) && fresh(g.accounts) && fresh(g.joins)
      ensures err.None? ==>
        && AccountsRight(nodes, ParentKey, neighbors, TreeOf(query), db.tables) && NodeSet(neighbors) <= g.accounts
        && forall n | n in nodes :: n.parent == PickAccount(neighbors, ParentKey(n))
    {
      hide AccountQuery.Shape, AccountQuery.Pristine, Keyless, ParentRows, QueryStatements, PickAccount;
      g, neighbors := Graph({}, {}), [];
      if query == null {
        return None, neighbors, g;
      }
      var keys := seq(|nodes|, (i: nat) requires i < |nodes| reads NodeSet(nodes) => nodes[i].data.parentAccountID);
      var ids, nodeids := GroupByKey(nodes, keys, ParentKey);
      if |ids| == 0 {
        GroupedNone(nodes, ParentKey, ids, nodeids);
        KeylessNodes(nodes);
        return None, neighbors, g;
      }
      var r, h := FindParents(query, nodes, ids, db, nodeids);
      if r.Err? {
        return Some(r.error), neighbors, g;
      }
      g, neighbors := h, r.value;
      err := AssignParents(nodes, nodeids, r.value, ids);
    }

    static method LoadChildren(query: AccountQuery?, nodes: seq<Account>, db: Driver)
      returns (err: Option<LoadError>, ghost stream: seq<Account>, ghost g: Graph)
      requires Ready(query) && WellFormed(db.tables) && db !in Parts(query)
      requires forall n | n in nodes :: n !in Parts(query) && n.data.id == n.origin.id && n.children == []
      requires OnePerID(nodes)
      modifies Parts(query), NodeSet(nodes)`children, db
      decreases Vertices(query), 4
      ensures db.queries <= old(db.queries) + ChildStatements(TreeOf(query), Origins(nodes), db.tables)
      ensures err.None? ==> db.queries == old(db.queries) + ChildStatements(TreeOf(query), Origins(nodes), db.tables)
      ensures err.Some? ==> Excused(err.value, old(db.failures), db.failures, BadTreeFields(TreeOf(query)))
      ensures err.None? ==> db.failures == old(db.failures)
      ensures err.None? ==> Complete(g) && fresh(g.accounts) && fresh(g.joins)
      ensures err.None? ==> ChildrenRight(nodes, stream, TreeOf(query), db.tables) && NodeSet(stream) <= g.accounts
      ensures err.None? ==> forall n | n in nodes :: n.children == With(stream, ParentKey, n.origin.id)
      ensures err.None? ==> forall c | c in stream :: ParentKey(c).Some? && ParentKey(c).value in NodeIDs(nodes)
    {
      hide AccountQuery.Shape, Represent, Indexed;
      g, stream := Graph({}, {}), [];
      if query == null {
        return None, stream, g;
      }
      var fks, nodeids := IndexByID(nodes);
      forall n | n in nodes {
        n.children := [];
      }
      ChildrenAsked(nodes, fks, query.tree, db.tables);
      var r, rows, h := query.AllByParent(fks, db);
      if r.Err? {
        return Some(r.error), stream, g;
      }
      g, stream := h, r.value;
      ChildrenWanted(r.value, rows, query.tree.preds, fks, db.tables);
      forall c | c in stream ensures ParentKey(c).Some? && ParentKey(c).value in NodeIDs(nodes) {
        var k: int := ParentKey(c).value;
        assert k in fks;
      }
      err := AssignChildren(nodes, nodeids, r.value, fks);
      ChildrenListsAgree(nodes, r.value, rows, query.tree, db.tables, fks);
    }

    static method LoadAccountGroups(query: AccountGroupQuery?, nodes: seq<Account>, db: Driver)
      returns (err: Option<LoadError>, ghost stream: seq<AccountGroup>, ghost g: Graph)
      requires JoinReady(query) && WellFormed(db.tables) && db !in JoinParts(query)
      requires forall n | n in nodes :: n !in JoinParts(query) && n.data.id == n.origin.id && n.accountGroups == []
      requires OnePerID(nodes)
      modifies JoinParts(query), NodeSet(nodes)`accountGroups, db
      decreases JoinVertices(query), 4
      ensures db.queries <= old(db.queries) + LinkStatements(JoinTreeOf(query), Origins(nodes), db.tables)
      ensures err.None? ==> db.queries == old(db.queries) + LinkStatements(JoinTreeOf(query), Origins(nodes), db.tables)
      ensures err.Some? ==> Excused(err.value, old(db.failures), db.failures, BadJoinTreeFields(JoinTreeOf(query)))
      ensures err.None? ==> db.failures == old(db.failures)
      ensures err.None? ==> Complete(g) && fresh(g.accounts) && fresh(g.joins)
      ensures err.None? ==> JoinsRight(nodes, stream, JoinTreeOf(query), db.tables) && JoinSet(stream) <= g.joins
      ensures err.None? ==> forall n | n in nodes :: n.accountGroups == With(stream, JoinAccountKey, n.origin.id)
      ensures err.None? ==> forall j | j in stream :: j.origin.accountID in NodeIDs(nodes)
    {
      g, stream := Graph({}, {}), [];
      if query == null {
        return None, stream, g;
      }
      var fks, nodeids := IndexByID(nodes);
      forall n | n in nodes {
        n.accountGroups := [];
      }
      LinksAsked(nodes, fks, query.tree, db.tables);
      var r, rows, h := query.AllByAccount(fks, db);
      if r.Err? {
        return Some(r.error), stream, g;
      }
      g, stream := h, r.value;
      JoinsWanted(r.value, rows, query.tree.preds, fks, db.tables);
      err := AssignAccountGroups(nodes, nodeids, r.value, fks);
      JoinListsAgree(nodes, r.value, rows, query.tree, db.tables, fks);
    }
  }

  class AccountGroupQuery {
    ghost const tree: JoinTree
    var predicates: seq<JoinPred>
    var fields: seq<Column>
    const withAccount: AccountQuery?
    const withGroup: LeafQuery?

    ghost const Repr: set<object>
    ghost const vertices: nat

    constructor (predicates: seq<JoinPred>, fields: seq<Column>, account: AccountQuery?, group: LeafQuery?)
      requires LeafReady(group, Groups)
      requires Ready(account)
      requires LeafParts(group) !! Parts(account)
      ensures Shape() && Pristine()
      ensures tree == JoinTree(predicates, fields, JoinEdges(TreeOf(account), LeafTreeOf(group)))
    {
      this.predicates, this.fields := predicates, fields;
      withAccount, withGroup := account, group;
      tree := JoinTree(predicates, fields, JoinEdges(TreeOf(account), LeafTreeOf(group)));
      Repr := {this} + LeafParts(group) + Parts(account);
      vertices := 1 + OneIf(group != null) + Vertices(account);
    }

    ghost predicate Shape()
      decreases vertices
    {
      && this in Repr
      && LeafParts(withGroup) <= Repr - {this} && Parts(withAccount) <= Repr - {this}
      && LeafParts(withGroup) !! Parts(withAccount)
      && vertices == 1 + OneIf(withGroup != null) + Vertices(withAccount)
      && tree.edges == JoinEdges(TreeOf(withAccount), LeafTreeOf(withGroup))
      && (withAccount != null ==> withAccount.Shape())
    }

    ghost predicate Pristine()
      requires Shape()
      reads Repr
      decreases vertices, 1
    {
      predicates == tree.preds && fields == tree.fields && SubsReady()
    }

    ghost predicate SubsReady()
      requires Shape()
      reads Repr - {this}
      decreases vertices, 0
    {
      LeafReady(withGroup, Groups) && (withAccount != null ==> withAccount.Pristine())
    }

    method Where(p: JoinPred)
      modifies this`predicates
      ensures predicates == old(predicates) + [p]
    {
      predicates := predicates + [p];
    }

    method SelectForeignKey(fk: Column)
      modifies this`fields
      ensures fields == WithForeignKey(old(fields), fk)
    {
      if |fields| > 0 {
        fields := AppendOnce(fields, fk);
      }
    }

    /** The rows this query asks for, scanned into fresh nodes; no edge is loaded yet. */
    method Scan(db: Driver) returns (r: Result<seq<AccountGroup>, LoadError>, ghost rows: seq<JoinRow>)
      requires Shape() && WellFormed(db.tables) && db !in Repr
      modifies db
      ensures db.queries <= old(db.queries) + 1
      ensures r.Err? ==> Excused(r.error, old(db.failures), db.failures, BadJoinFields(fields, tree.edges))
      ensures r.Err? && r.error.InvalidField? ==>
        BadField(r.error.column, fields, ACCOUNT_GROUP_COLUMNS) && db.queries == old(db.queries)
      ensures r.Ok? ==> ValidFields(fields, ACCOUNT_GROUP_COLUMNS)
      ensures r.Ok? ==> db.failures == old(db.failures) && db.queries == old(db.queries) + 1
      ensures r.Ok? ==>
        && Enumerates(rows, MatchingJoins(predicates, db.tables))
        && JoinsScanned(r.value, rows, tree.edges, fields, db.tables) && fresh(JoinSet(r.value))
        && forall j | j in r.value :: JoinUnloaded(j) && j !in Repr
    {
      rows := [];
      var bad := InvalidColumn(fields, ACCOUNT_GROUP_COLUMNS);
      if bad.Some? {
        return Err(InvalidField(bad.value)), rows;
      }
      var columns := QuerySpec();
      var ok, found := db.QueryJoins(predicates);
      if !ok {
        return Err(DriverFailure), rows;
      }
      rows := found;
      var loaded := JoinLoaded(withAccount != null, withGroup != null);
      var nodes := NewJoins(columns, found, loaded, tree.edges, fields, db.tables);
      r := Ok(nodes);
    }

    /** The columns to select: all of them, or the fields and each foreign key that a requested edge
        needs. */
    method QuerySpec() returns (columns: seq<Column>)
      ensures Cols(columns) == JoinColumnsOf(fields, JoinLoaded(withAccount != null, withGroup != null))
      ensures fields == [] ==> forall c :: c in columns <==> JoinTableType(c) != NoColumn
      ensures fields != [] ==> forall c :: c in columns <==>
        c in fields || (c == AccountID && withAccount != null) || (c == GroupID && withGroup != null)
    {
      if |fields| == 0 {
        columns := ACCOUNT_GROUP_COLUMNS;
        Selection(columns);
        return;
      }
      columns := [];
      for i := 0 to |fields|
        invariant columns == fields[..i]
      {
        columns := columns + [fields[i]];
      }
      if withAccount != null {
        ColsAppend(columns, AccountID);
        columns := AppendOnce(columns, AccountID);
      }
      if withGroup != null {
        ColsAppend(columns, GroupID);
        columns := AppendOnce(columns, GroupID);
      }
      Selection(columns);
    }

    lemma {:induction false} Selection(columns: seq<Column>)
      requires Cols(columns) == JoinColumnsOf(fields, JoinLoaded(withAccount != null, withGroup != null))
      ensures fields == [] ==> forall c :: c in columns <==> JoinTableType(c) != NoColumn
      ensures fields != [] ==> forall c :: c in columns <==>
        c in fields || (c == AccountID && withAccount != null) || (c == GroupID && withGroup != null)
    {
      hide JoinColumnsOf, JoinTableType;
      forall c ensures c in columns <==> c in Cols(columns) {
      }
      forall c {
        JoinSelection(fields, JoinLoaded(withAccount != null, withGroup != null), c);
      }
    }

    /** The accounts of these join rows, found by one run of the query. */
    static method FindAccounts(query: AccountQuery, nodes: seq<AccountGroup>, ids: seq<int>, db: Driver,
                               ghost nodeids: map<int, seq<AccountGroup>>)
      returns (r: Result<seq<Account>, LoadError>, ghost g: Graph)
      requires query.Shape() && query.Pristine() && WellFormed(db.tables) && db !in query.Repr
      requires Grouped(nodes, JoinAccountKey, ids, nodeids)
      modifies query.Repr, db
      decreases query.vertices, 4
      ensures db.queries <= old(db.queries) + LinkedStatements(Some(query.tree), JoinOrigins(nodes), db.tables)
      ensures r.Ok? ==> db.queries == old(db.queries) + LinkedStatements(Some(query.tree), JoinOrigins(nodes), db.tables)
      ensures r.Err? ==> Excused(r.error, old(db.failures), db.failures, BadTreeFields(Some(query.tree)))
      ensures r.Ok? ==> db.failures == old(db.failures)
      ensures r.Ok? ==> Complete(g) && fresh(g.accounts) && fresh(g.joins) && NodeSet(r.value) <= g.accounts
      ensures r.Ok? ==> IDsKept(r.value) && forall nb | nb in r.value :: nb.origin.id in ids
      ensures r.Ok? ==> AccountsRight(nodes, JoinAccountKey, r.value, Some(query.tree), db.tables)
    {
      hide AccountQuery.Shape, AccountQuery.Pristine, LinkedRows, QueryStatements, MatchingAccounts, PickAccount;
      hide Represent;
      LinkedAsked(nodes, ids, nodeids, query.tree, db.tables);
      r, g := query.AllByID(ids, db);
      if r.Ok? {
        AccountsAgree(nodes, JoinAccountKey, r.value, query.tree, db.tables, ids);
      }
    }

    static method LoadAccount(query: AccountQuery?, nodes: seq<AccountGroup>, db: Driver)
      returns (err: Option<LoadError>, ghost neighbors: seq<Account>, ghost g: Graph)
      requires Ready(query) && WellFormed(db.tables) && db !in Parts(query)
      requires forall n | n in nodes :: n !in Parts(query)
      requires forall n | n in nodes :: n.account == null && (query != null ==> Some(n.data.accountID) == JoinAccountKey(n))
      modifies Parts(query), JoinSet(nodes)`account, db
      decreases Vertices(query), 5
      ensures nodes != [] ==> db.queries <= old(db.queries) + LinkedStatements(TreeOf(query), JoinOrigins(nodes), db.tables)
      ensures nodes != [] && err.None? ==>
        db.queries == old(db.queries) + LinkedStatements(TreeOf(query), JoinOrigins(nodes), db.tables)
      ensures err.Some? ==> Excused(err.value, old(db.failures), db.failures, BadTreeFields(TreeOf(query)))
      ensures err.None? ==> db.failures == old(db.failures)
      ensures err.None? ==> Complete(g) && fresh(g.accounts) && fresh(g.joins)
      ensures err.None? ==>
        && AccountsRight(nodes, JoinAccountKey, neighbors, TreeOf(query), db.tables) && NodeSet(neighbors) <= g.accounts
        && forall n | n in nodes :: n.account == PickAccount(neighbors, JoinAccountKey(n))
    {
      hide AccountQuery.Shape, AccountQuery.Pristine, LinkedRows, QueryStatements, PickAccount;
      g, neighbors := Graph({}, {}), [];
      if query == null {
        return None, neighbors, g;
      }
      var keys := seq(|nodes|, (i: nat) requires i < |nodes| reads JoinSet(nodes) => Some(nodes[i].data.accountID));
      var ids, nodeids := GroupByKey(nodes, keys, JoinAccountKey);
      if |ids| == 0 {
        GroupedNone(nodes, JoinAccountKey, ids, nodeids);
        assert nodes != [] ==> nodes[0] in nodes && JoinAccountKey(nodes[0]).Some?;
        return None, neighbors, g;
      }
      var r, h := FindAccounts(query, nodes, ids, db, nodeids);
      if r.Err? {
        return Some(r.error), neighbors, g;
      }
      g, neighbors := h, r.value;
      err := AssignJoinAccounts(nodes, nodeids, r.value, ids);
    }

    /** Both edges of the join entity, in its sqlAll's order. */
    static method LoadEdges(account: AccountQuery?, group: LeafQuery?, nodes: seq<AccountGroup>, db: Driver)
      returns (err: Option<LoadError>, ghost accounts: seq<Account>, ghost groups: seq<Leaf>, ghost g: Graph)
      requires Ready(account)
      requires LeafReady(group, Groups)
      requires WellFormed(db.tables) && db !in Parts(account) && LeafParts(group) !! Parts(account)
      requires forall n | n in nodes :: n !in Parts(account) && n.account == null && n.group == null
      requires forall n | n in nodes :: account != null ==> Some(n.data.accountID) == JoinAccountKey(n)
      requires forall n | n in nodes :: group != null ==> Some(n.data.groupID) == JoinGroupKey(n)
      modifies Parts(account), LeafParts(group), JoinSet(nodes)`account, JoinSet(nodes)`group, db
      decreases Vertices(account), 6
      ensures nodes != [] ==>
        db.queries <= old(db.queries) + LinkedStatements(TreeOf(account), JoinOrigins(nodes), db.tables) + OneIf(group != null)
      ensures nodes != [] && err.None? ==>
        db.queries == old(db.queries) + LinkedStatements(TreeOf(account), JoinOrigins(nodes), db.tables) + OneIf(group != null)
      ensures err.Some? ==> Excused(err.value, old(db.failures), db.failures, BadTreeFields(TreeOf(account)))
      ensures err.None? ==> db.failures == old(db.failures)
      ensures err.None? ==> Complete(g) && fresh(g.accounts) && fresh(g.joins) && NodeSet(accounts) <= g.accounts
      ensures err.None? ==>
        && AccountsRight(nodes, JoinAccountKey, accounts, TreeOf(account), db.tables)
        && LeavesRight(nodes, JoinGroupKey, groups, LeafTreeOf(group), db.tables.groups)
        && forall n | n in nodes :: n.account == PickAccount(accounts, JoinAccountKey(n)) && n.group == PickLeaf(groups, JoinGroupKey(n))
    {
      hide LeafMirrors, AccountsRight, LeavesRight, PickAccount, PickLeaf, LinkedStatements, BadTreeFields, Complete;
      groups := [];
      err, accounts, g := LoadAccount(account, nodes, db);
      if err.Some? {
        return;
      }
      err, groups := LoadJoinGroup(group, nodes, db);
    }

    lemma {:induction false} StatementsBound(links: set<JoinRow>, db: Tables)
      requires Shape()
      ensures JoinStatements(tree.edges, links, db) <= vertices
    {
      JoinAtMostTreeSize(tree.edges, links, db);
      VerticesAreTreeSize(withAccount);
    }

    /** What sqlAll does once join rows have been scanned into nodes. */
    method LoadRequested(nodes: seq<AccountGroup>, db: Driver, ghost rows: seq<JoinRow>)
      returns (err: Option<LoadError>, ghost g: Graph)
      requires Shape() && SubsReady() && WellFormed(db.tables) && db !in Repr
      requires nodes != [] && JoinsScanned(nodes, rows, tree.edges, fields, db.tables)
      requires forall j | j in nodes :: JoinUnloaded(j) && j !in Repr
      modifies Repr - {this}, JoinSet(nodes), db
      decreases vertices, 1
      ensures db.queries <= old(db.queries) + OneIf(withGroup != null)
                            + LinkedStatements(TreeOf(withAccount), JoinOrigins(nodes), db.tables)
      ensures err.None? ==>
        db.queries == old(db.queries) + OneIf(withGroup != null) + LinkedStatements(TreeOf(withAccount), JoinOrigins(nodes), db.tables)
      ensures err.Some? ==> Excused(err.value, old(db.failures), db.failures, BadJoinFields(fields, tree.edges))
      ensures err.None? ==> db.failures == old(db.failures)
      ensures err.None? ==> Complete(g) && JoinSet(nodes) <= g.joins && fresh(g.accounts) && fresh(g.joins - JoinSet(nodes))
    {
      hide AccountQuery.Shape, LinkedStatements, LeavesRight, AccountsRight, PickAccount, PickLeaf, Complete;
      UnloadedKeepsJoinKeys(nodes, tree.edges, fields, db.tables);
      ghost var accounts, groups;
      err, accounts, groups, g := LoadEdges(withAccount, withGroup, nodes, db);
      if err.None? {
        g := WithJoinRoots(nodes, accounts, groups, tree.edges, fields, db.tables, g);
      }
    }

    method All(db: Driver) returns (r: Result<seq<AccountGroup>, LoadError>, ghost rows: seq<JoinRow>, ghost g: Graph)
      requires Shape() && SubsReady() && WellFormed(db.tables) && db !in Repr
      modifies Repr - {this}, db
      decreases vertices, 2
      ensures db.queries <= old(db.queries) + JoinStatements(tree.edges, MatchingJoins(predicates, db.tables), db.tables)
      ensures r.Ok? ==>
        db.queries == old(db.queries) + JoinStatements(tree.edges, MatchingJoins(predicates, db.tables), db.tables)
      ensures db.queries <= old(db.queries) + vertices
      ensures r.Err? ==> Excused(r.error, old(db.failures), db.failures, BadJoinFields(fields, tree.edges))
      ensures r.Ok? ==> db.failures == old(db.failures)
      ensures r.Ok? ==>
        && Enumerates(rows, MatchingJoins(predicates, db.tables))
        && JoinsScanned(r.value, rows, tree.edges, fields, db.tables)
        && JoinSet(r.value) <= g.joins
        && Complete(g) && fresh(g.accounts) && fresh(g.joins)
      ensures r.Ok? ==> ValidFields(fields, ACCOUNT_GROUP_COLUMNS)
      ensures r.Ok? ==> JoinResultMirrors(r.value, rows, g, tree.edges, fields, predicates, db.tables)
    {
      hide MatchingJoins, LinkedStatements, Complete, JoinResultMirrors, NaiveJoin;
      StatementsBound(MatchingJoins(predicates, db.tables), db.tables);
      g := Graph({}, {});
      r, rows := Scan(db);
      if r.Err? {
        return;
      }
      JoinOriginsAre(r.value, rows, MatchingJoins(predicates, db.tables));
      if |r.value| == 0 {
        NothingComplete();
        JoinResultMirrored(r.value, rows, g, tree.edges, fields, predicates, db.tables);
        return;
      }
      assert r.value[0].origin in MatchingJoins(predicates, db.tables);
      var err;
      err, g := LoadRequested(r.value, db, rows);
      if err.Some? {
        r := Err(err.value);
      } else {
        JoinResultMirrored(r.value, rows, g, tree.edges, fields, predicates, db.tables);
      }
    }

    static lemma {:induction false} NothingComplete()
      ensures Complete(Graph({}, {}))
    {
    }

    ghost function StatementsWith(p: JoinPred, db: Tables): nat {
      JoinStatements(tree.edges, MatchingJoins(tree.preds + [p], db), db)
    }

    /** The second half of loadAccountGroups: ask for the foreign key, restrict, run. */
    method AllByAccount(fks: seq<int>, db: Driver)
      returns (r: Result<seq<AccountGroup>, LoadError>, ghost rows: seq<JoinRow>, ghost g: Graph)
      requires Shape() && Pristine() && WellFormed(db.tables) && db !in Repr
      modifies Repr, db
      decreases vertices, 3
      ensures db.queries <= old(db.queries) + StatementsWith(JoinAccountIn(fks), db.tables)
      ensures r.Ok? ==> db.queries == old(db.queries) + StatementsWith(JoinAccountIn(fks), db.tables)
      ensures r.Err? ==> Excused(r.error, old(db.failures), db.failures, BadJoinFields(tree.fields, tree.edges))
      ensures r.Ok? ==> db.failures == old(db.failures)
      ensures r.Ok? ==> Complete(g) && fresh(g.accounts) && fresh(g.joins)
      ensures r.Ok? ==>
        && Enumerates(rows, MatchingJoins(tree.preds + [JoinAccountIn(fks)], db.tables))
        && JoinsScanned(r.value, rows, tree.edges, WithForeignKey(tree.fields, AccountID), db.tables)
        && JoinSet(r.value) <= g.joins && OwnersKept(r.value)
    {
      hide JoinResultMirrors;
      SelectForeignKey(AccountID);
      Where(JoinAccountIn(fks));
      r, rows, g := All(db);
      if r.Ok? {
        CompleteKeepsOwners(r.value, tree.edges, tree.fields, db.tables, g);
      }
    }
  }
}
