/** The parts of eager loading that concern edges between accounts and to join rows: handing
    neighbours out, scanning rows into nodes, and putting the edges of one node together. */
module AccountLoading {
  import opened Wrappers
  import opened Schema
  import opened Relational
  import opened Statements
  import opened Entities
  import opened LeafQueries
  import opened Agreement
  import opened EagerLoading

  ghost function BadTreeFields(t: Option<AccountTree>): set<Column> {
    if t.Some? then BadAccountFields(t.value.fields, t.value.edges) else {}
  }

  ghost function BadJoinTreeFields(t: Option<JoinTree>): set<Column> {
    if t.Some? then BadJoinFields(t.value.fields, t.value.edges) else {}
  }

  ghost predicate Apart(leaves: set<object>, a: set<object>, b: set<object>, c: set<object>) {
    leaves !! a && leaves !! b && leaves !! c && a !! b && a !! c && b !! c
  }

  // ----- to-one edges to accounts -----

  method AssignParents(nodes: seq<Account>, nodeids: map<int, seq<Account>>, neighbors: seq<Account>,
                       ghost ids: seq<int>)
    returns (err: Option<LoadError>)
    requires Grouped(nodes, ParentKey, ids, nodeids)
    requires IDsKept(neighbors)
    requires forall n | n in nodes :: n.parent == null
    modifies NodeSet(nodes)`parent
    ensures (forall nb | nb in neighbors :: nb.origin.id in ids) ==> err.None?
    ensures err.None? ==> forall n | n in nodes :: n.parent == PickAccount(neighbors, ParentKey(n))
  {
    for k := 0 to |neighbors|
      invariant forall n | n in nodes :: n.parent == PickAccount(neighbors[..k], ParentKey(n))
    {
      var nb := neighbors[k];
      assert nb in neighbors;
      assert neighbors[..k + 1] == neighbors[..k] + [nb];
      if nb.data.id !in nodeids {
        return Some(UnexpectedForeignKey(nb.data.id));
      }
      forall n | n in nodes {
        PickAccountAppend(neighbors[..k], nb, ParentKey(n));
      }
      var list := nodeids[nb.data.id];
      label Inner:
      for i := 0 to |list|
        invariant forall n | n in list[..i] :: n.parent == nb
        invariant forall n | n in nodes && n !in list[..i] :: n.parent == old@Inner(n.parent)
      {
        list[i].parent := nb;
      }
      assert list[..|list|] == list;
    }
    assert neighbors[..|neighbors|] == neighbors;
    err := None;
  }

  method AssignJoinAccounts(nodes: seq<AccountGroup>, nodeids: map<int, seq<AccountGroup>>, neighbors: seq<Account>,
                            ghost ids: seq<int>)
    returns (err: Option<LoadError>)
    requires Grouped(nodes, JoinAccountKey, ids, nodeids)
    requires IDsKept(neighbors)
    requires forall n | n in nodes :: n.account == null
    modifies JoinSet(nodes)`account
    ensures (forall nb | nb in neighbors :: nb.origin.id in ids) ==> err.None?
    ensures err.None? ==> forall n | n in nodes :: n.account == PickAccount(neighbors, JoinAccountKey(n))
  {
    for k := 0 to |neighbors|
      invariant forall n | n in nodes :: n.account == PickAccount(neighbors[..k], JoinAccountKey(n))
    {
      var nb := neighbors[k];
      assert nb in neighbors;
      assert neighbors[..k + 1] == neighbors[..k] + [nb];
      if nb.data.id !in nodeids {
        return Some(UnexpectedForeignKey(nb.data.id));
      }
      forall n | n in nodes {
        PickAccountAppend(neighbors[..k], nb, JoinAccountKey(n));
      }
      var list := nodeids[nb.data.id];
      label Inner:
      for i := 0 to |list|
        invariant forall n | n in list[..i] :: n.account == nb
        invariant forall n | n in nodes && n !in list[..i] :: n.account == old@Inner(n.account)
      {
        list[i].account := nb;
      }
      assert list[..|list|] == list;
    }
    assert neighbors[..|neighbors|] == neighbors;
    err := None;
  }

  // ----- the to-many edge to accounts -----

  method AssignChildren(nodes: seq<Account>, nodeids: map<int, Account>, neighbors: seq<Account>, ghost fks: seq<int>)
    returns (err: Option<LoadError>)
    requires Indexed(nodes, fks, nodeids)
    requires forall n | n in nodes :: n.children == []
    requires forall nb | nb in neighbors :: nb.data.parentAccountID == ParentKey(nb)
    modifies NodeSet(nodes)`children
    ensures (forall nb | nb in neighbors :: ParentKey(nb).Some? && ParentKey(nb).value in fks) ==> err.None?
    ensures err.None? ==> forall n | n in nodes :: n.children == With(neighbors, ParentKey, n.origin.id)
  {
    hide With;
    WithNothing(ParentKey);
    for k := 0 to |neighbors|
      invariant forall n | n in nodes :: n.children == With(neighbors[..k], ParentKey, n.origin.id)
    {
      var nb := neighbors[k];
      assert neighbors[..k + 1] == neighbors[..k] + [nb];
      if nb.data.parentAccountID.None? {
        return Some(NilForeignKey(nb.data.id));
      }
      var fk := nb.data.parentAccountID.value;
      if fk !in nodeids {
        return Some(UnexpectedForeignKey(fk));
      }
      forall id {
        WithAppend(neighbors[..k], nb, ParentKey, id);
      }
      nodeids[fk].children := nodeids[fk].children + [nb];
    }
    assert neighbors[..|neighbors|] == neighbors;
    err := None;
  }

  /** Nodes scanned from rows, one by one, with the graphs that are due. */
  ghost predicate Scanned(nodes: seq<Account>, rows: seq<AccountRow>, e: AccountEdges, fields: seq<Column>, db: Tables) {
    && |nodes| == |rows| && NoDup(nodes) && (forall i | 0 <= i < |rows| :: nodes[i].origin == rows[i])
    && Represent(nodes, e, fields, db)
  }

  ghost predicate IDsKept(nodes: seq<Account>)
    reads nodes
  {
    forall n | n in nodes :: n.data.id == n.origin.id
  }

  ghost predicate ParentsKept(nodes: seq<Account>)
    reads nodes
  {
    forall n | n in nodes :: n.data.parentAccountID == ParentKey(n)
  }

  lemma {:induction false} CompleteKeepsIDs(nodes: seq<Account>, e: AccountEdges, fields: seq<Column>, db: Tables,
                                            g: Graph)
    requires Complete(g) && NodeSet(nodes) <= g.accounts && Represent(nodes, e, fields, db)
    ensures IDsKept(nodes)
  {
    NeededColumnsKept(fields, LoadedOf(e));
    forall n | n in nodes ensures n.data.id == n.origin.id {
      assert n in g.accounts;
    }
  }

  lemma {:induction false} CompleteKeepsParents(nodes: seq<Account>, e: AccountEdges, fields: seq<Column>, db: Tables,
                                                g: Graph)
    requires Complete(g) && NodeSet(nodes) <= g.accounts
    requires Represent(nodes, e, WithForeignKey(fields, ParentAccountID), db)
    ensures ParentsKept(nodes)
  {
    NeededColumnsKept(fields, LoadedOf(e));
    forall n | n in nodes ensures n.data.parentAccountID == ParentKey(n) {
      assert n in g.accounts;
    }
  }

  lemma {:induction false} ChildrenWanted(neighbors: seq<Account>, rows: seq<AccountRow>, ps: seq<AccountPred>,
                                          fks: seq<int>, db: Tables)
    requires Enumerates(rows, MatchingAccounts(ps + [ParentIn(fks)], db))
    requires |neighbors| == |rows| && forall i | 0 <= i < |rows| :: neighbors[i].origin == rows[i]
    ensures forall nb | nb in neighbors :: ParentKey(nb).Some? && ParentKey(nb).value in fks
  {
    forall nb | nb in neighbors ensures ParentKey(nb).Some? && ParentKey(nb).value in fks {
      var j :| 0 <= j < |neighbors| && neighbors[j] == nb;
      assert rows[j] in rows;
      AccountMatchAnd(ps, ParentIn(fks), rows[j]);
    }
  }

  lemma {:induction false} ChildrenListsAgree(nodes: seq<Account>, neighbors: seq<Account>, rows: seq<AccountRow>,
                                              t: AccountTree, db: Tables, fks: seq<int>)
    requires Enumerates(rows, MatchingAccounts(t.preds + [ParentIn(fks)], db))
    requires Scanned(neighbors, rows, t.edges, WithForeignKey(t.fields, ParentAccountID), db)
    requires UniqueAccounts(db.accounts) && forall n | n in nodes :: n.origin.id in fks
    ensures ChildrenRight(nodes, neighbors, Some(t), db)
  {
    AccountsOnce(neighbors, rows, t.edges, WithForeignKey(t.fields, ParentAccountID), db);
    forall n | n in nodes ensures AccountViews(With(neighbors, ParentKey, n.origin.id)) == NaiveChildren(Some(t), db, n.origin.id) {
      ChildrenAgree(neighbors, rows, t, db, fks, n.origin.id);
    }
  }

  // ----- the to-many edge to join rows -----

  method AssignAccountGroups(nodes: seq<Account>, nodeids: map<int, Account>, neighbors: seq<AccountGroup>,
                             ghost fks: seq<int>)
    returns (err: Option<LoadError>)
    requires Indexed(nodes, fks, nodeids)
    requires forall n | n in nodes :: n.accountGroups == []
    requires forall nb | nb in neighbors :: nb.data.accountID == nb.origin.accountID
    modifies NodeSet(nodes)`accountGroups
    ensures (forall nb | nb in neighbors :: nb.origin.accountID in fks) ==> err.None?
    ensures err.None? ==> forall n | n in nodes :: n.accountGroups == With(neighbors, JoinAccountKey, n.origin.id)
  {
    hide With;
    WithNothing(JoinAccountKey);
    for k := 0 to |neighbors|
      invariant forall n | n in nodes :: n.accountGroups == With(neighbors[..k], JoinAccountKey, n.origin.id)
    {
      var nb := neighbors[k];
      assert neighbors[..k + 1] == neighbors[..k] + [nb];
      var fk := nb.data.accountID;
      if fk !in nodeids {
        return Some(UnexpectedForeignKey(fk));
      }
      forall id {
        WithAppend(neighbors[..k], nb, JoinAccountKey, id);
      }
      nodeids[fk].accountGroups := nodeids[fk].accountGroups + [nb];
    }
    assert neighbors[..|neighbors|] == neighbors;
    err := None;
  }

  ghost predicate JoinsScanned(nodes: seq<AccountGroup>, rows: seq<JoinRow>, e: JoinEdges, fields: seq<Column>,
                               db: Tables) {
    && |nodes| == |rows| && NoDup(nodes) && (forall i | 0 <= i < |rows| :: nodes[i].origin == rows[i])
    && JoinsRepresent(nodes, e, fields, db)
  }

  ghost predicate OwnersKept(nodes: seq<AccountGroup>) {
    forall j | j in nodes :: j.data.accountID == j.origin.accountID
  }

  lemma {:induction false} CompleteKeepsOwners(nodes: seq<AccountGroup>, e: JoinEdges, fields: seq<Column>,
                                               db: Tables, g: Graph)
    requires Complete(g) && JoinSet(nodes) <= g.joins
    requires JoinsRepresent(nodes, e, WithForeignKey(fields, AccountID), db)
    ensures OwnersKept(nodes)
  {
    NeededJoinColumnsKept(fields, JoinLoadedOf(e));
    forall j | j in nodes ensures j.data.accountID == j.origin.accountID {
      assert j in g.joins;
    }
  }

  lemma {:induction false} JoinsWanted(neighbors: seq<AccountGroup>, rows: seq<JoinRow>, ps: seq<JoinPred>,
                                       fks: seq<int>, db: Tables)
    requires Enumerates(rows, MatchingJoins(ps + [JoinAccountIn(fks)], db))
    requires |neighbors| == |rows| && forall i | 0 <= i < |rows| :: neighbors[i].origin == rows[i]
    ensures forall nb | nb in neighbors :: nb.origin.accountID in fks
  {
    forall nb | nb in neighbors ensures nb.origin.accountID in fks {
      var j :| 0 <= j < |neighbors| && neighbors[j] == nb;
      assert rows[j] in rows;
      JoinMatchAnd(ps, JoinAccountIn(fks), rows[j]);
    }
  }

  lemma {:induction false} JoinListsAgree(nodes: seq<Account>, neighbors: seq<AccountGroup>, rows: seq<JoinRow>,
                                          t: JoinTree, db: Tables, fks: seq<int>)
    requires Enumerates(rows, MatchingJoins(t.preds + [JoinAccountIn(fks)], db))
    requires JoinsScanned(neighbors, rows, t.edges, WithForeignKey(t.fields, AccountID), db)
    requires forall n | n in nodes :: n.origin.id in fks
    ensures JoinsRight(nodes, neighbors, Some(t), db)
  {
    JoinsOnce(neighbors, rows);
    forall n | n in nodes ensures JoinViews(With(neighbors, JoinAccountKey, n.origin.id)) == NaiveJoins(Some(t), db, n.origin.id) {
      JoinsAgree(neighbors, rows, t, db, fks, n.origin.id);
    }
  }

  /** The check that prepareQuery makes: the first field that is no column, if any. */
  method InvalidColumn(fields: seq<Column>, columns: seq<Column>) returns (bad: Option<Column>)
    ensures bad.None? <==> ValidFields(fields, columns)
    ensures bad.Some? ==> BadField(bad.value, fields, columns)
  {
    for i := 0 to |fields|
      invariant forall k | 0 <= k < i :: fields[k] in columns
    {
      if fields[i] !in columns {
        return Some(fields[i]);
      }
    }
    bad := None;
  }

  /** Scans rows one after the other, as QueryNodes drives the ScanValues and Assign callbacks. */
  method NewNodes(columns: seq<Column>, rows: seq<AccountRow>, loaded: Loaded, ghost e: AccountEdges,
                  ghost fields: seq<Column>, ghost db: Tables) returns (nodes: seq<Account>)
    requires forall r | r in rows :: WellTyped(r)
    requires loaded == LoadedOf(e) && Cols(columns) == AccountColumnsOf(fields, loaded)
    ensures Scanned(nodes, rows, e, fields, db)
    ensures forall n | n in nodes :: fresh(n) && Unloaded(n)
  {
    hide WellTyped, NaiveAccount, AccountColumnsOf, LoadedOf, Cols, Unloaded;
    nodes := [];
    for i := 0 to |rows|
      invariant Scanned(nodes, rows[..i], e, fields, db)
      invariant forall n | n in nodes :: fresh(n) && Unloaded(n)
    {
      var node := NewNode(columns, rows[i], loaded, e, fields, db);
      nodes := nodes + [node];
    }
    assert rows[..|rows|] == rows;
  }

  /** The Assign callback of sqlAll: a node for one row, its selected columns filled in. */
  method NewNode(columns: seq<Column>, row: AccountRow, loaded: Loaded, ghost e: AccountEdges,
                 ghost fields: seq<Column>, ghost db: Tables) returns (node: Account)
    requires WellTyped(row) && loaded == LoadedOf(e) && Cols(columns) == AccountColumnsOf(fields, loaded)
    ensures fresh(node) && Unloaded(node)
    ensures node.origin == row && node.view == NaiveAccount(e, fields, db, row)
  {
    hide ProjectAccount, Cell, WellTyped, HasKind, ScanKind, AssignKind, AccountColumnsOf, Cols;
    forall c ensures Target(ScanKind(c), Cell(row, c)).Fits() {
      AssignExtendsProjection(row, {}, c);
    }
    var values := seq(|columns|, i requires 0 <= i < |columns| => Target(ScanKind(columns[i]), Cell(row, columns[i])));
    node := new Account(loaded, row, NaiveAccount(e, fields, db, row));
    ghost var n;
    var err;
    err, n := node.AssignValues(columns, values, row);
    assert err.None?;
  }

  method NewJoins(columns: seq<Column>, rows: seq<JoinRow>, loaded: JoinLoaded, ghost e: JoinEdges,
                  ghost fields: seq<Column>, ghost db: Tables)
    returns (nodes: seq<AccountGroup>)
    requires forall r | r in rows :: WellTypedJoin(r)
    requires loaded == JoinLoadedOf(e) && Cols(columns) == JoinColumnsOf(fields, loaded)
    ensures JoinsScanned(nodes, rows, e, fields, db)
    ensures forall j | j in nodes :: fresh(j) && JoinUnloaded(j)
  {
    hide WellTypedJoin;
    nodes := [];
    for i := 0 to |rows|
      invariant JoinsScanned(nodes, rows[..i], e, fields, db)
      invariant forall j | j in nodes :: fresh(j) && JoinUnloaded(j)
    {
      var data := ScanJoin(columns, rows[i]);
      var node := new AccountGroup(data, loaded, rows[i], NaiveJoin(e, fields, db, rows[i]));
      nodes := nodes + [node];
    }
    assert rows[..|rows|] == rows;
  }

  method ScanJoin(columns: seq<Column>, row: JoinRow) returns (data: JoinRow)
    requires WellTypedJoin(row)
    ensures data == ProjectJoin(row, Cols(columns))
  {
    hide ProjectJoin, JoinCell, WellTypedJoin, HasKind, JoinScanKind, JoinAssignKind, Cols;
    forall c ensures Target(JoinScanKind(c), JoinCell(row, c)).Fits() {
      AssignExtendsJoin(row, {}, c);
    }
    var values := seq(|columns|, i requires 0 <= i < |columns| => Target(JoinScanKind(columns[i]), JoinCell(row, columns[i])));
    ghost var n;
    var err;
    err, data, n := AccountGroup.AssignValues(columns, values, row);
    assert err.None?;
  }

  // ----- keys of scanned nodes -----

  /** The id and the foreign keys that the requested edges need are among the selected columns. */
  ghost predicate Keyed(nodes: seq<Account>, l: Loaded)
    reads nodes
  {
    forall n | n in nodes ::
      && n.data.id == n.origin.id
      && (l.proxy ==> n.data.proxyID == ProxyKey(n))
      && (l.owner ==> n.data.ownerUserID == OwnerKey(n))
      && (l.parent ==> n.data.parentAccountID == ParentKey(n))
  }

  lemma {:induction false} UnloadedKeepsKeys(nodes: seq<Account>, e: AccountEdges, fields: seq<Column>, db: Tables)
    requires Represent(nodes, e, fields, db) && forall n | n in nodes :: Unloaded(n)
    ensures Keyed(nodes, LoadedOf(e))
  {
    NeededColumnsKept(fields, LoadedOf(e));
  }

  // ----- putting the edges together -----

  /** The neighbours handed out along all edges of one query. */
  datatype Neighbors = Neighbors(leaves: LeafNeighbors, parents: seq<Account>, children: seq<Account>,
                                 logs: seq<UsageLog>, joins: seq<AccountGroup>)

  /** Handing out these neighbours gives every node what its own lookups would find. */
  ghost predicate EdgesRight(nodes: seq<Account>, found: Neighbors, e: AccountEdges, db: Tables) {
    && LeafEdgesRight(nodes, found.leaves, e.groups, e.proxy, e.owner, db)
    && AccountsRight(nodes, ParentKey, found.parents, e.parent, db)
    && ChildrenRight(nodes, found.children, e.children, db)
    && LogsRight(nodes, found.logs, e.usageLogs, db)
    && JoinsRight(nodes, found.joins, e.accountGroups, db)
  }

  ghost predicate LastAssigned(n: Account, kids: seq<Account>, logs: seq<UsageLog>, joins: seq<AccountGroup>)
    reads n`children, n`usageLogs, n`accountGroups
  {
    && n.children == With(kids, ParentKey, n.origin.id)
    && n.usageLogs == With(logs, LogKey, n.origin.id)
    && n.accountGroups == With(joins, JoinAccountKey, n.origin.id)
  }

  /** The neighbours have been handed out to n. */
  ghost predicate Assigned(n: Account, found: Neighbors)
    reads n
  {
    && LeafAssigned(n, found.leaves)
    && n.parent == PickAccount(found.parents, ParentKey(n))
    && LastAssigned(n, found.children, found.logs, found.joins)
  }

  /** The neighbours along edges that may be followed further belong to g. */
  ghost predicate NeighborsIn(found: Neighbors, g: Graph) {
    NodeSet(found.parents) <= g.accounts && NodeSet(found.children) <= g.accounts && JoinSet(found.joins) <= g.joins
  }

  lemma {:induction false} AssignedIsSettled(n: Account, nodes: seq<Account>, found: Neighbors, e: AccountEdges,
                                             fields: seq<Column>, db: Tables, g: Graph)
    requires n in nodes && EdgesRight(nodes, found, e, db) && Assigned(n, found) && NeighborsIn(found, g)
    requires n.view == NaiveAccount(e, fields, db, n.origin)
    requires n.data == n.view.data && n.loaded == n.view.loaded
    ensures Settled(n) && EdgesIn(n, g)
  {
  }

  lemma {:induction false} CompleteUnion(g: Graph, h: Graph)
    requires Complete(g) && Complete(h)
    ensures Complete(Union(g, h))
  {
    var u := Union(g, h);
    forall a | a in u.accounts ensures Settled(a) && EdgesIn(a, u) {
      assert EdgesIn(a, g) || EdgesIn(a, h);
    }
    forall j | j in u.joins ensures JoinSettled(j) && JoinEdgesIn(j, u) {
      assert JoinEdgesIn(j, g) || JoinEdgesIn(j, h);
    }
  }

  // ----- the roots of a run -----

  ghost function Origins(nodes: seq<Account>): set<AccountRow> {
    set n | n in nodes :: n.origin
  }

  ghost function JoinOrigins(nodes: seq<AccountGroup>): set<JoinRow> {
    set j | j in nodes :: j.origin
  }

  lemma {:induction false} OriginsAre(nodes: seq<Account>, rows: seq<AccountRow>, found: set<AccountRow>)
    requires Enumerates(rows, found) && |nodes| == |rows| && forall i | 0 <= i < |rows| :: nodes[i].origin == rows[i]
    ensures Origins(nodes) == found
  {
    forall r | r in found ensures r in Origins(nodes) {
      var i :| 0 <= i < |rows| && rows[i] == r;
      assert nodes[i] in nodes;
    }
    forall n | n in nodes ensures n.origin in found {
      var i :| 0 <= i < |nodes| && nodes[i] == n;
      assert rows[i] in rows;
    }
  }

  lemma {:induction false} JoinOriginsAre(nodes: seq<AccountGroup>, rows: seq<JoinRow>, found: set<JoinRow>)
    requires Enumerates(rows, found) && |nodes| == |rows| && forall i | 0 <= i < |rows| :: nodes[i].origin == rows[i]
    ensures JoinOrigins(nodes) == found
  {
    forall r | r in found ensures r in JoinOrigins(nodes) {
      var i :| 0 <= i < |rows| && rows[i] == r;
      assert nodes[i] in nodes;
    }
    forall n | n in nodes ensures n.origin in found {
      var i :| 0 <= i < |nodes| && nodes[i] == n;
      assert rows[i] in rows;
    }
  }

  lemma {:induction false} KeylessNodes(nodes: seq<Account>)
    ensures AllNil(nodes, ProxyKey) <==> Keyless(Origins(nodes), RowProxy)
    ensures AllNil(nodes, OwnerKey) <==> Keyless(Origins(nodes), RowOwner)
    ensures AllNil(nodes, ParentKey) <==> Keyless(Origins(nodes), RowParent)
  {
    forall n | n in nodes
      ensures n.origin in Origins(nodes) && ProxyKey(n) == RowProxy(n.origin)
      ensures OwnerKey(n) == RowOwner(n.origin) && ParentKey(n) == RowParent(n.origin)
    {
    }
  }

  // ----- what the restricted sub-queries ask for, as sets of rows -----

  lemma {:induction false} ParentsAsked(nodes: seq<Account>, ids: seq<int>, nodeids: map<int, seq<Account>>,
                                        t: AccountTree, db: Tables)
    requires Grouped(nodes, ParentKey, ids, nodeids)
    ensures MatchingAccounts(t.preds + [IDIn(ids)], db) == ParentRows(t, Origins(nodes), db)
  {
    hide AccountMatch, Grouped;
    forall x ensures AccountMatch(t.preds + [IDIn(ids)], x) <==>
      AccountMatch(t.preds, x) && exists r :: r in Origins(nodes) && r.parentAccountID == Some(x.id)
    {
      AccountMatchAnd(t.preds, IDIn(ids), x);
      GroupedKeys(nodes, ParentKey, ids, nodeids, x.id);
      if r :| r in Origins(nodes) && r.parentAccountID == Some(x.id) {
        var n :| n in nodes && n.origin == r;
        assert ParentKey(n) == Some(x.id);
      }
    }
  }

  lemma {:induction false} ChildrenAsked(nodes: seq<Account>, fks: seq<int>, t: AccountTree, db: Tables)
    requires forall k :: k in fks <==> k in NodeIDs(nodes)
    ensures MatchingAccounts(t.preds + [ParentIn(fks)], db) == ChildRows(t, Origins(nodes), db)
  {
    hide AccountMatch;
    forall x ensures AccountMatch(t.preds + [ParentIn(fks)], x) <==>
      AccountMatch(t.preds, x) && exists r :: r in Origins(nodes) && x.parentAccountID == Some(r.id)
    {
      AccountMatchAnd(t.preds, ParentIn(fks), x);
      OwnIDs(nodes, x.parentAccountID);
      if x.parentAccountID.Some? {
        var k: int := x.parentAccountID.value;
        assert k in fks <==> k in NodeIDs(nodes);
      }
    }
  }

  lemma {:induction false} OwnIDs(nodes: seq<Account>, k: Option<int>)
    ensures k.Some? && k.value in NodeIDs(nodes) <==> exists r :: r in Origins(nodes) && k == Some(r.id)
  {
    if k.Some? && k.value in NodeIDs(nodes) {
      var n :| n in nodes && n.origin.id == k.value;
      assert n.origin in Origins(nodes);
    }
  }

  lemma {:induction false} LinksAsked(nodes: seq<Account>, fks: seq<int>, t: JoinTree, db: Tables)
    requires forall k :: k in fks <==> k in NodeIDs(nodes)
    ensures MatchingJoins(t.preds + [JoinAccountIn(fks)], db) == LinkRows(t, Origins(nodes), db)
  {
    hide JoinMatch;
    forall j ensures JoinMatch(t.preds + [JoinAccountIn(fks)], j) <==>
      JoinMatch(t.preds, j) && exists r :: r in Origins(nodes) && r.id == j.accountID
    {
      JoinMatchAnd(t.preds, JoinAccountIn(fks), j);
      OwnIDs(nodes, Some(j.accountID));
    }
  }

  lemma {:induction false} LinkedAsked(nodes: seq<AccountGroup>, ids: seq<int>, nodeids: map<int, seq<AccountGroup>>,
                                       t: AccountTree, db: Tables)
    requires Grouped(nodes, JoinAccountKey, ids, nodeids)
    ensures MatchingAccounts(t.preds + [IDIn(ids)], db) == LinkedRows(t, JoinOrigins(nodes), db)
  {
    hide AccountMatch, Grouped;
    forall x ensures AccountMatch(t.preds + [IDIn(ids)], x) <==>
      AccountMatch(t.preds, x) && exists j :: j in JoinOrigins(nodes) && j.accountID == x.id
    {
      AccountMatchAnd(t.preds, IDIn(ids), x);
      GroupedKeys(nodes, JoinAccountKey, ids, nodeids, x.id);
      if j :| j in JoinOrigins(nodes) && j.accountID == x.id {
        var n :| n in nodes && n.origin == j;
        assert JoinAccountKey(n) == Some(x.id);
      }
    }
  }

  lemma {:induction false} DistinctIDs(nodes: seq<Account>, rows: seq<AccountRow>, ps: seq<AccountPred>, db: Tables)
    requires WellFormed(db) && Enumerates(rows, MatchingAccounts(ps, db))
    requires |nodes| == |rows| && forall i | 0 <= i < |rows| :: nodes[i].origin == rows[i]
    ensures OnePerID(nodes)
  {
    forall i, j | 0 <= i < j < |nodes| ensures nodes[i].origin.id != nodes[j].origin.id {
      assert rows[i] in rows && rows[j] in rows && !SameID(rows[i], rows[j]);
    }
  }

  /** The nodes of a run complete the graph of their neighbours. */
  ghost method WithRoots(nodes: seq<Account>, found: Neighbors, e: AccountEdges, fields: seq<Column>, db: Tables,
                         g: Graph)
    returns (h: Graph)
    requires Complete(g) && NeighborsIn(found, g) && EdgesRight(nodes, found, e, db)
    requires Represent(nodes, e, fields, db)
    requires forall n | n in nodes :: Assigned(n, found) && n.data == n.view.data && n.loaded == n.view.loaded
    ensures Complete(h) && h == Graph(g.accounts + NodeSet(nodes), g.joins)
  {
    h := Graph(g.accounts + NodeSet(nodes), g.joins);
    forall n | n in nodes ensures Settled(n) && EdgesIn(n, h) {
      AssignedIsSettled(n, nodes, found, e, fields, db, h);
    }
    forall a | a in g.accounts ensures Settled(a) && EdgesIn(a, h) {
      assert EdgesIn(a, g);
    }
    forall j | j in g.joins ensures JoinSettled(j) && JoinEdgesIn(j, h) {
      assert JoinEdgesIn(j, g);
    }
  }

  lemma {:induction false} UnloadedKeepsJoinKeys(nodes: seq<AccountGroup>, e: JoinEdges, fields: seq<Column>,
                                                 db: Tables)
    requires JoinsRepresent(nodes, e, fields, db) && forall j | j in nodes :: JoinUnloaded(j)
    ensures e.account.Some? ==> forall j | j in nodes :: Some(j.data.accountID) == JoinAccountKey(j)
    ensures e.group.Some? ==> forall j | j in nodes :: Some(j.data.groupID) == JoinGroupKey(j)
  {
    NeededJoinColumnsKept(fields, JoinLoadedOf(e));
  }

  ghost method WithJoinRoots(nodes: seq<AccountGroup>, accounts: seq<Account>, groups: seq<Leaf>, e: JoinEdges,
                             fields: seq<Column>, db: Tables, g: Graph)
    returns (h: Graph)
    requires Complete(g) && NodeSet(accounts) <= g.accounts && JoinsRepresent(nodes, e, fields, db)
    requires AccountsRight(nodes, JoinAccountKey, accounts, e.account, db)
    requires LeavesRight(nodes, JoinGroupKey, groups, e.group, db.groups)
    requires forall n | n in nodes :: n.account == PickAccount(accounts, JoinAccountKey(n)) && n.group == PickLeaf(groups, JoinGroupKey(n))
    requires forall n | n in nodes :: n.data == n.view.data && n.loaded == n.view.loaded
    ensures Complete(h) && h == Graph(g.accounts, g.joins + JoinSet(nodes))
  {
    h := Graph(g.accounts, g.joins + JoinSet(nodes));
    forall a | a in g.accounts ensures Settled(a) && EdgesIn(a, h) {
      assert EdgesIn(a, g);
    }
    forall j | j in nodes ensures JoinSettled(j) && JoinEdgesIn(j, h) {
    }
    forall j | j in g.joins ensures JoinSettled(j) && JoinEdgesIn(j, h) {
      assert JoinEdgesIn(j, g);
    }
  }
}
