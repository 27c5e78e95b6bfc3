/** Eager loading of edges to groups, proxies, users and usage logs: one statement per requested
    edge, whose rows are handed back to the nodes they belong to. */
module EagerLoading {
  import opened Wrappers
  import opened Schema
  import opened Relational
  import opened Entities
  import opened Mirrors
  import opened Drivers
  import opened LeafQueries
  import opened Agreement

  datatype LoadError =
    | DriverFailure
    | InvalidField(column: Column)
    | UnexpectedNode(id: int)
    | UnexpectedForeignKey(id: int)
    | NilForeignKey(id: int)

  /** An error a caller must expect: one statement has failed, or none has but a field is no column. */
  ghost predicate Excused(e: LoadError, failuresBefore: nat, failuresAfter: nat, bad: set<Column>) {
    match e
    case DriverFailure => failuresAfter == failuresBefore + 1
    case InvalidField(c) => failuresAfter == failuresBefore && c in bad
    case _ => false
  }

  // ----- optional sub-queries -----

  ghost function LeafParts(q: LeafQuery?): set<object> {
    if q == null then {} else {q}
  }

  ghost function LogParts(q: UsageLogQuery?): set<object> {
    if q == null then {} else {q}
  }

  ghost function LeafTreeOf(q: LeafQuery?): Option<LeafTree> {
    if q == null then None else Some(q.tree)
  }

  ghost function LogTreeOf(q: UsageLogQuery?): Option<LogTree> {
    if q == null then None else Some(q.tree)
  }

  /** The builder has not been restricted to a parent's nodes yet. */
  ghost predicate LeafReady(q: LeafQuery?, table: LeafTable)
    reads LeafParts(q)
  {
    q == null || (q.table == table && q.AsConfigured())
  }

  /** Nor has it a limit, which would count over all nodes together. */
  ghost predicate LogReady(q: UsageLogQuery?)
    reads LogParts(q)
  {
    q == null || (q.limit == 0 && q.AsConfigured())
  }

  ghost function NodeIDs(nodes: seq<Account>): set<int> {
    set n | n in nodes :: n.origin.id
  }

  ghost predicate OnePerID(nodes: seq<Account>) {
    forall i, j | 0 <= i < j < |nodes| :: nodes[i].origin.id != nodes[j].origin.id
  }

  ghost predicate AllNil<N>(nodes: seq<N>, key: N -> Option<int>) {
    forall n | n in nodes :: key(n).None?
  }

  // ----- to-one edges to leaf entities -----

  lemma {:induction false} LeavesMirror<N>(nodes: seq<N>, key: N -> Option<int>, neighbors: seq<Leaf>,
                                           t: Option<LeafTree>, table: set<LeafRow>)
    requires UniqueLeaves(table) && LeavesRight(nodes, key, neighbors, t, table)
    ensures forall n | n in nodes :: LeafMirrors(PickLeaf(neighbors, key(n)), t, table, key(n))
  {
    hide LeafMirrors;
    forall n | n in nodes ensures LeafMirrors(PickLeaf(neighbors, key(n)), t, table, key(n)) {
      LeafMirrored(PickLeaf(neighbors, key(n)), t, table, key(n));
    }
  }

  method AssignProxies(nodes: seq<Account>, nodeids: map<int, seq<Account>>, neighbors: seq<Leaf>, ghost ids: seq<int>)
    returns (err: Option<LoadError>)
    requires Grouped(nodes, ProxyKey, ids, nodeids)
    requires forall n | n in nodes :: n.proxy == null
    modifies NodeSet(nodes)`proxy
    ensures (forall nb | nb in neighbors :: nb.row.id in ids) ==> err.None?
    ensures err.None? ==> forall n | n in nodes :: n.proxy == PickLeaf(neighbors, ProxyKey(n))
  {
    for k := 0 to |neighbors|
      invariant forall n | n in nodes :: n.proxy == PickLeaf(neighbors[..k], ProxyKey(n))
    {
      var nb := neighbors[k];
      assert neighbors[..k + 1] == neighbors[..k] + [nb];
      if nb.row.id !in nodeids {
        return Some(UnexpectedForeignKey(nb.row.id));
      }
      forall n | n in nodes {
        PickLeafAppend(neighbors[..k], nb, ProxyKey(n));
      }
      var list := nodeids[nb.row.id];
      label Inner:
      for i := 0 to |list|
        invariant forall n | n in list[..i] :: n.proxy == nb
        invariant forall n | n in nodes && n !in list[..i] :: n.proxy == old@Inner(n.proxy)
      {
        list[i].proxy := nb;
      }
      assert list[..|list|] == list;
    }
    assert neighbors[..|neighbors|] == neighbors;
    err := None;
  }

  method LoadProxy(query: LeafQuery?, nodes: seq<Account>, db: Driver)
    returns (err: Option<LoadError>, ghost neighbors: seq<Leaf>)
    requires LeafReady(query, Proxies) && WellFormed(db.tables)
    requires forall n | n in nodes :: n.proxy == null && (query != null ==> n.data.proxyID == ProxyKey(n))
    modifies LeafParts(query), NodeSet(nodes)`proxy, db
    ensures db.queries == old(db.queries) + OneIf(query != null && !AllNil(nodes, ProxyKey))
    ensures err.Some? ==> err.value.DriverFailure? && db.failures == old(db.failures) + 1
    ensures err.None? ==> db.failures == old(db.failures)
    ensures err.None? ==> LeavesRight(nodes, ProxyKey, neighbors, LeafTreeOf(query), db.tables.proxies)
    ensures err.None? ==> forall n | n in nodes :: n.proxy == PickLeaf(neighbors, ProxyKey(n))
    ensures err.None? ==> forall n | n in nodes :: LeafMirrors(n.proxy, LeafTreeOf(query), db.tables.proxies, ProxyKey(n))
  {
    neighbors := [];
    if query == null {
      return None, neighbors;
    }
    var keys := seq(|nodes|, (i: nat) requires i < |nodes| reads NodeSet(nodes) => nodes[i].data.proxyID);
    var ids, nodeids := GroupByKey(nodes, keys, ProxyKey);
    if |ids| == 0 {
      return None, neighbors;
    }
    SomeKey(nodes, ProxyKey, ids, nodeids);
    var ok, found := query.AllByID(ids, db);
    if !ok {
      return Some(DriverFailure), neighbors;
    }
    neighbors := found;
    err := AssignProxies(nodes, nodeids, found, ids);
    LeavesAgree(nodes, ProxyKey, found, query.tree, db.tables.proxies, ids);
    LeavesMirror(nodes, ProxyKey, found, Some(query.tree), db.tables.proxies);
  }

  method AssignOwners(nodes: seq<Account>, nodeids: map<int, seq<Account>>, neighbors: seq<Leaf>, ghost ids: seq<int>)
    returns (err: Option<LoadError>)
    requires Grouped(nodes, OwnerKey, ids, nodeids)
    requires forall n | n in nodes :: n.owner == null
    modifies NodeSet(nodes)`owner
    ensures (forall nb | nb in neighbors :: nb.row.id in ids) ==> err.None?
    ensures err.None? ==> forall n | n in nodes :: n.owner == PickLeaf(neighbors, OwnerKey(n))
  {
    for k := 0 to |neighbors|
      invariant forall n | n in nodes :: n.owner == PickLeaf(neighbors[..k], OwnerKey(n))
    {
      var nb := neighbors[k];
      assert neighbors[..k + 1] == neighbors[..k] + [nb];
      if nb.row.id !in nodeids {
        return Some(UnexpectedForeignKey(nb.row.id));
      }
      forall n | n in nodes {
        PickLeafAppend(neighbors[..k], nb, OwnerKey(n));
      }
      var list := nodeids[nb.row.id];
      label Inner:
      for i := 0 to |list|
        invariant forall n | n in list[..i] :: n.owner == nb
        invariant forall n | n in nodes && n !in list[..i] :: n.owner == old@Inner(n.owner)
      {
        list[i].owner := nb;
      }
      assert list[..|list|] == list;
    }
    assert neighbors[..|neighbors|] == neighbors;
    err := None;
  }

  method LoadOwner(query: LeafQuery?, nodes: seq<Account>, db: Driver)
    returns (err: Option<LoadError>, ghost neighbors: seq<Leaf>)
    requires LeafReady(query, Users) && WellFormed(db.tables)
    requires forall n | n in nodes :: n.owner == null && (query != null ==> n.data.ownerUserID == OwnerKey(n))
    modifies LeafParts(query), NodeSet(nodes)`owner, db
    ensures db.queries == old(db.queries) + OneIf(query != null && !AllNil(nodes, OwnerKey))
    ensures err.Some? ==> err.value.DriverFailure? && db.failures == old(db.failures) + 1
    ensures err.None? ==> db.failures == old(db.failures)
    ensures err.None? ==> LeavesRight(nodes, OwnerKey, neighbors, LeafTreeOf(query), db.tables.users)
    ensures err.None? ==> forall n | n in nodes :: n.owner == PickLeaf(neighbors, OwnerKey(n))
    ensures err.None? ==> forall n | n in nodes :: LeafMirrors(n.owner, LeafTreeOf(query), db.tables.users, OwnerKey(n))
  {
    neighbors := [];
    if query == null {
      return None, neighbors;
    }
    var keys := seq(|nodes|, (i: nat) requires i < |nodes| reads NodeSet(nodes) => nodes[i].data.ownerUserID);
    var ids, nodeids := GroupByKey(nodes, keys, OwnerKey);
    if |ids| == 0 {
      return None, neighbors;
    }
    SomeKey(nodes, OwnerKey, ids, nodeids);
    var ok, found := query.AllByID(ids, db);
    if !ok {
      return Some(DriverFailure), neighbors;
    }
    neighbors := found;
    err := AssignOwners(nodes, nodeids, found, ids);
    LeavesAgree(nodes, OwnerKey, found, query.tree, db.tables.users, ids);
    LeavesMirror(nodes, OwnerKey, found, Some(query.tree), db.tables.users);
  }

  // ----- to-many edges to leaf entities -----

  /** Indexes nodes by id. */
  method IndexByID(nodes: seq<Account>) returns (fks: seq<int>, nodeids: map<int, Account>)
    requires forall n | n in nodes :: n.data.id == n.origin.id
    requires OnePerID(nodes)
    ensures Indexed(nodes, fks, nodeids) && forall k :: k in fks <==> k in NodeIDs(nodes)
  {
    fks, nodeids := [], map[];
    for i := 0 to |nodes|
      invariant Indexed(nodes[..i], fks, nodeids)
    {
      assert nodes[..i + 1] == nodes[..i] + [nodes[i]];
      fks := fks + [nodes[i].data.id];
      nodeids := nodeids[nodes[i].data.id := nodes[i]];
    }
    assert nodes[..|nodes|] == nodes;
    forall k | k in fks ensures k in NodeIDs(nodes) {
      assert nodeids[k] in nodes;
    }
  }

  ghost predicate Indexed(nodes: seq<Account>, fks: seq<int>, nodeids: map<int, Account>) {
    && (forall n | n in nodes :: n.origin.id in nodeids && nodeids[n.origin.id] == n)
    && (forall k | k in nodeids :: nodeids[k] in nodes && nodeids[k].origin.id == k)
    && (forall k :: k in nodeids <==> k in fks)
  }

  method AssignUsageLogs(nodes: seq<Account>, nodeids: map<int, Account>, neighbors: seq<UsageLog>, ghost fks: seq<int>)
    returns (err: Option<LoadError>)
    requires Indexed(nodes, fks, nodeids)
    requires forall n | n in nodes :: n.usageLogs == []
    modifies NodeSet(nodes)`usageLogs
    ensures (forall nb | nb in neighbors :: nb.row.accountID in fks) ==> err.None?
    ensures err.None? ==> forall n | n in nodes :: n.usageLogs == With(neighbors, LogKey, n.origin.id)
  {
    hide With;
    WithNothing(LogKey);
    for k := 0 to |neighbors|
      invariant forall n | n in nodes :: n.usageLogs == With(neighbors[..k], LogKey, n.origin.id)
    {
      var nb := neighbors[k];
      assert neighbors[..k + 1] == neighbors[..k] + [nb];
      var fk := nb.row.accountID;
      if fk !in nodeids {
        return Some(UnexpectedForeignKey(fk));
      }
      forall id {
        WithAppend(neighbors[..k], nb, LogKey, id);
      }
      nodeids[fk].usageLogs := nodeids[fk].usageLogs + [nb];
    }
    assert neighbors[..|neighbors|] == neighbors;
    err := None;
  }

  /** The rows that the sub-query asks for on behalf of the nodes, if it has no limit. */
  ghost predicate WantedLogs(all: seq<LogRow>, nodes: seq<Account>, t: LogTree, table: set<LogRow>) {
    Enumerates(all, set r | r in table && LogMatch(t.preds, r) && r.accountID in NodeIDs(nodes))
  }

  /** The neighbours are those rows in that order, as far as the limit lets them through. */
  ghost predicate LimitedTo(stream: seq<UsageLog>, all: seq<LogRow>, t: LogTree, limit: nat) {
    var rows := Cut(all, limit);
    |stream| == |rows| && forall i | 0 <= i < |rows| :: stream[i].row == ProjectLog(rows[i], WithForeignKey(t.fields, AccountID))
  }

  /** Besides what each node gets, the nodes' lists are the stream of all neighbours, sorted by
      owner and in order. With a limit the stream is cut before it is handed out. */
  method LoadUsageLogs(query: UsageLogQuery?, nodes: seq<Account>, db: Driver)
    returns (err: Option<LoadError>, ghost stream: seq<UsageLog>, ghost all: seq<LogRow>)
    requires query == null || query.AsConfigured()
    requires UniqueLogs(db.tables.logs)
    requires forall n | n in nodes :: n.data.id == n.origin.id && n.usageLogs == []
    requires OnePerID(nodes)
    modifies LogParts(query), NodeSet(nodes)`usageLogs, db
    ensures db.queries == old(db.queries) + OneIf(query != null)
    ensures err.Some? ==> err.value.DriverFailure? && db.failures == old(db.failures) + 1
    ensures err.None? ==> db.failures == old(db.failures)
    ensures err.None? && old(LogReady(query)) ==> LogsRight(nodes, stream, LogTreeOf(query), db.tables)
    ensures err.None? && old(LogReady(query)) ==>
              forall n | n in nodes :: LogsMirror(n.usageLogs, LogTreeOf(query), db.tables, n.origin.id)
    ensures err.None? && query != null ==>
              WantedLogs(all, nodes, query.tree, db.tables.logs) && LimitedTo(stream, all, query.tree, query.limit)
    ensures err.None? ==> NoDup(stream) && forall n | n in nodes :: n.usageLogs == With(stream, LogKey, n.origin.id)
    ensures err.None? ==> forall l | l in stream :: l.row.accountID in NodeIDs(nodes)
  {
    stream, all := [], [];
    if query == null {
      return None, stream, all;
    }
    var fks, nodeids := IndexByID(nodes);
    forall n | n in nodes {
      n.usageLogs := [];
    }
    var ok, neighbors, rows, found := query.AllByAccount(fks, db);
    stream, all := neighbors, found;
    if !ok {
      return Some(DriverFailure), stream, all;
    }
    LogsWanted(nodes, stream, all, query.tree, query.limit, db.tables.logs, fks);
    err := AssignUsageLogs(nodes, nodeids, neighbors, fks);
    if query.limit == 0 {
      UnlimitedLogs(nodes, stream, all, query.tree, db.tables, fks);
      LogListsMirror(nodes, stream, query.tree, db.tables);
    }
  }

  lemma {:induction false} LogListsMirror(nodes: seq<Account>, stream: seq<UsageLog>, t: LogTree, db: Tables)
    requires UniqueLogs(db.logs) && LogsRight(nodes, stream, Some(t), db)
    ensures forall n | n in nodes :: LogsMirror(With(stream, LogKey, n.origin.id), Some(t), db, n.origin.id)
  {
    hide LogsMirror;
    forall n | n in nodes ensures LogsMirror(With(stream, LogKey, n.origin.id), Some(t), db, n.origin.id) {
      LogsMirrored(With(stream, LogKey, n.origin.id), Some(t), db, n.origin.id);
    }
  }

  lemma {:induction false} LogsWanted(nodes: seq<Account>, stream: seq<UsageLog>, all: seq<LogRow>, t: LogTree,
                                      limit: nat, table: set<LogRow>, fks: seq<int>)
    requires Enumerates(all, set r | r in table && LogMatch(t.preds + [LogAccountIn(fks)], r))
    requires LimitedTo(stream, all, t, limit) && forall k :: k in fks <==> k in NodeIDs(nodes)
    ensures WantedLogs(all, nodes, t, table)
    ensures forall l | l in stream :: l.row.accountID in fks
  {
    hide LogMatch, NodeIDs, NoDup;
    forall r ensures LogMatch(t.preds + [LogAccountIn(fks)], r) <==> LogMatch(t.preds, r) && r.accountID in NodeIDs(nodes) {
      LogMatchAnd(t.preds, LogAccountIn(fks), r);
    }
    forall l | l in stream ensures l.row.accountID in fks {
      var i :| 0 <= i < |stream| && stream[i] == l;
      assert Cut(all, limit)[i] in all;
    }
  }

  lemma {:induction false} UnlimitedLogs(nodes: seq<Account>, stream: seq<UsageLog>, all: seq<LogRow>, t: LogTree,
                                         db: Tables, fks: seq<int>)
    requires Enumerates(all, set r | r in db.logs && LogMatch(t.preds + [LogAccountIn(fks)], r)) && UniqueLogs(db.logs)
    requires LimitedTo(stream, all, t, 0) && NoDup(stream) && forall k :: k in fks <==> k in NodeIDs(nodes)
    ensures LogsRight(nodes, stream, Some(t), db)
  {
    LogsOnce(stream, all, db.logs, WithForeignKey(t.fields, AccountID));
    forall n | n in nodes ensures LogRows(With(stream, LogKey, n.origin.id)) == NaiveLogs(Some(t), db, n.origin.id) {
      LogsAgree(stream, all, t, db, fks, n.origin.id);
    }
  }

  /** The hook that loadGroups puts around the scan: only the first row of each group becomes a
      node, and for each group the accounts that its rows name are collected. */
  method ScanGroups(rows: seq<(int, LeafRow)>, nodes: seq<Account>, byID: map<int, Account>, ghost fks: seq<int>)
    returns (firsts: seq<LeafRow>, nids: map<int, set<Account>>)
    requires Indexed(nodes, fks, byID)
    requires forall i | 0 <= i < |rows| :: rows[i].0 in fks
    ensures firsts == FirstAppearances(rows)
    ensures forall id :: id in nids <==> HasID(firsts, id)
    ensures Linking(rows, nodes, nids)
  {
    hide Linking, Indexed, HasID, FirstAppearances;
    firsts, nids := [], map[];
    NothingLinked(nodes);
    for i := 0 to |rows|
      invariant firsts == FirstAppearances(rows[..i])
      invariant forall id :: id in nids <==> HasID(firsts, id)
      invariant Linking(rows[..i], nodes, nids)
    {
      var outValue, inValue := rows[i].0, rows[i].1.id;
      assert rows[..i + 1] == rows[..i] + [rows[i]];
      FirstAppearancesAppend(rows[..i], rows[i]);
      OneNodeWithID(nodes, fks, byID, outValue);
      LinkingStep(rows[..i], rows[i], nodes, nids, byID[outValue]);
      if inValue !in nids {
        HasIDAppend(firsts, rows[i].1);
        assert {} + {byID[outValue]} == {byID[outValue]};
        nids := nids[inValue := {byID[outValue]}];
        firsts := firsts + [rows[i].1];
      } else {
        nids := nids[inValue := nids[inValue] + {byID[outValue]}];
      }
    }
    assert rows[..|rows|] == rows;
  }

  lemma {:induction false} NothingLinked(nodes: seq<Account>)
    ensures FirstAppearances([]) == [] && Linking([], nodes, map[]) && forall id :: !HasID([], id)
  {
  }

  lemma {:induction false} OneNodeWithID(nodes: seq<Account>, fks: seq<int>, nodeids: map<int, Account>, id: int)
    requires Indexed(nodes, fks, nodeids) && id in fks
    ensures id in nodeids && nodeids[id] in nodes && nodeids[id].origin.id == id
    ensures forall n | n in nodes && n.origin.id == id :: n == nodeids[id]
  {
  }

  /** nids holds, per group id of the stream, the accounts the stream links to it. */
  ghost predicate Linking(stream: seq<(int, LeafRow)>, nodes: seq<Account>, nids: map<int, set<Account>>) {
    && (forall i | 0 <= i < |stream| :: stream[i].1.id in nids)
    && (forall id, n | id in nids && n in nids[id] :: n in nodes && Appears(stream, n.origin.id, id))
    && (forall id, n | id in nids && n in nodes && Appears(stream, n.origin.id, id) :: n in nids[id])
  }

  lemma {:induction false} LinkingStep(stream: seq<(int, LeafRow)>, x: (int, LeafRow), nodes: seq<Account>,
                                       nids: map<int, set<Account>>, a: Account)
    requires Linking(stream, nodes, nids)
    requires a in nodes && a.origin.id == x.0 && forall n | n in nodes && n.origin.id == x.0 :: n == a
    ensures Linking(stream + [x], nodes,
                    nids[x.1.id := (if x.1.id in nids then nids[x.1.id] else {}) + {a}])
  {
    var longer := stream + [x];
    assert longer[|stream|] == x;
    assert forall i | 0 <= i < |stream| :: longer[i] == stream[i];
    forall id, n: Account | Appears(longer, n.origin.id, id)
      ensures Appears(stream, n.origin.id, id) || (n.origin.id == x.0 && id == x.1.id)
    {
    }
    forall aid, id | Appears(stream, aid, id) ensures Appears(longer, aid, id) {
      var i :| 0 <= i < |stream| && stream[i].0 == aid && stream[i].1.id == id;
      assert longer[i].0 == aid;
    }
    assert Appears(longer, x.0, x.1.id);
  }

  /** Appends each group to the accounts linked to it; the accounts of a group are visited in
      any order. */
  method AssignGroups(nodes: seq<Account>, nids: map<int, set<Account>>, neighbors: seq<Leaf>,
                      ghost stream: seq<(int, LeafRow)>)
    returns (err: Option<LoadError>)
    requires Linking(stream, nodes, nids)
    requires forall n | n in nodes :: n.groups == []
    modifies NodeSet(nodes)`groups
    ensures (forall nb | nb in neighbors :: nb.row.id in nids) ==> err.None?
    ensures err.None? ==> forall n | n in nodes :: n.groups == GroupsOf(neighbors, stream, n.origin.id)
  {
    for k := 0 to |neighbors|
      invariant forall n | n in nodes :: n.groups == GroupsOf(neighbors[..k], stream, n.origin.id)
    {
      var nb := neighbors[k];
      assert neighbors[..k + 1] == neighbors[..k] + [nb];
      if nb.row.id !in nids {
        return Some(UnexpectedNode(nb.row.id));
      }
      forall id {
        GroupsOfAppend(neighbors[..k], nb, stream, id);
      }
      AppendGroup(nodes, nids[nb.row.id], nb);
    }
    assert neighbors[..|neighbors|] == neighbors;
    err := None;
  }

  method AppendGroup(nodes: seq<Account>, linked: set<Account>, nb: Leaf)
    requires linked <= NodeSet(nodes)
    modifies NodeSet(nodes)`groups
    ensures forall n | n in nodes :: n.groups == old(n.groups) + (if n in linked then [nb] else [])
  {
    var rest := linked;
    while rest != {}
      invariant rest <= linked
      invariant forall n | n in nodes :: n.groups == old(n.groups) + (if n in linked - rest then [nb] else [])
      decreases rest
    {
      var kn :| kn in rest;
      kn.groups := kn.groups + [nb];
      rest := rest - {kn};
    }
  }

  /** Besides what each node gets: its groups are the distinct groups of the row stream that the
      stream links to it, in the order in which the stream first shows them. */
  method LoadGroups(query: LeafQuery?, nodes: seq<Account>, db: Driver)
    returns (err: Option<LoadError>, ghost stream: seq<(int, LeafRow)>, ghost neighbors: seq<Leaf>)
    requires LeafReady(query, Groups) && WellFormed(db.tables)
    requires forall n | n in nodes :: n.data.id == n.origin.id && n.groups == []
    requires OnePerID(nodes)
    modifies NodeSet(nodes)`groups, db
    ensures db.queries == old(db.queries) + OneIf(query != null)
    ensures err.Some? ==> err.value.DriverFailure? && db.failures == old(db.failures) + 1
    ensures err.None? ==> db.failures == old(db.failures)
    ensures err.None? ==> GroupsRight(nodes, neighbors, stream, LeafTreeOf(query), db.tables)
    ensures err.None? ==> forall n | n in nodes :: n.groups == GroupsOf(neighbors, stream, n.origin.id)
    ensures err.None? ==> forall n | n in nodes :: GroupsMirror(n.groups, LeafTreeOf(query), db.tables, n.origin.id)
    ensures err.None? && query != null ==>
      && |neighbors| == |FirstAppearances(stream)|
      && (forall i | 0 <= i < |neighbors| :: neighbors[i].row == ProjectLeaf(FirstAppearances(stream)[i], query.tree.fields))
  {
    stream, neighbors := [], [];
    if query == null {
      return None, stream, neighbors;
    }
    ghost var t := query.tree;
    var edgeIDs, byID := IndexByID(nodes);
    forall n | n in nodes {
      n.groups := [];
    }
    var ok, rows := db.QueryJoinedGroups(query.predicates, edgeIDs);
    stream := rows;
    if !ok {
      return Some(DriverFailure), stream, neighbors;
    }
    var firsts, nids := ScanGroups(rows, nodes, byID, edgeIDs);
    var found := query.Nodes(firsts);
    neighbors := found;
    GroupsOnce(found, rows, t.fields);
    err := AssignGroups(nodes, nids, found, rows);
    forall n | n in nodes ensures LeafRows(GroupsOf(found, rows, n.origin.id)) == NaiveGroups(Some(t), db.tables, n.origin.id) {
      GroupsAgree(found, rows, t, db.tables, edgeIDs, n.origin.id);
    }
    GroupListsMirror(nodes, found, rows, t, db.tables);
  }

  lemma {:induction false} GroupListsMirror(nodes: seq<Account>, neighbors: seq<Leaf>, stream: seq<(int, LeafRow)>,
                                            t: LeafTree, db: Tables)
    requires UniqueLeaves(db.groups) && GroupsRight(nodes, neighbors, stream, Some(t), db)
    ensures forall n | n in nodes :: GroupsMirror(GroupsOf(neighbors, stream, n.origin.id), Some(t), db, n.origin.id)
  {
    hide GroupsMirror;
    forall n | n in nodes ensures GroupsMirror(GroupsOf(neighbors, stream, n.origin.id), Some(t), db, n.origin.id) {
      GroupsMirrored(GroupsOf(neighbors, stream, n.origin.id), Some(t), db, n.origin.id);
    }
  }

  ghost function LeafStatements(groups: LeafQuery?, proxy: LeafQuery?, owner: LeafQuery?, nodes: seq<Account>): nat {
    OneIf(groups != null) + OneIf(proxy != null && !AllNil(nodes, ProxyKey)) + OneIf(owner != null && !AllNil(nodes, OwnerKey))
  }

  /** The first three edges of sqlAll, in its order. */
  method LoadLeafEdges(groups: LeafQuery?, proxy: LeafQuery?, owner: LeafQuery?, nodes: seq<Account>, db: Driver)
    returns (err: Option<LoadError>, ghost found: LeafNeighbors)
    requires LeafReady(groups, Groups) && LeafReady(proxy, Proxies) && LeafReady(owner, Users)
    requires WellFormed(db.tables)
    requires OnePerID(nodes)
    requires forall n | n in nodes :: n.data.id == n.origin.id && n.groups == [] && n.proxy == null && n.owner == null
    requires forall n | n in nodes :: proxy != null ==> n.data.proxyID == ProxyKey(n)
    requires forall n | n in nodes :: owner != null ==> n.data.ownerUserID == OwnerKey(n)
    modifies LeafParts(proxy), LeafParts(owner)
    modifies NodeSet(nodes)`groups, NodeSet(nodes)`proxy, NodeSet(nodes)`owner, db
    ensures db.queries <= old(db.queries) + LeafStatements(groups, proxy, owner, nodes)
    ensures err.None? ==> db.queries == old(db.queries) + LeafStatements(groups, proxy, owner, nodes)
    ensures err.Some? ==> err.value.DriverFailure? && db.failures == old(db.failures) + 1
    ensures err.None? ==> db.failures == old(db.failures)
    ensures err.None? ==> LeafEdgesRight(nodes, found, LeafTreeOf(groups), LeafTreeOf(proxy),
                                         LeafTreeOf(owner), db.tables)
    ensures err.None? ==> forall n | n in nodes :: LeafAssigned(n, found)
  {
    hide GroupsRight, LeavesRight, GroupsOf, PickLeaf, LeafTreeOf, OneIf, AllNil, OnePerID, WellFormed;
    hide GroupsMirror, LeafMirrors;
    ghost var stream, gs, ps, os;
    found := LeafNeighbors([], [], [], []);
    err, stream, gs := LoadGroups(groups, nodes, db);
    if err.Some? {
      return;
    }
    err, ps := LoadProxy(proxy, nodes, db);
    if err.Some? {
      return;
    }
    err, os := LoadOwner(owner, nodes, db);
    found := LeafNeighbors(gs, stream, ps, os);
  }

  /** The row stream of groups, and the neighbours handed out along three edges. */
  datatype LeafNeighbors = LeafNeighbors(groups: seq<Leaf>, stream: seq<(int, LeafRow)>, proxies: seq<Leaf>,
                                         owners: seq<Leaf>)

  ghost predicate LeafAssigned(n: Account, found: LeafNeighbors)
    reads n`groups, n`proxy, n`owner
  {
    && n.groups == GroupsOf(found.groups, found.stream, n.origin.id)
    && n.proxy == PickLeaf(found.proxies, ProxyKey(n))
    && n.owner == PickLeaf(found.owners, OwnerKey(n))
  }

  ghost predicate LeafEdgesRight(nodes: seq<Account>, found: LeafNeighbors, groups: Option<LeafTree>,
                                 proxy: Option<LeafTree>, owner: Option<LeafTree>, db: Tables) {
    && GroupsRight(nodes, found.groups, found.stream, groups, db)
    && LeavesRight(nodes, ProxyKey, found.proxies, proxy, db.proxies)
    && LeavesRight(nodes, OwnerKey, found.owners, owner, db.users)
  }

  // ----- the group edge of a join row -----

  method AssignJoinGroups(nodes: seq<AccountGroup>, nodeids: map<int, seq<AccountGroup>>, neighbors: seq<Leaf>,
                          ghost ids: seq<int>)
    returns (err: Option<LoadError>)
    requires Grouped(nodes, JoinGroupKey, ids, nodeids)
    requires forall n | n in nodes :: n.group == null
    modifies JoinSet(nodes)`group
    ensures (forall nb | nb in neighbors :: nb.row.id in ids) ==> err.None?
    ensures err.None? ==> forall n | n in nodes :: n.group == PickLeaf(neighbors, JoinGroupKey(n))
  {
    for k := 0 to |neighbors|
      invariant forall n | n in nodes :: n.group == PickLeaf(neighbors[..k], JoinGroupKey(n))
    {
      var nb := neighbors[k];
      assert neighbors[..k + 1] == neighbors[..k] + [nb];
      if nb.row.id !in nodeids {
        return Some(UnexpectedForeignKey(nb.row.id));
      }
      forall n | n in nodes {
        PickLeafAppend(neighbors[..k], nb, JoinGroupKey(n));
      }
      var list := nodeids[nb.row.id];
      label Inner:
      for i := 0 to |list|
        invariant forall n | n in list[..i] :: n.group == nb
        invariant forall n | n in nodes && n !in list[..i] :: n.group == old@Inner(n.group)
      {
        list[i].group := nb;
      }
      assert list[..|list|] == list;
    }
    assert neighbors[..|neighbors|] == neighbors;
    err := None;
  }

  method LoadJoinGroup(query: LeafQuery?, nodes: seq<AccountGroup>, db: Driver)
    returns (err: Option<LoadError>, ghost neighbors: seq<Leaf>)
    requires LeafReady(query, Groups) && WellFormed(db.tables)
    requires forall n | n in nodes :: n.group == null && (query != null ==> Some(n.data.groupID) == JoinGroupKey(n))
    modifies LeafParts(query), JoinSet(nodes)`group, db
    ensures db.queries == old(db.queries) + OneIf(query != null && nodes != [])
    ensures err.Some? ==> err.value.DriverFailure? && db.failures == old(db.failures) + 1
    ensures err.None? ==> db.failures == old(db.failures)
    ensures err.None? ==> LeavesRight(nodes, JoinGroupKey, neighbors, LeafTreeOf(query), db.tables.groups)
    ensures err.None? ==> forall n | n in nodes :: n.group == PickLeaf(neighbors, JoinGroupKey(n))
    ensures err.None? ==> forall n | n in nodes :: LeafMirrors(n.group, LeafTreeOf(query), db.tables.groups, JoinGroupKey(n))
  {
    neighbors := [];
    if query == null {
      return None, neighbors;
    }
    var keys := seq(|nodes|, (i: nat) requires i < |nodes| reads JoinSet(nodes) => Some(nodes[i].data.groupID));
    var ids, nodeids := GroupByKey(nodes, keys, JoinGroupKey);
    if |ids| == 0 {
      GroupedNone(nodes, JoinGroupKey, ids, nodeids);
      assert nodes != [] ==> nodes[0] in nodes && JoinGroupKey(nodes[0]).Some?;
      return None, neighbors;
    }
    SomeKey(nodes, JoinGroupKey, ids, nodeids);
    var ok, found := query.AllByID(ids, db);
    if !ok {
      return Some(DriverFailure), neighbors;
    }
    neighbors := found;
    err := AssignJoinGroups(nodes, nodeids, found, ids);
    LeavesAgree(nodes, JoinGroupKey, found, query.tree, db.tables.groups, ids);
    LeavesMirror(nodes, JoinGroupKey, found, Some(query.tree), db.tables.groups);
  }
}
