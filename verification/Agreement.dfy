/** Why handing out the rows of one batched query gives every node what a lookup for that
    node alone would give it. Nothing here depends on the order of rows. */
module Agreement {
  import opened Wrappers
  import opened Schema
  import opened Relational
  import opened Entities
  import opened LeafQueries

  // ----- the keys by which neighbours are handed out -----

  ghost function ProxyKey(n: Account): Option<int> { n.origin.proxyID }
  ghost function OwnerKey(n: Account): Option<int> { n.origin.ownerUserID }
  ghost function ParentKey(n: Account): Option<int> { n.origin.parentAccountID }
  ghost function LogKey(l: UsageLog): Option<int> { Some(l.row.accountID) }
  ghost function JoinAccountKey(j: AccountGroup): Option<int> { Some(j.origin.accountID) }
  ghost function JoinGroupKey(j: AccountGroup): Option<int> { Some(j.origin.groupID) }

  ghost function NodeSet(nodes: seq<Account>): set<Account> {
    set n | n in nodes
  }

  ghost function JoinSet(nodes: seq<AccountGroup>): set<AccountGroup> {
    set j | j in nodes
  }

  // ----- nodes between scan and load -----

  /** The graphs of nodes are those their query asks for. */
  ghost predicate Represent(nodes: seq<Account>, e: AccountEdges, fields: seq<Column>, db: Tables) {
    forall n | n in nodes :: n.view == NaiveAccount(e, fields, db, n.origin)
  }

  ghost predicate JoinsRepresent(nodes: seq<AccountGroup>, e: JoinEdges, fields: seq<Column>, db: Tables) {
    forall j | j in nodes :: j.view == NaiveJoin(e, fields, db, j.origin)
  }

  /** A node just scanned: columns and requested edges are recorded, no edge is filled in. */
  ghost predicate Unloaded(n: Account)
    reads n
  {
    && n.data == n.view.data && n.loaded == n.view.loaded
    && n.groups == [] && n.proxy == null && n.owner == null && n.parent == null
    && n.children == [] && n.usageLogs == [] && n.accountGroups == []
  }

  ghost predicate JoinUnloaded(j: AccountGroup)
    reads j
  {
    j.data == j.view.data && j.loaded == j.view.loaded && j.account == null && j.group == null
  }

  // ----- to-one edges -----

  /** The neighbour that a foreign key ends up with when neighbours are handed out in order:
      the last one with that id, if there is one. */
  ghost function PickLeaf(neighbors: seq<Leaf>, fk: Option<int>): (p: Leaf?)
    ensures p != null ==> p in neighbors && fk == Some(p.row.id)
    ensures p == null ==> forall nb | nb in neighbors :: fk != Some(nb.row.id)
  {
    if neighbors == [] then null
    else
      var last := neighbors[|neighbors| - 1];
      if fk == Some(last.row.id) then last else PickLeaf(neighbors[..|neighbors| - 1], fk)
  }

  ghost function PickAccount(neighbors: seq<Account>, fk: Option<int>): (p: Account?)
    ensures p != null ==> p in neighbors && fk == Some(p.origin.id)
    ensures p == null ==> forall nb | nb in neighbors :: fk != Some(nb.origin.id)
  {
    if neighbors == [] then null
    else
      var last := neighbors[|neighbors| - 1];
      if fk == Some(last.origin.id) then last else PickAccount(neighbors[..|neighbors| - 1], fk)
  }

  lemma {:induction false} PickLeafAppend(neighbors: seq<Leaf>, nb: Leaf, fk: Option<int>)
    ensures PickLeaf(neighbors + [nb], fk) == if fk == Some(nb.row.id) then nb else PickLeaf(neighbors, fk)
  {
    assert (neighbors + [nb])[..|neighbors|] == neighbors;
  }

  lemma {:induction false} PickAccountAppend(neighbors: seq<Account>, nb: Account, fk: Option<int>)
    ensures PickAccount(neighbors + [nb], fk) == if fk == Some(nb.origin.id) then nb else PickAccount(neighbors, fk)
  {
    assert (neighbors + [nb])[..|neighbors|] == neighbors;
  }

  /** A batched lookup by primary key resolves an edge as the lookup for its key alone would. */
  lemma {:induction false} LeafAgrees(neighbors: seq<Leaf>, fk: Option<int>, t: LeafTree, table: set<LeafRow>,
                                      ids: seq<int>)
    requires LeafAnswers(neighbors, t, table, ids)
    requires fk.Some? ==> fk.value in ids
    ensures LeafRowOf(PickLeaf(neighbors, fk)) == NaiveLeaf(Some(t), table, fk)
  {
  }

  /** The neighbours stand for exactly the matching rows with one of the ids. */
  ghost predicate Answers(neighbors: seq<Account>, ps: seq<AccountPred>, db: Tables, ids: seq<int>) {
    && (forall nb | nb in neighbors :: nb.origin in db.accounts && AccountMatch(ps, nb.origin) && nb.origin.id in ids)
    && (forall r | r in db.accounts && AccountMatch(ps, r) && r.id in ids :: exists nb :: nb in neighbors && nb.origin == r)
    && (forall i, j | 0 <= i < j < |neighbors| :: neighbors[i].origin != neighbors[j].origin)
  }

  lemma {:induction false} BatchAnswers(neighbors: seq<Account>, rows: seq<AccountRow>, ps: seq<AccountPred>,
                                        ids: seq<int>, db: Tables)
    requires Enumerates(rows, MatchingAccounts(ps + [IDIn(ids)], db))
    requires |neighbors| == |rows| && forall i | 0 <= i < |rows| :: neighbors[i].origin == rows[i]
    ensures Answers(neighbors, ps, db, ids)
  {
    forall nb | nb in neighbors
      ensures nb.origin in db.accounts && AccountMatch(ps, nb.origin) && nb.origin.id in ids
    {
      var j :| 0 <= j < |neighbors| && neighbors[j] == nb;
      assert rows[j] in rows;
      AccountMatchAnd(ps, IDIn(ids), rows[j]);
    }
    forall r | r in db.accounts && AccountMatch(ps, r) && r.id in ids
      ensures exists nb :: nb in neighbors && nb.origin == r
    {
      AccountMatchAnd(ps, IDIn(ids), r);
      assert r in rows;
      var j :| 0 <= j < |rows| && rows[j] == r;
      assert neighbors[j] in neighbors;
    }
  }

  lemma {:induction false} AccountAgrees(neighbors: seq<Account>, fk: Option<int>, t: AccountTree, db: Tables,
                                         ids: seq<int>)
    requires WellFormed(db) && Answers(neighbors, t.preds, db, ids)
    requires Represent(neighbors, t.edges, t.fields, db)
    requires fk.Some? ==> fk.value in ids
    ensures ViewOf(PickAccount(neighbors, fk)) == NaiveToOne(Some(t), db, fk)
  {
    var p := PickAccount(neighbors, fk);
    if p != null {
      FindAccountIs(db, p.origin);
    } else if fk.Some? && FindAccount(db.accounts, fk.value).Some? {
      var r := FindAccount(db.accounts, fk.value).value;
      assert !AccountMatch(t.preds, r);
    }
  }

  // ----- to-many edges -----

  /** The children handed to a node are the children a lookup for it alone would find. */
  lemma {:induction false} ChildrenAgree(neighbors: seq<Account>, rows: seq<AccountRow>, t: AccountTree, db: Tables,
                                         fks: seq<int>, id: int)
    requires Enumerates(rows, MatchingAccounts(t.preds + [ParentIn(fks)], db))
    requires |neighbors| == |rows| && forall i | 0 <= i < |rows| :: neighbors[i].origin == rows[i]
    requires Represent(neighbors, t.edges, WithForeignKey(t.fields, ParentAccountID), db)
    requires id in fks
    ensures AccountViews(With(neighbors, ParentKey, id)) == NaiveChildren(Some(t), db, id)
  {
    var mine, naive := With(neighbors, ParentKey, id), NaiveChildren(Some(t), db, id);
    forall v | v in AccountViews(mine) ensures v in naive {
      var nb :| nb in mine && nb.view == v;
      var j :| 0 <= j < |neighbors| && neighbors[j] == nb;
      assert rows[j] in rows;
      AccountMatchAnd(t.preds, ParentIn(fks), rows[j]);
    }
    forall v | v in naive ensures v in AccountViews(mine) {
      var r :| r in db.accounts && AccountMatch(t.preds, r) && r.parentAccountID == Some(id)
               && v == NaiveAccount(t.edges, WithForeignKey(t.fields, ParentAccountID), db, r);
      AccountMatchAnd(t.preds, ParentIn(fks), r);
      assert r in rows;
      var j :| 0 <= j < |rows| && rows[j] == r;
      assert neighbors[j] in mine;
    }
  }

  lemma {:induction false} LogsAgree(neighbors: seq<UsageLog>, rows: seq<LogRow>, t: LogTree, db: Tables,
                                     fks: seq<int>, id: int)
    requires Enumerates(rows, set x | x in db.logs && LogMatch(t.preds + [LogAccountIn(fks)], x))
    requires |neighbors| == |rows|
    requires forall i | 0 <= i < |rows| :: neighbors[i].row == ProjectLog(rows[i], WithForeignKey(t.fields, AccountID))
    requires id in fks
    ensures LogRows(With(neighbors, LogKey, id)) == NaiveLogs(Some(t), db, id)
  {
    var mine, naive := With(neighbors, LogKey, id), NaiveLogs(Some(t), db, id);
    forall v | v in LogRows(mine) ensures v in naive {
      var nb :| nb in mine && nb.row == v;
      var j :| 0 <= j < |neighbors| && neighbors[j] == nb;
      assert rows[j] in rows;
      LogMatchAnd(t.preds, LogAccountIn(fks), rows[j]);
    }
    forall v | v in naive ensures v in LogRows(mine) {
      var r :| r in db.logs && LogMatch(t.preds, r) && r.accountID == id
               && v == ProjectLog(r, WithForeignKey(t.fields, AccountID));
      LogMatchAnd(t.preds, LogAccountIn(fks), r);
      assert r in rows;
      var j :| 0 <= j < |rows| && rows[j] == r;
      assert neighbors[j] in mine;
    }
  }

  lemma {:induction false} JoinsAgree(neighbors: seq<AccountGroup>, rows: seq<JoinRow>, t: JoinTree, db: Tables,
                                      fks: seq<int>, id: int)
    requires Enumerates(rows, MatchingJoins(t.preds + [JoinAccountIn(fks)], db))
    requires |neighbors| == |rows|
    requires forall i | 0 <= i < |rows| :: neighbors[i].origin == rows[i]
    requires JoinsRepresent(neighbors, t.edges, WithForeignKey(t.fields, AccountID), db)
    requires id in fks
    ensures JoinViews(With(neighbors, JoinAccountKey, id)) == NaiveJoins(Some(t), db, id)
  {
    var mine, naive := With(neighbors, JoinAccountKey, id), NaiveJoins(Some(t), db, id);
    forall v | v in JoinViews(mine) ensures v in naive {
      var nb :| nb in mine && nb.view == v;
      var j :| 0 <= j < |neighbors| && neighbors[j] == nb;
      assert rows[j] in rows;
      JoinMatchAnd(t.preds, JoinAccountIn(fks), rows[j]);
    }
    forall v | v in naive ensures v in JoinViews(mine) {
      var r :| r in db.joins && JoinMatch(t.preds, r) && r.accountID == id
               && v == NaiveJoin(t.edges, WithForeignKey(t.fields, AccountID), db, r);
      JoinMatchAnd(t.preds, JoinAccountIn(fks), r);
      assert r in rows;
      var j :| 0 <= j < |rows| && rows[j] == r;
      assert neighbors[j] in mine;
    }
  }

  // ----- the M2M edge -----

  ghost predicate HasID(s: seq<LeafRow>, id: int) {
    exists i | 0 <= i < |s| :: s[i].id == id
  }

  ghost predicate Streams(stream: seq<(int, LeafRow)>, g: LeafRow) {
    exists i | 0 <= i < |stream| :: stream[i].1 == g
  }

  /** The distinct groups of a row stream, in order of first appearance. */
  ghost function FirstAppearances(stream: seq<(int, LeafRow)>): seq<LeafRow> {
    if stream == [] then []
    else
      var before, g := FirstAppearances(stream[..|stream| - 1]), stream[|stream| - 1].1;
      if HasID(before, g.id) then before else before + [g]
  }

  ghost predicate Appears(stream: seq<(int, LeafRow)>, accountID: int, groupID: int) {
    exists i | 0 <= i < |stream| :: stream[i].0 == accountID && stream[i].1.id == groupID
  }

  /** The groups of one account: those neighbours the stream links to it, in their order. */
  ghost function GroupsOf(neighbors: seq<Leaf>, stream: seq<(int, LeafRow)>, accountID: int): (r: seq<Leaf>)
    ensures forall g | g in r :: g in neighbors && Appears(stream, accountID, g.row.id)
    ensures forall g | g in neighbors && Appears(stream, accountID, g.row.id) :: g in r
    ensures NoDup(neighbors) ==> NoDup(r)
  {
    if neighbors == [] then []
    else
      var g := neighbors[|neighbors| - 1];
      GroupsOf(neighbors[..|neighbors| - 1], stream, accountID) + (if Appears(stream, accountID, g.row.id) then [g] else [])
  }

  lemma {:induction false} GroupsOfAppend(neighbors: seq<Leaf>, g: Leaf, stream: seq<(int, LeafRow)>, id: int)
    ensures GroupsOf(neighbors + [g], stream, id)
         == GroupsOf(neighbors, stream, id) + (if Appears(stream, id, g.row.id) then [g] else [])
  {
    assert (neighbors + [g])[..|neighbors|] == neighbors;
  }

  lemma {:induction false} FirstAppearancesAppend(stream: seq<(int, LeafRow)>, x: (int, LeafRow))
    ensures FirstAppearances(stream + [x])
         == if HasID(FirstAppearances(stream), x.1.id) then FirstAppearances(stream) else FirstAppearances(stream) + [x.1]
  {
    assert (stream + [x])[..|stream|] == stream;
  }

  lemma {:induction false} HasIDAppend(s: seq<LeafRow>, g: LeafRow)
    ensures forall id :: HasID(s + [g], id) <==> HasID(s, id) || g.id == id
  {
    assert (s + [g])[|s|] == g;
    assert forall i | 0 <= i < |s| :: (s + [g])[i] == s[i];
  }

  lemma {:induction false} FirstAppearancesDistinct(stream: seq<(int, LeafRow)>)
    ensures forall i, j | 0 <= i < j < |FirstAppearances(stream)| ::
      FirstAppearances(stream)[i].id != FirstAppearances(stream)[j].id
  {
    if stream != [] {
      FirstAppearancesDistinct(stream[..|stream| - 1]);
    }
  }

  lemma {:induction false} FirstAppearancesStreamed(stream: seq<(int, LeafRow)>, g: LeafRow)
    requires g in FirstAppearances(stream)
    ensures Streams(stream, g)
  {
    var s, x := stream[..|stream| - 1], stream[|stream| - 1];
    if g in FirstAppearances(s) {
      FirstAppearancesStreamed(s, g);
      var i :| 0 <= i < |s| && s[i].1 == g;
      assert stream[i].1 == g;
    } else {
      assert stream[|stream| - 1].1 == g;
    }
  }

  lemma {:induction false} FirstAppearancesCover(stream: seq<(int, LeafRow)>, i: nat)
    requires i < |stream|
    ensures HasID(FirstAppearances(stream), stream[i].1.id)
  {
    var s := stream[..|stream| - 1];
    var before, after := FirstAppearances(s), FirstAppearances(stream);
    if i < |s| {
      FirstAppearancesCover(s, i);
      var k :| 0 <= k < |before| && before[k].id == s[i].1.id;
      assert after[k].id == stream[i].1.id;
    } else if !HasID(before, stream[i].1.id) {
      assert after[|before|].id == stream[i].1.id;
    }
  }

  /** Every group handed to an account is one that a lookup for the account alone would find. */
  lemma {:induction false} GroupIsNaive(g: LeafRow, stream: seq<(int, LeafRow)>, t: LeafTree, db: Tables,
                                        ids: seq<int>, id: int)
    requires WellFormed(db) && JoinedRows(stream, t.preds, db, ids)
    requires g in FirstAppearances(stream) && Appears(stream, id, g.id)
    ensures ProjectLeaf(g, t.fields) in NaiveGroups(Some(t), db, id)
  {
    FirstAppearancesStreamed(stream, g);
  }

  /** Every group a lookup would find is listed in the stream's order of first appearance. */
  lemma {:induction false} NaiveGroupListed(g: LeafRow, stream: seq<(int, LeafRow)>, t: LeafTree, db: Tables,
                                            ids: seq<int>, id: int)
    returns (j: nat)
    requires WellFormed(db) && JoinedRows(stream, t.preds, db, ids) && id in ids
    requires g in db.groups && LeafMatch(t.preds, g) && Linked(db.joins, id, g.id)
    ensures j < |FirstAppearances(stream)| && FirstAppearances(stream)[j] == g && Appears(stream, id, g.id)
  {
    assert (id, g) in stream;
    var i :| 0 <= i < |stream| && stream[i] == (id, g);
    FirstAppearancesCover(stream, i);
    j :| 0 <= j < |FirstAppearances(stream)| && FirstAppearances(stream)[j].id == g.id;
    FirstAppearancesStreamed(stream, FirstAppearances(stream)[j]);
    assert SameLeafID(FirstAppearances(stream)[j], g);
  }

  lemma {:induction false} GroupsAgree(neighbors: seq<Leaf>, stream: seq<(int, LeafRow)>, t: LeafTree, db: Tables,
                                       ids: seq<int>, id: int)
    requires WellFormed(db) && JoinedRows(stream, t.preds, db, ids) && id in ids
    requires |neighbors| == |FirstAppearances(stream)|
    requires forall i | 0 <= i < |neighbors| :: neighbors[i].row == ProjectLeaf(FirstAppearances(stream)[i], t.fields)
    ensures LeafRows(GroupsOf(neighbors, stream, id)) == NaiveGroups(Some(t), db, id)
  {
    var mine, naive := GroupsOf(neighbors, stream, id), NaiveGroups(Some(t), db, id);
    forall v | v in LeafRows(mine) ensures v in naive {
      var nb :| nb in mine && nb.row == v;
      var j :| 0 <= j < |neighbors| && neighbors[j] == nb;
      GroupIsNaive(FirstAppearances(stream)[j], stream, t, db, ids, id);
    }
    forall v | v in naive ensures v in LeafRows(mine) {
      var g :| g in db.groups && LeafMatch(t.preds, g) && Linked(db.joins, id, g.id) && v == ProjectLeaf(g, t.fields);
      var j := NaiveGroupListed(g, stream, t, db, ids, id);
      assert neighbors[j] in mine;
    }
  }

  // ----- nodes stand for distinct rows -----

  lemma {:induction false} GroupsOnce(neighbors: seq<Leaf>, stream: seq<(int, LeafRow)>, fields: seq<Column>)
    requires NoDup(neighbors) && |neighbors| == |FirstAppearances(stream)|
    requires forall i | 0 <= i < |neighbors| :: neighbors[i].row == ProjectLeaf(FirstAppearances(stream)[i], fields)
    ensures OncePer(neighbors, LeafID)
  {
    FirstAppearancesDistinct(stream);
    forall x, y | x in neighbors && y in neighbors && LeafID(x) == LeafID(y) ensures x == y {
      var i :| 0 <= i < |neighbors| && neighbors[i] == x;
      var j :| 0 <= j < |neighbors| && neighbors[j] == y;
    }
  }

  lemma {:induction false} LogsOnce(neighbors: seq<UsageLog>, rows: seq<LogRow>, table: set<LogRow>,
                                    fields: seq<Column>)
    requires UniqueLogs(table) && NoDup(rows) && (forall r | r in rows :: r in table)
    requires NoDup(neighbors) && |neighbors| == |rows|
    requires forall i | 0 <= i < |rows| :: neighbors[i].row == ProjectLog(rows[i], fields)
    ensures OncePer(neighbors, LogID)
  {
    forall x, y | x in neighbors && y in neighbors && LogID(x) == LogID(y) ensures x == y {
      var i :| 0 <= i < |neighbors| && neighbors[i] == x;
      var j :| 0 <= j < |neighbors| && neighbors[j] == y;
      assert rows[i] in rows && rows[j] in rows && SameLogID(rows[i], rows[j]);
    }
  }

  lemma {:induction false} AccountsOnce(neighbors: seq<Account>, rows: seq<AccountRow>, e: AccountEdges,
                                        fields: seq<Column>, db: Tables)
    requires UniqueAccounts(db.accounts) && NoDup(rows) && (forall r | r in rows :: r in db.accounts)
    requires NoDup(neighbors) && |neighbors| == |rows|
    requires (forall i | 0 <= i < |rows| :: neighbors[i].origin == rows[i]) && Represent(neighbors, e, fields, db)
    ensures OncePer(neighbors, ViewID)
  {
    NeededColumnsKept(fields, LoadedOf(e));
    forall x, y | x in neighbors && y in neighbors && ViewID(x) == ViewID(y) ensures x == y {
      var i :| 0 <= i < |neighbors| && neighbors[i] == x;
      var j :| 0 <= j < |neighbors| && neighbors[j] == y;
      assert rows[i] in rows && rows[j] in rows && SameID(rows[i], rows[j]);
    }
  }

  lemma {:induction false} JoinsOnce(neighbors: seq<AccountGroup>, rows: seq<JoinRow>)
    requires NoDup(rows) && NoDup(neighbors) && |neighbors| == |rows|
    requires forall i | 0 <= i < |rows| :: neighbors[i].origin == rows[i]
    ensures OncePer(neighbors, JoinOrigin)
  {
    forall x, y | x in neighbors && y in neighbors && JoinOrigin(x) == JoinOrigin(y) ensures x == y {
      var i :| 0 <= i < |neighbors| && neighbors[i] == x;
      var j :| 0 <= j < |neighbors| && neighbors[j] == y;
    }
  }

  // ----- what a load owes all its nodes -----

  ghost predicate GroupsRight(nodes: seq<Account>, neighbors: seq<Leaf>, stream: seq<(int, LeafRow)>,
                              t: Option<LeafTree>, db: Tables) {
    && OncePer(neighbors, LeafID)
    && forall n | n in nodes :: LeafRows(GroupsOf(neighbors, stream, n.origin.id)) == NaiveGroups(t, db, n.origin.id)
  }

  ghost predicate LeavesRight<N>(nodes: seq<N>, key: N -> Option<int>, neighbors: seq<Leaf>, t: Option<LeafTree>,
                                 table: set<LeafRow>) {
    forall n | n in nodes :: LeafRowOf(PickLeaf(neighbors, key(n))) == NaiveLeaf(t, table, key(n))
  }

  ghost predicate AccountsRight<N>(nodes: seq<N>, key: N -> Option<int>, neighbors: seq<Account>,
                                   t: Option<AccountTree>, db: Tables) {
    forall n | n in nodes :: ViewOf(PickAccount(neighbors, key(n))) == NaiveToOne(t, db, key(n))
  }

  ghost predicate ChildrenRight(nodes: seq<Account>, stream: seq<Account>, t: Option<AccountTree>, db: Tables) {
    && OncePer(stream, ViewID)
    && forall n | n in nodes :: AccountViews(With(stream, ParentKey, n.origin.id)) == NaiveChildren(t, db, n.origin.id)
  }

  ghost predicate LogsRight(nodes: seq<Account>, stream: seq<UsageLog>, t: Option<LogTree>, db: Tables) {
    && OncePer(stream, LogID)
    && forall n | n in nodes :: LogRows(With(stream, LogKey, n.origin.id)) == NaiveLogs(t, db, n.origin.id)
  }

  ghost predicate JoinsRight(nodes: seq<Account>, stream: seq<AccountGroup>, t: Option<JoinTree>, db: Tables) {
    && OncePer(stream, JoinOrigin)
    && forall n | n in nodes :: JoinViews(With(stream, JoinAccountKey, n.origin.id)) == NaiveJoins(t, db, n.origin.id)
  }

  lemma {:induction false} LeavesAgree<N>(nodes: seq<N>, key: N -> Option<int>, neighbors: seq<Leaf>, t: LeafTree,
                                          table: set<LeafRow>, ids: seq<int>)
    requires LeafAnswers(neighbors, t, table, ids)
    requires forall n | n in nodes && key(n).Some? :: key(n).value in ids
    ensures LeavesRight(nodes, key, neighbors, Some(t), table)
  {
    forall n | n in nodes ensures LeafRowOf(PickLeaf(neighbors, key(n))) == NaiveLeaf(Some(t), table, key(n)) {
      LeafAgrees(neighbors, key(n), t, table, ids);
    }
  }

  lemma {:induction false} AccountsAgree<N>(nodes: seq<N>, key: N -> Option<int>, neighbors: seq<Account>,
                                            t: AccountTree, db: Tables, ids: seq<int>)
    requires WellFormed(db) && Answers(neighbors, t.preds, db, ids)
    requires Represent(neighbors, t.edges, t.fields, db)
    requires forall n | n in nodes && key(n).Some? :: key(n).value in ids
    ensures AccountsRight(nodes, key, neighbors, Some(t), db)
  {
    forall n | n in nodes ensures ViewOf(PickAccount(neighbors, key(n))) == NaiveToOne(Some(t), db, key(n)) {
      AccountAgrees(neighbors, key(n), t, db, ids);
    }
  }
}
