/** Object graphs against the tables, edge by edge: which rows an edge leads to and what their objects
    hold. Nothing is said here of how rows are looked up, batched or projected. */
module Mirrors {
  import opened Wrappers
  import opened Schema
  import opened Relational
  import opened Columns
  import opened Entities

  // ----- the rows that a sub-query wants -----

  ghost predicate AccountWanted(ps: seq<AccountPred>, r: AccountRow) {
    forall p | p in ps ::
      match p
      case Custom(f) => f(r)
      case IDIn(ids) => r.id in ids
      case ParentIn(fks) => r.parentAccountID.Some? && r.parentAccountID.value in fks
  }

  ghost predicate LeafWanted(ps: seq<LeafPred>, r: LeafRow) {
    forall p | p in ps ::
      match p
      case LeafCustom(f) => f(r)
      case LeafIDIn(ids) => r.id in ids
  }

  ghost predicate LogWanted(ps: seq<LogPred>, r: LogRow) {
    forall p | p in ps ::
      match p
      case LogCustom(f) => f(r)
      case LogAccountIn(fks) => r.accountID in fks
  }

  ghost predicate JoinWanted(ps: seq<JoinPred>, r: JoinRow) {
    forall p | p in ps ::
      match p
      case JoinCustom(f) => f(r)
      case JoinAccountIn(fks) => r.accountID in fks
  }

  lemma {:induction false} WantedMatch(ps: seq<AccountPred>)
    ensures forall r :: AccountMatch(ps, r) <==> AccountWanted(ps, r)
  {
    assert forall i | 0 <= i < |ps| :: ps[i] in ps;
  }

  lemma {:induction false} LeafWantedMatch(ps: seq<LeafPred>)
    ensures forall r :: LeafMatch(ps, r) <==> LeafWanted(ps, r)
  {
    assert forall i | 0 <= i < |ps| :: ps[i] in ps;
  }

  lemma {:induction false} LogWantedMatch(ps: seq<LogPred>)
    ensures forall r :: LogMatch(ps, r) <==> LogWanted(ps, r)
  {
    assert forall i | 0 <= i < |ps| :: ps[i] in ps;
  }

  lemma {:induction false} JoinWantedMatch(ps: seq<JoinPred>)
    ensures forall r :: JoinMatch(ps, r) <==> JoinWanted(ps, r)
  {
    assert forall i | 0 <= i < |ps| :: ps[i] in ps;
  }

  ghost function GroupsOfAccount(t: LeafTree, db: Tables, id: int): set<LeafRow> {
    set r | r in db.groups && LeafWanted(t.preds, r) && exists j :: j in db.joins && j.accountID == id && j.groupID == r.id
  }

  ghost function LogsOfAccount(t: LogTree, db: Tables, id: int): set<LogRow> {
    set r | r in db.logs && LogWanted(t.preds, r) && r.accountID == id
  }

  ghost function ChildrenOfAccount(t: AccountTree, db: Tables, id: int): set<AccountRow> {
    set r | r in db.accounts && AccountWanted(t.preds, r) && r.parentAccountID == Some(id)
  }

  ghost function JoinsOfAccount(t: JoinTree, db: Tables, id: int): set<JoinRow> {
    set r | r in db.joins && JoinWanted(t.preds, r) && r.accountID == id
  }

  // ----- edges to entities without edges of their own -----

  /** A unique edge: the wanted row with this key, or nothing if there is none. */
  ghost predicate LeafMirrors(l: Leaf?, t: Option<LeafTree>, table: set<LeafRow>, key: Option<int>) {
    if l == null then t.Some? ==> forall r | r in table && LeafWanted(t.value.preds, r) :: Some(r.id) != key
    else
      && t.Some?
      && exists r :: r in table && LeafWanted(t.value.preds, r) && Some(r.id) == key && LeafKept(l.row, r, t.value.fields)
  }

  ghost predicate LeavesKept(s: seq<Leaf>, rows: seq<LeafRow>, fields: seq<Column>) {
    |s| == |rows| && forall i | 0 <= i < |s| :: LeafKept(s[i].row, rows[i], fields)
  }

  ghost predicate LogsKept(s: seq<UsageLog>, rows: seq<LogRow>, fields: seq<Column>) {
    |s| == |rows| && forall i | 0 <= i < |s| :: LogKept(s[i].row, rows[i], fields)
  }

  /** A list with one object for each wanted row, in some order. */
  ghost predicate GroupsMirror(s: seq<Leaf>, t: Option<LeafTree>, db: Tables, id: int) {
    match t
    case None => s == []
    case Some(t) => exists rows :: Enumerates(rows, GroupsOfAccount(t, db, id)) && LeavesKept(s, rows, t.fields)
  }

  ghost predicate LogsMirror(s: seq<UsageLog>, t: Option<LogTree>, db: Tables, id: int) {
    match t
    case None => s == []
    case Some(t) => exists rows :: Enumerates(rows, LogsOfAccount(t, db, id)) && LogsKept(s, rows, t.fields)
  }

  // ----- whole graphs -----

  ghost predicate FlagsMirror(l: Loaded, e: AccountEdges) {
    && l.groups == e.groups.Some? && l.proxy == e.proxy.Some? && l.owner == e.owner.Some?
    && l.parent == e.parent.Some? && l.children == e.children.Some?
    && l.usageLogs == e.usageLogs.Some? && l.accountGroups == e.accountGroups.Some?
  }

  /** The object a stands for this row, and so do all objects behind it for theirs. `asked` says that
      the loader of a child list asked for the foreign key. */
  ghost predicate Mirrors(a: Account, g: Graph, e: AccountEdges, fields: seq<Column>, asked: bool, db: Tables,
                          row: AccountRow)
    requires Complete(g) && a in g.accounts
    reads g.accounts, g.joins
    decreases e, 0
  {
    assert Settled(a) && EdgesIn(a, g);
    && AccountKept(a.data, row, fields, e, asked) && FlagsMirror(a.loaded, e)
    && GroupsMirror(a.groups, e.groups, db, row.id) && LogsMirror(a.usageLogs, e.usageLogs, db, row.id)
    && LeafMirrors(a.proxy, e.proxy, db.proxies, row.proxyID) && LeafMirrors(a.owner, e.owner, db.users, row.ownerUserID)
    && ToOneMirrors(a.parent, g, e.parent, db, row.parentAccountID)
    && ChildrenMirror(a.children, g, e.children, db, row.id)
    && JoinsMirror(a.accountGroups, g, e.accountGroups, db, row.id)
  }

  ghost predicate ToOneMirrors(a: Account?, g: Graph, t: Option<AccountTree>, db: Tables, key: Option<int>)
    requires Complete(g) && (a != null ==> a in g.accounts)
    reads g.accounts, g.joins
    decreases t, 1
  {
    if a == null then t.Some? ==> forall r | r in db.accounts && AccountWanted(t.value.preds, r) :: Some(r.id) != key
    else
      && t.Some?
      && exists r :: r in db.accounts && AccountWanted(t.value.preds, r) && Some(r.id) == key
                     && Mirrors(a, g, t.value.edges, t.value.fields, false, db, r)
  }

  ghost predicate ChildrenMirror(s: seq<Account>, g: Graph, t: Option<AccountTree>, db: Tables, id: int)
    requires Complete(g) && forall c | c in s :: c in g.accounts
    reads g.accounts, g.joins
    decreases t, 1
  {
    match t
    case None => s == []
    case Some(t) => exists rows :: Enumerates(rows, ChildrenOfAccount(t, db, id)) && AccountsMirror(s, g, t, db, rows)
  }

  ghost predicate AccountsMirror(s: seq<Account>, g: Graph, t: AccountTree, db: Tables, rows: seq<AccountRow>)
    requires Complete(g) && forall c | c in s :: c in g.accounts
    reads g.accounts, g.joins
    decreases t, 0
  {
    |s| == |rows| && forall i | 0 <= i < |s| :: Mirrors(s[i], g, t.edges, t.fields, true, db, rows[i])
  }

  ghost predicate JoinsMirror(s: seq<AccountGroup>, g: Graph, t: Option<JoinTree>, db: Tables, id: int)
    requires Complete(g) && forall j | j in s :: j in g.joins
    reads g.accounts, g.joins
    decreases t, 1
  {
    match t
    case None => s == []
    case Some(t) => exists rows :: Enumerates(rows, JoinsOfAccount(t, db, id)) && JoinListMirrors(s, g, t, db, rows)
  }

  ghost predicate JoinListMirrors(s: seq<AccountGroup>, g: Graph, t: JoinTree, db: Tables, rows: seq<JoinRow>)
    requires Complete(g) && forall j | j in s :: j in g.joins
    reads g.accounts, g.joins
    decreases t, 0
  {
    |s| == |rows| && forall i | 0 <= i < |s| :: JoinMirrors(s[i], g, t.edges, t.fields, true, db, rows[i])
  }

  ghost predicate JoinMirrors(j: AccountGroup, g: Graph, e: JoinEdges, fields: seq<Column>, asked: bool, db: Tables,
                              row: JoinRow)
    requires Complete(g) && j in g.joins
    reads g.accounts, g.joins
    decreases e, 0
  {
    assert JoinSettled(j) && JoinEdgesIn(j, g);
    && JoinKept(j.data, row, fields, e, asked)
    && j.loaded.account == e.account.Some? && j.loaded.group == e.group.Some?
    && ToOneMirrors(j.account, g, e.account, db, Some(row.accountID))
    && LeafMirrors(j.group, e.group, db.groups, Some(row.groupID))
  }

  // ----- leaf edges mirror the tables -----

  /** Objects with distinct rows that cover all rows list them. */
  lemma {:induction false} Listing<T, R(!new)>(s: seq<T>, rowOf: T -> Option<R>, rows: set<R>) returns (list: seq<R>)
    requires forall x | x in s :: rowOf(x).Some? && rowOf(x).value in rows
    requires OncePer(s, rowOf)
    requires forall r | r in rows :: exists x :: x in s && rowOf(x) == Some(r)
    ensures |list| == |s| && Enumerates(list, rows) && forall i | 0 <= i < |s| :: Some(list[i]) == rowOf(s[i])
  {
    list := seq(|s|, i requires 0 <= i < |s| => rowOf(s[i]).value);
    assert forall i | 0 <= i < |s| :: s[i] in s && Some(list[i]) == rowOf(s[i]);
    forall r | r in rows ensures r in list {
      var x :| x in s && rowOf(x) == Some(r);
      var i :| 0 <= i < |s| && s[i] == x;
      assert list[i] == r;
    }
  }

  lemma {:induction false} NoLeaves(s: seq<Leaf>)
    ensures LeafRows(s) == {} ==> s == []
  {
    if s != [] {
      assert s[0].row in LeafRows(s);
    }
  }

  lemma {:induction false} NoLogs(s: seq<UsageLog>)
    ensures LogRows(s) == {} ==> s == []
  {
    if s != [] {
      assert s[0].row in LogRows(s);
    }
  }

  lemma {:induction false} NoAccounts(s: seq<Account>)
    ensures AccountViews(s) == {} ==> s == []
  {
    if s != [] {
      assert s[0].view in AccountViews(s);
    }
  }

  lemma {:induction false} NoJoins(s: seq<AccountGroup>)
    ensures JoinViews(s) == {} ==> s == []
  {
    if s != [] {
      assert s[0].view in JoinViews(s);
    }
  }

  lemma {:induction false} LeafMirrored(l: Leaf?, t: Option<LeafTree>, table: set<LeafRow>, key: Option<int>)
    requires UniqueLeaves(table) && LeafRowOf(l) == NaiveLeaf(t, table, key)
    ensures LeafMirrors(l, t, table, key)
  {
    if t.Some? {
      LeafWantedMatch(t.value.preds);
      if l != null {
        var r := FindLeaf(table, key.value).value;
        LeafProjectionKeeps(r, t.value.fields);
        assert r in table && LeafWanted(t.value.preds, r) && Some(r.id) == key;
      } else {
        forall r | r in table && LeafWanted(t.value.preds, r) ensures Some(r.id) != key {
          FindLeafIs(table, r);
        }
      }
    }
  }

  lemma {:induction false} GroupsMirrored(s: seq<Leaf>, t: Option<LeafTree>, db: Tables, id: int)
    requires UniqueLeaves(db.groups) && LeafRows(s) == NaiveGroups(t, db, id) && OncePer(s, LeafID)
    ensures GroupsMirror(s, t, db, id)
  {
    NoLeaves(s);
    if t.Some? {
      var rowOf := (l: Leaf) => FindLeaf(db.groups, l.row.id);
      forall l | l in s
        ensures rowOf(l).Some? && rowOf(l).value in GroupsOfAccount(t.value, db, id)
        ensures l.row == ProjectLeaf(rowOf(l).value, t.value.fields)
      {
        GroupMirrored(s, t.value, db, id, l);
      }
      forall r | r in GroupsOfAccount(t.value, db, id) ensures exists l :: l in s && rowOf(l) == Some(r) {
        LeafWantedMatch(t.value.preds);
        FindLeafIs(db.groups, r);
        assert ProjectLeaf(r, t.value.fields) in LeafRows(s);
        var l :| l in s && l.row == ProjectLeaf(r, t.value.fields);
      }
      assert forall l | l in s :: LeafID(l) == rowOf(l).value.id;
      var rows := Listing(s, rowOf, GroupsOfAccount(t.value, db, id));
      forall i | 0 <= i < |s| ensures LeafKept(s[i].row, rows[i], t.value.fields) {
        assert s[i] in s;
        LeafProjectionKeeps(rows[i], t.value.fields);
      }
    }
  }

  lemma {:induction false} GroupMirrored(s: seq<Leaf>, t: LeafTree, db: Tables, id: int, l: Leaf)
    requires UniqueLeaves(db.groups) && LeafRows(s) == NaiveGroups(Some(t), db, id) && l in s
    ensures var r := FindLeaf(db.groups, l.row.id);
            r.Some? && r.value in GroupsOfAccount(t, db, id) && l.row == ProjectLeaf(r.value, t.fields)
  {
    LeafWantedMatch(t.preds);
    assert l.row in NaiveGroups(Some(t), db, id);
    var r :| r in db.groups && LeafMatch(t.preds, r) && Linked(db.joins, id, r.id) && l.row == ProjectLeaf(r, t.fields);
    FindLeafIs(db.groups, r);
  }

  ghost function FindLog(rows: set<LogRow>, id: int): Option<LogRow> {
    if exists r :: r in rows && r.id == id then var r :| r in rows && r.id == id; Some(r) else None
  }

  lemma {:induction false} FindLogIs(rows: set<LogRow>, r: LogRow)
    requires UniqueLogs(rows) && r in rows
    ensures FindLog(rows, r.id) == Some(r)
  {
    assert SameLogID(FindLog(rows, r.id).value, r);
  }

  lemma {:induction false} LogsMirrored(s: seq<UsageLog>, t: Option<LogTree>, db: Tables, id: int)
    requires UniqueLogs(db.logs) && LogRows(s) == NaiveLogs(t, db, id) && OncePer(s, LogID)
    ensures LogsMirror(s, t, db, id)
  {
    NoLogs(s);
    if t.Some? {
      var rowOf := (l: UsageLog) => FindLog(db.logs, l.row.id);
      forall l | l in s
        ensures rowOf(l).Some? && rowOf(l).value in LogsOfAccount(t.value, db, id)
        ensures l.row == ProjectLog(rowOf(l).value, WithForeignKey(t.value.fields, AccountID))
      {
        LogMirrored(s, t.value, db, id, l);
      }
      forall r | r in LogsOfAccount(t.value, db, id) ensures exists l :: l in s && rowOf(l) == Some(r) {
        LogWantedMatch(t.value.preds);
        FindLogIs(db.logs, r);
        assert ProjectLog(r, WithForeignKey(t.value.fields, AccountID)) in LogRows(s);
        var l :| l in s && l.row == ProjectLog(r, WithForeignKey(t.value.fields, AccountID));
      }
      assert forall l | l in s :: LogID(l) == rowOf(l).value.id;
      var rows := Listing(s, rowOf, LogsOfAccount(t.value, db, id));
      forall i | 0 <= i < |s| ensures LogKept(s[i].row, rows[i], t.value.fields) {
        assert s[i] in s;
        LogProjectionKeeps(rows[i], t.value.fields);
      }
    }
  }

  lemma {:induction false} LogMirrored(s: seq<UsageLog>, t: LogTree, db: Tables, id: int, l: UsageLog)
    requires UniqueLogs(db.logs) && LogRows(s) == NaiveLogs(Some(t), db, id) && l in s
    ensures var r := FindLog(db.logs, l.row.id);
            r.Some? && r.value in LogsOfAccount(t, db, id) && l.row == ProjectLog(r.value, WithForeignKey(t.fields, AccountID))
  {
    LogWantedMatch(t.preds);
    assert l.row in NaiveLogs(Some(t), db, id);
    var r :| r in db.logs && LogMatch(t.preds, r) && r.accountID == id
             && l.row == ProjectLog(r, WithForeignKey(t.fields, AccountID));
    FindLogIs(db.logs, r);
  }

  // ----- loaded graphs mirror the tables -----

  /** Every account of a complete graph that stands for the naive graph of a row mirrors that row. */
  lemma {:induction false} AccountMirrored(a: Account, g: Graph, e: AccountEdges, fields: seq<Column>, asked: bool,
                                           db: Tables, row: AccountRow)
    requires WellFormed(db) && row in db.accounts && Complete(g) && a in g.accounts
    requires a.view == NaiveAccount(e, Asking(fields, asked, ParentAccountID), db, row)
    ensures Mirrors(a, g, e, fields, asked, db, row)
    decreases e, 0
  {
    hide AccountColumnsOf, ProjectAccount, AccountKept, GroupsMirror, LogsMirror, LeafMirrors, ToOneMirrors, ChildrenMirror;
    hide JoinsMirror, NaiveGroups, NaiveLogs, NaiveLeaf, NaiveToOne, NaiveChildren, NaiveJoins, WellTyped, Asking;
    AccountProjectionKeeps(row, fields, e, asked);
    GroupsMirrored(a.groups, e.groups, db, row.id);
    LogsMirrored(a.usageLogs, e.usageLogs, db, row.id);
    LeafMirrored(a.proxy, e.proxy, db.proxies, row.proxyID);
    LeafMirrored(a.owner, e.owner, db.users, row.ownerUserID);
    ToOneMirrored(a.parent, g, e.parent, db, row.parentAccountID);
    ChildrenMirrored(a.children, g, e.children, db, row.id);
    JoinsMirrored(a.accountGroups, g, e.accountGroups, db, row.id);
  }

  lemma {:induction false} ToOneMirrored(a: Account?, g: Graph, t: Option<AccountTree>, db: Tables, key: Option<int>)
    requires WellFormed(db) && Complete(g) && (a != null ==> a in g.accounts)
    requires ViewOf(a) == NaiveToOne(t, db, key)
    ensures ToOneMirrors(a, g, t, db, key)
    decreases t, 1
  {
    hide NaiveAccount, Mirrors, WellFormed;
    if t.Some? {
      WantedMatch(t.value.preds);
      if a != null {
        var r := FindAccount(db.accounts, key.value).value;
        AccountMirrored(a, g, t.value.edges, t.value.fields, false, db, r);
        assert r in db.accounts && AccountWanted(t.value.preds, r) && Some(r.id) == key;
      } else {
        forall r | r in db.accounts && AccountWanted(t.value.preds, r) ensures Some(r.id) != key {
          FindAccountIs(db, r);
        }
      }
    }
  }

  lemma {:induction false} ChildrenMirrored(s: seq<Account>, g: Graph, t: Option<AccountTree>, db: Tables, id: int)
    requires WellFormed(db) && Complete(g) && forall c | c in s :: c in g.accounts
    requires AccountViews(s) == NaiveChildren(t, db, id) && OncePer(s, ViewID)
    ensures ChildrenMirror(s, g, t, db, id)
    decreases t, 1
  {
    hide NaiveAccount, Mirrors, WellFormed;
    NoAccounts(s);
    if t.Some? {
      var rowOf := (c: Account) => FindAccount(db.accounts, c.view.data.id);
      forall c | c in s
        ensures rowOf(c).Some? && rowOf(c).value in ChildrenOfAccount(t.value, db, id) && ViewID(c) == rowOf(c).value.id
        ensures c.view == NaiveAccount(t.value.edges, Asking(t.value.fields, true, ParentAccountID), db, rowOf(c).value)
      {
        ChildMirrored(s, t.value, db, id, c);
      }
      forall r | r in ChildrenOfAccount(t.value, db, id) ensures exists c :: c in s && rowOf(c) == Some(r) {
        WantedMatch(t.value.preds);
        var v := NaiveAccount(t.value.edges, WithForeignKey(t.value.fields, ParentAccountID), db, r);
        NaiveID(t.value.edges, WithForeignKey(t.value.fields, ParentAccountID), db, r);
        assert v in AccountViews(s);
        var c :| c in s && c.view == v;
        FindAccountIs(db, r);
      }
      var rows := Listing(s, rowOf, ChildrenOfAccount(t.value, db, id));
      forall i | 0 <= i < |s| ensures Mirrors(s[i], g, t.value.edges, t.value.fields, true, db, rows[i]) {
        assert s[i] in s;
        AccountMirrored(s[i], g, t.value.edges, t.value.fields, true, db, rows[i]);
      }
    }
  }

  lemma {:induction false} NaiveID(e: AccountEdges, fields: seq<Column>, db: Tables, r: AccountRow)
    ensures NaiveAccount(e, fields, db, r).data.id == r.id
  {
    NeededColumnsKept(fields, LoadedOf(e));
  }

  lemma {:induction false} ChildMirrored(s: seq<Account>, t: AccountTree, db: Tables, id: int, c: Account)
    requires WellFormed(db) && AccountViews(s) == NaiveChildren(Some(t), db, id) && c in s
    ensures var r := FindAccount(db.accounts, c.view.data.id);
            && r.Some? && r.value in ChildrenOfAccount(t, db, id) && c.view.data.id == r.value.id
            && c.view == NaiveAccount(t.edges, WithForeignKey(t.fields, ParentAccountID), db, r.value)
  {
    hide NaiveAccount;
    WantedMatch(t.preds);
    assert c.view in NaiveChildren(Some(t), db, id);
    var r :| r in db.accounts && AccountMatch(t.preds, r) && r.parentAccountID == Some(id)
             && c.view == NaiveAccount(t.edges, WithForeignKey(t.fields, ParentAccountID), db, r);
    NaiveID(t.edges, WithForeignKey(t.fields, ParentAccountID), db, r);
    FindAccountIs(db, r);
  }

  lemma {:induction false} JoinsMirrored(s: seq<AccountGroup>, g: Graph, t: Option<JoinTree>, db: Tables, id: int)
    requires WellFormed(db) && Complete(g) && forall j | j in s :: j in g.joins
    requires JoinViews(s) == NaiveJoins(t, db, id) && OncePer(s, JoinOrigin)
    ensures JoinsMirror(s, g, t, db, id)
    decreases t, 1
  {
    hide NaiveJoin, JoinMirrors, WellFormed;
    NoJoins(s);
    if t.Some? {
      var rowOf := (j: AccountGroup) => Some(j.origin);
      forall j | j in s
        ensures j.origin in JoinsOfAccount(t.value, db, id)
        ensures j.view == NaiveJoin(t.value.edges, Asking(t.value.fields, true, AccountID), db, j.origin)
      {
        assert JoinSettled(j);
        JoinRowMirrored(s, t.value, db, id, j);
      }
      forall r | r in JoinsOfAccount(t.value, db, id) ensures exists j :: j in s && rowOf(j) == Some(r) {
        JoinWantedMatch(t.value.preds);
        var v := NaiveJoin(t.value.edges, WithForeignKey(t.value.fields, AccountID), db, r);
        NaiveKey(t.value.edges, WithForeignKey(t.value.fields, AccountID), db, r);
        assert v in JoinViews(s);
        var j :| j in s && j.view == v;
        assert JoinSettled(j) && j.view.key == j.origin;
      }
      assert forall j | j in s :: JoinOrigin(j) == rowOf(j).value;
      var rows := Listing(s, rowOf, JoinsOfAccount(t.value, db, id));
      forall i | 0 <= i < |s| ensures JoinMirrors(s[i], g, t.value.edges, t.value.fields, true, db, rows[i]) {
        assert s[i] in s;
        JoinMirrored(s[i], g, t.value.edges, t.value.fields, true, db, rows[i]);
      }
    }
  }

  lemma {:induction false} NaiveKey(e: JoinEdges, fields: seq<Column>, db: Tables, r: JoinRow)
    ensures NaiveJoin(e, fields, db, r).key == r
  {
  }

  lemma {:induction false} JoinRowMirrored(s: seq<AccountGroup>, t: JoinTree, db: Tables, id: int, j: AccountGroup)
    requires JoinViews(s) == NaiveJoins(Some(t), db, id) && j in s && JoinSettled(j)
    ensures j.origin in JoinsOfAccount(t, db, id)
    ensures j.view == NaiveJoin(t.edges, WithForeignKey(t.fields, AccountID), db, j.origin)
  {
    JoinWantedMatch(t.preds);
    assert j.view in NaiveJoins(Some(t), db, id);
    var r :| r in db.joins && JoinMatch(t.preds, r) && r.accountID == id
             && j.view == NaiveJoin(t.edges, WithForeignKey(t.fields, AccountID), db, r);
    assert j.view.key == r;
  }

  lemma {:induction false} JoinMirrored(j: AccountGroup, g: Graph, e: JoinEdges, fields: seq<Column>, asked: bool,
                                        db: Tables, row: JoinRow)
    requires WellFormed(db) && row in db.joins && Complete(g) && j in g.joins
    requires j.view == NaiveJoin(e, Asking(fields, asked, AccountID), db, row)
    ensures JoinMirrors(j, g, e, fields, asked, db, row)
    decreases e, 0
  {
    hide JoinColumnsOf, ProjectJoin, JoinKept, LeafMirrors, ToOneMirrors, NaiveLeaf, NaiveToOne, WellTypedJoin, Asking;
    JoinProjectionKeeps(row, fields, e, asked);
    ToOneMirrored(j.account, g, e.account, db, Some(row.accountID));
    LeafMirrored(j.group, e.group, db.groups, Some(row.groupID));
  }

  /** The nodes of a query and the rows they were scanned from. */
  ghost predicate ResultMirrors(nodes: seq<Account>, rows: seq<AccountRow>, g: Graph, e: AccountEdges,
                                fields: seq<Column>, ps: seq<AccountPred>, db: Tables)
    requires Complete(g)
    reads g.accounts, g.joins
  {
    && NoDup(rows) && (forall x :: x in rows <==> x in db.accounts && AccountWanted(ps, x))
    && |nodes| == |rows| && forall i | 0 <= i < |nodes| ::
         && nodes[i] in g.accounts && Mirrors(nodes[i], g, e, fields, false, db, rows[i])
         && (fields == [] ==> nodes[i].data == rows[i])
  }

  lemma {:induction false} ResultMirrored(nodes: seq<Account>, rows: seq<AccountRow>, g: Graph, e: AccountEdges,
                                          fields: seq<Column>, ps: seq<AccountPred>, db: Tables)
    requires WellFormed(db) && Complete(g) && |nodes| == |rows| && Enumerates(rows, MatchingAccounts(ps, db))
    requires forall i | 0 <= i < |nodes| :: nodes[i] in g.accounts && nodes[i].view == NaiveAccount(e, fields, db, rows[i])
    ensures ResultMirrors(nodes, rows, g, e, fields, ps, db)
  {
    hide NaiveAccount, GroupsMirror, LogsMirror, LeafMirrors, ToOneMirrors, ChildrenMirror, JoinsMirror, Complete, WellFormed;
    WantedMatch(ps);
    forall i | 0 <= i < |nodes|
      ensures nodes[i] in g.accounts && Mirrors(nodes[i], g, e, fields, false, db, rows[i])
      ensures fields == [] ==> nodes[i].data == rows[i]
    {
      assert rows[i] in rows;
      AccountMirrored(nodes[i], g, e, fields, false, db, rows[i]);
      if fields == [] {
        NothingLost(nodes[i].data, rows[i], e, false);
      }
    }
  }

  ghost predicate JoinResultMirrors(nodes: seq<AccountGroup>, rows: seq<JoinRow>, g: Graph, e: JoinEdges,
                                    fields: seq<Column>, ps: seq<JoinPred>, db: Tables)
    requires Complete(g)
    reads g.accounts, g.joins
  {
    && NoDup(rows) && (forall x :: x in rows <==> x in db.joins && JoinWanted(ps, x))
    && |nodes| == |rows| && forall i | 0 <= i < |nodes| ::
         && nodes[i] in g.joins && JoinMirrors(nodes[i], g, e, fields, false, db, rows[i])
         && (fields == [] ==> nodes[i].data == rows[i])
  }

  lemma {:induction false} JoinResultMirrored(nodes: seq<AccountGroup>, rows: seq<JoinRow>, g: Graph, e: JoinEdges,
                                              fields: seq<Column>, ps: seq<JoinPred>, db: Tables)
    requires WellFormed(db) && Complete(g) && |nodes| == |rows| && Enumerates(rows, MatchingJoins(ps, db))
    requires forall i | 0 <= i < |nodes| :: nodes[i] in g.joins && nodes[i].view == NaiveJoin(e, fields, db, rows[i])
    ensures JoinResultMirrors(nodes, rows, g, e, fields, ps, db)
  {
    hide NaiveJoin, LeafMirrors, ToOneMirrors, Complete, WellFormed;
    JoinWantedMatch(ps);
    forall i | 0 <= i < |nodes|
      ensures nodes[i] in g.joins && JoinMirrors(nodes[i], g, e, fields, false, db, rows[i])
      ensures fields == [] ==> nodes[i].data == rows[i]
    {
      assert rows[i] in rows;
      JoinMirrored(nodes[i], g, e, fields, false, db, rows[i]);
      if fields == [] {
        NothingLostOfJoin(nodes[i].data, rows[i], e, false);
      }
    }
  }
}
