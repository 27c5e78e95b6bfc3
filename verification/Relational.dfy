/** The relational meaning of an eager-loading query: the tree of With* sub-queries, and the
    object graph obtained by looking up every edge of every row on its own. */
module Relational {
  import opened Wrappers
  import opened Schema

  // ----- predicates of the builders -----

  datatype AccountPred = Custom(p: AccountRow -> bool) | IDIn(ids: seq<int>) | ParentIn(fks: seq<int>) {
    predicate Holds(r: AccountRow) {
      match this
      case Custom(p) => p(r)
      case IDIn(ids) => r.id in ids
      case ParentIn(fks) => r.parentAccountID.Some? && r.parentAccountID.value in fks
    }
  }

  datatype LeafPred = LeafCustom(p: LeafRow -> bool) | LeafIDIn(ids: seq<int>) {
    predicate Holds(r: LeafRow) {
      match this
      case LeafCustom(p) => p(r)
      case LeafIDIn(ids) => r.id in ids
    }
  }

  datatype LogPred = LogCustom(p: LogRow -> bool) | LogAccountIn(fks: seq<int>) {
    predicate Holds(r: LogRow) {
      match this
      case LogCustom(p) => p(r)
      case LogAccountIn(fks) => r.accountID in fks
    }
  }

  datatype JoinPred = JoinCustom(p: JoinRow -> bool) | JoinAccountIn(fks: seq<int>) {
    predicate Holds(r: JoinRow) {
      match this
      case JoinCustom(p) => p(r)
      case JoinAccountIn(fks) => r.accountID in fks
    }
  }

  predicate AccountMatch(ps: seq<AccountPred>, r: AccountRow) { forall i | 0 <= i < |ps| :: ps[i].Holds(r) }
  predicate LeafMatch(ps: seq<LeafPred>, r: LeafRow) { forall i | 0 <= i < |ps| :: ps[i].Holds(r) }
  predicate LogMatch(ps: seq<LogPred>, r: LogRow) { forall i | 0 <= i < |ps| :: ps[i].Holds(r) }
  predicate JoinMatch(ps: seq<JoinPred>, r: JoinRow) { forall i | 0 <= i < |ps| :: ps[i].Holds(r) }

  /** The rows a query with these predicates asks for. */
  function MatchingAccounts(ps: seq<AccountPred>, db: Tables): set<AccountRow> {
    set r | r in db.accounts && AccountMatch(ps, r)
  }

  function MatchingJoins(ps: seq<JoinPred>, db: Tables): set<JoinRow> {
    set r | r in db.joins && JoinMatch(ps, r)
  }

  // ----- the tree of With* sub-queries -----

  datatype LeafTree = LeafTree(preds: seq<LeafPred>, fields: seq<Column>)
  datatype LogTree = LogTree(preds: seq<LogPred>, fields: seq<Column>)
  datatype AccountTree = AccountTree(preds: seq<AccountPred>, fields: seq<Column>, edges: AccountEdges)
  datatype AccountEdges = AccountEdges(groups: Option<LeafTree>, proxy: Option<LeafTree>, owner: Option<LeafTree>,
                                       parent: Option<AccountTree>, children: Option<AccountTree>,
                                       usageLogs: Option<LogTree>, accountGroups: Option<JoinTree>)
  datatype JoinTree = JoinTree(preds: seq<JoinPred>, fields: seq<Column>, edges: JoinEdges)
  datatype JoinEdges = JoinEdges(account: Option<AccountTree>, group: Option<LeafTree>)

  /** The edges recorded as requested, in the order of the loadedTypes array. */
  datatype Loaded = Loaded(groups: bool, proxy: bool, owner: bool, parent: bool, children: bool, usageLogs: bool,
                           accountGroups: bool)
  datatype JoinLoaded = JoinLoaded(account: bool, group: bool)

  function LoadedOf(e: AccountEdges): Loaded {
    Loaded(e.groups.Some?, e.proxy.Some?, e.owner.Some?, e.parent.Some?, e.children.Some?,
           e.usageLogs.Some?, e.accountGroups.Some?)
  }

  function JoinLoadedOf(e: JoinEdges): JoinLoaded {
    JoinLoaded(e.account.Some?, e.group.Some?)
  }

  // ----- the columns a query selects -----

  /** All columns without a field list; otherwise the fields, the id and each needed foreign key. */
  function AccountColumnsOf(fields: seq<Column>, l: Loaded): set<Column> {
    if fields == [] then Cols(ACCOUNT_COLUMNS)
    else Cols(fields) + {Id}
         + (if l.proxy then {ProxyID} else {})
         + (if l.owner then {OwnerUserID} else {})
         + (if l.parent then {ParentAccountID} else {})
  }

  /** account_groups rows have no id: only the fields and the needed foreign keys. */
  function JoinColumnsOf(fields: seq<Column>, l: JoinLoaded): set<Column> {
    if fields == [] then Cols(ACCOUNT_GROUP_COLUMNS)
    else Cols(fields)
         + (if l.account then {AccountID} else {})
         + (if l.group then {GroupID} else {})
  }

  // ----- object graphs as values -----

  /** An account as a client sees it: its columns, which edges were requested, and the graph
      behind each edge. To-many edges are sets, since the database fixes no order; what they hold is
      told apart by an id, which is always selected, and join rows, which have none, by their key. */
  datatype AccountView = AccountView(data: AccountRow, loaded: Loaded, groups: set<LeafRow>, proxy: Option<LeafRow>,
                                     owner: Option<LeafRow>, parent: Option<AccountView>, children: set<AccountView>,
                                     usageLogs: set<LogRow>, accountGroups: set<JoinView>)
  datatype JoinView = JoinView(key: JoinRow, data: JoinRow, loaded: JoinLoaded, account: Option<AccountView>,
                               group: Option<LeafRow>)

  // ----- one lookup per row and edge -----

  /** The row with a given primary key. */
  ghost function FindAccount(rows: set<AccountRow>, id: int): Option<AccountRow> {
    if exists r :: r in rows && r.id == id then var r :| r in rows && r.id == id; Some(r) else None
  }

  ghost function FindLeaf(rows: set<LeafRow>, id: int): Option<LeafRow> {
    if exists r :: r in rows && r.id == id then var r :| r in rows && r.id == id; Some(r) else None
  }

  predicate Linked(joins: set<JoinRow>, accountID: int, groupID: int) {
    exists j | j in joins :: j.accountID == accountID && j.groupID == groupID
  }

  /** The rows of groups joined with account_groups, for some accounts; rows may repeat. */
  ghost predicate JoinedRows(stream: seq<(int, LeafRow)>, ps: seq<LeafPred>, db: Tables, ids: seq<int>) {
    && (forall i | 0 <= i < |stream| ::
          && stream[i].0 in ids && stream[i].1 in db.groups
          && LeafMatch(ps, stream[i].1) && Linked(db.joins, stream[i].0, stream[i].1.id))
    && (forall a, g | a in ids && g in db.groups && LeafMatch(ps, g) && Linked(db.joins, a, g.id) :: (a, g) in stream)
  }

  ghost function NaiveLeaf(t: Option<LeafTree>, rows: set<LeafRow>, fk: Option<int>): Option<LeafRow> {
    if t.None? || fk.None? then None
    else
      match FindLeaf(rows, fk.value)
      case None => None
      case Some(r) => if LeafMatch(t.value.preds, r) then Some(ProjectLeaf(r, t.value.fields)) else None
  }

  ghost function NaiveGroups(t: Option<LeafTree>, db: Tables, accountID: int): set<LeafRow> {
    if t.None? then {}
    else set g | g in db.groups && LeafMatch(t.value.preds, g) && Linked(db.joins, accountID, g.id)
           :: ProjectLeaf(g, t.value.fields)
  }

  ghost function NaiveLogs(t: Option<LogTree>, db: Tables, accountID: int): set<LogRow> {
    if t.None? then {}
    else set l | l in db.logs && LogMatch(t.value.preds, l) && l.accountID == accountID
           :: ProjectLog(l, WithForeignKey(t.value.fields, AccountID))
  }

  ghost function NaiveToOne(t: Option<AccountTree>, db: Tables, fk: Option<int>): Option<AccountView>
    decreases t, 1
  {
    if t.None? || fk.None? then None
    else
      match FindAccount(db.accounts, fk.value)
      case None => None
      case Some(r) =>
        if AccountMatch(t.value.preds, r) then Some(NaiveAccount(t.value.edges, t.value.fields, db, r)) else None
  }

  ghost function NaiveChildren(t: Option<AccountTree>, db: Tables, parentID: int): set<AccountView>
    decreases t, 1
  {
    if t.None? then {}
    else set r | r in db.accounts && AccountMatch(t.value.preds, r) && r.parentAccountID == Some(parentID)
           :: NaiveAccount(t.value.edges, WithForeignKey(t.value.fields, ParentAccountID), db, r)
  }

  ghost function NaiveJoins(t: Option<JoinTree>, db: Tables, accountID: int): set<JoinView>
    decreases t, 1
  {
    if t.None? then {}
    else set j | j in db.joins && JoinMatch(t.value.preds, j) && j.accountID == accountID
           :: NaiveJoin(t.value.edges, WithForeignKey(t.value.fields, AccountID), db, j)
  }

  ghost function NaiveJoin(e: JoinEdges, fields: seq<Column>, db: Tables, j: JoinRow): JoinView
    decreases e, 0
  {
    JoinView(j, ProjectJoin(j, JoinColumnsOf(fields, JoinLoadedOf(e))), JoinLoadedOf(e),
             NaiveToOne(e.account, db, Some(j.accountID)),
             NaiveLeaf(e.group, db.groups, Some(j.groupID)))
  }

  /** The graph behind one account row, every edge looked up for this row alone. */
  ghost function NaiveAccount(e: AccountEdges, fields: seq<Column>, db: Tables, row: AccountRow): AccountView
    decreases e, 0
  {
    AccountView(
      ProjectAccount(row, AccountColumnsOf(fields, LoadedOf(e))), LoadedOf(e),
      NaiveGroups(e.groups, db, row.id),
      NaiveLeaf(e.proxy, db.proxies, row.proxyID),
      NaiveLeaf(e.owner, db.users, row.ownerUserID),
      NaiveToOne(e.parent, db, row.parentAccountID),
      NaiveChildren(e.children, db, row.id),
      NaiveLogs(e.usageLogs, db, row.id),
      NaiveJoins(e.accountGroups, db, row.id))
  }

  lemma {:induction false} FindAccountIs(db: Tables, r: AccountRow)
    requires WellFormed(db) && r in db.accounts
    ensures FindAccount(db.accounts, r.id) == Some(r)
  {
    assert SameID(FindAccount(db.accounts, r.id).value, r);
  }

  lemma {:induction false} FindLeafIs(rows: set<LeafRow>, r: LeafRow)
    requires UniqueLeaves(rows)
    requires r in rows
    ensures FindLeaf(rows, r.id) == Some(r)
  {
    assert SameLeafID(FindLeaf(rows, r.id).value, r);
  }

  // ----- facts about columns and predicates -----

  /** No selection loses the id or a foreign key that an edge needs. */
  lemma {:induction false} NeededColumnsKept(fields: seq<Column>, l: Loaded)
    ensures Id in AccountColumnsOf(fields, l)
    ensures l.proxy ==> ProxyID in AccountColumnsOf(fields, l)
    ensures l.owner ==> OwnerUserID in AccountColumnsOf(fields, l)
    ensures l.parent ==> ParentAccountID in AccountColumnsOf(fields, l)
    ensures ParentAccountID in AccountColumnsOf(WithForeignKey(fields, ParentAccountID), l)
  {
    assert ACCOUNT_COLUMNS[0] == Id && ACCOUNT_COLUMNS[11] == OwnerUserID;
    assert ACCOUNT_COLUMNS[15] == ProxyID && ACCOUNT_COLUMNS[35] == ParentAccountID;
  }

  lemma {:induction false} NeededJoinColumnsKept(fields: seq<Column>, l: JoinLoaded)
    ensures l.account ==> AccountID in JoinColumnsOf(fields, l)
    ensures l.group ==> GroupID in JoinColumnsOf(fields, l)
    ensures AccountID in JoinColumnsOf(WithForeignKey(fields, AccountID), l)
  {
    assert ACCOUNT_GROUP_COLUMNS[0] == AccountID && ACCOUNT_GROUP_COLUMNS[1] == GroupID;
  }

  lemma {:induction false} AccountMatchAnd(ps: seq<AccountPred>, p: AccountPred, r: AccountRow)
    ensures AccountMatch(ps + [p], r) <==> AccountMatch(ps, r) && p.Holds(r)
  {
    assert (ps + [p])[|ps|] == p;
    assert forall i | 0 <= i < |ps| :: (ps + [p])[i] == ps[i];
  }

  lemma {:induction false} LeafMatchAnd(ps: seq<LeafPred>, p: LeafPred, r: LeafRow)
    ensures LeafMatch(ps + [p], r) <==> LeafMatch(ps, r) && p.Holds(r)
  {
    assert (ps + [p])[|ps|] == p;
    assert forall i | 0 <= i < |ps| :: (ps + [p])[i] == ps[i];
  }

  lemma {:induction false} LogMatchAnd(ps: seq<LogPred>, p: LogPred, r: LogRow)
    ensures LogMatch(ps + [p], r) <==> LogMatch(ps, r) && p.Holds(r)
  {
    assert (ps + [p])[|ps|] == p;
    assert forall i | 0 <= i < |ps| :: (ps + [p])[i] == ps[i];
  }

  lemma {:induction false} JoinMatchAnd(ps: seq<JoinPred>, p: JoinPred, r: JoinRow)
    ensures JoinMatch(ps + [p], r) <==> JoinMatch(ps, r) && p.Holds(r)
  {
    assert (ps + [p])[|ps|] == p;
    assert forall i | 0 <= i < |ps| :: (ps + [p])[i] == ps[i];
  }

  // ----- validity of field lists, number of vertices -----

  ghost predicate ValidFields(fields: seq<Column>, columns: seq<Column>) {
    forall f | f in fields :: f in columns
  }

  /** The first of these fields that is no column. */
  ghost predicate BadField(bad: Column, fields: seq<Column>, columns: seq<Column>) {
    bad !in columns && exists k | 0 <= k < |fields| :: fields[k] == bad && ValidFields(fields[..k], columns)
  }

  ghost function Unknown(fields: seq<Column>, columns: seq<Column>): set<Column> {
    set f | f in fields && f !in columns
  }

  /** The fields of a query and of its sub-queries that name no column of their table. */
  ghost function BadAccountFields(fields: seq<Column>, e: AccountEdges): set<Column>
    decreases e
  {
    Unknown(fields, ACCOUNT_COLUMNS)
    + (if e.parent.Some? then BadAccountFields(e.parent.value.fields, e.parent.value.edges) else {})
    + (if e.children.Some? then BadAccountFields(e.children.value.fields, e.children.value.edges) else {})
    + (if e.accountGroups.Some? then BadJoinFields(e.accountGroups.value.fields, e.accountGroups.value.edges) else {})
  }

  ghost function BadJoinFields(fields: seq<Column>, e: JoinEdges): set<Column>
    decreases e
  {
    Unknown(fields, ACCOUNT_GROUP_COLUMNS)
    + (if e.account.Some? then BadAccountFields(e.account.value.fields, e.account.value.edges) else {})
  }
}
