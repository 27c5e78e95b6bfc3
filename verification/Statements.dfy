/** How many statements a query issues, counted over its tree of sub-queries and the tables alone. */
module Statements {
  import opened Wrappers
  import opened Schema
  import opened Relational

  function RowProxy(r: AccountRow): Option<int> { r.proxyID }
  function RowOwner(r: AccountRow): Option<int> { r.ownerUserID }
  function RowParent(r: AccountRow): Option<int> { r.parentAccountID }

  ghost predicate Keyless(rows: set<AccountRow>, key: AccountRow -> Option<int>) {
    forall r | r in rows :: key(r).None?
  }

  // ----- what the batched sub-queries find -----

  ghost function ParentRows(t: AccountTree, rows: set<AccountRow>, db: Tables): set<AccountRow> {
    set x | x in db.accounts && AccountMatch(t.preds, x) && exists r :: r in rows && r.parentAccountID == Some(x.id)
  }

  ghost function ChildRows(t: AccountTree, rows: set<AccountRow>, db: Tables): set<AccountRow> {
    set x | x in db.accounts && AccountMatch(t.preds, x) && exists r :: r in rows && x.parentAccountID == Some(r.id)
  }

  ghost function LinkRows(t: JoinTree, rows: set<AccountRow>, db: Tables): set<JoinRow> {
    set j | j in db.joins && JoinMatch(t.preds, j) && exists r :: r in rows && r.id == j.accountID
  }

  ghost function LinkedRows(t: AccountTree, links: set<JoinRow>, db: Tables): set<AccountRow> {
    set x | x in db.accounts && AccountMatch(t.preds, x) && exists j :: j in links && j.accountID == x.id
  }

  // ----- the count -----

  /** A query that finds these rows: one statement, and those of its edges if it finds any. */
  ghost function QueryStatements(e: AccountEdges, rows: set<AccountRow>, db: Tables): nat
    decreases e, 1
  {
    if rows == {} then 1 else 1 + EdgeStatements(e, rows, db)
  }

  ghost function EdgeStatements(e: AccountEdges, rows: set<AccountRow>, db: Tables): nat
    decreases e, 0
  {
    OneIf(e.groups.Some?)
    + OneIf(e.proxy.Some? && !Keyless(rows, RowProxy)) + OneIf(e.owner.Some? && !Keyless(rows, RowOwner))
    + ParentStatements(e.parent, rows, db) + ChildStatements(e.children, rows, db)
    + OneIf(e.usageLogs.Some?) + LinkStatements(e.accountGroups, rows, db)
  }

  /** None when no row has a parent. */
  ghost function ParentStatements(t: Option<AccountTree>, rows: set<AccountRow>, db: Tables): nat {
    if t.None? || Keyless(rows, RowParent) then 0 else QueryStatements(t.value.edges, ParentRows(t.value, rows, db), db)
  }

  ghost function ChildStatements(t: Option<AccountTree>, rows: set<AccountRow>, db: Tables): nat {
    if t.None? then 0 else QueryStatements(t.value.edges, ChildRows(t.value, rows, db), db)
  }

  ghost function LinkStatements(t: Option<JoinTree>, rows: set<AccountRow>, db: Tables): nat {
    if t.None? then 0 else JoinStatements(t.value.edges, LinkRows(t.value, rows, db), db)
  }

  ghost function JoinStatements(e: JoinEdges, links: set<JoinRow>, db: Tables): nat
    decreases e, 1
  {
    if links == {} then 1 else 1 + OneIf(e.group.Some?) + LinkedStatements(e.account, links, db)
  }

  ghost function LinkedStatements(t: Option<AccountTree>, links: set<JoinRow>, db: Tables): nat {
    if t.None? then 0 else QueryStatements(t.value.edges, LinkedRows(t.value, links, db), db)
  }

  // ----- how many builders a query has -----

  ghost function AccountTreeSize(t: Option<AccountTree>): nat {
    if t.None? then 0 else 1 + EdgesSize(t.value.edges)
  }

  ghost function EdgesSize(e: AccountEdges): nat {
    OneIf(e.groups.Some?) + OneIf(e.proxy.Some?) + OneIf(e.owner.Some?) + OneIf(e.usageLogs.Some?)
    + AccountTreeSize(e.parent) + AccountTreeSize(e.children) + JoinTreeSize(e.accountGroups)
  }

  ghost function JoinTreeSize(t: Option<JoinTree>): nat {
    if t.None? then 0 else 1 + OneIf(t.value.edges.group.Some?) + AccountTreeSize(t.value.edges.account)
  }

  /** Never more than one statement per builder; strictly fewer when a requested to-one edge has only
      nil keys. */
  lemma {:induction false} AtMostTreeSize(e: AccountEdges, rows: set<AccountRow>, db: Tables)
    ensures QueryStatements(e, rows, db) <= 1 + EdgesSize(e)
    ensures e.proxy.Some? && Keyless(rows, RowProxy) ==> QueryStatements(e, rows, db) < 1 + EdgesSize(e)
    ensures e.owner.Some? && Keyless(rows, RowOwner) ==> QueryStatements(e, rows, db) < 1 + EdgesSize(e)
    ensures e.parent.Some? && Keyless(rows, RowParent) ==> QueryStatements(e, rows, db) < 1 + EdgesSize(e)
    decreases e, 1
  {
    hide Keyless, ParentStatements, ChildStatements, LinkStatements, AccountTreeSize, JoinTreeSize;
    ParentAtMost(e.parent, rows, db);
    ChildAtMost(e.children, rows, db);
    LinkAtMost(e.accountGroups, rows, db);
  }

  lemma {:induction false} ParentAtMost(t: Option<AccountTree>, rows: set<AccountRow>, db: Tables)
    ensures ParentStatements(t, rows, db) <= AccountTreeSize(t)
    ensures t.Some? && Keyless(rows, RowParent) ==> ParentStatements(t, rows, db) < AccountTreeSize(t)
    decreases t
  {
    hide Keyless, ParentRows;
    if t.Some? {
      AtMostTreeSize(t.value.edges, ParentRows(t.value, rows, db), db);
    }
  }

  lemma {:induction false} ChildAtMost(t: Option<AccountTree>, rows: set<AccountRow>, db: Tables)
    ensures ChildStatements(t, rows, db) <= AccountTreeSize(t)
    decreases t
  {
    hide ChildRows;
    if t.Some? {
      AtMostTreeSize(t.value.edges, ChildRows(t.value, rows, db), db);
    }
  }

  lemma {:induction false} LinkAtMost(t: Option<JoinTree>, rows: set<AccountRow>, db: Tables)
    ensures LinkStatements(t, rows, db) <= JoinTreeSize(t)
    decreases t
  {
    hide LinkRows;
    if t.Some? {
      JoinAtMostTreeSize(t.value.edges, LinkRows(t.value, rows, db), db);
    }
  }

  lemma {:induction false} JoinAtMostTreeSize(e: JoinEdges, links: set<JoinRow>, db: Tables)
    ensures JoinStatements(e, links, db) <= 1 + OneIf(e.group.Some?) + AccountTreeSize(e.account)
    decreases e
  {
    hide LinkedRows;
    if e.account.Some? {
      AtMostTreeSize(e.account.value.edges, LinkedRows(e.account.value, links, db), db);
    }
  }

  /** Finding more rows never takes fewer statements. */
  lemma {:induction false} MoreRows(e: AccountEdges, rows: set<AccountRow>, more: set<AccountRow>, db: Tables)
    requires rows <= more
    ensures QueryStatements(e, rows, db) <= QueryStatements(e, more, db)
    decreases e, 1
  {
    hide Keyless, ParentStatements, ChildStatements, LinkStatements;
    MoreKeys(rows, more);
    MoreParents(e.parent, rows, more, db);
    MoreChildren(e.children, rows, more, db);
    MoreOfLinks(e.accountGroups, rows, more, db);
  }

  lemma {:induction false} MoreKeys(rows: set<AccountRow>, more: set<AccountRow>)
    requires rows <= more
    ensures Keyless(more, RowProxy) ==> Keyless(rows, RowProxy)
    ensures Keyless(more, RowOwner) ==> Keyless(rows, RowOwner)
    ensures Keyless(more, RowParent) ==> Keyless(rows, RowParent)
  {
  }

  lemma {:induction false} MoreParents(t: Option<AccountTree>, rows: set<AccountRow>, more: set<AccountRow>, db: Tables)
    requires rows <= more
    ensures ParentStatements(t, rows, db) <= ParentStatements(t, more, db)
    decreases t
  {
    MoreKeys(rows, more);
    if t.Some? {
      MoreRows(t.value.edges, ParentRows(t.value, rows, db), ParentRows(t.value, more, db), db);
    }
  }

  lemma {:induction false} MoreChildren(t: Option<AccountTree>, rows: set<AccountRow>, more: set<AccountRow>,
                                        db: Tables)
    requires rows <= more
    ensures ChildStatements(t, rows, db) <= ChildStatements(t, more, db)
    decreases t
  {
    if t.Some? {
      MoreRows(t.value.edges, ChildRows(t.value, rows, db), ChildRows(t.value, more, db), db);
    }
  }

  lemma {:induction false} MoreOfLinks(t: Option<JoinTree>, rows: set<AccountRow>, more: set<AccountRow>, db: Tables)
    requires rows <= more
    ensures LinkStatements(t, rows, db) <= LinkStatements(t, more, db)
    decreases t
  {
    if t.Some? {
      MoreLinks(t.value.edges, LinkRows(t.value, rows, db), LinkRows(t.value, more, db), db);
    }
  }

  lemma {:induction false} MoreLinks(e: JoinEdges, links: set<JoinRow>, more: set<JoinRow>, db: Tables)
    requires links <= more
    ensures JoinStatements(e, links, db) <= JoinStatements(e, more, db)
    decreases e
  {
    if e.account.Some? {
      MoreRows(e.account.value.edges, LinkedRows(e.account.value, links, db), LinkedRows(e.account.value, more, db), db);
    }
  }
}
