/** What a selection leaves of a table row, said in terms of the row, the field list and the requested
    edges alone. */
module Columns {
  import opened Wrappers
  import opened Schema
  import opened Relational

  /** The default selection is the whole table, and only columns of the table can be selected. */
  lemma {:induction false} ColumnsAreTheTable(c: Column)
    ensures c in ACCOUNT_COLUMNS <==> TableType(c) != NoColumn
    ensures c in ACCOUNT_GROUP_COLUMNS <==> JoinTableType(c) != NoColumn
  {
    hide ACCOUNT_COLUMNS;
    ListedAreColumns();
    if c != AccountID && c != GroupID && !c.Other? {
      var i := ColumnListed(c);
    }
    if JoinTableType(c) != NoColumn {
      var i := if c == AccountID then 0 else if c == GroupID then 1 else if c == Priority then 2 else 3;
      assert ACCOUNT_GROUP_COLUMNS[i] == c;
    }
  }

  /** Where a column is listed. */
  function Position(c: Column): nat {
    match c
    case Id => 0
    case CreatedAt => 1
    case UpdatedAt => 2
    case DeletedAt => 3
    case Name => 4
    case AccountLevel => 5
    case Notes => 6
    case Platform => 7
    case Type => 8
    case Credentials => 9
    case Extra => 10
    case OwnerUserID => 11
    case ShareMode => 12
    case ShareStatus => 13
    case SharePolicyID => 14
    case ProxyID => 15
    case ProxyFallbackOriginID => 16
    case Concurrency => 17
    case LoadFactor => 18
    case Priority => 19
    case RateMultiplier => 20
    case Status => 21
    case ErrorMessage => 22
    case LastUsedAt => 23
    case ExpiresAt => 24
    case AutoPauseOnExpired => 25
    case Schedulable => 26
    case RateLimitedAt => 27
    case RateLimitResetAt => 28
    case OverloadUntil => 29
    case TempUnschedulableUntil => 30
    case TempUnschedulableReason => 31
    case SessionWindowStart => 32
    case SessionWindowEnd => 33
    case SessionWindowStatus => 34
    case ParentAccountID => 35
    case QuotaDimension => 36
    case _ => 37
  }

  lemma {:induction false} ListedAreColumns()
    ensures forall i | 0 <= i < |ACCOUNT_COLUMNS| :: TableType(ACCOUNT_COLUMNS[i]) != NoColumn
  {
  }

  lemma {:induction false} ColumnListed(c: Column) returns (i: int)
    requires c != AccountID && c != GroupID && !c.Other?
    ensures 0 <= i < |ACCOUNT_COLUMNS| && ACCOUNT_COLUMNS[i] == c && i == Position(c)
  {
    match c
    case Id => i := 0;
    case CreatedAt => i := 1;
    case UpdatedAt => i := 2;
    case DeletedAt => i := 3;
    case Name => i := 4;
    case AccountLevel => i := 5;
    case Notes => i := 6;
    case Platform => i := 7;
    case Type => i := 8;
    case Credentials => i := 9;
    case Extra => i := 10;
    case OwnerUserID => i := 11;
    case ShareMode => i := 12;
    case ShareStatus => i := 13;
    case SharePolicyID => i := 14;
    case ProxyID => i := 15;
    case ProxyFallbackOriginID => i := 16;
    case Concurrency => i := 17;
    case LoadFactor => i := 18;
    case Priority => i := 19;
    case RateMultiplier => i := 20;
    case Status => i := 21;
    case ErrorMessage => i := 22;
    case LastUsedAt => i := 23;
    case ExpiresAt => i := 24;
    case AutoPauseOnExpired => i := 25;
    case Schedulable => i := 26;
    case RateLimitedAt => i := 27;
    case RateLimitResetAt => i := 28;
    case OverloadUntil => i := 29;
    case TempUnschedulableUntil => i := 30;
    case TempUnschedulableReason => i := 31;
    case SessionWindowStart => i := 32;
    case SessionWindowEnd => i := 33;
    case SessionWindowStatus => i := 34;
    case ParentAccountID => i := 35;
    case _ => i := 36;
  }

  // ----- selected columns -----

  /** A column is kept when nothing was selected, when it was, and when something else needs it. */
  predicate Kept(fields: seq<Column>, c: Column, needed: bool) {
    fields == [] || c in fields || needed
  }

  /** The further columns of a row: those that are kept, with their values. */
  ghost predicate RestKept(rest: map<Column, Value>, original: map<Column, Value>, fields: seq<Column>) {
    && (forall c :: c in rest <==> c in original && Kept(fields, c, false))
    && forall c | c in rest && c in original :: rest[c] == original[c]
  }

  /** What an account query leaves of a row: the id always, a foreign key if it is listed or an edge
      needs it, other columns if they are listed; everything without a field list. */
  ghost predicate AccountKept(data: AccountRow, row: AccountRow, fields: seq<Column>, e: AccountEdges, asked: bool) {
    && data.id == row.id
    && data.proxyID == (if Kept(fields, ProxyID, e.proxy.Some?) then row.proxyID else None)
    && data.ownerUserID == (if Kept(fields, OwnerUserID, e.owner.Some?) then row.ownerUserID else None)
    && data.parentAccountID == (if Kept(fields, ParentAccountID, e.parent.Some? || asked) then row.parentAccountID else None)
    && RestKept(data.rest, row.rest, fields)
  }

  ghost predicate JoinKept(data: JoinRow, row: JoinRow, fields: seq<Column>, e: JoinEdges, asked: bool) {
    && data.accountID == (if Kept(fields, AccountID, e.account.Some? || asked) then row.accountID else 0)
    && data.groupID == (if Kept(fields, GroupID, e.group.Some?) then row.groupID else 0)
    && RestKept(data.rest, row.rest, fields)
  }

  ghost predicate LeafKept(data: LeafRow, row: LeafRow, fields: seq<Column>) {
    data.id == row.id && RestKept(data.rest, row.rest, fields)
  }

  /** Usage logs are only loaded for accounts, whose loader asks for the foreign key. */
  ghost predicate LogKept(data: LogRow, row: LogRow, fields: seq<Column>) {
    && data.id == row.id && data.accountID == row.accountID
    && (forall c :: c in data.rest <==> c in row.rest && Kept(fields, c, c == AccountID))
    && forall c | c in data.rest && c in row.rest :: data.rest[c] == row.rest[c]
  }

  /** The field list that a query runs with, the loader of an O2M edge having asked for the foreign key or not. */
  function Asking(fields: seq<Column>, asked: bool, fk: Column): seq<Column> {
    if asked then WithForeignKey(fields, fk) else fields
  }

  lemma {:induction false} SelectedKept(rest: map<Column, Value>, cols: set<Column>, fields: seq<Column>)
    requires forall c | c in rest :: c in cols <==> Kept(fields, c, false)
    ensures RestKept(Selected(rest, cols), rest, fields)
  {
    hide Kept;
  }

  /** The columns of the table that an account query selects. */
  lemma {:induction false} AccountColumnKept(fields: seq<Column>, e: AccountEdges, asked: bool, c: Column)
    requires TableType(c) != NoColumn
    ensures c in AccountColumnsOf(Asking(fields, asked, ParentAccountID), LoadedOf(e)) <==>
            Kept(fields, c, c == Id || (c == ProxyID && e.proxy.Some?) || (c == OwnerUserID && e.owner.Some?)
                            || (c == ParentAccountID && (e.parent.Some? || asked)))
  {
    hide ACCOUNT_COLUMNS, ACCOUNT_GROUP_COLUMNS, TableType;
    ColumnsAreTheTable(c);
  }

  /** The columns that an account query selects: the table's, or the fields, the id and each needed key. */
  lemma {:induction false} AccountSelection(fields: seq<Column>, l: Loaded, c: Column)
    ensures c in AccountColumnsOf(fields, l) <==>
            if fields == [] then TableType(c) != NoColumn
            else c in fields || c == Id || (c == ProxyID && l.proxy) || (c == OwnerUserID && l.owner)
                 || (c == ParentAccountID && l.parent)
  {
    hide ACCOUNT_COLUMNS, ACCOUNT_GROUP_COLUMNS, TableType;
    ColumnsAreTheTable(c);
  }

  lemma {:induction false} JoinSelection(fields: seq<Column>, l: JoinLoaded, c: Column)
    ensures c in JoinColumnsOf(fields, l) <==>
            if fields == [] then JoinTableType(c) != NoColumn
            else c in fields || (c == AccountID && l.account) || (c == GroupID && l.group)
  {
    hide ACCOUNT_COLUMNS, ACCOUNT_GROUP_COLUMNS, JoinTableType;
    ColumnsAreTheTable(c);
  }

  lemma {:induction false} JoinColumnKept(fields: seq<Column>, e: JoinEdges, asked: bool, c: Column)
    requires JoinTableType(c) != NoColumn
    ensures c in JoinColumnsOf(Asking(fields, asked, AccountID), JoinLoadedOf(e)) <==>
            Kept(fields, c, (c == AccountID && (e.account.Some? || asked)) || (c == GroupID && e.group.Some?))
  {
    hide ACCOUNT_COLUMNS, ACCOUNT_GROUP_COLUMNS, JoinTableType;
    ColumnsAreTheTable(c);
  }

  lemma {:induction false} AccountProjectionKeeps(row: AccountRow, fields: seq<Column>, e: AccountEdges, asked: bool)
    requires WellTyped(row)
    ensures var cols := AccountColumnsOf(Asking(fields, asked, ParentAccountID), LoadedOf(e));
            AccountKept(ProjectAccount(row, cols), row, fields, e, asked)
  {
    hide AccountColumnsOf, Selected, RestKept, Asking, LoadedOf;
    var cols := AccountColumnsOf(Asking(fields, asked, ParentAccountID), LoadedOf(e));
    AccountColumnKept(fields, e, asked, Id);
    AccountColumnKept(fields, e, asked, ProxyID);
    AccountColumnKept(fields, e, asked, OwnerUserID);
    AccountColumnKept(fields, e, asked, ParentAccountID);
    forall c | c in row.rest ensures c in cols <==> Kept(fields, c, false) {
      AccountColumnKept(fields, e, asked, c);
    }
    SelectedKept(row.rest, cols, fields);
  }

  lemma {:induction false} JoinProjectionKeeps(row: JoinRow, fields: seq<Column>, e: JoinEdges, asked: bool)
    requires WellTypedJoin(row)
    ensures var cols := JoinColumnsOf(Asking(fields, asked, AccountID), JoinLoadedOf(e));
            JoinKept(ProjectJoin(row, cols), row, fields, e, asked)
  {
    hide JoinColumnsOf, Selected, RestKept, Asking, JoinLoadedOf;
    var cols := JoinColumnsOf(Asking(fields, asked, AccountID), JoinLoadedOf(e));
    JoinColumnKept(fields, e, asked, AccountID);
    JoinColumnKept(fields, e, asked, GroupID);
    forall c | c in row.rest ensures c in cols <==> Kept(fields, c, false) {
      JoinColumnKept(fields, e, asked, c);
    }
    SelectedKept(row.rest, cols, fields);
  }

  lemma {:induction false} LeafProjectionKeeps(row: LeafRow, fields: seq<Column>)
    ensures LeafKept(ProjectLeaf(row, fields), row, fields)
  {
  }

  lemma {:induction false} LogProjectionKeeps(row: LogRow, fields: seq<Column>)
    ensures LogKept(ProjectLog(row, WithForeignKey(fields, AccountID)), row, fields)
  {
  }

  /** Without a field list nothing is lost. */
  lemma {:induction false} NothingLost(data: AccountRow, row: AccountRow, e: AccountEdges, asked: bool)
    requires AccountKept(data, row, [], e, asked)
    ensures data == row
  {
    assert data.rest == row.rest;
  }

  lemma {:induction false} NothingLostOfJoin(data: JoinRow, row: JoinRow, e: JoinEdges, asked: bool)
    requires JoinKept(data, row, [], e, asked)
    ensures data == row
  {
    assert data.rest == row.rest;
  }
}
