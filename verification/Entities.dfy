/** Entities as they live on the heap, with the edges that eager loading fills in. */
module Entities {
  import opened Wrappers
  import opened Schema
  import opened Relational

  /** Why an edge accessor has no value. */
  datatype EdgeError = NotLoaded | NotFound

  /** Group, Proxy and User: entities whose own edges are not modelled. */
  class Leaf {
    const row: LeafRow

    constructor (row: LeafRow)
      ensures this.row == row
    {
      this.row := row;
    }
  }

  class UsageLog {
    const row: LogRow

    constructor (row: LogRow)
      ensures this.row == row
    {
      this.row := row;
    }
  }

  ghost predicate AcceptedTo(columns: seq<Column>, values: seq<Target>, expected: Column -> Kind, n: int)
    requires 0 <= n <= |columns| <= |values|
  {
    forall k | 0 <= k < n :: Refusal(columns[k], values[k], expected(columns[k])).None?
  }

  /** The first n values are accepted, and err is why the next is refused, if there is one. */
  ghost predicate StopsAt(columns: seq<Column>, values: seq<Target>, expected: Column -> Kind, n: int,
                          err: Option<ScanError>)
    requires |columns| <= |values|
  {
    && 0 <= n <= |columns| && AcceptedTo(columns, values, expected, n)
    && match err
       case None => n == |columns|
       case Some(_) => n < |columns| && Refusal(columns[n], values[n], expected(columns[n])) == err
  }

  /** The fields after the first n values have been moved into them. */
  ghost function Moved(data: AccountRow, columns: seq<Column>, values: seq<Target>, n: nat): AccountRow
    requires n <= |columns| <= |values| && AcceptedTo(columns, values, AssignKind, n) && forall t | t in values :: t.Fits()
  {
    if n == 0 then data else AssignValue(Moved(data, columns, values, n - 1), columns[n - 1], values[n - 1])
  }

  ghost function JoinMoved(columns: seq<Column>, values: seq<Target>, n: nat): JoinRow
    requires n <= |columns| <= |values| && AcceptedTo(columns, values, JoinAssignKind, n) && forall t | t in values :: t.Fits()
  {
    if n == 0 then BLANK_JOIN else AssignJoinValue(JoinMoved(columns, values, n - 1), columns[n - 1], values[n - 1])
  }

  class Account {
    // the table row behind this object, and the graph it is to stand for
    ghost const origin: AccountRow
    ghost const view: AccountView

    var data: AccountRow
    var loaded: Loaded
    var groups: seq<Leaf>
    var proxy: Leaf?
    var owner: Leaf?
    var parent: Account?
    var children: seq<Account>
    var usageLogs: seq<UsageLog>
    var accountGroups: seq<AccountGroup>

    constructor (loaded: Loaded, ghost origin: AccountRow, ghost view: AccountView)
      ensures this.origin == origin && this.view == view && this.loaded == loaded
      ensures data == BLANK
      ensures groups == [] && proxy == null && owner == null && parent == null
      ensures children == [] && usageLogs == [] && accountGroups == []
    {
      this.origin, this.view, this.loaded := origin, view, loaded;
      data := BLANK;
      groups, proxy, owner, parent := [], null, null, null;
      children, usageLogs, accountGroups := [], [], [];
    }

    /** Moves scanned values into the fields, one column after the other; the first that is refused
        is the error. Values scanned from a table row never are, and leave exactly the row's selected
        columns. */
    method AssignValues(columns: seq<Column>, values: seq<Target>, ghost row: AccountRow)
      returns (err: Option<ScanError>, ghost n: nat)
      requires forall t | t in values :: t.Fits()
      modifies this`data
      ensures |values| < |columns| ==> err == Some(Mismatch) && data == old(data)
      ensures |values| >= |columns| ==>
        StopsAt(columns, values, AssignKind, n, err) && data == Moved(old(data), columns, values, n)
      ensures old(data) == BLANK && WellTyped(row) && |values| >= |columns|
              && (forall i | 0 <= i < |columns| :: values[i] == Target(ScanKind(columns[i]), Cell(row, columns[i])))
              ==> err.None? && data == ProjectAccount(row, Cols(columns))
    {
      hide ProjectAccount, AssignValue, Cell, WellTyped, Target.Fits, ScanKind, AssignKind, Cols, Refusal;
      n := 0;
      if |values| < |columns| {
        return Some(Mismatch), n;
      }
      ghost var scanned := old(data) == BLANK && WellTyped(row)
                           && forall i | 0 <= i < |columns| :: values[i] == Target(ScanKind(columns[i]), Cell(row, columns[i]));
      ProjectNothing(row);
      assert columns[..0] == [];
      for i := 0 to |columns|
        invariant n == i && AcceptedTo(columns, values, AssignKind, i) && data == Moved(old(data), columns, values, i)
        invariant scanned ==> data == ProjectAccount(row, Cols(columns[..i]))
      {
        if scanned {
          AssignExtendsProjection(row, Cols(columns[..i]), columns[i]);
          ColsAppend(columns[..i], columns[i]);
          assert columns[..i] + [columns[i]] == columns[..i + 1];
        }
        err := Refusal(columns[i], values[i], AssignKind(columns[i]));
        if err.Some? {
          return;
        }
        data, n := AssignValue(data, columns[i], values[i]), i + 1;
      }
      assert columns[..|columns|] == columns;
      err := None;
    }

    // ----- edge accessors -----

    function GroupsOrErr(): Result<seq<Leaf>, EdgeError>
      reads this
    {
      if loaded.groups then Ok(groups) else Err(NotLoaded)
    }

    function ProxyOrErr(): Result<Leaf, EdgeError>
      reads this
    {
      if proxy != null then Ok(proxy) else if loaded.proxy then Err(NotFound) else Err(NotLoaded)
    }

    function OwnerOrErr(): Result<Leaf, EdgeError>
      reads this
    {
      if owner != null then Ok(owner) else if loaded.owner then Err(NotFound) else Err(NotLoaded)
    }

    function ParentOrErr(): Result<Account, EdgeError>
      reads this
    {
      if parent != null then Ok(parent) else if loaded.parent then Err(NotFound) else Err(NotLoaded)
    }

    function ChildrenOrErr(): Result<seq<Account>, EdgeError>
      reads this
    {
      if loaded.children then Ok(children) else Err(NotLoaded)
    }

    function UsageLogsOrErr(): Result<seq<UsageLog>, EdgeError>
      reads this
    {
      if loaded.usageLogs then Ok(usageLogs) else Err(NotLoaded)
    }

    function AccountGroupsOrErr(): Result<seq<AccountGroup>, EdgeError>
      reads this
    {
      if loaded.accountGroups then Ok(accountGroups) else Err(NotLoaded)
    }
  }

  class AccountGroup {
    ghost const origin: JoinRow
    ghost const view: JoinView

    const data: JoinRow
    const loaded: JoinLoaded
    var account: Account?
    var group: Leaf?

    /** The fields that the scanned values leave; the object is made with them. */
    static method AssignValues(columns: seq<Column>, values: seq<Target>, ghost row: JoinRow)
      returns (err: Option<ScanError>, data: JoinRow, ghost n: nat)
      requires forall t | t in values :: t.Fits()
      ensures |values| < |columns| ==> err == Some(Mismatch)
      ensures |values| >= |columns| ==>
        StopsAt(columns, values, JoinAssignKind, n, err) && data == JoinMoved(columns, values, n)
      ensures WellTypedJoin(row) && |values| >= |columns|
              && (forall i | 0 <= i < |columns| :: values[i] == Target(JoinScanKind(columns[i]), JoinCell(row, columns[i])))
              ==> err.None? && data == ProjectJoin(row, Cols(columns))
    {
      hide ProjectJoin, AssignJoinValue, JoinCell, WellTypedJoin, Target.Fits, JoinScanKind, JoinAssignKind, Cols, Refusal;
      data, n := BLANK_JOIN, 0;
      if |values| < |columns| {
        return Some(Mismatch), data, n;
      }
      ghost var scanned := WellTypedJoin(row) && forall i | 0 <= i < |columns| ::
        values[i] == Target(JoinScanKind(columns[i]), JoinCell(row, columns[i]));
      ProjectNoJoin(row);
      assert columns[..0] == [];
      for i := 0 to |columns|
        invariant n == i && AcceptedTo(columns, values, JoinAssignKind, i) && data == JoinMoved(columns, values, i)
        invariant scanned ==> data == ProjectJoin(row, Cols(columns[..i]))
      {
        if scanned {
          AssignExtendsJoin(row, Cols(columns[..i]), columns[i]);
          ColsAppend(columns[..i], columns[i]);
          assert columns[..i] + [columns[i]] == columns[..i + 1];
        }
        err := Refusal(columns[i], values[i], JoinAssignKind(columns[i]));
        if err.Some? {
          return;
        }
        data, n := AssignJoinValue(data, columns[i], values[i]), i + 1;
      }
      assert columns[..|columns|] == columns;
      err := None;
    }

    constructor (data: JoinRow, loaded: JoinLoaded, ghost origin: JoinRow, ghost view: JoinView)
      ensures this.data == data && this.loaded == loaded && this.origin == origin && this.view == view
      ensures account == null && group == null
    {
      this.data, this.loaded, this.origin, this.view := data, loaded, origin, view;
      account, group := null, null;
    }

    function AccountOrErr(): Result<Account, EdgeError>
      reads this
    {
      if account != null then Ok(account) else if loaded.account then Err(NotFound) else Err(NotLoaded)
    }

    function GroupOrErr(): Result<Leaf, EdgeError>
      reads this
    {
      if group != null then Ok(group) else if loaded.group then Err(NotFound) else Err(NotLoaded)
    }
  }

  // ----- complete object graphs -----

  /** A set of objects that edges do not leave. */
  datatype Graph = Graph(accounts: set<Account>, joins: set<AccountGroup>)

  ghost function LeafRows(s: seq<Leaf>): set<LeafRow> { set l | l in s :: l.row }
  ghost function LogRows(s: seq<UsageLog>): set<LogRow> { set l | l in s :: l.row }
  ghost function AccountViews(s: seq<Account>): set<AccountView> { set a | a in s :: a.view }
  ghost function JoinViews(s: seq<AccountGroup>): set<JoinView> { set j | j in s :: j.view }
  ghost function LeafRowOf(l: Leaf?): Option<LeafRow> { if l == null then None else Some(l.row) }
  ghost function ViewOf(a: Account?): Option<AccountView> { if a == null then None else Some(a.view) }

  // ----- what a list of neighbours may hold only once -----

  function LeafID(l: Leaf): int { l.row.id }
  function LogID(l: UsageLog): int { l.row.id }
  ghost function ViewID(a: Account): int { a.view.data.id }
  ghost function JoinOrigin(j: AccountGroup): JoinRow { j.origin }

  /** The fields of an account agree with the graph it stands for, one edge deep. */
  ghost predicate Settled(a: Account)
    reads a
  {
    && a.data == a.view.data && a.loaded == a.view.loaded
    && LeafRows(a.groups) == a.view.groups && OncePer(a.groups, LeafID)
    && LeafRowOf(a.proxy) == a.view.proxy
    && LeafRowOf(a.owner) == a.view.owner
    && ViewOf(a.parent) == a.view.parent
    && AccountViews(a.children) == a.view.children && OncePer(a.children, ViewID)
    && LogRows(a.usageLogs) == a.view.usageLogs && OncePer(a.usageLogs, LogID)
    && JoinViews(a.accountGroups) == a.view.accountGroups && OncePer(a.accountGroups, JoinOrigin)
  }

  ghost predicate JoinSettled(j: AccountGroup)
    reads j
  {
    && j.view.key == j.origin
    && j.data == j.view.data && j.loaded == j.view.loaded
    && ViewOf(j.account) == j.view.account
    && LeafRowOf(j.group) == j.view.group
  }

  ghost predicate EdgesIn(a: Account, g: Graph)
    reads a
  {
    && (a.parent != null ==> a.parent in g.accounts)
    && (forall c | c in a.children :: c in g.accounts)
    && (forall j | j in a.accountGroups :: j in g.joins)
  }

  ghost predicate JoinEdgesIn(j: AccountGroup, g: Graph)
    reads j
  {
    j.account != null ==> j.account in g.accounts
  }

  /** Following edges from any object of g stays in g, and every object is settled. */
  ghost predicate Complete(g: Graph)
    reads g.accounts, g.joins
  {
    && (forall a | a in g.accounts :: Settled(a) && EdgesIn(a, g))
    && (forall j | j in g.joins :: JoinSettled(j) && JoinEdgesIn(j, g))
  }

  ghost function Union(g: Graph, h: Graph): Graph {
    Graph(g.accounts + h.accounts, g.joins + h.joins)
  }
}
