/** The tables behind the account entity: column names, rows, and what a row looks like
    once only some of its columns have been selected. */
module Schema {
  import opened Wrappers

  /** A column name: one of "accounts", one of the join table, or any other string. */
  datatype Column =
    | Id | CreatedAt | UpdatedAt | DeletedAt | Name | AccountLevel | Notes | Platform | Type | Credentials
    | Extra | OwnerUserID | ShareMode | ShareStatus | SharePolicyID | ProxyID | ProxyFallbackOriginID
    | Concurrency | LoadFactor | Priority | RateMultiplier | Status | ErrorMessage | LastUsedAt | ExpiresAt
    | AutoPauseOnExpired | Schedulable | RateLimitedAt | RateLimitResetAt | OverloadUntil
    | TempUnschedulableUntil | TempUnschedulableReason | SessionWindowStart | SessionWindowEnd
    | SessionWindowStatus | ParentAccountID | QuotaDimension | AccountID | GroupID | Other(name: string)

  const ACCOUNT_COLUMNS: seq<Column> := [
    Id, CreatedAt, UpdatedAt, DeletedAt, Name, AccountLevel, Notes, Platform, Type, Credentials, Extra,
    OwnerUserID, ShareMode, ShareStatus, SharePolicyID, ProxyID, ProxyFallbackOriginID, Concurrency,
    LoadFactor, Priority, RateMultiplier, Status, ErrorMessage, LastUsedAt, ExpiresAt, AutoPauseOnExpired,
    Schedulable, RateLimitedAt, RateLimitResetAt, OverloadUntil, TempUnschedulableUntil,
    TempUnschedulableReason, SessionWindowStart, SessionWindowEnd, SessionWindowStatus, ParentAccountID,
    QuotaDimension]

  const ACCOUNT_GROUP_COLUMNS: seq<Column> := [AccountID, GroupID, Priority, CreatedAt]

  function Cols(s: seq<Column>): set<Column> {
    set c | c in s
  }

  /** What one cell holds. Of JSON it matters whether it decodes into the field's type. */
  datatype Value =
    | Null | Int(i: int) | Float(f: real) | Bool(b: bool) | Text(s: string) | Time(t: int) | Bytes(json: string, decodes: bool)

  /** A row of "accounts". The four columns that edges depend on are fields; every other
      non-NULL column is an entry of `rest`. */
  datatype AccountRow = AccountRow(id: int, proxyID: Option<int>, ownerUserID: Option<int>,
                                   parentAccountID: Option<int>, rest: map<Column, Value>)

  /** A row of "groups", "proxies" or "users": an id and further columns. */
  datatype LeafRow = LeafRow(id: int, rest: map<Column, Value>)

  /** A row of "usage_logs". */
  datatype LogRow = LogRow(id: int, accountID: int, rest: map<Column, Value>)

  /** A row of the join table "account_groups"; it has no id of its own. */
  datatype JoinRow = JoinRow(accountID: int, groupID: int, rest: map<Column, Value>)

  datatype Tables = Tables(accounts: set<AccountRow>, groups: set<LeafRow>, proxies: set<LeafRow>,
                           users: set<LeafRow>, logs: set<LogRow>, joins: set<JoinRow>)

  predicate SameID(r: AccountRow, r': AccountRow) { r.id == r'.id }
  predicate SameLeafID(r: LeafRow, r': LeafRow) { r.id == r'.id }
  predicate SameLogID(r: LogRow, r': LogRow) { r.id == r'.id }

  /** The id is a primary key. */
  ghost predicate UniqueAccounts(rows: set<AccountRow>) {
    forall r, r' {:trigger SameID(r, r')} | r in rows && r' in rows && SameID(r, r') :: r == r'
  }

  ghost predicate UniqueLeaves(rows: set<LeafRow>) {
    forall r, r' {:trigger SameLeafID(r, r')} | r in rows && r' in rows && SameLeafID(r, r') :: r == r'
  }

  ghost predicate UniqueLogs(rows: set<LogRow>) {
    forall r, r' {:trigger SameLogID(r, r')} | r in rows && r' in rows && SameLogID(r, r') :: r == r'
  }

  /** Primary keys, and the row types of "accounts" and "account_groups". */
  ghost predicate WellFormed(db: Tables) {
    && UniqueAccounts(db.accounts)
    && UniqueLogs(db.logs)
    && UniqueLeaves(db.groups) && UniqueLeaves(db.proxies) && UniqueLeaves(db.users)
    && (forall r | r in db.accounts :: WellTyped(r))
    && forall j | j in db.joins :: WellTypedJoin(j)
  }

  datatype Kind = NullInt64 | NullFloat64 | NullBool | NullString | NullTime | RawBytes | UnknownType

  /** The scan target that scanValues makes for a column of "accounts". */
  function ScanKind(c: Column): Kind {
    match c
    case Credentials | Extra => RawBytes
    case AutoPauseOnExpired | Schedulable => NullBool
    case RateMultiplier => NullFloat64
    case Id | OwnerUserID | SharePolicyID | ProxyID | ProxyFallbackOriginID | Concurrency | LoadFactor | Priority
      | ParentAccountID => NullInt64
    case Name | AccountLevel | Notes | Platform | Type | ShareMode | ShareStatus | Status | ErrorMessage
      | TempUnschedulableReason | SessionWindowStatus | QuotaDimension => NullString
    case CreatedAt | UpdatedAt | DeletedAt | LastUsedAt | ExpiresAt | RateLimitedAt | RateLimitResetAt
      | OverloadUntil | TempUnschedulableUntil | SessionWindowStart | SessionWindowEnd => NullTime
    case _ => UnknownType
  }

  /** The target type that assignValues insists on, field by field. UnknownType stands for any: what it
      does not know it keeps elsewhere. */
  function AssignKind(c: Column): Kind {
    match c
    case Id => NullInt64
    case CreatedAt => NullTime
    case UpdatedAt => NullTime
    case DeletedAt => NullTime
    case Name => NullString
    case AccountLevel => NullString
    case Notes => NullString
    case Platform => NullString
    case Type => NullString
    case Credentials => RawBytes
    case Extra => RawBytes
    case OwnerUserID => NullInt64
    case ShareMode => NullString
    case ShareStatus => NullString
    case SharePolicyID => NullInt64
    case ProxyID => NullInt64
    case ProxyFallbackOriginID => NullInt64
    case Concurrency => NullInt64
    case LoadFactor => NullInt64
    case Priority => NullInt64
    case RateMultiplier => NullFloat64
    case Status => NullString
    case ErrorMessage => NullString
    case LastUsedAt => NullTime
    case ExpiresAt => NullTime
    case AutoPauseOnExpired => NullBool
    case Schedulable => NullBool
    case RateLimitedAt => NullTime
    case RateLimitResetAt => NullTime
    case OverloadUntil => NullTime
    case TempUnschedulableUntil => NullTime
    case TempUnschedulableReason => NullString
    case SessionWindowStart => NullTime
    case SessionWindowEnd => NullTime
    case SessionWindowStatus => NullString
    case ParentAccountID => NullInt64
    case QuotaDimension => NullString
    case _ => UnknownType
  }

  /** The same two switches for "account_groups". */
  function JoinScanKind(c: Column): Kind {
    match c
    case AccountID | GroupID | Priority => NullInt64
    case CreatedAt => NullTime
    case _ => UnknownType
  }

  function JoinAssignKind(c: Column): Kind {
    match c
    case AccountID => NullInt64
    case GroupID => NullInt64
    case Priority => NullInt64
    case CreatedAt => NullTime
    case _ => UnknownType
  }

  /** Column types as the migration declares them. */
  datatype ColumnType =
    | TypeInt64 | TypeInt | TypeFloat64 | TypeBool | TypeString | TypeEnum | TypeTime | TypeJSON | NoColumn

  /** The columns of the table "accounts", as the migration creates it. */
  function TableType(c: Column): ColumnType {
    match c
    case Id => TypeInt64
    case CreatedAt | UpdatedAt | DeletedAt => TypeTime
    case Name | AccountLevel | Notes | Platform | Type => TypeString
    case Credentials | Extra => TypeJSON
    case ShareMode | ShareStatus => TypeString
    case SharePolicyID | ProxyFallbackOriginID => TypeInt64
    case Concurrency | LoadFactor | Priority => TypeInt
    case RateMultiplier => TypeFloat64
    case Status | ErrorMessage => TypeString
    case LastUsedAt | ExpiresAt => TypeTime
    case AutoPauseOnExpired | Schedulable => TypeBool
    case RateLimitedAt | RateLimitResetAt | OverloadUntil | TempUnschedulableUntil => TypeTime
    case TempUnschedulableReason => TypeString
    case SessionWindowStart | SessionWindowEnd => TypeTime
    case SessionWindowStatus => TypeString
    case QuotaDimension => TypeEnum
    case ProxyID | ParentAccountID | OwnerUserID => TypeInt64
    case _ => NoColumn
  }

  /** The columns of the table "account_groups". */
  function JoinTableType(c: Column): ColumnType {
    match c
    case Priority => TypeInt
    case CreatedAt => TypeTime
    case AccountID | GroupID => TypeInt64
    case _ => NoColumn
  }

  /** The columns of "accounts" that may not be NULL. */
  predicate NotNull(c: Column) {
    match c
    case Id | CreatedAt | UpdatedAt | Name | AccountLevel | Platform | Type | Credentials | Extra => true
    case ShareMode | ShareStatus | Concurrency | Priority | RateMultiplier | Status => true
    case AutoPauseOnExpired | Schedulable | QuotaDimension => true
    case _ => false
  }

  /** Those whose text has a maximal length. */
  predicate Sized(c: Column) {
    match c
    case Name | AccountLevel | Platform | Type | ShareMode | ShareStatus | Status | SessionWindowStatus => true
    case _ => false
  }

  /** Those with a constant default. */
  predicate TableDefault(c: Column) {
    match c
    case AccountLevel | ShareMode | ShareStatus | Concurrency | Priority | RateMultiplier | Status => true
    case AutoPauseOnExpired | Schedulable | QuotaDimension => true
    case _ => false
  }

  /** The scan target that takes the values of a type. */
  function KindOf(t: ColumnType): Kind {
    match t
    case TypeInt64 | TypeInt => NullInt64
    case TypeFloat64 => NullFloat64
    case TypeBool => NullBool
    case TypeString | TypeEnum => NullString
    case TypeTime => NullTime
    case TypeJSON => RawBytes
    case NoColumn => UnknownType
  }

  /** Both switches fit the table: no column of it is unknown to them, and none has the wrong target. */
  lemma {:induction false} SwitchesAgree(c: Column)
    ensures ScanKind(c) == AssignKind(c) == KindOf(TableType(c))
  {
  }

  lemma {:induction false} JoinSwitchesAgree(c: Column)
    ensures JoinScanKind(c) == JoinAssignKind(c) == KindOf(JoinTableType(c))
  {
  }

  /** A scan target and what the scan left in it; Null where its Valid flag is false. */
  datatype Target = Target(kind: Kind, v: Value) {
    predicate Fits() { HasKind(v, kind) }
  }

  /** A value that a scan into a target of kind k can leave there. */
  predicate HasKind(v: Value, k: Kind) {
    match k
    case NullInt64 => v.Null? || v.Int?
    case NullFloat64 => v.Null? || v.Float?
    case NullBool => v.Null? || v.Bool?
    case NullString => v.Null? || v.Text?
    case NullTime => v.Null? || v.Time?
    case RawBytes => v.Null? || v.Bytes?
    case UnknownType => true
  }

  predicate IsEdgeColumn(c: Column) {
    c.Id? || c.ProxyID? || c.OwnerUserID? || c.ParentAccountID?
  }

  /** Each further column that is not NULL is one of the table and holds a value of its type. */
  ghost predicate WellTyped(r: AccountRow) {
    forall c | c in r.rest :: !IsEdgeColumn(c) && Stores(TableType(c), r.rest[c])
  }

  ghost predicate WellTypedJoin(r: JoinRow) {
    forall c | c in r.rest :: c != AccountID && c != GroupID && Stores(JoinTableType(c), r.rest[c])
  }

  /** A column of type t can hold v; JSON is not empty and decodes. */
  ghost predicate Stores(t: ColumnType, v: Value) {
    match t
    case TypeInt64 | TypeInt => v.Int?
    case TypeFloat64 => v.Float?
    case TypeBool => v.Bool?
    case TypeString | TypeEnum => v.Text?
    case TypeTime => v.Time?
    case TypeJSON => v.Bytes? && v.json != "" && v.decodes
    case NoColumn => false
  }

  function Nullable(v: Option<int>): Value {
    if v.Some? then Int(v.value) else Null
  }

  /** The cell of a row in a column. */
  function Cell(r: AccountRow, c: Column): Value {
    if c == Id then Int(r.id)
    else if c == ProxyID then Nullable(r.proxyID)
    else if c == OwnerUserID then Nullable(r.ownerUserID)
    else if c == ParentAccountID then Nullable(r.parentAccountID)
    else if c in r.rest then r.rest[c] else Null
  }

  /** What remains of a row when only some columns are selected: zero values elsewhere. */
  function ProjectAccount(r: AccountRow, cols: set<Column>): AccountRow {
    AccountRow(
      if Id in cols then r.id else 0,
      if ProxyID in cols then r.proxyID else None,
      if OwnerUserID in cols then r.ownerUserID else None,
      if ParentAccountID in cols then r.parentAccountID else None,
      Selected(r.rest, cols))
  }

  function Selected(rest: map<Column, Value>, cols: set<Column>): map<Column, Value> {
    map c | c in rest && c in cols :: rest[c]
  }

  lemma {:induction false} SelectOneMore(rest: map<Column, Value>, cols: set<Column>, c: Column)
    ensures Selected(rest, cols + {c}) == if c in rest then Selected(rest, cols)[c := rest[c]] else Selected(rest, cols)
  {
  }

  const BLANK := AccountRow(0, None, None, None, map[])

  lemma {:induction false} ProjectNothing(r: AccountRow)
    ensures ProjectAccount(r, Cols([])) == BLANK
  {
    assert ProjectAccount(r, Cols([])).rest == map[];
  }

  /** Why a scanned value is refused: a target of another type, or JSON that does not decode. */
  datatype ScanError = Mismatch | UnexpectedType(column: Column) | BadJSON(column: Column)

  function Refusal(c: Column, t: Target, expected: Kind): Option<ScanError> {
    if expected == UnknownType then None
    else if t.kind != expected then Some(UnexpectedType(c))
    else if t.v.Bytes? && t.v.json != "" && !t.v.decodes then Some(BadJSON(c))
    else None
  }

  /** What moving one scanned value into an account does to its fields: NULL leaves the zero value,
      and a column the entity does not know is kept elsewhere. */
  function AssignValue(data: AccountRow, c: Column, t: Target): AccountRow
    requires t.Fits() && Refusal(c, t, AssignKind(c)).None?
  {
    if c == Id then data.(id := if t.v.Int? then t.v.i else 0)
    else if t.v.Null? || AssignKind(c) == UnknownType || (t.v.Bytes? && t.v.json == "") then data
    else if c == ProxyID then data.(proxyID := Some(t.v.i))
    else if c == OwnerUserID then data.(ownerUserID := Some(t.v.i))
    else if c == ParentAccountID then data.(parentAccountID := Some(t.v.i))
    else data.(rest := data.rest[c := t.v])
  }

  lemma {:induction false} AssignExtendsProjection(row: AccountRow, cols: set<Column>, c: Column)
    requires WellTyped(row)
    ensures var t := Target(ScanKind(c), Cell(row, c));
            && t.Fits() && Refusal(c, t, AssignKind(c)).None?
            && AssignValue(ProjectAccount(row, cols), c, t) == ProjectAccount(row, cols + {c})
  {
    hide ScanKind, AssignKind, TableType, HasKind, Target.Fits, Refusal, WellTyped, Selected;
    SwitchesAgree(c);
    EdgeKinds();
    CellFits(row, c);
    SelectOneMore(row.rest, cols, c);
  }

  lemma {:induction false} CellFits(row: AccountRow, c: Column)
    requires WellTyped(row)
    ensures var t := Target(ScanKind(c), Cell(row, c)); t.Fits() && Refusal(c, t, ScanKind(c)).None?
    ensures !IsEdgeColumn(c) && c in row.rest ==> ScanKind(c) != UnknownType && Stores(TableType(c), row.rest[c])
    ensures IsEdgeColumn(c) ==> c !in row.rest
  {
    hide ScanKind, TableType;
    SwitchesAgree(c);
    EdgeKinds();
  }

  lemma {:induction false} EdgeKinds()
    ensures forall c | IsEdgeColumn(c) :: ScanKind(c) == NullInt64
  {
  }

  /** In terms of the table: a value is refused only for a column of the table, when its target is not of the
      column's type or its JSON does not decode. */
  lemma {:induction false} RefusedByType(c: Column, t: Target)
    ensures Refusal(c, t, AssignKind(c)) ==
            if TableType(c) == NoColumn then None
            else if t.kind != KindOf(TableType(c)) then Some(UnexpectedType(c))
            else if t.v.Bytes? && t.v.json != "" && !t.v.decodes then Some(BadJSON(c)) else None
  {
    hide TableType, AssignKind;
    SwitchesAgree(c);
  }

  /** An accepted value becomes the cell of its own column; NULL and empty JSON leave what was there, except
      that an id becomes zero. */
  lemma {:induction false} AssignSetsCell(data: AccountRow, c: Column, t: Target)
    requires t.Fits() && Refusal(c, t, AssignKind(c)).None?
    ensures Cell(AssignValue(data, c, t), c) ==
            if TableType(c) == NoColumn then Cell(data, c)
            else if t.v.Int? || (c != Id && t.v != Null && (t.v.Bytes? ==> t.v.json != "")) then t.v
            else if c == Id then Int(0) else Cell(data, c)
  {
    hide TableType, AssignKind, ScanKind;
    SwitchesAgree(c);
    EdgeKinds();
  }

  /** And it touches no other column. */
  lemma {:induction false} AssignKeepsCells(data: AccountRow, c: Column, t: Target, d: Column)
    requires t.Fits() && Refusal(c, t, AssignKind(c)).None? && d != c
    ensures Cell(AssignValue(data, c, t), d) == Cell(data, d)
  {
    hide TableType, AssignKind, ScanKind, HasKind;
  }

  /** The cell of a join row in a column. */
  function JoinCell(r: JoinRow, c: Column): Value {
    if c == AccountID then Int(r.accountID) else if c == GroupID then Int(r.groupID)
    else if c in r.rest then r.rest[c] else Null
  }

  const BLANK_JOIN := JoinRow(0, 0, map[])

  function AssignJoinValue(data: JoinRow, c: Column, t: Target): JoinRow
    requires t.Fits() && Refusal(c, t, JoinAssignKind(c)).None?
  {
    if t.v.Null? || JoinAssignKind(c) == UnknownType then data
    else if c == AccountID then data.(accountID := t.v.i)
    else if c == GroupID then data.(groupID := t.v.i)
    else data.(rest := data.rest[c := t.v])
  }

  lemma {:induction false} AssignExtendsJoin(row: JoinRow, cols: set<Column>, c: Column)
    requires WellTypedJoin(row)
    ensures var t := Target(JoinScanKind(c), JoinCell(row, c));
            && t.Fits() && Refusal(c, t, JoinAssignKind(c)).None?
            && AssignJoinValue(ProjectJoin(row, cols), c, t) == ProjectJoin(row, cols + {c})
  {
    hide JoinAssignKind, JoinTableType, Selected;
    JoinSwitchesAgree(c);
    SelectOneMore(row.rest, cols, c);
  }

  lemma {:induction false} ProjectNoJoin(r: JoinRow)
    ensures ProjectJoin(r, Cols([])) == BLANK_JOIN
  {
    assert ProjectJoin(r, Cols([])).rest == map[];
  }

  /** As ProjectAccount; the id of a leaf entity is always among its selected columns. */
  function ProjectLeaf(r: LeafRow, fields: seq<Column>): LeafRow {
    if fields == [] then r else LeafRow(r.id, map c | c in r.rest && c in fields :: r.rest[c])
  }

  function ProjectLog(r: LogRow, fields: seq<Column>): LogRow {
    if fields == [] then r
    else LogRow(r.id, if AccountID in fields then r.accountID else 0, map c | c in r.rest && c in fields :: r.rest[c])
  }

  function ProjectJoin(r: JoinRow, cols: set<Column>): JoinRow {
    JoinRow(if AccountID in cols then r.accountID else 0,
            if GroupID in cols then r.groupID else 0,
            Selected(r.rest, cols))
  }

  /** QueryContext.AppendFieldOnce: the field is added unless it is there. */
  function AppendOnce(fields: seq<Column>, c: Column): seq<Column> {
    if c in fields then fields else fields + [c]
  }

  lemma {:induction false} ColsNothing()
    ensures Cols([]) == {}
  {
  }

  lemma {:induction false} ColsAppend(s: seq<Column>, c: Column)
    ensures Cols(s + [c]) == Cols(s) + {c} == Cols(AppendOnce(s, c))
  {
  }

  /** loadChildren and its siblings ask for the foreign key whenever fields are selected at all. */
  function WithForeignKey(fields: seq<Column>, fk: Column): seq<Column> {
    if |fields| > 0 then AppendOnce(fields, fk) else fields
  }
}
