/** Creating one account: default values, the checks before an insert, and the row they let
    through. */
module Creation {
  import opened Wrappers
  import opened Schema

  /** The columns set on a mutation. */
  type Fields = map<Column, Value>

  /** The package variables of ent/account that ent/runtime initialises. A default function that
      was never initialised is None; otherwise `funcs` holds the value it returns. */
  datatype Runtime = Runtime(funcs: map<Column, Option<Value>>, consts: map<Column, Value>,
                             valid: (Column, Value) -> bool) {
    ghost predicate Declared() {
      funcs.Keys == FuncDefaults() && consts.Keys == DefaultedColumns() - FuncDefaults()
    }

    /** The default value of a column, unless its function is uninitialised. */
    function Default(c: Column): Option<Value>
      requires Declared() && c in DefaultedColumns()
    {
      if c in funcs then funcs[c] else Some(consts[c])
    }
  }

  /** How many columns have a default, and which they are in the order in which they are set. */
  const DEFAULTS := 14

  function DefaultedAt(k: nat): Column
    requires k < DEFAULTS
  {
    match k
    case 0 => CreatedAt
    case 1 => UpdatedAt
    case 2 => AccountLevel
    case 3 => Credentials
    case 4 => Extra
    case 5 => ShareMode
    case 6 => ShareStatus
    case 7 => Concurrency
    case 8 => Priority
    case 9 => RateMultiplier
    case 10 => Status
    case 11 => AutoPauseOnExpired
    case 12 => Schedulable
    case _ => QuotaDimension
  }

  function DefaultedColumns(): set<Column> {
    {CreatedAt, UpdatedAt, AccountLevel, Credentials, Extra, ShareMode, ShareStatus, Concurrency, Priority,
     RateMultiplier, Status, AutoPauseOnExpired, Schedulable, QuotaDimension}
  }

  function DefaultIndex(c: Column): int
    requires c in DefaultedColumns()
  {
    match c
    case CreatedAt => 0
    case UpdatedAt => 1
    case AccountLevel => 2
    case Credentials => 3
    case Extra => 4
    case ShareMode => 5
    case ShareStatus => 6
    case Concurrency => 7
    case Priority => 8
    case RateMultiplier => 9
    case Status => 10
    case AutoPauseOnExpired => 11
    case Schedulable => 12
    case _ => 13
  }

  lemma {:induction false} DefaultIndexInverse(c: Column)
    requires c in DefaultedColumns()
    ensures 0 <= DefaultIndex(c) < DEFAULTS && DefaultedAt(DefaultIndex(c)) == c
  {
  }

  lemma {:induction false} DefaultedAtInverse(k: nat)
    requires k < DEFAULTS
    ensures DefaultedAt(k) in DefaultedColumns() && DefaultIndex(DefaultedAt(k)) == k
  {
  }

  /** The first k columns with a default. */
  ghost function FirstColumns(k: nat): set<Column> {
    set c | c in DefaultedColumns() && DefaultIndex(c) < k
  }

  lemma {:induction false} FirstColumnsStep(k: nat)
    requires k < DEFAULTS
    ensures FirstColumns(k + 1) == FirstColumns(k) + {DefaultedAt(k)}
  {
    hide DefaultedColumns, DefaultIndex, DefaultedAt;
    DefaultedAtInverse(k);
    forall c | c in DefaultedColumns() ensures DefaultIndex(c) == k <==> c == DefaultedAt(k) {
      DefaultIndexInverse(c);
    }
  }

  /** Those whose default is a function that may be nil. */
  function FuncDefaults(): set<Column> {
    {CreatedAt, UpdatedAt, Credentials, Extra}
  }

  function RequiredColumns(): set<Column> {
    {CreatedAt, UpdatedAt, Name, AccountLevel, Platform, Type, Credentials, Extra, ShareMode, ShareStatus,
     Concurrency, Priority, RateMultiplier, Status, AutoPauseOnExpired, Schedulable, QuotaDimension}
  }

  function ValidatedColumns(): set<Column> {
    {Name, AccountLevel, Platform, Type, ShareMode, ShareStatus, Status, SessionWindowStatus, QuotaDimension}
  }

  datatype ValidationError = Missing(column: Column) | Invalid(column: Column)

  lemma {:induction false} AllColumns()
    ensures FirstColumns(0) == {} && FirstColumns(DEFAULTS) == DefaultedColumns()
  {
    forall c | c in DefaultedColumns() ensures c in FirstColumns(DEFAULTS) {
      DefaultIndexInverse(c);
    }
  }

  /** The first k columns with a default are set or can be. */
  ghost predicate Initialised(fields: Fields, rt: Runtime, k: nat)
    requires rt.Declared()
  {
    forall c | c in FirstColumns(k) :: c in fields || rt.Default(c).Some?
  }

  /** The fields once the first k columns with a default have been given it. */
  ghost function Defaulted(fields: Fields, rt: Runtime, k: nat): (r: Fields)
    requires rt.Declared() && Initialised(fields, rt, k)
    ensures forall c | c in fields :: c in r && r[c] == fields[c]
    ensures r.Keys == fields.Keys + FirstColumns(k)
  {
    map c | c in fields.Keys + FirstColumns(k) :: if c in fields then fields[c] else rt.Default(c).value
  }

  lemma {:induction false} DefaultedStep(fields: Fields, rt: Runtime, k: nat)
    requires rt.Declared() && k < DEFAULTS && Initialised(fields, rt, k)
    requires DefaultedAt(k) in DefaultedColumns() && (DefaultedAt(k) in fields || rt.Default(DefaultedAt(k)).Some?)
    ensures Initialised(fields, rt, k + 1)
    ensures var c, r := DefaultedAt(k), Defaulted(fields, rt, k);
            Defaulted(fields, rt, k + 1) == if c in fields then r else r[c := rt.Default(c).value]
  {
    hide DefaultedColumns, DefaultedAt, FirstColumns;
    FirstColumnsStep(k);
  }

  /** The position of the first column that is unset and has no default value. */
  ghost function FirstUninitialised(fields: Fields, rt: Runtime): (j: nat)
    requires rt.Declared()
    ensures j <= DEFAULTS && Initialised(fields, rt, j)
    ensures j < DEFAULTS ==> DefaultedAt(j) in DefaultedColumns() && DefaultedAt(j) !in fields && rt.Default(DefaultedAt(j)).None?
  {
    AllColumns();
    UninitialisedFrom(fields, rt, 0)
  }

  ghost function UninitialisedFrom(fields: Fields, rt: Runtime, k: nat): (j: nat)
    requires rt.Declared() && k <= DEFAULTS && Initialised(fields, rt, k)
    ensures k <= j <= DEFAULTS && Initialised(fields, rt, j)
    ensures j < DEFAULTS ==> DefaultedAt(j) in DefaultedColumns() && DefaultedAt(j) !in fields && rt.Default(DefaultedAt(j)).None?
    decreases DEFAULTS - k
  {
    if k == DEFAULTS then k
    else
      DefaultedAtInverse(k);
      var c := DefaultedAt(k);
      if c !in fields && rt.Default(c).None? then k
      else
        DefaultedStep(fields, rt, k);
        UninitialisedFrom(fields, rt, k + 1)
  }

  /** The first k defaults are in, and none of them was missing. */
  ghost predicate FilledTo(now: Fields, before: Fields, rt: Runtime, k: nat)
    requires rt.Declared()
  {
    k <= FirstUninitialised(before, rt) && Initialised(before, rt, k) && now == Defaulted(before, rt, k)
  }

  lemma {:induction false} FilledToStart(before: Fields, rt: Runtime)
    requires rt.Declared()
    ensures FilledTo(before, before, rt, 0)
  {
    AllColumns();
  }

  lemma {:induction false} FilledToEnd(now: Fields, before: Fields, rt: Runtime)
    requires rt.Declared() && FilledTo(now, before, rt, DEFAULTS)
    ensures FirstUninitialised(before, rt) == DEFAULTS && now == Defaulted(before, rt, DEFAULTS)
  {
    hide Defaulted, Initialised;
  }

  // ----- check -----

  datatype Test = Required(c: Column) | Validated(c: Column) {
    function Failure(fields: Fields, rt: Runtime): Option<ValidationError> {
      match this
      case Required(c) => if c in fields then None else Some(Missing(c))
      case Validated(c) => if c in fields && !rt.valid(c, fields[c]) then Some(Invalid(c)) else None
    }
  }

  /** The tests of check, in its order. */
  const TESTS := 26

  function TestAt(k: nat): Test
    requires k < TESTS
  {
    match k
    case 0 => Required(CreatedAt)
    case 1 => Required(UpdatedAt)
    case 2 => Required(Name)
    case 3 => Validated(Name)
    case 4 => Required(AccountLevel)
    case 5 => Validated(AccountLevel)
    case 6 => Required(Platform)
    case 7 => Validated(Platform)
    case 8 => Required(Type)
    case 9 => Validated(Type)
    case 10 => Required(Credentials)
    case 11 => Required(Extra)
    case 12 => Required(ShareMode)
    case 13 => Validated(ShareMode)
    case 14 => Required(ShareStatus)
    case 15 => Validated(ShareStatus)
    case 16 => Required(Concurrency)
    case 17 => Required(Priority)
    case 18 => Required(RateMultiplier)
    case 19 => Required(Status)
    case 20 => Validated(Status)
    case 21 => Required(AutoPauseOnExpired)
    case 22 => Required(Schedulable)
    case 23 => Validated(SessionWindowStatus)
    case 24 => Required(QuotaDimension)
    case _ => Validated(QuotaDimension)
  }

  ghost predicate FailsFirst(fields: Fields, rt: Runtime, k: nat, i: int) {
    k <= i < TESTS && TestAt(i).Failure(fields, rt).Some? && forall j | k <= j < i :: TestAt(j).Failure(fields, rt).None?
  }

  /** The first failure from test k on. */
  ghost function FirstFailure(fields: Fields, rt: Runtime, k: nat): (e: Option<ValidationError>)
    requires k <= TESTS
    ensures e.None? <==> forall i | k <= i < TESTS :: TestAt(i).Failure(fields, rt).None?
    ensures e.Some? ==> exists i :: k <= i < TESTS && FailsFirst(fields, rt, k, i) && TestAt(i).Failure(fields, rt) == e
    decreases TESTS - k
  {
    if k == TESTS then None
    else if TestAt(k).Failure(fields, rt).Some? then TestAt(k).Failure(fields, rt)
    else FirstFailure(fields, rt, k + 1)
  }

  ghost function CheckOf(fields: Fields, rt: Runtime): Option<ValidationError> {
    FirstFailure(fields, rt, 0)
  }

  /** Every required column is set, and every validator accepts what is set. */
  ghost predicate Acceptable(fields: Fields, rt: Runtime) {
    && (forall c | c in RequiredColumns() :: c in fields)
    && (forall c | c in ValidatedColumns() && c in fields :: rt.valid(c, fields[c]))
  }

  lemma {:induction false} TestOfRequired(c: Column) returns (i: int)
    requires c in RequiredColumns()
    ensures 0 <= i < TESTS && TestAt(i) == Required(c)
  {
    match c
    case CreatedAt => i := 0;
    case UpdatedAt => i := 1;
    case Name => i := 2;
    case AccountLevel => i := 4;
    case Platform => i := 6;
    case Type => i := 8;
    case Credentials => i := 10;
    case Extra => i := 11;
    case ShareMode => i := 12;
    case ShareStatus => i := 14;
    case Concurrency => i := 16;
    case Priority => i := 17;
    case RateMultiplier => i := 18;
    case Status => i := 19;
    case AutoPauseOnExpired => i := 21;
    case Schedulable => i := 22;
    case _ => i := 24;
  }

  lemma {:induction false} TestOfValidated(c: Column) returns (i: int)
    requires c in ValidatedColumns()
    ensures 0 <= i < TESTS && TestAt(i) == Validated(c)
  {
    match c
    case Name => i := 3;
    case AccountLevel => i := 5;
    case Platform => i := 7;
    case Type => i := 9;
    case ShareMode => i := 13;
    case ShareStatus => i := 15;
    case Status => i := 20;
    case SessionWindowStatus => i := 23;
    case _ => i := 25;
  }

  /** check passes exactly the acceptable rows. */
  lemma {:induction false} CheckMeans(fields: Fields, rt: Runtime)
    ensures CheckOf(fields, rt).None? <==> Acceptable(fields, rt)
  {
    hide TestAt, RequiredColumns, ValidatedColumns;
    if CheckOf(fields, rt).None? {
      forall c | c in RequiredColumns() ensures c in fields {
        var i := TestOfRequired(c);
        assert TestAt(i).Failure(fields, rt).None?;
      }
      forall c | c in ValidatedColumns() && c in fields ensures rt.valid(c, fields[c]) {
        var i := TestOfValidated(c);
        assert TestAt(i).Failure(fields, rt).None?;
      }
    } else {
      var i :| 0 <= i < TESTS && TestAt(i).Failure(fields, rt).Some?;
      TestedColumns(i);
    }
  }

  lemma {:induction false} DefaultedAreRequired(k: nat)
    requires k < DEFAULTS
    ensures DefaultedAt(k) in RequiredColumns() && DefaultedAt(k) !in FirstColumns(k)
  {
  }

  /** What a test can be about. */
  lemma {:induction false} TestedColumns(i: nat)
    requires i < TESTS
    ensures TestAt(i).Required? ==>
      TestAt(i).c in RequiredColumns() && (TestAt(i).c in DefaultedColumns() || TestAt(i).c in {Name, Platform, Type})
    ensures TestAt(i).Validated? ==> TestAt(i).c in ValidatedColumns()
  {
  }

  // ----- a failed defaults cannot lead to an incomplete row -----

  /** Whatever was set before: when defaults fails, check fails too. */
  lemma {:induction false} FailedDefaultsFailCheck(fields: Fields, rt: Runtime)
    requires rt.Declared()
    ensures var k := FirstUninitialised(fields, rt);
            k < DEFAULTS ==> CheckOf(Defaulted(fields, rt, k), rt).Some?
  {
    hide DefaultedColumns, DefaultedAt, FirstColumns, RequiredColumns, ValidatedColumns, TestAt, CheckOf;
    var k := FirstUninitialised(fields, rt);
    if k < DEFAULTS {
      CheckMeans(Defaulted(fields, rt, k), rt);
      DefaultedAreRequired(k);
    }
  }

  /** After a successful defaults only the columns without a default can be missing. */
  lemma {:induction false} AfterDefaults(fields: Fields, rt: Runtime)
    requires rt.Declared() && FirstUninitialised(fields, rt) == DEFAULTS
    ensures var e := CheckOf(Defaulted(fields, rt, DEFAULTS), rt);
            e.Some? ==> e.value in {Missing(Name), Missing(Platform), Missing(Type)} || (e.value.Invalid? && e.value.column in ValidatedColumns())
  {
    hide DefaultedColumns, FirstColumns, RequiredColumns, ValidatedColumns, TestAt;
    var full := Defaulted(fields, rt, DEFAULTS);
    AllColumns();
    var e := CheckOf(full, rt);
    if e.Some? {
      var i :| 0 <= i < TESTS && TestAt(i).Failure(full, rt) == e;
      TestedColumns(i);
    }
  }

  // ----- the builder -----

  /** How one user-defined hook treats the mutator it wraps. */
  datatype Hook = Hook(failsBefore: bool, calls: nat, propagates: bool, failsAfter: bool)

  class AccountMutation {
    var fields: Fields
    var done: bool
    var id: Option<int>

    constructor (fields: Fields)
      ensures this.fields == fields && !done && id == None
    {
      this.fields, done, id := fields, false, None;
    }
  }

  class AccountCreate {
    const rt: Runtime
    const mutation: AccountMutation
    const hooks: seq<Hook>

    constructor (rt: Runtime, mutation: AccountMutation, hooks: seq<Hook>)
      ensures this.rt == rt && this.mutation == mutation && this.hooks == hooks
    {
      this.rt, this.mutation, this.hooks := rt, mutation, hooks;
    }

    /** Sets default values, column by column, up to the first default that is uninitialised. */
    method Defaults() returns (err: Option<Column>)
      requires rt.Declared()
      modifies mutation`fields
      ensures var k := FirstUninitialised(old(mutation.fields), rt);
              && mutation.fields == Defaulted(old(mutation.fields), rt, k)
              && err == if k < DEFAULTS then Some(DefaultedAt(k)) else None
    {
      hide Defaulted, FirstUninitialised, Initialised, FirstColumns, DefaultedColumns, FilledTo;
      ghost var before := mutation.fields;
      FilledToStart(before, rt);
      err := SetDefault(CreatedAt, 0, before);
      if err.Some? { return; }
      err := SetDefault(UpdatedAt, 1, before);
      if err.Some? { return; }
      err := SetDefault(AccountLevel, 2, before);
      if err.Some? { return; }
      err := SetDefault(Credentials, 3, before);
      if err.Some? { return; }
      err := SetDefault(Extra, 4, before);
      if err.Some? { return; }
      err := SetDefault(ShareMode, 5, before);
      if err.Some? { return; }
      err := SetDefault(ShareStatus, 6, before);
      if err.Some? { return; }
      err := SetDefault(Concurrency, 7, before);
      if err.Some? { return; }
      err := SetDefault(Priority, 8, before);
      if err.Some? { return; }
      err := SetDefault(RateMultiplier, 9, before);
      if err.Some? { return; }
      err := SetDefault(Status, 10, before);
      if err.Some? { return; }
      err := SetDefault(AutoPauseOnExpired, 11, before);
      if err.Some? { return; }
      err := SetDefault(Schedulable, 12, before);
      if err.Some? { return; }
      err := SetDefault(QuotaDimension, 13, before);
      if err.Some? { return; }
      FilledToEnd(mutation.fields, before, rt);
    }

    method SetDefault(c: Column, ghost k: nat, ghost before: Fields) returns (err: Option<Column>)
      requires rt.Declared() && k < DEFAULTS && c == DefaultedAt(k) && FilledTo(mutation.fields, before, rt, k)
      modifies mutation`fields
      ensures err.None? ==> FilledTo(mutation.fields, before, rt, k + 1)
      ensures err.Some? ==> err == Some(c) && k == FirstUninitialised(before, rt) && mutation.fields == Defaulted(before, rt, k)
    {
      DefaultedAtInverse(k);
      if c !in mutation.fields {
        if rt.Default(c).None? {
          return Some(c);
        }
        mutation.fields := mutation.fields[c := rt.Default(c).value];
      }
      DefaultedStep(before, rt, k);
      err := None;
    }

    /** The checks and validators before an insert; the first failure is returned. */
    method Check() returns (err: Option<ValidationError>)
      ensures err == CheckOf(mutation.fields, rt)
    {
      hide FirstFailure;
      err := Require(CreatedAt, 0);
      if err.Some? { return; }
      err := Require(UpdatedAt, 1);
      if err.Some? { return; }
      err := Require(Name, 2);
      if err.Some? { return; }
      err := Validate(Name, 3);
      if err.Some? { return; }
      err := Require(AccountLevel, 4);
      if err.Some? { return; }
      err := Validate(AccountLevel, 5);
      if err.Some? { return; }
      err := Require(Platform, 6);
      if err.Some? { return; }
      err := Validate(Platform, 7);
      if err.Some? { return; }
      err := Require(Type, 8);
      if err.Some? { return; }
      err := Validate(Type, 9);
      if err.Some? { return; }
      err := Require(Credentials, 10);
      if err.Some? { return; }
      err := Require(Extra, 11);
      if err.Some? { return; }
      err := Require(ShareMode, 12);
      if err.Some? { return; }
      err := Validate(ShareMode, 13);
      if err.Some? { return; }
      err := Require(ShareStatus, 14);
      if err.Some? { return; }
      err := Validate(ShareStatus, 15);
      if err.Some? { return; }
      err := Require(Concurrency, 16);
      if err.Some? { return; }
      err := Require(Priority, 17);
      if err.Some? { return; }
      err := Require(RateMultiplier, 18);
      if err.Some? { return; }
      err := Require(Status, 19);
      if err.Some? { return; }
      err := Validate(Status, 20);
      if err.Some? { return; }
      err := Require(AutoPauseOnExpired, 21);
      if err.Some? { return; }
      err := Require(Schedulable, 22);
      if err.Some? { return; }
      err := Validate(SessionWindowStatus, 23);
      if err.Some? { return; }
      err := Require(QuotaDimension, 24);
      if err.Some? { return; }
      err := Validate(QuotaDimension, 25);
    }

    method Require(c: Column, ghost k: nat) returns (err: Option<ValidationError>)
      requires k < TESTS && TestAt(k) == Required(c)
      requires FirstFailure(mutation.fields, rt, 0) == FirstFailure(mutation.fields, rt, k)
      ensures err.None? ==> FirstFailure(mutation.fields, rt, 0) == FirstFailure(mutation.fields, rt, k + 1)
      ensures err.Some? ==> FirstFailure(mutation.fields, rt, 0) == err
    {
      err := if c in mutation.fields then None else Some(Missing(c));
    }

    method Validate(c: Column, ghost k: nat) returns (err: Option<ValidationError>)
      requires k < TESTS && TestAt(k) == Validated(c)
      requires FirstFailure(mutation.fields, rt, 0) == FirstFailure(mutation.fields, rt, k)
      ensures err.None? ==> FirstFailure(mutation.fields, rt, 0) == FirstFailure(mutation.fields, rt, k + 1)
      ensures err.Some? ==> FirstFailure(mutation.fields, rt, 0) == err
    {
      err := if c in mutation.fields && !rt.valid(c, mutation.fields[c]) then Some(Invalid(c)) else None;
    }
  }
}
