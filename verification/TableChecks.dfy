/** What defaults and check guarantee of a new row, in terms of the table's columns as the migration
    declares them and of the values that ent/runtime provides. */
module TableChecks {
  import opened Wrappers
  import opened Schema
  import opened Columns
  import opened Creation

  // ----- check -----

  /** Columns are required, validated and given a constant as the table declares them. */
  lemma {:induction false} ColumnsAsDeclared(c: Column)
    ensures c in RequiredColumns() <==> NotNull(c) && c != Id
    ensures c in ValidatedColumns() <==> Sized(c) || TableType(c) == TypeEnum
    ensures c in DefaultedColumns() - FuncDefaults() <==> TableDefault(c)
  {
  }

  /** What is wrong with a column of a row to insert: unset although it may not be NULL, or set to what its
      validator refuses. */
  ghost function Wrong(fields: Fields, rt: Runtime, c: Column): Option<ValidationError> {
    if NotNull(c) && c != Id && c !in fields then Some(Missing(c))
    else if (Sized(c) || TableType(c) == TypeEnum) && c in fields && !rt.valid(c, fields[c]) then Some(Invalid(c))
    else None
  }

  /** check reports the first column, in the order of ACCOUNT_COLUMNS, with which something is wrong. */
  lemma {:induction false} CheckGuardsTable(fields: Fields, rt: Runtime)
    ensures CheckOf(fields, rt).None? <==> forall c :: Wrong(fields, rt, c).None?
    ensures CheckOf(fields, rt).Some? ==>
      var e := CheckOf(fields, rt);
      && Wrong(fields, rt, e.value.column) == e
      && forall c | Position(c) < Position(e.value.column) :: Wrong(fields, rt, c).None?
  {
    hide Wrong, TestAt, Test.Failure, Position;
    forall k | 0 <= k < TESTS
      ensures TestAt(k).Failure(fields, rt).Some? ==> TestAt(k).Failure(fields, rt) == Wrong(fields, rt, TestAt(k).c)
    {
      TestSeesWrong(fields, rt, k);
    }
    if CheckOf(fields, rt).None? {
      forall c ensures Wrong(fields, rt, c).None? {
        WrongIsTested(fields, rt, c);
      }
    } else {
      var i :| 0 <= i < TESTS && FailsFirst(fields, rt, 0, i) && TestAt(i).Failure(fields, rt) == CheckOf(fields, rt);
      FailureColumn(fields, rt, TestAt(i));
      forall c | Position(c) < Position(TestAt(i).c) ensures Wrong(fields, rt, c).None? {
        WrongIsTested(fields, rt, c);
        forall k | i <= k < TESTS ensures TestAt(k).c != c {
          TestOrder(i, k);
        }
      }
    }
  }

  lemma {:induction false} FailureColumn(fields: Fields, rt: Runtime, t: Test)
    ensures t.Failure(fields, rt).Some? ==> t.Failure(fields, rt).value.column == t.c
  {
  }

  /** A failing test is about a column with which that is wrong. */
  lemma {:induction false} TestSeesWrong(fields: Fields, rt: Runtime, k: nat)
    requires k < TESTS
    ensures TestAt(k).Failure(fields, rt).Some? ==> TestAt(k).Failure(fields, rt) == Wrong(fields, rt, TestAt(k).c)
  {
    hide TestAt, RequiredColumns, ValidatedColumns, NotNull, Sized, TableType;
    TestedColumns(k);
    ColumnsAsDeclared(TestAt(k).c);
  }

  /** And whatever is wrong with a column, some test of it fails. */
  lemma {:induction false} WrongIsTested(fields: Fields, rt: Runtime, c: Column)
    ensures Wrong(fields, rt, c).Some? ==>
            exists i :: 0 <= i < TESTS && TestAt(i).c == c && TestAt(i).Failure(fields, rt).Some?
  {
    hide TestAt, RequiredColumns, ValidatedColumns, NotNull, Sized, TableType;
    ColumnsAsDeclared(c);
    if NotNull(c) && c != Id && c !in fields {
      var i := TestOfRequired(c);
      assert TestAt(i).Failure(fields, rt).Some?;
    } else if Wrong(fields, rt, c).Some? {
      var i := TestOfValidated(c);
      assert TestAt(i).Failure(fields, rt).Some?;
    }
  }

  lemma {:induction false} TestOrder(i: nat, j: nat)
    requires i <= j < TESTS
    ensures Position(TestAt(i).c) <= Position(TestAt(j).c)
    decreases j - i
  {
    hide TestAt, Position;
    if i < j {
      if i < 12 {
        NextTest(i);
      } else if i < 19 {
        NextMiddleTest(i);
      } else {
        NextLateTest(i);
      }
      TestOrder(i + 1, j);
    }
  }

  lemma {:induction false} NextTest(i: nat)
    requires i < 12
    ensures Position(TestAt(i).c) <= Position(TestAt(i + 1).c)
  {
  }

  lemma {:induction false} NextMiddleTest(i: nat)
    requires 12 <= i < 19
    ensures Position(TestAt(i).c) <= Position(TestAt(i + 1).c)
  {
  }

  lemma {:induction false} NextLateTest(i: nat)
    requires 19 <= i < 25
    ensures Position(TestAt(i).c) <= Position(TestAt(i + 1).c)
  {
  }

  // ----- defaults -----

  /** A column that keeps defaults from succeeding: unset, and its default function is nil. */
  ghost predicate Uninitialised(fields: Fields, rt: Runtime, c: Column) {
    c in rt.funcs && c !in fields && rt.funcs[c].None?
  }

  /** What defaults makes of a column that it comes to. */
  ghost function Given(fields: Fields, rt: Runtime, c: Column): Option<Value> {
    if c in fields then Some(fields[c])
    else if c in rt.consts then Some(rt.consts[c])
    else if c in rt.funcs then rt.funcs[c]
    else None
  }

  ghost predicate HoldsAt(r: Fields, c: Column, v: Option<Value>) {
    if c in r then v == Some(r[c]) else v.None?
  }

  /** defaults stops at the first column, in the order of ACCOUNT_COLUMNS, whose function is needed and
      nil. Before it, and everywhere if there is none, each unset column gets its own constant or what its
      own function returns; from it on, nothing is set. */
  lemma {:induction false} DefaultsFill(fields: Fields, rt: Runtime) returns (stop: nat)
    requires rt.Declared()
    ensures forall c :: c in rt.consts <==> TableDefault(c)
    ensures forall c :: c in rt.funcs <==> c in {CreatedAt, UpdatedAt, Credentials, Extra}
    ensures var k := FirstUninitialised(fields, rt);
            && (if k == DEFAULTS then stop == 37
                else stop == Position(DefaultedAt(k)) && Uninitialised(fields, rt, DefaultedAt(k)))
            && (forall c | Position(c) < stop :: !Uninitialised(fields, rt, c))
            && (forall c | Position(c) < stop :: HoldsAt(Defaulted(fields, rt, k), c, Given(fields, rt, c)))
            && (forall c | Position(c) >= stop ::
                  HoldsAt(Defaulted(fields, rt, k), c, if c in fields then Some(fields[c]) else None))
  {
    hide DefaultedColumns, FuncDefaults, DefaultedAt, DefaultIndex, Position, TableDefault, FirstColumns;
    var k := FirstUninitialised(fields, rt);
    stop := if k == DEFAULTS then 37 else Position(DefaultedAt(k));
    forall c
      ensures c in FirstColumns(k) <==> c in DefaultedColumns() && Position(c) < stop
      ensures c in rt.consts <==> TableDefault(c)
      ensures c in rt.funcs <==> c in {CreatedAt, UpdatedAt, Credentials, Extra}
      ensures c in DefaultedColumns() <==> c in rt.consts || c in rt.funcs
    {
      DeclaredColumns(rt, c);
      BeforeStop(k, c);
    }
  }

  lemma {:induction false} DeclaredColumns(rt: Runtime, c: Column)
    requires rt.Declared()
    ensures c in rt.consts <==> TableDefault(c)
    ensures c in rt.funcs <==> c in {CreatedAt, UpdatedAt, Credentials, Extra}
    ensures c in DefaultedColumns() <==> c in rt.consts || c in rt.funcs
  {
    ColumnsAsDeclared(c);
  }

  lemma {:induction false} BeforeStop(k: nat, c: Column)
    requires k <= DEFAULTS
    ensures c in FirstColumns(k) <==>
            c in DefaultedColumns() && Position(c) < if k == DEFAULTS then 37 else Position(DefaultedAt(k))
  {
    hide DefaultedColumns, DefaultedAt, DefaultIndex, Position;
    if c in DefaultedColumns() {
      DefaultIndexInverse(c);
      var i := DefaultIndex(c);
      if i < k {
        DefaultOrder(i, k);
      } else if k < DEFAULTS {
        DefaultOrder(k, i);
      }
    }
  }

  lemma {:induction false} DefaultOrder(i: nat, j: nat)
    requires i <= j <= DEFAULTS && i < DEFAULTS
    ensures var p := if j == DEFAULTS then 37 else Position(DefaultedAt(j));
            Position(DefaultedAt(i)) <= p && (i < j ==> Position(DefaultedAt(i)) < p)
    decreases j - i
  {
    hide DefaultedAt, Position;
    NextDefault(i);
    if i + 1 < j {
      DefaultOrder(i + 1, j);
    }
  }

  lemma {:induction false} NextDefault(i: nat)
    requires i < 14
    ensures Position(DefaultedAt(i)) < if i + 1 == 14 then 37 else Position(DefaultedAt(i + 1))
  {
  }
}
