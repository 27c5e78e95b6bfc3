/** Upserts: the ordered list of conflict options that the upsert builders append to, and what it
    does to a column, "created_at" above all, when a row already exists. */
module Upsert {
  import opened Wrappers
  import opened Schema
  import opened Creation
  import opened BulkCreate

  /** What an update does to one column: leave it, take the proposed value, set it, add to it. */
  datatype Op = Keep | Proposed | SetTo(v: Value) | AddTo(v: Value) | SetNull
  type Assignment = (Column, Op)

  /** A function given to ResolveWith. It runs when the statement is built. */
  datatype Setter = KeepCreatedAt | Assign(ops: seq<Assignment>)

  datatype ConflictOption =
    | ConflictColumns(columns: seq<Column>) | DoNothing | ResolveWithNewValues | ResolveWithIgnore
    | ResolveWith(setter: Setter)

  /** The statement being built: its columns, and the mutations behind its rows. */
  datatype Statement = Statement(columns: seq<Column>, rows: seq<Fields>) {
    ghost predicate Valid() {
      forall c :: c in columns <==> exists i :: 0 <= i < |rows| && c in rows[i]
    }
  }

  // ----- the assignments that a list of options stands for -----

  function ForEach(columns: seq<Column>, op: Op): seq<Assignment> {
    seq(|columns|, i requires 0 <= i < |columns| => (columns[i], op))
  }

  /** SetIgnore for "created_at", once per builder that has it. */
  function KeepOfEach(rows: seq<Fields>): seq<Assignment> {
    if rows == [] then []
    else KeepOfEach(rows[..|rows| - 1]) + (if CreatedAt in rows[|rows| - 1] then [(CreatedAt, Keep)] else [])
  }

  function Effect(o: ConflictOption, stmt: Statement): seq<Assignment> {
    match o
    case ConflictColumns(_) => []
    case DoNothing => []
    case ResolveWithNewValues => ForEach(stmt.columns, Proposed)
    case ResolveWithIgnore => ForEach(stmt.columns, Keep)
    case ResolveWith(KeepCreatedAt) => KeepOfEach(stmt.rows)
    case ResolveWith(Assign(ops)) => ops
  }

  function Effects(opts: seq<ConflictOption>, stmt: Statement): seq<Assignment> {
    if opts == [] then [] else Effects(opts[..|opts| - 1], stmt) + Effect(opts[|opts| - 1], stmt)
  }

  /** The last assignment to a column is the one that counts. */
  function LastOn(s: seq<Assignment>, c: Column): Option<Op> {
    if s == [] then None
    else if s[|s| - 1].0 == c then Some(s[|s| - 1].1)
    else LastOn(s[..|s| - 1], c)
  }

  lemma {:induction false} LastOnConcat(s: seq<Assignment>, t: seq<Assignment>, c: Column)
    ensures LastOn(s + t, c) == if LastOn(t, c).Some? then LastOn(t, c) else LastOn(s, c)
  {
    if t == [] {
      assert s + t == s;
    } else {
      LastOnConcat(s, t[..|t| - 1], c);
      assert (s + t)[..|s + t| - 1] == s + t[..|t| - 1];
    }
  }

  lemma {:induction false} EffectsAppend(opts: seq<ConflictOption>, o: ConflictOption, stmt: Statement)
    ensures Effects(opts + [o], stmt) == Effects(opts, stmt) + Effect(o, stmt)
  {
    assert (opts + [o])[..|opts|] == opts;
  }

  lemma {:induction false} LastOnForEach(columns: seq<Column>, op: Op, c: Column)
    ensures LastOn(ForEach(columns, op), c) == if c in columns then Some(op) else None
  {
    if columns != [] {
      var m := |columns| - 1;
      LastOnForEach(columns[..m], op, c);
      assert ForEach(columns, op)[..m] == ForEach(columns[..m], op);
      assert columns == columns[..m] + [columns[m]];
    }
  }

  lemma {:induction false} LastOnKeepOfEach(rows: seq<Fields>, c: Column)
    ensures LastOn(KeepOfEach(rows), c)
         == if c == CreatedAt && exists i :: 0 <= i < |rows| && CreatedAt in rows[i] then Some(Keep) else None
  {
    if rows != [] {
      var rest, last := rows[..|rows| - 1], rows[|rows| - 1];
      LastOnKeepOfEach(rest, c);
      LastOnConcat(KeepOfEach(rest), if CreatedAt in last then [(CreatedAt, Keep)] else [], c);
      assert forall i | 0 <= i < |rest| :: rows[i] == rest[i];
    }
  }

  // ----- the upsert builder's own methods -----

  /** One call of a method of the upsert builder. Update takes any function on the update set. */
  datatype Call = UpdateNewValues | Ignore | Nothing | OnColumns(columns: seq<Column>) | Update(ops: seq<Assignment>)

  /** The columns that have setters of their own: "created_at" is not among them. */
  predicate Upsertable(c: Column) {
    c in ACCOUNT_COLUMNS && c != Id && c != CreatedAt
  }

  /** A call without a function of the caller's: the setters are Update with one assignment. */
  predicate OwnCall(call: Call) {
    call.Update? ==> |call.ops| == 1 && Upsertable(call.ops[0].0)
  }

  function Appended(call: Call): seq<ConflictOption> {
    match call
    case UpdateNewValues => [ResolveWithNewValues, ResolveWith(KeepCreatedAt)]
    case Ignore => [ResolveWithIgnore]
    case Nothing => [DoNothing]
    case OnColumns(columns) => [ConflictColumns(columns)]
    case Update(ops) => [ResolveWith(Assign(ops))]
  }

  function After(opts: seq<ConflictOption>, calls: seq<Call>): seq<ConflictOption> {
    if calls == [] then opts else After(opts, calls[..|calls| - 1]) + Appended(calls[|calls| - 1])
  }

  /** What the assignments of a list of options say about a column. */
  ghost function Assigned(opts: seq<ConflictOption>, stmt: Statement, c: Column): Option<Op> {
    LastOn(Effects(opts, stmt), c)
  }

  /** The conflict action is to do nothing, whatever else is in the list. */
  predicate Suppressed(opts: seq<ConflictOption>) {
    DoNothing in opts
  }

  /** What a list of options does to a column of the row that is there. */
  ghost function Final(opts: seq<ConflictOption>, stmt: Statement, c: Column): Option<Op> {
    if Suppressed(opts) then None else Assigned(opts, stmt, c)
  }

  /** The upsert overwrites the "created_at" of the row that is there. */
  ghost predicate Moves(opts: seq<ConflictOption>, stmt: Statement) {
    Final(opts, stmt, CreatedAt) !in {None, Some(Keep)}
  }

  /** The last of two that says anything. */
  function Later(earlier: Option<Op>, later: Option<Op>): Option<Op> {
    if later.Some? then later else earlier
  }

  function NewValueOf(stmt: Statement, c: Column): Option<Op> {
    if c !in stmt.columns then None else Some(if c == CreatedAt then Keep else Proposed)
  }

  /** What a call says about a column, if anything. */
  function Says(call: Call, stmt: Statement, c: Column): Option<Op> {
    match call
    case UpdateNewValues => NewValueOf(stmt, c)
    case Ignore => if c !in stmt.columns then None else Some(Keep)
    case Nothing => None
    case OnColumns(_) => None
    case Update(ops) => LastOn(ops, c)
  }

  /** The options an upsert call appends do what the call says, unless the action is to do nothing. */
  lemma {:induction false} CallOnColumn(opts: seq<ConflictOption>, call: Call, stmt: Statement, c: Column)
    requires stmt.Valid()
    ensures Final(opts + Appended(call), stmt, c) ==
            if Suppressed(opts) || call.Nothing? then None else Later(Final(opts, stmt, c), Says(call, stmt, c))
  {
    hide Assigned, Says;
    CallAssigns(opts, call, stmt, c);
    SuppressedByCall(opts, call);
  }

  lemma {:induction false} SuppressedByCall(opts: seq<ConflictOption>, call: Call)
    ensures Suppressed(opts + Appended(call)) <==> Suppressed(opts) || call.Nothing?
  {
    assert forall o :: o in opts + Appended(call) <==> o in opts || o in Appended(call);
  }

  lemma {:induction false} CallAssigns(opts: seq<ConflictOption>, call: Call, stmt: Statement, c: Column)
    requires stmt.Valid()
    ensures Assigned(opts + Appended(call), stmt, c) == Later(Assigned(opts, stmt, c), Says(call, stmt, c))
  {
    hide Effects, LastOn, KeepOfEach, ForEach;
    if call.UpdateNewValues? {
      var longer := opts + [ResolveWithNewValues];
      assert opts + Appended(call) == longer + [ResolveWith(KeepCreatedAt)];
      OptionOnColumn(opts, ResolveWithNewValues, stmt, c);
      OptionOnColumn(longer, ResolveWith(KeepCreatedAt), stmt, c);
      LastOnForEach(stmt.columns, Proposed, c);
      LastOnKeepOfEach(stmt.rows, c);
    } else {
      OptionOnColumn(opts, Appended(call)[0], stmt, c);
      LastOnForEach(stmt.columns, Keep, c);
      LastOnOthers([], c);
    }
  }

  lemma {:induction false} OptionOnColumn(opts: seq<ConflictOption>, o: ConflictOption, stmt: Statement, c: Column)
    ensures Assigned(opts + [o], stmt, c) == Later(Assigned(opts, stmt, c), LastOn(Effect(o, stmt), c))
  {
    EffectsAppend(opts, o, stmt);
    LastOnConcat(Effects(opts, stmt), Effect(o, stmt), c);
  }

  lemma {:induction false} LastOnOthers(s: seq<Assignment>, c: Column)
    requires forall i | 0 <= i < |s| :: s[i].0 != c
    ensures LastOn(s, c).None?
  {
    if s != [] {
      LastOnOthers(s[..|s| - 1], c);
    }
  }

  /** The builder of one account's upsert and the builder of a bulk's: both append to the conflict
      list of the create builder they wrap. */
  class AccountUpsert {
    var conflict: seq<ConflictOption>

    /** OnConflict replaces what was there. */
    constructor OnConflict(opts: seq<ConflictOption>)
      ensures conflict == opts
    {
      conflict := opts;
    }

    method OnConflictColumns(columns: seq<Column>)
      modifies this
      ensures conflict == After(old(conflict), [OnColumns(columns)])
    {
      conflict := conflict + [ConflictColumns(columns)];
    }

    /** Whatever was said before, unless it was to do nothing: the statement's columns take the proposed
        values, except that "created_at" keeps its own; other columns are left as they were. */
    method UpdateNewValues()
      modifies this
      ensures conflict == After(old(conflict), [Call.UpdateNewValues])
      ensures forall stmt: Statement, c: Column | stmt.Valid() ::
        Final(conflict, stmt, c) ==
        if Suppressed(old(conflict)) then None else Later(Final(old(conflict), stmt, c), NewValueOf(stmt, c))
    {
      conflict := conflict + [ResolveWithNewValues];
      conflict := conflict + [ResolveWith(KeepCreatedAt)];
      CallOnColumns(old(conflict), Call.UpdateNewValues);
    }

    /** The statement's columns keep their values, whatever was said before: no value is written. */
    method Ignore()
      modifies this
      ensures conflict == After(old(conflict), [Call.Ignore])
      ensures forall stmt: Statement, c: Column | stmt.Valid() ::
        Final(conflict, stmt, c) ==
        if c in stmt.columns && !Suppressed(old(conflict)) then Some(Keep) else Final(old(conflict), stmt, c)
    {
      conflict := conflict + [ResolveWithIgnore];
      CallOnColumns(old(conflict), Call.Ignore);
    }

    /** Nothing is done to any column, whatever was said before. */
    method DoNothing()
      modifies this
      ensures conflict == After(old(conflict), [Nothing])
      ensures forall stmt: Statement, c: Column :: Final(conflict, stmt, c) == None
    {
      conflict := conflict + [ConflictOption.DoNothing];
      CallOnColumns(old(conflict), Nothing);
    }

    /** Update with an arbitrary function: it has the last word on the columns it touches, unless the
        action is to do nothing. */
    method Update(ops: seq<Assignment>)
      modifies this
      ensures conflict == After(old(conflict), [Call.Update(ops)])
      ensures forall stmt: Statement, c: Column | stmt.Valid() ::
        Final(conflict, stmt, c) ==
        if Suppressed(old(conflict)) then None else Later(Final(old(conflict), stmt, c), LastOn(ops, c))
    {
      conflict := conflict + [ResolveWith(Assign(ops))];
      CallOnColumns(old(conflict), Call.Update(ops));
    }

    method Set(c: Column, v: Value)
      requires Upsertable(c)
      modifies this
      ensures conflict == After(old(conflict), [Call.Update([(c, SetTo(v))])])
    {
      Update([(c, SetTo(v))]);
    }

    method Add(c: Column, v: Value)
      requires Upsertable(c)
      modifies this
      ensures conflict == After(old(conflict), [Call.Update([(c, AddTo(v))])])
    {
      Update([(c, AddTo(v))]);
    }

    method SetProposed(c: Column)
      requires Upsertable(c)
      modifies this
      ensures conflict == After(old(conflict), [Call.Update([(c, Proposed)])])
    {
      Update([(c, Proposed)]);
    }

    method Clear(c: Column)
      requires Upsertable(c)
      modifies this
      ensures conflict == After(old(conflict), [Call.Update([(c, SetNull)])])
    {
      Update([(c, SetNull)]);
    }

    /** Exec of one account's upsert refuses an empty list. */
    method Exec() returns (missingOptions: bool)
      ensures missingOptions <==> conflict == []
    {
      missingOptions := |conflict| == 0;
    }

    /** Exec of a bulk's upsert passes on why the bulk could not be set up, and also refuses builders
        with options of their own. */
    method ExecBulk(setUp: bool, builders: seq<seq<ConflictOption>>) returns (refusal: Option<Refusal>)
      ensures refusal.None? <==> setUp && conflict != [] && forall i | 0 <= i < |builders| :: builders[i] == []
      ensures refusal == Some(NotSetUp) <==> !setUp
      ensures refusal == Some(MissingOptions) ==> conflict == [] && forall i | 0 <= i < |builders| :: builders[i] == []
      ensures forall i: nat | refusal == Some(SetForBuilder(i)) ::
        i < |builders| && builders[i] != [] && forall k | 0 <= k < i :: builders[k] == []
    {
      if !setUp {
        return Some(NotSetUp);
      }
      for i := 0 to |builders|
        invariant forall k | 0 <= k < i :: builders[k] == []
      {
        if |builders[i]| != 0 {
          return Some(SetForBuilder(i));
        }
      }
      refusal := if |conflict| == 0 then Some(MissingOptions) else None;
    }
  }

  datatype Refusal = NotSetUp | MissingOptions | SetForBuilder(i: nat)

  lemma {:induction false} CallOnColumns(opts: seq<ConflictOption>, call: Call)
    ensures opts + Appended(call) == After(opts, [call])
    ensures Suppressed(After(opts, [call])) <==> Suppressed(opts) || call.Nothing?
    ensures forall stmt: Statement, c: Column | stmt.Valid() ::
      Final(After(opts, [call]), stmt, c) ==
      if Suppressed(opts) || call.Nothing? then None else Later(Final(opts, stmt, c), Says(call, stmt, c))
  {
    hide Final, Says, Appended, Suppressed;
    assert [call][..0] == [] && After(opts, []) == opts;
    SuppressedByCall(opts, call);
    forall stmt: Statement, c: Column | stmt.Valid()
      ensures Final(After(opts, [call]), stmt, c) ==
              if Suppressed(opts) || call.Nothing? then None else Later(Final(opts, stmt, c), Says(call, stmt, c))
    {
      CallOnColumn(opts, call, stmt, c);
    }
  }

  // ----- any calls -----

  /** The i-th call is the last that says anything about the column. */
  ghost predicate LastToSay(calls: seq<Call>, stmt: Statement, c: Column, i: int) {
    0 <= i < |calls| && Says(calls[i], stmt, c).Some? && forall j | i < j < |calls| :: Says(calls[j], stmt, c).None?
  }

  ghost predicate NoneSays(calls: seq<Call>, stmt: Statement, c: Column) {
    forall i | 0 <= i < |calls| :: Says(calls[i], stmt, c).None?
  }

  /** Calls that say nothing about a column assign nothing to it. */
  lemma {:induction false} SilentSince(opts: seq<ConflictOption>, calls: seq<Call>, stmt: Statement, c: Column, i: nat)
    requires stmt.Valid() && i <= |calls| && forall j | i <= j < |calls| :: Says(calls[j], stmt, c).None?
    ensures Assigned(After(opts, calls), stmt, c) == Assigned(After(opts, calls[..i]), stmt, c)
  {
    hide Appended, Assigned, Says;
    if i == |calls| {
      assert calls[..i] == calls;
    } else {
      var n := |calls| - 1;
      SilentSince(opts, calls[..n], stmt, c, i);
      CallAssigns(After(opts, calls[..n]), calls[n], stmt, c);
      assert calls[..n][..i] == calls[..i];
    }
  }

  lemma {:induction false} SuppressedAfter(opts: seq<ConflictOption>, calls: seq<Call>)
    ensures Suppressed(After(opts, calls)) <==> Suppressed(opts) || Nothing in calls
  {
    hide Suppressed, Appended;
    if calls != [] {
      var rest, last := calls[..|calls| - 1], calls[|calls| - 1];
      SuppressedAfter(opts, rest);
      SuppressedByCall(After(opts, rest), last);
      assert calls == rest + [last];
    }
  }

  lemma {:induction false} SomeSays(calls: seq<Call>, stmt: Statement, c: Column) returns (i: nat)
    requires !NoneSays(calls, stmt, c)
    ensures LastToSay(calls, stmt, c, i)
  {
    hide Says;
    i := |calls| - 1;
    while Says(calls[i], stmt, c).None?
      invariant i < |calls| && forall j | i < j < |calls| :: Says(calls[j], stmt, c).None?
      decreases i
    {
      i := i - 1;
    }
  }

  /** Whatever options OnConflict was given and whatever was called since: nothing happens to a column
      if one of them is to do nothing; otherwise what the last call that says anything about it says,
      or else what those options say. */
  lemma {:induction false} LastSayDecides(opts: seq<ConflictOption>, calls: seq<Call>, stmt: Statement, c: Column)
    requires stmt.Valid()
    ensures var final := Final(After(opts, calls), stmt, c);
            if Suppressed(opts) || Nothing in calls then final == None
            else if NoneSays(calls, stmt, c) then final == Final(opts, stmt, c)
            else exists i :: LastToSay(calls, stmt, c, i) && final == Says(calls[i], stmt, c)
    ensures forall i, j | LastToSay(calls, stmt, c, i) && LastToSay(calls, stmt, c, j) :: i == j
  {
    hide Appended, Assigned, Says, Suppressed, After;
    SuppressedAfter(opts, calls);
    if NoneSays(calls, stmt, c) {
      SilentSince(opts, calls, stmt, c, 0);
      AfterAt(opts, calls, 0);
    } else {
      var i := SomeSays(calls, stmt, c);
      SilentSince(opts, calls, stmt, c, i + 1);
      AfterAt(opts, calls, i);
      CallAssigns(After(opts, calls[..i]), calls[i], stmt, c);
    }
  }

  lemma {:induction false} AfterAt(opts: seq<ConflictOption>, calls: seq<Call>, i: nat)
    requires i <= |calls|
    ensures i == 0 ==> After(opts, calls[..i]) == opts
    ensures i < |calls| ==> After(opts, calls[..i + 1]) == After(opts, calls[..i]) + Appended(calls[i])
  {
    if i < |calls| {
      assert calls[..i + 1][..i] == calls[..i];
    }
  }

  // ----- "created_at" -----

  /** A function given to Update that does something to "created_at" other than keeping it. */
  predicate Moving(call: Call) {
    call.Update? && LastOn(call.ops, CreatedAt) !in {None, Some(Keep)}
  }

  /** UpdateNewValues or Ignore, when "created_at" is inserted. */
  predicate Protecting(call: Call, stmt: Statement) {
    CreatedAt in stmt.columns && (call.UpdateNewValues? || call.Ignore?)
  }

  predicate Touching(call: Call, stmt: Statement) {
    Protecting(call, stmt) || (call.Update? && LastOn(call.ops, CreatedAt).Some?)
  }

  /** "created_at" moves if and only if nothing says to do nothing, and a function given to Update
      moves it and no later call protects or sets it, or the options given to OnConflict move it and
      no call does either. */
  lemma {:induction false} CreatedAtMoves(opts: seq<ConflictOption>, calls: seq<Call>, stmt: Statement)
    requires stmt.Valid()
    ensures Moves(After(opts, calls), stmt) <==>
            && !Suppressed(opts) && Nothing !in calls
            && (|| (exists i :: 0 <= i < |calls| && Moving(calls[i]) && forall j | i < j < |calls| :: !Touching(calls[j], stmt))
                || (Moves(opts, stmt) && forall j | 0 <= j < |calls| :: !Touching(calls[j], stmt)))
  {
    hide Assigned, LastOn, After, Suppressed;
    LastSayDecides(opts, calls, stmt, CreatedAt);
    SuppressedAfter(opts, calls);
    assert forall j | 0 <= j < |calls| :: Touching(calls[j], stmt) <==> Says(calls[j], stmt, CreatedAt).Some?;
    if i :| LastToSay(calls, stmt, CreatedAt, i) {
      assert !Suppressed(opts) && Nothing !in calls ==> (Moves(After(opts, calls), stmt) <==> Moving(calls[i]));
    }
  }

  lemma {:induction false} NoOptions(stmt: Statement)
    ensures !Moves([], stmt)
  {
  }

  lemma {:induction false} NotUpsertable()
    ensures !Upsertable(CreatedAt)
  {
  }

  lemma {:induction false} OwnCallMovesNothing(call: Call, stmt: Statement)
    requires OwnCall(call)
    ensures !Moving(call) && (Touching(call, stmt) <==> Protecting(call, stmt))
  {
    hide LastOn, Upsertable;
    if call.Update? {
      NotUpsertable();
      LastOnOthers(call.ops, CreatedAt);
    }
  }

  /** Without a function of the caller's: "created_at" moves exactly when the options given to
      OnConflict move it, DoNothing is not called, and neither UpdateNewValues nor Ignore protects it;
      without options never. */
  lemma {:induction false} CreatedAtStays(opts: seq<ConflictOption>, calls: seq<Call>, stmt: Statement)
    requires stmt.Valid() && forall i | 0 <= i < |calls| :: OwnCall(calls[i])
    ensures Moves(After(opts, calls), stmt) <==>
            Moves(opts, stmt) && Nothing !in calls && forall i | 0 <= i < |calls| :: !Protecting(calls[i], stmt)
    ensures opts == [] ==> !Moves(After(opts, calls), stmt)
  {
    hide Assigned, After, OwnCall, Moving, Touching, Protecting;
    NoOptions(stmt);
    CreatedAtMoves(opts, calls, stmt);
    forall i | 0 <= i < |calls|
      ensures !Moving(calls[i]) && (Touching(calls[i], stmt) <==> Protecting(calls[i], stmt))
    {
      OwnCallMovesNothing(calls[i], stmt);
    }
  }

  /** With one: Update moves "created_at" even when no options were given, and after UpdateNewValues;
      before it, only if "created_at" is not inserted; before DoNothing never. */
  lemma {:induction false} UpdateMovesCreatedAt(op: Op, stmt: Statement)
    requires stmt.Valid() && op != Keep
    ensures var update := Call.Update([(CreatedAt, op)]);
            && Moves(After([], [update]), stmt)
            && Moves(After([], [UpdateNewValues, update]), stmt)
            && (Moves(After([], [update, UpdateNewValues]), stmt) <==> CreatedAt !in stmt.columns)
            && !Moves(After([], [update, Nothing]), stmt)
  {
    hide Moves, After;
    var update := Call.Update([(CreatedAt, op)]);
    assert Moving(update);
    CreatedAtMoves([], [update], stmt);
    CreatedAtMoves([], [UpdateNewValues, update], stmt);
    CreatedAtMoves([], [update, UpdateNewValues], stmt);
    CreatedAtMoves([], [update, Nothing], stmt);
    NoOptions(stmt);
    assert [update][0] == update && [UpdateNewValues, update][1] == update && [update, UpdateNewValues][0] == update;
    assert [update, UpdateNewValues][1] == UpdateNewValues;
  }

  // ----- what the documentation says -----

  /** UpdateNewValues is documented as equivalent to OnConflict(ResolveWithNewValues()). It is,
      column by column, except that it keeps a "created_at" that is among the columns; after a
      DoNothing both do nothing. */
  lemma {:induction false} DocumentedEquivalence(opts: seq<ConflictOption>, stmt: Statement)
    requires stmt.Valid()
    ensures forall c | c != CreatedAt ::
      Final(After(opts, [UpdateNewValues]), stmt, c) == Final(opts + [ResolveWithNewValues], stmt, c)
    ensures Final(After(opts, [UpdateNewValues]), stmt, CreatedAt) == Final(opts + [ResolveWithNewValues], stmt, CreatedAt)
            <==> Suppressed(opts) || CreatedAt !in stmt.columns
  {
    hide Assigned, Suppressed, After;
    CallOnColumns(opts, UpdateNewValues);
    forall c ensures Final(opts + [ResolveWithNewValues], stmt, c)
                  == if Suppressed(opts) then None else if c in stmt.columns then Some(Proposed) else Final(opts, stmt, c)
    {
      NewValuesAlone(opts, stmt, c);
    }
  }

  lemma {:induction false} NewValuesAlone(opts: seq<ConflictOption>, stmt: Statement, c: Column)
    ensures Final(opts + [ResolveWithNewValues], stmt, c)
         == if Suppressed(opts) then None else if c in stmt.columns then Some(Proposed) else Final(opts, stmt, c)
  {
    hide Assigned, LastOn;
    OptionOnColumn(opts, ResolveWithNewValues, stmt, c);
    LastOnForEach(stmt.columns, Proposed, c);
  }

  /** For no statement that bulk Save can send does the equivalence hold, unless the action is to do
      nothing: defaults has set "created_at" on every row, so the documented option moves it and
      UpdateNewValues keeps it. */
  lemma {:induction false} EquivalenceFailsOnSavedRows(opts: seq<ConflictOption>, stmt: Statement, p: Plan, s: State,
                                                       rt: Runtime, e: Event)
    requires |p.parts| > 0 && s.Fits(|p.parts|, 0) && s.trace == []
    requires forall k | 0 <= k < |p.parts| :: p.parts[k].failure == CheckOf(p.parts[k].fields, rt)
    requires e in Mutate(p, 0, 0, s).0.trace && e.Insert? && stmt.Valid() && stmt.rows == FieldsOf(e.batch)
    ensures CreatedAt in stmt.columns
    ensures Moves(opts + [ResolveWithNewValues], stmt) <==> !Suppressed(opts)
    ensures !Moves(After(opts, [UpdateNewValues]), stmt)
  {
    hide Mutate, CheckOf, Assigned, Suppressed, After;
    OnlyCheckedRowsInserted(p, 0, 0, s);
    CheckMeans(p.parts[0].fields, rt);
    assert CreatedAt in RequiredColumns();
    assert CreatedAt in stmt.rows[0];
    CallOnColumns(opts, UpdateNewValues);
    NewValuesAlone(opts, stmt, CreatedAt);
  }
}
