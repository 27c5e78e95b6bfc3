/** Creating many accounts at once: every builder's hooks wrap a step that runs the next builder's
    hooks, the last step performs the one batch insert, and results are recorded on the way back. */
module BulkCreate {
  import opened Wrappers
  import opened Schema
  import opened Creation

  datatype Spec = Spec(fields: Fields, id: Option<int>)
  datatype Node = Node(id: int, fields: Fields)

  datatype CreateError =
    | BadBuilders | HookFailed(i: nat, h: nat) | CheckFailed(i: nat, e: ValidationError) | InsertFailed

  /** What an observer of Save sees: hooks entered and left, and batches sent to the database. */
  datatype Event = Enter(i: nat, h: nat) | Leave(i: nat, h: nat) | Insert(batch: seq<Spec>, accepted: bool)

  /** How the database answers one batch insert; some databases return the new ids. */
  datatype Answer = Rejected | Accepted(ids: nat -> Option<int>)

  // ----- a run as a function of what the builders hold -----

  datatype Part = Part(hooks: seq<Hook>, fields: Fields, failure: Option<ValidationError>)
  datatype Plan = Plan(parts: seq<Part>, answers: nat -> Answer)

  datatype State = State(specs: seq<Option<Spec>>, nodes: seq<Option<Node>>, done: seq<bool>, ids: seq<Option<int>>,
                         trace: seq<Event>, sent: nat)
  {
    function Log(e: Event): State { this.(trace := trace + [e]) }

    /** One entry per builder, and a spec and a node for each of the first i. */
    ghost predicate Fits(n: nat, i: nat) {
      && |specs| == |nodes| == |done| == |ids| == n
      && i <= n && forall k | 0 <= k < i :: specs[k].Some? && nodes[k].Some?
    }
  }

  type Outcome = (State, Option<CreateError>)

  /** Builder i's mutator from its hook h inwards. */
  ghost function Mutate(p: Plan, i: nat, h: nat, s: State): (r: Outcome)
    requires i < |p.parts| && h <= |p.parts[i].hooks| && s.Fits(|p.parts|, i)
    ensures r.0.Fits(|p.parts|, i)
    decreases |p.parts| - i, |p.parts[i].hooks| - h, 2, 0
  {
    if h == |p.parts[i].hooks| then Step(p, i, s)
    else
      var hook, s1 := p.parts[i].hooks[h], s.Log(Enter(i, h));
      if hook.failsBefore then (s1.Log(Leave(i, h)), Some(HookFailed(i, h)))
      else
        var r := Calls(p, i, h, hook.calls, s1);
        (r.0.Log(Leave(i, h)), if r.1.None? && hook.failsAfter then Some(HookFailed(i, h)) else r.1)
  }

  /** Hook h of builder i calling what it wraps n times. */
  ghost function Calls(p: Plan, i: nat, h: nat, n: nat, s: State): (r: Outcome)
    requires i < |p.parts| && h < |p.parts[i].hooks| && s.Fits(|p.parts|, i)
    ensures r.0.Fits(|p.parts|, i)
    decreases |p.parts| - i, |p.parts[i].hooks| - h, 0, n
  {
    if n == 0 then (s, None)
    else
      var r := Mutate(p, i, h + 1, s);
      if r.1.Some? && p.parts[i].hooks[h].propagates then r else Calls(p, i, h, n - 1, r.0)
  }

  /** The innermost step of builder i. */
  ghost function Step(p: Plan, i: nat, s: State): (r: Outcome)
    requires i < |p.parts| && s.Fits(|p.parts|, i)
    ensures r.0.Fits(|p.parts|, i)
    decreases |p.parts| - i, 0, 1, 0
  {
    if p.parts[i].failure.Some? then (s, Some(CheckFailed(i, p.parts[i].failure.value)))
    else
      var r := Onwards(p, i, Start(i, p.parts[i].fields, s));
      if r.1.Some? then r else (Finish(i, r.0), None)
  }

  /** The next builder's mutator, or the insert. */
  ghost function Onwards(p: Plan, i: nat, s: State): (r: Outcome)
    requires i < |p.parts| && s.Fits(|p.parts|, i + 1)
    ensures r.0.Fits(|p.parts|, i + 1)
    decreases |p.parts| - i, 0, 0, 0
  {
    if i < |p.parts| - 1 then Mutate(p, i + 1, 0, s) else InsertAll(p, s)
  }

  /** createSpec: the row to insert and the node to return. */
  ghost function Start(i: nat, fields: Fields, s: State): State
    requires i < |s.specs| == |s.nodes|
  {
    s.(specs := s.specs[i := Some(Spec(fields, None))], nodes := s.nodes[i := Some(Node(0, fields))])
  }

  ghost function InsertAll(p: Plan, s: State): (r: Outcome)
    requires s.Fits(|p.parts|, |p.parts|)
    ensures r.0.Fits(|p.parts|, |p.parts|)
  {
    var answer := p.answers(s.sent);
    var s1 := s.Log(Insert(Rows(s.specs), answer.Accepted?)).(sent := s.sent + 1);
    if answer.Rejected? then (s1, Some(InsertFailed)) else (s1.(specs := Identified(s.specs, answer.ids)), None)
  }

  ghost function Rows(specs: seq<Option<Spec>>): (r: seq<Spec>)
    requires forall k | 0 <= k < |specs| :: specs[k].Some?
    ensures |r| == |specs| && forall k | 0 <= k < |specs| :: r[k] == specs[k].value
  {
    if specs == [] then [] else Rows(specs[..|specs| - 1]) + [specs[|specs| - 1].value]
  }

  /** The id that came back, or else the one the spec had. */
  function NewID(spec: Spec, id: Option<int>): Spec {
    if id.Some? then spec.(id := id) else spec
  }

  ghost function Identified(specs: seq<Option<Spec>>, ids: nat -> Option<int>): (r: seq<Option<Spec>>)
    requires forall k | 0 <= k < |specs| :: specs[k].Some?
    ensures |r| == |specs| && forall k | 0 <= k < |specs| :: r[k] == Some(NewID(specs[k].value, ids(k)))
  {
    if specs == [] then []
    else Identified(specs[..|specs| - 1], ids) + [Some(NewID(specs[|specs| - 1].value, ids(|specs| - 1)))]
  }

  /** The id that came back is recorded, and the mutation is done. */
  ghost function Finish(i: nat, s: State): State
    requires i < |s.specs| == |s.nodes| == |s.done| == |s.ids| && s.specs[i].Some? && s.nodes[i].Some?
  {
    var id := if s.specs[i].value.id.Some? then s.specs[i].value.id.value else s.nodes[i].value.id;
    s.(nodes := s.nodes[i := Some(s.nodes[i].value.(id := id))], done := s.done[i := true], ids := s.ids[i := Some(id)])
  }

  /** The state in which Save calls the first mutator. */
  ghost function Fresh(n: nat, done: seq<bool>, ids: seq<Option<int>>): State {
    State(seq(n, _ => None), seq(n, _ => None), done, ids, [], 0)
  }

  // ----- any hooks: what reaches the database -----

  ghost function Batch(p: Plan): seq<Fields> {
    seq(|p.parts|, k requires 0 <= k < |p.parts| => p.parts[k].fields)
  }

  function FieldsOf(batch: seq<Spec>): (r: seq<Fields>)
    ensures |r| == |batch| && forall k | 0 <= k < |r| :: r[k] == batch[k].fields
  {
    seq(|batch|, k requires 0 <= k < |batch| => batch[k].fields)
  }

  /** Every batch sent so far held one row per builder, each from that builder and past its check. */
  ghost predicate OnlyChecked(p: Plan, trace: seq<Event>) {
    forall e | e in trace && e.Insert? ::
      FieldsOf(e.batch) == Batch(p) && forall k | 0 <= k < |p.parts| :: p.parts[k].failure.None?
  }

  ghost predicate Built(p: Plan, s: State, i: nat) {
    && s.Fits(|p.parts|, i)
    && forall k | 0 <= k < i :: s.specs[k].value.fields == p.parts[k].fields && p.parts[k].failure.None?
  }

  /** However the hooks behave, no batch is sent with a row missing, unchecked or from elsewhere. */
  lemma {:induction false} OnlyCheckedRowsInserted(p: Plan, i: nat, h: nat, s: State)
    requires i < |p.parts| && h <= |p.parts[i].hooks| && Built(p, s, i) && OnlyChecked(p, s.trace)
    ensures var r := Mutate(p, i, h, s); Built(p, r.0, i) && OnlyChecked(p, r.0.trace)
    decreases |p.parts| - i, |p.parts[i].hooks| - h, 2, 0
  {
    if h == |p.parts[i].hooks| {
      OnlyCheckedByStep(p, i, s);
    } else if !p.parts[i].hooks[h].failsBefore {
      OnlyCheckedByCalls(p, i, h, p.parts[i].hooks[h].calls, s.Log(Enter(i, h)));
    }
  }

  lemma {:induction false} OnlyCheckedByCalls(p: Plan, i: nat, h: nat, n: nat, s: State)
    requires i < |p.parts| && h < |p.parts[i].hooks| && Built(p, s, i) && OnlyChecked(p, s.trace)
    ensures var r := Calls(p, i, h, n, s); Built(p, r.0, i) && OnlyChecked(p, r.0.trace)
    decreases |p.parts| - i, |p.parts[i].hooks| - h, 0, n
  {
    if n > 0 {
      OnlyCheckedRowsInserted(p, i, h + 1, s);
      var r := Mutate(p, i, h + 1, s);
      if !(r.1.Some? && p.parts[i].hooks[h].propagates) {
        OnlyCheckedByCalls(p, i, h, n - 1, r.0);
      }
    }
  }

  lemma {:induction false} OnlyCheckedByStep(p: Plan, i: nat, s: State)
    requires i < |p.parts| && Built(p, s, i) && OnlyChecked(p, s.trace)
    ensures var r := Step(p, i, s); Built(p, r.0, i) && OnlyChecked(p, r.0.trace)
    decreases |p.parts| - i, 0, 0, 0
  {
    var part := p.parts[i];
    if part.failure.None? {
      var s1 := Start(i, part.fields, s);
      if i < |p.parts| - 1 {
        OnlyCheckedRowsInserted(p, i + 1, 0, s1);
      } else {
        InsertSends(p, s1);
      }
    }
  }

  lemma {:induction false} InsertSends(p: Plan, s: State)
    requires Built(p, s, |p.parts|)
    ensures var r := InsertAll(p, s);
            && Built(p, r.0, |p.parts|) && r.0.trace == s.trace + [Insert(Rows(s.specs), p.answers(s.sent).Accepted?)]
            && r.0.sent == s.sent + 1 && FieldsOf(Rows(s.specs)) == Batch(p)
            && r.0.done == s.done && r.1 == (if p.answers(s.sent).Rejected? then Some(InsertFailed) else None)
  {
    assert FieldsOf(Rows(s.specs)) == Batch(p);
  }

  /** The complete batch as it is sent first: no spec has an id yet. */
  ghost function FirstBatch(p: Plan): seq<Spec> {
    seq(|p.parts|, k requires 0 <= k < |p.parts| => Spec(p.parts[k].fields, None))
  }

  /** That batch with the n-th answer. */
  ghost function FirstInsert(p: Plan, n: nat): Event {
    Insert(FirstBatch(p), p.answers(n).Accepted?)
  }

  ghost predicate NoIDs(s: State, i: nat) {
    i <= |s.specs| && forall k | 0 <= k < i :: s.specs[k].Some? && s.specs[k].value.id.None?
  }

  lemma {:induction false} InsertSendsFirst(p: Plan, s: State)
    requires Built(p, s, |p.parts|) && NoIDs(s, |p.parts|)
    ensures InsertAll(p, s).0.trace == s.trace + [FirstInsert(p, s.sent)]
  {
    assert Rows(s.specs) == FirstBatch(p);
  }

  /** One of the first n answers gave builder k's row this id. */
  ghost predicate Returned(p: Plan, n: nat, k: nat, id: int) {
    exists m: nat :: m < n && p.answers(m).Accepted? && p.answers(m).ids(k) == Some(id)
  }

  /** Rows and nodes hold their builder's fields, and every id in them, or put into a mutation since it
      held the given one, is 0 or came from the database; only mutations marked done get one. */
  ghost predicate Sourced(p: Plan, s: State, given: seq<Option<int>>) {
    && s.Fits(|p.parts|, 0) && |given| == |p.parts|
    && forall k | 0 <= k < |p.parts| ::
         && (s.specs[k].Some? ==>
               && s.specs[k].value.fields == p.parts[k].fields
               && (s.specs[k].value.id.Some? ==> Returned(p, s.sent, k, s.specs[k].value.id.value)))
         && (s.nodes[k].Some? ==>
               && s.nodes[k].value.fields == p.parts[k].fields
               && (s.nodes[k].value.id == 0 || Returned(p, s.sent, k, s.nodes[k].value.id)))
         && (|| s.ids[k] == given[k]
             || (s.done[k] && s.ids[k].Some? && (s.ids[k].value == 0 || Returned(p, s.sent, k, s.ids[k].value))))
  }

  /** However the hooks behave, and however often batches are sent. */
  lemma {:induction false} NoInventedIDs(p: Plan, i: nat, h: nat, s: State, given: seq<Option<int>>)
    requires i < |p.parts| && h <= |p.parts[i].hooks| && s.Fits(|p.parts|, i) && Sourced(p, s, given)
    ensures Sourced(p, Mutate(p, i, h, s).0, given)
    decreases |p.parts| - i, |p.parts[i].hooks| - h, 2, 0
  {
    if h == |p.parts[i].hooks| {
      NoIDsInventedByStep(p, i, s, given);
    } else if !p.parts[i].hooks[h].failsBefore {
      NoIDsInventedByCalls(p, i, h, p.parts[i].hooks[h].calls, s.Log(Enter(i, h)), given);
    }
  }

  lemma {:induction false} NoIDsInventedByCalls(p: Plan, i: nat, h: nat, n: nat, s: State, given: seq<Option<int>>)
    requires i < |p.parts| && h < |p.parts[i].hooks| && s.Fits(|p.parts|, i) && Sourced(p, s, given)
    ensures Sourced(p, Calls(p, i, h, n, s).0, given)
    decreases |p.parts| - i, |p.parts[i].hooks| - h, 0, n
  {
    if n > 0 {
      NoInventedIDs(p, i, h + 1, s, given);
      var r := Mutate(p, i, h + 1, s);
      if !(r.1.Some? && p.parts[i].hooks[h].propagates) {
        NoIDsInventedByCalls(p, i, h, n - 1, r.0, given);
      }
    }
  }

  lemma {:induction false} NoIDsInventedByStep(p: Plan, i: nat, s: State, given: seq<Option<int>>)
    requires i < |p.parts| && s.Fits(|p.parts|, i) && Sourced(p, s, given)
    ensures Sourced(p, Step(p, i, s).0, given)
    decreases |p.parts| - i, 0, 0, 0
  {
    hide Mutate, Returned, InsertAll;
    var part := p.parts[i];
    if part.failure.None? {
      var s1 := Start(i, part.fields, s);
      if i < |p.parts| - 1 {
        NoInventedIDs(p, i + 1, 0, s1, given);
      } else {
        NoIDsInventedByInsert(p, s1, given);
      }
    }
  }

  lemma {:induction false} NoIDsInventedByInsert(p: Plan, s: State, given: seq<Option<int>>)
    requires s.Fits(|p.parts|, |p.parts|) && Sourced(p, s, given)
    ensures Sourced(p, InsertAll(p, s).0, given)
  {
    hide Returned;
    forall k, id | Returned(p, s.sent, k, id) ensures Returned(p, s.sent + 1, k, id) {
      SentBefore(p, s.sent, k, id);
    }
    forall k | 0 <= k < |p.parts| && p.answers(s.sent).Accepted? && p.answers(s.sent).ids(k).Some?
      ensures Returned(p, s.sent + 1, k, p.answers(s.sent).ids(k).value)
    {
      SentNow(p, s.sent, k);
    }
  }

  lemma {:induction false} SentBefore(p: Plan, n: nat, k: nat, id: int)
    requires Returned(p, n, k, id)
    ensures Returned(p, n + 1, k, id)
  {
  }

  lemma {:induction false} SentNow(p: Plan, n: nat, k: nat)
    requires p.answers(n).Accepted? && p.answers(n).ids(k).Some?
    ensures Returned(p, n + 1, k, p.answers(n).ids(k).value)
  {
  }

  // ----- hooks that call what they wrap once and pass its error on -----

  ghost predicate Disciplined(p: Plan) {
    forall i, h | 0 <= i < |p.parts| && 0 <= h < |p.parts[i].hooks| ::
      p.parts[i].hooks[h].calls == 1 && p.parts[i].hooks[h].propagates
  }

  ghost predicate LetsIn(part: Part, h: nat) {
    forall j | h <= j < |part.hooks| :: !part.hooks[j].failsBefore
  }

  ghost predicate LetsOut(part: Part, h: nat) {
    forall j | h <= j < |part.hooks| :: !part.hooks[j].failsAfter
  }

  /** From hook h of builder i inwards, nothing stops the run before the batch insert. */
  ghost predicate Reaches(p: Plan, i: nat, h: nat)
    requires i < |p.parts|
  {
    && LetsIn(p.parts[i], h) && p.parts[i].failure.None?
    && forall k | i < k < |p.parts| :: LetsIn(p.parts[k], 0) && p.parts[k].failure.None?
  }

  /** The n-th batch was accepted, and no hook of a builder after k failed afterwards. */
  ghost predicate ReportedTo(p: Plan, k: nat, n: nat) {
    p.answers(n).Accepted? && forall j | k < j < |p.parts| :: LetsOut(p.parts[j], 0)
  }

  ghost function Inserts(trace: seq<Event>): seq<Event> {
    if trace == [] then []
    else Inserts(trace[..|trace| - 1]) + (if trace[|trace| - 1].Insert? then [trace[|trace| - 1]] else [])
  }

  lemma {:induction false} InsertsLog(trace: seq<Event>, e: Event)
    ensures Inserts(trace + [e]) == Inserts(trace) + (if e.Insert? then [e] else [])
  {
    assert (trace + [e])[..|trace|] == trace;
  }

  /** What a run did: whether it failed, which batches it sent, and which mutations are done. */
  ghost predicate Did(p: Plan, i: nat, h: nat, s: State, r: Outcome)
    requires i < |p.parts| && s.Fits(|p.parts|, i) && r.0.Fits(|p.parts|, i)
  {
    && (r.1.None? <==> Reaches(p, i, h) && ReportedTo(p, i, s.sent) && LetsOut(p.parts[i], h))
    && Inserts(r.0.trace) == Inserts(s.trace) + (if Reaches(p, i, h) then [FirstInsert(p, s.sent)] else [])
    && (forall k | 0 <= k < |p.parts| ::
          r.0.done[k] <==> s.done[k] || (k >= i && Reaches(p, i, h) && ReportedTo(p, k, s.sent)))
  }

  lemma {:induction false} DisciplinedRun(p: Plan, i: nat, h: nat, s: State)
    requires Disciplined(p) && i < |p.parts| && h <= |p.parts[i].hooks| && Built(p, s, i) && NoIDs(s, i)
    ensures Did(p, i, h, s, Mutate(p, i, h, s))
    decreases |p.parts| - i, |p.parts[i].hooks| - h, 1
  {
    if h == |p.parts[i].hooks| {
      DisciplinedStep(p, i, s);
    } else {
      var hook, s1 := p.parts[i].hooks[h], s.Log(Enter(i, h));
      InsertsLog(s.trace, Enter(i, h));
      if hook.failsBefore {
        InsertsLog(s1.trace, Leave(i, h));
      } else {
        DisciplinedRun(p, i, h + 1, s1);
        var r := Mutate(p, i, h + 1, s1);
        assert Calls(p, i, h, 1, s1) == r;
        InsertsLog(r.0.trace, Leave(i, h));
      }
    }
  }

  lemma {:induction false} DisciplinedStep(p: Plan, i: nat, s: State)
    requires Disciplined(p) && i < |p.parts| && Built(p, s, i) && NoIDs(s, i)
    ensures Did(p, i, |p.parts[i].hooks|, s, Step(p, i, s))
    decreases |p.parts| - i, 0, 0
  {
    hide Mutate, Inserts, InsertAll, FirstInsert;
    var part := p.parts[i];
    if part.failure.None? {
      var s1 := Start(i, part.fields, s);
      if i < |p.parts| - 1 {
        DisciplinedRun(p, i + 1, 0, s1);
        ReachesNext(p, i, s.sent);
      } else {
        DisciplinedInsert(p, s1);
      }
    }
  }

  lemma {:induction false} DisciplinedInsert(p: Plan, s: State)
    requires Built(p, s, |p.parts|) && NoIDs(s, |p.parts|)
    ensures var r := InsertAll(p, s);
            && Inserts(r.0.trace) == Inserts(s.trace) + [FirstInsert(p, s.sent)] && r.0.done == s.done
            && (r.1.None? <==> p.answers(s.sent).Accepted?)
  {
    InsertSends(p, s);
    InsertSendsFirst(p, s);
    InsertsLog(s.trace, FirstInsert(p, s.sent));
  }

  // ----- what is returned and recorded -----

  /** After the n-th batch: the row's new id as the database returned it, or 0. */
  ghost function ReturnedID(p: Plan, k: nat, n: nat): int
    requires p.answers(n).Accepted?
  {
    var id := p.answers(n).ids(k);
    if id.Some? then id.value else 0
  }

  /** The nodes and mutations that the report of the n-th batch gets to have its ids, the other nodes have
      none and the other mutations are as they were. */
  ghost predicate Recorded(p: Plan, i: nat, h: nat, s: State, r: Outcome)
    requires i < |p.parts| && s.Fits(|p.parts|, i) && r.0.Fits(|p.parts|, i)
  {
    && (Reaches(p, i, h) && p.answers(s.sent).Accepted? ==>
          forall k | 0 <= k < |p.parts| :: r.0.specs[k] == Some(Spec(p.parts[k].fields, p.answers(s.sent).ids(k))))
    && forall k | 0 <= k < |p.parts| ::
         && (k < i ==> r.0.nodes[k] == s.nodes[k])
         && (k >= i && Reaches(p, i, h) ==>
               var id := if ReportedTo(p, k, s.sent) then ReturnedID(p, k, s.sent) else 0;
               r.0.nodes[k] == Some(Node(id, p.parts[k].fields)))
         && (r.0.ids[k] == if k >= i && Reaches(p, i, h) && ReportedTo(p, k, s.sent) then Some(ReturnedID(p, k, s.sent))
                           else s.ids[k])
  }

  lemma {:induction false} RunRecords(p: Plan, i: nat, h: nat, s: State)
    requires Disciplined(p) && i < |p.parts| && h <= |p.parts[i].hooks| && Built(p, s, i) && NoIDs(s, i)
    ensures Recorded(p, i, h, s, Mutate(p, i, h, s))
    decreases |p.parts| - i, |p.parts[i].hooks| - h, 1
  {
    hide Step, ReturnedID;
    if h == |p.parts[i].hooks| {
      StepRecords(p, i, s);
    } else if !p.parts[i].hooks[h].failsBefore {
      var s1 := s.Log(Enter(i, h));
      RunRecords(p, i, h + 1, s1);
      assert Calls(p, i, h, 1, s1) == Mutate(p, i, h + 1, s1);
    }
  }

  lemma {:induction false} StepRecords(p: Plan, i: nat, s: State)
    requires Disciplined(p) && i < |p.parts| && Built(p, s, i) && NoIDs(s, i)
    ensures Recorded(p, i, |p.parts[i].hooks|, s, Step(p, i, s))
    decreases |p.parts| - i, 0, 0
  {
    hide Mutate, Inserts, InsertAll, FirstInsert, LetsOut, Reaches, ReportedTo;
    var part := p.parts[i];
    if part.failure.None? {
      var s1 := Start(i, part.fields, s);
      if i < |p.parts| - 1 {
        DisciplinedRun(p, i + 1, 0, s1);
        RunRecords(p, i + 1, 0, s1);
        ReachesNext(p, i, s.sent);
      } else {
        InsertRecords(p, s1);
        ReachesInsert(p, i, s.sent);
      }
    } else {
      NotReached(p, i);
    }
  }

  /** Past the hooks and the check of builder i, it depends on the next builder how far a run gets. */
  lemma {:induction false} ReachesNext(p: Plan, i: nat, n: nat)
    requires i + 1 < |p.parts| && p.parts[i].failure.None?
    ensures Reaches(p, i, |p.parts[i].hooks|) <==> Reaches(p, i + 1, 0)
    ensures ReportedTo(p, i, n) <==> ReportedTo(p, i + 1, n) && LetsOut(p.parts[i + 1], 0)
    ensures ReportedTo(p, i, n) ==> p.answers(n).Accepted?
  {
  }

  lemma {:induction false} NotReached(p: Plan, i: nat)
    requires i < |p.parts| && p.parts[i].failure.Some?
    ensures !Reaches(p, i, |p.parts[i].hooks|)
  {
  }

  lemma {:induction false} ReachesInsert(p: Plan, i: nat, n: nat)
    requires i + 1 == |p.parts| && p.parts[i].failure.None?
    ensures Reaches(p, i, |p.parts[i].hooks|) && (ReportedTo(p, i, n) <==> p.answers(n).Accepted?)
  {
  }

  lemma {:induction false} InsertRecords(p: Plan, s: State)
    requires Built(p, s, |p.parts|) && NoIDs(s, |p.parts|)
    ensures var r := InsertAll(p, s);
            && r.0.nodes == s.nodes && r.0.ids == s.ids && (r.1.None? <==> p.answers(s.sent).Accepted?)
            && (p.answers(s.sent).Accepted? ==>
                  forall k | 0 <= k < |p.parts| :: r.0.specs[k] == Some(Spec(p.parts[k].fields, p.answers(s.sent).ids(k))))
  {
  }

  // ----- which error is reported -----

  /** From hook h of builder i on, the hooks entered before hook b of builder a let in, and the checks made
      before it pass. */
  ghost predicate GetsTo(p: Plan, i: nat, h: nat, a: nat, b: nat)
    requires a < |p.parts|
  {
    && (forall k, l | i <= k <= a && 0 <= l < |p.parts[k].hooks| && (k > i || l >= h) && (k < a || l < b) ::
          !p.parts[k].hooks[l].failsBefore)
    && forall k | i <= k < a :: p.parts[k].failure.None?
  }

  /** The n-th batch was accepted, and of the hooks left before hook b of builder a none fails. */
  ghost predicate ReportedPast(p: Plan, a: nat, b: nat, n: nat)
    requires a < |p.parts|
  {
    ReportedTo(p, a, n) && LetsOut(p.parts[a], b + 1)
  }

  /** Where an error comes from: the first hook to fail on the way in, the first check to fail, the insert,
      or the first hook to fail on the way out. */
  ghost predicate Originates(p: Plan, i: nat, h: nat, n: nat, e: CreateError)
    requires i < |p.parts|
  {
    match e
    case BadBuilders => false
    case HookFailed(a, b) =>
      && i <= a < |p.parts| && b < |p.parts[a].hooks| && (a == i ==> h <= b)
      && var hook := p.parts[a].hooks[b];
         (hook.failsBefore && GetsTo(p, i, h, a, b)) || (hook.failsAfter && Reaches(p, i, h) && ReportedPast(p, a, b, n))
    case CheckFailed(a, x) =>
      i <= a < |p.parts| && p.parts[a].failure == Some(x) && GetsTo(p, i, h, a, |p.parts[a].hooks|)
    case InsertFailed => Reaches(p, i, h) && p.answers(n).Rejected?
  }

  lemma {:induction false} ErrorOrigin(p: Plan, i: nat, h: nat, s: State)
    requires Disciplined(p) && i < |p.parts| && h <= |p.parts[i].hooks| && Built(p, s, i) && NoIDs(s, i)
    ensures var e := Mutate(p, i, h, s).1; e.Some? ==> Originates(p, i, h, s.sent, e.value)
    decreases |p.parts| - i, |p.parts[i].hooks| - h, 1
  {
    hide Step;
    if h == |p.parts[i].hooks| {
      StepErrorOrigin(p, i, s);
    } else if !p.parts[i].hooks[h].failsBefore {
      var s1 := s.Log(Enter(i, h));
      DisciplinedRun(p, i, h + 1, s1);
      ErrorOrigin(p, i, h + 1, s1);
      assert Calls(p, i, h, 1, s1) == Mutate(p, i, h + 1, s1);
    }
  }

  lemma {:induction false} StepErrorOrigin(p: Plan, i: nat, s: State)
    requires Disciplined(p) && i < |p.parts| && Built(p, s, i) && NoIDs(s, i)
    ensures var e := Step(p, i, s).1; e.Some? ==> Originates(p, i, |p.parts[i].hooks|, s.sent, e.value)
    decreases |p.parts| - i, 0, 0
  {
    hide Mutate;
    var part := p.parts[i];
    if part.failure.None? {
      var s1 := Start(i, part.fields, s);
      if i < |p.parts| - 1 {
        ErrorOrigin(p, i + 1, 0, s1);
      }
    }
  }

  // ----- nesting -----

  /** All hooks in the order in which they are to be entered. */
  ghost function Positions(p: Plan, i: nat, h: nat): seq<(nat, nat)>
    requires i < |p.parts| && h <= |p.parts[i].hooks|
    decreases |p.parts| - i, |p.parts[i].hooks| - h
  {
    if h < |p.parts[i].hooks| then [(i, h)] + Positions(p, i, h + 1)
    else if i + 1 < |p.parts| then Positions(p, i + 1, 0)
    else []
  }

  /** What hooks log around inner events when they are entered in order and left again. */
  ghost function Brackets(ps: seq<(nat, nat)>, inner: seq<Event>): seq<Event> {
    if ps == [] then inner else [Enter(ps[0].0, ps[0].1)] + Brackets(ps[1..], inner) + [Leave(ps[0].0, ps[0].1)]
  }

  /** Entered in order, left in exactly the opposite order, and everything else happens in between. */
  lemma {:induction false} BracketsNest(ps: seq<(nat, nat)>, inner: seq<Event>)
    ensures |Brackets(ps, inner)| == 2 * |ps| + |inner|
    ensures Brackets(ps, inner)[|ps|..|ps| + |inner|] == inner
    ensures forall j | 0 <= j < |ps| ::
      && Brackets(ps, inner)[j] == Enter(ps[j].0, ps[j].1)
      && Brackets(ps, inner)[|Brackets(ps, inner)| - 1 - j] == Leave(ps[j].0, ps[j].1)
  {
    if ps != [] {
      var all, within := Brackets(ps, inner), Brackets(ps[1..], inner);
      BracketsNest(ps[1..], inner);
      assert forall j | 0 <= j < |within| :: all[j + 1] == within[j];
      assert forall j | 0 < j < |ps| :: ps[1..][j - 1] == ps[j];
      forall j | 0 < j < |ps|
        ensures all[j] == Enter(ps[j].0, ps[j].1) && all[|all| - 1 - j] == Leave(ps[j].0, ps[j].1)
      {
        assert all[j] == within[j - 1] && all[|all| - 1 - j] == within[|within| - 1 - (j - 1)];
      }
    }
  }

  /** The batch that a run sends, if it sends one. */
  ghost function Sends(p: Plan, i: nat, h: nat, n: nat): seq<Event>
    requires i < |p.parts|
  {
    if Reaches(p, i, h) then [FirstInsert(p, n)] else []
  }

  /** Everything that happens: the first k hooks are entered, and left again, around the batch; all hooks if
      there is a batch. */
  lemma {:induction false} WellBracketed(p: Plan, i: nat, h: nat, s: State) returns (k: nat)
    requires Disciplined(p) && i < |p.parts| && h <= |p.parts[i].hooks| && Built(p, s, i) && NoIDs(s, i)
    ensures k <= |Positions(p, i, h)|
    ensures Mutate(p, i, h, s).0.trace == s.trace + Brackets(Positions(p, i, h)[..k], Sends(p, i, h, s.sent))
    ensures Reaches(p, i, h) ==> k == |Positions(p, i, h)|
    decreases |p.parts| - i, |p.parts[i].hooks| - h, 1
  {
    hide Step, Brackets, FirstInsert;
    if h == |p.parts[i].hooks| {
      k := WellBracketedStep(p, i, s);
    } else if p.parts[i].hooks[h].failsBefore {
      k := 1;
      assert Positions(p, i, h)[..1] == [(i, h)];
      OneBracket(s.trace, i, h);
    } else {
      var s1 := s.Log(Enter(i, h));
      var m := WellBracketed(p, i, h + 1, s1);
      var r := Mutate(p, i, h + 1, s1);
      assert Calls(p, i, h, 1, s1) == r;
      k := m + 1;
      assert Sends(p, i, h, s.sent) == Sends(p, i, h + 1, s.sent);
      Enclosed(s.trace, Positions(p, i, h + 1)[..m], Sends(p, i, h, s.sent), i, h);
      assert Positions(p, i, h)[..k] == [(i, h)] + Positions(p, i, h + 1)[..m];
    }
  }

  lemma {:induction false} WellBracketedStep(p: Plan, i: nat, s: State) returns (k: nat)
    requires Disciplined(p) && i < |p.parts| && Built(p, s, i) && NoIDs(s, i)
    ensures var h := |p.parts[i].hooks|;
            && k <= |Positions(p, i, h)|
            && Step(p, i, s).0.trace == s.trace + Brackets(Positions(p, i, h)[..k], Sends(p, i, h, s.sent))
            && (Reaches(p, i, h) ==> k == |Positions(p, i, h)|)
    decreases |p.parts| - i, 0, 0
  {
    hide Mutate, FirstInsert, Reaches;
    var part := p.parts[i];
    k := 0;
    if part.failure.None? {
      var s1 := Start(i, part.fields, s);
      if i < |p.parts| - 1 {
        ReachesNext(p, i, s.sent);
        k := WellBracketed(p, i + 1, 0, s1);
      } else {
        ReachesInsert(p, i, s.sent);
        InsertSendsFirst(p, s1);
      }
    } else {
      NotReached(p, i);
    }
  }

  lemma {:induction false} OneBracket(before: seq<Event>, i: nat, h: nat)
    ensures before + Brackets([(i, h)], []) == before + [Enter(i, h)] + [Leave(i, h)]
  {
    assert [(i, h)][1..] == [] && Brackets([], []) == [];
  }

  lemma {:induction false} Enclosed(before: seq<Event>, ps: seq<(nat, nat)>, inner: seq<Event>, i: nat, h: nat)
    ensures before + [Enter(i, h)] + Brackets(ps, inner) + [Leave(i, h)] == before + Brackets([(i, h)] + ps, inner)
  {
    assert ([(i, h)] + ps)[1..] == ps;
  }

  // ----- Save as a whole -----

  /** For disciplined hooks, Save from its first mutator on, with no mutation done before. */
  lemma {:induction false} SaveOutcome(p: Plan, s: State)
    requires Disciplined(p) && |p.parts| > 0 && s.Fits(|p.parts|, 0) && s.trace == [] && s.sent == 0
    requires forall k | 0 <= k < |p.parts| :: !s.done[k]
    ensures var r := Mutate(p, 0, 0, s);
            // one complete batch, or nothing at all; nothing if any check fails
            && Inserts(r.0.trace) == (if Reaches(p, 0, 0) then [FirstInsert(p, 0)] else [])
            && (forall k | 0 <= k < |p.parts| && p.parts[k].failure.Some? ::
                  Inserts(r.0.trace) == [] && forall j | 0 <= j < |p.parts| :: !r.0.done[j])
            // the done mutations are those after the last builder with a hook that fails afterwards
            && (forall k | 0 <= k < |p.parts| :: r.0.done[k] <==> Reaches(p, 0, 0) && ReportedTo(p, k, 0))
            && (forall j, k | 0 <= j < k < |p.parts| && r.0.done[j] :: r.0.done[k])
            && (r.0.done[|p.parts| - 1] <==> Inserts(r.0.trace) == [Insert(FirstBatch(p), true)])
            // success means that all are done; the converse needs the first builder's hooks to let it out
            && (r.1.None? <==> (forall k | 0 <= k < |p.parts| :: r.0.done[k]) && LetsOut(p.parts[0], 0))
  {
    DisciplinedRun(p, 0, 0, s);
    var r := Mutate(p, 0, 0, s);
    if Reaches(p, 0, 0) {
      assert forall k | 0 <= k < |p.parts| :: p.parts[k].failure.None?;
    }
    if forall k | 0 <= k < |p.parts| :: r.0.done[k] {
      assert r.0.done[0];
    }
  }

  /** And what it leaves in nodes and mutations. */
  lemma {:induction false} SaveRecords(p: Plan, s: State)
    requires Disciplined(p) && |p.parts| > 0 && s.Fits(|p.parts|, 0) && s.sent == 0
    requires forall k | 0 <= k < |p.parts| :: !s.done[k]
    ensures var r := Mutate(p, 0, 0, s);
            // a done mutation and its node have the id that the database returned, or 0
            && (forall k | 0 <= k < |p.parts| && r.0.done[k] ::
                  && p.answers(0).Accepted?
                  && (var id := p.answers(0).ids(k);
                      r.0.nodes[k] == Some(Node(if id.Some? then id.value else 0, p.parts[k].fields)))
                  && r.0.ids[k] == Some(r.0.nodes[k].value.id))
            // any other mutation keeps the id it had
            && (forall k | 0 <= k < |p.parts| && !r.0.done[k] :: r.0.ids[k] == s.ids[k])
  {
    hide Mutate, Reaches;
    DisciplinedRun(p, 0, 0, s);
    RunRecords(p, 0, 0, s);
  }

  /** A run without error from the first mutator on leaves every builder done and identified. */
  lemma {:induction false} SuccessRecords(p: Plan, s: State)
    requires Disciplined(p) && |p.parts| > 0 && s.Fits(|p.parts|, 0) && s.sent == 0 && Mutate(p, 0, 0, s).1.None?
    ensures var r := Mutate(p, 0, 0, s);
            p.answers(0).Accepted? && forall k | 0 <= k < |p.parts| ::
              && r.0.done[k] && r.0.ids[k] == Some(ReturnedID(p, k, 0))
              && r.0.nodes[k] == Some(Node(ReturnedID(p, k, 0), p.parts[k].fields))
  {
    hide Mutate, Reaches, ReturnedID;
    DisciplinedRun(p, 0, 0, s);
    RunRecords(p, 0, 0, s);
    assert forall k | 0 <= k < |p.parts| :: ReportedTo(p, k, 0);
  }

  // ----- the builders -----

  /** What Save will run for a builder once defaults has been applied, its error ignored. */
  ghost function Prepared(b: AccountCreate): Part
    requires b.rt.Declared()
    reads b.mutation`fields
  {
    var fields := Defaulted(b.mutation.fields, b.rt, FirstUninitialised(b.mutation.fields, b.rt));
    Part(b.hooks, fields, CheckOf(fields, b.rt))
  }

  ghost function PartOf(b: AccountCreate): Part
    reads b.mutation`fields
  {
    Part(b.hooks, b.mutation.fields, CheckOf(b.mutation.fields, b.rt))
  }

  /** A builder whose defaults failed keeps the whole bulk from being inserted, however the hooks
      behave; and whatever is inserted has all required columns, accepted by their validators. */
  lemma {:induction false} DefaultsErrorInsertsNothing(p: Plan, s: State, rt: Runtime, before: seq<Fields>, i: nat)
    requires rt.Declared() && |before| == |p.parts| && s.Fits(|p.parts|, 0) && s.trace == [] && i < |p.parts|
    requires forall k | 0 <= k < |p.parts| ::
      && p.parts[k].fields == Defaulted(before[k], rt, FirstUninitialised(before[k], rt))
      && p.parts[k].failure == CheckOf(p.parts[k].fields, rt)
    ensures FirstUninitialised(before[i], rt) < DEFAULTS ==> forall e | e in Mutate(p, 0, 0, s).0.trace :: !e.Insert?
    ensures forall e | e in Mutate(p, 0, 0, s).0.trace && e.Insert? ::
      FieldsOf(e.batch) == Batch(p) && Acceptable(e.batch[i].fields, rt)
  {
    OnlyCheckedRowsInserted(p, 0, 0, s);
    FailedDefaultsFailCheck(before[i], rt);
    CheckMeans(p.parts[i].fields, rt);
  }

  ghost function MutationsOf(builders: seq<AccountCreate>): set<AccountMutation> {
    set b | b in builders :: b.mutation
  }

  ghost function DoneOf(builders: seq<AccountCreate>): (r: seq<bool>)
    reads MutationsOf(builders)`done
    ensures |r| == |builders| && forall i | 0 <= i < |r| :: r[i] == builders[i].mutation.done
  {
    if builders == [] then [] else DoneOf(builders[..|builders| - 1]) + [builders[|builders| - 1].mutation.done]
  }

  ghost function IDsOf(builders: seq<AccountCreate>): (r: seq<Option<int>>)
    reads MutationsOf(builders)`id
    ensures |r| == |builders| && forall i | 0 <= i < |r| :: r[i] == builders[i].mutation.id
  {
    if builders == [] then [] else IDsOf(builders[..|builders| - 1]) + [builders[|builders| - 1].mutation.id]
  }

  ghost function PartsOf(builders: seq<AccountCreate>): (r: seq<Part>)
    reads MutationsOf(builders)`fields
    ensures |r| == |builders|
  {
    hide CheckOf, PartOf;
    if builders == [] then [] else PartsOf(builders[..|builders| - 1]) + [PartOf(builders[|builders| - 1])]
  }

  lemma {:induction false} PartsAre(builders: seq<AccountCreate>)
    ensures forall i | 0 <= i < |builders| :: PartsOf(builders)[i] == PartOf(builders[i])
  {
    hide PartOf;
    if builders != [] {
      PartsAre(builders[..|builders| - 1]);
    }
  }

  method Prepare(b: AccountCreate)
    requires b.rt.Declared()
    modifies b.mutation`fields
    ensures PartOf(b) == old(Prepared(b))
  {
    var ignored := b.Defaults();
  }

  class AccountCreateBulk {
    const err: Option<CreateError>   // why the builders could not be set up, if so
    const builders: seq<AccountCreate>
    ghost var trace: seq<Event>
    var sent: nat                    // batches the database has been sent

    constructor (err: Option<CreateError>, builders: seq<AccountCreate>)
      ensures this.err == err && this.builders == builders && trace == [] && sent == 0
    {
      this.err, this.builders, trace, sent := err, builders, [], 0;
    }

    ghost predicate Valid() {
      && (forall i, j | 0 <= i < j < |builders| :: builders[i].mutation != builders[j].mutation)
      && forall i | 0 <= i < |builders| :: builders[i].rt.Declared()
    }

    ghost function Mutations(): set<AccountMutation> {
      MutationsOf(builders)
    }

    /** The run so far, as a value. */
    ghost function Now(specs: array<Option<Spec>>, nodes: array<Option<Node>>): State
      reads this, Mutations(), specs, nodes
    {
      State(specs[..], nodes[..], DoneOf(builders), IDsOf(builders), trace, sent)
    }

    /** The builders still hold what the plan was made from. */
    ghost predicate Follows(p: Plan)
      reads Mutations()`fields
    {
      |p.parts| == |builders| && forall i | 0 <= i < |builders| :: p.parts[i] == PartOf(builders[i])
    }

    lemma {:induction false} FollowsAt(p: Plan, i: nat)
      requires Follows(p) && i < |builders|
      ensures |p.parts| == |builders| && p.parts[i].hooks == builders[i].hooks
      ensures p.parts[i].fields == builders[i].mutation.fields
      ensures p.parts[i].failure == CheckOf(builders[i].mutation.fields, builders[i].rt)
    {
    }

    /** The mutator of builder i from its hook h inwards. */
    method MutateFrom(i: nat, h: nat, answers: nat -> Answer, specs: array<Option<Spec>>, nodes: array<Option<Node>>,
                      ghost p: Plan)
      returns (err: Option<CreateError>)
      requires Valid() && i < |builders| && h <= |builders[i].hooks|
      requires Follows(p) && p.answers == answers && Now(specs, nodes).Fits(|builders|, i)
      modifies this`trace, this`sent, specs, nodes, Mutations()`done, Mutations()`id
      ensures Follows(p)
      ensures Now(specs, nodes) == Mutate(p, i, h, old(Now(specs, nodes))).0
      ensures err == Mutate(p, i, h, old(Now(specs, nodes))).1
      decreases |builders| - i, |builders[i].hooks| - h, 2, 0
    {
      hide Step, Calls, Valid, Follows, Now;
      FollowsAt(p, i);
      if h == |builders[i].hooks| {
        err := CreateOne(i, answers, specs, nodes, p);
        return;
      }
      var hook := builders[i].hooks[h];
      Observe(Enter(i, h), specs, nodes);
      if hook.failsBefore {
        err := Some(HookFailed(i, h));
      } else {
        err := CallNext(i, h, hook.calls, answers, specs, nodes, p);
        if err.None? && hook.failsAfter {
          err := Some(HookFailed(i, h));
        }
      }
      Observe(Leave(i, h), specs, nodes);
    }

    ghost method Observe(e: Event, specs: array<Option<Spec>>, nodes: array<Option<Node>>)
      modifies this`trace
      ensures Now(specs, nodes) == old(Now(specs, nodes)).Log(e)
    {
      trace := trace + [e];
    }

    /** Hook h calling the mutator it wraps n times. */
    method CallNext(i: nat, h: nat, n: nat, answers: nat -> Answer, specs: array<Option<Spec>>,
                    nodes: array<Option<Node>>, ghost p: Plan)
      returns (err: Option<CreateError>)
      requires Valid() && i < |builders| && h < |builders[i].hooks|
      requires |p.parts| == |builders| && p.parts[i].hooks == builders[i].hooks
      requires Follows(p) && p.answers == answers && Now(specs, nodes).Fits(|builders|, i)
      modifies this`trace, this`sent, specs, nodes, Mutations()`done, Mutations()`id
      ensures Follows(p)
      ensures Now(specs, nodes) == Calls(p, i, h, n, old(Now(specs, nodes))).0
      ensures err == Calls(p, i, h, n, old(Now(specs, nodes))).1
      decreases |builders| - i, |builders[i].hooks| - h, 0, n
    {
      hide Mutate, Valid, Follows, Now;
      if n == 0 {
        return None;
      }
      err := MutateFrom(i, h + 1, answers, specs, nodes, p);
      if err.None? || !builders[i].hooks[h].propagates {
        err := CallNext(i, h, n - 1, answers, specs, nodes, p);
      }
    }

    /** The innermost step of builder i: check, build the spec, go on to the next builder or send
        the batch, and record the result. */
    method CreateOne(i: nat, answers: nat -> Answer, specs: array<Option<Spec>>, nodes: array<Option<Node>>,
                     ghost p: Plan)
      returns (err: Option<CreateError>)
      requires Valid() && i < |builders|
      requires Follows(p) && p.answers == answers && Now(specs, nodes).Fits(|builders|, i)
      modifies this`trace, this`sent, specs, nodes, Mutations()`done, Mutations()`id
      ensures Follows(p)
      ensures Now(specs, nodes) == Step(p, i, old(Now(specs, nodes))).0
      ensures err == Step(p, i, old(Now(specs, nodes))).1
      decreases |builders| - i, 0, 1, 0
    {
      hide Onwards, CheckOf, Start, Finish, Valid, Follows, Now;
      FollowsAt(p, i);
      var failure := builders[i].Check();
      if failure.Some? {
        return Some(CheckFailed(i, failure.value));
      }
      CreateSpec(i, specs, nodes);
      err := Proceed(i, answers, specs, nodes, p);
      if err.None? {
        Record(i, specs, nodes);
      }
    }

    /** On to the next builder's mutator, or after the last builder to the insert. */
    method Proceed(i: nat, answers: nat -> Answer, specs: array<Option<Spec>>, nodes: array<Option<Node>>,
                   ghost p: Plan)
      returns (err: Option<CreateError>)
      requires Valid() && i < |builders|
      requires Follows(p) && p.answers == answers && Now(specs, nodes).Fits(|builders|, i + 1)
      modifies this`trace, this`sent, specs, nodes, Mutations()`done, Mutations()`id
      ensures Follows(p)
      ensures Now(specs, nodes) == Onwards(p, i, old(Now(specs, nodes))).0
      ensures err == Onwards(p, i, old(Now(specs, nodes))).1
      decreases |builders| - i, 0, 0, 0
    {
      hide Mutate, InsertAll, Valid, Now, PartOf;
      if i < |builders| - 1 {
        err := MutateFrom(i + 1, 0, answers, specs, nodes, p);
      } else {
        err := BatchCreate(answers, specs, nodes, p);
      }
    }

    method CreateSpec(i: nat, specs: array<Option<Spec>>, nodes: array<Option<Node>>)
      requires i < |builders| && Now(specs, nodes).Fits(|builders|, i)
      modifies specs, nodes
      ensures Now(specs, nodes) == Start(i, builders[i].mutation.fields, old(Now(specs, nodes)))
      ensures Now(specs, nodes).Fits(|builders|, i + 1)
    {
      specs[i], nodes[i] := Some(Spec(builders[i].mutation.fields, None)), Some(Node(0, builders[i].mutation.fields));
    }

    /** Records the id of the inserted row, and that the mutation is done. */
    method Record(i: nat, specs: array<Option<Spec>>, nodes: array<Option<Node>>)
      requires Valid() && i < |builders| && Now(specs, nodes).Fits(|builders|, i + 1)
      modifies nodes, builders[i].mutation`done, builders[i].mutation`id
      ensures Now(specs, nodes) == Finish(i, old(Now(specs, nodes)))
      ensures var id := if specs[i].value.id.Some? then specs[i].value.id.value else old(nodes[i]).value.id;
              && nodes[i] == Some(Node(id, old(nodes[i]).value.fields))
              && builders[i].mutation.done && builders[i].mutation.id == Some(id)
    {
      hide DoneOf, IDsOf;
      ghost var before := Now(specs, nodes);
      var id := if specs[i].value.id.Some? then specs[i].value.id.value else nodes[i].value.id;
      nodes[i] := Some(nodes[i].value.(id := id));
      builders[i].mutation.id := Some(id);
      builders[i].mutation.done := true;
      assert DoneOf(builders) == before.done[i := true] && IDsOf(builders) == before.ids[i := Some(id)];
    }

    /** The one statement that inserts all rows. */
    method BatchCreate(answers: nat -> Answer, specs: array<Option<Spec>>, nodes: array<Option<Node>>, ghost p: Plan)
      returns (err: Option<CreateError>)
      requires Follows(p) && p.answers == answers && Now(specs, nodes).Fits(|builders|, |builders|)
      modifies this`trace, this`sent, specs
      ensures Follows(p)
      ensures Now(specs, nodes) == InsertAll(p, old(Now(specs, nodes))).0
      ensures err == InsertAll(p, old(Now(specs, nodes))).1
    {
      hide DoneOf, IDsOf, PartOf, Rows, Identified;
      ghost var given := specs[..];
      var answer := answers(sent);
      trace := trace + [Insert(Rows(given), answer.Accepted?)];
      sent := sent + 1;
      if answer.Rejected? {
        return Some(InsertFailed);
      }
      for k := 0 to specs.Length
        invariant forall j | 0 <= j < k :: specs[j] == Some(NewID(given[j].value, answer.ids(j)))
        invariant forall j | k <= j < specs.Length :: specs[j] == given[j]
        invariant trace == old(trace) + [Insert(Rows(given), true)] && sent == old(sent) + 1
      {
        specs[k] := Some(NewID(specs[k].value, answer.ids(k)));
      }
      assert specs[..] == Identified(given, answer.ids);
      err := None;
    }

    /** The first thing Save does to every builder; what defaults reports is ignored. */
    method PrepareAll()
      requires Valid()
      modifies Mutations()`fields
      ensures forall i | 0 <= i < |builders| :: PartOf(builders[i]) == old(Prepared(builders[i]))
    {
      hide PartOf, Prepared;
      for i := 0 to |builders|
        invariant forall k | 0 <= k < i :: PartOf(builders[k]) == old(Prepared(builders[k]))
        invariant forall k | i <= k < |builders| :: builders[k].mutation.fields == old(builders[k].mutation.fields)
      {
        Prepare(builders[i]);
      }
    }

    method NewTables() returns (specs: array<Option<Spec>>, nodes: array<Option<Node>>)
      requires trace == [] && sent == 0
      ensures fresh(specs) && fresh(nodes) && nodes.Length == |builders|
      ensures Fresh(|builders|, DoneOf(builders), IDsOf(builders)).Fits(|builders|, 0)
      ensures Now(specs, nodes) == Fresh(|builders|, DoneOf(builders), IDsOf(builders))
    {
      specs := new Option<Spec>[|builders|](_ => None);
      nodes := new Option<Node>[|builders|](_ => None);
      assert specs[..] == seq(|builders|, _ => None) && nodes[..] == seq(|builders|, _ => None);
    }

    ghost function PlanNow(answers: nat -> Answer): (p: Plan)
      reads Mutations()`fields
      ensures p.answers == answers && Follows(p)
    {
      PartsAre(builders);
      Plan(PartsOf(builders), answers)
    }

    /** Builder k's mutation is done, and it and the node it is returned as have the id that came back, or 0. */
    ghost predicate IdentifiedBy(k: nat, node: Option<Node>, id: Option<int>)
      requires k < |builders|
      reads builders[k].mutation
    {
      var m := builders[k].mutation;
      m.done && node == Some(Node(if id.Some? then id.value else 0, m.fields)) && m.id == Some(node.value.id)
    }

    /** Every builder, with the ids of this answer. */
    ghost predicate AllIdentified(nodes: seq<Option<Node>>, answer: Answer)
      reads Mutations()
    {
      |nodes| == |builders| && forall k | 0 <= k < |builders| :: answer.Accepted? && IdentifiedBy(k, nodes[k], answer.ids(k))
    }

    lemma {:induction false} NoneToIdentify(answer: Answer)
      ensures builders == [] ==> AllIdentified([], answer)
    {
    }

    lemma {:induction false} SuccessIdentifies(p: Plan, s: State)
      requires Disciplined(p) && |builders| > 0 && Follows(p) && s.Fits(|builders|, 0) && s.sent == 0
      requires var o := Mutate(p, 0, 0, s); o.1.None? && DoneOf(builders) == o.0.done && IDsOf(builders) == o.0.ids
      ensures AllIdentified(Mutate(p, 0, 0, s).0.nodes, p.answers(0))
    {
      hide Mutate, PartOf, Disciplined;
      SuccessRecords(p, s);
      forall k | 0 <= k < |builders| ensures IdentifiedBy(k, Mutate(p, 0, 0, s).0.nodes[k], p.answers(0).ids(k)) {
        FollowsAt(p, k);
      }
    }

    /** What is returned and recorded is what the run from builder 0's outermost hook gives. */
    method Save(answers: nat -> Answer) returns (r: Result<seq<Option<Node>>, CreateError>, ghost p: Plan)
      requires Valid() && trace == [] && sent == 0
      modifies this`trace, this`sent, Mutations()
      ensures err.Some? ==> r == Err(err.value) && trace == [] && unchanged(Mutations())
      ensures err.None? ==> p.answers == answers && |p.parts| == |builders|
      ensures err.None? ==> forall i | 0 <= i < |builders| :: p.parts[i] == old(Prepared(builders[i]))
      ensures err.None? && |builders| == 0 ==> r == Ok([]) && trace == []
      ensures err.None? && |builders| > 0 ==>
        var o := Mutate(p, 0, 0, Fresh(|builders|, old(DoneOf(builders)), old(IDsOf(builders))));
        && DoneOf(builders) == o.0.done && IDsOf(builders) == o.0.ids && trace == o.0.trace
        && r == if o.1.Some? then Err(o.1.value) else Ok(o.0.nodes)
      ensures err.None? && r.Err? && Disciplined(p) ==> |builders| > 0 && Originates(p, 0, 0, 0, r.error)
      ensures err.None? && r.Ok? ==> |r.value| == |builders|
      ensures err.None? && r.Ok? && Disciplined(p) ==> AllIdentified(r.value, answers(0))
    {
      hide Mutate, PartOf, Prepared, PartsOf, DoneOf, IDsOf, Valid, Follows, Fresh, AllIdentified, Originates, Disciplined;
      p := Plan([], answers);
      if err.Some? {
        return Err(err.value), p;
      }
      var specs, nodes := NewTables();
      PrepareAll();
      p := PlanNow(answers);
      PartsAre(builders);
      if |builders| > 0 {
        var failure := MutateFrom(0, 0, answers, specs, nodes, p);
        if failure.Some? {
          if Disciplined(p) {
            ErrorOrigin(p, 0, 0, Fresh(|builders|, old(DoneOf(builders)), old(IDsOf(builders))));
          }
          return Err(failure.value), p;
        }
        if Disciplined(p) {
          SuccessIdentifies(p, Fresh(|builders|, old(DoneOf(builders)), old(IDsOf(builders))));
        }
      }
      assert nodes.Length == 0 ==> nodes[..] == [];
      NoneToIdentify(answers(0));
      r := Ok(nodes[..]);
    }
  }
}
