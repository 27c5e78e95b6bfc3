/** What Save reports and what reaches the database, for hooks that may also skip, repeat or swallow
    what they wrap. */
module HookOutcomes {
  import opened Wrappers
  import opened Creation
  import opened BulkCreate

  // ----- the outcome of a run, without its state -----

  /** How many batches builder i's mutator sends from its hook h inwards, the first of them being the
      n-th of all, and whether it returns no error. */
  ghost function Run(p: Plan, i: nat, h: nat, n: nat): (nat, bool)
    requires i < |p.parts| && h <= |p.parts[i].hooks|
    decreases |p.parts| - i, |p.parts[i].hooks| - h, 1, 0
  {
    if h < |p.parts[i].hooks| then
      var hook := p.parts[i].hooks[h];
      if hook.failsBefore then (0, false)
      else
        var r := Repeat(p, i, h, hook.calls, n);
        (r.0, r.1 && !hook.failsAfter)
    else if p.parts[i].failure.Some? then (0, false)
    else if i + 1 < |p.parts| then Run(p, i + 1, 0, n)
    else (1, p.answers(n).Accepted?)
  }

  ghost function Repeat(p: Plan, i: nat, h: nat, calls: nat, n: nat): (nat, bool)
    requires i < |p.parts| && h < |p.parts[i].hooks|
    decreases |p.parts| - i, |p.parts[i].hooks| - h, 0, calls
  {
    if calls == 0 then (0, true)
    else
      var r := Run(p, i, h + 1, n);
      if !r.1 && p.parts[i].hooks[h].propagates then r
      else
        var more := Repeat(p, i, h, calls - 1, n + r.0);
        (r.0 + more.0, more.1)
  }

  /** It marks builder k's mutation done. */
  ghost predicate Marks(p: Plan, i: nat, h: nat, n: nat, k: nat)
    requires i < |p.parts| && h <= |p.parts[i].hooks|
    decreases |p.parts| - i, |p.parts[i].hooks| - h, 1, 0
  {
    if k < i then false
    else if h < |p.parts[i].hooks| then
      !p.parts[i].hooks[h].failsBefore && MarksRepeated(p, i, h, p.parts[i].hooks[h].calls, n, k)
    else if p.parts[i].failure.Some? then false
    else if k == i then Run(p, i, h, n).1
    else i + 1 < |p.parts| && Marks(p, i + 1, 0, n, k)
  }

  ghost predicate MarksRepeated(p: Plan, i: nat, h: nat, calls: nat, n: nat, k: nat)
    requires i < |p.parts| && h < |p.parts[i].hooks|
    decreases |p.parts| - i, |p.parts[i].hooks| - h, 0, calls
  {
    var r := Run(p, i, h + 1, n);
    k >= i && calls > 0
    && (Marks(p, i, h + 1, n, k)
        || ((r.1 || !p.parts[i].hooks[h].propagates) && MarksRepeated(p, i, h, calls - 1, n + r.0, k)))
  }

  /** The batches sent so far: complete, answered in turn, the first without ids. */
  ghost predicate Logged(p: Plan, s: State) {
    && s.sent == |Inserts(s.trace)|
    && (forall t | 0 <= t < s.sent :: LoggedAs(p, t, Inserts(s.trace)[t]))
    && (s.sent > 0 ==> Inserts(s.trace)[0] == FirstInsert(p, 0))
  }

  ghost predicate LoggedAs(p: Plan, t: nat, e: Event) {
    e.Insert? && FieldsOf(e.batch) == Batch(p) && (e.accepted <==> p.answers(t).Accepted?)
  }

  /** As long as nothing has been sent, no spec has an id. */
  ghost predicate Unsent(s: State, i: nat) {
    s.sent == 0 ==> NoIDs(s, i)
  }

  ghost predicate Sound(p: Plan, s: State, i: nat) {
    Built(p, s, i) && OnlyChecked(p, s.trace) && Logged(p, s) && Unsent(s, i)
  }

  /** The run does as its plan says. */
  ghost predicate Ran(p: Plan, s: State, r: Outcome, run: (nat, bool)) {
    r.0.sent == s.sent + run.0 && (r.1.None? <==> run.1)
  }

  /** The mutations that are done afterwards. */
  ghost predicate Marked(p: Plan, i: nat, h: nat, s: State, r: Outcome)
    requires i < |p.parts| && h <= |p.parts[i].hooks| && s.Fits(|p.parts|, i) && r.0.Fits(|p.parts|, i)
  {
    forall k | 0 <= k < |p.parts| :: r.0.done[k] <==> s.done[k] || Marks(p, i, h, s.sent, k)
  }

  lemma {:induction false} RunIs(p: Plan, i: nat, h: nat, s: State)
    requires i < |p.parts| && h <= |p.parts[i].hooks| && Sound(p, s, i)
    ensures var r := Mutate(p, i, h, s);
            Sound(p, r.0, i) && Ran(p, s, r, Run(p, i, h, s.sent)) && Marked(p, i, h, s, r)
    decreases |p.parts| - i, |p.parts[i].hooks| - h, 2, 0
  {
    hide OnlyChecked, Logged, Unsent, Calls, Step, Inserts;
    if h == |p.parts[i].hooks| {
      StepIs(p, i, s);
    } else {
      var hook, s1 := p.parts[i].hooks[h], s.Log(Enter(i, h));
      SoundLog(p, s, i, Enter(i, h));
      if hook.failsBefore {
        SoundLog(p, s1, i, Leave(i, h));
      } else {
        RepeatIs(p, i, h, hook.calls, s1);
        SoundLog(p, Calls(p, i, h, hook.calls, s1).0, i, Leave(i, h));
      }
    }
  }

  lemma {:induction false} SoundLog(p: Plan, s: State, i: nat, e: Event)
    requires i <= |p.parts| && Sound(p, s, i) && !e.Insert?
    ensures Sound(p, s.Log(e), i)
  {
    InsertsLog(s.trace, e);
  }

  lemma {:induction false} RepeatIs(p: Plan, i: nat, h: nat, calls: nat, s: State)
    requires i < |p.parts| && h < |p.parts[i].hooks| && Sound(p, s, i)
    ensures var r := Calls(p, i, h, calls, s);
            && Sound(p, r.0, i) && Ran(p, s, r, Repeat(p, i, h, calls, s.sent))
            && forall k | 0 <= k < |p.parts| :: r.0.done[k] <==> s.done[k] || MarksRepeated(p, i, h, calls, s.sent, k)
    decreases |p.parts| - i, |p.parts[i].hooks| - h, 0, calls
  {
    hide OnlyChecked, Logged, Unsent, Step, Inserts, Mutate, Run;
    if calls > 0 {
      RunIs(p, i, h + 1, s);
      var r := Mutate(p, i, h + 1, s);
      if r.1.None? || !p.parts[i].hooks[h].propagates {
        RepeatIs(p, i, h, calls - 1, r.0);
      }
    }
  }

  lemma {:induction false} StepIs(p: Plan, i: nat, s: State)
    requires i < |p.parts| && Sound(p, s, i)
    ensures var h, r := |p.parts[i].hooks|, Step(p, i, s);
            Sound(p, r.0, i) && Ran(p, s, r, Run(p, i, h, s.sent)) && Marked(p, i, h, s, r)
    decreases |p.parts| - i, 0, 1, 0
  {
    hide OnlyChecked, Mutate, Inserts, Logged, Unsent;
    var part := p.parts[i];
    if part.failure.None? {
      var s1 := Start(i, part.fields, s);
      SoundStart(p, i, s);
      if i + 1 < |p.parts| {
        RunIs(p, i + 1, 0, s1);
      } else {
        InsertIs(p, s1);
      }
      SoundFinish(p, i, Onwards(p, i, s1).0);
    }
  }

  lemma {:induction false} SoundStart(p: Plan, i: nat, s: State)
    requires i < |p.parts| && Sound(p, s, i) && p.parts[i].failure.None?
    ensures Sound(p, Start(i, p.parts[i].fields, s), i + 1)
  {
  }

  lemma {:induction false} SoundFinish(p: Plan, i: nat, s: State)
    requires i < |p.parts| && Sound(p, s, i + 1)
    ensures Sound(p, s, i) && Sound(p, Finish(i, s), i)
  {
    hide OnlyChecked, Inserts;
  }

  lemma {:induction false} InsertIs(p: Plan, s: State)
    requires Sound(p, s, |p.parts|)
    ensures var r := InsertAll(p, s);
            && Sound(p, r.0, |p.parts|) && Ran(p, s, r, (1, p.answers(s.sent).Accepted?)) && r.0.done == s.done
  {
    hide Inserts;
    var e := Insert(Rows(s.specs), p.answers(s.sent).Accepted?);
    InsertSends(p, s);
    InsertsLog(s.trace, e);
    if s.sent == 0 {
      InsertSendsFirst(p, s);
    }
  }

  // ----- the outcome as conditions on hooks, checks and answers -----

  /** A hook that adds no error of its own. */
  predicate Fine(hook: Hook) {
    !hook.failsBefore && !hook.failsAfter
  }

  /** One that calls on. */
  predicate Enters(hook: Hook) {
    !hook.failsBefore && hook.calls > 0
  }

  predicate Once(hook: Hook) {
    hook.calls == 1
  }

  /** One behind which errors do not get through. */
  predicate Cuts(hook: Hook) {
    hook.calls == 0 || !hook.propagates
  }

  /** Hook b of builder a is hook h of builder i or further in. */
  ghost predicate Within(p: Plan, i: nat, h: nat, a: int, b: int) {
    0 <= a < |p.parts| && 0 <= b < |p.parts[a].hooks| && (a > i || (a == i && b >= h))
  }

  ghost predicate EveryHook(p: Plan, i: nat, h: nat, good: Hook -> bool) {
    forall a, b | Within(p, i, h, a, b) :: good(p.parts[a].hooks[b])
  }

  /** The checks of builders i to j - 1 pass. */
  ghost predicate ChecksPass(p: Plan, i: nat, j: nat) {
    forall a | i <= a < j && a < |p.parts| :: p.parts[a].failure.None?
  }

  ghost predicate AllAccepted(p: Plan, m: nat, n: nat) {
    forall t | m <= t < n :: p.answers(t).Accepted?
  }

  lemma {:induction false} EveryHookInwards(p: Plan, i: nat, h: nat, good: Hook -> bool)
    requires i < |p.parts| && h <= |p.parts[i].hooks|
    ensures EveryHook(p, i, h, good) <==>
            if h < |p.parts[i].hooks| then good(p.parts[i].hooks[h]) && EveryHook(p, i, h + 1, good)
            else i + 1 < |p.parts| ==> EveryHook(p, i + 1, 0, good)
  {
    if h < |p.parts[i].hooks| {
      assert Within(p, i, h, i, h);
      assert forall a, b :: Within(p, i, h, a, b) <==> Within(p, i, h + 1, a, b) || (a == i && b == h);
    } else {
      assert forall a, b :: Within(p, i, h, a, b) <==> Within(p, i + 1, 0, a, b);
    }
  }

  /** The product of what the hooks multiply by. */
  ghost function Product(p: Plan, i: nat, h: nat): nat
    requires i < |p.parts| && h <= |p.parts[i].hooks|
    decreases |p.parts| - i, |p.parts[i].hooks| - h
  {
    if h < |p.parts[i].hooks| then p.parts[i].hooks[h].calls * Product(p, i, h + 1)
    else if i + 1 < |p.parts| then Product(p, i + 1, 0)
    else 1
  }

  lemma {:induction false} ProductOfOnes(p: Plan, i: nat, h: nat)
    requires i < |p.parts| && h <= |p.parts[i].hooks|
    ensures Product(p, i, h) == 1 <==> EveryHook(p, i, h, Once)
    decreases |p.parts| - i, |p.parts[i].hooks| - h
  {
    hide EveryHook;
    EveryHookInwards(p, i, h, Once);
    if h < |p.parts[i].hooks| {
      ProductOfOnes(p, i, h + 1);
      TimesIsOne(p.parts[i].hooks[h].calls, Product(p, i, h + 1));
    } else if i + 1 < |p.parts| {
      ProductOfOnes(p, i + 1, 0);
    }
  }

  lemma {:induction false} TimesIsOne(m: nat, n: nat)
    ensures m * n == 1 <==> m == 1 && n == 1
  {
    if m > 1 && n > 0 {
      assert m * n == n + (m - 1) * n && (m - 1) * n >= n by {
        assert (m - 1) * n == n + (m - 2) * n;
      }
    }
  }

  lemma {:induction false} OneMore(calls: nat, n: nat)
    requires calls > 0
    ensures calls * n == n + (calls - 1) * n && (calls - 1) * n >= 0
  {
  }

  /** From here inwards no hook fails, all checks pass and the database accepts all batches, of which
      the first is the n-th. */
  ghost predicate Quiet(p: Plan, i: nat, h: nat, n: nat)
    requires i < |p.parts| && h <= |p.parts[i].hooks|
  {
    EveryHook(p, i, h, Fine) && ChecksPass(p, i, |p.parts|) && AllAccepted(p, n, n + Product(p, i, h))
  }

  lemma {:induction false} RunBound(p: Plan, i: nat, h: nat, n: nat)
    requires i < |p.parts| && h <= |p.parts[i].hooks|
    ensures Run(p, i, h, n).0 <= Product(p, i, h)
    ensures Run(p, i, h, n).0 > 0 <==> EveryHook(p, i, h, Enters) && ChecksPass(p, i, |p.parts|)
    ensures Quiet(p, i, h, n) ==> Run(p, i, h, n) == (Product(p, i, h), true)
    decreases |p.parts| - i, |p.parts[i].hooks| - h, 1, 0
  {
    hide EveryHook, Repeat;
    EveryHookInwards(p, i, h, Enters);
    EveryHookInwards(p, i, h, Fine);
    if h < |p.parts[i].hooks| {
      RepeatBound(p, i, h, p.parts[i].hooks[h].calls, n);
    } else if i + 1 < |p.parts| {
      RunBound(p, i + 1, 0, n);
      assert ChecksPass(p, i, |p.parts|) <==> p.parts[i].failure.None? && ChecksPass(p, i + 1, |p.parts|);
    }
  }

  lemma {:induction false} RepeatBound(p: Plan, i: nat, h: nat, calls: nat, n: nat)
    requires i < |p.parts| && h < |p.parts[i].hooks|
    ensures var r, all := Repeat(p, i, h, calls, n), calls * Product(p, i, h + 1);
            && r.0 <= all
            && (r.0 > 0 <==> calls > 0 && EveryHook(p, i, h + 1, Enters) && ChecksPass(p, i, |p.parts|))
            && (EveryHook(p, i, h + 1, Fine) && ChecksPass(p, i, |p.parts|) && AllAccepted(p, n, n + all) ==> r == (all, true))
    decreases |p.parts| - i, |p.parts[i].hooks| - h, 0, calls
  {
    hide EveryHook, Product, Run, ChecksPass;
    if calls > 0 {
      var r := Run(p, i, h + 1, n);
      RunBound(p, i, h + 1, n);
      RepeatBound(p, i, h, calls - 1, n + r.0);
      OneMore(calls, Product(p, i, h + 1));
    }
  }

  /** A hook that cuts, with no error of its own nor outside it. */
  ghost predicate FineCut(p: Plan, i: nat, h: nat, j: int, g: int) {
    && Within(p, i, h, j, g) && Cuts(p.parts[j].hooks[g]) && Fine(p.parts[j].hooks[g])
    && (forall a, b | Within(p, i, h, a, b) && (a < j || (a == j && b < g)) :: Fine(p.parts[a].hooks[b]))
    && ChecksPass(p, i, j)
  }

  ghost predicate HasFineCut(p: Plan, i: nat, h: nat) {
    exists j, g :: FineCut(p, i, h, j, g)
  }

  lemma {:induction false} CutInwards(p: Plan, i: nat, h: nat, j: int, g: int)
    requires i < |p.parts| && h <= |p.parts[i].hooks|
    ensures FineCut(p, i, h, j, g) <==>
            if h < |p.parts[i].hooks| then
              var hook := p.parts[i].hooks[h];
              Fine(hook) && if j == i && g == h then Cuts(hook) else FineCut(p, i, h + 1, j, g)
            else p.parts[i].failure.None? && i + 1 < |p.parts| && FineCut(p, i + 1, 0, j, g)
  {
  }

  lemma {:induction false} HasCutInwards(p: Plan, i: nat, h: nat)
    requires i < |p.parts| && h <= |p.parts[i].hooks|
    ensures HasFineCut(p, i, h) <==>
            if h < |p.parts[i].hooks| then
              Fine(p.parts[i].hooks[h]) && (Cuts(p.parts[i].hooks[h]) || HasFineCut(p, i, h + 1))
            else p.parts[i].failure.None? && i + 1 < |p.parts| && HasFineCut(p, i + 1, 0)
  {
    hide FineCut, Fine, Cuts;
    forall j, g ensures FineCut(p, i, h, j, g) <==>
      if h < |p.parts[i].hooks| then
        var hook := p.parts[i].hooks[h];
        Fine(hook) && if j == i && g == h then Cuts(hook) else FineCut(p, i, h + 1, j, g)
      else p.parts[i].failure.None? && i + 1 < |p.parts| && FineCut(p, i + 1, 0, j, g)
    {
      CutInwards(p, i, h, j, g);
    }
    NoCutOutside(p, i, h);
    var inner, next := h + 1, i + 1;
    if h < |p.parts[i].hooks| && Fine(p.parts[i].hooks[h]) {
      assert FineCut(p, i, h, i, h) <==> Cuts(p.parts[i].hooks[h]);
      if j, g :| FineCut(p, i, inner, j, g) {
        assert FineCut(p, i, h, j, g);
      }
    } else if h == |p.parts[i].hooks| {
      if j, g :| p.parts[i].failure.None? && next < |p.parts| && FineCut(p, next, 0, j, g) {
        assert FineCut(p, i, h, j, g);
      }
    }
  }

  lemma {:induction false} NoCutOutside(p: Plan, i: nat, h: nat)
    ensures !FineCut(p, i, h + 1, i, h)
  {
  }

  /** Nothing fails, or the outermost hooks and checks are fine down to a hook that lets no error through. */
  ghost predicate Delivers(p: Plan, i: nat, h: nat, n: nat)
    requires i < |p.parts| && h <= |p.parts[i].hooks|
  {
    Quiet(p, i, h, n) || HasFineCut(p, i, h)
  }

  lemma {:induction false} SucceedsWhen(p: Plan, i: nat, h: nat, n: nat)
    requires i < |p.parts| && h <= |p.parts[i].hooks|
    ensures Run(p, i, h, n).1 <==> Delivers(p, i, h, n)
    decreases |p.parts| - i, |p.parts[i].hooks| - h, 1, 0
  {
    hide EveryHook, HasFineCut, Repeat;
    EveryHookInwards(p, i, h, Fine);
    HasCutInwards(p, i, h);
    if h < |p.parts[i].hooks| {
      RepeatSucceedsWhen(p, i, h, p.parts[i].hooks[h].calls, n);
    } else if i + 1 < |p.parts| {
      SucceedsWhen(p, i + 1, 0, n);
      assert ChecksPass(p, i, |p.parts|) <==> p.parts[i].failure.None? && ChecksPass(p, i + 1, |p.parts|);
    }
  }

  lemma {:induction false} RepeatSucceedsWhen(p: Plan, i: nat, h: nat, calls: nat, n: nat)
    requires i < |p.parts| && h < |p.parts[i].hooks|
    ensures Repeat(p, i, h, calls, n).1 <==>
            || calls == 0 || !p.parts[i].hooks[h].propagates || HasFineCut(p, i, h + 1)
            || (&& EveryHook(p, i, h + 1, Fine) && ChecksPass(p, i, |p.parts|)
                && AllAccepted(p, n, n + calls * Product(p, i, h + 1)))
    decreases |p.parts| - i, |p.parts[i].hooks| - h, 0, calls
  {
    hide EveryHook, HasFineCut, Product, Run, ChecksPass;
    if calls > 0 {
      var r := Run(p, i, h + 1, n);
      RunBound(p, i, h + 1, n);
      SucceedsWhen(p, i, h + 1, n);
      RepeatSucceedsWhen(p, i, h, calls - 1, n + r.0);
      OneMore(calls, Product(p, i, h + 1));
    }
  }

  // ----- which mutations are done -----

  /** Every hook of builder k and outside it calls on. */
  ghost predicate EnteredTo(p: Plan, i: nat, h: nat, k: nat) {
    forall a, b | Within(p, i, h, a, b) && a <= k :: Enters(p.parts[a].hooks[b])
  }

  lemma {:induction false} EnteredInwards(p: Plan, i: nat, h: nat, k: nat)
    requires i < |p.parts| && h <= |p.parts[i].hooks| && i <= k < |p.parts|
    ensures EnteredTo(p, i, h, k) <==>
            if h < |p.parts[i].hooks| then Enters(p.parts[i].hooks[h]) && EnteredTo(p, i, h + 1, k)
            else k > i ==> EnteredTo(p, i + 1, 0, k)
  {
    if h < |p.parts[i].hooks| {
      assert Within(p, i, h, i, h);
      assert forall a, b :: Within(p, i, h, a, b) <==> Within(p, i, h + 1, a, b) || (a == i && b == h);
    } else {
      assert forall a, b :: Within(p, i, h, a, b) <==> Within(p, i + 1, 0, a, b);
    }
  }

  /** What builder k's step wraps, the next builder or the insert, returns no error when its first
      batch is the m-th. */
  ghost predicate LetsThrough(p: Plan, k: nat, m: nat) {
    if k + 1 < |p.parts| then Delivers(p, k + 1, 0, m) else p.answers(m).Accepted?
  }

  /** The batches it sends then. */
  ghost function Behind(p: Plan, k: nat, m: nat): nat {
    if k + 1 < |p.parts| then Run(p, k + 1, 0, m).0 else 1
  }

  lemma {:induction false} StepRuns(p: Plan, k: nat, m: nat)
    requires k < |p.parts|
    ensures Run(p, k, |p.parts[k].hooks|, m) ==
            if p.parts[k].failure.Some? then (0, false) else (Behind(p, k, m), LetsThrough(p, k, m))
  {
    hide Delivers;
    if k + 1 < |p.parts| {
      SucceedsWhen(p, k + 1, 0, m);
    }
  }

  /** The step of builder k is run from the m-th batch on, and no error comes back to it. */
  ghost predicate Visited(p: Plan, i: nat, h: nat, n: nat, k: nat, m: nat)
    requires i < |p.parts| && h <= |p.parts[i].hooks|
  {
    n <= m && LetsThrough(p, k, m) && m + Behind(p, k, m) <= n + Run(p, i, h, n).0
  }

  /** A mutation is marked done only if its step is reached, its check passes, and some time no error
      comes back from what the step wraps. */
  lemma {:induction false} MarksOnly(p: Plan, i: nat, h: nat, n: nat, k: nat) returns (m: nat)
    requires i < |p.parts| && h <= |p.parts[i].hooks| && i <= k < |p.parts| && Marks(p, i, h, n, k)
    ensures EnteredTo(p, i, h, k) && ChecksPass(p, i, k + 1) && Visited(p, i, h, n, k, m)
    decreases |p.parts| - i, |p.parts[i].hooks| - h, 1, 0
  {
    hide EnteredTo, LetsThrough, Behind, Repeat;
    EnteredInwards(p, i, h, k);
    if h < |p.parts[i].hooks| {
      m := MarksOnlyRepeated(p, i, h, p.parts[i].hooks[h].calls, n, k);
    } else if k == i {
      m := n;
      StepRuns(p, k, n);
    } else {
      m := MarksOnly(p, i + 1, 0, n, k);
      assert ChecksPass(p, i, k + 1) <==> p.parts[i].failure.None? && ChecksPass(p, i + 1, k + 1);
    }
  }

  lemma {:induction false} MarksOnlyRepeated(p: Plan, i: nat, h: nat, calls: nat, n: nat, k: nat) returns (m: nat)
    requires i < |p.parts| && h < |p.parts[i].hooks| && i <= k < |p.parts| && MarksRepeated(p, i, h, calls, n, k)
    ensures calls > 0 && EnteredTo(p, i, h + 1, k) && ChecksPass(p, i, k + 1)
    ensures n <= m && LetsThrough(p, k, m) && m + Behind(p, k, m) <= n + Repeat(p, i, h, calls, n).0
    decreases |p.parts| - i, |p.parts[i].hooks| - h, 0, calls
  {
    hide EnteredTo, LetsThrough, Behind, Run, Marks, ChecksPass;
    var r := Run(p, i, h + 1, n);
    if Marks(p, i, h + 1, n, k) {
      m := MarksOnly(p, i, h + 1, n, k);
    } else {
      m := MarksOnlyRepeated(p, i, h, calls - 1, n + r.0, k);
    }
  }

  /** It is if its step is reached, its check passes, and no error comes back the first time. */
  lemma {:induction false} MarksFirst(p: Plan, i: nat, h: nat, n: nat, k: nat)
    requires i < |p.parts| && h <= |p.parts[i].hooks| && i <= k < |p.parts|
    requires EnteredTo(p, i, h, k) && ChecksPass(p, i, k + 1) && LetsThrough(p, k, n)
    ensures Marks(p, i, h, n, k)
    decreases |p.parts| - i, |p.parts[i].hooks| - h
  {
    hide EnteredTo, LetsThrough, Run;
    EnteredInwards(p, i, h, k);
    if h < |p.parts[i].hooks| {
      MarksFirst(p, i, h + 1, n, k);
    } else if k == i {
      StepRuns(p, k, n);
    } else {
      MarksFirst(p, i + 1, 0, n, k);
    }
  }

  // ----- Save -----

  lemma {:induction false} InsertsAre(trace: seq<Event>)
    ensures forall e :: e in Inserts(trace) <==> e in trace && e.Insert?
  {
    if trace != [] {
      InsertsAre(trace[..|trace| - 1]);
      assert trace == trace[..|trace| - 1] + [trace[|trace| - 1]];
    }
  }

  /** Some batch was accepted. */
  ghost predicate Inserted(trace: seq<Event>) {
    exists e :: e in trace && e.Insert? && e.accepted
  }

  ghost predicate SomeAccepted(p: Plan, n: nat) {
    exists t: nat :: t < n && p.answers(t).Accepted?
  }

  lemma {:induction false} InsertedWhen(p: Plan, s: State)
    requires Logged(p, s)
    ensures Inserted(s.trace) <==> SomeAccepted(p, s.sent)
  {
    hide Inserts;
    InsertsAre(s.trace);
    if e :| e in s.trace && e.Insert? && e.accepted {
      var t :| 0 <= t < |Inserts(s.trace)| && Inserts(s.trace)[t] == e;
      assert LoggedAs(p, t, e);
    }
    if t: nat :| t < s.sent && p.answers(t).Accepted? {
      assert LoggedAs(p, t, Inserts(s.trace)[t]) && Inserts(s.trace)[t] in s.trace;
    }
  }

  ghost predicate Unstarted(p: Plan, s: State) {
    |p.parts| > 0 && s.Fits(|p.parts|, 0) && s.trace == [] && s.sent == 0
  }

  lemma {:induction false} SaveIs(p: Plan, s: State)
    requires Unstarted(p, s)
    ensures var r := Mutate(p, 0, 0, s);
            && Logged(p, r.0) && Ran(p, s, r, Run(p, 0, 0, 0)) && Marked(p, 0, 0, s, r)
            && (Inserted(r.0.trace) <==> SomeAccepted(p, r.0.sent))
  {
    hide Mutate;
    RunIs(p, 0, 0, s);
    InsertedWhen(p, Mutate(p, 0, 0, s).0);
  }

  /** Whatever the hooks do and the database answers: which batches Save sends, whether it reports
      success, and what is done. */
  lemma {:induction false} AnyHooks(p: Plan, s: State)
    requires Unstarted(p, s)
    ensures var r := Mutate(p, 0, 0, s);
            var batches := Inserts(r.0.trace);
            // every batch holds all rows, the first one no ids; they are answered in turn
            && (forall t | 0 <= t < |batches| :: LoggedAs(p, t, batches[t]))
            && (batches != [] ==> batches[0] == FirstInsert(p, 0))
            // there are at most as many as the calls multiply to, and one if and only if every hook calls
            // on and every check passes
            && |batches| <= Product(p, 0, 0)
            && (batches != [] <==> EveryHook(p, 0, 0, Enters) && ChecksPass(p, 0, |p.parts|))
            // when nothing fails all are sent: just one if and only if every hook calls on once
            && (Quiet(p, 0, 0, 0) ==> |batches| == Product(p, 0, 0))
            && (Quiet(p, 0, 0, 0) ==> (|batches| == 1 <==> EveryHook(p, 0, 0, Once)))
            // success: nothing fails, or a hook lets no error through and nothing outside it fails
            && (r.1.None? <==> Delivers(p, 0, 0, 0))
  {
    hide Mutate, Run, EveryHook, FineCut, HasFineCut, Batch, Inserts, Product;
    SaveIs(p, s);
    RunBound(p, 0, 0, 0);
    ProductOfOnes(p, 0, 0);
    SucceedsWhen(p, 0, 0, 0);
  }

  /** A mutation is done if its step is reached, its check passes, and no error comes back to it the
      first time; and only if, some time. It is all one if the database answers the same every time. */
  lemma {:induction false} DoneWhen(p: Plan, s: State, k: nat)
    requires Unstarted(p, s) && k < |p.parts| && !s.done[k]
    ensures var r := Mutate(p, 0, 0, s);
            var reached := EnteredTo(p, 0, 0, k) && ChecksPass(p, 0, k + 1);
            && (reached && LetsThrough(p, k, 0) ==> r.0.done[k])
            && (r.0.done[k] ==> reached && exists m: nat :: LetsThrough(p, k, m) && m + Behind(p, k, m) <= r.0.sent)
            && (OneAnswer(p) ==> (r.0.done[k] <==> reached && LetsThrough(p, k, 0)))
  {
    hide Mutate, Run, EnteredTo, LetsThrough, Behind, Logged, OneAnswer;
    SaveIs(p, s);
    if EnteredTo(p, 0, 0, k) && ChecksPass(p, 0, k + 1) && LetsThrough(p, k, 0) {
      MarksFirst(p, 0, 0, 0, k);
    }
    if Marks(p, 0, 0, 0, k) {
      var m := MarksOnly(p, 0, 0, 0, k);
      if OneAnswer(p) {
        ThroughAnytime(p, k, m);
      }
    }
  }

  /** The same answer every time. */
  ghost predicate OneAnswer(p: Plan) {
    forall t: nat :: p.answers(t).Accepted? <==> p.answers(0).Accepted?
  }

  lemma {:induction false} ThroughAnytime(p: Plan, k: nat, m: nat)
    requires OneAnswer(p) && LetsThrough(p, k, m)
    ensures LetsThrough(p, k, 0)
  {
    hide Product, EveryHook, ChecksPass, HasFineCut;
    if k + 1 < |p.parts| && Quiet(p, k + 1, 0, m) && Product(p, k + 1, 0) > 0 {
      assert p.answers(m).Accepted?;
    }
  }

  // ----- success, or done, without a row -----

  /** A quiet run either sends something or has a hook that skips, which is a cut. */
  lemma {:induction false} QuietSends(p: Plan, i: nat, n: nat)
    requires i < |p.parts| && Quiet(p, i, 0, n) && !HasFineCut(p, i, 0)
    ensures Product(p, i, 0) > 0 && p.answers(n).Accepted? && EveryHook(p, i, 0, Enters)
  {
    hide Product, Run;
    forall a, b | Within(p, i, 0, a, b) ensures Enters(p.parts[a].hooks[b]) {
      SkipCuts(p, i, a, b, n);
    }
    RunBound(p, i, 0, n);
  }

  lemma {:induction false} SkipCuts(p: Plan, i: nat, j: int, g: int, n: nat)
    requires i < |p.parts| && Quiet(p, i, 0, n) && Within(p, i, 0, j, g)
    ensures Enters(p.parts[j].hooks[g]) || FineCut(p, i, 0, j, g)
  {
    hide Product;
    assert Fine(p.parts[j].hooks[g]);
  }

  /** The accepted insert that success seems to promise is missing exactly when every batch that was sent
      was refused and a hook that cuts hides that. If the database answers the same every time: when the
      insert cannot happen, for a failing or skipping hook, a failed check or a refusal, and a hook hides it. */
  lemma {:induction false} SuccessWithoutInsert(p: Plan, s: State)
    requires Unstarted(p, s)
    ensures var r := Mutate(p, 0, 0, s);
            r.1.None? && !Inserted(r.0.trace) <==> !SomeAccepted(p, r.0.sent) && HasFineCut(p, 0, 0)
    ensures OneAnswer(p) ==>
      var r := Mutate(p, 0, 0, s);
      r.1.None? && !Inserted(r.0.trace) <==>
      && !(p.answers(0).Accepted? && EveryHook(p, 0, 0, Enters) && ChecksPass(p, 0, |p.parts|)) && HasFineCut(p, 0, 0)
  {
    hide Mutate, Run, EveryHook, HasFineCut, Logged, Product, SomeAccepted;
    SaveIs(p, s);
    SucceedsWhen(p, 0, 0, 0);
    RunBound(p, 0, 0, 0);
    var sent := Mutate(p, 0, 0, s).0.sent;
    if Quiet(p, 0, 0, 0) && !HasFineCut(p, 0, 0) {
      QuietSends(p, 0, 0);
    }
    SomeMeans(p, sent);
  }

  lemma {:induction false} SomeMeans(p: Plan, n: nat)
    ensures n > 0 && p.answers(0).Accepted? ==> SomeAccepted(p, n)
    ensures OneAnswer(p) ==> (SomeAccepted(p, n) <==> n > 0 && p.answers(0).Accepted?)
  {
  }

  /** Nor does a mutation that is marked done mean a row: it has none exactly when every batch that was
      sent was refused, its step is reached, and a hook of a later builder hides that. */
  lemma {:induction false} DoneWithoutInsert(p: Plan, s: State, k: nat)
    requires Unstarted(p, s) && k < |p.parts| && !s.done[k]
    ensures var r := Mutate(p, 0, 0, s);
            r.0.done[k] && !Inserted(r.0.trace) <==>
            && !SomeAccepted(p, r.0.sent) && EnteredTo(p, 0, 0, k) && ChecksPass(p, 0, k + 1)
            && k + 1 < |p.parts| && HasFineCut(p, k + 1, 0)
  {
    hide Mutate, Run, EnteredTo, Behind, Logged, SomeAccepted, HasFineCut, Quiet, ChecksPass, Inserted;
    SaveIs(p, s);
    DoneWhen(p, s, k);
    var r := Mutate(p, 0, 0, s);
    if r.0.done[k] && !(k + 1 < |p.parts| && HasFineCut(p, k + 1, 0)) {
      var m: nat :| LetsThrough(p, k, m) && m + Behind(p, k, m) <= r.0.sent;
      ThroughSends(p, k, m);
      AcceptedAt(p, m, r.0.sent);
    }
  }

  lemma {:induction false} ThroughSends(p: Plan, k: nat, m: nat)
    requires k < |p.parts| && LetsThrough(p, k, m) && !(k + 1 < |p.parts| && HasFineCut(p, k + 1, 0))
    ensures Behind(p, k, m) > 0 && p.answers(m).Accepted?
  {
    hide Run, Product, HasFineCut, EveryHook, ChecksPass;
    if k + 1 < |p.parts| {
      QuietSends(p, k + 1, m);
      RunBound(p, k + 1, 0, m);
    }
  }

  lemma {:induction false} AcceptedAt(p: Plan, m: nat, n: nat)
    requires m < n && p.answers(m).Accepted?
    ensures SomeAccepted(p, n)
  {
  }

  // ----- the ids that a later batch carries -----

  predicate AtMostOnce(hook: Hook) {
    hook.calls <= 1
  }

  ghost predicate AllFirst(p: Plan, trace: seq<Event>) {
    forall e | e in trace && e.Insert? :: e.batch == FirstBatch(p)
  }

  /** From hook h of builder i inwards, hooks that call on at most once send at most one batch. */
  lemma {:induction false} InnerOnce(p: Plan, i: nat, h: nat, s: State)
    requires i < |p.parts| && h <= |p.parts[i].hooks| && Built(p, s, i) && NoIDs(s, i) && AllFirst(p, s.trace)
    requires EveryHook(p, i, h, AtMostOnce)
    ensures AllFirst(p, Mutate(p, i, h, s).0.trace)
    decreases |p.parts| - i, |p.parts[i].hooks| - h, 1
  {
    hide EveryHook, Step;
    EveryHookInwards(p, i, h, AtMostOnce);
    if h < |p.parts[i].hooks| {
      if p.parts[i].hooks[h].calls == 1 && !p.parts[i].hooks[h].failsBefore {
        var s1 := s.Log(Enter(i, h));
        InnerOnce(p, i, h + 1, s1);
        CallsOnce(p, i, h, s1);
      }
    } else {
      InnerStep(p, i, s);
    }
  }

  lemma {:induction false} CallsOnce(p: Plan, i: nat, h: nat, s: State)
    requires i < |p.parts| && h < |p.parts[i].hooks| && s.Fits(|p.parts|, i)
    ensures Calls(p, i, h, 1, s).0 == Mutate(p, i, h + 1, s).0
  {
    hide Mutate;
  }

  lemma {:induction false} InnerStep(p: Plan, i: nat, s: State)
    requires i < |p.parts| && Built(p, s, i) && NoIDs(s, i) && AllFirst(p, s.trace)
    requires i + 1 < |p.parts| ==> EveryHook(p, i + 1, 0, AtMostOnce)
    ensures AllFirst(p, Step(p, i, s).0.trace)
    decreases |p.parts| - i, 0, 0
  {
    hide EveryHook, Mutate;
    if p.parts[i].failure.None? {
      var s1 := Start(i, p.parts[i].fields, s);
      if i + 1 < |p.parts| {
        InnerOnce(p, i + 1, 0, s1);
      } else {
        InsertSendsFirst(p, s1);
      }
    }
  }

  /** Builder 0's hooks may repeat: every repetition starts over with all builders. */
  lemma {:induction false} OuterRepeats(p: Plan, h: nat, s: State)
    requires |p.parts| > 0 && h <= |p.parts[0].hooks| && s.Fits(|p.parts|, 0) && AllFirst(p, s.trace)
    requires |p.parts| > 1 ==> EveryHook(p, 1, 0, AtMostOnce)
    ensures AllFirst(p, Mutate(p, 0, h, s).0.trace)
    decreases |p.parts[0].hooks| - h, 1, 0
  {
    hide EveryHook, Step, Calls;
    if h == |p.parts[0].hooks| {
      InnerStep(p, 0, s);
    } else if !p.parts[0].hooks[h].failsBefore {
      OuterCalls(p, h, p.parts[0].hooks[h].calls, s.Log(Enter(0, h)));
    }
  }

  lemma {:induction false} OuterCalls(p: Plan, h: nat, calls: nat, s: State)
    requires |p.parts| > 0 && h < |p.parts[0].hooks| && s.Fits(|p.parts|, 0) && AllFirst(p, s.trace)
    requires |p.parts| > 1 ==> EveryHook(p, 1, 0, AtMostOnce)
    ensures AllFirst(p, Calls(p, 0, h, calls, s).0.trace)
    decreases |p.parts[0].hooks| - h, 0, calls
  {
    hide EveryHook, Step, Mutate, AllFirst;
    if calls > 0 {
      OuterRepeats(p, h + 1, s);
      var r := Mutate(p, 0, h + 1, s);
      if r.1.None? || !p.parts[0].hooks[h].propagates {
        OuterCalls(p, h, calls - 1, r.0);
      }
    }
  }

  /** No batch carries ids as long as no hook of a builder after the first calls on twice. */
  lemma {:induction false} NoIDsSent(p: Plan, s: State)
    requires Unstarted(p, s) && (|p.parts| > 1 ==> EveryHook(p, 1, 0, AtMostOnce))
    ensures AllFirst(p, Mutate(p, 0, 0, s).0.trace)
  {
    hide Mutate, EveryHook;
    OuterRepeats(p, 0, s);
  }

  function SecondRepeats(f: Fields, g: Fields, ids: nat -> Option<int>): Plan {
    Plan([Part([], f, None), Part([Hook(false, 2, true, false)], g, None)], _ => Accepted(ids))
  }

  /** Otherwise a batch may: the second builder's hook calls on twice, and its second batch carries the id
      that came back for the first builder's row. */
  lemma {:induction false} IDsSentAgain(f: Fields, g: Fields, ids: nat -> Option<int>, s: State)
    requires s.Fits(2, 0) && s.trace == []
    ensures var batches := Inserts(Mutate(SecondRepeats(f, g, ids), 0, 0, s).0.trace);
            && |batches| == 2 && batches[0].Insert? && batches[1].Insert? && |batches[0].batch| == |batches[1].batch| == 2
            && batches[0].batch[0] == Spec(f, None) && batches[1].batch[0] == Spec(f, ids(0))
  {
    hide Step, Calls, Inserts;
    var p := SecondRepeats(f, g, ids);
    var s0 := Start(0, f, s);
    var s1 := s0.Log(Enter(1, 0));
    InsertsLog([], Enter(1, 0));
    NothingInserted();
    SecondStep(p, s1);
    var r := Step(p, 1, s1).0;
    SecondStep(p, r);
    var r' := Step(p, 1, r).0;
    CalledTwice(p, s1);
    InsertsLog(r'.trace, Leave(1, 0));
    FirstOfTwo(p, s);
  }

  lemma {:induction false} NothingInserted()
    ensures Inserts([]) == []
  {
  }

  lemma {:induction false} CalledTwice(p: Plan, s: State)
    requires |p.parts| == 2 && p.parts[1].hooks == [Hook(false, 2, true, false)] && s.Fits(2, 1)
    requires Step(p, 1, s).1.None? && Step(p, 1, Step(p, 1, s).0).1.None?
    ensures Calls(p, 1, 0, 2, s) == Step(p, 1, Step(p, 1, s).0)
  {
    hide Step;
    var r := Step(p, 1, s);
    var r' := Step(p, 1, r.0);
    assert Calls(p, 1, 0, 0, r'.0) == (r'.0, None);
    assert Calls(p, 1, 0, 1, r.0) == r';
  }

  lemma {:induction false} FirstOfTwo(p: Plan, s: State)
    requires |p.parts| == 2 && p.parts[0].hooks == [] && p.parts[0].failure.None? && s.Fits(2, 0)
    requires p.parts[1].hooks == [Hook(false, 2, true, false)]
    ensures var s1 := Start(0, p.parts[0].fields, s).Log(Enter(1, 0));
            s1.Fits(2, 1) && Mutate(p, 0, 0, s).0.trace == Calls(p, 1, 0, 2, s1).0.trace + [Leave(1, 0)]
  {
    hide Calls;
    var s1 := Start(0, p.parts[0].fields, s);
    var inner := Mutate(p, 1, 0, s1);
    assert inner.0 == Calls(p, 1, 0, 2, s1.Log(Enter(1, 0))).0.Log(Leave(1, 0));
    assert Onwards(p, 0, s1) == inner && Step(p, 0, s).0.trace == inner.0.trace;
    assert Mutate(p, 0, 0, s) == Step(p, 0, s);
  }

  lemma {:induction false} SecondStep(p: Plan, s: State)
    requires |p.parts| == 2 && p.parts[1].failure.None? && s.Fits(2, 1) && p.answers(s.sent).Accepted?
    ensures var r := Step(p, 1, s);
            && r.1.None? && r.0.Fits(2, 1) && r.0.specs[0] == Some(NewID(s.specs[0].value, p.answers(s.sent).ids(0)))
            && |Inserts(r.0.trace)| == |Inserts(s.trace)| + 1 && Inserts(s.trace) <= Inserts(r.0.trace)
            && var e := Inserts(r.0.trace)[|Inserts(s.trace)|];
               e.Insert? && |e.batch| == 2 && e.batch[0] == s.specs[0].value
  {
    hide Calls, Mutate, Inserts, Rows, Identified, NewID;
    var s1 := Start(1, p.parts[1].fields, s);
    InsertsLog(s1.trace, Insert(Rows(s1.specs), true));
  }

  // ----- single hooks that make the difference -----

  function OneHook(hook: Hook, fields: Fields, answers: nat -> Answer): Plan {
    Plan([Part([hook], fields, None)], answers)
  }

  ghost function NewSave(): (s: State)
    ensures s.Fits(1, 0) && s.trace == [] && s.sent == 0 && !s.done[0]
  {
    Fresh(1, [false], [None])
  }

  lemma {:induction false} OnlyHook(hook: Hook, fields: Fields, answers: nat -> Answer)
    ensures var p := OneHook(hook, fields, answers);
            && Unstarted(p, NewSave()) && FirstBatch(p) == [Spec(fields, None)] && ChecksPass(p, 0, 1)
            && (forall a, b :: Within(p, 0, 0, a, b) <==> a == b == 0)
            && Product(p, 0, 0) == hook.calls
            && (forall good :: EveryHook(p, 0, 0, good) <==> good(hook))
            && (EnteredTo(p, 0, 0, 0) <==> Enters(hook))
            && (HasFineCut(p, 0, 0) <==> Fine(hook) && Cuts(hook))
  {
    var p := OneHook(hook, fields, answers);
    assert FirstBatch(p) == [Spec(fields, None)];
    assert Product(p, 0, 1) == 1;
    assert Within(p, 0, 0, 0, 0);
    assert FineCut(p, 0, 0, 0, 0) <==> Cuts(hook) && Fine(hook);
  }

  /** What Save does with one builder and one hook. */
  lemma {:induction false} OneHookRuns(hook: Hook, fields: Fields, answers: nat -> Answer)
    ensures var p := OneHook(hook, fields, answers);
            var r := Mutate(p, 0, 0, NewSave());
            var batches := Inserts(r.0.trace);
            && (r.1.None? <==> Fine(hook) && (Cuts(hook) || AllAccepted(p, 0, hook.calls)))
            && |batches| == Run(p, 0, 0, 0).0
            && |batches| <= hook.calls && (batches != [] <==> Enters(hook))
            && (Fine(hook) && AllAccepted(p, 0, hook.calls) ==> |batches| == hook.calls)
            && (forall t | 0 <= t < |batches| :: batches[t] == Insert([Spec(fields, None)], answers(t).Accepted?))
            && (Enters(hook) && answers(0).Accepted? ==> r.0.done[0])
            && (r.0.done[0] ==> Enters(hook) && exists t: nat :: t < |batches| && answers(t).Accepted?)
  {
    hide Mutate, NewSave, Product, EveryHook, EnteredTo, HasFineCut, Inserts, FirstBatch, Batch, AllFirst, Behind;
    var p := OneHook(hook, fields, answers);
    OnlyHook(hook, fields, answers);
    AnyHooks(p, NewSave());
    DoneWhen(p, NewSave(), 0);
    SaveIs(p, NewSave());
    NoIDsSent(p, NewSave());
    var batches := Inserts(Mutate(p, 0, 0, NewSave()).0.trace);
    InsertsAre(Mutate(p, 0, 0, NewSave()).0.trace);
    OneBehind(p);
    forall t | 0 <= t < |batches| ensures batches[t] == Insert([Spec(fields, None)], answers(t).Accepted?) {
      assert LoggedAs(p, t, batches[t]) && batches[t] in Mutate(p, 0, 0, NewSave()).0.trace;
      IsFirst(p, Mutate(p, 0, 0, NewSave()).0.trace, batches[t]);
    }
  }

  lemma {:induction false} OneBehind(p: Plan)
    requires |p.parts| == 1
    ensures forall m: nat :: Behind(p, 0, m) == 1
  {
  }

  lemma {:induction false} IsFirst(p: Plan, trace: seq<Event>, e: Event)
    requires AllFirst(p, trace) && e in trace && e.Insert?
    ensures e.batch == FirstBatch(p)
  {
    hide FirstBatch;
  }

  /** One that skips what it wraps: success, and nothing was inserted. */
  lemma {:induction false} SkippingHook(fields: Fields, answers: nat -> Answer)
    ensures var r := Mutate(OneHook(Hook(false, 0, true, false), fields, answers), 0, 0, NewSave());
            r.1.None? && !r.0.done[0] && Inserts(r.0.trace) == []
  {
    hide Mutate, NewSave, Inserts;
    OneHookRuns(Hook(false, 0, true, false), fields, answers);
  }

  /** One that swallows the error: success, and the insert was refused. */
  lemma {:induction false} SwallowingHook(fields: Fields, answers: nat -> Answer)
    requires answers(0).Rejected?
    ensures var r := Mutate(OneHook(Hook(false, 1, false, false), fields, answers), 0, 0, NewSave());
            r.1.None? && !r.0.done[0] && Inserts(r.0.trace) == [Insert([Spec(fields, None)], false)]
  {
    hide Mutate, NewSave, Inserts;
    OneHookRuns(Hook(false, 1, false, false), fields, answers);
  }

  /** One that calls it twice: the batch is sent twice, and the second may be refused. */
  lemma {:induction false} RepeatingHook(fields: Fields, answers: nat -> Answer)
    requires answers(0).Accepted?
    ensures var r := Mutate(OneHook(Hook(false, 2, true, false), fields, answers), 0, 0, NewSave());
            && r.0.done[0] && (r.1.None? <==> answers(1).Accepted?)
            && Inserts(r.0.trace) == [Insert([Spec(fields, None)], true), Insert([Spec(fields, None)], answers(1).Accepted?)]
  {
    hide Mutate, NewSave, Inserts;
    var hook := Hook(false, 2, true, false);
    var p := OneHook(hook, fields, answers);
    OneHookRuns(hook, fields, answers);
    assert Run(p, 0, 1, 0) == (1, true) && Run(p, 0, 1, 1) == (1, answers(1).Accepted?);
    assert Repeat(p, 0, 0, 0, 2) == (0, true);
    assert Repeat(p, 0, 0, 1, 1) == (1, answers(1).Accepted?);
    assert Repeat(p, 0, 0, 2, 0) == (2, answers(1).Accepted?);
  }

  /** One that fails after it has called on: an error, although the row is inserted and done. */
  lemma {:induction false} LateFailure(fields: Fields, answers: nat -> Answer)
    requires answers(0).Accepted?
    ensures var r := Mutate(OneHook(Hook(false, 1, true, true), fields, answers), 0, 0, NewSave());
            r.1.Some? && r.0.done[0] && Inserts(r.0.trace) == [Insert([Spec(fields, None)], true)]
  {
    hide Mutate, NewSave, Inserts;
    OneHookRuns(Hook(false, 1, true, true), fields, answers);
  }
}
