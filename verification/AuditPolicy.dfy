/** What the audit gate is to accept, said of the texts in the exception list and in the report as they
    stand: without keys, an index, or normal forms. */
module AuditPolicy {
  import opened Wrappers
  import opened AuditReport
  import opened ExceptionFile
  import opened Texts

  /** Library functions of Python: str.lower, and date.fromisoformat as a day number. */
  datatype Library = Library(lower: string -> string, day: string -> Option<int>)

  // ----- texts -----

  /** The same but for white space around and for case. */
  ghost predicate SameWord(lib: Library, s: string, t: string) {
    exists c, d :: Core(s, c) && Core(t, d) && lib.lower(c) == lib.lower(d)
  }

  /** Without white space around, and in lower case, s is w. */
  ghost predicate Reads(lib: Library, s: string, w: string) {
    exists c :: Core(s, c) && lib.lower(c) == w
  }

  function TextOf(v: Scalar): string {
    match v
    case Null => ""
    case Str(s) => s
    case Num(_, shown) => shown
  }

  /** A number zero is no severity. */
  function SeverityText(v: Scalar): string {
    match v
    case Null => ""
    case Str(s) => s
    case Num(zero, shown) => if zero then "" else shown
  }

  // ----- exceptions -----

  predicate Filled(e: Record, field: string) {
    field in e && e[field] != ""
  }

  predicate Complete(e: Record) {
    && Filled(e, "package") && Filled(e, "advisory") && Filled(e, "severity") && Filled(e, "mitigation")
    && Filled(e, "expires_on")
  }

  /** Complete and dated, with a package and an advisory that are more than white space. */
  ghost predicate Usable(lib: Library, e: Record) {
    Complete(e) && lib.day(e["expires_on"]).Some? && !Blanks(e["package"]) && !Reads(lib, e["advisory"], "")
  }

  /** Package names are told apart by case, advisories are not. */
  ghost predicate SameSubject(lib: Library, d: Record, e: Record)
    requires Usable(lib, d) && Usable(lib, e)
  {
    SameText(d["package"], e["package"]) && SameWord(lib, d["advisory"], e["advisory"])
  }

  // ----- vulnerabilities -----

  predicate Named(v: Vuln) {
    match v.name
    case Null => false
    case Str(s) => s != ""
    case Num(zero, _) => !zero
  }

  /** High or critical, and named. */
  ghost predicate Counts(lib: Library, v: Vuln) {
    Named(v) && (Reads(lib, SeverityText(v.severity), "high") || Reads(lib, SeverityText(v.severity), "critical"))
  }

  ghost predicate SameVuln(lib: Library, v: Vuln, w: Vuln) {
    SameText(TextOf(v.name), TextOf(w.name)) && SameWord(lib, TextOf(v.advisory), TextOf(w.advisory))
  }

  /** The exception is for this package and advisory, and its last day has not passed. */
  ghost predicate Covers(lib: Library, e: Record, v: Vuln, today: int)
    requires Usable(lib, e)
  {
    && SameText(e["package"], TextOf(v.name)) && SameWord(lib, e["advisory"], TextOf(v.advisory))
    && today <= lib.day(e["expires_on"]).value
  }

  /** Severities are compared unless the exception's is white space. */
  ghost predicate AgreesWith(lib: Library, e: Record, v: Vuln)
    requires Usable(lib, e)
  {
    Reads(lib, e["severity"], "") || SameWord(lib, e["severity"], SeverityText(v.severity))
  }

  /** An earlier tuple that counts is the same. */
  ghost predicate SeenBefore(lib: Library, vs: seq<Vuln>, i: nat)
    requires i < |vs|
  {
    exists j | 0 <= j < i :: Counts(lib, vs[j]) && SameVuln(lib, vs[j], vs[i])
  }

  ghost predicate UsableExceptions(lib: Library, es: seq<Record>) {
    && (forall e | e in es :: Usable(lib, e))
    && forall i, j | 0 <= i < j < |es| :: Usable(lib, es[i]) && Usable(lib, es[j]) ==> !SameSubject(lib, es[i], es[j])
  }

  ghost predicate Allowed(lib: Library, es: seq<Record>, vs: seq<Vuln>, today: int, i: nat)
    requires i < |vs|
  {
    && !Reads(lib, TextOf(vs[i].advisory), "")
    && exists e :: e in es && Usable(lib, e) && Covers(lib, e, vs[i], today)
                   && (SeenBefore(lib, vs, i) || AgreesWith(lib, e, vs[i]))
  }

  ghost predicate Accepts(lib: Library, es: seq<Record>, vs: seq<Vuln>, today: int) {
    && UsableExceptions(lib, es)
    && forall i | 0 <= i < |vs| && Counts(lib, vs[i]) :: Allowed(lib, es, vs, today, i)
  }

  // ----- spellings -----

  /** The same exception in another spelling: white space around package, advisory and severity does not
      matter, nor the case of the last two. */
  ghost predicate Respelled(lib: Library, d: Record, e: Record) {
    && (forall f | f in {"package", "advisory", "severity", "mitigation", "expires_on"} :: Filled(d, f) == Filled(e, f))
    && (Complete(d) && Complete(e) ==>
          && SameText(d["package"], e["package"]) && SameWord(lib, d["advisory"], e["advisory"])
          && SameWord(lib, d["severity"], e["severity"]) && d["expires_on"] == e["expires_on"])
  }

  ghost predicate RespelledVuln(lib: Library, v: Vuln, w: Vuln) {
    Named(v) == Named(w) && SameVuln(lib, v, w) && SameWord(lib, SeverityText(v.severity), SeverityText(w.severity))
  }

  // ----- words in terms of stripped texts -----

  lemma {:induction false} SameWordMeans(lib: Library, s: string, t: string)
    ensures SameWord(lib, s, t) <==> lib.lower(Strip(s)) == lib.lower(Strip(t))
  {
    hide Core, Strip;
    StripIsCore(s, Strip(s));
    StripIsCore(t, Strip(t));
    if c, d :| Core(s, c) && Core(t, d) && lib.lower(c) == lib.lower(d) {
      StripIsCore(s, c);
      StripIsCore(t, d);
    }
  }

  lemma {:induction false} ReadsMeans(lib: Library, s: string, w: string)
    ensures Reads(lib, s, w) <==> lib.lower(Strip(s)) == w
  {
    hide Core, Strip;
    StripIsCore(s, Strip(s));
    if c :| Core(s, c) && lib.lower(c) == w {
      StripIsCore(s, c);
    }
  }
}
