/** The gate over a dependency audit: every high or critical vulnerability needs an exception that
    is complete, dated, not expired, and of the same severity. */
module AuditGate {
  import opened Wrappers
  import opened AuditReport
  import opened ExceptionFile
  import opened Texts
  import opened AuditPolicy

  type Key = (string, string)

  datatype Indexed = Indexed(severity: string, expiresOn: int)

  datatype Finding =
    | MissingFields(e: Record) | InvalidDate(e: Record) | EmptyKey | Duplicate(e: Record)
    | NoAdvisory(v: Vuln) | SeverityMismatch(v: Vuln) | MissingException(v: Vuln) | Expired(v: Vuln)

  const REQUIRED_FIELDS: set<string> := {"package", "advisory", "severity", "mitigation", "expires_on"}

  function Get(e: Record, field: string): string {
    if field in e then e[field] else ""
  }

  // ----- normalising -----

  function NormalizeSeverity(lib: Library, v: Scalar): string { lib.lower(Strip(if v.Falsy() then "" else v.Shown())) }
  function NormalizePackage(v: Scalar): string { Strip(v.Shown()) }
  function NormalizeAdvisory(lib: Library, v: Scalar): string { lib.lower(Strip(v.Shown())) }

  function KeyOf(lib: Library, e: Record): Key {
    (NormalizePackage(Str(Get(e, "package"))), NormalizeAdvisory(lib, Str(Get(e, "advisory"))))
  }

  function VulnKey(lib: Library, v: Vuln): Key {
    (NormalizePackage(v.name), NormalizeAdvisory(lib, v.advisory))
  }

  // ----- what the gate is to accept -----

  predicate HasFields(e: Record) {
    forall f | f in REQUIRED_FIELDS :: Get(e, f) != ""
  }

  /** Complete, dated and non-empty after normalising. */
  predicate Sound(lib: Library, e: Record) {
    HasFields(e) && lib.day(Get(e, "expires_on")).Some? && KeyOf(lib, e).0 != "" && KeyOf(lib, e).1 != ""
  }

  ghost predicate ExceptionsOK(lib: Library, es: seq<Record>) {
    && (forall e | e in es :: Sound(lib, e))
    && forall i, j | 0 <= i < j < |es| :: KeyOf(lib, es[i]) != KeyOf(lib, es[j])
  }

  /** High or critical, and named. */
  predicate Relevant(lib: Library, v: Vuln) {
    NormalizeSeverity(lib, v.severity) in {"high", "critical"} && !v.name.Falsy()
  }

  predicate Identified(lib: Library, v: Vuln) {
    NormalizeAdvisory(lib, v.advisory) != ""
  }

  /** The tuple is the first with its key among those that count. */
  ghost predicate First(lib: Library, vs: seq<Vuln>, i: nat)
    requires i < |vs|
  {
    forall j | 0 <= j < i && Relevant(lib, vs[j]) && Identified(lib, vs[j]) :: VulnKey(lib, vs[j]) != VulnKey(lib, vs[i])
  }

  predicate Unexpired(lib: Library, e: Record, today: int) {
    lib.day(Get(e, "expires_on")).Some? && today <= lib.day(Get(e, "expires_on")).value
  }

  /** The severities agree, or the exception's is blank after normalising. */
  predicate SameSeverity(lib: Library, e: Record, v: Vuln) {
    NormalizeSeverity(lib, Str(Get(e, "severity"))) in {"", NormalizeSeverity(lib, v.severity)}
  }

  ghost predicate Excepts(lib: Library, e: Record, v: Vuln, today: int, first: bool) {
    KeyOf(lib, e) == VulnKey(lib, v) && Unexpired(lib, e, today) && (first ==> SameSeverity(lib, e, v))
  }

  ghost predicate Excused(lib: Library, es: seq<Record>, v: Vuln, today: int, first: bool) {
    Identified(lib, v) && exists e :: e in es && Excepts(lib, e, v, today, first)
  }

  /** The specification of the gate. */
  ghost predicate Passes(lib: Library, es: seq<Record>, vs: seq<Vuln>, today: int) {
    && ExceptionsOK(lib, es)
    && forall i | 0 <= i < |vs| && Relevant(lib, vs[i]) :: Excused(lib, es, vs[i], today, First(lib, vs, i))
  }

  // ----- the same without keys -----

  lemma {:induction false} SoundIsUsable(lib: Library, e: Record)
    ensures Sound(lib, e) <==> Usable(lib, e)
  {
    hide Strip, Blanks, Reads;
    SoundFields(e);
    if Complete(e) {
      BlanksMeans(e["package"]);
      ReadsMeans(lib, e["advisory"], "");
    }
  }

  lemma {:induction false} SoundFields(e: Record)
    ensures HasFields(e) <==> Complete(e)
  {
    assert forall f :: f in REQUIRED_FIELDS <==> f in {"package", "advisory", "severity", "mitigation", "expires_on"};
  }

  lemma {:induction false} SameKey(lib: Library, d: Record, e: Record)
    requires Usable(lib, d) && Usable(lib, e)
    ensures KeyOf(lib, d) == KeyOf(lib, e) <==> SameSubject(lib, d, e)
  {
    hide Strip, SameText, SameWord;
    SameTextMeans(d["package"], e["package"]);
    SameWordMeans(lib, d["advisory"], e["advisory"]);
  }

  lemma {:induction false} RelevantCounts(lib: Library, v: Vuln)
    ensures Relevant(lib, v) <==> Counts(lib, v)
    ensures Identified(lib, v) <==> !Reads(lib, TextOf(v.advisory), "")
  {
    hide Strip, Reads;
    ReadsMeans(lib, SeverityText(v.severity), "high");
    ReadsMeans(lib, SeverityText(v.severity), "critical");
    ReadsMeans(lib, TextOf(v.advisory), "");
  }

  lemma {:induction false} SameVulnKey(lib: Library, v: Vuln, w: Vuln)
    ensures VulnKey(lib, v) == VulnKey(lib, w) <==> SameVuln(lib, v, w)
    ensures VulnKey(lib, v) == VulnKey(lib, w) ==> Identified(lib, v) == Identified(lib, w)
  {
    hide Strip, SameText, SameWord;
    SameTextMeans(TextOf(v.name), TextOf(w.name));
    SameWordMeans(lib, TextOf(v.advisory), TextOf(w.advisory));
  }

  lemma {:induction false} ExceptsCovers(lib: Library, e: Record, v: Vuln, today: int, first: bool)
    requires Usable(lib, e)
    ensures Excepts(lib, e, v, today, first) <==> Covers(lib, e, v, today) && (first ==> AgreesWith(lib, e, v))
  {
    hide Strip, SameText, SameWord, Reads;
    SameTextMeans(e["package"], TextOf(v.name));
    SameWordMeans(lib, e["advisory"], TextOf(v.advisory));
    ReadsMeans(lib, e["severity"], "");
    SameWordMeans(lib, e["severity"], SeverityText(v.severity));
  }

  lemma {:induction false} FirstUnseenBefore(lib: Library, vs: seq<Vuln>, i: nat)
    requires i < |vs| && Identified(lib, vs[i])
    ensures First(lib, vs, i) <==> !SeenBefore(lib, vs, i)
  {
    hide Relevant, Counts, Identified, VulnKey, SameVuln;
    forall j | 0 <= j < i
      ensures Relevant(lib, vs[j]) && Identified(lib, vs[j]) && VulnKey(lib, vs[j]) == VulnKey(lib, vs[i])
              <==> Counts(lib, vs[j]) && SameVuln(lib, vs[j], vs[i])
    {
      RelevantCounts(lib, vs[j]);
      SameVulnKey(lib, vs[j], vs[i]);
    }
  }

  lemma {:induction false} ExcusedAllowed(lib: Library, es: seq<Record>, vs: seq<Vuln>, today: int, i: nat)
    requires i < |vs| && forall e | e in es :: Usable(lib, e)
    ensures Excused(lib, es, vs[i], today, First(lib, vs, i)) <==> Allowed(lib, es, vs, today, i)
  {
    hide Identified, Excepts, Covers, AgreesWith, Usable, First, SeenBefore, Reads;
    RelevantCounts(lib, vs[i]);
    if Identified(lib, vs[i]) {
      FirstUnseenBefore(lib, vs, i);
      forall e | e in es
        ensures Excepts(lib, e, vs[i], today, First(lib, vs, i))
                <==> Covers(lib, e, vs[i], today) && (SeenBefore(lib, vs, i) || AgreesWith(lib, e, vs[i]))
      {
        ExceptsCovers(lib, e, vs[i], today, First(lib, vs, i));
      }
    }
  }

  lemma {:induction false} ExceptionsUsable(lib: Library, es: seq<Record>)
    ensures ExceptionsOK(lib, es) <==> UsableExceptions(lib, es)
  {
    hide Sound, Usable, KeyOf, SameSubject;
    forall e | e in es ensures Sound(lib, e) <==> Usable(lib, e) {
      SoundIsUsable(lib, e);
    }
    forall i, j | 0 <= i < j < |es| && Usable(lib, es[i]) && Usable(lib, es[j])
      ensures KeyOf(lib, es[i]) == KeyOf(lib, es[j]) <==> SameSubject(lib, es[i], es[j])
    {
      SameKey(lib, es[i], es[j]);
    }
  }

  /** Keys, and everything they are made with, mean what the policy says. */
  lemma {:induction false} PassesIsAccepts(lib: Library, es: seq<Record>, vs: seq<Vuln>, today: int)
    ensures Passes(lib, es, vs, today) <==> Accepts(lib, es, vs, today)
  {
    hide ExceptionsOK, UsableExceptions, Relevant, Counts, Excused, Allowed, First;
    ExceptionsUsable(lib, es);
    if UsableExceptions(lib, es) {
      AllUsable(lib, es);
      forall i | 0 <= i < |vs|
        ensures Relevant(lib, vs[i]) <==> Counts(lib, vs[i])
        ensures Excused(lib, es, vs[i], today, First(lib, vs, i)) <==> Allowed(lib, es, vs, today, i)
      {
        RelevantCounts(lib, vs[i]);
        ExcusedAllowed(lib, es, vs, today, i);
      }
    }
  }

  lemma {:induction false} AllUsable(lib: Library, es: seq<Record>)
    requires UsableExceptions(lib, es)
    ensures forall e | e in es :: Usable(lib, e)
  {
    hide Usable, SameSubject;
  }

  // ----- what a finding says -----

  /** A finding about the exceptions is right: there is such an exception, or two with one subject. */
  ghost predicate RightAbout(lib: Library, es: seq<Record>, f: Finding) {
    match f
    case MissingFields(e) => e in es && !Complete(e)
    case InvalidDate(e) => e in es && Complete(e) && lib.day(e["expires_on"]).None?
    case EmptyKey => exists e :: e in es && Complete(e) && lib.day(e["expires_on"]).Some? && !Usable(lib, e)
    case Duplicate(e) =>
      exists i, j :: 0 <= i < j < |es| && es[j] == e && Usable(lib, es[i]) && Usable(lib, es[j])
                     && SameSubject(lib, es[i], es[j])
    case _ => false
  }

  /** The exception is for this package and advisory. */
  ghost predicate IsFor(lib: Library, e: Record, v: Vuln)
    requires Usable(lib, e)
  {
    SameText(e["package"], TextOf(v.name)) && SameWord(lib, e["advisory"], TextOf(v.advisory))
  }

  /** A finding about the vulnerabilities is right: such a tuple counts, and that is what is wrong with it. */
  ghost predicate RightOf(lib: Library, es: seq<Record>, vs: seq<Vuln>, today: int, f: Finding) {
    match f
    case NoAdvisory(v) => v in vs && Counts(lib, v) && Reads(lib, TextOf(v.advisory), "")
    case MissingException(v) => v in vs && Counts(lib, v) && forall e | e in es && Usable(lib, e) :: !IsFor(lib, e, v)
    case SeverityMismatch(v) =>
      v in vs && Counts(lib, v) && exists e :: e in es && Usable(lib, e) && IsFor(lib, e, v) && !AgreesWith(lib, e, v)
    case Expired(v) =>
      && v in vs && Counts(lib, v)
      && exists e :: e in es && Usable(lib, e) && IsFor(lib, e, v) && lib.day(e["expires_on"]).value < today
    case _ => false
  }

  lemma {:induction false} StillRight(lib: Library, es: seq<Record>, e: Record, f: Finding)
    requires RightAbout(lib, es, f)
    ensures RightAbout(lib, es + [e], f)
  {
    hide Usable, SameSubject;
    var more := es + [e];
    if f.Duplicate? {
      var i, j :| 0 <= i < j < |es| && es[j] == f.e && Usable(lib, es[i]) && Usable(lib, es[j])
                  && SameSubject(lib, es[i], es[j]);
      assert more[i] == es[i] && more[j] == es[j];
    } else if f.EmptyKey? {
      var d :| d in es && Complete(d) && lib.day(d["expires_on"]).Some? && !Usable(lib, d);
      assert d in more;
    }
  }

  /** The four errors of the first loop, in terms of the index. */
  lemma {:induction false} ErrorRight(lib: Library, es: seq<Record>, e: Record, f: Finding)
    requires match f
             case MissingFields(d) => d == e && !HasFields(e)
             case InvalidDate(d) => d == e && HasFields(e) && lib.day(Get(e, "expires_on")).None?
             case EmptyKey => HasFields(e) && lib.day(Get(e, "expires_on")).Some? && !Sound(lib, e)
             case Duplicate(d) =>
               d == e && Sound(lib, e) && exists d :: d in es && Sound(lib, d) && KeyOf(lib, d) == KeyOf(lib, e)
             case _ => false
    ensures RightAbout(lib, es + [e], f)
  {
    hide Sound, Usable, KeyOf, SameSubject, HasFields;
    SoundFields(e);
    SoundIsUsable(lib, e);
    assert (es + [e])[|es|] == e;
    if f.Duplicate? {
      var d :| d in es && Sound(lib, d) && KeyOf(lib, d) == KeyOf(lib, e);
      SoundIsUsable(lib, d);
      SameKey(lib, d, e);
      var i :| 0 <= i < |es| && es[i] == d;
      assert (es + [e])[i] == d;
    }
  }

  lemma {:induction false} KeyIsFor(lib: Library, e: Record, v: Vuln)
    requires Sound(lib, e)
    ensures Usable(lib, e) && (KeyOf(lib, e) == VulnKey(lib, v) <==> IsFor(lib, e, v))
    ensures SameSeverity(lib, e, v) <==> AgreesWith(lib, e, v)
    ensures Get(e, "expires_on") == e["expires_on"]
  {
    hide Strip, SameText, SameWord, Reads;
    SoundIsUsable(lib, e);
    SameTextMeans(e["package"], TextOf(v.name));
    SameWordMeans(lib, e["advisory"], TextOf(v.advisory));
    ReadsMeans(lib, e["severity"], "");
    SameWordMeans(lib, e["severity"], SeverityText(v.severity));
  }

  /** The index has the keys of the sound exceptions, and of one such exception each what it says. */
  ghost predicate IndexFrom(lib: Library, es: seq<Record>, index: map<Key, Indexed>) {
    && (forall e | e in es && Sound(lib, e) :: KeyOf(lib, e) in index)
    && forall k | k in index :: exists e :: e in es && Sound(lib, e) && KeyOf(lib, e) == k && index[k] == EntryOf(lib, e)
  }

  function EntryOf(lib: Library, e: Record): Indexed
    requires Sound(lib, e)
  {
    Indexed(NormalizeSeverity(lib, Str(Get(e, "severity"))), lib.day(Get(e, "expires_on")).value)
  }

  lemma {:induction false} NothingIndexed(lib: Library)
    ensures IndexFrom(lib, [], map[]) && ExceptionsOK(lib, []) && Reported(lib, [], [])
  {
  }

  /** The index may stay as it is when the next exception is not sound, or its key is taken. */
  lemma {:induction false} IndexKept(lib: Library, es: seq<Record>, e: Record, index: map<Key, Indexed>)
    requires IndexFrom(lib, es, index) && (Sound(lib, e) ==> KeyOf(lib, e) in index)
    ensures IndexFrom(lib, es + [e], index)
    ensures Sound(lib, e) ==> exists d :: d in es && Sound(lib, d) && KeyOf(lib, d) == KeyOf(lib, e)
  {
    hide Sound, KeyOf, EntryOf;
  }

  lemma {:induction false} IndexGrown(lib: Library, es: seq<Record>, e: Record, index: map<Key, Indexed>)
    requires IndexFrom(lib, es, index) && Sound(lib, e) && KeyOf(lib, e) !in index
    ensures IndexFrom(lib, es + [e], index[KeyOf(lib, e) := EntryOf(lib, e)])
  {
    hide Sound, KeyOf, EntryOf;
    var more := index[KeyOf(lib, e) := EntryOf(lib, e)];
    assert e in es + [e];
    forall k | k in more
      ensures exists d :: d in es + [e] && Sound(lib, d) && KeyOf(lib, d) == k && more[k] == EntryOf(lib, d)
    {
      if k in index {
        var d :| d in es && Sound(lib, d) && KeyOf(lib, d) == k && index[k] == EntryOf(lib, d);
        assert d in es + [e];
      }
    }
  }

  lemma {:induction false} OneMoreOK(lib: Library, es: seq<Record>, e: Record, index: map<Key, Indexed>)
    requires IndexFrom(lib, es, index)
    ensures ExceptionsOK(lib, es + [e]) <==> ExceptionsOK(lib, es) && Sound(lib, e) && KeyOf(lib, e) !in index
  {
    hide Sound, KeyOf, EntryOf;
    ExceptionsOKAppend(lib, es, e);
  }

  /** When all exceptions are sound and distinct, the index has each of them. */
  lemma {:induction false} IndexOfSound(lib: Library, es: seq<Record>, index: map<Key, Indexed>)
    requires ExceptionsOK(lib, es) && IndexFrom(lib, es, index)
    ensures IndexedBy(lib, es, index)
  {
    hide Sound, KeyOf;
    forall e | e in es ensures index[KeyOf(lib, e)] == EntryOf(lib, e) {
      var d :| d in es && KeyOf(lib, d) == KeyOf(lib, e) && index[KeyOf(lib, e)] == EntryOf(lib, d);
      var i :| 0 <= i < |es| && es[i] == d;
      var j :| 0 <= j < |es| && es[j] == e;
    }
  }

  /** The four findings of the second loop, in terms of the index. */
  lemma {:induction false} FindingRight(lib: Library, es: seq<Record>, vs: seq<Vuln>, index: map<Key, Indexed>,
                                        today: int, f: Finding)
    requires IndexFrom(lib, es, index)
    requires match f
             case NoAdvisory(v) => v in vs && Relevant(lib, v) && !Identified(lib, v)
             case MissingException(v) => v in vs && Relevant(lib, v) && VulnKey(lib, v) !in index
             case SeverityMismatch(v) =>
               v in vs && Relevant(lib, v) && VulnKey(lib, v) in index
               && index[VulnKey(lib, v)].severity !in {"", NormalizeSeverity(lib, v.severity)}
             case Expired(v) =>
               v in vs && Relevant(lib, v) && VulnKey(lib, v) in index && index[VulnKey(lib, v)].expiresOn < today
             case _ => false
    ensures RightOf(lib, es, vs, today, f)
  {
    hide Sound, Usable, KeyOf, VulnKey, Relevant, Counts, Identified, AgreesWith, IsFor, NormalizeSeverity, Get;
    RelevantCounts(lib, f.v);
    if f.MissingException? {
      forall e | e in es && Usable(lib, e) ensures !IsFor(lib, e, f.v) {
        SoundIsUsable(lib, e);
        KeyIsFor(lib, e, f.v);
      }
    } else if !f.NoAdvisory? {
      var e :| e in es && Sound(lib, e) && KeyOf(lib, e) == VulnKey(lib, f.v) && index[VulnKey(lib, f.v)] == EntryOf(lib, e);
      KeyIsFor(lib, e, f.v);
    }
  }

  // ----- the loops of main -----

  ghost predicate IndexedBy(lib: Library, es: seq<Record>, index: map<Key, Indexed>) {
    && (forall k | k in index :: exists e :: e in es && KeyOf(lib, e) == k)
    && (forall e | e in es :: Sound(lib, e) && KeyOf(lib, e) in index && index[KeyOf(lib, e)]
          == Indexed(NormalizeSeverity(lib, Str(Get(e, "severity"))), lib.day(Get(e, "expires_on")).value))
  }

  /** Whatever is wrong with an exception is among the errors. */
  ghost predicate Reported(lib: Library, es: seq<Record>, errors: seq<Finding>) {
    && (forall e | e in es ::
          if !HasFields(e) then MissingFields(e) in errors
          else if lib.day(Get(e, "expires_on")).None? then InvalidDate(e) in errors
          else !Sound(lib, e) ==> EmptyKey in errors)
    && forall i, j | 0 <= i < j < |es| && Sound(lib, es[i]) && Sound(lib, es[j]) && KeyOf(lib, es[i]) == KeyOf(lib, es[j]) ::
         Duplicate(es[j]) in errors
  }

  /** Errors reported so far, and one more exception with its own. */
  lemma {:induction false} ReportedMore(lib: Library, es: seq<Record>, e: Record, index: map<Key, Indexed>,
                                        errors: seq<Finding>, more: seq<Finding>)
    requires IndexFrom(lib, es, index) && Reported(lib, es, errors) && forall f | f in errors :: f in more
    requires !HasFields(e) ==> MissingFields(e) in more
    requires HasFields(e) && lib.day(Get(e, "expires_on")).None? ==> InvalidDate(e) in more
    requires HasFields(e) && lib.day(Get(e, "expires_on")).Some? && !Sound(lib, e) ==> EmptyKey in more
    requires Sound(lib, e) && KeyOf(lib, e) in index ==> Duplicate(e) in more
    ensures Reported(lib, es + [e], more)
  {
    hide HasFields, Sound, KeyOf, Get, EntryOf;
    var longer := es + [e];
    assert forall i | 0 <= i < |es| :: longer[i] == es[i] && es[i] in es;
    assert longer[|es|] == e;
  }

  method IndexExceptions(lib: Library, es: seq<Record>) returns (index: map<Key, Indexed>, errors: seq<Finding>)
    ensures errors == [] <==> ExceptionsOK(lib, es)
    ensures errors == [] ==> IndexedBy(lib, es, index)
    ensures IndexFrom(lib, es, index) && forall f | f in errors :: RightAbout(lib, es, f)
    ensures Reported(lib, es, errors)
  {
    hide Strip, NormalizePackage, NormalizeAdvisory, NormalizeSeverity, KeyOf, Get, RightAbout, IndexFrom;
    hide ExceptionsOK, IndexedBy, Reported;
    index, errors := map[], [];
    NothingIndexed(lib);
    assert es[..0] == [];
    for i := 0 to |es|
      invariant errors == [] <==> ExceptionsOK(lib, es[..i])
      invariant IndexFrom(lib, es[..i], index) && forall f | f in errors :: RightAbout(lib, es[..i], f)
      invariant Reported(lib, es[..i], errors)
    {
      var exc := es[i];
      assert es[..i + 1] == es[..i] + [exc];
      OneMoreOK(lib, es[..i], exc, index);
      forall f | f in errors ensures RightAbout(lib, es[..i] + [exc], f) {
        StillRight(lib, es[..i], exc, f);
      }
      if exists f :: f in REQUIRED_FIELDS && Get(exc, f) == "" {
        IndexKept(lib, es[..i], exc, index);
        ErrorRight(lib, es[..i], exc, MissingFields(exc));
        ReportedMore(lib, es[..i], exc, index, errors, errors + [MissingFields(exc)]);
        errors := errors + [MissingFields(exc)];
        continue;
      }
      var day := lib.day(Get(exc, "expires_on"));
      if day.None? {
        IndexKept(lib, es[..i], exc, index);
        ErrorRight(lib, es[..i], exc, InvalidDate(exc));
        ReportedMore(lib, es[..i], exc, index, errors, errors + [InvalidDate(exc)]);
        errors := errors + [InvalidDate(exc)];
        continue;
      }
      var key := KeyOf(lib, exc);
      if key.0 == "" || key.1 == "" {
        IndexKept(lib, es[..i], exc, index);
        ErrorRight(lib, es[..i], exc, EmptyKey);
        ReportedMore(lib, es[..i], exc, index, errors, errors + [EmptyKey]);
        errors := errors + [EmptyKey];
        continue;
      }
      if key in index {
        IndexKept(lib, es[..i], exc, index);
        ErrorRight(lib, es[..i], exc, Duplicate(exc));
        ReportedMore(lib, es[..i], exc, index, errors, errors + [Duplicate(exc)]);
        errors := errors + [Duplicate(exc)];
        continue;
      }
      IndexGrown(lib, es[..i], exc, index);
      ReportedMore(lib, es[..i], exc, index, errors, errors);
      index := index[key := Indexed(NormalizeSeverity(lib, Str(Get(exc, "severity"))), day.value)];
    }
    assert es[..|es|] == es;
    if errors == [] {
      IndexOfSound(lib, es, index);
    }
  }

  lemma {:induction false} ExceptionsOKAppend(lib: Library, es: seq<Record>, e: Record)
    ensures ExceptionsOK(lib, es + [e]) <==>
            ExceptionsOK(lib, es) && Sound(lib, e) && forall d | d in es :: KeyOf(lib, d) != KeyOf(lib, e)
  {
    var longer := es + [e];
    assert longer[|es|] == e && forall i | 0 <= i < |es| :: longer[i] == es[i];
    if ExceptionsOK(lib, longer) {
      forall d | d in es ensures KeyOf(lib, d) != KeyOf(lib, e) {
        var i :| 0 <= i < |es| && es[i] == d;
        assert KeyOf(lib, longer[i]) != KeyOf(lib, longer[|es|]);
      }
      forall d | d in es ensures Sound(lib, d) {
        assert d in longer;
      }
    }
  }

  /** The first i tuples are all excused. */
  ghost predicate AllExcused(lib: Library, es: seq<Record>, vs: seq<Vuln>, today: int, i: nat)
    requires i <= |vs|
  {
    forall j | 0 <= j < i && Relevant(lib, vs[j]) :: Excused(lib, es, vs[j], today, First(lib, vs, j))
  }

  /** A look into the index decides as the specification does. */
  lemma {:induction false} IndexDecides(lib: Library, es: seq<Record>, index: map<Key, Indexed>, v: Vuln, today: int,
                                        first: bool)
    requires ExceptionsOK(lib, es) && IndexedBy(lib, es, index) && Identified(lib, v)
    ensures Excused(lib, es, v, today, first) <==>
            var k := VulnKey(lib, v);
            k in index && today <= index[k].expiresOn
            && (first ==> index[k].severity in {"", NormalizeSeverity(lib, v.severity)})
  {
    hide Strip, NormalizePackage, NormalizeAdvisory, NormalizeSeverity, KeyOf, VulnKey, Get, Identified, HasFields;
    var k := VulnKey(lib, v);
    if k in index {
      var e :| e in es && KeyOf(lib, e) == k;
      assert Excepts(lib, e, v, today, first) <==>
        (today <= index[k].expiresOn && (first ==> index[k].severity in {"", NormalizeSeverity(lib, v.severity)}));
    }
  }

  /** A later tuple with the key of an excused one is excused. */
  lemma {:induction false} RepeatExcused(lib: Library, es: seq<Record>, v: Vuln, w: Vuln, today: int, first: bool)
    requires Excused(lib, es, v, today, first) && VulnKey(lib, v) == VulnKey(lib, w) && Identified(lib, w)
    ensures Excused(lib, es, w, today, false)
  {
    var e :| e in es && Excepts(lib, e, v, today, first);
    assert Excepts(lib, e, w, today, false);
  }

  /** Whatever is wrong with tuple i is among the findings, unless an earlier tuple has its key. */
  ghost predicate Told(lib: Library, vs: seq<Vuln>, i: int, index: map<Key, Indexed>, today: int,
                       findings: seq<Finding>)
    requires 0 <= i < |vs|
  {
    var v, k := vs[i], VulnKey(lib, vs[i]);
    Relevant(lib, v) ==>
      if !Identified(lib, v) then NoAdvisory(v) in findings
      else First(lib, vs, i) ==>
        if k !in index then MissingException(v) in findings
        else
          && (index[k].severity !in {"", NormalizeSeverity(lib, v.severity)} ==> SeverityMismatch(v) in findings)
          && (index[k].expiresOn < today ==> Expired(v) in findings)
  }

  lemma {:induction false} StillTold(lib: Library, vs: seq<Vuln>, n: nat, index: map<Key, Indexed>, today: int,
                                     findings: seq<Finding>, f: Finding)
    requires n <= |vs| && forall j | 0 <= j < n :: Told(lib, vs, j, index, today, findings)
    ensures forall j | 0 <= j < n :: Told(lib, vs, j, index, today, findings + [f])
  {
    hide Relevant, Identified, First, VulnKey, NormalizeSeverity;
    assert forall x | x in findings :: x in findings + [f];
    forall j | 0 <= j < n ensures Told(lib, vs, j, index, today, findings + [f]) {
      assert Told(lib, vs, j, index, today, findings);
    }
  }

  /** The second loop of main. Its findings mean something once the index is sound. */
  method CheckVulns(lib: Library, ghost es: seq<Record>, index: map<Key, Indexed>, vs: seq<Vuln>, today: int,
                    ghost sound: bool)
    returns (findings: seq<Finding>)
    requires IndexFrom(lib, es, index)
    requires sound ==> ExceptionsOK(lib, es) && IndexedBy(lib, es, index)
    ensures forall f | f in findings :: RightOf(lib, es, vs, today, f)
    ensures forall i | 0 <= i < |vs| :: Told(lib, vs, i, index, today, findings)
    ensures sound ==> (findings == [] <==> AllExcused(lib, es, vs, today, |vs|))
  {
    hide Excused, IndexedBy, ExceptionsOK, Strip, NormalizePackage, NormalizeAdvisory, NormalizeSeverity, VulnKey;
    hide IndexFrom, RightOf;
    findings := [];
    var seen: set<Key> := {};
    for i := 0 to |vs|
      invariant seen == Seen(lib, vs, i)
      invariant forall f | f in findings :: RightOf(lib, es, vs, today, f)
      invariant forall j | 0 <= j < i :: Told(lib, vs, j, index, today, findings)
      invariant sound ==> (findings == [] <==> AllExcused(lib, es, vs, today, i))
    {
      var v := vs[i];
      var sev := NormalizeSeverity(lib, v.severity);
      if sev !in {"high", "critical"} || v.name.Falsy() {
        continue;
      }
      if NormalizeAdvisory(lib, v.advisory) == "" {
        NotExcused(lib, es, v, today, First(lib, vs, i));
        FindingRight(lib, es, vs, index, today, NoAdvisory(v));
        StillTold(lib, vs, i, index, today, findings, NoAdvisory(v));
        findings := findings + [NoAdvisory(v)];
        continue;
      }
      var key := VulnKey(lib, v);
      FirstIsUnseen(lib, vs, i);
      if key in seen {
        if sound && findings == [] {
          var j :| 0 <= j < i && Relevant(lib, vs[j]) && Identified(lib, vs[j]) && VulnKey(lib, vs[j]) == key;
          RepeatExcused(lib, es, vs[j], v, today, First(lib, vs, j));
        }
        continue;
      }
      seen := seen + {key};
      if sound {
        IndexDecides(lib, es, index, v, today, true);
      }
      if key !in index {
        FindingRight(lib, es, vs, index, today, MissingException(v));
        StillTold(lib, vs, i, index, today, findings, MissingException(v));
        findings := findings + [MissingException(v)];
        continue;
      }
      if index[key].severity != "" && index[key].severity != sev {
        FindingRight(lib, es, vs, index, today, SeverityMismatch(v));
        StillTold(lib, vs, i, index, today, findings, SeverityMismatch(v));
        findings := findings + [SeverityMismatch(v)];
      }
      if index[key].expiresOn < today {
        FindingRight(lib, es, vs, index, today, Expired(v));
        StillTold(lib, vs, i, index, today, findings, Expired(v));
        findings := findings + [Expired(v)];
      }
    }
  }

  ghost function Seen(lib: Library, vs: seq<Vuln>, i: nat): set<Key>
    requires i <= |vs|
  {
    set j | 0 <= j < i && Relevant(lib, vs[j]) && Identified(lib, vs[j]) :: VulnKey(lib, vs[j])
  }

  lemma {:induction false} FirstIsUnseen(lib: Library, vs: seq<Vuln>, i: nat)
    requires i < |vs|
    ensures First(lib, vs, i) <==> VulnKey(lib, vs[i]) !in Seen(lib, vs, i)
  {
  }

  lemma {:induction false} NotExcused(lib: Library, es: seq<Record>, v: Vuln, today: int, first: bool)
    requires !Identified(lib, v)
    ensures !Excused(lib, es, v, today, first)
  {
  }

  /** In terms of the texts: everything that is wrong is among the findings. Of exceptions with one subject
      the gate looks at one only, so severities and dates are spoken of when the exceptions have no faults. */
  ghost predicate AllTold(lib: Library, es: seq<Record>, vs: seq<Vuln>, today: int, findings: seq<Finding>) {
    && (forall e | e in es ::
          if !Complete(e) then MissingFields(e) in findings
          else if lib.day(e["expires_on"]).None? then InvalidDate(e) in findings
          else !Usable(lib, e) ==> EmptyKey in findings)
    && (forall i, j | 0 <= i < j < |es| && Usable(lib, es[i]) && Usable(lib, es[j]) && SameSubject(lib, es[i], es[j]) ::
          Duplicate(es[j]) in findings)
    && forall i | 0 <= i < |vs| && Counts(lib, vs[i]) :: ToldOf(lib, es, vs, today, findings, i)
  }

  ghost predicate ToldOf(lib: Library, es: seq<Record>, vs: seq<Vuln>, today: int, findings: seq<Finding>, i: int)
    requires 0 <= i < |vs|
  {
    var v := vs[i];
    if Reads(lib, TextOf(v.advisory), "") then NoAdvisory(v) in findings
    else !SeenBefore(lib, vs, i) ==>
      && ((forall e | e in es && Usable(lib, e) :: !IsFor(lib, e, v)) ==> MissingException(v) in findings)
      && forall e | e in es && UsableExceptions(lib, es) && Usable(lib, e) && IsFor(lib, e, v) ::
           && (!AgreesWith(lib, e, v) ==> SeverityMismatch(v) in findings)
           && (lib.day(e["expires_on"]).value < today ==> Expired(v) in findings)
  }

  lemma {:induction false} ReportedMeans(lib: Library, es: seq<Record>, errors: seq<Finding>, findings: seq<Finding>)
    requires Reported(lib, es, errors) && forall f | f in errors :: f in findings
    ensures forall e | e in es ::
      if !Complete(e) then MissingFields(e) in findings
      else if lib.day(e["expires_on"]).None? then InvalidDate(e) in findings
      else !Usable(lib, e) ==> EmptyKey in findings
    ensures forall i, j | 0 <= i < j < |es| && Usable(lib, es[i]) && Usable(lib, es[j]) && SameSubject(lib, es[i], es[j]) ::
      Duplicate(es[j]) in findings
  {
    hide Sound, Usable, KeyOf, SameSubject, HasFields;
    forall e | e in es ensures (Sound(lib, e) <==> Usable(lib, e)) && (HasFields(e) <==> Complete(e)) {
      SoundIsUsable(lib, e);
      SoundFields(e);
    }
    forall i, j | 0 <= i < j < |es| && Usable(lib, es[i]) && Usable(lib, es[j]) && SameSubject(lib, es[i], es[j])
      ensures Duplicate(es[j]) in findings
    {
      assert es[i] in es && es[j] in es;
      SameKey(lib, es[i], es[j]);
    }
  }

  lemma {:induction false} ToldMeans(lib: Library, es: seq<Record>, vs: seq<Vuln>, index: map<Key, Indexed>,
                                     today: int, more: seq<Finding>, findings: seq<Finding>, i: nat)
    requires i < |vs| && Counts(lib, vs[i]) && IndexFrom(lib, es, index) && Told(lib, vs, i, index, today, more)
    requires (forall f | f in more :: f in findings) && (UsableExceptions(lib, es) ==> IndexedBy(lib, es, index))
    ensures ToldOf(lib, es, vs, today, findings, i)
  {
    hide Relevant, Counts, Identified, VulnKey, Sound, KeyOf, IsFor, AgreesWith, UsableExceptions, First, SeenBefore;
    hide Reads;
    var v := vs[i];
    RelevantCounts(lib, v);
    if Identified(lib, v) {
      FirstUnseenBefore(lib, vs, i);
      forall e | e in es && Usable(lib, e)
        ensures Sound(lib, e) && (KeyOf(lib, e) == VulnKey(lib, v) <==> IsFor(lib, e, v))
        ensures SameSeverity(lib, e, v) <==> AgreesWith(lib, e, v)
        ensures Get(e, "expires_on") == e["expires_on"]
      {
        SoundIsUsable(lib, e);
        KeyIsFor(lib, e, v);
      }
      forall e | e in es && Sound(lib, e) ensures Usable(lib, e) {
        SoundIsUsable(lib, e);
      }
    }
  }

  /** main, from the parsed files to the exit code. */
  method Gate(lib: Library, es: seq<Record>, vs: seq<Vuln>, today: int) returns (code: int, findings: seq<Finding>)
    ensures code == 0 <==> Passes(lib, es, vs, today)
    ensures code == 0 <==> Accepts(lib, es, vs, today)
    ensures code in {0, 1} && (code == 1 <==> findings != [])
    ensures forall f | f in findings :: RightAbout(lib, es, f) || RightOf(lib, es, vs, today, f)
    ensures AllTold(lib, es, vs, today, findings)
  {
    hide Reported, Told, ToldOf, ExceptionsOK, UsableExceptions, IndexFrom, IndexedBy, RightAbout, RightOf, Counts;
    hide Accepts;
    var index, errors := IndexExceptions(lib, es);
    var more := CheckVulns(lib, es, index, vs, today, errors == []);
    findings := errors + more;
    code := if findings == [] then 0 else 1;
    PassesIsAccepts(lib, es, vs, today);
    ReportedMeans(lib, es, errors, findings);
    ExceptionsUsable(lib, es);
    forall i | 0 <= i < |vs| && Counts(lib, vs[i]) ensures ToldOf(lib, es, vs, today, findings, i) {
      ToldMeans(lib, es, vs, index, today, more, findings, i);
    }
  }

  // ----- order of the exceptions -----

  lemma {:induction false} ExceptionsOKAsSet(lib: Library, es: seq<Record>)
    ensures ExceptionsOK(lib, es) <==>
            && (forall e | e in es :: Sound(lib, e) && multiset(es)[e] == 1)
            && forall d, e | d in es && e in es && KeyOf(lib, d) == KeyOf(lib, e) :: d == e
    decreases |es|
  {
    hide Sound, KeyOf;
    if es == [] {
    } else {
      var rest, last := es[..|es| - 1], es[|es| - 1];
      assert es == rest + [last];
      ExceptionsOKAsSet(lib, rest);
      ExceptionsOKAppend(lib, rest, last);
    }
  }

  /** The exit code does not depend on the order of the exceptions. */
  lemma {:induction false} ExceptionOrder(lib: Library, es: seq<Record>, es': seq<Record>, vs: seq<Vuln>, today: int)
    requires multiset(es) == multiset(es')
    ensures Passes(lib, es, vs, today) <==> Passes(lib, es', vs, today)
  {
    hide Sound, KeyOf, Excepts;
    ExceptionsOKAsSet(lib, es);
    ExceptionsOKAsSet(lib, es');
    assert forall e :: e in es <==> e in multiset(es);
    assert forall e :: e in es' <==> e in multiset(es');
  }

  // ----- order of the vulnerabilities -----

  /** All tuples that count and share a key have one severity. */
  ghost predicate OneSeverity(lib: Library, vs: seq<Vuln>) {
    forall v, w | v in vs && w in vs && Relevant(lib, v) && Relevant(lib, w) && VulnKey(lib, v) == VulnKey(lib, w) ::
      NormalizeSeverity(lib, v.severity) == NormalizeSeverity(lib, w.severity)
  }

  /** Then every tuple is judged on its own. */
  lemma {:induction false} JudgedAlone(lib: Library, es: seq<Record>, vs: seq<Vuln>, today: int)
    requires OneSeverity(lib, vs)
    ensures AllExcused(lib, es, vs, today, |vs|) <==> forall v | v in vs && Relevant(lib, v) :: Excused(lib, es, v, today, true)
  {
    hide NormalizeSeverity, VulnKey, KeyOf, Unexpired;
    if AllExcused(lib, es, vs, today, |vs|) {
      forall i | 0 <= i < |vs| && Relevant(lib, vs[i]) ensures Excused(lib, es, vs[i], today, true) {
        var j := FirstLike(lib, vs, i);
        var e :| e in es && Excepts(lib, e, vs[j], today, true);
        assert Excepts(lib, e, vs[i], today, true);
      }
    } else {
      var i :| 0 <= i < |vs| && Relevant(lib, vs[i]) && !Excused(lib, es, vs[i], today, First(lib, vs, i));
      WeakerExcuse(lib, es, vs[i], today, First(lib, vs, i));
    }
  }

  lemma {:induction false} WeakerExcuse(lib: Library, es: seq<Record>, v: Vuln, today: int, first: bool)
    ensures Excused(lib, es, v, today, true) ==> Excused(lib, es, v, today, first)
  {
    if Excused(lib, es, v, today, true) {
      var e :| e in es && Excepts(lib, e, v, today, true);
      assert Excepts(lib, e, v, today, first);
    }
  }

  lemma {:induction false} FirstLike(lib: Library, vs: seq<Vuln>, i: nat) returns (j: nat)
    requires i < |vs| && Relevant(lib, vs[i]) && Identified(lib, vs[i])
    ensures j <= i && Relevant(lib, vs[j]) && Identified(lib, vs[j]) && VulnKey(lib, vs[j]) == VulnKey(lib, vs[i]) && First(lib, vs, j)
    decreases i
  {
    if First(lib, vs, i) {
      j := i;
    } else {
      var k :| 0 <= k < i && Relevant(lib, vs[k]) && Identified(lib, vs[k]) && VulnKey(lib, vs[k]) == VulnKey(lib, vs[i]);
      j := FirstLike(lib, vs, k);
    }
  }

  lemma {:induction false} VulnOrder(lib: Library, es: seq<Record>, vs: seq<Vuln>, vs': seq<Vuln>, today: int)
    requires OneSeverity(lib, vs) && multiset(vs) == multiset(vs')
    ensures Passes(lib, es, vs, today) <==> Passes(lib, es, vs', today)
  {
    hide Excused, Relevant, ExceptionsOK, VulnKey, NormalizeSeverity;
    assert forall v :: v in vs <==> v in multiset(vs);
    assert forall v :: v in vs' <==> v in multiset(vs');
    JudgedAlone(lib, es, vs, today);
    JudgedAlone(lib, es, vs', today);
  }

  /** Excused wherever the tuple stands. */
  ghost predicate Fits(lib: Library, es: seq<Record>, v: Vuln, today: int) {
    Excused(lib, es, v, today, true)
  }

  ghost predicate Mismatched(lib: Library, es: seq<Record>, v: Vuln, today: int) {
    Relevant(lib, v) && !Fits(lib, es, v, today)
  }

  /** Every tuple that counts has an unexpired exception, and some tuple with its key fits that
      exception in severity too. */
  ghost predicate EveryKeyFits(lib: Library, es: seq<Record>, vs: seq<Vuln>, today: int) {
    forall v | v in vs && Relevant(lib, v) ::
      && Excused(lib, es, v, today, false)
      && exists w :: w in vs && Relevant(lib, w) && VulnKey(lib, w) == VulnKey(lib, v) && Fits(lib, es, w, today)
  }

  /** Some order of the tuples changes the exit code if and only if every key has a tuple that fits
      its exception and some tuple does not fit. */
  lemma {:induction false} OrderMatters(lib: Library, es: seq<Record>, vs: seq<Vuln>, today: int)
    ensures (exists vs' :: multiset(vs') == multiset(vs) && (Passes(lib, es, vs', today) <==> !Passes(lib, es, vs, today)))
            <==> ExceptionsOK(lib, es) && EveryKeyFits(lib, es, vs, today) && exists v :: v in vs && Mismatched(lib, es, v, today)
  {
    hide Passes, EveryKeyFits, Mismatched, ExceptionsOK;
    if vs' :| multiset(vs') == multiset(vs) && (Passes(lib, es, vs', today) <==> !Passes(lib, es, vs, today)) {
      if Passes(lib, es, vs, today) {
        OrdersThatDiffer(lib, es, vs, vs', today);
      } else {
        OrdersThatDiffer(lib, es, vs', vs, today);
        SameTuples(lib, es, vs, vs', today);
      }
    }
    if v :| v in vs && ExceptionsOK(lib, es) && EveryKeyFits(lib, es, vs, today) && Mismatched(lib, es, v, today) {
      var good := FittingFirst(lib, es, vs, today);
      var bad := MismatchFirst(lib, es, vs, v, today);
      assert Passes(lib, es, good, today) && !Passes(lib, es, bad, today);
    }
  }

  lemma {:induction false} SameTuples(lib: Library, es: seq<Record>, vs: seq<Vuln>, vs': seq<Vuln>, today: int)
    requires multiset(vs) == multiset(vs')
    ensures forall v :: v in vs <==> v in vs'
    ensures EveryKeyFits(lib, es, vs, today) <==> EveryKeyFits(lib, es, vs', today)
  {
    hide Relevant, Excused, ExceptionsOK, VulnKey, Fits;
    assert forall v :: v in vs <==> v in multiset(vs);
    assert forall v :: v in vs' <==> v in multiset(vs');
  }

  /** What follows when one order passes and another fails. */
  lemma {:induction false} OrdersThatDiffer(lib: Library, es: seq<Record>, vs: seq<Vuln>, vs': seq<Vuln>, today: int)
    requires multiset(vs) == multiset(vs') && Passes(lib, es, vs, today) && !Passes(lib, es, vs', today)
    ensures ExceptionsOK(lib, es) && EveryKeyFits(lib, es, vs, today)
    ensures exists v :: v in vs && v in vs' && Mismatched(lib, es, v, today)
  {
    hide Excused, Relevant, ExceptionsOK, VulnKey, Identified;
    SameTuples(lib, es, vs, vs', today);
    var k :| 0 <= k < |vs'| && Relevant(lib, vs'[k]) && !Excused(lib, es, vs'[k], today, First(lib, vs', k));
    WeakerExcuse(lib, es, vs'[k], today, First(lib, vs', k));
    assert vs'[k] in vs && Mismatched(lib, es, vs'[k], today);
    forall v | v in vs && Relevant(lib, v)
      ensures Excused(lib, es, v, today, false)
      ensures exists w :: w in vs && Relevant(lib, w) && VulnKey(lib, w) == VulnKey(lib, v) && Fits(lib, es, w, today)
    {
      var i :| 0 <= i < |vs| && vs[i] == v;
      ExcusedMeans(lib, es, v, today, First(lib, vs, i));
      var j := FirstLike(lib, vs, i);
      assert vs[j] in vs && Fits(lib, es, vs[j], today);
    }
  }

  lemma {:induction false} ExcusedMeans(lib: Library, es: seq<Record>, v: Vuln, today: int, first: bool)
    requires Excused(lib, es, v, today, first)
    ensures Identified(lib, v) && Excused(lib, es, v, today, false)
  {
    RepeatExcused(lib, es, v, v, today, first);
  }

  ghost function Sorted(lib: Library, es: seq<Record>, vs: seq<Vuln>, today: int, fitting: bool): (r: seq<Vuln>)
    ensures forall v :: v in r <==> v in vs && (Fits(lib, es, v, today) <==> fitting)
  {
    if vs == [] then []
    else
      var rest, last := Sorted(lib, es, vs[..|vs| - 1], today, fitting), vs[|vs| - 1];
      if Fits(lib, es, last, today) <==> fitting then rest + [last] else rest
  }

  lemma {:induction false} SortedPermutes(lib: Library, es: seq<Record>, vs: seq<Vuln>, today: int)
    ensures multiset(Sorted(lib, es, vs, today, true) + Sorted(lib, es, vs, today, false)) == multiset(vs)
  {
    hide Fits;
    if vs != [] {
      SortedPermutes(lib, es, vs[..|vs| - 1], today);
      assert vs == vs[..|vs| - 1] + [vs[|vs| - 1]];
    }
  }

  /** The tuples that fit in front: an order that passes. */
  lemma {:induction false} FittingFirst(lib: Library, es: seq<Record>, vs: seq<Vuln>, today: int)
    returns (good: seq<Vuln>)
    requires ExceptionsOK(lib, es) && EveryKeyFits(lib, es, vs, today)
    ensures multiset(good) == multiset(vs) && Passes(lib, es, good, today)
  {
    hide ExceptionsOK, Relevant, Excused, VulnKey, Identified, First, Sorted, Fits, EveryKeyFits;
    var front, back := Sorted(lib, es, vs, today, true), Sorted(lib, es, vs, today, false);
    good := front + back;
    SortedPermutes(lib, es, vs, today);
    forall i | 0 <= i < |good| && Relevant(lib, good[i]) ensures Excused(lib, es, good[i], today, First(lib, good, i)) {
      if i < |front| {
        assert good[i] in front;
        FitsAnywhere(lib, es, good[i], today, First(lib, good, i));
      } else {
        assert good[i] in back;
        var w := FittingWithKey(lib, es, vs, good[i], today);
        assert w in front;
        var j :| 0 <= j < |front| && front[j] == w;
        FitsAnywhere(lib, es, w, today, true);
        NotFirst(lib, good, j, i);
      }
    }
  }

  lemma {:induction false} FittingWithKey(lib: Library, es: seq<Record>, vs: seq<Vuln>, v: Vuln, today: int)
    returns (w: Vuln)
    requires EveryKeyFits(lib, es, vs, today) && v in vs && Relevant(lib, v)
    ensures w in vs && Relevant(lib, w) && VulnKey(lib, w) == VulnKey(lib, v) && Fits(lib, es, w, today)
    ensures Excused(lib, es, v, today, false)
  {
    hide ExceptionsOK, Relevant, Excused, VulnKey, Fits;
    w :| w in vs && Relevant(lib, w) && VulnKey(lib, w) == VulnKey(lib, v) && Fits(lib, es, w, today);
  }

  lemma {:induction false} FitsAnywhere(lib: Library, es: seq<Record>, v: Vuln, today: int, first: bool)
    requires Fits(lib, es, v, today)
    ensures Identified(lib, v) && Excused(lib, es, v, today, first)
  {
    WeakerExcuse(lib, es, v, today, first);
  }

  lemma {:induction false} NotFirst(lib: Library, vs: seq<Vuln>, j: nat, i: nat)
    requires j < i < |vs| && Relevant(lib, vs[j]) && Identified(lib, vs[j]) && VulnKey(lib, vs[j]) == VulnKey(lib, vs[i])
    ensures !First(lib, vs, i)
  {
  }

  /** A tuple that does not fit in front: an order that fails. */
  lemma {:induction false} MismatchFirst(lib: Library, es: seq<Record>, vs: seq<Vuln>, v: Vuln, today: int)
    returns (bad: seq<Vuln>)
    requires v in vs && Mismatched(lib, es, v, today)
    ensures multiset(bad) == multiset(vs) && !Passes(lib, es, bad, today)
  {
    hide ExceptionsOK, Relevant, Excused, VulnKey, Identified;
    var i :| 0 <= i < |vs| && vs[i] == v;
    bad := [v] + vs[..i] + vs[i + 1..];
    assert vs == vs[..i] + [v] + vs[i + 1..];
    assert bad[0] == v && First(lib, bad, 0);
  }

  // ----- time, and more vulnerabilities -----

  /** A failure never turns into a pass as time goes by. */
  lemma {:induction false} TimePasses(lib: Library, es: seq<Record>, vs: seq<Vuln>, today: int, later: int)
    requires today <= later && Passes(lib, es, vs, later)
    ensures Passes(lib, es, vs, today)
  {
    hide ExceptionsOK, Relevant;
    forall i | 0 <= i < |vs| && Relevant(lib, vs[i]) ensures Excused(lib, es, vs[i], today, First(lib, vs, i)) {
      var e :| e in es && Excepts(lib, e, vs[i], later, First(lib, vs, i));
      assert Excepts(lib, e, vs[i], today, First(lib, vs, i));
    }
  }

  /** Nor when more vulnerabilities are appended. */
  lemma {:induction false} Appending(lib: Library, es: seq<Record>, vs: seq<Vuln>, more: seq<Vuln>, today: int)
    requires Passes(lib, es, vs + more, today)
    ensures Passes(lib, es, vs, today)
  {
    hide ExceptionsOK, Relevant, Excused, Identified, VulnKey;
    forall i | 0 <= i < |vs| && Relevant(lib, vs[i]) ensures Excused(lib, es, vs[i], today, First(lib, vs, i)) {
      assert forall j | 0 <= j <= i :: (vs + more)[j] == vs[j];
      assert First(lib, vs + more, i) <==> First(lib, vs, i);
    }
  }

  /** With one severity per key the same holds wherever they are added. */
  lemma {:induction false} Prepending(lib: Library, es: seq<Record>, more: seq<Vuln>, vs: seq<Vuln>, today: int)
    requires OneSeverity(lib, more + vs) && Passes(lib, es, more + vs, today)
    ensures Passes(lib, es, vs, today)
  {
    hide ExceptionsOK, Relevant, Excused, VulnKey, NormalizeSeverity;
    assert forall v | v in vs :: v in more + vs;
    JudgedAlone(lib, es, more + vs, today);
    JudgedAlone(lib, es, vs, today);
  }

  /** Without it, not: only the first tuple of a key is compared with the exception's severity, so a
      tuple put in front can hide a mismatch. */
  lemma {:induction false} FrontTupleHidesMismatch(lib: Library, e: Record, v: Vuln, w: Vuln, today: int)
    requires Sound(lib, e) && Unexpired(lib, e, today)
    requires Relevant(lib, v) && Relevant(lib, w) && Identified(lib, v) && Identified(lib, w)
    requires VulnKey(lib, v) == VulnKey(lib, w) == KeyOf(lib, e)
    requires SameSeverity(lib, e, w) && !SameSeverity(lib, e, v)
    ensures Passes(lib, [e], [w, v], today)
    ensures !Passes(lib, [e], [v], today) && !Passes(lib, [e], [v, w], today)
  {
    hide Sound, Unexpired, Relevant, Identified, VulnKey, KeyOf, SameSeverity;
    assert First(lib, [v], 0) && First(lib, [v, w], 0) && First(lib, [w, v], 0);
    assert !First(lib, [w, v], 1) by {
      assert [w, v][0] == w;
    }
    assert e in [e] && Excepts(lib, e, w, today, true) && Excepts(lib, e, v, today, false);
    assert [v][0] == v && [v, w][0] == v;
  }

  /** A tuple in front turns a failure into a pass if and only if it passes alone and all that is
      wrong with the others is a mismatch in the first tuple that shares its key. */
  lemma {:induction false} FrontTupleMatters(lib: Library, es: seq<Record>, w: Vuln, vs: seq<Vuln>, today: int)
    ensures Passes(lib, es, [w] + vs, today) && !Passes(lib, es, vs, today) <==>
            && Passes(lib, es, [w], today) && Relevant(lib, w)
            && (exists i :: FirstMismatch(lib, es, vs, today, i) && VulnKey(lib, vs[i]) == VulnKey(lib, w))
            && (forall i | FirstMismatch(lib, es, vs, today, i) :: VulnKey(lib, vs[i]) == VulnKey(lib, w))
            && (forall v | v in vs && Relevant(lib, v) :: Excused(lib, es, v, today, false))
  {
    hide Passes, Relevant, Excused, VulnKey, Identified, First, Shares, ExceptionsOK;
    InFront(lib, es, w, vs, today);
    InFront(lib, es, w, [], today);
    assert [w] + [] == [w];
    if Passes(lib, es, [w] + vs, today) && !Passes(lib, es, vs, today) {
      var i := Failing(lib, es, vs, today);
      assert Shares(lib, w, vs[i]) && FirstMismatch(lib, es, vs, today, i);
      SharesMeans(lib, w, vs[i]);
      forall k | FirstMismatch(lib, es, vs, today, k) ensures VulnKey(lib, vs[k]) == VulnKey(lib, w) {
        SharesMeans(lib, w, vs[k]);
      }
      forall v | v in vs && Relevant(lib, v) ensures Excused(lib, es, v, today, false) {
        var k :| 0 <= k < |vs| && vs[k] == v;
        ExcusedMeans(lib, es, v, today, First(lib, vs, k) && !Shares(lib, w, v));
      }
    }
    if Passes(lib, es, [w], today) && Relevant(lib, w) && (exists i :: FirstMismatch(lib, es, vs, today, i))
       && (forall i | FirstMismatch(lib, es, vs, today, i) :: VulnKey(lib, vs[i]) == VulnKey(lib, w))
       && (forall v | v in vs && Relevant(lib, v) :: Excused(lib, es, v, today, false)) {
      ExcusedMeans(lib, es, w, today, true);
      forall k | 0 <= k < |vs| && Relevant(lib, vs[k])
        ensures Excused(lib, es, vs[k], today, First(lib, vs, k) && !Shares(lib, w, vs[k]))
      {
        assert vs[k] in vs;
        SharesMeans(lib, w, vs[k]);
        assert FirstMismatch(lib, es, vs, today, k) ==> Shares(lib, w, vs[k]);
      }
      var i :| FirstMismatch(lib, es, vs, today, i);
      FailingAt(lib, es, vs, today, i);
    }
  }

  predicate Shares(lib: Library, w: Vuln, v: Vuln) {
    Relevant(lib, w) && Identified(lib, w) && VulnKey(lib, v) == VulnKey(lib, w)
  }

  lemma {:induction false} SharesMeans(lib: Library, w: Vuln, v: Vuln)
    ensures Shares(lib, w, v) <==> Relevant(lib, w) && Identified(lib, w) && VulnKey(lib, v) == VulnKey(lib, w)
  {
  }

  lemma {:induction false} Failing(lib: Library, es: seq<Record>, vs: seq<Vuln>, today: int) returns (i: nat)
    requires ExceptionsOK(lib, es) && !Passes(lib, es, vs, today)
    ensures i < |vs| && Relevant(lib, vs[i]) && !Excused(lib, es, vs[i], today, First(lib, vs, i))
  {
    hide ExceptionsOK, Relevant, Excused, First;
    i :| 0 <= i < |vs| && Relevant(lib, vs[i]) && !Excused(lib, es, vs[i], today, First(lib, vs, i));
  }

  lemma {:induction false} FailingAt(lib: Library, es: seq<Record>, vs: seq<Vuln>, today: int, i: int)
    requires FirstMismatch(lib, es, vs, today, i)
    ensures !Passes(lib, es, vs, today)
  {
    hide ExceptionsOK, Relevant, Excused, First;
  }

  /** With w in front, a tuple that shares its key is no longer the first. */
  lemma {:induction false} InFront(lib: Library, es: seq<Record>, w: Vuln, vs: seq<Vuln>, today: int)
    ensures Passes(lib, es, [w] + vs, today) <==>
            && ExceptionsOK(lib, es) && (Relevant(lib, w) ==> Excused(lib, es, w, today, true))
            && forall i | 0 <= i < |vs| && Relevant(lib, vs[i]) ::
                 Excused(lib, es, vs[i], today, First(lib, vs, i) && !Shares(lib, w, vs[i]))
  {
    hide ExceptionsOK, Relevant, Excused, Shares, First;
    var longer := [w] + vs;
    FrontIsFirst(lib, w, vs);
    assert forall i | 1 <= i < |longer| :: longer[i] == vs[i - 1];
  }

  lemma {:induction false} FrontIsFirst(lib: Library, w: Vuln, vs: seq<Vuln>)
    ensures First(lib, [w] + vs, 0)
    ensures forall i | 0 <= i < |vs| :: First(lib, [w] + vs, i + 1) <==> First(lib, vs, i) && !Shares(lib, w, vs[i])
  {
    hide Relevant, Identified, VulnKey;
    var longer := [w] + vs;
    forall i | 0 <= i < |vs| ensures First(lib, longer, i + 1) <==> First(lib, vs, i) && !Shares(lib, w, vs[i]) {
      assert longer[0] == w && longer[i + 1] == vs[i] && forall j | 0 <= j < i :: longer[j + 1] == vs[j];
    }
  }

  /** The first tuple of its key, relevant, with an exception but not one for its severity. */
  ghost predicate FirstMismatch(lib: Library, es: seq<Record>, vs: seq<Vuln>, today: int, i: int) {
    0 <= i < |vs| && First(lib, vs, i) && Mismatched(lib, es, vs[i], today)
  }

  /** There are such tuples, with any library that leaves these lower-case words alone and reads this date. */
  lemma {:induction false} MismatchExample(lib: Library, date: string, today: int)
    requires forall s | s in {"a", "high", "critical"} :: lib.lower(s) == s
    requires date != "" && lib.day(date).Some? && today <= lib.day(date).value
    ensures var e, v, w := ExampleException(date), ExampleTuple("critical"), ExampleTuple("high");
            Passes(lib, [e], [w, v], today) && !Passes(lib, [e], [v], today) && !Passes(lib, [e], [v, w], today)
  {
    hide Passes, Sound, Unexpired, Relevant, Identified, VulnKey, KeyOf, SameSeverity;
    var e := ExampleException(date);
    ExampleIsSound(lib, date, today);
    ExampleCounts(lib, date, "critical");
    ExampleCounts(lib, date, "high");
    FrontTupleHidesMismatch(lib, e, ExampleTuple("critical"), ExampleTuple("high"), today);
  }

  function ExampleException(date: string): Record {
    map["package" := "p", "advisory" := "a", "severity" := "high", "mitigation" := "m", "expires_on" := date]
  }

  function ExampleTuple(severity: string): Vuln {
    Vuln(Str("p"), Str(severity), Str("a"))
  }

  lemma {:induction false} ExampleIsSound(lib: Library, date: string, today: int)
    requires lib.lower("a") == "a" && date != "" && lib.day(date).Some? && today <= lib.day(date).value
    ensures var e := ExampleException(date); Sound(lib, e) && Unexpired(lib, e, today) && KeyOf(lib, e) == ("p", "a")
  {
    StripTrimmed("p");
    StripTrimmed("a");
  }

  lemma {:induction false} ExampleCounts(lib: Library, date: string, severity: string)
    requires forall s | s in {"a", "high", "critical"} :: lib.lower(s) == s
    requires severity in {"high", "critical"}
    ensures var v := ExampleTuple(severity);
            && Relevant(lib, v) && Identified(lib, v) && VulnKey(lib, v) == ("p", "a")
            && (SameSeverity(lib, ExampleException(date), v) <==> severity == "high")
  {
    hide Strip;
    StripTrimmed("p");
    StripTrimmed("a");
    LowerSeverity(lib, "high");
    LowerSeverity(lib, severity);
  }

  lemma {:induction false} LowerSeverity(lib: Library, severity: string)
    requires severity in {"high", "critical"} && lib.lower(severity) == severity
    ensures NormalizeSeverity(lib, Str(severity)) == severity
  {
    StripTrimmed(severity);
  }

  // ----- from the report to the exit code -----

  /** A high or critical advisory with a name but no identifier fails the gate, but a package none of
      whose "via" items identifies an advisory changes nothing, whatever its severity. */
  lemma {:induction false} UnidentifiedEntries(lib: Library, es: seq<Record>, r: Report, today: int, i: nat, p: Package)
    ensures i < |r.advisories| && Relevant(lib, OfAdvisory(r.advisories[i])) && !Identified(lib, OfAdvisory(r.advisories[i]))
            ==> !Passes(lib, es, Tuples(r), today)
    ensures (forall j | 0 <= j < |p.via| :: ViaID(p.via[j]).Falsy()) ==>
            (Passes(lib, es, Tuples(r.(packages := r.packages + [p])), today) <==> Passes(lib, es, Tuples(r), today))
  {
    hide Relevant, Identified, ExceptionsOK, First;
    if i < |r.advisories| {
      assert Tuples(r)[i] == OfAdvisory(r.advisories[i]);
    }
    if forall j | 0 <= j < |p.via| :: ViaID(p.via[j]).Falsy() {
      SilentPackageUnseen(r.advisories, r.packages, p, []);
      assert r.packages + [p] + [] == r.packages + [p] && r.packages + [] == r.packages;
    }
  }

  // ----- spellings -----

  lemma {:induction false} RespelledSound(lib: Library, d: Record, e: Record)
    requires Respelled(lib, d, e)
    ensures Sound(lib, d) <==> Sound(lib, e)
    ensures Sound(lib, d) ==>
      && KeyOf(lib, d) == KeyOf(lib, e) && d["expires_on"] == e["expires_on"]
      && NormalizeSeverity(lib, Str(Get(d, "severity"))) == NormalizeSeverity(lib, Str(Get(e, "severity")))
  {
    hide Strip, SameText, SameWord;
    SoundFields(d);
    SoundFields(e);
    if Complete(d) && Complete(e) {
      SameTextMeans(d["package"], e["package"]);
      SameWordMeans(lib, d["advisory"], e["advisory"]);
      SameWordMeans(lib, d["severity"], e["severity"]);
    }
  }

  lemma {:induction false} RespelledCounts(lib: Library, v: Vuln, w: Vuln)
    requires RespelledVuln(lib, v, w)
    ensures Relevant(lib, v) == Relevant(lib, w) && Identified(lib, v) == Identified(lib, w)
    ensures VulnKey(lib, v) == VulnKey(lib, w) && NormalizeSeverity(lib, v.severity) == NormalizeSeverity(lib, w.severity)
  {
    hide Strip, SameWord;
    SameVulnKey(lib, v, w);
    SameWordMeans(lib, SeverityText(v.severity), SeverityText(w.severity));
  }

  lemma {:induction false} RespelledExcepts(lib: Library, d: Record, e: Record, v: Vuln, w: Vuln, today: int,
                                            first: bool)
    requires Respelled(lib, d, e) && RespelledVuln(lib, v, w) && Sound(lib, d)
    ensures Excepts(lib, d, v, today, first) <==> Excepts(lib, e, w, today, first)
  {
    hide KeyOf, VulnKey, Relevant, Identified, NormalizeSeverity, Respelled, RespelledVuln;
    RespelledSound(lib, d, e);
    RespelledCounts(lib, v, w);
  }

  ghost predicate RespelledAll(lib: Library, es: seq<Record>, es': seq<Record>, vs: seq<Vuln>, vs': seq<Vuln>) {
    && |es| == |es'| && (forall i | 0 <= i < |es| :: Respelled(lib, es[i], es'[i]))
    && |vs| == |vs'| && (forall i | 0 <= i < |vs| :: RespelledVuln(lib, vs[i], vs'[i]))
  }

  /** The exit code does not depend on how anything is spelled. */
  lemma {:induction false} Spelling(lib: Library, es: seq<Record>, es': seq<Record>, vs: seq<Vuln>, vs': seq<Vuln>,
                                    today: int)
    requires RespelledAll(lib, es, es', vs, vs')
    ensures Passes(lib, es, vs, today) <==> Passes(lib, es', vs', today)
  {
    hide Excused, Relevant, First, Respelled, RespelledVuln;
    SpellingOfExceptions(lib, es, es');
    if ExceptionsOK(lib, es) {
      forall i | 0 <= i < |vs|
        ensures Relevant(lib, vs[i]) == Relevant(lib, vs'[i])
        ensures Excused(lib, es, vs[i], today, First(lib, vs, i)) <==> Excused(lib, es', vs'[i], today, First(lib, vs', i))
      {
        RespelledCounts(lib, vs[i], vs'[i]);
        SpellingOfFirst(lib, es, es', vs, vs', i);
        SpellingOfExcuse(lib, es, es', vs[i], vs'[i], today, First(lib, vs, i));
      }
    }
  }

  lemma {:induction false} SpellingOfExceptions(lib: Library, es: seq<Record>, es': seq<Record>)
    requires |es| == |es'| && forall i | 0 <= i < |es| :: Respelled(lib, es[i], es'[i])
    ensures ExceptionsOK(lib, es) <==> ExceptionsOK(lib, es')
  {
    hide Sound, KeyOf, Respelled;
    forall i | 0 <= i < |es|
      ensures Sound(lib, es[i]) <==> Sound(lib, es'[i])
      ensures Sound(lib, es[i]) ==> KeyOf(lib, es[i]) == KeyOf(lib, es'[i])
    {
      RespelledSound(lib, es[i], es'[i]);
    }
    assert forall i | 0 <= i < |es| :: es[i] in es && es'[i] in es';
  }

  lemma {:induction false} SpellingOfFirst(lib: Library, es: seq<Record>, es': seq<Record>, vs: seq<Vuln>,
                                           vs': seq<Vuln>, i: nat)
    requires RespelledAll(lib, es, es', vs, vs') && i < |vs|
    ensures First(lib, vs, i) <==> First(lib, vs', i)
  {
    hide Relevant, Identified, VulnKey, Respelled, RespelledVuln;
    forall j | 0 <= j <= i
      ensures Relevant(lib, vs[j]) == Relevant(lib, vs'[j]) && Identified(lib, vs[j]) == Identified(lib, vs'[j])
      ensures VulnKey(lib, vs[j]) == VulnKey(lib, vs'[j])
    {
      RespelledCounts(lib, vs[j], vs'[j]);
    }
  }

  lemma {:induction false} SpellingOfExcuse(lib: Library, es: seq<Record>, es': seq<Record>, v: Vuln, w: Vuln,
                                            today: int, first: bool)
    requires |es| == |es'| && (forall i | 0 <= i < |es| :: Respelled(lib, es[i], es'[i])) && RespelledVuln(lib, v, w)
    requires forall e | e in es :: Sound(lib, e)
    ensures Excused(lib, es, v, today, first) <==> Excused(lib, es', w, today, first)
  {
    hide Excepts, Sound, Identified, Respelled, RespelledVuln;
    RespelledCounts(lib, v, w);
    forall i | 0 <= i < |es| ensures Excepts(lib, es[i], v, today, first) <==> Excepts(lib, es'[i], w, today, first) {
      RespelledExcepts(lib, es[i], es'[i], v, w, today, first);
    }
    assert forall i | 0 <= i < |es| :: es[i] in es && es'[i] in es';
  }

  /** But package names do differ by case: usable exceptions are no duplicates unless they have one package,
      but for white space, and one advisory. */
  lemma {:induction false} PackagesKeepCase(lib: Library, d: Record, e: Record, today: int)
    requires Usable(lib, d) && Usable(lib, e)
    ensures Passes(lib, [d, e], [], today) <==>
            !(SameText(d["package"], e["package"]) && SameWord(lib, d["advisory"], e["advisory"]))
  {
    hide SameText, SameWord, Sound, KeyOf, Blanks, Reads;
    SoundIsUsable(lib, d);
    SoundIsUsable(lib, e);
    SameKey(lib, d, e);
    assert [d, e][0] == d && [d, e][1] == e;
  }

  /** Whatever else is there, an exception without one of the five fields fails the gate. */
  lemma {:induction false} EveryFieldRequired(lib: Library, es: seq<Record>, vs: seq<Vuln>, today: int, e: Record,
                                              f: string)
    requires e in es && f in {"package", "advisory", "severity", "mitigation", "expires_on"}
    requires f !in e || e[f] == ""
    ensures !Passes(lib, es, vs, today)
  {
    hide Passes, Accepts;
    PassesIsAccepts(lib, es, vs, today);
    NotAccepted(lib, es, vs, today, e);
  }

  lemma {:induction false} NotAccepted(lib: Library, es: seq<Record>, vs: seq<Vuln>, today: int, e: Record)
    requires e in es && !Complete(e)
    ensures !Accepts(lib, es, vs, today)
  {
  }
}
