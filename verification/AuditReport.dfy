/** The two shapes of a dependency audit report, and the tuples they are flattened into. */
module AuditReport {
  import opened Wrappers

  /** A scalar of the report's JSON; `shown` is what str() makes of a number. */
  datatype Scalar = Null | Str(s: string) | Num(zero: bool, shown: string) {
    predicate Falsy() {
      match this
      case Null => true
      case Str(s) => s == ""
      case Num(zero, _) => zero
    }

    /** The text that normalising starts from: nothing for a null. */
    function Shown(): string {
      match this
      case Null => ""
      case Str(s) => s
      case Num(_, shown) => shown
    }
  }

  /** One tuple, without its title, which no decision depends on. */
  datatype Vuln = Vuln(name: Scalar, severity: Scalar, advisory: Scalar)

  type Object = map<string, Scalar>

  function Field(o: Object, key: string): Scalar {
    if key in o then o[key] else Null
  }

  /** An entry of "advisories". */
  datatype Advisory = Advisory(fields: Object, cves: seq<Scalar>)

  /** An item of a package's "via": an object, a string, or something that is neither. */
  datatype Via = ViaObject(fields: Object) | ViaText(s: string) | ViaOther

  /** An entry of "vulnerabilities"; a single string counts as a list of itself. */
  datatype Package = Package(name: string, severity: Scalar, via: seq<Via>)

  datatype Report = Report(advisories: seq<Advisory>, packages: seq<Package>)

  /** A chain of Python's `or`. */
  function AnyOf(candidates: seq<Scalar>): Scalar
    requires candidates != []
  {
    if |candidates| == 1 || !candidates[0].Falsy() then candidates[0] else AnyOf(candidates[1..])
  }

  /** It gives the first entry that is not falsy, or the last one. */
  lemma {:induction false} AnyOfIsFirst(candidates: seq<Scalar>) returns (k: nat)
    requires candidates != []
    ensures k < |candidates| && AnyOf(candidates) == candidates[k]
    ensures forall j | 0 <= j < k :: candidates[j].Falsy()
    ensures candidates[k].Falsy() ==> k == |candidates| - 1
  {
    if |candidates| == 1 || !candidates[0].Falsy() {
      k := 0;
    } else {
      var j := AnyOfIsFirst(candidates[1..]);
      k := j + 1;
    }
  }

  /** pick_advisory_id: the most stable kinds of identifier first; a numeric id counts even when it
      is zero. */
  function PickAdvisoryID(a: Advisory): Scalar {
    AnyOf([
      Field(a.fields, "github_advisory_id"), Field(a.fields, "url"),
      if a.cves == [] then Null else a.cves[0],
      if Field(a.fields, "id").Null? then Null else Str(Field(a.fields, "id").Shown()),
      Field(a.fields, "title"), Field(a.fields, "advisory"), Field(a.fields, "overview")])
  }

  function ViaID(v: Via): Scalar {
    match v
    case ViaObject(o) =>
      AnyOf([Field(o, "github_advisory_id"), Field(o, "url"), Field(o, "source"), Field(o, "title"), Field(o, "name")])
    case ViaText(s) => Str(s)
    case ViaOther => Null
  }

  function OfAdvisory(a: Advisory): Vuln {
    Vuln(AnyOf([Field(a.fields, "module_name"), Field(a.fields, "name")]), Field(a.fields, "severity"), PickAdvisoryID(a))
  }

  /** One tuple per item of "via" that identifies an advisory. */
  function OfPackage(p: Package, k: nat): seq<Vuln>
    requires k <= |p.via|
  {
    if k == 0 then []
    else
      OfPackage(p, k - 1)
      + (if ViaID(p.via[k - 1]).Falsy() then [] else [Vuln(Str(p.name), p.severity, ViaID(p.via[k - 1]))])
  }

  function OfPackages(ps: seq<Package>): seq<Vuln> {
    if ps == [] then [] else OfPackages(ps[..|ps| - 1]) + OfPackage(ps[|ps| - 1], |ps[|ps| - 1].via|)
  }

  function Tuples(r: Report): seq<Vuln> {
    seq(|r.advisories|, i requires 0 <= i < |r.advisories| => OfAdvisory(r.advisories[i])) + OfPackages(r.packages)
  }

  // ----- what the tuples hold, in terms of the report's fields -----

  /** Something that can serve as a name or an identifier: a text or a number, not empty and not zero. */
  predicate Telling(v: Scalar) {
    (v.Str? && v.s != "") || (v.Num? && !v.zero)
  }

  predicate Offers(o: Object, key: string) {
    key in o && Telling(o[key])
  }

  /** What the report says of an advisory's identity: its GitHub id, or else its URL, or else its first CVE,
      or else its number, which may be zero, or else a text that describes it. */
  predicate IdentifiesAdvisory(a: Advisory, id: Scalar) {
    if Offers(a.fields, "github_advisory_id") then id == a.fields["github_advisory_id"]
    else if Offers(a.fields, "url") then id == a.fields["url"]
    else if |a.cves| > 0 && Telling(a.cves[0]) then id == a.cves[0]
    else if "id" in a.fields && a.fields["id"].Num? && a.fields["id"].shown != "" then id == Str(a.fields["id"].shown)
    else if "id" in a.fields && a.fields["id"].Str? && a.fields["id"].s != "" then id == a.fields["id"]
    else if Offers(a.fields, "title") then id == a.fields["title"]
    else if Offers(a.fields, "advisory") then id == a.fields["advisory"]
    else id == (if "overview" in a.fields then a.fields["overview"] else Null)
  }

  predicate NamesAdvisory(a: Advisory, name: Scalar) {
    if Offers(a.fields, "module_name") then name == a.fields["module_name"]
    else name == (if "name" in a.fields then a.fields["name"] else Null)
  }

  /** The same for an item of "via" that has a usable identity. */
  predicate IdentifiesItem(v: Via, id: Scalar) {
    match v
    case ViaText(s) => s != "" && id == Str(s)
    case ViaOther => false
    case ViaObject(o) =>
      if Offers(o, "github_advisory_id") then id == o["github_advisory_id"]
      else if Offers(o, "url") then id == o["url"]
      else if Offers(o, "source") then id == o["source"]
      else if Offers(o, "title") then id == o["title"]
      else Offers(o, "name") && id == o["name"]
  }

  /** The tuple of an advisory: its own severity, or none, with its name and identity. */
  predicate TellsOfAdvisory(v: Vuln, a: Advisory) {
    && NamesAdvisory(a, v.name) && IdentifiesAdvisory(a, v.advisory)
    && v.severity == (if "severity" in a.fields then a.fields["severity"] else Null)
  }

  /** The tuple of one "via" item: name and severity are the package's own. */
  predicate TellsOfItem(v: Vuln, p: Package, k: nat)
    requires k < |p.via|
  {
    v.name == Str(p.name) && v.severity == p.severity && IdentifiesItem(p.via[k], v.advisory)
  }

  ghost predicate Ascending(from: seq<(nat, nat)>) {
    forall s, t | 0 <= s < t < |from| :: from[s].0 < from[t].0 || (from[s].0 == from[t].0 && from[s].1 < from[t].1)
  }

  /** There is one tuple for each item that identifies an advisory, and no other, in the order of packages
      and of items. */
  ghost predicate TellsOfPackages(vs: seq<Vuln>, ps: seq<Package>, from: seq<(nat, nat)>) {
    && |from| == |vs| && Ascending(from)
    && (forall t | 0 <= t < |vs| ::
          from[t].0 < |ps| && from[t].1 < |ps[from[t].0].via| && TellsOfItem(vs[t], ps[from[t].0], from[t].1))
    && forall i: nat, k: nat, id | i < |ps| && k < |ps[i].via| && IdentifiesItem(ps[i].via[k], id) :: (i, k) in from
  }

  lemma {:induction false} AnyOfTwo(a: Scalar, b: Scalar)
    ensures AnyOf([a, b]) == if a.Falsy() then b else a
  {
    assert [a, b][1..] == [b];
  }

  lemma {:induction false} AnyOfMore(a: Scalar, rest: seq<Scalar>)
    requires rest != []
    ensures AnyOf([a] + rest) == if a.Falsy() then AnyOf(rest) else a
  {
    assert ([a] + rest)[1..] == rest;
  }

  lemma {:induction false} AnyOfFive(a: Scalar, b: Scalar, c: Scalar, d: Scalar, e: Scalar)
    ensures AnyOf([a, b, c, d, e])
         == if !a.Falsy() then a else if !b.Falsy() then b else if !c.Falsy() then c else if !d.Falsy() then d else e
  {
    hide AnyOf;
    assert [a, b, c, d, e] == [a] + ([b] + ([c] + [d, e]));
    AnyOfMore(a, [b] + ([c] + [d, e]));
    AnyOfMore(b, [c] + [d, e]);
    AnyOfMore(c, [d, e]);
    AnyOfTwo(d, e);
  }

  lemma {:induction false} AnyOfSeven(a: Scalar, b: Scalar, c: Scalar, d: Scalar, e: Scalar, f: Scalar, g: Scalar)
    ensures AnyOf([a, b, c, d, e, f, g])
         == if !a.Falsy() then a else if !b.Falsy() then b else AnyOf([c, d, e, f, g])
  {
    hide AnyOf;
    assert [a, b, c, d, e, f, g] == [a] + ([b] + [c, d, e, f, g]);
    AnyOfMore(a, [b] + [c, d, e, f, g]);
    AnyOfMore(b, [c, d, e, f, g]);
  }

  lemma {:induction false} AdvisoryTold(a: Advisory)
    ensures TellsOfAdvisory(OfAdvisory(a), a)
  {
    hide AnyOf;
    var f := a.fields;
    var cve := if a.cves == [] then Null else a.cves[0];
    var number := if Field(f, "id").Null? then Null else Str(Field(f, "id").Shown());
    AnyOfTwo(Field(f, "module_name"), Field(f, "name"));
    AnyOfSeven(Field(f, "github_advisory_id"), Field(f, "url"), cve, number, Field(f, "title"), Field(f, "advisory"),
               Field(f, "overview"));
    AnyOfFive(cve, number, Field(f, "title"), Field(f, "advisory"), Field(f, "overview"));
  }

  lemma {:induction false} ItemTold(v: Via)
    ensures !ViaID(v).Falsy() ==> IdentifiesItem(v, ViaID(v))
    ensures forall id | IdentifiesItem(v, id) :: ViaID(v) == id && !id.Falsy()
  {
    hide AnyOf;
    if v.ViaObject? {
      var o := v.fields;
      AnyOfFive(Field(o, "github_advisory_id"), Field(o, "url"), Field(o, "source"), Field(o, "title"), Field(o, "name"));
    }
  }

  /** Which items of one package the tuples come from. */
  ghost predicate FromItems(vs: seq<Vuln>, p: Package, ks: seq<nat>, n: nat)
    requires n <= |p.via|
  {
    && |ks| == |vs| && (forall s, t | 0 <= s < t < |ks| :: ks[s] < ks[t])
    && (forall t | 0 <= t < |vs| :: ks[t] < n && TellsOfItem(vs[t], p, ks[t]))
    && forall k: nat, id | k < n && IdentifiesItem(p.via[k], id) :: k in ks
  }

  lemma {:induction false} PackageTold(p: Package, n: nat) returns (ks: seq<nat>)
    requires n <= |p.via|
    ensures FromItems(OfPackage(p, n), p, ks, n)
  {
    hide ViaID, IdentifiesItem;
    ks := [];
    if n > 0 {
      ks := PackageTold(p, n - 1);
      ItemTold(p.via[n - 1]);
      if !ViaID(p.via[n - 1]).Falsy() {
        ks := ks + [n - 1];
        assert n - 1 in ks;
      }
    }
  }

  lemma {:induction false} PackagesTold(ps: seq<Package>) returns (from: seq<(nat, nat)>)
    ensures TellsOfPackages(OfPackages(ps), ps, from)
  {
    hide OfPackage, TellsOfItem, IdentifiesItem;
    from := [];
    if ps != [] {
      var n := |ps| - 1;
      var before := PackagesTold(ps[..n]);
      var ks := PackageTold(ps[n], |ps[n].via|);
      var last := seq(|ks|, t requires 0 <= t < |ks| => (n, ks[t]));
      from := before + last;
      TellsOfMore(OfPackages(ps[..n]), OfPackage(ps[n], |ps[n].via|), ps, before, ks, last);
    }
  }

  lemma {:induction false} TellsOfMore(vs: seq<Vuln>, ws: seq<Vuln>, ps: seq<Package>, before: seq<(nat, nat)>,
                                       ks: seq<nat>, last: seq<(nat, nat)>)
    requires ps != [] && TellsOfPackages(vs, ps[..|ps| - 1], before)
    requires FromItems(ws, ps[|ps| - 1], ks, |ps[|ps| - 1].via|)
    requires |last| == |ks| && forall t | 0 <= t < |ks| :: last[t] == (|ps| - 1, ks[t])
    ensures TellsOfPackages(vs + ws, ps, before + last)
  {
    hide TellsOfItem, IdentifiesItem;
    var n, from := |ps| - 1, before + last;
    forall i: nat, k: nat, id | i < |ps| && k < |ps[i].via| && IdentifiesItem(ps[i].via[k], id) ensures (i, k) in from {
      if i == n {
        assert k in ks;
        var t :| 0 <= t < |ks| && ks[t] == k;
        assert from[|before| + t] == (i, k);
      } else {
        assert ps[..n][i] == ps[i] && (i, k) in before;
      }
    }
  }

  /** The tuples are those of the advisories, then those of the packages, each in order. */
  method IterVulns(r: Report) returns (vs: seq<Vuln>, ghost from: seq<(nat, nat)>)
    ensures vs == Tuples(r)
    ensures |vs| >= |r.advisories| && forall i | 0 <= i < |r.advisories| :: TellsOfAdvisory(vs[i], r.advisories[i])
    ensures TellsOfPackages(vs[|r.advisories|..], r.packages, from)
  {
    hide OfPackage, OfAdvisory, TellsOfAdvisory, TellsOfPackages;
    vs := [];
    for i := 0 to |r.advisories|
      invariant vs == seq(i, j requires 0 <= j < i => OfAdvisory(r.advisories[j]))
    {
      vs := vs + [OfAdvisory(r.advisories[i])];
    }
    ghost var first := vs;
    for i := 0 to |r.packages|
      invariant vs == first + OfPackages(r.packages[..i])
    {
      vs := YieldPackage(r.packages[i], vs);
      assert r.packages[..i + 1][..i] == r.packages[..i];
    }
    assert r.packages[..|r.packages|] == r.packages;
    forall i | 0 <= i < |r.advisories| ensures TellsOfAdvisory(vs[i], r.advisories[i]) {
      AdvisoryTold(r.advisories[i]);
    }
    from := PackagesTold(r.packages);
    assert vs[|r.advisories|..] == OfPackages(r.packages);
  }

  /** The body of the second loop: first the identifiers are collected, then a tuple each. */
  method YieldPackage(p: Package, before: seq<Vuln>) returns (vs: seq<Vuln>)
    ensures vs == before + OfPackage(p, |p.via|)
  {
    var ids: seq<Scalar> := [];
    for k := 0 to |p.via|
      invariant Named(p, ids) == OfPackage(p, k)
    {
      var id := ViaID(p.via[k]);
      if !id.Falsy() {
        NamedAppend(p, ids, id);
        ids := ids + [id];
      }
    }
    vs := before;
    for k := 0 to |ids|
      invariant vs == before + Named(p, ids[..k])
    {
      NamedAppend(p, ids[..k], ids[k]);
      assert ids[..k + 1] == ids[..k] + [ids[k]];
      vs := vs + [Vuln(Str(p.name), p.severity, ids[k])];
    }
    assert ids[..|ids|] == ids;
  }

  ghost function Named(p: Package, ids: seq<Scalar>): seq<Vuln> {
    if ids == [] then [] else Named(p, ids[..|ids| - 1]) + [Vuln(Str(p.name), p.severity, ids[|ids| - 1])]
  }

  lemma {:induction false} NamedAppend(p: Package, ids: seq<Scalar>, id: Scalar)
    ensures Named(p, ids + [id]) == Named(p, ids) + [Vuln(Str(p.name), p.severity, id)]
  {
    assert (ids + [id])[..|ids|] == ids;
  }

  /** A package without an identifying item leaves no trace, whatever its severity. */
  lemma {:induction false} SilentPackage(p: Package, k: nat)
    requires k <= |p.via|
    ensures OfPackage(p, k) == [] <==> forall j | 0 <= j < k :: ViaID(p.via[j]).Falsy()
  {
    if k > 0 {
      SilentPackage(p, k - 1);
    }
  }

  lemma {:induction false} OfPackagesConcat(ps: seq<Package>, qs: seq<Package>)
    ensures OfPackages(ps + qs) == OfPackages(ps) + OfPackages(qs)
  {
    hide OfPackage;
    if qs == [] {
      assert ps + qs == ps;
    } else {
      OfPackagesConcat(ps, qs[..|qs| - 1]);
      assert (ps + qs)[..|ps + qs| - 1] == ps + qs[..|qs| - 1];
    }
  }

  /** Such a package may as well not be in the report. */
  lemma {:induction false} SilentPackageUnseen(advisories: seq<Advisory>, before: seq<Package>, p: Package,
                                               after: seq<Package>)
    requires forall j | 0 <= j < |p.via| :: ViaID(p.via[j]).Falsy()
    ensures Tuples(Report(advisories, before + [p] + after)) == Tuples(Report(advisories, before + after))
  {
    hide OfPackage, ViaID;
    SilentPackage(p, |p.via|);
    OfPackagesConcat(before + [p], after);
    OfPackagesConcat(before, [p]);
    OfPackagesConcat(before, after);
    assert [p][..0] == [] && OfPackages([]) == [] && OfPackages([p]) == [];
  }
}
