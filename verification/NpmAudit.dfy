/** The npm advisory gate: which advisories stand behind a package, and which of them the
    exception policy does not cover. */
module NpmAudit {
  import opened Sequences
  import opened Wrappers

  /** One item of a package's "via" list: another package, an advisory, or neither. */
  datatype Source = Package(name: string) | Advisory(url: string) | Unrecognised

  datatype Entry = Details(severity: string, via: seq<Source>) | Malformed

  type Report = map<string, Entry>

  datatype Severity = High | Critical

  datatype AuditException = AuditException(maximumSeverity: Severity, packages: set<string>)

  datatype Failure =
    | MalformedEntry(package: string)
    | UnresolvedChain(package: string)
    | NotAllowed(package: string, advisory: string)
    | PathNotApproved(package: string, advisory: string)
    | SeverityExceeded(package: string, advisory: string)

  const GHSA := "GHSA-"

  function Blocking(severity: string): Option<Severity> {
    if severity == "high" then Some(High) else if severity == "critical" then Some(Critical) else None
  }

  function Rank(severity: Severity): int {
    match severity case High => 1 case Critical => 2
  }

  function WithoutTrailingSlashes(url: string): string {
    if url != "" && url[|url| - 1] == '/' then WithoutTrailingSlashes(url[..|url| - 1]) else url
  }

  function LastSegment(path: string): string {
    if path == "" then "" else if path[|path| - 1] == '/' then ""
    else LastSegment(path[..|path| - 1]) + [path[|path| - 1]]
  }

  function AdvisoryId(url: string): string {
    LastSegment(WithoutTrailingSlashes(url))
  }

  function Via(report: Report, package: string): seq<Source> {
    if package in report && report[package].Details? then report[package].via else []
  }

  /** This item is in the package's "via" list. */
  ghost predicate Lists(report: Report, package: string, source: Source) {
    package in report && report[package].Details? && source in report[package].via
  }

  lemma ViaIsListed(report: Report, package: string, source: Source)
    ensures source in Via(report, package) <==> Lists(report, package, source)
  {}

  /** `advisory` is named by the package's own "via" list. */
  ghost predicate Names(report: Report, package: string, advisory: string) {
    exists source :: Lists(report, package, source) && NamedBy(source, advisory)
  }

  /** The last part of a url, whatever slashes follow it, is this advisory. */
  ghost predicate EndsIn(url: string, advisory: string) {
    && |advisory| >= 5 && advisory[..5] == "GHSA-" && '/' !in advisory
    && exists from: nat :: EndsAt(url, advisory, from)
  }

  ghost predicate EndsAt(url: string, advisory: string, from: nat) {
    && from + |advisory| <= |url| && url[from..from + |advisory|] == advisory
    && (from == 0 || url[from - 1] == '/')
    && forall k :: from + |advisory| <= k < |url| ==> url[k] == '/'
  }

  /** An item names the advisory its url ends in. */
  ghost predicate NamedBy(source: Source, advisory: string) {
    source.Advisory? && EndsIn(source.url, advisory)
  }

  lemma {:induction false} SlashesGo(url: string) returns (n: nat)
    ensures n <= |url| && WithoutTrailingSlashes(url) == url[..n] && (n > 0 ==> url[n - 1] != '/')
    ensures forall k :: n <= k < |url| ==> url[k] == '/'
  {
    n := |url|;
    if url != "" && url[|url| - 1] == '/' {
      n := SlashesGo(url[..|url| - 1]);
    }
  }

  lemma {:induction false} LastPart(path: string) returns (from: nat)
    ensures from <= |path| && LastSegment(path) == path[from..] && '/' !in path[from..] && (from == 0 || path[from - 1] == '/')
  {
    from := |path|;
    if path != "" && path[|path| - 1] != '/' {
      from := LastPart(path[..|path| - 1]);
      assert path[from..] == path[..|path| - 1][from..] + [path[|path| - 1]];
    }
  }

  /** That is the part the walk cuts out. */
  lemma IdExactly(url: string, advisory: string)
    ensures EndsIn(url, advisory) <==> advisory == AdvisoryId(url) && GHSA <= advisory
  {
    var n := SlashesGo(url);
    var from := LastPart(url[..n]);
    assert AdvisoryId(url) == url[from..n];
    if advisory == AdvisoryId(url) && GHSA <= advisory {
      assert advisory[..5] == GHSA;
      assert EndsAt(url, advisory, from);
    }
    if EndsIn(url, advisory) {
      var at: nat :| EndsAt(url, advisory, at);
      SamePart(url, n, from, at, advisory);
      assert GHSA <= advisory;
    }
  }

  lemma SamePart(url: string, n: nat, from: nat, at: nat, advisory: string)
    requires from <= n <= |url| && '/' !in url[from..n] && (from == 0 || url[from - 1] == '/') && (n > 0 ==> url[n - 1] != '/')
    requires forall k :: n <= k < |url| ==> url[k] == '/'
    requires advisory != "" && '/' !in advisory && EndsAt(url, advisory, at)
    ensures at == from && at + |advisory| == n
  {
    var end := at + |advisory|;
    assert forall k :: at <= k < end ==> url[k] == advisory[k - at] && advisory[k - at] in advisory;
    assert forall k :: from <= k < n ==> url[k] == url[from..n][k - from] && url[from..n][k - from] in url[from..n];
    assert url[end - 1] != '/' && end <= n && n <= end;
  }

  /** A walk along "via" edges that stays out of `avoid`. */
  ghost predicate Walk(report: Report, path: seq<string>, avoid: set<string>) {
    && path != []
    && (forall i :: 0 <= i < |path| ==> path[i] !in avoid)
    && (forall i :: 0 <= i < |path| - 1 ==> Lists(report, path[i], Package(path[i + 1])))
  }

  ghost predicate Reaches(report: Report, from: string, to: string, avoid: set<string>) {
    exists path :: Walk(report, path, avoid) && path[0] == from && path[|path| - 1] == to
  }

  /** `advisory` is named somewhere in the part of the graph reachable from `package`. */
  ghost predicate Behind(report: Report, package: string, avoid: set<string>, advisory: string) {
    exists q :: Reaches(report, package, q, avoid) && Names(report, q, advisory)
  }

  /** What one "via" item adds to the advisories of the package that lists it. */
  ghost predicate Contributes(report: Report, source: Source, avoid: set<string>, advisory: string) {
    || NamedBy(source, advisory)
    || (source.Package? && Behind(report, source.name, avoid, advisory))
  }

  /** A walk that returns to its first node can be cut down to one that never does. */
  lemma {:induction false} CutLoop(report: Report, path: seq<string>, avoid: set<string>) returns (cut: seq<string>)
    requires Walk(report, path, avoid)
    ensures Walk(report, cut, avoid) && cut[0] == path[0] && cut[|cut| - 1] == path[|path| - 1]
    ensures forall i :: 1 <= i < |cut| ==> cut[i] != cut[0]
    decreases |path|
  {
    if j :| 1 <= j < |path| && path[j] == path[0] {
      cut := CutLoop(report, path[j..], avoid);
    } else {
      cut := path;
    }
  }

  ghost predicate AnyContributes(report: Report, sources: seq<Source>, avoid: set<string>, advisory: string) {
    exists i :: 0 <= i < |sources| && Contributes(report, sources[i], avoid, advisory)
  }

  lemma AnyContributesOneMore(report: Report, sources: seq<Source>, n: nat, avoid: set<string>, advisory: string)
    requires n < |sources|
    ensures AnyContributes(report, sources[..n + 1], avoid, advisory) <==>
            AnyContributes(report, sources[..n], avoid, advisory) || Contributes(report, sources[n], avoid, advisory)
  {
    if AnyContributes(report, sources[..n], avoid, advisory) {
      var i :| 0 <= i < n && Contributes(report, sources[..n][i], avoid, advisory);
      assert sources[..n + 1][i] == sources[i];
    }
    assert sources[..n + 1][n] == sources[n];
  }

  lemma WalkAway(report: Report, path: seq<string>, avoid: set<string>)
    requires Walk(report, path, avoid) && |path| > 1 && forall i :: 1 <= i < |path| ==> path[i] != path[0]
    ensures Walk(report, path[1..], avoid + {path[0]}) && Lists(report, path[0], Package(path[1]))
  {
    hide Lists;
    var tail := path[1..];
    forall i | 0 <= i < |tail| - 1 ensures Lists(report, tail[i], Package(tail[i + 1])) {
      assert tail[i] == path[i + 1] && tail[i + 1] == path[i + 1 + 1];
    }
  }

  lemma WalkFrom(report: Report, package: string, path: seq<string>, avoid: set<string>)
    requires package !in avoid && Walk(report, path, avoid + {package}) && Lists(report, package, Package(path[0]))
    ensures Walk(report, [package] + path, avoid)
  {
    hide Lists;
    var whole := [package] + path;
    forall j | 0 <= j < |whole| - 1 ensures Lists(report, whole[j], Package(whole[j + 1])) {
      if j > 0 { assert whole[j] == path[j - 1] && whole[j + 1] == path[j - 1 + 1]; }
    }
  }

  lemma ContributesAt(report: Report, sources: seq<Source>, source: Source, avoid: set<string>, advisory: string)
    requires source in sources && Contributes(report, source, avoid, advisory)
    ensures AnyContributes(report, sources, avoid, advisory)
  {
    hide Contributes;
    var i :| 0 <= i < |sources| && sources[i] == source;
    assert Contributes(report, sources[i], avoid, advisory);
  }

  /** Leaving a package for good loses nothing: what is reachable is reachable through one of
      its "via" items without coming back. */
  lemma BehindThroughVia(report: Report, package: string, avoid: set<string>, advisory: string)
    requires Behind(report, package, avoid, advisory)
    ensures AnyContributes(report, Via(report, package), avoid + {package}, advisory)
  {
    hide Lists, NamedBy, AnyContributes;
    var q :| Reaches(report, package, q, avoid) && Names(report, q, advisory);
    var path :| Walk(report, path, avoid) && path[0] == package && path[|path| - 1] == q;
    var cut := CutLoop(report, path, avoid);
    var via := Via(report, package);
    if |cut| == 1 {
      var source :| Lists(report, package, source) && NamedBy(source, advisory);
      ViaIsListed(report, package, source);
      ContributesAt(report, via, source, avoid + {package}, advisory);
    } else {
      WalkAway(report, cut, avoid);
      assert cut[1..][0] == cut[1] && cut[1..][|cut| - 2] == q;
      assert Reaches(report, cut[1], q, avoid + {package});
      assert Behind(report, cut[1], avoid + {package}, advisory);
      ViaIsListed(report, package, Package(cut[1]));
      ContributesAt(report, via, Package(cut[1]), avoid + {package}, advisory);
    }
  }

  lemma NamedIsBehind(report: Report, package: string, avoid: set<string>, advisory: string)
    requires package !in avoid && Names(report, package, advisory)
    ensures Behind(report, package, avoid, advisory)
  {
    hide Names;
    assert Walk(report, [package], avoid) && [package][0] == package;
    assert Reaches(report, package, package, avoid);
  }

  lemma ViaIsBehind(report: Report, package: string, avoid: set<string>, i: nat, advisory: string)
    requires package !in avoid && i < |Via(report, package)|
    requires Contributes(report, Via(report, package)[i], avoid + {package}, advisory)
    ensures Behind(report, package, avoid, advisory)
  {
    hide Lists, NamedBy;
    var source := Via(report, package)[i];
    assert source in Via(report, package);
    ViaIsListed(report, package, source);
    hide Via;
    if NamedBy(source, advisory) {
      NamedIsBehind(report, package, avoid, advisory);
    } else {
      var q :| Reaches(report, source.name, q, avoid + {package}) && Names(report, q, advisory);
      var path :| Walk(report, path, avoid + {package}) && path[0] == source.name && path[|path| - 1] == q;
      WalkFrom(report, package, path, avoid);
      var whole := [package] + path;
      assert whole[0] == package && whole[|whole| - 1] == q;
      assert Reaches(report, package, q, avoid);
    }
  }

  /** One unfolding of reachability, in both directions. */
  lemma BehindUnfolds(report: Report, package: string, avoid: set<string>, advisory: string)
    requires package !in avoid
    ensures Behind(report, package, avoid, advisory) <==>
            AnyContributes(report, Via(report, package), avoid + {package}, advisory)
  {
    if Behind(report, package, avoid, advisory) {
      BehindThroughVia(report, package, avoid, advisory);
    }
    if i :| 0 <= i < |Via(report, package)| && Contributes(report, Via(report, package)[i], avoid + {package}, advisory) {
      ViaIsBehind(report, package, avoid, i, advisory);
    }
  }

  /** The recursive walk with its path-local `seen` terminates on every graph, cycles included,
      and collects exactly the advisories named on packages reachable without entering `seen`. */
  method AdvisoryIds(report: Report, package: string, seen: set<string>) returns (found: set<string>)
    ensures forall advisory :: advisory in found <==> Behind(report, package, seen, advisory)
    decreases report.Keys - seen
  {
    found := {};
    if package in seen {
      forall advisory ensures !Behind(report, package, seen, advisory) {}
      return;
    }
    var via := Via(report, package);
    for i := 0 to |via|
      invariant forall advisory :: advisory in found <==>
                                   AnyContributes(report, via[..i], seen + {package}, advisory)
    {
      forall advisory
        ensures AnyContributes(report, via[..i + 1], seen + {package}, advisory) <==>
                AnyContributes(report, via[..i], seen + {package}, advisory)
                || Contributes(report, via[i], seen + {package}, advisory)
      {
        AnyContributesOneMore(report, via, i, seen + {package}, advisory);
      }
      match via[i] {
        case Package(name) =>
          assert report.Keys - (seen + {package}) < report.Keys - seen by {
            assert package in report.Keys - seen;
          }
          var inner := AdvisoryIds(report, name, seen + {package});
          found := found + inner;
        case Advisory(url) =>
          var id := AdvisoryId(url);
          forall advisory {
            IdExactly(url, advisory);
          }
          if GHSA <= id {
            found := found + {id};
          }
        case Unrecognised =>
      }
    }
    assert via[..|via|] == via;
    forall advisory ensures advisory in found <==> Behind(report, package, seen, advisory) {
      BehindUnfolds(report, package, seen, advisory);
    }
  }

  /** The complaint the policy owes one advisory behind one blocking package. */
  function Complaint(package: string, severity: Severity, advisory: string, allowed: map<string, AuditException>): Option<Failure> {
    if advisory !in allowed then Some(NotAllowed(package, advisory))
    else if package !in allowed[advisory].packages then Some(PathNotApproved(package, advisory))
    else if Rank(severity) > Rank(allowed[advisory].maximumSeverity) then Some(SeverityExceeded(package, advisory))
    else None
  }

  predicate Complains(package: string, severity: Severity, advisories: set<string>, allowed: map<string, AuditException>, failure: Failure) {
    && (failure.NotAllowed? || failure.PathNotApproved? || failure.SeverityExceeded?)
    && failure.advisory in advisories
    && Complaint(package, severity, failure.advisory, allowed) == Some(failure)
  }

  /** What the gate is there to report: a malformed entry; a package of severity "high" or "critical"
      with no advisory behind it; and each advisory behind such a package that has no exception, or one
      that does not name the package, or one for "high" only where the package is "critical". */
  ghost predicate Fails(report: Report, allowed: map<string, AuditException>, failure: Failure) {
    var package := failure.package;
    && package in report
    && match report[package] {
         case Malformed => failure == MalformedEntry(package)
         case Details(severity, _) =>
           && (severity == "high" || severity == "critical")
           && match failure {
                case MalformedEntry(_) => false
                case UnresolvedChain(_) => forall advisory :: !Behind(report, package, {}, advisory)
                case NotAllowed(_, advisory) => Behind(report, package, {}, advisory) && advisory !in allowed
                case PathNotApproved(_, advisory) =>
                  Behind(report, package, {}, advisory) && advisory in allowed && package !in allowed[advisory].packages
                case SeverityExceeded(_, advisory) =>
                  && Behind(report, package, {}, advisory) && advisory in allowed && package in allowed[advisory].packages
                  && severity == "critical" && allowed[advisory].maximumSeverity == High
              }
       }
  }

  lemma ComplaintExactly(report: Report, package: string, allowed: map<string, AuditException>, advisories: set<string>, failure: Failure)
    requires package in report && report[package].Details? && Blocking(report[package].severity).Some?
    requires advisories != {} && forall advisory :: advisory in advisories <==> Behind(report, package, {}, advisory)
    ensures Complains(package, Blocking(report[package].severity).value, advisories, allowed, failure) <==>
              failure.package == package && Fails(report, allowed, failure)
  {
    hide Behind;
    var some :| some in advisories;
    assert Behind(report, package, {}, some);
  }

  lemma BlockingExactly(severity: string)
    ensures Blocking(severity).Some? <==> severity == "high" || severity == "critical"
  {}

  /** The gate reports each failing package and advisory pair, once, and nothing else. */
  method UnapprovedVulnerabilities(report: Report, allowed: map<string, AuditException>) returns (failures: seq<Failure>)
    ensures forall failure :: failure in failures <==> Fails(report, allowed, failure)
    ensures Distinct(failures)
  {
    failures := [];
    var rest := report.Keys;
    while rest != {}
      invariant rest <= report.Keys
      invariant forall failure :: failure in failures <==> failure.package !in rest && Fails(report, allowed, failure)
      invariant Distinct(failures)
      decreases rest
    {
      var package :| package in rest;
      var own := FailuresOf(report, allowed, package);
      DistinctConcat(failures, own);
      rest := rest - {package};
      failures := failures + own;
    }
  }

  method Complaints(package: string, severity: Severity, advisories: set<string>, allowed: map<string, AuditException>)
    returns (failures: seq<Failure>)
    ensures forall failure :: failure in failures <==> Complains(package, severity, advisories, allowed, failure)
    ensures Distinct(failures)
  {
    failures := [];
    var rest := advisories;
    while rest != {}
      invariant rest <= advisories
      invariant forall failure :: failure in failures <==>
                                  Complains(package, severity, advisories - rest, allowed, failure)
      invariant Distinct(failures)
      decreases rest
    {
      var advisory :| advisory in rest;
      var complaint := Complaint(package, severity, advisory, allowed);
      assert complaint.Some? ==> complaint.value !in failures;
      rest := rest - {advisory};
      if complaint.Some? {
        failures := failures + [complaint.value];
      }
    }
    assert advisories - rest == advisories;
  }

  method FailuresOf(report: Report, allowed: map<string, AuditException>, package: string) returns (failures: seq<Failure>)
    requires package in report
    ensures forall failure :: failure in failures <==> failure.package == package && Fails(report, allowed, failure)
    ensures Distinct(failures)
  {
    hide Behind, Rank;
    if report[package].Malformed? {
      return [MalformedEntry(package)];
    }
    var blocking := Blocking(report[package].severity);
    if blocking.None? {
      return [];
    }
    var advisories := AdvisoryIds(report, package, {});
    if advisories == {} {
      return [UnresolvedChain(package)];
    }
    failures := Complaints(package, blocking.value, advisories, allowed);
    forall failure {
      ComplaintExactly(report, package, allowed, advisories, failure);
    }
  }

  /** What passing the gate means, for every report and policy: no entry is malformed, and every
      package of severity "high" or "critical" has an advisory behind it, each of them excused for
      that package and severity. */
  lemma GatePasses(report: Report, allowed: map<string, AuditException>)
    ensures (forall failure :: !Fails(report, allowed, failure)) <==>
            forall package :: package in report ==>
              && report[package].Details?
              && (report[package].severity == "high" || report[package].severity == "critical" ==>
                    && (exists advisory :: Behind(report, package, {}, advisory))
                    && forall advisory :: Behind(report, package, {}, advisory) ==>
                         && advisory in allowed
                         && package in allowed[advisory].packages
                         && (report[package].severity == "critical" ==> allowed[advisory].maximumSeverity == Critical))
  {
    hide Behind;
    if forall failure :: !Fails(report, allowed, failure) {
      forall package | package in report
        ensures report[package].Details?
        ensures report[package].severity == "high" || report[package].severity == "critical" ==> exists advisory :: Behind(report, package, {}, advisory)
      {
        assert !Fails(report, allowed, MalformedEntry(package));
        assert !Fails(report, allowed, UnresolvedChain(package));
      }
      forall package, advisory | package in report && (report[package].severity == "high" || report[package].severity == "critical")
                                 && Behind(report, package, {}, advisory)
        ensures advisory in allowed && package in allowed[advisory].packages
        ensures report[package].severity == "critical" ==> allowed[advisory].maximumSeverity == Critical
      {
        assert !Fails(report, allowed, NotAllowed(package, advisory));
        assert !Fails(report, allowed, PathNotApproved(package, advisory));
        assert !Fails(report, allowed, SeverityExceeded(package, advisory));
      }
    }
  }

  /** The production pass runs with no exceptions: it is clean only when nothing is of severity "high"
      or "critical" at all. */
  lemma ProductionGatePasses(report: Report)
    ensures (forall failure :: !Fails(report, map[], failure)) <==>
            forall package :: package in report ==>
              report[package].Details? && report[package].severity != "high" && report[package].severity != "critical"
  {
    GatePasses(report, map[]);
  }
}
