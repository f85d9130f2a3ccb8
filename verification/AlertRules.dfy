/** Which alert rules a batch of risk events satisfies. */
module AlertRules {
  import opened Sequences
  import opened Wrappers

  datatype Rule = Rule(id: int, organization: int, minSeverity: string, riskTypes: seq<string>, enabled: bool)

  datatype RiskEvent = RiskEvent(id: int, riskType: string, severity: string, affected: Option<seq<string>>)

  datatype Match = Match(rule: Rule, event: RiskEvent, hits: set<string>)

  /** The suppliers an organization watches. */
  type Watchlists = int -> set<string>

  /** Weakest first; a severity nobody classified counts as the weakest. */
  function Rank(severity: string): nat {
    if severity == "critical" then 3 else if severity == "high" then 2 else if severity == "medium" then 1 else 0
  }

  predicate MeetsSeverity(severity: string, minimum: string) {
    Rank(severity) >= Rank(minimum)
  }

  function Affected(event: RiskEvent): set<string> {
    if event.affected.Some? then set s | s in event.affected.value else {}
  }

  function Hits(rule: Rule, event: RiskEvent, watched: Watchlists): set<string> {
    Affected(event) * watched(rule.organization)
  }

  /** The rule is on, the event is of a type it wants and severe enough, and some affected supplier is watched. */
  predicate Satisfies(rule: Rule, event: RiskEvent, watched: Watchlists) {
    && rule.enabled
    && (rule.riskTypes == [] || event.riskType in rule.riskTypes)
    && MeetsSeverity(event.severity, rule.minSeverity)
    && exists s :: s in Affected(event) && s in watched(rule.organization)
  }

  /** The rule is on, wants this kind of event at this severity, and these are the suppliers it watches
      among those affected, at least one. */
  ghost predicate Alerts(rule: Rule, event: RiskEvent, watched: Watchlists, hits: set<string>) {
    && rule.enabled
    && (rule.riskTypes == [] || event.riskType in rule.riskTypes)
    && (rule.minSeverity == "critical" ==> event.severity == "critical")
    && (rule.minSeverity == "high" ==> event.severity == "high" || event.severity == "critical")
    && (rule.minSeverity == "medium" ==> event.severity == "medium" || event.severity == "high" || event.severity == "critical")
    && hits != {}
    && forall s :: s in hits <==> event.affected.Some? && s in event.affected.value && s in watched(rule.organization)
  }

  lemma AlertsExactly(rule: Rule, event: RiskEvent, watched: Watchlists, hits: set<string>)
    ensures Alerts(rule, event, watched, hits) <==> Satisfies(rule, event, watched) && hits == Hits(rule, event, watched)
  {
    HitsAreThere(rule, event, watched);
    SeverityExactly(event.severity, rule.minSeverity);
    hide MeetsSeverity;
    if Alerts(rule, event, watched, hits) {
      assert hits == Hits(rule, event, watched);
    }
  }

  lemma SeverityExactly(severity: string, minimum: string)
    ensures MeetsSeverity(severity, minimum) <==>
              && (minimum == "critical" ==> severity == "critical")
              && (minimum == "high" ==> severity == "high" || severity == "critical")
              && (minimum == "medium" ==> severity == "medium" || severity == "high" || severity == "critical")
  {}

  function Enabled(rules: seq<Rule>): (on: seq<Rule>)
    ensures forall rule :: rule in on <==> rule in rules && rule.enabled
  {
    if rules == [] then []
    else
      assert forall rule :: rule in rules <==> rule in rules[..|rules| - 1] || rule == rules[|rules| - 1];
      Enabled(rules[..|rules| - 1]) + if rules[|rules| - 1].enabled then [rules[|rules| - 1]] else []
  }

  lemma {:induction false} EnabledAreDistinct(rules: seq<Rule>)
    requires Distinct(rules)
    ensures Distinct(Enabled(rules))
  {
    if rules != [] {
      EnabledAreDistinct(rules[..|rules| - 1]);
    }
  }

  /** The matches of one event with some rules, in rule order. */
  function EventMatches(rules: seq<Rule>, event: RiskEvent, watched: Watchlists): seq<Match> {
    if rules == [] then []
    else
      var last := rules[|rules| - 1];
      EventMatches(rules[..|rules| - 1], event, watched) +
        if Satisfies(last, event, watched) then [Match(last, event, Hits(last, event, watched))] else []
  }

  /** All matches, event by event. */
  function AllMatches(rules: seq<Rule>, events: seq<RiskEvent>, watched: Watchlists): seq<Match> {
    if events == [] then []
    else AllMatches(rules, events[..|events| - 1], watched) + EventMatches(rules, events[|events| - 1], watched)
  }

  lemma {:induction false} EventMatchesExactly(rules: seq<Rule>, event: RiskEvent, watched: Watchlists)
    ensures forall m :: m in EventMatches(rules, event, watched) <==>
              m.event == event && m.rule in rules && Satisfies(m.rule, event, watched) && m.hits == Hits(m.rule, event, watched)
    ensures Distinct(rules) ==> Distinct(EventMatches(rules, event, watched))
  {
    if rules != [] {
      hide Satisfies, Hits;
      var init := rules[..|rules| - 1];
      assert rules == init + [rules[|rules| - 1]];
      EventMatchesExactly(init, event, watched);
      assert Distinct(rules) ==> Distinct(init) && rules[|rules| - 1] !in init;
    }
  }

  /** Each pair of a rule and an event is matched exactly when the event satisfies the rule, with the
      watched suppliers it affects, and then exactly once. */
  lemma {:induction false} MatchedExactlyOnce(rules: seq<Rule>, events: seq<RiskEvent>, watched: Watchlists)
    ensures forall m :: m in AllMatches(rules, events, watched) <==>
              m.event in events && m.rule in rules && Satisfies(m.rule, m.event, watched) && m.hits == Hits(m.rule, m.event, watched)
    ensures Distinct(rules) && Distinct(events) ==> Distinct(AllMatches(rules, events, watched))
  {
    if events != [] {
      hide Satisfies, Hits;
      var init, last := events[..|events| - 1], events[|events| - 1];
      assert events == init + [last];
      MatchedExactlyOnce(rules, init, watched);
      EventMatchesExactly(rules, last, watched);
      if Distinct(rules) && Distinct(events) {
        assert last !in init;
        DistinctConcat(AllMatches(rules, init, watched), EventMatches(rules, last, watched));
      }
    }
  }

  /** A match always names a supplier, so an alert is never about nobody. */
  lemma HitsAreThere(rule: Rule, event: RiskEvent, watched: Watchlists)
    ensures (Hits(rule, event, watched) == {}) <==> !exists s :: s in Affected(event) && s in watched(rule.organization)
  {
    if Hits(rule, event, watched) != {} {
      var s :| s in Hits(rule, event, watched);
      assert s in Affected(event) && s in watched(rule.organization);
    }
    if s :| s in Affected(event) && s in watched(rule.organization) {
      assert s in Hits(rule, event, watched);
    }
  }

  lemma {:induction false} NothingAffected(rules: seq<Rule>, event: RiskEvent, watched: Watchlists)
    requires Affected(event) == {}
    ensures EventMatches(rules, event, watched) == []
  {
    if rules != [] {
      NothingAffected(rules[..|rules| - 1], event, watched);
    }
  }

  lemma {:induction false} NoRules(events: seq<RiskEvent>, watched: Watchlists)
    ensures AllMatches([], events, watched) == []
  {
    if events != [] { NoRules(events[..|events| - 1], watched); }
  }

  /** The matches of the rules that are on: a rule and an event exactly when it is to alert, once. */
  lemma EvaluatedExactly(all: seq<Rule>, events: seq<RiskEvent>, watched: Watchlists)
    ensures forall m :: m in AllMatches(Enabled(all), events, watched) <==>
              m.event in events && m.rule in all && Alerts(m.rule, m.event, watched, m.hits)
    ensures Distinct(all) && Distinct(events) ==> Distinct(AllMatches(Enabled(all), events, watched))
  {
    MatchedExactlyOnce(Enabled(all), events, watched);
    if Distinct(all) { EnabledAreDistinct(all); }
    var matches := AllMatches(Enabled(all), events, watched);
    forall m: Match
      ensures m in matches <==> m.event in events && m.rule in all && Alerts(m.rule, m.event, watched, m.hits)
    {
      MatchExactly(all, events, watched, m);
    }
  }

  lemma MatchExactly(all: seq<Rule>, events: seq<RiskEvent>, watched: Watchlists, m: Match)
    ensures m in AllMatches(Enabled(all), events, watched) <==>
              m.event in events && m.rule in all && Alerts(m.rule, m.event, watched, m.hits)
  {
    MatchedExactlyOnce(Enabled(all), events, watched);
    AlertsExactly(m.rule, m.event, watched, m.hits);
    assert Satisfies(m.rule, m.event, watched) ==> m.rule.enabled;
    hide Alerts, Satisfies, Hits;
  }

  /** The double loop, with each organization's watchlist read once. A rule that is on and an event it
      is satisfied by are in the result exactly once, with exactly the watched suppliers affected. */
  method EvaluateRules(all: seq<Rule>, events: seq<RiskEvent>, watched: Watchlists) returns (matches: seq<Match>)
    ensures matches == AllMatches(Enabled(all), events, watched)
    ensures forall m :: m in matches <==> m.event in events && m.rule in all && Alerts(m.rule, m.event, watched, m.hits)
    ensures Distinct(all) && Distinct(events) ==> Distinct(matches)
  {
    EvaluatedExactly(all, events, watched);
    hide Alerts, Satisfies, Hits;
    var rules := Enabled(all);
    matches := [];
    if events == [] || rules == [] {
      NoRules(events, watched);
      return;
    }
    var read: map<int, set<string>> := map[];
    for i := 0 to |rules|
      invariant forall k :: 0 <= k < i ==> rules[k].organization in read
      invariant forall o :: o in read ==> read[o] == watched(o)
    {
      if rules[i].organization !in read {
        read := read[rules[i].organization := watched(rules[i].organization)];
      }
    }
    var e := 0;
    while e < |events|
      invariant e <= |events| && matches == AllMatches(rules, events[..e], watched)
    {
      assert events[..e + 1][..e] == events[..e];
      var more := MatchEvent(rules, events[e], watched, read);
      matches := matches + more;
      e := e + 1;
    }
    assert events[..e] == events;
  }

  method MatchEvent(rules: seq<Rule>, event: RiskEvent, watched: Watchlists, read: map<int, set<string>>) returns (matches: seq<Match>)
    requires forall k :: 0 <= k < |rules| ==> rules[k].enabled
    requires forall k :: 0 <= k < |rules| ==> rules[k].organization in read && read[rules[k].organization] == watched(rules[k].organization)
    ensures matches == EventMatches(rules, event, watched)
  {
    matches := [];
    var affected := Affected(event);
    if affected == {} {
      NothingAffected(rules, event, watched);
      return;
    }
    var r := 0;
    while r < |rules|
      invariant r <= |rules| && matches == EventMatches(rules[..r], event, watched)
    {
      var rule := rules[r];
      assert rules[..r + 1][..r] == rules[..r];
      HitsAreThere(rule, event, watched);
      var hits := affected * read[rule.organization];
      if (rule.riskTypes == [] || event.riskType in rule.riskTypes) && MeetsSeverity(event.severity, rule.minSeverity) && hits != {} {
        matches := matches + [Match(rule, event, hits)];
      }
      r := r + 1;
    }
    assert rules[..r] == rules;
  }
}
