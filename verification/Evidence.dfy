/** Which risk events a tool result speaks of, and which of a model's citations survive the check
    against them. */
module Evidence {
  import opened Text
  import opened Wrappers

  datatype Json =
    | Null
    | Bool(b: bool)
    | Number(n: real)
    | Str(s: string)
    | Arr(items: seq<Json>)
    | Obj(fields: map<string, Json>)

  /** The key an object names itself, if it is a non-empty string. */
  function OwnKey(payload: Json): set<string> {
    if payload.Obj? && "event_key" in payload.fields && payload.fields["event_key"].Str? && payload.fields["event_key"].s != ""
    then {payload.fields["event_key"].s}
    else {}
  }

  /** Every event key anywhere in a payload. */
  function KeysIn(payload: Json): set<string> {
    match payload
    case Obj(fields) => OwnKey(payload) + set name, key | name in fields && key in KeysIn(fields[name]) :: key
    case Arr(items) => set i, key | 0 <= i < |items| && key in KeysIn(items[i]) :: key
    case _ => {}
  }

  /** A way into a payload: the field or the index taken at each level. */
  datatype Move = Field(name: string) | Index(i: nat)

  function At(payload: Json, path: seq<Move>): Option<Json>
    decreases path
  {
    if path == [] then Some(payload)
    else
      match path[0] {
        case Field(name) =>
          if payload.Obj? && name in payload.fields then At(payload.fields[name], path[1..]) else None
        case Index(i) =>
          if payload.Arr? && i < |payload.items| then At(payload.items[i], path[1..]) else None
      }
  }

  ghost predicate NamedAt(payload: Json, path: seq<Move>, key: string) {
    var found := At(payload, path);
    && found.Some? && found.value.Obj? && "event_key" in found.value.fields
    && found.value.fields["event_key"] == Str(key) && key != ""
  }

  /** Some object at some depth names this event. */
  ghost predicate Occurs(payload: Json, key: string) {
    exists path :: NamedAt(payload, path, key)
  }

  /** The recursive walk finds exactly the keys that occur. */
  lemma KeysAreThoseThatOccur(payload: Json, key: string)
    ensures key in KeysIn(payload) <==> Occurs(payload, key)
  {
    if key in KeysIn(payload) {
      FoundOccurs(payload, key);
    }
    if Occurs(payload, key) {
      var path :| NamedAt(payload, path, key);
      OccurringIsFound(payload, path, key);
    }
  }

  lemma {:induction false} FoundOccurs(payload: Json, key: string)
    requires key in KeysIn(payload)
    ensures Occurs(payload, key)
  {
    if key in OwnKey(payload) {
      assert NamedAt(payload, [], key);
    } else if payload.Obj? {
      var name :| name in payload.fields && key in KeysIn(payload.fields[name]);
      FoundOccurs(payload.fields[name], key);
      var path :| NamedAt(payload.fields[name], path, key);
      assert NamedAt(payload, [Field(name)] + path, key);
    } else {
      var i :| 0 <= i < |payload.items| && key in KeysIn(payload.items[i]);
      FoundOccurs(payload.items[i], key);
      var path :| NamedAt(payload.items[i], path, key);
      assert NamedAt(payload, [Index(i)] + path, key);
    }
  }

  lemma {:induction false} OccurringIsFound(payload: Json, path: seq<Move>, key: string)
    requires NamedAt(payload, path, key)
    ensures key in KeysIn(payload)
    decreases path
  {
    if path != [] {
      match path[0]
      case Field(name) => OccurringIsFound(payload.fields[name], path[1..], key);
      case Index(i) => OccurringIsFound(payload.items[i], path[1..], key);
    }
  }

  // ----- Proposals

  /** What `x or default` tests. */
  predicate Truthy(value: Json) {
    match value
    case Null => false
    case Bool(b) => b
    case Number(n) => n != 0.0
    case Str(s) => s != ""
    case Arr(items) => items != []
    case Obj(fields) => fields != map[]
  }

  /** How a value that is not a string is spelled when it is turned into one. */
  type Spelling = Json -> string

  function Get(item: Json, name: string): Json {
    if item.Obj? && name in item.fields then item.fields[name] else Null
  }

  function TextOf(spell: Spelling, value: Json): string {
    if !Truthy(value) then "" else if value.Str? then Strip(value.s) else Strip(spell(value))
  }

  predicate Titled(spell: Spelling, item: Json) {
    item.Obj? && TextOf(spell, Get(item, "title")) != ""
  }

  function Strings(items: seq<Json>): seq<string> {
    if items == [] then []
    else Strings(items[..|items| - 1]) + if items[|items| - 1].Str? then [items[|items| - 1].s] else []
  }

  /** The string citations of a proposal. A string is walked character by character and an object
      name by name, in an order given by `names`; a number or a boolean cannot be walked. */
  function Cited(names: set<string> -> seq<string>, item: Json): Result<seq<string>, ()> {
    var value := Get(item, "evidence_event_keys");
    if !Truthy(value) then Ok([])
    else
      match value
      case Arr(items) => Ok(Strings(items))
      case Str(s) => Ok(seq(|s|, i requires 0 <= i < |s| => [s[i]]))
      case Obj(fields) => Ok(names(fields.Keys))
      case _ => Err(())
  }

  function Verified(cited: seq<string>, verified: set<string>): seq<string> {
    if cited == [] then []
    else Verified(cited[..|cited| - 1], verified) + if cited[|cited| - 1] in verified then [cited[|cited| - 1]] else []
  }

  function Outside(cited: seq<string>, verified: set<string>): seq<string> {
    if cited == [] then []
    else Outside(cited[..|cited| - 1], verified) + if cited[|cited| - 1] in verified then [] else [cited[|cited| - 1]]
  }

  /** Every citation is kept or dropped, exactly once. */
  lemma {:induction false} KeptOrDropped(cited: seq<string>, verified: set<string>)
    ensures multiset(cited) == multiset(Verified(cited, verified)) + multiset(Outside(cited, verified))
    ensures forall key :: key in Verified(cited, verified) ==> key in verified
    ensures forall key :: key in Outside(cited, verified) ==> key !in verified
  {
    if cited != [] {
      var init := cited[..|cited| - 1];
      assert cited == init + [cited[|cited| - 1]];
      KeptOrDropped(init, verified);
    }
  }

  datatype Recommendation = Recommendation(ordinal: nat, title: string, rationale: string, evidence: seq<string>)

  /** The citations of every titled proposal, in order; `Err` where one cannot be walked. */
  function AllCited(spell: Spelling, names: set<string> -> seq<string>, proposed: seq<Json>): Result<seq<string>, ()> {
    if proposed == [] then Ok([])
    else
      var before := AllCited(spell, names, proposed[..|proposed| - 1]);
      var last := proposed[|proposed| - 1];
      if before.Err? || !Titled(spell, last) then before
      else if Cited(names, last).Err? then Err(())
      else Ok(before.value + Cited(names, last).value)
  }

  function AllEvidence(stored: seq<Recommendation>): seq<string> {
    if stored == [] then [] else AllEvidence(stored[..|stored| - 1]) + stored[|stored| - 1].evidence
  }

  /** A proposal supported by at least one verified citation. */
  predicate Supported(spell: Spelling, names: set<string> -> seq<string>, item: Json, verified: set<string>) {
    Titled(spell, item) && Cited(names, item).Ok? && Verified(Cited(names, item).value, verified) != []
  }

  function First(n: nat, s: string): string {
    if |s| <= n then s else s[..n]
  }

  /** The row for a supported proposal: its title, its rationale and its verified citations. */
  function RowFor(spell: Spelling, names: set<string> -> seq<string>, item: Json, verified: set<string>, ordinal: nat): Recommendation
    requires Supported(spell, names, item, verified)
  {
    Recommendation(ordinal, First(300, TextOf(spell, Get(item, "title"))), TextOf(spell, Get(item, "rationale")),
                   Verified(Cited(names, item).value, verified))
  }

  function Stored(spell: Spelling, names: set<string> -> seq<string>, proposed: seq<Json>, verified: set<string>): seq<Recommendation> {
    if proposed == [] then []
    else
      var before := Stored(spell, names, proposed[..|proposed| - 1], verified);
      var last := proposed[|proposed| - 1];
      if Supported(spell, names, last, verified) then before + [RowFor(spell, names, last, verified, |before|)] else before
  }

  ghost predicate RestsOn(row: Recommendation, verified: set<string>) {
    row.evidence != [] && forall key :: key in row.evidence ==> key in verified
  }

  lemma RowRests(spell: Spelling, names: set<string> -> seq<string>, item: Json, verified: set<string>, ordinal: nat)
    requires Supported(spell, names, item, verified)
    ensures RowFor(spell, names, item, verified, ordinal).ordinal == ordinal
    ensures RestsOn(RowFor(spell, names, item, verified, ordinal), verified)
  {
    hide Cited, Verified;
    KeptOrDropped(Cited(names, item).value, verified);
  }

  /** Rows are numbered without gaps and each rests on verified citations, at least one. */
  ghost predicate SoundRows(stored: seq<Recommendation>, verified: set<string>) {
    forall k :: 0 <= k < |stored| ==> stored[k].ordinal == k && RestsOn(stored[k], verified)
  }

  lemma {:induction false} StoredIsSound(spell: Spelling, names: set<string> -> seq<string>, proposed: seq<Json>, verified: set<string>)
    ensures SoundRows(Stored(spell, names, proposed, verified), verified)
  {
    hide Supported, RowFor, RestsOn;
    if proposed != [] {
      var last := proposed[|proposed| - 1];
      var before := Stored(spell, names, proposed[..|proposed| - 1], verified);
      StoredIsSound(spell, names, proposed[..|proposed| - 1], verified);
      if Supported(spell, names, last, verified) {
        RowRests(spell, names, last, verified, |before|);
      }
    }
  }

  /** No supported proposal is lost. */
  lemma {:induction false} SupportedIsStored(spell: Spelling, names: set<string> -> seq<string>, proposed: seq<Json>, verified: set<string>, i: nat)
    returns (k: nat)
    requires i < |proposed| && Supported(spell, names, proposed[i], verified)
    ensures k < |Stored(spell, names, proposed, verified)|
    ensures Stored(spell, names, proposed, verified)[k] == RowFor(spell, names, proposed[i], verified, k)
  {
    var init := proposed[..|proposed| - 1];
    if i < |init| {
      assert init[i] == proposed[i];
      k := SupportedIsStored(spell, names, init, verified, i);
    } else {
      k := |Stored(spell, names, init, verified)|;
    }
  }

  /** All stored evidence together is all verified citations, in order. */
  lemma {:induction false} StoredEvidence(spell: Spelling, names: set<string> -> seq<string>, proposed: seq<Json>, verified: set<string>)
    requires AllCited(spell, names, proposed).Ok?
    ensures AllEvidence(Stored(spell, names, proposed, verified)) == Verified(AllCited(spell, names, proposed).value, verified)
  {
    if proposed != [] {
      var init, last := proposed[..|proposed| - 1], proposed[|proposed| - 1];
      StoredEvidence(spell, names, init, verified);
      if Titled(spell, last) {
        VerifiedConcat(AllCited(spell, names, init).value, Cited(names, last).value, verified);
        var before := Stored(spell, names, init, verified);
        if Supported(spell, names, last, verified) {
          var row := RowFor(spell, names, last, verified, |before|);
          assert (before + [row])[..|before|] == before;
        }
      }
    }
  }

  /** Every string citation of a titled proposal is in exactly one of the stored evidence and the
      dropped citations. */
  lemma CitationsAreConserved(spell: Spelling, names: set<string> -> seq<string>, proposed: seq<Json>, verified: set<string>)
    requires AllCited(spell, names, proposed).Ok?
    ensures var cited := AllCited(spell, names, proposed).value;
            && multiset(cited) == multiset(AllEvidence(Stored(spell, names, proposed, verified))) + multiset(Outside(cited, verified))
            && forall key :: key in Outside(cited, verified) ==> key !in verified
  {
    StoredEvidence(spell, names, proposed, verified);
    KeptOrDropped(AllCited(spell, names, proposed).value, verified);
  }

  /** Persist what survives; `Err` where a citation list cannot be walked, and nothing is persisted. */
  method StoreRecommendations(spell: Spelling, names: set<string> -> seq<string>, proposed: seq<Json>, verified: set<string>)
    returns (result: Result<(seq<Recommendation>, seq<string>), ()>)
    ensures result.Ok? == AllCited(spell, names, proposed).Ok?
    ensures result.Ok? ==> result.value == (Stored(spell, names, proposed, verified), Outside(AllCited(spell, names, proposed).value, verified))
  {
    var stored, dropped: seq<string> := [], [];
    var i := 0;
    while i < |proposed|
      invariant i <= |proposed|
      invariant AllCited(spell, names, proposed[..i]).Ok?
      invariant stored == Stored(spell, names, proposed[..i], verified)
      invariant dropped == Outside(AllCited(spell, names, proposed[..i]).value, verified)
    {
      var item := proposed[i];
      ghost var seen := AllCited(spell, names, proposed[..i]).value;
      assert proposed[..i + 1][..i] == proposed[..i];
      i := i + 1;
      if !item.Obj? {
        continue;
      }
      var title := TextOf(spell, Get(item, "title"));
      if title == "" {
        continue;
      }
      var cited := Cited(names, item);
      if cited.Err? {
        ErrStays(spell, names, proposed, i);
        return Err(());
      }
      VerifiedConcat(seen, cited.value, verified);
      var kept := Verified(cited.value, verified);
      dropped := dropped + Outside(cited.value, verified);
      if kept == [] {
        continue;
      }
      stored := stored + [Recommendation(|stored|, First(300, title), TextOf(spell, Get(item, "rationale")), kept)];
    }
    assert proposed[..i] == proposed;
    return Ok((stored, dropped));
  }

  // ----- The same, told from the JSON of the proposals

  /** What a field shows: nothing if it is missing, null, false, zero or empty, otherwise its text or
      spelling without the white space around it. */
  ghost function Shown(spell: Spelling, item: Json, name: string): string {
    if !item.Obj? || name !in item.fields then ""
    else
      match item.fields[name]
      case Null => ""
      case Bool(b) => if b then Strip(spell(item.fields[name])) else ""
      case Number(n) => if n == 0.0 then "" else Strip(spell(item.fields[name]))
      case Str(text) => Strip(text)
      case Arr(items) => if items == [] then "" else Strip(spell(item.fields[name]))
      case Obj(fields) => if fields == map[] then "" else Strip(spell(item.fields[name]))
  }

  lemma ShownExactly(spell: Spelling, item: Json, name: string)
    ensures TextOf(spell, Get(item, name)) == Shown(spell, item, name)
  {
    assert Strip("") == "";
    hide Strip;
  }

  /** Its field of citations is a true boolean or a number other than zero, which cannot be walked. */
  ghost predicate Unwalkable(item: Json) {
    && item.Obj? && "evidence_event_keys" in item.fields
    && (item.fields["evidence_event_keys"] == Bool(true)
        || (item.fields["evidence_event_keys"].Number? && item.fields["evidence_event_keys"].n != 0.0))
  }

  /** `cited` are the strings among these items, in order; `at` says where each one is. */
  ghost predicate StringsAt(items: seq<Json>, cited: seq<string>, at: seq<nat>) {
    && |at| == |cited|
    && (forall j, k :: 0 <= j < k < |at| ==> at[j] < at[k])
    && (forall k :: 0 <= k < |at| ==> at[k] < |items| && items[at[k]] == Str(cited[k]))
    && forall i :: 0 <= i < |items| && items[i].Str? ==> i in at
  }

  /** The string citations of a proposal, read off its field. */
  ghost predicate AreCitations(names: set<string> -> seq<string>, item: Json, cited: seq<string>)
    requires item.Obj?
  {
    if "evidence_event_keys" !in item.fields then cited == []
    else
      match item.fields["evidence_event_keys"]
      case Arr(items) => exists at :: StringsAt(items, cited, at)
      case Str(text) => |cited| == |text| && forall i :: 0 <= i < |text| ==> cited[i] == [text[i]]
      case Obj(fields) => cited == if fields == map[] then [] else names(fields.Keys)
      case _ => cited == []
  }

  lemma StringsOneMore(items: seq<Json>, last: Json, cited: seq<string>, at: seq<nat>)
    requires StringsAt(items, cited, at)
    ensures last.Str? ==> StringsAt(items + [last], cited + [last.s], at + [|items|])
    ensures !last.Str? ==> StringsAt(items + [last], cited, at)
  {
    var more := items + [last];
    assert forall k :: 0 <= k < |at| ==> more[at[k]] == items[at[k]];
    forall i | 0 <= i < |more| && more[i].Str? ensures i in at + [|items|] && (!last.Str? ==> i in at) {
      if i < |items| { assert items[i].Str? && i in at; }
    }
  }

  lemma {:induction false} StringsExactly(items: seq<Json>) returns (at: seq<nat>)
    ensures StringsAt(items, Strings(items), at)
  {
    at := [];
    if items != [] {
      var init, last := items[..|items| - 1], items[|items| - 1];
      at := StringsExactly(init);
      StringsOneMore(init, last, Strings(init), at);
      hide StringsAt;
      assert items == init + [last];
      if last.Str? { at := at + [|init|]; }
    }
  }

  lemma CitedExactly(names: set<string> -> seq<string>, item: Json)
    requires item.Obj?
    ensures Cited(names, item).Err? <==> Unwalkable(item)
    ensures Cited(names, item).Ok? ==> AreCitations(names, item, Cited(names, item).value)
  {
    if "evidence_event_keys" in item.fields && item.fields["evidence_event_keys"].Arr? {
      var items := item.fields["evidence_event_keys"].items;
      var at := StringsExactly(items);
      if items == [] { assert StringsAt([], [], at); }
    }
    hide Strings, StringsAt;
  }

  /** `evidence` are the citations among `cited` that are verified, in order. */
  ghost predicate EvidenceAt(cited: seq<string>, verified: set<string>, evidence: seq<string>, at: seq<nat>) {
    && |at| == |evidence|
    && (forall j, k :: 0 <= j < k < |at| ==> at[j] < at[k])
    && (forall k :: 0 <= k < |at| ==> at[k] < |cited| && cited[at[k]] == evidence[k])
    && forall i :: 0 <= i < |cited| ==> (i in at <==> cited[i] in verified)
  }

  lemma EvidenceOneMore(cited: seq<string>, last: string, verified: set<string>, evidence: seq<string>, at: seq<nat>)
    requires EvidenceAt(cited, verified, evidence, at)
    ensures last in verified ==> EvidenceAt(cited + [last], verified, evidence + [last], at + [|cited|])
    ensures last !in verified ==> EvidenceAt(cited + [last], verified, evidence, at)
  {
    var more := cited + [last];
    assert forall k :: 0 <= k < |at| ==> more[at[k]] == cited[at[k]];
    assert |cited| !in at;
    forall i | 0 <= i < |more| ensures i in at + [|cited|] <==> i == |cited| || more[i] in verified {
      if i < |cited| { assert i in at <==> cited[i] in verified; }
    }
  }

  lemma {:induction false} VerifiedExactly(cited: seq<string>, verified: set<string>) returns (at: seq<nat>)
    ensures EvidenceAt(cited, verified, Verified(cited, verified), at)
  {
    at := [];
    if cited == [] {
      assert EvidenceAt([], verified, [], []);
    } else {
      hide EvidenceAt;
      var init, last := cited[..|cited| - 1], cited[|cited| - 1];
      assert cited == init + [last];
      at := VerifiedExactly(init, verified);
      EvidenceOneMore(init, last, verified, Verified(init, verified), at);
      if last in verified {
        at := at + [|init|];
      } else {
        assert Verified(cited, verified) == Verified(init, verified) + [];
      }
    }
  }

  /** The row a supported proposal gets. */
  ghost predicate IsRowFor(spell: Spelling, item: Json, cited: seq<string>, verified: set<string>, row: Recommendation) {
    && row.title == (if |Shown(spell, item, "title")| <= 300 then Shown(spell, item, "title") else Shown(spell, item, "title")[..300])
    && row.rationale == Shown(spell, item, "rationale")
    && exists at :: EvidenceAt(cited, verified, row.evidence, at)
  }

  /** `cites` are the citations of each titled proposal, and nothing for any other item. */
  ghost predicate AreAllCitations(spell: Spelling, names: set<string> -> seq<string>, proposed: seq<Json>, cites: seq<seq<string>>) {
    |cites| == |proposed| && forall i :: 0 <= i < |proposed| ==>
      if Shown(spell, proposed[i], "title") != "" then proposed[i].Obj? && AreCitations(names, proposed[i], cites[i]) else cites[i] == []
  }

  ghost predicate CitesVerified(cited: seq<string>, verified: set<string>) {
    exists k :: 0 <= k < |cited| && cited[k] in verified
  }

  /** How often a key is cited. */
  ghost function TimesCited(cites: seq<seq<string>>, key: string): nat {
    if cites == [] then 0 else TimesCited(cites[..|cites| - 1], key) + multiset(cites[|cites| - 1])[key]
  }

  /** The rows are, in order, those of exactly the proposals that cite something verified. */
  ghost predicate AreRows(spell: Spelling, proposed: seq<Json>, cites: seq<seq<string>>, verified: set<string>, rows: seq<Recommendation>, at: seq<nat>)
    requires |cites| == |proposed|
  {
    && |at| == |rows|
    && (forall j, k :: 0 <= j < k < |at| ==> at[j] < at[k])
    && (forall k :: 0 <= k < |at| ==>
          at[k] < |proposed| && rows[k].ordinal == k && IsRowFor(spell, proposed[at[k]], cites[at[k]], verified, rows[k]))
    && forall i :: 0 <= i < |proposed| ==> (i in at <==> CitesVerified(cites[i], verified))
  }

  lemma LastFails(spell: Spelling, names: set<string> -> seq<string>, item: Json)
    ensures Titled(spell, item) && Cited(names, item).Err? <==> Shown(spell, item, "title") != "" && Unwalkable(item)
  {
    hide TextOf, Cited, Get;
    ShownExactly(spell, item, "title");
    if item.Obj? { CitedExactly(names, item); }
  }

  /** Storing fails exactly when some titled proposal cites what cannot be walked. */
  lemma {:induction false} FailsExactly(spell: Spelling, names: set<string> -> seq<string>, proposed: seq<Json>)
    ensures AllCited(spell, names, proposed).Err? <==>
              exists i :: 0 <= i < |proposed| && Shown(spell, proposed[i], "title") != "" && Unwalkable(proposed[i])
  {
    if proposed != [] {
      var init, last := proposed[..|proposed| - 1], proposed[|proposed| - 1];
      FailsExactly(spell, names, init);
      LastFails(spell, names, last);
      hide Cited, Shown, Unwalkable, Titled;
      assert forall i :: 0 <= i < |init| ==> init[i] == proposed[i];
    }
  }

  lemma RowsOneMore(spell: Spelling, proposed: seq<Json>, last: Json, cites: seq<seq<string>>, cited: seq<string>, verified: set<string>,
                    rows: seq<Recommendation>, at: seq<nat>, row: Recommendation)
    requires |cites| == |proposed| && AreRows(spell, proposed, cites, verified, rows, at)
    ensures !CitesVerified(cited, verified) ==> AreRows(spell, proposed + [last], cites + [cited], verified, rows, at)
    ensures CitesVerified(cited, verified) && row.ordinal == |rows| && IsRowFor(spell, last, cited, verified, row) ==>
              AreRows(spell, proposed + [last], cites + [cited], verified, rows + [row], at + [|proposed|])
  {
    hide IsRowFor, CitesVerified;
    var more, moreCites := proposed + [last], cites + [cited];
    assert forall k :: 0 <= k < |proposed| ==> more[k] == proposed[k] && moreCites[k] == cites[k];
    assert more[|proposed|] == last && moreCites[|proposed|] == cited;
    assert forall k :: 0 <= k < |at| ==> at[k] < |proposed|;
    forall i | 0 <= i < |more| ensures i in at + [|proposed|] <==> i == |proposed| || i in at {}
  }

  lemma CitationsOneMore(spell: Spelling, names: set<string> -> seq<string>, proposed: seq<Json>, last: Json, cites: seq<seq<string>>, cited: seq<string>)
    requires AreAllCitations(spell, names, proposed, cites)
    requires if Shown(spell, last, "title") != "" then last.Obj? && AreCitations(names, last, cited) else cited == []
    ensures AreAllCitations(spell, names, proposed + [last], cites + [cited])
  {
    hide Shown, AreCitations;
  }

  /** One titled proposal: what it cites, and the row it gets if any of that is verified. */
  lemma RowExactly(spell: Spelling, names: set<string> -> seq<string>, item: Json, verified: set<string>, ordinal: nat)
    requires Titled(spell, item) && Cited(names, item).Ok?
    ensures item.Obj? && Shown(spell, item, "title") != "" && AreCitations(names, item, Cited(names, item).value)
    ensures Supported(spell, names, item, verified) <==> CitesVerified(Cited(names, item).value, verified)
    ensures Supported(spell, names, item, verified) ==>
              RowFor(spell, names, item, verified, ordinal).ordinal == ordinal
              && IsRowFor(spell, item, Cited(names, item).value, verified, RowFor(spell, names, item, verified, ordinal))
  {
    ShownExactly(spell, item, "title");
    ShownExactly(spell, item, "rationale");
    CitedExactly(names, item);
    hide AreCitations, Shown, TextOf;
    var cited := Cited(names, item).value;
    var at := VerifiedExactly(cited, verified);
    hide Cited, Verified;
    assert Supported(spell, names, item, verified) <==> at != [];
    if at != [] { assert cited[at[0]] in verified; }
    if k :| 0 <= k < |cited| && cited[k] in verified { assert k in at; }
  }

  /** These citations are those of the proposals taken together. */
  ghost predicate AreTogether(all: seq<string>, cites: seq<seq<string>>) {
    forall key :: multiset(all)[key] == TimesCited(cites, key)
  }

  lemma TimesOneMore(all: seq<string>, cites: seq<seq<string>>, cited: seq<string>)
    requires AreTogether(all, cites)
    ensures AreTogether(all + cited, cites + [cited])
  {
    assert (cites + [cited])[..|cites|] == cites;
  }

  /** What the last proposal adds. */
  lemma LastProposal(spell: Spelling, names: set<string> -> seq<string>, proposed: seq<Json>, verified: set<string>)
    returns (cited: seq<string>, row: Recommendation)
    requires proposed != [] && AllCited(spell, names, proposed).Ok?
    ensures var init, last := proposed[..|proposed| - 1], proposed[|proposed| - 1];
            && AllCited(spell, names, init).Ok?
            && AllCited(spell, names, proposed).value == AllCited(spell, names, init).value + cited
            && (if Shown(spell, last, "title") != "" then last.Obj? && AreCitations(names, last, cited) else cited == [])
            && var rows := Stored(spell, names, init, verified);
            && Stored(spell, names, proposed, verified) == (if CitesVerified(cited, verified) then rows + [row] else rows)
            && (CitesVerified(cited, verified) ==> row.ordinal == |rows| && IsRowFor(spell, last, cited, verified, row))
  {
    var init, last := proposed[..|proposed| - 1], proposed[|proposed| - 1];
    var rows := Stored(spell, names, init, verified);
    ShownExactly(spell, last, "title");
    cited, row := [], Recommendation(0, "", "", []);
    hide Shown, TextOf, AreCitations, IsRowFor, Cited, RowFor;
    if Titled(spell, last) {
      cited := Cited(names, last).value;
      RowExactly(spell, names, last, verified, |rows|);
      if Supported(spell, names, last, verified) { row := RowFor(spell, names, last, verified, |rows|); }
    }
  }

  lemma NothingStored(spell: Spelling, names: set<string> -> seq<string>, verified: set<string>)
    ensures AllCited(spell, names, []) == Ok([]) && Stored(spell, names, [], verified) == []
    ensures AreAllCitations(spell, names, [], []) && AreRows(spell, [], [], verified, [], []) && AreTogether([], [])
  {}

  lemma {:induction false} StoredRows(spell: Spelling, names: set<string> -> seq<string>, proposed: seq<Json>, verified: set<string>)
    returns (cites: seq<seq<string>>, at: seq<nat>)
    requires AllCited(spell, names, proposed).Ok?
    ensures AreAllCitations(spell, names, proposed, cites)
    ensures AreRows(spell, proposed, cites, verified, Stored(spell, names, proposed, verified), at)
    ensures AreTogether(AllCited(spell, names, proposed).value, cites)
  {
    cites, at := [], [];
    if proposed == [] {
      NothingStored(spell, names, verified);
    } else {
      hide Shown, AreCitations, AreRows, AreAllCitations, AreTogether, IsRowFor, AllCited, Stored, TimesCited, CitesVerified;
      var init, last := proposed[..|proposed| - 1], proposed[|proposed| - 1];
      var cited, row := LastProposal(spell, names, proposed, verified);
      cites, at := StoredRows(spell, names, init, verified);
      RowsOneMore(spell, init, last, cites, cited, verified, Stored(spell, names, init, verified), at, row);
      CitationsOneMore(spell, names, init, last, cites, cited);
      TimesOneMore(AllCited(spell, names, init).value, cites, cited);
      assert proposed == init + [last];
      cites, at := cites + [cited], if CitesVerified(cited, verified) then at + [|init|] else at;
    }
  }

  /** What is stored and what is dropped, told from the proposals: the rows are, in order and numbered,
      those of exactly the titled proposals that cite something verified, each with its title cut at
      300 characters, its rationale and its verified citations; every other citation is dropped, each
      as often as it was cited, and no verified one ever is. */
  lemma StoredExactly(spell: Spelling, names: set<string> -> seq<string>, proposed: seq<Json>, verified: set<string>)
    returns (cites: seq<seq<string>>, at: seq<nat>)
    requires AllCited(spell, names, proposed).Ok?
    ensures AreAllCitations(spell, names, proposed, cites)
    ensures AreRows(spell, proposed, cites, verified, Stored(spell, names, proposed, verified), at)
    ensures forall key :: multiset(Outside(AllCited(spell, names, proposed).value, verified))[key] == if key in verified then 0 else TimesCited(cites, key)
    ensures forall key :: multiset(AllEvidence(Stored(spell, names, proposed, verified)))[key] == if key in verified then TimesCited(cites, key) else 0
  {
    cites, at := StoredRows(spell, names, proposed, verified);
    StoredEvidence(spell, names, proposed, verified);
    var cited := AllCited(spell, names, proposed).value;
    KeptOrDropped(cited, verified);
    hide Stored, AllCited, AreAllCitations, AreRows, TimesCited;
    forall key
      ensures multiset(Outside(cited, verified))[key] == if key in verified then 0 else TimesCited(cites, key)
      ensures multiset(Verified(cited, verified))[key] == if key in verified then TimesCited(cites, key) else 0
    {
      assert multiset(cited)[key] == multiset(Verified(cited, verified))[key] + multiset(Outside(cited, verified))[key];
      assert key in multiset(Outside(cited, verified)) <==> key in Outside(cited, verified);
      assert key in multiset(Verified(cited, verified)) <==> key in Verified(cited, verified);
    }
  }

  lemma {:induction false} VerifiedConcat(a: seq<string>, b: seq<string>, verified: set<string>)
    ensures Verified(a + b, verified) == Verified(a, verified) + Verified(b, verified)
    ensures Outside(a + b, verified) == Outside(a, verified) + Outside(b, verified)
  {
    if b == [] {
      assert a + b == a;
    } else {
      assert (a + b)[..|a + b| - 1] == a + b[..|b| - 1];
      VerifiedConcat(a, b[..|b| - 1], verified);
    }
  }

  lemma {:induction false} ErrStays(spell: Spelling, names: set<string> -> seq<string>, proposed: seq<Json>, n: nat)
    requires n <= |proposed| && AllCited(spell, names, proposed[..n]).Err?
    ensures AllCited(spell, names, proposed).Err?
  {
    if n < |proposed| {
      var init := proposed[..|proposed| - 1];
      assert init[..n] == proposed[..n];
      ErrStays(spell, names, init, n);
    } else {
      assert proposed[..n] == proposed;
    }
  }
}
