/** One supplier analysis: the loop, the reading of its answer, and the check of what it cites. */
module SupplierAnalysis {
  import opened AgentLoop
  import opened Evidence
  import opened LlmSpend
  import opened Text
  import opened Wrappers

  const UNPARSEABLE := "unparseable_output"
  const FENCE := "```"

  /** What follows the first line, or nothing if there is one line only. */
  function AfterFirstLine(s: string): string {
    if s == "" then "" else if s[0] == '\n' then s[1..] else AfterFirstLine(s[1..])
  }

  /** What precedes the last fence, or everything if there is none. */
  function BeforeLastFence(s: string, end: nat): string
    requires end <= |s|
  {
    if end < 3 then s
    else if s[end - 3..end] == FENCE then s[..end - 3]
    else BeforeLastFence(s, end - 1)
  }

  function Unfenced(text: string): string {
    var candidate := Strip(text);
    if |candidate| >= 3 && candidate[..3] == FENCE then
      var body := AfterFirstLine(candidate);
      Strip(BeforeLastFence(body, |body|))
    else candidate
  }

  /** The reply as the contract, which is a JSON object, or nothing; `loads` is the JSON reader. */
  function ParseAnalysis(loads: string -> Option<Json>, text: string): Option<Json> {
    if text == "" then None
    else
      var parsed := loads(Unfenced(text));
      if parsed.Some? && parsed.value.Obj? then parsed else None
  }

  lemma {:induction false} FirstLineIsDropped(line: string, rest: string)
    requires '\n' !in line
    ensures AfterFirstLine(line + "\n" + rest) == rest
  {
    var s := line + "\n" + rest;
    if line != "" {
      assert s[1..] == line[1..] + "\n" + rest;
      FirstLineIsDropped(line[1..], rest);
    }
  }

  lemma {:induction false} StripLeftOneMore(s: string, c: char)
    requires Space(c)
    ensures StripRight(StripLeft(s + [c])) == StripRight(StripLeft(s))
  {
    if s != "" && Space(s[0]) {
      assert (s + [c])[1..] == s[1..] + [c];
      StripLeftOneMore(s[1..], c);
    } else if s != "" {
      assert (s + [c])[..|s|] == s;
    } else {
      assert StripLeft([c]) == StripLeft([c][1..]) == "";
    }
  }

  lemma FencedIsStripped(inner: string)
    ensures Strip(FENCE + inner + FENCE) == FENCE + inner + FENCE && (FENCE + inner + FENCE)[..3] == FENCE
  {
    var text := FENCE + inner + FENCE;
    assert text[0] == '`' && text[|text| - 1] == '`';
    StripOfStripped(text);
  }

  lemma LastFenceIsDropped(inner: string)
    ensures BeforeLastFence(inner + FENCE, |inner + FENCE|) == inner
  {
    var s := inner + FENCE;
    assert s[|s| - 3..|s|] == FENCE && s[..|s| - 3] == inner;
  }

  lemma UnfencedOfFenced(language: string, body: string)
    requires '\n' !in language
    ensures Unfenced(FENCE + language + "\n" + body + "\n" + FENCE) == Strip(body)
  {
    var text := FENCE + language + "\n" + body + "\n" + FENCE;
    hide Strip, AfterFirstLine, BeforeLastFence;
    FencedIsStripped(language + "\n" + body + "\n");
    assert text == FENCE + (language + "\n" + body + "\n") + FENCE;
    FirstLineIsDropped(FENCE + language, body + "\n" + FENCE);
    assert text == (FENCE + language) + "\n" + (body + "\n" + FENCE);
    LastFenceIsDropped(body + "\n");
    TrailingLineIsStripped(body);
  }

  lemma TrailingLineIsStripped(body: string)
    ensures Strip(body + "\n") == Strip(body)
  {
    StripLeftOneMore(body, '\n');
    assert body + "\n" == body + ['\n'];
  }

  /** Wrapping an answer in a code fence, with or without a language, does not change how it is read. */
  lemma FencesDoNotMatter(loads: string -> Option<Json>, language: string, body: string)
    requires '\n' !in language && Strip(body) != "" && !(|Strip(body)| >= 3 && Strip(body)[..3] == FENCE)
    ensures ParseAnalysis(loads, FENCE + language + "\n" + body + "\n" + FENCE) == ParseAnalysis(loads, body)
  {
    UnfencedOfFenced(language, body);
    assert Unfenced(body) == Strip(body);
    assert body != "";
    hide Unfenced, Strip;
  }

  /** Some tool result of the run names this event. */
  ghost predicate ReturnedByTool(steps: seq<StepRow>, key: string) {
    exists i :: 0 <= i < |steps| && steps[i].kind == ToolResult && Occurs(steps[i].payload, key)
  }

  /** The keys the tools are known to have returned are exactly those in the recorded results. */
  lemma {:induction false} VerifiedIsReturned(executed: seq<Executed>, tail: seq<StepRow>, key: string)
    requires forall i :: 0 <= i < |tail| ==> tail[i].kind != ToolResult
    ensures key in KeysReturned(executed) <==> ReturnedByTool(Recorded(executed) + tail, key)
  {
    var steps := Recorded(executed) + tail;
    if key in KeysReturned(executed) {
      var k := Returned(executed, key);
      KeysAreThoseThatOccur(executed[k].stored, key);
      assert (2 * k + 1) / 2 == k;
      assert steps[2 * k + 1] == RowAt(executed, 2 * k + 1);
    }
    if ReturnedByTool(steps, key) {
      var i :| 0 <= i < |steps| && steps[i].kind == ToolResult && Occurs(steps[i].payload, key);
      assert i < 2 * |executed|;
      assert steps[i] == RowAt(executed, i);
      KeysAreThoseThatOccur(executed[i / 2].stored, key);
      ReturnedStays(executed, i / 2, key);
    }
  }

  lemma {:induction false} Returned(executed: seq<Executed>, key: string) returns (k: nat)
    requires key in KeysReturned(executed)
    ensures k < |executed| && key in KeysIn(executed[k].stored)
  {
    if key in KeysIn(executed[|executed| - 1].stored) {
      k := |executed| - 1;
    } else {
      k := Returned(executed[..|executed| - 1], key);
    }
  }

  lemma {:induction false} ReturnedStays(executed: seq<Executed>, k: nat, key: string)
    requires k < |executed| && key in KeysIn(executed[k].stored)
    ensures key in KeysReturned(executed)
  {
    if k < |executed| - 1 {
      ReturnedStays(executed[..|executed| - 1], k, key);
    }
  }

  function Items(value: Json): seq<Json> {
    if value.Arr? then value.items else []
  }

  function Spelled(spell: Spelling, value: Json): string {
    if value.Str? then value.s else spell(value)
  }

  /** At most twenty findings as text. A string is cut into characters; what cannot be sliced is an error. */
  function Findings(spell: Spelling, value: Json): Result<seq<Json>, ()> {
    if !Truthy(value) then Ok([])
    else
      match value
      case Arr(items) =>
        var n := if |items| < 20 then |items| else 20;
        Ok(seq(n, i requires 0 <= i < n => Str(Spelled(spell, items[i]))))
      case Str(text) =>
        var n := if |text| < 20 then |text| else 20;
        Ok(seq(n, i requires 0 <= i < n => Str([text[i]])))
      case _ => Err(())
  }

  function Texts(values: seq<string>): Json {
    Arr(seq(|values|, i requires 0 <= i < |values| => Str(values[i])))
  }

  /** What the evidence check writes into the transcript. */
  function CheckPayload(verified: seq<string>, dropped: seq<string>, findings: seq<Json>): Json {
    Obj(map["verified" := Texts(verified), "dropped" := Texts(dropped), "findings" := Arr(findings)])
  }

  /** The check lists the verified keys, the dropped citations and the findings, each under its own name. */
  lemma CheckPayloadExactly(verified: seq<string>, dropped: seq<string>, findings: seq<Json>)
    ensures var payload := CheckPayload(verified, dropped, findings);
            && payload.Obj? && payload.fields.Keys == {"verified", "dropped", "findings"}
            && payload.fields["findings"] == Arr(findings)
            && payload.fields["verified"].Arr? && |payload.fields["verified"].items| == |verified|
            && (forall i :: 0 <= i < |verified| ==> payload.fields["verified"].items[i] == Str(verified[i]))
            && payload.fields["dropped"].Arr? && |payload.fields["dropped"].items| == |dropped|
            && (forall i :: 0 <= i < |dropped| ==> payload.fields["dropped"].items[i] == Str(dropped[i]))
  {
    assert |"verified"| == 8 && |"dropped"| == 7 && "findings"[0] == 'f' && "verified"[0] == 'v';
  }

  /** At most the first twenty findings are listed, as text; what is neither a list nor text, and not
      false, zero or empty, cannot be. */
  lemma FindingsExactly(spell: Spelling, value: Json)
    ensures Findings(spell, value).Err? <==> value == Bool(true) || (value.Number? && value.n != 0.0) || (value.Obj? && value.fields != map[])
    ensures value.Arr? ==>
              && Findings(spell, value).Ok?
              && |Findings(spell, value).value| == (if |value.items| < 20 then |value.items| else 20)
              && forall i :: 0 <= i < |Findings(spell, value).value| ==>
                   Findings(spell, value).value[i] == if value.items[i].Str? then value.items[i] else Str(spell(value.items[i]))
    ensures value.Str? ==>
              && Findings(spell, value).Ok?
              && |Findings(spell, value).value| == (if |value.s| < 20 then |value.s| else 20)
              && forall i :: 0 <= i < |Findings(spell, value).value| ==> Findings(spell, value).value[i] == Str([value.s[i]])
    ensures Findings(spell, value).Ok? && !value.Arr? && !value.Str? ==> Findings(spell, value).value == []
  {}

  /** An answer that opens no fence is read as it stands, and only an object is taken for an analysis. */
  lemma BareAnswer(loads: string -> Option<Json>, text: string)
    requires !(|Strip(text)| >= 3 && Strip(text)[0] == Strip(text)[1] == Strip(text)[2] == '`')
    ensures ParseAnalysis(loads, text) ==
              if text != "" && loads(Strip(text)).Some? && loads(Strip(text)).value.Obj? then loads(Strip(text)) else None
  {
    var candidate := Strip(text);
    if |candidate| >= 3 { ThreeTicks(candidate); }
    hide Strip;
  }

  lemma ThreeTicks(s: string)
    requires |s| >= 3
    ensures s[..3] == FENCE <==> s[0] == s[1] == s[2] == '`'
  {
    assert s[..3] == [s[0], s[1], s[2]];
  }

  lemma CheckIsSound(executed: seq<Executed>, text: string, row: StepRow)
    requires row.ordinal == 2 * |executed| + 1 && row.kind == EvidenceCheck
    ensures Sound(Snapshot(Recorded(executed) + [MessageRow(2 * |executed|, text)] + [row], 2 * |executed| + 2, Completed))
  {
    var steps := Recorded(executed) + [MessageRow(2 * |executed|, text)] + [row];
    assert steps[|steps| - 1] == row && steps[|steps| - 2] == MessageRow(2 * |executed|, text);
    forall i | 0 <= i < |steps| ensures PairedAt(steps, i) {
      if i < 2 * |executed| { PairedInRecord(executed, steps, i); }
    }
  }

  /** How an analysis ends: the supplier is unknown, an exception left it unfinished, or it finished. */
  datatype Ending = NotFound | Interrupted | Finished

  class Analysis {
    const spell: Spelling
    const names: set<string> -> seq<string>
    const sorted: set<string> -> seq<string>
    const loads: string -> Option<Json>
    var recommendations: seq<Recommendation>

    constructor (spell: Spelling, names: set<string> -> seq<string>, sorted: set<string> -> seq<string>, loads: string -> Option<Json>)
      ensures this.spell == spell && this.names == names && this.sorted == sorted && this.loads == loads && recommendations == []
    {
      this.spell, this.names, this.sorted, this.loads, recommendations := spell, names, sorted, loads, [];
    }

    /** Every stored recommendation rests on events some tool of this run returned. */
    ghost predicate Grounded(steps: seq<StepRow>)
      reads this
    {
      forall k :: 0 <= k < |recommendations| ==>
        && recommendations[k].ordinal == k && recommendations[k].evidence != []
        && forall key :: key in recommendations[k].evidence ==> ReturnedByTool(steps, key)
    }

    ghost predicate Readable(analysis: Json) {
      && AllCited(spell, names, Items(Get(analysis, "recommendations"))).Ok?
      && Findings(spell, Get(analysis, "findings")).Ok?
    }

    /** The proposals of a completed run, checked, and the check itself written to the transcript. */
    method CheckEvidence(run: AgentRun, analysis: Json, verified: set<string>, ghost executed: seq<Executed>, ghost text: string)
      returns (ok: bool)
      requires run.Committed() && run.status == Completed && recommendations == []
      requires run.steps == Recorded(executed) + [MessageRow(2 * |executed|, text)]
      requires verified == KeysReturned(executed)
      modifies this`recommendations, run`steps, run`stepCount, run`commits
      ensures run.Committed() && old(run.commits) <= run.commits
      ensures Grounded(run.steps) && ok == Readable(analysis)
      ensures !ok ==> run.steps == old(run.steps) && recommendations == []
      ensures ok ==>
                var proposed := Items(Get(analysis, "recommendations"));
                var dropped := Outside(AllCited(spell, names, proposed).value, verified);
                && recommendations == Stored(spell, names, proposed, verified)
                && run.steps == old(run.steps) + [StepRow(2 * |executed| + 1, EvidenceCheck, None,
                     CheckPayload(sorted(verified), dropped, Findings(spell, Get(analysis, "findings")).value))]
    {
      hide Sound, AllSound, AppendOnly, Recorded, AllCited, Stored, Outside, Findings, CheckPayload, KeysReturned, ReturnedByTool, RestsOn;
      var proposed := Items(Get(analysis, "recommendations"));
      var result := StoreRecommendations(spell, names, proposed, verified);
      if result.Err? {
        return false;
      }
      var findings := Findings(spell, Get(analysis, "findings"));
      if findings.Err? {
        return false;
      }
      var row := StepRow(run.stepCount, EvidenceCheck, None, CheckPayload(sorted(verified), result.value.1, findings.value));
      CountIsLength(run);
      RecordedLength(executed);
      CheckIsSound(executed, text, row);
      run.Record(row);
      recommendations := result.value.0;
      StoredIsSound(spell, names, proposed, verified);
      assert run.steps == Recorded(executed) + [MessageRow(2 * |executed|, text), row];
      forall k | 0 <= k < |recommendations| {
        RowIsGrounded(executed, recommendations[k], [MessageRow(2 * |executed|, text), row]);
      }
      return true;
    }

    /** The run and the store after an analysis whose loop ended in a certain way. */
    ghost predicate Concluded(run: AgentRun, tools: BoundTools, executed: seq<Executed>, end: LoopEnd, ending: Ending)
      reads this, run, tools
    {
      match end
      case Raised => ending == Interrupted && run.status == Running && |run.steps| == 2 * |executed| && recommendations == []
      case NoAnswer => ending == Finished && run.status.Failed? && |run.steps| == 2 * |executed| && recommendations == []
      case Answered(text) =>
        var analysis := ParseAnalysis(loads, text);
        if analysis.None? then
          ending == Finished && run.status == Failed("unparseable_output") && |run.steps| == 2 * |executed| + 1 && recommendations == []
        else if !Readable(analysis.value) then
          ending == Interrupted && run.status == Completed && |run.steps| == 2 * |executed| + 1 && recommendations == []
        else
          && ending == Finished && run.status == Completed
          && |run.steps| == 2 * |executed| + 2
          && run.steps[2 * |executed| + 1] == StepRow(2 * |executed| + 1, EvidenceCheck, None, CheckPayload(sorted(tools.verified),
               Outside(AllCited(spell, names, Items(Get(analysis.value, "recommendations"))).value, tools.verified),
               Findings(spell, Get(analysis.value, "findings")).value))
          && recommendations == Stored(spell, names, Items(Get(analysis.value, "recommendations")), tools.verified)
    }

    /** The whole analysis. Recommendations are stored only beside a completed run whose transcript
        ends with its evidence check, and rest on events the tools of that run returned. */
    method AnalyseSupplier(known: bool, model: Model, tools: BoundTools, spend: SpendStore, day: int, opening: string)
      returns (ending: Ending, run: AgentRun, ghost end: LoopEnd, ghost turns: seq<Turn>, ghost executed: seq<Executed>)
      requires recommendations == [] && tools.verified == {} && tools.dispatched == []
      modifies this`recommendations, tools, spend
      ensures fresh(run) && run.Committed()
      ensures ending == NotFound <==> !known
      ensures !known ==> spend.rows == old(spend.rows) && tools.dispatched == [] && recommendations == []
      ensures known ==>
                && |turns| <= 8 && Answers(tools, executed) && AllCalls(turns) == Calls(executed)
                && tools.dispatched == KnownCalls(AllCalls(turns), tools.catalogue)
                && tools.verified == KeysReturned(executed)
                && Used(spend.rows, SpendKey(GLOBAL_BUCKET, day)) ==
                     Used(old(spend.rows), SpendKey(GLOBAL_BUCKET, day)) + PromptTokens(turns) + CompletionTokens(turns)
      ensures known ==> Concluded(run, tools, executed, end, ending)
      ensures Grounded(run.steps)
    {
      hide Sound, AllSound, AppendOnly, Recorded, KnownCalls, AllCalls, Calls, KeysReturned, PromptTokens, CompletionTokens, ParseAnalysis;
      run := new AgentRun();
      turns, executed, end := [], [], NoAnswer;
      if !known {
        ending := NotFound;
        return;
      }
      StartsEmpty(run, tools);
      var loopEnd;
      loopEnd, turns, executed := RunLoop(run, model, tools, spend, day, opening, MAX_STEPS);
      end := loopEnd;
      RecordedLength(executed);
      if loopEnd.Raised? {
        ending := Interrupted;
        return;
      }
      if loopEnd.NoAnswer? {
        ending := Finished;
        return;
      }
      var analysis := ParseAnalysis(loads, loopEnd.text);
      if analysis.None? {
        OneRowAfter(executed, MessageRow(2 * |executed|, loopEnd.text), Failed(UNPARSEABLE));
        CountIsLength(run);
        run.Finish(Failed(UNPARSEABLE));
        ending := Finished;
        return;
      }
      var ok := CheckEvidence(run, analysis.value, tools.verified, executed, loopEnd.text);
      ending := if ok then Finished else Interrupted;
    }
  }

  lemma RecordedLength(executed: seq<Executed>)
    ensures |Recorded(executed)| == 2 * |executed|
  {}

  lemma CountIsLength(run: AgentRun)
    requires run.Committed()
    ensures run.stepCount == |run.steps|
  {
    assert Sound(run.commits[|run.commits| - 1]);
  }

  lemma StartsEmpty(run: AgentRun, tools: BoundTools)
    requires run.Committed() && run.status == Running && run.steps == [] && tools.verified == {} && tools.dispatched == []
    ensures Follows(run, tools, [])
  {
    CountIsLength(run);
  }

  lemma RowIsGrounded(executed: seq<Executed>, row: Recommendation, tail: seq<StepRow>)
    requires RestsOn(row, KeysReturned(executed))
    requires forall i :: 0 <= i < |tail| ==> tail[i].kind != ToolResult
    ensures row.evidence != [] && forall key :: key in row.evidence ==> ReturnedByTool(Recorded(executed) + tail, key)
  {
    hide KeysReturned, ReturnedByTool, Recorded;
    forall key | key in row.evidence {
      VerifiedIsReturned(executed, tail, key);
    }
  }
}
