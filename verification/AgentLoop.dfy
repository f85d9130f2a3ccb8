/** The bounded agent loop: a transcript committed step by step, a tool catalogue, a step ceiling
    and a durable spend cap. What the model answers and what tools return are arbitrary. */
module AgentLoop {
  import opened Evidence
  import opened LlmSpend
  import opened Wrappers

  datatype ToolCall = ToolCall(callId: string, name: string, arguments: Json)

  datatype Turn = Turn(text: Option<string>, calls: seq<ToolCall>, prompt: nat, completion: nat)

  datatype Kind = ToolCalled | ToolResult | ModelMessage | EvidenceCheck

  datatype StepRow = StepRow(ordinal: nat, kind: Kind, tool: Option<string>, payload: Json)

  datatype Status = Running | Completed | Failed(reason: string)

  /** What one commit made visible. */
  datatype Snapshot = Snapshot(steps: seq<StepRow>, stepCount: nat, status: Status)

  /** A tool call the loop carried out, what was stored as its result, and what the model was told. */
  datatype Executed = Executed(call: ToolCall, stored: Json, reply: Json)

  datatype Entry = Opening(text: string) | Called(call: ToolCall) | Output(callId: string, reply: Json)

  datatype LoopEnd = Answered(text: string) | NoAnswer | Raised

  /** The k-th reply to a conversation; None where the client raises. */
  type Model = (nat, seq<Entry>) -> Option<Turn>

  const MAX_STEPS := 8
  const ESTIMATED_TOKENS_PER_TURN := 4000
  const BUDGET_EXHAUSTED := "budget_exhausted"
  const STEP_CEILING := "step_ceiling"

  function CallPayload(call: ToolCall): Json {
    Obj(map["call_id" := Str(call.callId), "arguments" := call.arguments])
  }

  function MessagePayload(text: string): Json {
    Obj(map["text" := Str(text)])
  }

  function ErrorPayload(message: string): Json {
    Obj(map["error" := Str(message)])
  }

  lemma ErrorsCiteNothing(message: string)
    ensures KeysIn(ErrorPayload(message)) == {}
  {
    assert ErrorPayload(message).fields.Keys == {"error"};
    assert "event_key" !in ErrorPayload(message).fields by {
      assert |"event_key"| != |"error"|;
    }
  }

  function UnknownTool(name: string): string {
    "unknown tool '" + name + "'; use only the tools provided"
  }

  function FailedTool(name: string): string {
    "tool '" + name + "' failed"
  }

  // ----- The transcript of a sequence of executed calls

  function CallRow(n: nat, call: ToolCall): StepRow {
    StepRow(n, ToolCalled, Some(call.name), CallPayload(call))
  }

  function ResultRow(n: nat, e: Executed): StepRow {
    StepRow(n, ToolResult, Some(e.call.name), e.stored)
  }

  function RowAt(executed: seq<Executed>, i: nat): StepRow
    requires i < 2 * |executed|
  {
    if i % 2 == 0 then CallRow(i, executed[i / 2].call) else ResultRow(i, executed[i / 2])
  }

  function Recorded(executed: seq<Executed>): (steps: seq<StepRow>) {
    seq(2 * |executed|, i requires 0 <= i < 2 * |executed| => RowAt(executed, i))
  }

  function MessageRow(n: nat, text: string): StepRow {
    StepRow(n, ModelMessage, None, MessagePayload(text))
  }

  /** The transcript in full: every call with its id and arguments, and directly after it what was stored. */
  lemma RecordedExactly(executed: seq<Executed>, k: nat)
    requires k < |executed|
    ensures |Recorded(executed)| == 2 * |executed|
    ensures var e := executed[k];
            && Recorded(executed)[2 * k] ==
                 StepRow(2 * k, ToolCalled, Some(e.call.name), Obj(map["call_id" := Str(e.call.callId), "arguments" := e.call.arguments]))
            && Recorded(executed)[2 * k + 1] == StepRow(2 * k + 1, ToolResult, Some(e.call.name), e.stored)
  {
    assert Recorded(executed)[2 * k] == RowAt(executed, 2 * k);
    assert Recorded(executed)[2 * k + 1] == RowAt(executed, 2 * k + 1);
    assert 2 * k / 2 == k && (2 * k + 1) / 2 == k;
  }

  /** Ordinals are 0, 1, 2 and so on, and the stored count is their number. */
  ghost predicate Gapless(s: Snapshot) {
    s.stepCount == |s.steps| && forall i :: 0 <= i < |s.steps| ==> s.steps[i].ordinal == i
  }

  /** A call is followed directly by its own result, unless it is the last thing written; a result
      follows its call; a message is the last thing written, but for one evidence check after it. */
  ghost predicate PairedAt(steps: seq<StepRow>, i: nat)
    requires i < |steps|
  {
    match steps[i].kind
    case ToolCalled => i + 1 == |steps| || (steps[i + 1].kind == ToolResult && steps[i + 1].tool == steps[i].tool)
    case ToolResult => i > 0 && steps[i - 1].kind == ToolCalled && steps[i - 1].tool == steps[i].tool
    case ModelMessage => i + 1 == |steps| || (i + 2 == |steps| && steps[i + 1].kind == EvidenceCheck)
    case EvidenceCheck => i + 1 == |steps| && i > 0 && steps[i - 1].kind == ModelMessage
  }

  ghost predicate Paired(steps: seq<StepRow>) {
    forall i :: 0 <= i < |steps| ==> PairedAt(steps, i)
  }

  ghost predicate EndsInMessage(steps: seq<StepRow>) {
    steps != [] && (steps[|steps| - 1].kind == ModelMessage || steps[|steps| - 1].kind == EvidenceCheck)
  }

  ghost predicate Sound(s: Snapshot) {
    Gapless(s) && Paired(s.steps) && (s.status == Completed ==> EndsInMessage(s.steps))
  }

  lemma RecordedIsSound(executed: seq<Executed>, status: Status)
    requires status != Completed
    ensures Sound(Snapshot(Recorded(executed), 2 * |executed|, status))
  {
    forall i | 0 <= i < 2 * |executed| ensures PairedAt(Recorded(executed), i) {
      PairedInRecord(executed, Recorded(executed), i);
    }
  }

  /** One row after the pairs leaves them paired. */
  lemma PairedInRecord(executed: seq<Executed>, steps: seq<StepRow>, i: nat)
    requires i < 2 * |executed| && Recorded(executed) <= steps
    ensures PairedAt(steps, i)
  {
    assert steps[i] == RowAt(executed, i);
    if i % 2 == 0 {
      assert steps[i + 1] == RowAt(executed, i + 1);
      assert (i + 1) / 2 == i / 2;
    } else {
      assert steps[i - 1] == RowAt(executed, i - 1);
      assert (i - 1) / 2 == i / 2;
    }
  }

  lemma OneRowAfter(executed: seq<Executed>, row: StepRow, status: Status)
    requires row.ordinal == 2 * |executed| && (row.kind == ToolCalled || row.kind == ModelMessage)
    requires status == Completed ==> row.kind == ModelMessage
    ensures Sound(Snapshot(Recorded(executed) + [row], 2 * |executed| + 1, status))
  {
    var steps := Recorded(executed) + [row];
    assert steps[|steps| - 1] == row;
    forall i | 0 <= i < |steps| ensures PairedAt(steps, i) {
      if i < 2 * |executed| { PairedInRecord(executed, steps, i); }
    }
  }

  /** Nothing already committed is rewritten. */
  ghost predicate AppendOnly(commits: seq<Snapshot>) {
    forall i :: 0 < i < |commits| ==> commits[i - 1].steps <= commits[i].steps
  }

  ghost predicate AllSound(commits: seq<Snapshot>) {
    forall i :: 0 <= i < |commits| ==> Sound(commits[i])
  }

  class AgentRun {
    var steps: seq<StepRow>
    var stepCount: nat
    var status: Status
    var prompt: nat
    var completion: nat
    ghost var commits: seq<Snapshot>

    ghost function Now(): Snapshot
      reads this
    {
      Snapshot(steps, stepCount, status)
    }

    /** Every commit so far was sound, and what is in memory has been committed. */
    ghost predicate Committed()
      reads this
    {
      commits != [] && commits[|commits| - 1] == Now() && AllSound(commits) && AppendOnly(commits)
    }

    constructor ()
      ensures steps == [] && status == Running && prompt == completion == 0 && Committed()
    {
      steps, stepCount, status, prompt, completion := [], 0, Running, 0, 0;
      commits := [Snapshot([], 0, Running)];
    }

    ghost method Commit()
      requires commits != [] && AllSound(commits) && AppendOnly(commits)
      requires Sound(Now()) && commits[|commits| - 1].steps <= steps
      modifies this`commits
      ensures Committed() && commits == old(commits) + [Now()]
    {
      commits := commits + [Now()];
    }

    method Record(row: StepRow)
      requires Committed() && Sound(Snapshot(steps + [row], row.ordinal + 1, status))
      modifies this`steps, this`stepCount, this`commits
      ensures Committed() && steps == old(steps) + [row] && stepCount == row.ordinal + 1
      ensures commits == old(commits) + [Snapshot(steps, stepCount, status)]
    {
      steps := steps + [row];
      stepCount := row.ordinal + 1;
      Commit();
    }

    method Finish(status: Status)
      requires Committed() && Sound(Snapshot(steps, stepCount, status))
      modifies this`status, this`commits
      ensures Committed() && commits == old(commits) + [Snapshot(steps, stepCount, status)] && this.status == status
    {
      this.status := status;
      Commit();
    }

    /** Add a turn's tokens to the run and to the day's stored total. */
    method Charge(turn: Turn, spend: SpendStore, day: int)
      modifies this`prompt, this`completion, spend
      ensures prompt == old(prompt) + turn.prompt && completion == old(completion) + turn.completion
      ensures Used(spend.rows, SpendKey("__global__", day)) ==
                Used(old(spend.rows), SpendKey("__global__", day)) + turn.prompt + turn.completion
    {
      prompt, completion := prompt + turn.prompt, completion + turn.completion;
      spend.ChargeSpent(None, turn.prompt + turn.completion, day);
    }
  }

  /** What is stored for a call and told to the model: what the tool returned, or a message that names
      the tool and nothing of the failure. */
  ghost predicate IsAnswer(catalogue: set<string>, answers: (nat, ToolCall) -> Option<Json>, n: nat, call: ToolCall, stored: Json, reply: Json) {
    if call.name in catalogue && answers(n, call).Some? then stored == reply == answers(n, call).value
    else
      && reply == Str(if call.name in catalogue then "tool '" + call.name + "' failed"
                      else "unknown tool '" + call.name + "'; use only the tools provided")
      && stored == Obj(map["error" := reply])
  }

  /** Every call was answered by the tools, in turn. */
  ghost predicate Answers(tools: BoundTools, executed: seq<Executed>) {
    forall k :: 0 <= k < |executed| ==>
      IsAnswer(tools.catalogue, tools.answers, |KnownCalls(Calls(executed[..k]), tools.catalogue)|, executed[k].call, executed[k].stored, executed[k].reply)
  }

  lemma AnswersOneMore(tools: BoundTools, executed: seq<Executed>, e: Executed)
    requires Answers(tools, executed)
    requires IsAnswer(tools.catalogue, tools.answers, |KnownCalls(Calls(executed), tools.catalogue)|, e.call, e.stored, e.reply)
    ensures Answers(tools, executed + [e])
  {
    hide IsAnswer, KnownCalls, Calls;
    var more := executed + [e];
    assert more[..|executed|] == executed;
    assert forall k :: 0 <= k < |executed| ==> more[..k] == executed[..k] && more[k] == executed[k];
  }

  /** The dispatcher bound to one run: it remembers which event keys it has returned. */
  class BoundTools {
    const catalogue: set<string>
    const answers: (nat, ToolCall) -> Option<Json>
    var verified: set<string>
    var dispatched: seq<ToolCall>

    constructor (catalogue: set<string>, answers: (nat, ToolCall) -> Option<Json>)
      ensures this.catalogue == catalogue && this.answers == answers && verified == {} && dispatched == []
    {
      this.catalogue, this.answers, verified, dispatched := catalogue, answers, {}, [];
    }

    method Dispatch(call: ToolCall) returns (result: Option<Json>)
      modifies this
      ensures dispatched == old(dispatched) + [call]
      ensures result == answers(|old(dispatched)|, call)
      ensures verified == old(verified) + if result.Some? then KeysIn(result.value) else {}
    {
      result := answers(|dispatched|, call);
      dispatched := dispatched + [call];
      if result.Some? {
        verified := verified + KeysIn(result.value);
      }
    }

    /** A name outside the catalogue is refused without being dispatched. The call is already committed
        to the transcript of the run it belongs to. */
    method RunTool(call: ToolCall, ghost run: AgentRun) returns (stored: Json, reply: Json)
      requires run.Committed() && run.steps != []
      requires run.steps[|run.steps| - 1].kind == ToolCalled && run.steps[|run.steps| - 1].payload == CallPayload(call)
      modifies this
      ensures dispatched == if call.name in catalogue then old(dispatched) + [call] else old(dispatched)
      ensures IsAnswer(catalogue, answers, |old(dispatched)|, call, stored, reply)
      ensures verified == old(verified) + KeysIn(stored)
    {
      if call.name !in catalogue {
        ErrorsCiteNothing(UnknownTool(call.name));
        return ErrorPayload(UnknownTool(call.name)), Str(UnknownTool(call.name));
      }
      var result := Dispatch(call);
      match result {
        case Some(value) => return value, value;
        case None =>
          ErrorsCiteNothing(FailedTool(call.name));
          return ErrorPayload(FailedTool(call.name)), Str(FailedTool(call.name));
      }
    }
  }

  // ----- What a finished loop did

  function Calls(executed: seq<Executed>): seq<ToolCall> {
    seq(|executed|, i requires 0 <= i < |executed| => executed[i].call)
  }

  /** What the model is shown: the opening, then every call so far with what came back. */
  function Conversation(opening: string, executed: seq<Executed>): seq<Entry> {
    if executed == [] then [Opening(opening)]
    else
      var last := executed[|executed| - 1];
      Conversation(opening, executed[..|executed| - 1]) + [Called(last.call), Output(last.call.callId, last.reply)]
  }

  function AllCalls(turns: seq<Turn>): seq<ToolCall> {
    if turns == [] then [] else AllCalls(turns[..|turns| - 1]) + turns[|turns| - 1].calls
  }

  function KnownCalls(calls: seq<ToolCall>, catalogue: set<string>): seq<ToolCall> {
    if calls == [] then []
    else KnownCalls(calls[..|calls| - 1], catalogue) +
         if calls[|calls| - 1].name in catalogue then [calls[|calls| - 1]] else []
  }

  /** The event keys in everything the tools returned. */
  function KeysReturned(executed: seq<Executed>): set<string> {
    if executed == [] then {} else KeysReturned(executed[..|executed| - 1]) + KeysIn(executed[|executed| - 1].stored)
  }

  function PromptTokens(turns: seq<Turn>): nat {
    if turns == [] then 0 else PromptTokens(turns[..|turns| - 1]) + turns[|turns| - 1].prompt
  }

  function CompletionTokens(turns: seq<Turn>): nat {
    if turns == [] then 0 else CompletionTokens(turns[..|turns| - 1]) + turns[|turns| - 1].completion
  }

  lemma RecordOneMore(executed: seq<Executed>, e: Executed)
    ensures Recorded(executed + [e]) == Recorded(executed) + [CallRow(2 * |executed|, e.call), ResultRow(2 * |executed| + 1, e)]
  {
    var more := executed + [e];
    forall i | 0 <= i < 2 * |more|
      ensures Recorded(more)[i] == (Recorded(executed) + [CallRow(2 * |executed|, e.call), ResultRow(2 * |executed| + 1, e)])[i]
    {
      if i < 2 * |executed| {
        assert more[i / 2] == executed[i / 2];
      } else {
        assert i / 2 == |executed|;
      }
    }
  }

  lemma OneMoreCall(executed: seq<Executed>, e: Executed, catalogue: set<string>)
    ensures Calls(executed + [e]) == Calls(executed) + [e.call]
    ensures KnownCalls(Calls(executed + [e]), catalogue) ==
              KnownCalls(Calls(executed), catalogue) + if e.call.name in catalogue then [e.call] else []
    ensures KeysReturned(executed + [e]) == KeysReturned(executed) + KeysIn(e.stored)
  {
    hide KeysIn;
    assert (executed + [e])[..|executed|] == executed;
    assert Calls(executed + [e])[..|executed|] == Calls(executed);
  }

  lemma NothingYet(model: Model, opening: string)
    ensures AllCalls([]) == Calls([]) == [] && PromptTokens([]) == CompletionTokens([]) == 0
    ensures Conversation(opening, []) == [Opening(opening)] && Asked(model, opening, [], [])
    ensures BUDGET_EXHAUSTED != STEP_CEILING
  {
    assert |BUDGET_EXHAUSTED| != |STEP_CEILING|;
  }

  /** Only names in the catalogue are ever dispatched, and none of those is skipped. */
  lemma {:induction false} OnlyKnownAreDispatched(calls: seq<ToolCall>, catalogue: set<string>)
    ensures forall call :: call in KnownCalls(calls, catalogue) <==> call in calls && call.name in catalogue
  {
    if calls != [] {
      OnlyKnownAreDispatched(calls[..|calls| - 1], catalogue);
      assert calls == calls[..|calls| - 1] + [calls[|calls| - 1]];
    }
  }

  lemma OneMoreTurn(turns: seq<Turn>, turn: Turn)
    ensures AllCalls(turns + [turn]) == AllCalls(turns) + turn.calls
    ensures PromptTokens(turns + [turn]) == PromptTokens(turns) + turn.prompt
    ensures CompletionTokens(turns + [turn]) == CompletionTokens(turns) + turn.completion
  {
    assert (turns + [turn])[..|turns|] == turns;
  }

  /** The run so far is the record of these calls, and the tools know exactly what they returned. */
  ghost predicate Follows(run: AgentRun, tools: BoundTools, executed: seq<Executed>)
    reads run, tools
  {
    && run.Committed() && run.status == Running
    && run.steps == Recorded(executed) && run.stepCount == 2 * |executed|
    && tools.dispatched == KnownCalls(Calls(executed), tools.catalogue)
    && tools.verified == KeysReturned(executed) && Answers(tools, executed)
  }

  /** Record a call, carry it out, and record its result. */
  method HandleCall(run: AgentRun, tools: BoundTools, call: ToolCall, conversation: seq<Entry>, ordinal: nat, ghost executed: seq<Executed>)
    returns (after: seq<Entry>, ghost e: Executed)
    requires Follows(run, tools, executed) && ordinal == 2 * |executed|
    modifies run`steps, run`stepCount, run`commits, tools
    ensures after == conversation + [Called(call), Output(call.callId, e.reply)]
    ensures Follows(run, tools, executed + [e]) && e.call == call
    ensures run.commits == old(run.commits) + [
              Snapshot(old(run.steps) + [StepRow(ordinal, ToolCalled, Some(call.name), Obj(map["call_id" := Str(call.callId), "arguments" := call.arguments]))],
                       ordinal + 1, Running),
              Snapshot(run.steps, ordinal + 2, Running)]
  {
    hide Sound, AllSound, AppendOnly, Recorded, KnownCalls, Calls, KeysReturned, KeysIn, IsAnswer, Answers;
    after := conversation + [Called(call)];
    RecordCall(run, call, ordinal, executed);
    var stored, reply := tools.RunTool(call, run);
    after := after + [Output(call.callId, reply)];
    e := Executed(call, stored, reply);
    AnswersOneMore(tools, executed, e);
    OneMoreCall(executed, e, tools.catalogue);
    RecordResult(run, call, stored, ordinal, executed, e);
  }

  /** The call is committed on its own. */
  method RecordCall(run: AgentRun, call: ToolCall, ordinal: nat, ghost executed: seq<Executed>)
    requires run.Committed() && run.status == Running && run.steps == Recorded(executed) && ordinal == 2 * |executed|
    modifies run`steps, run`stepCount, run`commits
    ensures run.Committed() && run.steps == Recorded(executed) + [CallRow(ordinal, call)]
    ensures run.commits == old(run.commits) + [Snapshot(run.steps, ordinal + 1, Running)]
  {
    hide Sound, AllSound, AppendOnly, Recorded;
    OneRowAfter(executed, CallRow(ordinal, call), Running);
    run.Record(CallRow(ordinal, call));
  }

  /** And so is its result, directly after it. */
  method RecordResult(run: AgentRun, call: ToolCall, stored: Json, ordinal: nat, ghost executed: seq<Executed>, ghost e: Executed)
    requires run.Committed() && run.status == Running && ordinal == 2 * |executed|
    requires run.steps == Recorded(executed) + [CallRow(ordinal, call)] && e.call == call && e.stored == stored
    modifies run`steps, run`stepCount, run`commits
    ensures run.Committed() && run.steps == Recorded(executed + [e]) && run.stepCount == ordinal + 2
    ensures run.commits == old(run.commits) + [Snapshot(run.steps, ordinal + 2, Running)]
  {
    hide Sound, AllSound, AppendOnly, Recorded;
    RecordOneMore(executed, e);
    RecordedIsSound(executed + [e], Running);
    assert run.steps + [ResultRow(ordinal + 1, e)] == Recorded(executed + [e]);
    run.Record(StepRow(ordinal + 1, ToolResult, Some(call.name), stored));
  }

  /** Carry out the calls of one turn. */
  method HandleCalls(run: AgentRun, tools: BoundTools, calls: seq<ToolCall>, conversation: seq<Entry>, ordinal: nat,
                     ghost opening: string, ghost executed: seq<Executed>)
    returns (after: seq<Entry>, next: nat, ghost done: seq<Executed>)
    requires Follows(run, tools, executed) && ordinal == 2 * |executed| && conversation == Conversation(opening, executed)
    modifies run`steps, run`stepCount, run`commits, tools
    ensures Follows(run, tools, done) && next == 2 * |done| && old(run.commits) <= run.commits
    ensures Calls(done) == Calls(executed) + calls && executed <= done && after == Conversation(opening, done)
  {
    hide Follows;
    after, next, done := conversation, ordinal, executed;
    var i := 0;
    while i < |calls|
      invariant i <= |calls|
      invariant Follows(run, tools, done) && next == 2 * |done| && old(run.commits) <= run.commits
      invariant Calls(done) == Calls(executed) + calls[..i] && executed <= done && after == Conversation(opening, done)
    {
      ghost var e;
      after, e := HandleCall(run, tools, calls[i], after, next, done);
      assert Calls(done + [e]) == Calls(done) + [calls[i]];
      assert (done + [e])[..|done|] == done;
      done := done + [e];
      next := next + 2;
      i := i + 1;
    }
  }

  ghost predicate EndedWell(run: AgentRun, executed: seq<Executed>, turns: seq<Turn>, end: LoopEnd, maxSteps: nat)
    reads run
  {
    && run.Committed()
    && |turns| <= maxSteps
    && AllCalls(turns) == Calls(executed)
    && (forall k :: 0 <= k < |turns| - 1 ==> turns[k].calls != [])
    && match end {
         case Answered(text) =>
           && turns != [] && turns[|turns| - 1].calls == []
           && text == (if turns[|turns| - 1].text.Some? then turns[|turns| - 1].text.value else "")
           && run.steps == Recorded(executed) + [StepRow(2 * |executed|, ModelMessage, None, Obj(map["text" := Str(text)]))]
           && run.status == Completed
         case NoAnswer =>
           && (turns != [] ==> turns[|turns| - 1].calls != [])
           && run.steps == Recorded(executed)
           && (run.status == Failed("budget_exhausted") || (run.status == Failed("step_ceiling") && |turns| == maxSteps))
         case Raised =>
           && (turns != [] ==> turns[|turns| - 1].calls != [])
           && run.steps == Recorded(executed) && run.status == Running && |turns| < maxSteps
       }
  }

  /** The conversation in full: the opening, then every call with what the model was told about it. */
  lemma {:induction false} ConversationExactly(opening: string, executed: seq<Executed>, k: nat)
    requires k < |executed|
    ensures |Conversation(opening, executed)| == 2 * |executed| + 1 && Conversation(opening, executed)[0] == Opening(opening)
    ensures Conversation(opening, executed)[2 * k + 1] == Called(executed[k].call)
    ensures Conversation(opening, executed)[2 * k + 2] == Output(executed[k].call.callId, executed[k].reply)
  {
    var init := executed[..|executed| - 1];
    if k < |init| {
      ConversationExactly(opening, init, k);
    } else if k > 0 {
      ConversationExactly(opening, init, k - 1);
    }
  }

  /** Every turn's calls were carried out, turn by turn, all of them and in order. */
  lemma {:induction false} TurnsCalls(turns: seq<Turn>, k: nat)
    requires k < |turns|
    ensures AllCalls(turns[..0]) == []
    ensures |AllCalls(turns[..k + 1])| == |AllCalls(turns[..k])| + |turns[k].calls| <= |AllCalls(turns)|
    ensures AllCalls(turns)[|AllCalls(turns[..k])|..|AllCalls(turns[..k + 1])|] == turns[k].calls
  {
    var init := turns[..|turns| - 1];
    assert turns[..k + 1][..k] == turns[..k];
    if k < |init| {
      TurnsCalls(init, k);
      assert init[..k] == turns[..k] && init[..k + 1] == turns[..k + 1];
    } else {
      assert turns[..k] == init && turns[..k + 1] == turns;
    }
  }

  /** Each turn was the model's reply to everything said before it. */
  ghost predicate Asked(model: Model, opening: string, turns: seq<Turn>, executed: seq<Executed>) {
    forall k :: 0 <= k < |turns| ==> AskedAt(model, opening, turns, executed, k)
  }

  ghost predicate AskedAt(model: Model, opening: string, turns: seq<Turn>, executed: seq<Executed>, k: nat)
    requires k < |turns|
  {
    var n := |AllCalls(turns[..k])|;
    n <= |executed| && model(k, Conversation(opening, executed[..n])) == Some(turns[k])
  }

  lemma AskedMore(model: Model, opening: string, turns: seq<Turn>, turn: Turn, executed: seq<Executed>, done: seq<Executed>)
    requires Asked(model, opening, turns, executed) && AllCalls(turns) == Calls(executed) && executed <= done
    requires model(|turns|, Conversation(opening, executed)) == Some(turn)
    ensures Asked(model, opening, turns + [turn], done)
  {
    hide AllCalls, Conversation;
    var more := turns + [turn];
    forall k | 0 <= k < |more| ensures AskedAt(model, opening, more, done, k) {
      if k < |turns| {
        assert AskedAt(model, opening, turns, executed, k);
        assert more[..k] == turns[..k];
        var n := |AllCalls(turns[..k])|;
        assert done[..n] == executed[..n];
      } else {
        assert more[..k] == turns && |Calls(executed)| == |executed| && done[..|executed|] == executed;
      }
    }
  }

  function TextOrEmpty(turn: Turn): string {
    if turn.text.Some? then turn.text.value else ""
  }

  /** The final message is recorded before the run is marked completed. */
  method Answer(run: AgentRun, ghost tools: BoundTools, text: string, ordinal: nat, ghost executed: seq<Executed>)
    requires Follows(run, tools, executed) && ordinal == 2 * |executed|
    modifies run`steps, run`stepCount, run`status, run`commits
    ensures run.Committed() && old(run.commits) <= run.commits && run.status == Completed
    ensures run.steps == Recorded(executed) + [MessageRow(2 * |executed|, text)]
  {
    hide Sound, AllSound, AppendOnly, Recorded, KnownCalls, Calls, KeysReturned;
    OneRowAfter(executed, MessageRow(ordinal, text), Running);
    OneRowAfter(executed, MessageRow(ordinal, text), Completed);
    run.Record(MessageRow(ordinal, text));
    run.Finish(Completed);
  }

  /** A limit was hit: the run is marked failed and its transcript stays as it is. */
  method GiveUp(run: AgentRun, ghost tools: BoundTools, reason: string, ghost executed: seq<Executed>)
    requires Follows(run, tools, executed)
    modifies run`status, run`commits
    ensures run.Committed() && old(run.commits) <= run.commits && run.status == Failed(reason)
  {
    hide Sound, AllSound, AppendOnly, Recorded, KnownCalls, Calls, KeysReturned;
    RecordedIsSound(executed, Failed(reason));
    run.Finish(Failed(reason));
  }

  /** After these turns the day's total leaves at least 4000 tokens, without which no turn is asked for. */
  ghost predicate Fits(rows: LlmSpend.Table, turns: seq<Turn>, day: int, cap: int) {
    (if SpendKey("__global__", day) in rows then rows[SpendKey("__global__", day)].tokens else 0)
      + PromptTokens(turns) + CompletionTokens(turns) + 4000 <= cap
  }

  lemma FitsExactly(rows: LlmSpend.Table, now: LlmSpend.Table, turns: seq<Turn>, day: int, cap: int)
    requires Used(now, SpendKey(GLOBAL_BUCKET, day)) == Used(rows, SpendKey(GLOBAL_BUCKET, day)) + PromptTokens(turns) + CompletionTokens(turns)
    ensures Fits(rows, turns, day, cap) <==> LlmSpend.Within(now, SpendKey(GLOBAL_BUCKET, day), ESTIMATED_TOKENS_PER_TURN, cap)
  {}

  ghost predicate AllFit(rows: LlmSpend.Table, turns: seq<Turn>, day: int, cap: int) {
    forall k :: 0 <= k < |turns| ==> Fits(rows, turns[..k], day, cap)
  }

  lemma NothingFits(rows: LlmSpend.Table, day: int, cap: int)
    ensures AllFit(rows, [], day, cap)
  {}

  lemma OneMoreFits(rows: LlmSpend.Table, turns: seq<Turn>, turn: Turn, day: int, cap: int)
    requires AllFit(rows, turns, day, cap) && Fits(rows, turns, day, cap)
    ensures AllFit(rows, turns + [turn], day, cap)
  {
    hide Fits;
    var more := turns + [turn];
    assert more[..|turns|] == turns;
    assert forall k :: 0 <= k < |turns| ==> more[..k] == turns[..k];
  }

  /** Drive the model until it answers, the budget refuses a turn, or the steps run out; `Raised`
      where the client raises. `turns` are the replies received and `executed` the calls carried out. */
  method RunLoop(run: AgentRun, model: Model, tools: BoundTools, spend: SpendStore, day: int, opening: string, maxSteps: nat)
    returns (end: LoopEnd, ghost turns: seq<Turn>, ghost executed: seq<Executed>)
    requires Follows(run, tools, [])
    requires run.prompt == 0 && run.completion == 0
    modifies run, tools, spend
    ensures EndedWell(run, executed, turns, end, maxSteps)
    ensures Asked(model, opening, turns, executed)
    ensures Answers(tools, executed)
    ensures AllFit(old(spend.rows), turns, day, spend.dailyTokenBudget)
    ensures run.status == Failed("budget_exhausted") ==> !Fits(old(spend.rows), turns, day, spend.dailyTokenBudget)
    ensures tools.dispatched == KnownCalls(AllCalls(turns), tools.catalogue)
    ensures tools.verified == KeysReturned(executed)
    ensures run.prompt == PromptTokens(turns) && run.completion == CompletionTokens(turns)
    ensures Used(spend.rows, SpendKey(GLOBAL_BUCKET, day)) ==
              Used(old(spend.rows), SpendKey(GLOBAL_BUCKET, day)) + run.prompt + run.completion
    ensures old(run.commits) <= run.commits
  {
    hide Sound, AllSound, AppendOnly, Recorded, KnownCalls, KeysReturned, AllCalls, Calls, PromptTokens, CompletionTokens;
    hide Used, LlmSpend.Within, Conversation, Asked, Answers, Fits, AllFit;
    NothingFits(spend.rows, day, spend.dailyTokenBudget);
    NothingYet(model, opening);
    turns, executed := [], [];
    var conversation, ordinal := [Opening(opening)], 0;
    var i := 0;
    while i < maxSteps
      invariant i <= maxSteps && i == |turns|
      invariant Follows(run, tools, executed) && ordinal == 2 * |executed|
      invariant AllCalls(turns) == Calls(executed) && forall k :: 0 <= k < |turns| ==> turns[k].calls != []
      invariant run.prompt == PromptTokens(turns) && run.completion == CompletionTokens(turns)
      invariant Used(spend.rows, SpendKey(GLOBAL_BUCKET, day)) ==
                  Used(old(spend.rows), SpendKey(GLOBAL_BUCKET, day)) + run.prompt + run.completion
      invariant old(run.commits) <= run.commits && AllFit(old(spend.rows), turns, day, spend.dailyTokenBudget)
      invariant conversation == Conversation(opening, executed) && Asked(model, opening, turns, executed)
    {
      FitsExactly(old(spend.rows), spend.rows, turns, day, spend.dailyTokenBudget);
      var within := spend.WithinBudget(None, ESTIMATED_TOKENS_PER_TURN, day);
      if !within {
        GiveUp(run, tools, BUDGET_EXHAUSTED, executed);
        end := NoAnswer;
        return;
      }
      var reply := model(i, conversation);
      if reply.None? {
        end := Raised;
        return;
      }
      var turn := reply.value;
      OneMoreTurn(turns, turn);
      OneMoreFits(old(spend.rows), turns, turn, day, spend.dailyTokenBudget);
      ghost var before := turns;
      turns := turns + [turn];
      run.Charge(turn, spend, day);
      if turn.calls == [] {
        var text := TextOrEmpty(turn);
        AskedMore(model, opening, before, turn, executed, executed);
        Answer(run, tools, text, ordinal, executed);
        end := Answered(text);
        return;
      }
      ghost var asked := executed;
      conversation, ordinal, executed := HandleCalls(run, tools, turn.calls, conversation, ordinal, opening, executed);
      AskedMore(model, opening, before, turn, asked, executed);
      i := i + 1;
    }
    GiveUp(run, tools, STEP_CEILING, executed);
    end := NoAnswer;
  }
}
