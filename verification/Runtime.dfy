/** The shared tool loop of the agent desks (src/trading/ai/runtime.py:55-146) and the proposal
    sinks behind it (src/trading/ai/tools.py:126-163, src/trading/ai/loop.py:45-111). */
module Runtime {
  import opened Wrappers
  import opened Budget

  datatype Call = Call(id: string, name: string, arguments: string)

  datatype Turn = Turn(text: string, calls: seq<Call>, usage: Usage, modelId: string)

  datatype Message =
    | System(text: string)
    | User(text: string)
    | Assistant(text: string, calls: seq<Call>)
    | Tool(id: string, name: string, content: string)

  /** A model call returns a turn, times out, or raises one of the malformed-output errors. */
  datatype Reply = Reply(turn: Turn) | TimedOut | Malformed

  /** A tool's text, and the record it validated, if any. */
  datatype ToolResult = ToolResult(content: string, record: Option<string>)

  /** The model and the tools are arbitrary: any reply to any conversation, any result to any call. */
  datatype World = World(model: seq<Message> -> Reply, tool: (nat, Call) -> ToolResult)

  datatype Desk = Weekly | Advise

  const EMIT_PROPOSAL := "emit_proposal"
  const EMIT_ADVICE := "emit_advice"

  function TerminalTool(desk: Desk): string { if desk.Weekly? then EMIT_PROPOSAL else EMIT_ADVICE }

  class ToolContext {
    var emitted: seq<string>
    var advice: seq<string>
    var resolvedModel: string

    constructor (resolvedModel: string)
      ensures emitted == [] && advice == [] && this.resolvedModel == resolvedModel
    {
      emitted, advice, this.resolvedModel := [], [], resolvedModel;
    }

    /** The desk's own sink. */
    function Output(desk: Desk): seq<string>
      reads this
    {
      if desk.Weekly? then emitted else advice
    }

    /** `dispatch_tool`: a handler's errors become text, so dispatch itself never fails; a sink grows
        only by its own tool, by one validated record. */
    method Dispatch(world: World, step: nat, call: Call) returns (content: string)
      modifies this`emitted, this`advice
      ensures emitted == old(emitted) + if call.name == EMIT_PROPOSAL then Recorded(world.tool(step, call)) else []
      ensures advice == old(advice) + if call.name == EMIT_ADVICE then Recorded(world.tool(step, call)) else []
      ensures content == world.tool(step, call).content
    {
      var result := world.tool(step, call);
      if result.record.Some? {
        if call.name == EMIT_PROPOSAL {
          emitted := emitted + [result.record.value];
        } else if call.name == EMIT_ADVICE {
          advice := advice + [result.record.value];
        }
      }
      content := result.content;
    }
  }

  function Recorded(r: ToolResult): seq<string> { if r.record.Some? then [r.record.value] else [] }

  // ------------------------------------------------------- the conversation protocol

  /** The calls still waiting for an answer; None once the conversation breaks the protocol: an
      assistant message while calls are open, or an answer to a call that is not next in line. */
  function Pending(messages: seq<Message>): Option<seq<Call>> {
    if messages == [] then Some([])
    else
      var before := Pending(messages[..|messages| - 1]);
      if before.None? then None
      else
        match messages[|messages| - 1]
        case System(_) => before
        case User(_) => before
        case Assistant(_, calls) => if before.value == [] then Some(calls) else None
        case Tool(id, name, _) =>
          if before.value != [] && before.value[0].id == id && before.value[0].name == name
          then Some(before.value[1..]) else None
  }

  lemma PendingWith(messages: seq<Message>, m: Message)
    ensures Pending(messages + [m]) ==
      match Pending(messages)
      case None => None
      case Some(open) =>
        match m
        case System(_) => Some(open)
        case User(_) => Some(open)
        case Assistant(_, calls) => if open == [] then Some(calls) else None
        case Tool(id, name, _) =>
          if open != [] && open[0].id == id && open[0].name == name then Some(open[1..]) else None
  {
    assert (messages + [m])[..|messages|] == messages;
  }

  function CallsOf(turns: seq<Turn>): seq<Call> {
    if turns == [] then [] else CallsOf(turns[..|turns| - 1]) + turns[|turns| - 1].calls
  }

  function UsageOf(turns: seq<Turn>): seq<Usage> {
    if turns == [] then [] else UsageOf(turns[..|turns| - 1]) + [turns[|turns| - 1].usage]
  }

  lemma TurnsWith(turns: seq<Turn>, turn: Turn)
    ensures CallsOf(turns + [turn]) == CallsOf(turns) + turn.calls
    ensures UsageOf(turns + [turn]) == UsageOf(turns) + [turn.usage]
  {
    assert (turns + [turn])[..|turns|] == turns;
  }

  // ------------------------------------------------------------------------- the loop

  datatype Stop = Disabled | Observe | BudgetStop | Timeout | Schema | Terminal | Empty

  /** What a run did: the conversations sent to the model, the turns it returned, the calls
      dispatched, and the conversation it ended with. */
  datatype Trace = Trace(
    sent: seq<seq<Message>>, turns: seq<Turn>, dispatched: seq<Call>, messages: seq<Message>)

  /** What the tools answered to some calls, the first of them made at the given step. */
  function Answers(world: World, step: nat, calls: seq<Call>): seq<Message> {
    if calls == [] then []
    else
      var n := |calls| - 1;
      Answers(world, step, calls[..n]) + [Tool(calls[n].id, calls[n].name, world.tool(step + n, calls[n]).content)]
  }

  /** The conversation once each of the turns was recorded and all its calls answered. */
  function Conversation(world: World, opening: seq<Message>, turns: seq<Turn>): seq<Message> {
    if turns == [] then opening
    else
      var before, turn := turns[..|turns| - 1], turns[|turns| - 1];
      Conversation(world, opening, before) + [Assistant(turn.text, turn.calls)]
        + Answers(world, |CallsOf(before)|, turn.calls)
  }

  /** The records one tool validated over the calls of a run. */
  function Records(world: World, tool: string, calls: seq<Call>): seq<string> {
    if calls == [] then []
    else
      var n := |calls| - 1;
      Records(world, tool, calls[..n]) + if calls[n].name == tool then Recorded(world.tool(n, calls[n])) else []
  }

  /** The last of these calls ends a run: it is to the desk's own tool, and the desk's sink, which held
      `held` records before the run, is not empty after it. */
  ghost predicate Ends(world: World, desk: Desk, held: nat, calls: seq<Call>) {
    && calls != [] && calls[|calls| - 1].name == TerminalTool(desk)
    && held + |Records(world, TerminalTool(desk), calls)| > 0
  }

  ghost predicate NoneEnds(world: World, desk: Desk, held: nat, calls: seq<Call>) {
    calls == [] || (NoneEnds(world, desk, held, calls[..|calls| - 1]) && !Ends(world, desk, held, calls))
  }

  /** A run of these calls was ended by its last one, or by none. */
  ghost predicate Finished(world: World, desk: Desk, held: nat, calls: seq<Call>, terminal: bool) {
    if terminal then Ends(world, desk, held, calls) && NoneEnds(world, desk, held, calls[..|calls| - 1])
    else NoneEnds(world, desk, held, calls)
  }

  /** What the sinks held when a run began. */
  datatype Sinks = Sinks(emitted: seq<string>, advice: seq<string>) {
    function Of(desk: Desk): seq<string> { if desk.Weekly? then emitted else advice }
  }

  /** Since the run began each sink took in exactly what its own tool validated over the calls made. */
  ghost predicate Collected(tools: ToolContext, world: World, held: Sinks, calls: seq<Call>)
    reads tools
  {
    && tools.emitted == held.emitted + Records(world, EMIT_PROPOSAL, calls)
    && tools.advice == held.advice + Records(world, EMIT_ADVICE, calls)
  }

  lemma RecordsWith(world: World, tool: string, calls: seq<Call>, call: Call)
    ensures Records(world, tool, calls + [call]) ==
              Records(world, tool, calls) + if call.name == tool then Recorded(world.tool(|calls|, call)) else []
  {
    assert (calls + [call])[..|calls|] == calls;
  }

  /** Dispatches one call; it ends the run if it is to the desk's own tool and the desk's sink is not
      empty after it. */
  method AnswerCall(
    world: World, tools: ToolContext, desk: Desk, call: Call, step: nat, ghost held: Sinks, ghost calls: seq<Call>)
    returns (content: string, ends: bool)
    requires step == |calls| && Collected(tools, world, held, calls)
    modifies tools`emitted, tools`advice
    ensures content == world.tool(step, call).content
    ensures Collected(tools, world, held, calls + [call])
    ensures ends <==> Ends(world, desk, |held.Of(desk)|, calls + [call])
  {
    RecordsWith(world, EMIT_PROPOSAL, calls, call);
    RecordsWith(world, EMIT_ADVICE, calls, call);
    content := tools.Dispatch(world, step, call);
    ends := call.name == TerminalTool(desk) && tools.Output(desk) != [];
  }

  /** The calls of a turn up to the n-th are answered in this conversation. */
  ghost predicate AnsweredTo(
    world: World, turn: Turn, messages: seq<Message>, step: nat, n: nat, answered: seq<Message>)
  {
    && n <= |turn.calls| && Pending(answered) == Some(turn.calls[n..])
    && answered == messages + [Assistant(turn.text, turn.calls)] + Answers(world, step, turn.calls[..n])
  }

  lemma AnsweredOneMore(
    world: World, turn: Turn, messages: seq<Message>, step: nat, n: nat, answered: seq<Message>, content: string)
    requires AnsweredTo(world, turn, messages, step, n, answered) && n < |turn.calls|
    requires content == world.tool(step + n, turn.calls[n]).content
    ensures AnsweredTo(
              world, turn, messages, step, n + 1, answered + [Tool(turn.calls[n].id, turn.calls[n].name, content)])
  {
    PendingWith(answered, Tool(turn.calls[n].id, turn.calls[n].name, content));
    assert turn.calls[..n + 1][..n] == turn.calls[..n];
  }

  lemma NoneEndsWith(world: World, desk: Desk, held: nat, calls: seq<Call>, call: Call)
    requires NoneEnds(world, desk, held, calls)
    ensures Finished(world, desk, held, calls + [call], Ends(world, desk, held, calls + [call]))
  {
    assert (calls + [call])[..|calls|] == calls;
  }

  lemma TakeOneMore(calls: seq<Call>, more: seq<Call>, n: nat)
    requires n < |more|
    ensures calls + more[..n] + [more[n]] == calls + more[..n + 1]
  {
  }

  /** Records the assistant message and dispatches its calls in order, stopping at a terminal one. */
  method AnswerCalls(
    world: World, tools: ToolContext, desk: Desk, turn: Turn, messages: seq<Message>, step: nat,
    ghost held: Sinks, ghost calls: seq<Call>)
    returns (answered: seq<Message>, terminal: bool, count: nat)
    requires Pending(messages) == Some([]) && step == |calls|
    requires Collected(tools, world, held, calls) && NoneEnds(world, desk, |held.Of(desk)|, calls)
    modifies tools`emitted, tools`advice
    ensures AnsweredTo(world, turn, messages, step, count, answered) && (!terminal ==> count == |turn.calls|)
    ensures Collected(tools, world, held, calls + turn.calls[..count])
    ensures Finished(world, desk, |held.Of(desk)|, calls + turn.calls[..count], terminal)
  {
    PendingWith(messages, Assistant(turn.text, turn.calls));
    answered, terminal, count := messages + [Assistant(turn.text, turn.calls)], false, 0;
    ghost var made := calls;
    while count < |turn.calls|
      invariant AnsweredTo(world, turn, messages, step, count, answered) && made == calls + turn.calls[..count]
      invariant Collected(tools, world, held, made) && NoneEnds(world, desk, |held.Of(desk)|, made)
    {
      var call := turn.calls[count];
      var content, ends := AnswerCall(world, tools, desk, call, step + count, held, made);
      NoneEndsWith(world, desk, |held.Of(desk)|, made, call);
      AnsweredOneMore(world, turn, messages, step, count, answered, content);
      TakeOneMore(calls, turn.calls, count);
      made := made + [call];
      answered, count := answered + [Tool(call.id, call.name, content)], count + 1;
      if ends {
        return answered, true, count;
      }
    }
  }

  /** Every conversation sent to the model had all its calls answered. */
  ghost predicate AllSettled(sent: seq<seq<Message>>) {
    sent == [] || (AllSettled(sent[..|sent| - 1]) && Pending(sent[|sent| - 1]) == Some([]))
  }

  /** Within budget after each of the turns. */
  ghost predicate Within(turns: seq<Turn>, config: Config, prior: real) {
    turns == [] || (Within(turns[..|turns| - 1], config, prior) && !Exhausted(config, prior, UsageOf(turns)))
  }

  /** What every run keeps between turns. */
  ghost predicate Conversing(trace: Trace, count: nat, config: Config, prior: real) {
    && |trace.turns| == |trace.sent| == count
    && AllSettled(trace.sent) && Pending(trace.messages) == Some([])
    && trace.dispatched == CallsOf(trace.turns)
    && Within(trace.turns, config, prior)
  }

  /** What a finished run guarantees. At most `bound` conversations were sent, all settled, and fewer on an
      empty stop only where the last turn made no call. Only a terminal stop leaves calls unanswered, those
      of the last assistant message that follow the terminal one. Every turn but a budget stop's was within
      budget, and the turn that exhausted it had none of its calls dispatched. */
  ghost predicate Disciplined(trace: Trace, stop: Stop, bound: nat, config: Config, prior: real) {
    && |trace.sent| <= bound && AllSettled(trace.sent)
    && (stop.Empty? && |trace.sent| < bound ==> trace.turns != [] && trace.turns[|trace.turns| - 1].calls == [])
    && |trace.turns| == |trace.sent| - (if stop.Timeout? || stop.Schema? then 1 else 0)
    && match stop
       case BudgetStop =>
         && trace.turns != [] && Pending(trace.messages) == Some([])
         && trace.dispatched == CallsOf(trace.turns[..|trace.turns| - 1])
         && Within(trace.turns[..|trace.turns| - 1], config, prior)
         && Exhausted(config, prior, UsageOf(trace.turns))
       case Terminal =>
         && Pending(trace.messages).Some?
         && trace.dispatched + Pending(trace.messages).value == CallsOf(trace.turns)
         && Within(trace.turns, config, prior)
       case _ =>
         && Pending(trace.messages) == Some([])
         && trace.dispatched == CallsOf(trace.turns)
         && Within(trace.turns, config, prior)
  }

  function Sent(trace: Trace): Trace { trace.(sent := trace.sent + [trace.messages]) }

  function Returned(trace: Trace, turn: Turn): Trace { Sent(trace).(turns := trace.turns + [turn]) }

  lemma SentFacts(trace: Trace, count: nat, config: Config, prior: real)
    requires Conversing(trace, count, config, prior)
    ensures AllSettled(Sent(trace).sent) && |Sent(trace).sent| == count + 1
  {
    assert Sent(trace).sent[..|trace.sent|] == trace.sent;
  }

  lemma NoTurn(trace: Trace, count: nat, bound: nat, stop: Stop, config: Config, prior: real)
    requires Conversing(trace, count, config, prior) && count < bound && (stop.Timeout? || stop.Schema?)
    ensures Disciplined(Sent(trace), stop, bound, config, prior)
  {
    SentFacts(trace, count, config, prior);
  }

  lemma OverBudget(trace: Trace, count: nat, bound: nat, turn: Turn, config: Config, prior: real)
    requires Conversing(trace, count, config, prior) && count < bound
    requires Exhausted(config, prior, UsageOf(trace.turns + [turn]))
    ensures Disciplined(Returned(trace, turn), BudgetStop, bound, config, prior)
  {
    SentFacts(trace, count, config, prior);
    assert (trace.turns + [turn])[..|trace.turns|] == trace.turns;
  }

  lemma WithinWith(turns: seq<Turn>, turn: Turn, config: Config, prior: real)
    requires Within(turns, config, prior) && !Exhausted(config, prior, UsageOf(turns + [turn]))
    ensures Within(turns + [turn], config, prior)
  {
    assert (turns + [turn])[..|turns|] == turns;
  }

  lemma NothingToCall(trace: Trace, count: nat, bound: nat, turn: Turn, config: Config, prior: real)
    requires Conversing(trace, count, config, prior) && count < bound && turn.calls == []
    requires !Exhausted(config, prior, UsageOf(trace.turns + [turn]))
    ensures Disciplined(Returned(trace, turn), Empty, bound, config, prior)
  {
    SentFacts(trace, count, config, prior);
    WithinWith(trace.turns, turn, config, prior);
    TurnsWith(trace.turns, turn);
  }

  /** The trace after `n` of a turn's calls were answered. */
  function Answered(trace: Trace, turn: Turn, n: nat, messages: seq<Message>): Trace
    requires n <= |turn.calls|
  {
    Returned(trace, turn).(dispatched := trace.dispatched + turn.calls[..n], messages := messages)
  }

  lemma AllAnswered(trace: Trace, count: nat, turn: Turn, messages: seq<Message>, config: Config, prior: real)
    requires Conversing(trace, count, config, prior) && Pending(messages) == Some(turn.calls[|turn.calls|..])
    requires !Exhausted(config, prior, UsageOf(trace.turns + [turn]))
    ensures Conversing(Answered(trace, turn, |turn.calls|, messages), count + 1, config, prior)
  {
    SentFacts(trace, count, config, prior);
    WithinWith(trace.turns, turn, config, prior);
    TurnsWith(trace.turns, turn);
  }

  lemma SplitCalls(before: seq<Call>, calls: seq<Call>, n: nat)
    requires n <= |calls|
    ensures (before + calls[..n]) + calls[n..] == before + calls
  {
  }

  lemma EndsTerminal(
    trace: Trace, count: nat, bound: nat, turn: Turn, n: nat, messages: seq<Message>, config: Config, prior: real)
    requires Conversing(trace, count, config, prior) && count < bound && n <= |turn.calls|
    requires Pending(messages) == Some(turn.calls[n..])
    requires !Exhausted(config, prior, UsageOf(trace.turns + [turn]))
    ensures Disciplined(Answered(trace, turn, n, messages), Terminal, bound, config, prior)
  {
    SentFacts(trace, count, config, prior);
    WithinWith(trace.turns, turn, config, prior);
    TurnsWith(trace.turns, turn);
    SplitCalls(trace.dispatched, turn.calls, n);
    var end := Answered(trace, turn, n, messages);
    assert end.dispatched == trace.dispatched + turn.calls[..n] && end.turns == trace.turns + [turn];
    assert end.dispatched + Pending(end.messages).value == CallsOf(end.turns);
  }

  /** `tools.resolved_model_id` after some turns: the last one that was named. */
  function LastModel(before: string, turns: seq<Turn>): string {
    if turns == [] then before
    else if turns[|turns| - 1].modelId != "" then turns[|turns| - 1].modelId
    else LastModel(before, turns[..|turns| - 1])
  }

  lemma LastModelWith(before: string, turns: seq<Turn>, turn: Turn)
    ensures LastModel(before, turns + [turn]) ==
              if turn.modelId != "" then turn.modelId else LastModel(before, turns)
  {
    assert (turns + [turn])[..|turns|] == turns;
  }

  /** How a turn leaves the loop. */
  datatype Halt = Continue | OutOfBudget | NoCalls | Emitted

  /** Names the model and charges the turn. */
  method ChargeTurn(tools: ToolContext, budget: TokenBudget, turn: Turn) returns (ok: bool)
    requires budget.Valid()
    modifies tools`resolvedModel, budget, budget.store
    ensures budget.Valid() && budget.usage == old(budget.usage) + [turn.usage]
    ensures budget.store != null ==> budget.store.rows - {budget.key} == old(budget.store.rows) - {budget.key}
    ensures tools.resolvedModel == if turn.modelId != "" then turn.modelId else old(tools.resolvedModel)
    ensures ok <==> !Exhausted(budget.config, budget.prior.spent, budget.usage)
  {
    if turn.modelId != "" {
      tools.resolvedModel := turn.modelId;
    }
    ok := budget.Charge(turn.usage.input, turn.usage.output);
  }

  /** How a turn was left with `n` of its calls answered: all of them to go on, some to end on a record. */
  ghost predicate Halted(
    world: World, turn: Turn, messages: seq<Message>, step: nat, halt: Halt, n: nat, answered: seq<Message>)
  {
    && n <= |turn.calls| && (halt.NoCalls? ==> turn.calls == [])
    && (halt.Continue? ==> n == |turn.calls| > 0) && (halt.OutOfBudget? || halt.NoCalls? ==> n == 0)
    && (halt.Continue? || halt.Emitted? ==> AnsweredTo(world, turn, messages, step, n, answered))
  }

  /** One turn after the model replied: charge it, then answer its calls. */
  method TakeTurn(
    world: World, tools: ToolContext, desk: Desk, budget: TokenBudget, turn: Turn, messages: seq<Message>, step: nat,
    ghost held: Sinks, ghost calls: seq<Call>)
    returns (halt: Halt, answered: seq<Message>, count: nat)
    requires budget.Valid() && Pending(messages) == Some([]) && step == |calls|
    requires Collected(tools, world, held, calls) && NoneEnds(world, desk, |held.Of(desk)|, calls)
    modifies tools, budget, budget.store
    ensures budget.Valid() && budget.usage == old(budget.usage) + [turn.usage]
    ensures budget.store != null ==> budget.store.rows - {budget.key} == old(budget.store.rows) - {budget.key}
    ensures tools.resolvedModel == if turn.modelId != "" then turn.modelId else old(tools.resolvedModel)
    ensures halt.OutOfBudget? <==> Exhausted(budget.config, budget.prior.spent, budget.usage)
    ensures Halted(world, turn, messages, step, halt, count, answered)
    ensures Collected(tools, world, held, calls + turn.calls[..count])
    ensures Finished(world, desk, |held.Of(desk)|, calls + turn.calls[..count], halt.Emitted?)
  {
    answered, count := messages, 0;
    assert calls + turn.calls[..0] == calls;
    var ok := ChargeTurn(tools, budget, turn);
    if !ok {
      return OutOfBudget, answered, 0;
    }
    if turn.calls == [] {
      return NoCalls, answered, 0;
    }
    var terminal;
    answered, terminal, count := AnswerCalls(world, tools, desk, turn, messages, step, held, calls);
    halt := if terminal then Emitted else Continue;
  }

  /** The stop a halted turn ends the run with. */
  function StopOf(halt: Halt): Option<Stop> {
    match halt
    case OutOfBudget => Some(BudgetStop)
    case NoCalls => Some(Empty)
    case Emitted => Some(Terminal)
    case Continue => None
  }

  function AfterTurn(trace: Trace, turn: Turn, halt: Halt, n: nat, answered: seq<Message>): Trace
    requires n <= |turn.calls|
  {
    if halt.OutOfBudget? || halt.NoCalls? then Returned(trace, turn) else Answered(trace, turn, n, answered)
  }

  /** A turn that halts ends a disciplined run, and one that does not keeps the conversation going. */
  lemma TurnLeaves(
    trace: Trace, count: nat, bound: nat, turn: Turn, halt: Halt, n: nat, answered: seq<Message>,
    config: Config, prior: real)
    requires Conversing(trace, count, config, prior) && count < bound && n <= |turn.calls|
    requires halt.OutOfBudget? <==> Exhausted(config, prior, UsageOf(trace.turns + [turn]))
    requires (halt.NoCalls? ==> turn.calls == []) && (halt.Continue? ==> n == |turn.calls|)
    requires halt.Continue? || halt.Emitted? ==> Pending(answered) == Some(turn.calls[n..])
    ensures var end := AfterTurn(trace, turn, halt, n, answered);
            && end.turns == trace.turns + [turn] && end.sent != []
            && (halt.Continue? ==> Conversing(end, count + 1, config, prior) && end.messages == answered)
            && (!halt.Continue? ==> Disciplined(end, StopOf(halt).value, bound, config, prior))
  {
    match halt {
      case OutOfBudget => OverBudget(trace, count, bound, turn, config, prior);
      case NoCalls => NothingToCall(trace, count, bound, turn, config, prior);
      case Emitted => EndsTerminal(trace, count, bound, turn, n, answered, config, prior);
      case Continue => AllAnswered(trace, count, turn, answered, config, prior);
    }
  }

  // ------------------------------------------------------------ the run and its world

  /** Every conversation sent to the model is the opening followed by each earlier turn and the tools'
      answers to its calls, and every turn is the model's reply to the conversation before it. */
  ghost predicate Replied(world: World, opening: seq<Message>, sent: seq<seq<Message>>, turns: seq<Turn>) {
    && |turns| <= |sent| <= |turns| + 1
    && (forall k | 0 <= k < |sent| :: sent[k] == Conversation(world, opening, turns[..k]))
    && (forall k | 0 <= k < |turns| :: world.model(sent[k]) == Reply(turns[k]))
  }

  /** Between turns: everything said was answered. */
  ghost predicate Faithful(world: World, opening: seq<Message>, trace: Trace) {
    && |trace.sent| == |trace.turns| && Replied(world, opening, trace.sent, trace.turns)
    && AllCalled(trace.turns) && trace.messages == Conversation(world, opening, trace.turns)
  }

  ghost predicate AllCalled(turns: seq<Turn>) { forall turn :: turn in turns ==> turn.calls != [] }

  /** The conversation a terminal stop leaves: the last turn is recorded and its calls are answered up to
      the one that ended the run. */
  function LastWords(world: World, opening: seq<Message>, turns: seq<Turn>, dispatched: seq<Call>): seq<Message>
    requires turns != [] && |CallsOf(turns[..|turns| - 1])| <= |dispatched|
  {
    var before, turn := turns[..|turns| - 1], turns[|turns| - 1];
    Conversation(world, opening, before) + [Assistant(turn.text, turn.calls)]
      + Answers(world, |CallsOf(before)|, dispatched[|CallsOf(before)|..])
  }

  /** What a finished run has to do with its world. Only a turn that made calls is followed by another, the
      last conversation sent is the one that timed out or came back malformed exactly on those stops, and a
      terminal stop ends with the last turn answered up to the call that ended it. */
  ghost predicate Genuine(world: World, opening: seq<Message>, trace: Trace, stop: Stop) {
    && Replied(world, opening, trace.sent, trace.turns)
    && (trace.sent != [] ==> AllCalled(trace.turns[..|trace.sent| - 1]))
    && (stop.Timeout? <==> trace.sent != [] && world.model(trace.sent[|trace.sent| - 1]).TimedOut?)
    && (stop.Schema? <==> trace.sent != [] && world.model(trace.sent[|trace.sent| - 1]).Malformed?)
    && (stop.Terminal? ==>
          && trace.turns != [] && |CallsOf(trace.turns[..|trace.turns| - 1])| <= |trace.dispatched|
          && trace.messages == LastWords(world, opening, trace.turns, trace.dispatched))
  }

  lemma RepliedWith(world: World, opening: seq<Message>, trace: Trace, turn: Turn)
    requires Faithful(world, opening, trace) && world.model(trace.messages) == Reply(turn)
    ensures Replied(world, opening, Returned(trace, turn).sent, trace.turns + [turn])
  {
    var sent, turns := Sent(trace).sent, trace.turns + [turn];
    forall k | 0 <= k < |sent| ensures sent[k] == Conversation(world, opening, turns[..k]) {
      assert turns[..k] == trace.turns[..k];
      assert trace.turns[..|trace.turns|] == trace.turns;
    }
  }

  lemma GenuineWithoutTurn(world: World, opening: seq<Message>, trace: Trace, stop: Stop)
    requires Faithful(world, opening, trace)
    requires if stop.Timeout? then world.model(trace.messages).TimedOut?
             else stop.Schema? && world.model(trace.messages).Malformed?
    ensures Genuine(world, opening, Sent(trace), stop)
  {
    SentReplied(world, opening, trace);
    assert Sent(trace).sent[|trace.sent|] == trace.messages;
    assert trace.turns[..|trace.turns|] == trace.turns;
  }

  lemma SentReplied(world: World, opening: seq<Message>, trace: Trace)
    requires Faithful(world, opening, trace)
    ensures Replied(world, opening, Sent(trace).sent, trace.turns)
  {
    assert trace.turns[..|trace.turns|] == trace.turns;
  }

  lemma LastTurn(trace: Trace, turn: Turn)
    ensures (trace.turns + [turn])[..|trace.turns|] == trace.turns
    ensures |Returned(trace, turn).sent| == |trace.sent| + 1
    ensures Returned(trace, turn).sent[|trace.sent|] == trace.messages
  {
  }

  lemma EndsUnanswered(world: World, opening: seq<Message>, trace: Trace, turn: Turn, stop: Stop)
    requires Faithful(world, opening, trace) && world.model(trace.messages) == Reply(turn)
    requires stop.BudgetStop? || stop.Empty?
    ensures Genuine(world, opening, Returned(trace, turn), stop)
  {
    RepliedWith(world, opening, trace, turn);
    LastTurn(trace, turn);
  }

  lemma EndsAnswered(
    world: World, opening: seq<Message>, trace: Trace, turn: Turn, n: nat, answered: seq<Message>)
    requires Faithful(world, opening, trace) && world.model(trace.messages) == Reply(turn)
    requires trace.dispatched == CallsOf(trace.turns)
    requires AnsweredTo(world, turn, trace.messages, |trace.dispatched|, n, answered)
    ensures Genuine(world, opening, Answered(trace, turn, n, answered), Terminal)
  {
    RepliedWith(world, opening, trace, turn);
    LastTurn(trace, turn);
    assert (trace.dispatched + turn.calls[..n])[|trace.dispatched|..] == turn.calls[..n];
  }

  lemma GoesOn(world: World, opening: seq<Message>, trace: Trace, turn: Turn, answered: seq<Message>)
    requires Faithful(world, opening, trace) && world.model(trace.messages) == Reply(turn) && turn.calls != []
    requires trace.dispatched == CallsOf(trace.turns)
    requires AnsweredTo(world, turn, trace.messages, |trace.dispatched|, |turn.calls|, answered)
    ensures Faithful(world, opening, Answered(trace, turn, |turn.calls|, answered))
  {
    RepliedWith(world, opening, trace, turn);
    LastTurn(trace, turn);
    assert turn.calls[..|turn.calls|] == turn.calls;
  }

  /** The answered conversation of a turn, as the halt leaves it. */
  lemma TurnIsGenuine(
    world: World, opening: seq<Message>, trace: Trace, turn: Turn, halt: Halt, n: nat, answered: seq<Message>)
    requires Faithful(world, opening, trace) && world.model(trace.messages) == Reply(turn) && n <= |turn.calls|
    requires trace.dispatched == CallsOf(trace.turns) && (halt.Continue? ==> n == |turn.calls| > 0)
    requires halt.Continue? || halt.Emitted? ==>
               AnsweredTo(world, turn, trace.messages, |trace.dispatched|, n, answered)
    ensures var end := AfterTurn(trace, turn, halt, n, answered);
            && (halt.Continue? ==> Faithful(world, opening, end))
            && (!halt.Continue? ==> Genuine(world, opening, end, StopOf(halt).value))
  {
    if halt.Continue? {
      GoesOn(world, opening, trace, turn, answered);
    } else if halt.Emitted? {
      EndsAnswered(world, opening, trace, turn, n, answered);
    } else {
      EndsUnanswered(world, opening, trace, turn, StopOf(halt).value);
    }
  }

  /** What holds between turns. */
  ghost predicate Going(
    world: World, opening: seq<Message>, trace: Trace, count: nat, config: Config, prior: real)
  {
    Conversing(trace, count, config, prior) && Faithful(world, opening, trace)
  }

  /** What holds of a run that was given up to `bound` turns. */
  ghost predicate Over(
    world: World, opening: seq<Message>, trace: Trace, stop: Stop, bound: nat, config: Config, prior: real)
  {
    Disciplined(trace, stop, bound, config, prior) && Genuine(world, opening, trace, stop)
  }

  /** How a pass leaves the run: over, or with one more turn answered in full. */
  ghost predicate Passed(
    world: World, opening: seq<Message>, trace: Trace, stop: Option<Stop>, count: nat, bound: nat,
    config: Config, prior: real)
  {
    match stop
    case None => Going(world, opening, trace, count + 1, config, prior)
    case Some(s) =>
      !s.Disabled? && !s.Observe? && trace.sent != [] && Over(world, opening, trace, s, bound, config, prior)
  }

  /** The desk's state after the turns of a trace. */
  ghost predicate Tracks(
    tools: ToolContext, desk: Desk, budget: TokenBudget, world: World, held: Sinks, model: string, trace: Trace,
    terminal: bool)
    reads tools, budget, budget.store
  {
    && budget.Valid() && budget.usage == UsageOf(trace.turns)
    && tools.resolvedModel == LastModel(model, trace.turns)
    && Collected(tools, world, held, trace.dispatched)
    && Finished(world, desk, |held.Of(desk)|, trace.dispatched, terminal)
  }

  lemma NoReply(
    world: World, opening: seq<Message>, trace: Trace, count: nat, bound: nat, stop: Stop, config: Config, prior: real)
    requires Going(world, opening, trace, count, config, prior) && count < bound
    requires if stop.Timeout? then world.model(trace.messages).TimedOut?
             else stop.Schema? && world.model(trace.messages).Malformed?
    ensures Passed(world, opening, Sent(trace), Some(stop), count, bound, config, prior)
  {
    NoTurn(trace, count, bound, stop, config, prior);
    GenuineWithoutTurn(world, opening, trace, stop);
  }

  lemma AfterReply(
    world: World, opening: seq<Message>, trace: Trace, count: nat, bound: nat, turn: Turn, halt: Halt, n: nat,
    answered: seq<Message>, config: Config, prior: real, model: string)
    requires Going(world, opening, trace, count, config, prior) && count < bound
    requires world.model(trace.messages) == Reply(turn)
    requires Halted(world, turn, trace.messages, |trace.dispatched|, halt, n, answered)
    requires halt.OutOfBudget? <==> Exhausted(config, prior, UsageOf(trace.turns) + [turn.usage])
    ensures var end := AfterTurn(trace, turn, halt, n, answered);
            && end.dispatched == trace.dispatched + turn.calls[..n]
            && UsageOf(end.turns) == UsageOf(trace.turns) + [turn.usage]
            && LastModel(model, end.turns)
                 == (if turn.modelId != "" then turn.modelId else LastModel(model, trace.turns))
            && Passed(world, opening, end, StopOf(halt), count, bound, config, prior)
            && (halt.Continue? ==> end.messages == answered)
  {
    TurnsWith(trace.turns, turn);
    LastModelWith(model, trace.turns, turn);
    TurnLeaves(trace, count, bound, turn, halt, n, answered, config, prior);
    TurnIsGenuine(world, opening, trace, turn, halt, n, answered);
  }

  /** The rest of a pass, once the model replied. */
  method FollowReply(
    world: World, tools: ToolContext, desk: Desk, budget: TokenBudget, messages: seq<Message>, step: nat, turn: Turn,
    ghost opening: seq<Message>, ghost held: Sinks,
    ghost before: Trace, ghost count: nat, ghost bound: nat, ghost model: string)
    returns (stop: Option<Stop>, next: seq<Message>, done: nat, ghost trace: Trace)
    requires Tracks(tools, desk, budget, world, held, model, before, false) && count < bound
    requires Going(world, opening, before, count, budget.config, budget.prior.spent)
    requires before.messages == messages && step == |before.dispatched|
    requires world.model(messages) == Reply(turn)
    modifies tools, budget, budget.store
    ensures Tracks(tools, desk, budget, world, held, model, trace, stop == Some(Terminal))
    ensures Passed(world, opening, trace, stop, count, bound, budget.config, budget.prior.spent)
    ensures stop.None? ==> trace.messages == next && done == |trace.dispatched|
    ensures budget.store != null ==> budget.store.rows - {budget.key} == old(budget.store.rows) - {budget.key}
  {
    ghost var config, prior := budget.config, budget.prior.spent;
    var halt, answered, n := TakeTurn(world, tools, desk, budget, turn, messages, step, held, before.dispatched);
    AfterReply(world, opening, before, count, bound, turn, halt, n, answered, config, prior, model);
    stop, next, done, trace := StopOf(halt), answered, step + n, AfterTurn(before, turn, halt, n, answered);
  }

  /** One pass of the loop: ask the model, then leave the loop or go round again. */
  method Step(
    world: World, tools: ToolContext, desk: Desk, budget: TokenBudget, messages: seq<Message>, step: nat,
    ghost opening: seq<Message>, ghost held: Sinks,
    ghost before: Trace, ghost count: nat, ghost bound: nat, ghost model: string)
    returns (stop: Option<Stop>, next: seq<Message>, done: nat, ghost trace: Trace)
    requires Tracks(tools, desk, budget, world, held, model, before, false) && count < bound
    requires Going(world, opening, before, count, budget.config, budget.prior.spent)
    requires before.messages == messages && step == |before.dispatched|
    modifies tools, budget, budget.store
    ensures Tracks(tools, desk, budget, world, held, model, trace, stop == Some(Terminal))
    ensures Passed(world, opening, trace, stop, count, bound, budget.config, budget.prior.spent)
    ensures stop.None? ==> trace.messages == next && done == |trace.dispatched|
    ensures budget.store != null ==> budget.store.rows - {budget.key} == old(budget.store.rows) - {budget.key}
  {
    ghost var config, prior := budget.config, budget.prior.spent;
    next, done := messages, step;
    var reply := world.model(messages);
    if !reply.Reply? {
      stop := Some(if reply.TimedOut? then Timeout else Schema);
      NoReply(world, opening, before, count, bound, stop.value, config, prior);
      return stop, next, done, Sent(before);
    }
    stop, next, done, trace := FollowReply(
      world, tools, desk, budget, messages, step, reply.turn, opening, held, before, count, bound, model);
  }

  /** The loop itself. */
  method Converse(
    world: World, tools: ToolContext, desk: Desk, budget: TokenBudget, iterations: nat, opening: seq<Message>)
    returns (stop: Stop, ghost trace: Trace)
    requires budget.Valid() && budget.usage == [] && Pending(opening) == Some([])
    modifies tools, budget, budget.store
    ensures !stop.Disabled? && !stop.Observe?
    ensures Over(world, opening, trace, stop, iterations, budget.config, budget.prior.spent)
    ensures iterations >= 1 ==> trace.sent != []
    ensures budget.Valid() && budget.usage == UsageOf(trace.turns)
    ensures budget.store != null ==> budget.store.rows - {budget.key} == old(budget.store.rows) - {budget.key}
    ensures tools.resolvedModel == LastModel(old(tools.resolvedModel), trace.turns)
    ensures Collected(tools, world, Sinks(old(tools.emitted), old(tools.advice)), trace.dispatched)
    ensures Finished(world, desk, |old(tools.Output(desk))|, trace.dispatched, stop.Terminal?)
  {
    ghost var config, prior, model := budget.config, budget.prior.spent, tools.resolvedModel;
    ghost var held := Sinks(tools.emitted, tools.advice);
    var messages, step := opening, 0;
    trace := Trace([], [], [], messages);
    for i := 0 to iterations
      invariant Tracks(tools, desk, budget, world, held, model, trace, false)
      invariant Going(world, opening, trace, i, config, prior)
      invariant trace.messages == messages && step == |trace.dispatched|
      invariant budget.store != null ==> budget.store.rows - {budget.key} == old(budget.store.rows) - {budget.key}
    {
      var left;
      left, messages, step, trace :=
        Step(world, tools, desk, budget, messages, step, opening, held, trace, i, iterations, model);
      if left.Some? {
        return left.value, trace;
      }
    }
    return Empty, trace;
  }

  /** What one run guarantees, from the money its ledger row shows at the start. */
  ghost predicate Ran(trace: Trace, stop: Stop, config: Config, maxIterations: int, observing: bool, prior: real) {
    && (stop.Disabled? <==> !config.enabled)
    && (stop.Observe? <==> config.enabled && observing)
    && if stop.Disabled? || stop.Observe? then trace == Trace([], [], [], [])
       else Disciplined(trace, stop, Clip(maxIterations), config, prior) && (maxIterations >= 1 ==> trace.sent != [])
  }

  /** Whatever the model was asked, it was asked in a conversation that opens with the two prompts. */
  ghost predicate Heard(world: World, system: string, prompt: string, trace: Trace, stop: Stop) {
    stop.Disabled? || stop.Observe? || Genuine(world, [System(system), User(prompt)], trace, stop)
  }

  /** `run_desk_tool_loop`, against any model and any tools. At most `maxIterations` model calls, and
      at least one where one is allowed; the ledger row grows by exactly this run's spend and no other
      row moves; from an empty sink, a record comes out exactly on a terminal stop, and then only one. */
  method RunDeskToolLoop(
    world: World, config: Config, maxIterations: int, observing: bool, tools: ToolContext, desk: Desk,
    key: Key, store: Ledger?, system: string, prompt: string)
    returns (stop: Stop, ghost trace: Trace)
    modifies tools, store
    ensures Ran(trace, stop, config, maxIterations, observing, if store == null then 0.0 else old(store.Get(key).spent))
    ensures store != null ==>
              store.Get(key).spent == old(store.Get(key).spent) + Spend(config, UsageOf(trace.turns))
    ensures store != null ==> store.rows - {key} == old(store.rows) - {key}
    ensures tools.resolvedModel == LastModel(old(tools.resolvedModel), trace.turns)
    ensures Heard(world, system, prompt, trace, stop)
    ensures Collected(tools, world, Sinks(old(tools.emitted), old(tools.advice)), trace.dispatched)
    ensures Finished(world, desk, |old(tools.Output(desk))|, trace.dispatched, stop.Terminal?)
    ensures old(tools.Output(desk)) == [] ==>
              tools.Output(desk) == if stop.Terminal? then LastRecord(world, trace.dispatched) else []
    ensures old(tools.Output(desk)) == [] && stop.Terminal? ==> |tools.Output(desk)| == 1
  {
    trace := Trace([], [], [], []);
    if !config.enabled {
      return Disabled, trace;
    }
    if observing {
      return Observe, trace;
    }
    var budget := new TokenBudget(config, key, store);
    OpeningIsSettled(system, prompt);
    stop, trace := Converse(world, tools, desk, budget, Clip(maxIterations), [System(system), User(prompt)]);
    if old(tools.Output(desk)) == [] { OneRecordAtMost(world, desk, trace.dispatched, stop.Terminal?); }
  }

  /** The record the last of some calls validated. */
  function LastRecord(world: World, calls: seq<Call>): seq<string> {
    if calls == [] then [] else Recorded(world.tool(|calls| - 1, calls[|calls| - 1]))
  }

  lemma {:induction false} NothingRecorded(world: World, desk: Desk, calls: seq<Call>)
    requires NoneEnds(world, desk, 0, calls)
    ensures Records(world, TerminalTool(desk), calls) == []
  {
    if calls != [] { NothingRecorded(world, desk, calls[..|calls| - 1]); }
  }

  /** From an empty sink a run comes to one record, the one its last call validated, exactly when that
      call ended it. */
  lemma OneRecordAtMost(world: World, desk: Desk, calls: seq<Call>, terminal: bool)
    requires Finished(world, desk, 0, calls, terminal)
    ensures Records(world, TerminalTool(desk), calls) == if terminal then LastRecord(world, calls) else []
    ensures terminal ==> |LastRecord(world, calls)| == 1
  {
    if terminal {
      NothingRecorded(world, desk, calls[..|calls| - 1]);
    } else {
      NothingRecorded(world, desk, calls);
    }
  }

  lemma OpeningIsSettled(system: string, prompt: string)
    ensures Pending([System(system), User(prompt)]) == Some([])
  {
    assert [System(system), User(prompt)] == ([] + [System(system)]) + [User(prompt)];
    PendingWith([], System(system));
    PendingWith([] + [System(system)], User(prompt));
  }

  lemma {:induction false} ExhaustedFromTheStart(turns: seq<Turn>, config: Config, prior: real)
    requires config.Valid() && prior > config.monthlyBudget && Within(turns, config, prior)
    ensures turns == []
  {
    if turns != [] { SpendNonNegative(config, UsageOf(turns)); }
  }

  /** Once the month is over its cap, a run makes exactly one model call where it may make any, runs
      no tool, and stops on the budget if that call returns. */
  lemma ExhaustedMonthMakesOneCall(
    trace: Trace, stop: Stop, config: Config, maxIterations: int, observing: bool, prior: real)
    requires config.Valid() && prior > config.monthlyBudget
    requires Ran(trace, stop, config, maxIterations, observing, prior)
    ensures |trace.sent| == if config.enabled && !observing && maxIterations >= 1 then 1 else 0
    ensures trace.dispatched == []
    ensures trace.turns != [] ==> stop.BudgetStop?
  {
    if config.enabled && !observing {
      if stop.BudgetStop? {
        ExhaustedFromTheStart(trace.turns[..|trace.turns| - 1], config, prior);
      } else {
        ExhaustedFromTheStart(trace.turns, config, prior);
      }
    }
  }

  // ------------------------------------------------------------- the runs of one month

  /** One scheduled run: any world, any prompt. */
  datatype Job = Job(world: World, desk: Desk, maxIterations: int, observing: bool, system: string, prompt: string)

  ghost function Usages(traces: seq<Trace>): (usages: seq<seq<Usage>>)
    ensures |usages| == |traces| && forall k | 0 <= k < |traces| :: usages[k] == UsageOf(traces[k].turns)
  {
    seq(|traces|, k requires 0 <= k < |traces| => UsageOf(traces[k].turns))
  }

  ghost predicate RanJob(job: Job, config: Config, stop: Stop, trace: Trace, prior: real) {
    && Ran(trace, stop, config, job.maxIterations, job.observing, prior)
    && Heard(job.world, job.system, job.prompt, trace, stop)
  }

  /** The runs of some jobs, each starting from the reading the one before it left. */
  ghost predicate RanAll(
    jobs: seq<Job>, config: Config, stops: seq<Stop>, traces: seq<Trace>, readings: seq<real>)
  {
    && |stops| == |traces| == |jobs| && Chained(config, Usages(traces), readings)
    && forall k | 0 <= k < |jobs| ::
         RanJob(jobs[k], config, stops[k], traces[k], readings[k])
  }

  lemma RanOneMore(
    jobs: seq<Job>, config: Config, stops: seq<Stop>, traces: seq<Trace>, readings: seq<real>,
    job: Job, stop: Stop, trace: Trace, reading: real)
    requires RanAll(jobs, config, stops, traces, readings)
    requires RanJob(job, config, stop, trace, readings[|jobs|])
    requires reading == readings[|jobs|] + Spend(config, UsageOf(trace.turns))
    ensures RanAll(jobs + [job], config, stops + [stop], traces + [trace], readings + [reading])
  {
    assert Usages(traces + [trace]) == Usages(traces) + [UsageOf(trace.turns)];
    ChainedWith(config, Usages(traces), readings, UsageOf(trace.turns), reading);
    forall k | 0 <= k < |jobs| + 1
      ensures RanJob(
                (jobs + [job])[k], config, (stops + [stop])[k], (traces + [trace])[k], (readings + [reading])[k])
    {
      if k < |jobs| { assert RanJob(jobs[k], config, stops[k], traces[k], readings[k]); }
    }
  }

  /** Once a reading exceeds the monthly cap, every later run makes the one call it starts with and
      dispatches nothing. */
  lemma ExhaustedMonthStaysExhausted(
    jobs: seq<Job>, config: Config, stops: seq<Stop>, traces: seq<Trace>, readings: seq<real>, i: nat, k: nat)
    requires config.Valid() && RanAll(jobs, config, stops, traces, readings)
    requires i <= k < |jobs| && readings[i] > config.monthlyBudget
    ensures |traces[k].sent| == if config.enabled && !jobs[k].observing && jobs[k].maxIterations >= 1 then 1 else 0
    ensures traces[k].dispatched == []
  {
    ReadingsRise(config, Usages(traces), readings, i, k);
    assert RanJob(jobs[k], config, stops[k], traces[k], readings[k]);
    ExhaustedMonthMakesOneCall(traces[k], stops[k], config, jobs[k].maxIterations, jobs[k].observing, readings[k]);
  }

  /** Runs one after another over one ledger row. The row ends at the sum of all charges, within half a
      ten-thousandth of a rupee per charge of their exact cost. */
  method RunMonth(jobs: seq<Job>, config: Config, key: Key, store: Ledger, model: string)
    returns (stops: seq<Stop>, ghost traces: seq<Trace>, ghost readings: seq<real>)
    requires config.Valid()
    modifies store
    ensures RanAll(jobs, config, stops, traces, readings)
    ensures readings[0] == old(store.Get(key).spent) && readings[|jobs|] == store.Get(key).spent
    ensures store.Get(key).spent == old(store.Get(key).spent) + TotalSpend(config, Usages(traces))
    ensures var charges := ChargeCount(Usages(traces)) as real;
            var error := store.Get(key).spent - old(store.Get(key).spent) - TotalExact(config, Usages(traces));
            -charges <= error * 20000.0 <= charges
    ensures store.rows - {key} == old(store.rows) - {key}
  {
    stops, traces, readings := [], [], [store.Get(key).spent];
    for n := 0 to |jobs|
      invariant RanAll(jobs[..n], config, stops, traces, readings)
      invariant readings[0] == old(store.Get(key).spent) && readings[n] == store.Get(key).spent
      invariant store.rows - {key} == old(store.rows) - {key}
    {
      var job := jobs[n];
      var tools := new ToolContext(model);
      var stop;
      ghost var trace;
      stop, trace := RunDeskToolLoop(
        job.world, config, job.maxIterations, job.observing, tools, job.desk, key, store, job.system, job.prompt);
      RanOneMore(jobs[..n], config, stops, traces, readings, job, stop, trace, store.Get(key).spent);
      assert jobs[..n] + [job] == jobs[..n + 1];
      stops, traces, readings := stops + [stop], traces + [trace], readings + [store.Get(key).spent];
    }
    assert jobs[..|jobs|] == jobs;
    LedgerIsSumOfCharges(config, Usages(traces), readings);
  }
}
