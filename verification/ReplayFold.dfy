/** The fold as it runs: maps updated in place, pruned by deleting entries while iterating. */
module ReplayFold {
  import opened Collections
  import opened Events
  import opened Records
  import opened CommandQueues
  import opened ReducedState

  lemma {:induction false} DeleteBetween<K(!new), V>(a: OMap<K, V>, b: OMap<K, V>)
    requires b.Entry? && !a.Has(b.key) && b.Unique()
    ensures Concat(a, b).Delete(b.key) == Concat(a, b.rest)
  {
    if a == Empty {
      DeleteAbsent(b.rest, b.key);
    } else {
      DeleteBetween(a.rest, b);
    }
  }

  lemma {:induction false} FilterSnoc<K(!new), V>(a: OMap<K, V>, k: K, v: V, keep: (K, V) -> bool)
    requires a.Unique() && !a.Has(k)
    ensures var one := Entry(k, v, Empty);
            && Concat(a, one).Unique()
            && (forall j {:trigger Concat(a, one).Get(j)} ::
              Concat(a, one).Get(j) ==
              if j == k then Some(v) else a.Get(j))
            && Concat(a, one).Filter(keep) == if keep(k, v) then Concat(a.Filter(keep), one) else a.Filter(keep)
  {
    if a.Entry? {
      FilterSnoc(a.rest, k, v, keep);
      ConcatGet(a.rest, k, v, a.key);
    }
  }

  /** Visit the entries in order, deleting each one that is not kept. */
  method DeleteUnless<K(!new, ==), V>(m: OrderedMap<K, V>, keep: (K, V) -> bool) returns (r: OrderedMap<K, V>)
    ensures r == m.Filter(keep)
  {
    r := m;
    var visiting: OMap<K, V> := m;
    ghost var visited: OMap<K, V> := Empty;
    while visiting.Entry?
      invariant m == Concat(visited, visiting)
      invariant visited.Unique()
      invariant r == Concat(visited.Filter(keep), visiting)
      decreases visiting
    {
      UniqueConcat(visited, visiting);
      FilterSnoc(visited, visiting.key, visiting.value, keep);
      ConcatSnoc(visited, visiting);
      ConcatSnoc(visited.Filter(keep), visiting);
      if !keep(visiting.key, visiting.value) {
        DeleteBetween(visited.Filter(keep), visiting);
        r := r.Delete(visiting.key);
      }
      visited := Concat(visited, Entry(visiting.key, visiting.value, Empty));
      visiting := visiting.rest;
    }
    ConcatNil(visited);
    ConcatNil(visited.Filter(keep));
  }

  predicate IsScheduling(p: Payload) {
    p.RunSchedulingRequested? || p.RunSchedulingDelivered? || p.RunSchedulingInvalidated? || p.RunSchedulingGranted?
  }

  predicate IsCommandEvent(p: Payload) {
    p.CommandAdmitted? || p.CommandStarted? || p.CommandClosed?
  }

  predicate IsRunEvent(p: Payload) {
    p.RunStarted? || p.RunClosed? || p.RecoveryCompleted? || p.SessionConfigured?
  }

  predicate IsTurnEvent(p: Payload) {
    p.TurnStarted? || p.TurnClosed?
  }

  predicate IsInferenceEvent(p: Payload) {
    p.InferenceStarted? || p.InferenceCompleted? || p.InferenceFailed?
  }

  predicate IsToolCallEvent(p: Payload) {
    p.ToolCallCreated? || p.ToolCallRejected? || p.ToolCallStarted? || p.ToolCallCompleted? || p.ToolCallFailed?
  }

  predicate IsNewMessage(p: Payload) {
    || p.SystemMessageCommitted? || p.UserMessageCommitted? || p.UserMessageSubmitted? || p.SteeringMessageQueued?
    || p.AssistantMessageCommitted? || p.AssistantMessageImported? || p.AssistantPartialCommitted?
  }

  predicate IsMessageChange(p: Payload) {
    p.UserMessagePromoted? || p.UserMessageCancelled? || p.SteeringMessageCancelled? || p.MessagesPaused?
  }

  predicate IsStopRequest(p: Payload) {
    p.StopTurnRequested? || p.StopTurnApplied?
  }

  predicate IsCompactionEvent(p: Payload) {
    p.CompactionRequested? || p.CompactionStarted? || p.SummaryCreated? || p.CompactionCompleted? || p.CompactionFailed?
  }

  // What an event of each kind changes besides the position; `Only` says that it changes nothing else.

  function WithScheduling(r: Replay, e: Committed): Replay {
    r.(lastSeq := e.at, request := ApplyRequest(r.request, e))
  }

  lemma {:induction false} OnlyScheduling(r: Replay, e: Committed)
    requires IsScheduling(e.event.payload)
    ensures Apply(r, e) == WithScheduling(r, e)
  {
  }

  function WithCommands(r: Replay, e: Committed): Replay {
    r.(lastSeq := e.at, commands := ApplyCommands(r.commands, e))
  }

  lemma {:induction false} OnlyCommands(r: Replay, e: Committed)
    requires IsCommandEvent(e.event.payload)
    ensures Apply(r, e) == WithCommands(r, e)
  {
  }

  function WithRuns(r: Replay, e: Committed): Replay {
    r.(lastSeq := e.at, model := ApplyModel(r.model, e), runs := ApplyRuns(r.runs, e),
       recoveries := ApplyRecoveries(r.recoveries, r.runs, e))
  }

  lemma {:induction false} OnlyRuns(r: Replay, e: Committed)
    requires IsRunEvent(e.event.payload)
    ensures Apply(r, e) == WithRuns(r, e)
  {
  }

  function WithTurns(r: Replay, e: Committed): Replay {
    r.(lastSeq := e.at, turns := ApplyTurns(r.turns, e), messages := ApplyMessages(r.messages, e))
  }

  lemma {:induction false} OnlyTurns(r: Replay, e: Committed)
    requires IsTurnEvent(e.event.payload)
    ensures Apply(r, e) == WithTurns(r, e)
  {
  }

  function WithInferences(r: Replay, e: Committed): Replay {
    r.(lastSeq := e.at, inferences := ApplyInferences(r.inferences, e), tokens := ApplyTokens(r, e))
  }

  lemma {:induction false} OnlyInferences(r: Replay, e: Committed)
    requires IsInferenceEvent(e.event.payload)
    ensures Apply(r, e) == WithInferences(r, e)
  {
  }

  function WithToolCalls(r: Replay, e: Committed): Replay {
    r.(lastSeq := e.at, toolCalls := ApplyToolCalls(r.toolCalls, e))
  }

  lemma {:induction false} OnlyToolCalls(r: Replay, e: Committed)
    requires IsToolCallEvent(e.event.payload)
    ensures Apply(r, e) == WithToolCalls(r, e)
  {
  }

  function WithStopRequests(r: Replay, e: Committed): Replay {
    r.(lastSeq := e.at, stopRequests := ApplyStopRequests(r.stopRequests, e))
  }

  lemma {:induction false} OnlyStopRequests(r: Replay, e: Committed)
    requires IsStopRequest(e.event.payload)
    ensures Apply(r, e) == WithStopRequests(r, e)
  {
  }

  function WithCompactions(r: Replay, e: Committed): Replay {
    r.(lastSeq := e.at, compactions := ApplyCompactions(r.compactions, r.context, e), tokens := ApplyTokens(r, e))
  }

  lemma {:induction false} OnlyCompactions(r: Replay, e: Committed)
    requires IsCompactionEvent(e.event.payload)
    ensures Apply(r, e) == WithCompactions(r, e)
  {
  }

  function WithMessages(r: Replay, e: Committed): Replay {
    r.(lastSeq := e.at, messages := ApplyMessages(r.messages, e))
  }

  lemma {:induction false} OnlyNewMessage(r: Replay, e: Committed)
    requires IsNewMessage(e.event.payload)
    ensures Apply(r, e) == WithMessages(r, e)
  {
  }

  lemma {:induction false} OnlyMessageChange(r: Replay, e: Committed)
    requires IsMessageChange(e.event.payload)
    ensures Apply(r, e) == WithMessages(r, e)
  {
  }

  predicate IsElsewhere(p: Payload) {
    p.ContextProjected? || p.BaseState? || p.Foreign?
  }

  /** Base-state events and other namespaces only move the position. */
  function WithPosition(r: Replay, e: Committed): Replay {
    r.(lastSeq := e.at,
       context := if e.event.payload.ContextProjected?
         then r.context.(version := e.event.payload.contextVersion)
         else r.context)
  }

  lemma {:induction false} OnlyPosition(r: Replay, e: Committed)
    requires IsElsewhere(e.event.payload)
    ensures Apply(r, e) == WithPosition(r, e)
  {
  }

  /** What a rebase leaves. */
  function Rebased(r: Replay, e: Committed): Replay
    requires e.event.payload.ContextRebased?
  {
    var ContextRebased(id, summaryId, version, from) := e.event.payload;
    var record := CompactionOf(r.compactions, id).(summaryId := Some(summaryId), rebasedSeq :=
      Some(e.at), contextVersion := Some(version));
    var runs := PruneRuns(r.runs, from);
    r.(lastSeq := e.at, context := ContextRecord(version, Some(summaryId)), commands :=
      PruneCommands(r.commands, from), runs := runs,
       recoveries := PruneRecoveries(r.recoveries, runs), turns := PruneTurns(r.turns, from),
       inferences := PruneInferences(r.inferences, from), toolCalls := PruneToolCalls(r.toolCalls, from),
       messages := PruneMessages(r.messages, from), stopRequests := PruneStopRequests(r.stopRequests, from),
       compactions := PruneCompactions(r.compactions.Set(id, record), summaryId))
  }

  lemma {:induction false} ApplyRebased(r: Replay, e: Committed)
    requires e.event.payload.ContextRebased?
    ensures Apply(r, e) == Rebased(r, e)
  {
  }

  predicate IsExecution(p: Payload) {
    IsScheduling(p) || IsCommandEvent(p) || IsRunEvent(p) || IsTurnEvent(p)
  }

  predicate IsStreaming(p: Payload) {
    IsInferenceEvent(p) || IsToolCallEvent(p)
  }

  /** One event, kind by kind. */
  function Changed(r: Replay, e: Committed): Replay {
    if IsExecution(e.event.payload) then ChangedExecution(r, e)
    else if IsStreaming(e.event.payload) then ChangedStreaming(r, e)
    else if e.event.payload.ContextRebased? then Rebased(r, e)
    else if IsCompactionEvent(e.event.payload) then WithCompactions(r, e)
    else ChangedRecords(r, e)
  }

  function ChangedExecution(r: Replay, e: Committed): Replay {
    var p := e.event.payload;
    if IsScheduling(p) then WithScheduling(r, e)
    else if IsCommandEvent(p) then WithCommands(r, e)
    else if IsRunEvent(p) then WithRuns(r, e)
    else WithTurns(r, e)
  }

  function ChangedStreaming(r: Replay, e: Committed): Replay {
    if IsInferenceEvent(e.event.payload) then WithInferences(r, e) else WithToolCalls(r, e)
  }

  function ChangedRecords(r: Replay, e: Committed): Replay {
    var p := e.event.payload;
    if IsNewMessage(p) || IsMessageChange(p) then WithMessages(r, e)
    else if IsStopRequest(p) then WithStopRequests(r, e)
    else WithPosition(r, e)
  }

  /** Kind by kind and map by map, an event changes the state alike. */
  lemma {:induction false} ChangedIsApplied(r: Replay, e: Committed)
    ensures Changed(r, e) == Apply(r, e)
  {
    var p := e.event.payload;
    if IsScheduling(p) {
      OnlyScheduling(r, e);
    } else if IsCommandEvent(p) {
      OnlyCommands(r, e);
    } else if IsRunEvent(p) {
      OnlyRuns(r, e);
    } else if IsTurnEvent(p) {
      OnlyTurns(r, e);
    } else if IsInferenceEvent(p) {
      OnlyInferences(r, e);
    } else if IsToolCallEvent(p) {
      OnlyToolCalls(r, e);
    } else if IsNewMessage(p) {
      OnlyNewMessage(r, e);
    } else if IsMessageChange(p) {
      OnlyMessageChange(r, e);
    } else if IsStopRequest(p) {
      OnlyStopRequests(r, e);
    } else if IsCompactionEvent(p) {
      OnlyCompactions(r, e);
    } else if p.ContextRebased? {
      ApplyRebased(r, e);
    } else {
      OnlyPosition(r, e);
    }
  }

  /** The maps and values one fold updates. */
  class ReplayMaps {
    var lastSeq: Seq
    var request: Option<RequestRecord>
    var model: Option<Json>
    var commands: Commands
    var runs: Runs
    var recoveries: Recoveries
    var turns: Turns
    var inferences: Inferences
    var toolCalls: ToolCalls
    var messages: Messages
    var stopRequests: StopRequests
    var compactions: Compactions
    var context: ContextRecord
    var tokens: TokenConsumption

    /** Copies of the maps of `r`. */
    constructor (r: Replay)
      ensures Value() == r
    {
      lastSeq, request, model, context, tokens := r.lastSeq, r.request, r.model, r.context, r.tokens;
      commands, runs, recoveries, turns, inferences := r.commands, r.runs, r.recoveries, r.turns, r.inferences;
      toolCalls, messages, stopRequests, compactions := r.toolCalls, r.messages, r.stopRequests, r.compactions;
    }

    function Value(): Replay
      reads this
    {
      Replay(lastSeq, request, model, commands, runs, recoveries, turns, inferences, toolCalls, messages,
             stopRequests, compactions, context, tokens)
    }

    /** Drop runtime records a rebase made model-invisible, map by map. */
    method PruneForContextRebase(from: Seq, summaryId: SummaryId)
      modifies `messages, `toolCalls, `inferences, `turns, `runs, `recoveries, `commands, `stopRequests, `compactions
      ensures messages == PruneMessages(old(messages), from)
      ensures toolCalls == PruneToolCalls(old(toolCalls), from)
      ensures inferences == PruneInferences(old(inferences), from)
      ensures turns == PruneTurns(old(turns), from)
      ensures runs == PruneRuns(old(runs), from)
      ensures recoveries == PruneRecoveries(old(recoveries), PruneRuns(old(runs), from))
      ensures commands == PruneCommands(old(commands), from)
      ensures stopRequests == PruneStopRequests(old(stopRequests), from)
      ensures compactions == PruneCompactions(old(compactions), summaryId)
    {
      PruneMessageHistory(from);
      PruneExecutions(from);
      PruneControls(from, summaryId);
    }

    method PruneMessageHistory(from: Seq)
      modifies `messages, `toolCalls
      ensures messages == PruneMessages(old(messages), from)
      ensures toolCalls == PruneToolCalls(old(toolCalls), from)
    {
      messages := DeleteUnless(messages, KeptMessages(from));
      toolCalls := DeleteUnless(toolCalls, KeptToolCalls(from));
    }

    method PruneExecutions(from: Seq)
      modifies `inferences, `turns, `runs, `recoveries
      ensures inferences == PruneInferences(old(inferences), from)
      ensures turns == PruneTurns(old(turns), from)
      ensures runs == PruneRuns(old(runs), from)
      ensures recoveries == PruneRecoveries(old(recoveries), runs)
    {
      inferences := DeleteUnless(inferences, KeptInferences(from));
      turns := DeleteUnless(turns, KeptTurns(from));
      runs := DeleteUnless(runs, KeptRuns(from));
      recoveries := DeleteUnless(recoveries, KeptRecoveries(runs));
    }

    method PruneControls(from: Seq, summaryId: SummaryId)
      modifies `commands, `stopRequests, `compactions
      ensures commands == PruneCommands(old(commands), from)
      ensures stopRequests == PruneStopRequests(old(stopRequests), from)
      ensures compactions == PruneCompactions(old(compactions), summaryId)
    {
      commands := DeleteUnless(commands, KeptCommands(from));
      stopRequests := DeleteUnless(stopRequests, KeptStopRequests(from));
      compactions := DeleteUnless(compactions, KeptCompactions(summaryId));
    }

    // -------------------------------------------------------------------------
    // One event
    // -------------------------------------------------------------------------

    /** Each event updates the maps it concerns; base-state events and other namespaces only move the position. */
    method ApplyEvent(e: Committed)
      modifies this
      ensures Value() == Apply(old(Value()), e)
    {
      ChangedIsApplied(Value(), e);
      if IsExecution(e.event.payload) {
        SwitchOnExecution(e);
      } else if IsStreaming(e.event.payload) {
        SwitchOnStreaming(e);
      } else if e.event.payload.ContextRebased? {
        Rebase(e);
      } else if IsCompactionEvent(e.event.payload) {
        Compact(e);
      } else {
        SwitchOnRecord(e);
      }
    }

    method SwitchOnExecution(e: Committed)
      requires IsExecution(e.event.payload)
      modifies this
      ensures Value() == ChangedExecution(old(Value()), e)
    {
      var p := e.event.payload;
      lastSeq := e.at;
      if IsScheduling(p) {
        Schedule(e);
      } else if IsCommandEvent(p) {
        UpdateCommand(e);
      } else if IsRunEvent(p) {
        UpdateRun(e);
      } else {
        UpdateTurn(e);
      }
    }

    method SwitchOnStreaming(e: Committed)
      requires IsStreaming(e.event.payload)
      modifies this
      ensures Value() == ChangedStreaming(old(Value()), e)
    {
      ghost var r := Value();
      lastSeq := e.at;
      if IsInferenceEvent(e.event.payload) {
        UpdateInference(e, r);
      } else {
        UpdateToolCall(e);
      }
    }

    method Compact(e: Committed)
      requires IsCompactionEvent(e.event.payload)
      modifies this
      ensures Value() == WithCompactions(old(Value()), e)
    {
      ghost var r := Value();
      lastSeq := e.at;
      CountCompaction(e, r);
      UpdateCompaction(e);
    }

    method SwitchOnRecord(e: Committed)
      requires !e.event.payload.ContextRebased? && !IsCompactionEvent(e.event.payload)
      modifies this
      ensures Value() == ChangedRecords(old(Value()), e)
    {
      var p := e.event.payload;
      lastSeq := e.at;
      if IsNewMessage(p) {
        StoreMessage(e);
      } else if IsMessageChange(p) {
        ChangeMessages(e);
      } else if IsStopRequest(p) {
        UpdateStopRequest(e);
      } else if p.ContextProjected? {
        context := context.(version := p.contextVersion);
      }
    }

    method Schedule(e: Committed)
      requires IsScheduling(e.event.payload)
      modifies `request
      ensures request == ApplyRequest(old(request), e)
    {
      match e.event.payload {
        case RunSchedulingRequested(id, work) =>
          request := Some(RequestRecord(id, work, e.at, None));
        case RunSchedulingDelivered(id) =>
          if request.Some? && request.value.requestId == id {
            request := Some(request.value.(deliveredSeq := Some(e.at)));
          }
        case RunSchedulingInvalidated(id) => request := CloseRequest(request, id);
        case RunSchedulingGranted(id, _) => request := CloseRequest(request, id);
      }
    }

    method UpdateCommand(e: Committed)
      requires IsCommandEvent(e.event.payload)
      modifies `commands
      ensures commands == ApplyCommands(old(commands), e)
    {
      match e.event.payload {
        case CommandAdmitted(command) =>
          var record := CommandOf(commands, command.commandId);
          record := record.(admittedSeq := Some(e.at), admissionTrace := Some(e.event.trace), command := Some(command));
          commands := commands.Set(command.commandId, record);
        case CommandStarted(id) =>
          commands := commands.Set(id, CommandOf(commands, id).(startedSeq := Some(e.at)));
        case CommandClosed(id, outcome) =>
          commands := commands.Set(id, CommandOf(commands, id).(terminal := Some(Terminal(e.at, outcome))));
      }
    }

    method UpdateRun(e: Committed)
      requires IsRunEvent(e.event.payload)
      modifies `runs, `recoveries, `model
      ensures runs == ApplyRuns(old(runs), e) && recoveries == ApplyRecoveries(old(recoveries), old(runs), e)
              && model == ApplyModel(old(model), e)
    {
      match e.event.payload {
        case RunStarted(id, commandIds, used) =>
          if model.None? {
            model := Some(used);
          }
          var terminal := if runs.Has(id) then runs.Get(id).value.terminal else None;
          runs := runs.Set(id, RunRecord(id, commandIds, e.at, Started(e.event.createdAtMs), e.event.trace, Some(used),
            terminal));
        case RunClosed(id, outcome) =>
          if runs.Has(id) {
            var record := runs.Get(id).value;
            runs := runs.Set(id, record.(timing := Closed(record.timing, e.event.createdAtMs), terminal :=
              Some(Terminal(e.at, outcome))));
          }
        case RecoveryCompleted(continuation) =>
          if continuation.Some? {
            recoveries := recoveries.Set(continuation.value.replacementRunId,
              ContinuationRecord(continuation.value, e.at));
          }
        case SessionConfigured(configured) =>
          if model.None? {
            model := Some(configured);
          }
      }
    }

    /** The turn is recorded before its inputs are consumed, one after the other. */
    method UpdateTurn(e: Committed)
      requires IsTurnEvent(e.event.payload)
      modifies `turns, `messages
      ensures turns == ApplyTurns(old(turns), e) && messages == ApplyMessages(old(messages), e)
    {
      match e.event.payload {
        case TurnStarted(runId, id, inputs) =>
          var terminal := if turns.Has(id) then turns.Get(id).value.terminal else None;
          turns := turns.Set(id, TurnRecord(runId, id, e.at, Started(e.event.createdAtMs), terminal));
          Consume(inputs, e.at, id);
        case TurnClosed(id, outcome) =>
          if turns.Has(id) {
            var record := turns.Get(id).value;
            turns := turns.Set(id, record.(timing := Closed(record.timing, e.event.createdAtMs), terminal :=
              Some(Terminal(e.at, outcome))));
          }
      }
    }

    method Consume(inputs: seq<MessageId>, at: Seq, turnId: TurnId)
      modifies `messages
      ensures messages == ConsumeMessages(old(messages), inputs, at, turnId)
    {
      for i := 0 to |inputs|
        invariant messages == ConsumeMessages(old(messages), inputs[..i], at, turnId)
      {
        assert inputs[..i + 1][..i] == inputs[..i];
        var message := messages.Get(inputs[i]);
        if message.Some? && message.value.meta.Authored() {
          var life := message.value.meta.life;
          messages := messages.Set(inputs[i],
            Reaged(message.value, life.(consumedSeq := Some(at), consumedTurnId := Some(turnId))));
        }
      }
      assert inputs[..|inputs|] == inputs;
    }

    /** Usage counts only for an inference that was there and had not completed before. */
    method UpdateInference(e: Committed, ghost r: Replay)
      requires IsInferenceEvent(e.event.payload) && r.inferences == inferences && r.runs == runs && r.tokens == tokens
      modifies `inferences, `tokens
      ensures inferences == ApplyInferences(old(inferences), e) && tokens == ApplyTokens(r, e)
    {
      match e.event.payload {
        case InferenceStarted(runId, turnId, id) =>
          var terminal := if inferences.Has(id) then inferences.Get(id).value.terminal else None;
          inferences := inferences.Set(id,
            InferenceRecord(runId, turnId, id, e.at, Started(e.event.createdAtMs), terminal));
        case InferenceCompleted(runId, id, usage) =>
          var previouslyCompleted := HasCompleted(id);
          CloseExisting(id, e, Completed(usage));
          if !previouslyCompleted && HasCompleted(id) {
            var used := if runs.Has(runId) then runs.Get(runId).value.model else None;
            tokens := AddModelUsage(tokens, used, usage);
          }
        case InferenceFailed(id, failure) =>
          CloseExisting(id, e, Failed(failure));
      }
    }

    predicate HasCompleted(id: InferenceId)
      reads this
    {
      inferences.Has(id) && CompletedAlready(inferences.Get(id).value.terminal)
    }

    method CloseExisting(id: InferenceId, e: Committed, outcome: Outcome)
      modifies `inferences
      ensures inferences == CloseInference(old(inferences), id, e, outcome)
    {
      if inferences.Has(id) {
        var record := inferences.Get(id).value;
        inferences := inferences.Set(id, record.(timing := Closed(record.timing, e.event.createdAtMs), terminal :=
          Some(Terminal(e.at, outcome))));
      }
    }

    method UpdateToolCall(e: Committed)
      requires IsToolCallEvent(e.event.payload)
      modifies `toolCalls
      ensures toolCalls == ApplyToolCalls(old(toolCalls), e)
    {
      var id := e.event.payload.toolCallId;
      var record := ToolCallOf(toolCalls, id);
      match e.event.payload {
        case ToolCallCreated(runId, turnId, inferenceId, _, call) =>
          var meta := Created(e.at, runId, turnId, inferenceId, call.id, call.name, call.providerExecuted);
          record := record.(decision := Some(ToolDecision(meta, Some(call), None)));
        case ToolCallRejected(runId, turnId, inferenceId, _, feedback) =>
          var meta := Rejected(e.at, runId, turnId, inferenceId, feedback.id, feedback.name);
          record := record.(decision := Some(ToolDecision(meta, None, Some(feedback))));
        case ToolCallStarted(_, attempt) =>
          if attempt.None? || record.startedSeq.None? {
            record := record.(startedSeq := Some(e.at), timing :=
              record.timing.(startedAtMs := Some(e.event.createdAtMs)));
          }
          if attempt.Some? {
            record := record.(attempt := attempt);
          }
        case ToolCallCompleted(_, result) =>
          record := record.(timing := Closed(record.timing, e.event.createdAtMs),
                            terminal := Some(ToolTerminal(ToolCompleted(e.at), Some(result), None)));
        case ToolCallFailed(_, result, error) =>
          var cause := if error.Some? then error.value else result.result;
          record := record.(timing := Closed(record.timing, e.event.createdAtMs),
                            terminal := Some(ToolTerminal(ToolFailed(e.at), Some(result), Some(cause))));
      }
      toolCalls := toolCalls.Set(id, record);
    }

    /** The record a message-creating event writes, whatever was there before. */
    method StoreMessage(e: Committed)
      requires IsNewMessage(e.event.payload)
      modifies `messages
      ensures messages == ApplyMessages(old(messages), e)
    {
      var at, now := e.at, e.event.createdAtMs;
      match e.event.payload {
        case SystemMessageCommitted(id, content) =>
          messages := messages.Set(id, MessageRecord(System(id, now, at), Content(content)));
        case UserMessageCommitted(commandId, id, content) =>
          messages := messages.Set(id, MessageRecord(User(id, commandId, now, at, None, None, FRESH),
            Content(content)));
        case UserMessageSubmitted(commandId, id, disposition, content) =>
          messages := messages.Set(id, MessageRecord(User(id, commandId, now, at, Some(disposition), Some(disposition),
            FRESH), Content(content)));
        case SteeringMessageQueued(commandId, id, runId, content) =>
          messages := messages.Set(id, MessageRecord(Steering(id, commandId, runId, now, at, FRESH), Content(content)));
        case _ => StoreAssistantMessage(e);
      }
    }

    method StoreAssistantMessage(e: Committed)
      requires var p := e.event.payload;
               p.AssistantMessageCommitted? || p.AssistantMessageImported?
               || p.AssistantPartialCommitted?
      modifies `messages
      ensures messages == ApplyMessages(old(messages), e)
    {
      var at, now := e.at, e.event.createdAtMs;
      match e.event.payload {
        case AssistantMessageCommitted(id, runId, turnId, inferenceId, parts) =>
          messages := messages.Set(id, MessageRecord(Assistant(id, runId, turnId, inferenceId, false, now, at),
            AssistantBody(parts)));
        case AssistantMessageImported(id, runId, turnId, inferenceId, parts) =>
          messages := messages.Set(id, MessageRecord(Assistant(id, runId, turnId, inferenceId, true, now, at),
            AssistantBody(parts)));
        case AssistantPartialCommitted(id, runId, turnId, inferenceId, parts, reason) =>
          messages := messages.Set(id, MessageRecord(AssistantPartial(id, runId, turnId, inferenceId, reason, now, at),
            AssistantBody(parts)));
      }
    }

    /** A message in a state that does not fit the change is left alone. */
    method ChangeMessages(e: Committed)
      requires IsMessageChange(e.event.payload)
      modifies `messages
      ensures messages == ApplyMessages(old(messages), e)
    {
      match e.event.payload {
        case UserMessagePromoted(_, id) =>
          var message := messages.Get(id);
          if message.Some? && Promotable(message.value.meta) {
            messages := messages.Set(id, Promoted(message.value, e.at));
          }
        case UserMessageCancelled(canceller, id, reason) =>
          var message := messages.Get(id);
          if message.Some? && message.value.meta.Authored() {
            var life := message.value.meta.life;
            life := life.(cancelledSeq := Some(e.at), cancelledByCommandId := Some(canceller), cancellationReason :=
              Some(reason));
            messages := messages.Set(id, Reaged(message.value, life));
          }
        case SteeringMessageCancelled(id, reason) =>
          var message := messages.Get(id);
          if message.Some? && message.value.meta.Steering? {
            var life := message.value.meta.life.(cancelledSeq := Some(e.at), cancellationReason := Some(reason));
            messages := messages.Set(id, Reaged(message.value, life));
          }
        case MessagesPaused(ids, pauser) => Pause(ids, e.at, pauser);
      }
    }

    method Pause(ids: seq<MessageId>, at: Seq, pauser: CommandId)
      modifies `messages
      ensures messages == PauseMessages(old(messages), ids, at, pauser)
    {
      for i := 0 to |ids|
        invariant messages == PauseMessages(old(messages), ids[..i], at, pauser)
      {
        assert ids[..i + 1][..i] == ids[..i];
        var message := messages.Get(ids[i]);
        if message.Some? && message.value.meta.Waiting() {
          messages := messages.Set(ids[i], Paused(message.value, at, pauser));
        }
      }
      assert ids[..|ids|] == ids;
    }

    /** A repeated request keeps what was applied; an application keeps what was requested. */
    method UpdateStopRequest(e: Committed)
      requires IsStopRequest(e.event.payload)
      modifies `stopRequests
      ensures stopRequests == ApplyStopRequests(old(stopRequests), e)
    {
      var id := e.event.payload.commandId;
      var existing := stopRequests.Get(id);
      var record := if existing.Some?
        then existing.value
        else StopRequestRecord(id, e.at, None, None, None, None, None, None);
      match e.event.payload {
        case StopTurnRequested(_, runId, turnId) =>
          if record.appliedSeq.None? {
            record := StopRequestRecord(id, e.at, None, None, None, None, None, None);
          }
          record := record.(requestedSeq := e.at, requestedRunId := runId, requestedTurnId := turnId);
        case StopTurnApplied(_, runId, turnId, inferenceId) =>
          record := record.(appliedSeq := Some(e.at), appliedRunId := Some(runId), appliedTurnId := Some(turnId),
                            appliedInferenceId := inferenceId);
      }
      stopRequests := stopRequests.Set(id, record);
    }

    /** The usage of a compaction, counted before its record closes: once when it completes, always when it fails. */
    method CountCompaction(e: Committed, ghost r: Replay)
      requires IsCompactionEvent(e.event.payload) && r.tokens == tokens && r.compactions == compactions
      modifies `tokens
      ensures tokens == ApplyTokens(r, e)
    {
      match e.event.payload {
        case CompactionCompleted(id, used, usage) =>
          if !CompletedAlready(CompactionOf(compactions, id).terminal) {
            tokens := AddModelUsage(tokens, used, usage);
          }
        case CompactionFailed(_, _, used, usage) =>
          tokens := AddModelUsage(tokens, used, usage);
        case _ =>
      }
    }

    method UpdateCompaction(e: Committed)
      requires IsCompactionEvent(e.event.payload)
      modifies `compactions
      ensures compactions == ApplyCompactions(old(compactions), context, e)
    {
      var id := e.event.payload.compactionId;
      var record := CompactionOf(compactions, id);
      match e.event.payload {
        case CompactionRequested(_, from, to) =>
          record := record.(requestedSeq := Some(e.at), sourceFromSeq := Some(from), sourceToSeq := Some(to));
        case CompactionStarted(_) =>
          record := record.(startedSeq := Some(e.at));
        case SummaryCreated(_, summaryId, from, to, _) =>
          record := record.(summaryCreatedSeq := Some(e.at), summaryId := Some(summaryId),
                            sourceFromSeq := Some(from), sourceToSeq := Some(to));
        case CompactionCompleted(_, _, _) =>
          record := record.(terminal := Some(Terminal(e.at, Completed(None))));
        case CompactionFailed(_, failure, _, _) =>
          FailCompaction(e, failure);
          return;
      }
      compactions := compactions.Set(id, record);
    }

    /** A failed compaction is recorded and then dropped, unless its summary is the current one. */
    method FailCompaction(e: Committed, failure: Json)
      requires e.event.payload.CompactionFailed? && e.event.payload.failure == failure
      modifies `compactions
      ensures compactions == ApplyCompactions(old(compactions), context, e)
    {
      var id := e.event.payload.compactionId;
      var failed := CompactionOf(compactions, id).(terminal := Some(Terminal(e.at, Failed(failure))));
      compactions := compactions.Set(id, failed);
      if failed.summaryId.None? || failed.summaryId != context.currentSummaryId {
        SetThenDelete(old(compactions), id, failed);
        compactions := compactions.Delete(id);
      }
    }

    /** A rebase updates its compaction before it prunes, and prunes recoveries by the runs that are left. */
    method Rebase(e: Committed)
      requires e.event.payload.ContextRebased?
      modifies this
      ensures Value() == Rebased(old(Value()), e)
    {
      var ContextRebased(id, summaryId, version, from) := e.event.payload;
      lastSeq := e.at;
      var record := CompactionOf(compactions, id);
      compactions := compactions.Set(id, record.(summaryId := Some(summaryId), rebasedSeq := Some(e.at),
                                                 contextVersion := Some(version)));
      PruneForContextRebase(from, summaryId);
      context := ContextRecord(version, Some(summaryId));
    }
  }

  lemma {:induction false} SetThenDelete<K(!new), V>(m: OMap<K, V>, k: K, v: V)
    ensures m.Set(k, v).Delete(k) == m.Delete(k)
  {
    if m.Entry? && m.key != k {
      SetThenDelete(m.rest, k, v);
    }
  }

  /** Fold newly committed events into copies of the maps, then derive the queues. */
  method FoldReducedState(state: State, committed: seq<Committed>) returns (next: State)
    ensures next == Fold(state, committed)
  {
    var maps := new ReplayMaps(state.replay);
    assert committed[..0] == [];
    for i := 0 to |committed|
      invariant fresh(maps)
      invariant maps.Value() == FoldReplay(state.replay, committed[..i])
    {
      maps.ApplyEvent(committed[i]);
      assert committed[..i + 1][..|committed[..i + 1]| - 1] == committed[..i];
    }
    assert committed[..|committed|] == committed;
    next := WithQueues(maps.Value());
  }
}
