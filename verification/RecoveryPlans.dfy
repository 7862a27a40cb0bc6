/** The recovery plan, read off the records. */
module RecoveryPlans {
  import opened Collections
  import opened Events
  import opened Records
  import opened CommandQueues
  import opened ReducedState
  import opened ReplayInvariants
  import opened QueueProperties
  import opened QueueContents
  import opened Recovery

  // ---------------------------------------------------------------------------
  // Waiting messages
  // ---------------------------------------------------------------------------

  /** Waiting, and not held by a pause. */
  predicate InLine(r: Replay, id: MessageId) {
    r.messages.Has(id) && var m := r.messages.Get(id).value; Waits(m) && !IsHeld(m)
  }

  predicate InLineToSteer(r: Replay, id: MessageId) {
    r.messages.Has(id) && var m := r.messages.Get(id).value; Waits(m) && Steers(m)
  }

  lemma {:induction false} LinedUp(s: State, p: PendingUserMessage)
    requires MessagesKeyed(s.replay.messages) && s == WithQueues(s.replay)
    ensures p in PendingMessages(s.queues)
            <==> InLine(s.replay, p.messageId) && p == QueueContents.Entry(s.replay.messages.Get(p.messageId).value)
    ensures p in s.queues.pendingSteers
            <==> InLineToSteer(s.replay, p.messageId)
                 && p == QueueContents.Entry(s.replay.messages.Get(p.messageId).value)
  {
    var messages := s.replay.messages;
    WaitingMembership(messages, p);
    if messages.Has(p.messageId) {
      EntryShows(messages.Get(p.messageId).value);
    }
  }

  /** The entry a waiting message has in the queues. */
  lemma {:induction false} HasEntry(s: State, id: MessageId) returns (p: PendingUserMessage)
    requires MessagesKeyed(s.replay.messages) && s == WithQueues(s.replay) && InLine(s.replay, id)
    ensures p.messageId == id && p in PendingMessages(s.queues)
    ensures p == QueueContents.Entry(s.replay.messages.Get(id).value)
    ensures InLineToSteer(s.replay, id) ==> p in s.queues.pendingSteers
  {
    EntryShows(s.replay.messages.Get(id).value);
    p := QueueContents.Entry(s.replay.messages.Get(id).value);
    LinedUp(s, p);
  }

  // ---------------------------------------------------------------------------
  // Stops and continuations
  // ---------------------------------------------------------------------------

  /** A stop not applied yet whose command is not closed. */
  predicate StopWaits(r: Replay, id: CommandId) {
    && r.stopRequests.Has(id) && r.stopRequests.Get(id).value.appliedSeq.None?
    && (r.commands.Has(id) ==> r.commands.Get(id).value.terminal.None?)
  }

  /** Some waiting stop names its run and its turn. */
  ghost predicate StopApplies(r: Replay) {
    exists id :: && StopWaits(r, id) && r.stopRequests.Get(id).value.requestedRunId.Some?
                 && r.stopRequests.Get(id).value.requestedTurnId.Some?
  }

  ghost predicate RunStopped(r: Replay, runId: RunId) {
    exists id :: StopWaits(r, id) && r.stopRequests.Get(id).value.requestedRunId == Some(runId)
  }

  /** A started command, not closed and not reserved, that runs messages. */
  predicate MayGoOn(r: Replay, c: CommandRecord) {
    && r.commands.Get(c.commandId) == Some(c)
    && c.startedSeq.Some? && c.terminal.None?
    && (r.request.None? || r.request.value.work.commandId != c.commandId)
    && match c.command {
         case Some(SubmitMessage(_, _, _, _)) => true
         case Some(ResumePendingMessages(_, _, _)) => true
         case _ => false
       }
  }

  /** It goes on in an open run of its own that nobody asked to stop. */
  ghost predicate GoesOn(r: Replay, c: CommandRecord, run: RunRecord) {
    && MayGoOn(r, c)
    && r.runs.Get(run.runId) == Some(run) && run.terminal.None? && c.commandId in run.commandIds
    && !RunStopped(r, run.runId)
  }

  lemma {:induction false} WaitingStops(r: Replay, stop: StopRequestRecord)
    requires Keyed(r)
    ensures stop in ClassifyRecoverableWork(r).pendingStopRequests
            <==> StopWaits(r, stop.commandId) && r.stopRequests.Get(stop.commandId) == Some(stop)
  {
    if stop in ClassifyRecoverableWork(r).pendingStopRequests {
      var k := ValueHasKey(r.stopRequests, stop);
    }
  }

  lemma {:induction false} StopsExactly(r: Replay, runId: RunId)
    requires Keyed(r)
    ensures HasApplicableStop(ClassifyRecoverableWork(r)) <==> StopApplies(r)
    ensures Stopped(ClassifyRecoverableWork(r), runId) <==> RunStopped(r, runId)
  {
    var w := ClassifyRecoverableWork(r);
    forall stop ensures stop in w.pendingStopRequests <==>
                        StopWaits(r, stop.commandId) && r.stopRequests.Get(stop.commandId) == Some(stop) {
      WaitingStops(r, stop);
    }
    forall id | StopWaits(r, id) ensures r.stopRequests.Get(id).value in w.pendingStopRequests {
      assert r.stopRequests.Get(id).value.commandId == id;
    }
  }

  lemma {:induction false} GoesOnExactly(r: Replay, c: CommandRecord, run: RunRecord)
    requires Keyed(r)
    ensures CanContinue(ClassifyRecoverableWork(r), c, run) <==> GoesOn(r, c, run)
  {
    StopsExactly(r, run.runId);
    if CanContinue(ClassifyRecoverableWork(r), c, run) {
      var j := ValueHasKey(r.commands, c);
      var k := ValueHasKey(r.runs, run);
    }
  }

  ghost predicate GoesOnAtAll(r: Replay, c: CommandRecord) {
    exists run :: GoesOn(r, c, run)
  }

  ghost function GoingOn(r: Replay): CommandRecord -> bool {
    (c: CommandRecord) => GoesOnAtAll(r, c)
  }

  ghost function GoingIn(r: Replay, c: CommandRecord): RunRecord -> bool {
    (run: RunRecord) => GoesOn(r, c, run)
  }

  lemma {:induction false} ContinuableExactly(r: Replay, c: CommandRecord)
    requires Keyed(r) && c in r.commands.Values()
    ensures (ActiveCommands(r.request)(c) && Continuable(ClassifyRecoverableWork(r))(c)) <==> GoesOnAtAll(r, c)
  {
    var w := ClassifyRecoverableWork(r);
    if ActiveCommands(r.request)(c) && Continuable(w)(c) {
      var run :| run in w.activeRuns && UnstoppedRunOf(w, c.commandId)(run);
      assert CanContinue(w, c, run);
      GoesOnExactly(r, c, run);
    }
    if run :| GoesOn(r, c, run) {
      GoesOnExactly(r, c, run);
      assert UnstoppedRunOf(w, c.commandId)(run);
    }
  }

  lemma {:induction false} FirstCommandGoesOn(r: Replay)
    requires Keyed(r)
    ensures var w := ClassifyRecoverableWork(r);
            ContinuationCommand(w).Some? ==>
              FirstIn(r.commands.Values(), GoingOn(r), ContinuationCommand(w).value)
  {
    var w, commands := ClassifyRecoverableWork(r), r.commands.Values();
    var both := (c: CommandRecord) => ActiveCommands(r.request)(c) && Continuable(w)(c);
    if ContinuationCommand(w).Some? {
      FindOfBoth(commands, ActiveCommands(r.request), Continuable(w), both);
      FindIsFirst(commands, both);
      forall c | c in commands ensures both(c) == GoingOn(r)(c) {
        ContinuableExactly(r, c);
      }
      FirstAgrees(commands, both, GoingOn(r), ContinuationCommand(w).value);
    }
  }

  lemma {:induction false} FirstRunGoesOn(r: Replay)
    requires Keyed(r)
    ensures var w := ClassifyRecoverableWork(r);
            ContinuationRun(w).Some? ==>
              FirstIn(r.runs.Values(), GoingIn(r, ContinuationCommand(w).value), ContinuationRun(w).value)
  {
    var w, runs := ClassifyRecoverableWork(r), r.runs.Values();
    if ContinuationRun(w).Some? {
      var c := ContinuationCommand(w).value;
      var p := UnstoppedRunOf(w, c.commandId);
      var both := (run: RunRecord) => OpenRun(run) && p(run);
      FindOfBoth(runs, OpenRun, p, both);
      FindIsFirst(runs, both);
      forall run | run in runs ensures both(run) == GoingIn(r, c)(run) {
        assert both(run) <==> run in w.activeRuns && p(run);
        assert c in w.activeCommands && RunsMessages(c.command);
        assert CanContinue(w, c, run) <==> both(run);
        GoesOnExactly(r, c, run);
      }
      FirstAgrees(runs, both, GoingIn(r, c), ContinuationRun(w).value);
    }
  }

  // ---------------------------------------------------------------------------
  // Inputs
  // ---------------------------------------------------------------------------

  /** Of the command's own: resumed by it, or else written for it. */
  predicate OwnOf(c: CommandRecord, m: MessageRecord) {
    match c.command
    case Some(ResumePendingMessages(_, _, ids)) => m.meta.messageId in ids
    case _ => m.meta.Authored() && m.meta.commandId == c.commandId
  }

  predicate Shares(other: RunRecord, run: RunRecord) {
    exists id :: id in run.commandIds && id in other.commandIds
  }

  /** Steering for the run, or for a run that shares a command with it; a user message steers any run. */
  predicate MeantFor(r: Replay, run: RunRecord, m: MessageRecord) {
    m.meta.Steering? ==>
      || m.meta.runId == run.runId
      || (r.runs.Has(m.meta.runId) && Shares(r.runs.Get(m.meta.runId).value, run))
  }

  predicate GoesInto(r: Replay, c: CommandRecord, run: RunRecord, id: MessageId) {
    || (InLine(r, id) && OwnOf(c, r.messages.Get(id).value))
    || (InLineToSteer(r, id) && MeantFor(r, run, r.messages.Get(id).value))
  }

  lemma {:induction false} EntryInputs(r: Replay, c: CommandRecord, run: RunRecord, m: MessageRecord)
    requires Waits(m)
    ensures SourceOf(c, QueueContents.Entry(m)) <==> OwnOf(c, m)
    ensures AimedAt(r.runs, run)(QueueContents.Entry(m)) <==> MeantFor(r, run, m)
  {
    EntryShows(m);
  }

  lemma {:induction false} InputsGoInto(s: State, id: MessageId)
    requires Keyed(s.replay) && s == WithQueues(s.replay) && PlanSessionRecovery(s).continuation.Some?
    ensures var c := PlanSessionRecovery(s).continuation.value;
            id in c.inputMessageIds <==> GoesInto(s.replay, c.command, c.run, id)
  {
    var c := PlanSessionRecovery(s).continuation.value;
    ContinuedInputsExactly(s, id);
    forall p: PendingUserMessage | p.messageId == id
      ensures p in PendingMessages(s.queues) && SourceOf(c.command, p) ==> GoesInto(s.replay, c.command, c.run, id)
      ensures p in s.queues.pendingSteers && AimedAt(s.replay.runs, c.run)(p) ==>
              GoesInto(s.replay, c.command, c.run, id)
    {
      LinedUp(s, p);
      if InLine(s.replay, id) {
        EntryInputs(s.replay, c.command, c.run, s.replay.messages.Get(id).value);
      }
    }
    if GoesInto(s.replay, c.command, c.run, id) {
      var p := HasEntry(s, id);
      EntryInputs(s.replay, c.command, c.run, s.replay.messages.Get(id).value);
    }
  }

  // ---------------------------------------------------------------------------
  // Messages left to resume
  // ---------------------------------------------------------------------------

  /** A recovery was requested with the message among its inputs. */
  predicate ReservedFor(r: Replay, id: MessageId) {
    match r.request
    case Some(RequestRecord(_, RecoveryWork(_, _, inputs), _, _)) => id in inputs
    case _ => false
  }

  /** A command that resumes the message is not closed. */
  ghost predicate Resuming(r: Replay, id: MessageId) {
    exists k ::
      && r.commands.Has(k) && r.commands.Get(k).value.terminal.None?
      && match r.commands.Get(k).value.command {
           case Some(ResumePendingMessages(_, _, ids)) => id in ids
           case _ => false
         }
  }

  /** The command of the message waits to be started. */
  ghost predicate CommandWaits(r: Replay, id: MessageId) {
    && r.messages.Has(id) && r.messages.Get(id).value.meta.Authored()
    && exists c :: IsWaiting(r.commands, c) && c.commandId == r.messages.Get(id).value.meta.commandId
  }

  lemma {:induction false} ResumingExactly(s: State, id: MessageId)
    requires Keyed(s.replay) && s == WithQueues(s.replay)
    ensures ResumeOwned(s, id) <==> Resuming(s.replay, id)
  {
    if c :| && c in s.replay.commands.Values() && c.terminal.None? && c.command.Some?
            && c.command.value.ResumePendingMessages? && id in c.command.value.messageIds {
      var k := ValueHasKey(s.replay.commands, c);
    }
    if c :| c in s.queues.pendingCommands && c.command.ResumePendingMessages? && id in c.command.messageIds {
      PendingExactly(s.replay.commands, c);
      assert s.replay.commands.Has(c.commandId);
    }
    if Resuming(s.replay, id) {
      var k :| && s.replay.commands.Has(k) && s.replay.commands.Get(k).value.terminal.None?
               && match s.replay.commands.Get(k).value.command {
                    case Some(ResumePendingMessages(_, _, ids)) => id in ids
                    case _ => false
                  };
      assert s.replay.commands.Get(k).value in s.replay.commands.Values();
    }
  }

  lemma {:induction false} OriginExactly(s: State, p: PendingUserMessage)
    requires Keyed(s.replay) && s == WithQueues(s.replay) && p in s.queues.pendingSteers
    ensures PendingOrigin(s.queues, p) <==> CommandWaits(s.replay, p.messageId)
  {
    LinedUp(s, p);
    EntryShows(s.replay.messages.Get(p.messageId).value);
    forall c ensures c in s.queues.pendingCommands <==> IsWaiting(s.replay.commands, c) {
      PendingExactly(s.replay.commands, c);
    }
  }

  /** Steers that nothing would run. */
  ghost predicate LeftBehind(r: Replay, id: MessageId) {
    InLineToSteer(r, id) && !ReservedFor(r, id) && !Resuming(r, id) && !CommandWaits(r, id)
  }

  lemma {:induction false} PausesExactly(s: State, id: MessageId)
    requires Keyed(s.replay) && s == WithQueues(s.replay)
    ensures id in PlanSessionRecovery(s).messageIdsToPause <==> StopApplies(s.replay) && InLine(s.replay, id)
  {
    StopsExactly(s.replay, "");
    PauseOrResumeExactly(s, id);
    forall p: PendingUserMessage | p.messageId == id && p in PendingMessages(s.queues) ensures InLine(s.replay, id) {
      LinedUp(s, p);
    }
    if InLine(s.replay, id) {
      var p := HasEntry(s, id);
    }
  }

  lemma {:induction false} ResumesExactly(s: State, id: MessageId)
    requires Keyed(s.replay) && s == WithQueues(s.replay)
    ensures id in PlanSessionRecovery(s).messageIdsToResume <==>
              !StopApplies(s.replay) && id !in ContinuedInputs(PlanSessionRecovery(s)) && LeftBehind(s.replay, id)
  {
    StopsExactly(s.replay, "");
    PauseOrResumeExactly(s, id);
    ResumingExactly(s, id);
    forall p: PendingUserMessage | p.messageId == id && p in s.queues.pendingSteers
      ensures InLineToSteer(s.replay, id) && (PendingOrigin(s.queues, p) <==> CommandWaits(s.replay, id))
    {
      LinedUp(s, p);
      OriginExactly(s, p);
    }
    if InLineToSteer(s.replay, id) {
      var p := HasEntry(s, id);
    }
  }

  /**
   * The plan from the records: with a stop to apply, everything in line is paused; else the first command that can
   * go on does, with its own messages and the steers meant for its run, and the steers left behind are resumed.
   */
  lemma {:induction false} PlanExactly(s: State, id: MessageId)
    requires Keyed(s.replay) && s == WithQueues(s.replay)
    ensures var p, r := PlanSessionRecovery(s), s.replay;
            && (id in p.messageIdsToPause <==> StopApplies(r) && InLine(r, id))
            && (p.continuation.Some? <==> !StopApplies(r) && exists c, run :: GoesOn(r, c, run))
            && (match p.continuation {
                  case Some(Continuing(c, run, inputs)) =>
                    && GoesOn(r, c, run)
                    && FirstIn(r.commands.Values(), GoingOn(r), c) && FirstIn(r.runs.Values(), GoingIn(r, c), run)
                    && (id in inputs <==> GoesInto(r, c, run, id))
                  case None => true
                })
            && (id in p.messageIdsToResume <==>
                  && !StopApplies(r) && LeftBehind(r, id)
                  && match p.continuation {
                       case Some(Continuing(c, run, _)) => !GoesInto(r, c, run, id)
                       case None => true
                     })
  {
    var p, r := PlanSessionRecovery(s), s.replay;
    PausesExactly(s, id);
    ResumesExactly(s, id);
    StopsExactly(r, "");
    ContinuesExactly(s);
    forall c, run ensures CanContinue(p.work, c, run) <==> GoesOn(r, c, run) {
      GoesOnExactly(r, c, run);
    }
    if p.continuation.Some? {
      InputsGoInto(s, id);
      FirstCommandGoesOn(r);
      FirstRunGoesOn(r);
    }
  }
}
