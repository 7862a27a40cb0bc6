/** What the folded state records of messages, read off the log: how they were written and what became of them. */
module FoldedMessages {
  import opened Collections
  import opened Events
  import opened Records
  import opened CommandQueues
  import opened ReducedState
  import opened LogQueries
  import opened FoldRecords

  // ---------------------------------------------------------------------------
  // Writing
  // ---------------------------------------------------------------------------

  function Joined(texts: seq<Json>): Json {
    if texts == [] then "" else texts[0] + Joined(texts[1..])
  }

  function TextOf(part: PromptPart): Option<Json> {
    if part.TextPart? then Some(part.text) else None
  }

  function ReasoningOf(part: PromptPart): Option<Json> {
    if part.ReasoningPart? then Some(part.text) else None
  }

  lemma {:induction false} PartTextIsJoined(parts: seq<PromptPart>, reasoning: bool)
    ensures PartText(parts, reasoning) == Joined(FilterMap(parts, if reasoning then ReasoningOf else TextOf))
  {
    if parts != [] {
      var of, tail := if reasoning then ReasoningOf else TextOf, parts[1..];
      PartTextIsJoined(tail, reasoning);
      if of(parts[0]).Some? {
        assert FilterMap(parts, of)[1..] == FilterMap(tail, of);
      }
    }
  }

  /** The body of an assistant message: its parts, their text, and their reasoning if any. */
  predicate Carries(body: MessageBody, parts: seq<PromptPart>) {
    var reasoning := Joined(FilterMap(parts, ReasoningOf));
    && body.AssistantContent?
    && body.parts == Some(parts)
    && body.text == Joined(FilterMap(parts, TextOf))
    && body.reasoning == (if reasoning == "" then None else Some(reasoning))
  }

  /** The event writes the message. */
  predicate Writes(e: Committed, m: MessageRecord) {
    var p, now := e.event.payload, e.event.createdAtMs;
    match m.meta
    case System(id, ms, at) =>
      at == e.at && ms == now && m.body.Content? && p == SystemMessageCommitted(id, m.body.content)
    case User(id, commandId, ms, at, requested, disposition, life) =>
      && at == e.at && ms == now && life == FRESH && requested == disposition && m.body.Content?
      && (if requested.None? then p == UserMessageCommitted(commandId, id, m.body.content)
          else p == UserMessageSubmitted(commandId, id, requested.value, m.body.content))
    case Steering(id, commandId, runId, ms, at, life) =>
      && at == e.at && ms == now && life == FRESH && m.body.Content?
      && p == SteeringMessageQueued(commandId, id, runId, m.body.content)
    case Assistant(id, runId, turnId, inferenceId, imported, ms, at) =>
      && at == e.at && ms == now
      && (p.AssistantMessageImported? || p.AssistantMessageCommitted?)
      && p == (if imported then AssistantMessageImported(id, runId, turnId, inferenceId, p.parts)
               else AssistantMessageCommitted(id, runId, turnId, inferenceId, p.parts))
      && Carries(m.body, p.parts)
    case AssistantPartial(id, runId, turnId, inferenceId, reason, ms, at) =>
      && at == e.at && ms == now && p.AssistantPartialCommitted?
      && p == AssistantPartialCommitted(id, runId, turnId, inferenceId, p.parts, reason)
      && Carries(m.body, p.parts)
  }

  lemma {:induction false} BodyCarries(body: MessageBody, parts: seq<PromptPart>)
    ensures body == AssistantBody(parts) <==> Carries(body, parts)
  {
    PartTextIsJoined(parts, false);
    PartTextIsJoined(parts, true);
  }

  lemma {:induction false} AssistantWritten(e: Committed, m: MessageRecord)
    requires m.meta.Assistant? || m.meta.AssistantPartial?
    ensures NewMessage(e) == Some(m) <==> Writes(e, m)
  {
    var p := e.event.payload;
    if p.AssistantMessageCommitted? || p.AssistantMessageImported? || p.AssistantPartialCommitted? {
      BodyCarries(m.body, p.parts);
    }
  }

  lemma {:induction false} WrittenExactly(e: Committed, m: MessageRecord)
    ensures NewMessage(e) == Some(m) <==> Writes(e, m)
  {
    if m.meta.Assistant? || m.meta.AssistantPartial? {
      AssistantWritten(e, m);
    }
  }

  // ---------------------------------------------------------------------------
  // What becomes of a message
  // ---------------------------------------------------------------------------

  function CreatesMessage(id: MessageId): Committed -> bool {
    (e: Committed) => NewMessage(e).Some? && NewMessage(e).value.meta.messageId == id
  }

  function Consumes(id: MessageId): Committed -> bool {
    (e: Committed) => e.event.payload.TurnStarted? && id in e.event.payload.inputMessageIds
  }

  function CancelsByCommand(id: MessageId): Committed -> bool {
    (e: Committed) => e.event.payload.UserMessageCancelled? && e.event.payload.messageId == id
  }

  /** A steering message has a cancellation of its own. */
  function Cancels(id: MessageId, steering: bool): Committed -> bool {
    (e: Committed) =>
      || (e.event.payload.UserMessageCancelled? && e.event.payload.messageId == id)
      || (steering && e.event.payload.SteeringMessageCancelled? && e.event.payload.messageId == id)
  }

  function Pauses(id: MessageId): Committed -> bool {
    (e: Committed) => e.event.payload.MessagesPaused? && id in e.event.payload.messageIds
  }

  function Promotes(id: MessageId): Committed -> bool {
    (e: Committed) => e.event.payload.UserMessagePromoted? && e.event.payload.messageId == id
  }

  /** Neither consumed nor cancelled. */
  predicate Open(since: seq<Committed>, id: MessageId, steering: bool) {
    Latest(since, Consumes(id)).None? && Latest(since, Cancels(id, steering)).None?
  }

  /** The pause that holds the message: the last one while it was open, unless a promotion came since. */
  function HeldBy(since: seq<Committed>, id: MessageId, steering: bool): Option<Committed> {
    if since == [] || Promotes(id)(since[|since| - 1]) then None
    else
      var front, e := since[..|since| - 1], since[|since| - 1];
      if Pauses(id)(e) && Open(front, id, steering) then Some(e) else HeldBy(front, id, steering)
  }

  /** In the queue: put there at first or by a pause while it was open, with no promotion since. */
  predicate InQueue(since: seq<Committed>, id: MessageId, steering: bool, atFirst: bool) {
    if since == [] then atFirst
    else
      var front, e := since[..|since| - 1], since[|since| - 1];
      !Promotes(id)(e) && ((Pauses(id)(e) && Open(front, id, steering)) || InQueue(front, id, steering, atFirst))
  }

  /** The last promotion that found the message in the queue. */
  function PromotedBy(since: seq<Committed>, id: MessageId, steering: bool, atFirst: bool): Option<Committed> {
    if since == [] then None
    else
      var front, e := since[..|since| - 1], since[|since| - 1];
      if Promotes(id)(e) && InQueue(front, id, steering, atFirst) then Some(e)
      else PromotedBy(front, id, steering, atFirst)
  }

  /** The events that decide what a message has become. */
  datatype Course = Course(
    consumed: Option<Committed>,
    cancelled: Option<Committed>,
    cancelledByCommand: Option<Committed>,
    held: Option<Committed>,
    promoted: Option<Committed>,
    queued: bool)

  function CourseIn(since: seq<Committed>, id: MessageId, steering: bool, atFirst: bool): Course {
    Course(Latest(since, Consumes(id)), Latest(since, Cancels(id, steering)), Latest(since, CancelsByCommand(id)),
           HeldBy(since, id, steering), PromotedBy(since, id, steering, atFirst),
           InQueue(since, id, steering, atFirst))
  }

  function TurnOf(consumed: Option<Committed>): Option<TurnId> {
    if consumed.Some? && consumed.value.event.payload.TurnStarted?
    then Some(consumed.value.event.payload.turnId) else None
  }

  function CancellerOf(cancelled: Option<Committed>): Option<CommandId> {
    if cancelled.Some? && cancelled.value.event.payload.UserMessageCancelled?
    then Some(cancelled.value.event.payload.commandId) else None
  }

  function ReasonOf(cancelled: Option<Committed>): Option<Json> {
    if cancelled.None? then None
    else
      match cancelled.value.event.payload
      case UserMessageCancelled(_, _, reason) => Some(reason)
      case SteeringMessageCancelled(_, reason) => Some(reason)
      case _ => None
  }

  function PauserOf(held: Option<Committed>): Option<CommandId> {
    if held.Some? && held.value.event.payload.MessagesPaused?
    then Some(held.value.event.payload.pausedByCommandId) else None
  }

  function LifeOf(c: Course): Lifecycle {
    Lifecycle(AtOf(c.promoted), AtOf(c.held), PauserOf(c.held), AtOf(c.consumed), TurnOf(c.consumed),
              AtOf(c.cancelled), CancellerOf(c.cancelledByCommand), ReasonOf(c.cancelled))
  }

  /** A message in the queue queues, a promoted one steers, and any other keeps what was asked for. */
  function Aged(m: MessageRecord, c: Course): MessageRecord {
    match m.meta
    case User(id, commandId, ms, at, requested, disposition, _) =>
      var now := if c.queued then Some(Queue) else if c.promoted.Some? then Some(Steer) else disposition;
      m.(meta := User(id, commandId, ms, at, requested, now, LifeOf(c)))
    case Steering(id, commandId, runId, ms, at, _) => m.(meta := Steering(id, commandId, runId, ms, at, LifeOf(c)))
    case _ => m
  }

  predicate QueuedAtFirst(m: MessageRecord) {
    m.meta.User? && m.meta.disposition == Some(Queue)
  }

  /** The record of a message: as its last creation wrote it, and what became of it since. */
  function MessageIn(events: seq<Committed>, id: MessageId): Option<MessageRecord> {
    var created := Latest(events, CreatesMessage(id));
    if created.None? then None
    else
      var m := NewMessage(created.value).value;
      Some(Aged(m, CourseIn(AfterLatest(events, CreatesMessage(id)), id, m.meta.Steering?, QueuedAtFirst(m))))
  }

  /** The position lies past a message; past its consumption, or else its cancellation, for steering. */
  predicate LeftBehind(m: MessageMeta, from: Seq) {
    match m
    case System(_, _, _) => false
    case Steering(_, _, _, _, _, life) =>
      if life.consumedSeq.Some? then life.consumedSeq.value < from
      else life.cancelledSeq.Some? && life.cancelledSeq.value < from
    case _ => m.at < from
  }

  /** A rebase drops the messages it leaves behind. */
  function MessageDrops(id: MessageId): Drops {
    (log: seq<Committed>, events: seq<Committed>, e: Committed) =>
      && e.event.payload.ContextRebased?
      && MessageIn(events, id).Some?
      && LeftBehind(MessageIn(events, id).value.meta, e.event.payload.retainedFromContextSeq)
  }

  // ---------------------------------------------------------------------------
  // One event
  // ---------------------------------------------------------------------------

  function NextCourse(c: Course, e: Committed, id: MessageId, steering: bool): Course {
    var paused := Pauses(id)(e) && c.consumed.None? && c.cancelled.None?;
    Course(
      if Consumes(id)(e) then Some(e) else c.consumed,
      if Cancels(id, steering)(e) then Some(e) else c.cancelled,
      if CancelsByCommand(id)(e) then Some(e) else c.cancelledByCommand,
      if Promotes(id)(e) then None else if paused then Some(e) else c.held,
      if Promotes(id)(e) && c.queued then Some(e) else c.promoted,
      !Promotes(id)(e) && (paused || c.queued))
  }

  lemma {:induction false} CourseSnoc(
      since: seq<Committed>, e: Committed, id: MessageId, steering: bool, atFirst: bool)
    ensures CourseIn(since + [e], id, steering, atFirst)
            == NextCourse(CourseIn(since, id, steering, atFirst), e, id, steering)
  {
    LatestSnoc(since, e, Consumes(id));
    LatestSnoc(since, e, Cancels(id, steering));
    LatestSnoc(since, e, CancelsByCommand(id));
    assert (since + [e])[..|since|] == since;
  }

  function NextMessage(r: Option<MessageRecord>, e: Committed, id: MessageId): Option<MessageRecord> {
    if CreatesMessage(id)(e) then NewMessage(e)
    else if r.None? then None
    else
      var m := r.value;
      match e.event.payload
      case TurnStarted(_, turnId, inputs) =>
        if id in inputs && m.meta.Authored()
        then Some(Reaged(m, m.meta.life.(consumedSeq := Some(e.at), consumedTurnId := Some(turnId)))) else r
      case UserMessagePromoted(_, promoted) =>
        if promoted == id && Promotable(m.meta) then Some(Promoted(m, e.at)) else r
      case UserMessageCancelled(canceller, cancelled, reason) =>
        if cancelled == id && m.meta.Authored()
        then Some(Reaged(m, m.meta.life.(cancelledSeq := Some(e.at), cancelledByCommandId := Some(canceller),
                                         cancellationReason := Some(reason)))) else r
      case MessagesPaused(ids, pauser) =>
        if id in ids && m.meta.Waiting() then Some(Paused(m, e.at, pauser)) else r
      case SteeringMessageCancelled(cancelled, reason) =>
        if cancelled == id && m.meta.Steering?
        then Some(Reaged(m, m.meta.life.(cancelledSeq := Some(e.at), cancellationReason := Some(reason)))) else r
      case ContextRebased(_, _, _, from) => if KeptMessage(m, from) then r else None
      case _ => r
  }

  lemma {:induction false} ConsumedAt(m: Messages, ids: seq<MessageId>, at: Seq, turnId: TurnId, id: MessageId)
    ensures var r := ConsumeMessages(m, ids, at, turnId).Get(id);
            if id in ids && m.Has(id) && m.Get(id).value.meta.Authored() then
              var was := m.Get(id).value;
              r == Some(Reaged(was, was.meta.life.(consumedSeq := Some(at), consumedTurnId := Some(turnId))))
            else r == m.Get(id)
  {
    if ids != [] {
      ConsumedAt(m, ids[..|ids| - 1], at, turnId, id);
      assert ids == ids[..|ids| - 1] + [ids[|ids| - 1]];
    }
  }

  lemma {:induction false} PausedAt(m: Messages, ids: seq<MessageId>, at: Seq, pauser: CommandId, id: MessageId)
    ensures PauseMessages(m, ids, at, pauser).Get(id) ==
            if id in ids && m.Has(id) && m.Get(id).value.meta.Waiting() then Some(Paused(m.Get(id).value, at, pauser))
            else m.Get(id)
  {
    if ids != [] {
      PausedAt(m, ids[..|ids| - 1], at, pauser, id);
      assert ids == ids[..|ids| - 1] + [ids[|ids| - 1]];
    }
  }

  lemma {:induction false} MessageAt(m: Messages, e: Committed, id: MessageId)
    ensures ApplyMessages(m, e).Get(id) == NextMessage(m.Get(id), e, id)
  {
    match e.event.payload
    case TurnStarted(_, turnId, inputs) => ConsumedAt(m, inputs, e.at, turnId, id);
    case MessagesPaused(ids, pauser) => PausedAt(m, ids, e.at, pauser, id);
    case _ =>
  }

  /** Held and queued agree with what was seen of the message. */
  predicate Sound(m: MessageRecord, c: Course) {
    && (c.consumed.Some? ==> c.consumed.value.event.payload.TurnStarted?)
    && (c.held.Some? ==> c.held.value.event.payload.MessagesPaused?)
    && (c.held.Some? ==> c.queued)
    && (m.meta.Steering? ==> (c.held.Some? <==> c.queued))
    && (m.meta.User? && m.meta.disposition == Some(Queue) ==> c.queued || c.promoted.Some?)
  }

  lemma {:induction false} CourseIsSound(since: seq<Committed>, id: MessageId, m: MessageRecord)
    ensures Sound(m, CourseIn(since, id, m.meta.Steering?, QueuedAtFirst(m)))
  {
    if since != [] {
      var front, e := since[..|since| - 1], since[|since| - 1];
      assert since == front + [e];
      CourseIsSound(front, id, m);
      CourseSnoc(front, e, id, m.meta.Steering?, QueuedAtFirst(m));
    }
  }

  lemma {:induction false} MessageMoves(m: MessageRecord, c: Course, e: Committed, id: MessageId)
    requires Sound(m, c) && !CreatesMessage(id)(e) && !e.event.payload.ContextRebased?
    ensures NextMessage(Some(Aged(m, c)), e, id) == Some(Aged(m, NextCourse(c, e, id, m.meta.Steering?)))
  {
  }

  lemma {:induction false} CourseKept(c: Course, e: Committed, id: MessageId, steering: bool)
    requires e.event.payload.ContextRebased?
    ensures NextCourse(c, e, id, steering) == c
  {
  }

  lemma {:induction false} MessageUnmoved(events: seq<Committed>, e: Committed, id: MessageId)
    requires !CreatesMessage(id)(e) && e.event.payload.ContextRebased?
    ensures MessageIn(events + [e], id) == MessageIn(events, id)
  {
    AfterSnoc(events, e, CreatesMessage(id));
    var created := Latest(events, CreatesMessage(id));
    if created.Some? {
      var m, since := NewMessage(created.value).value, AfterLatest(events, CreatesMessage(id));
      CourseSnoc(since, e, id, m.meta.Steering?, QueuedAtFirst(m));
      CourseKept(CourseIn(since, id, m.meta.Steering?, QueuedAtFirst(m)), e, id, m.meta.Steering?);
    }
  }

  lemma {:induction false} MessageAged(events: seq<Committed>, e: Committed, id: MessageId)
    requires !CreatesMessage(id)(e) && !e.event.payload.ContextRebased?
    ensures MessageIn(events + [e], id) == NextMessage(MessageIn(events, id), e, id)
  {
    AfterSnoc(events, e, CreatesMessage(id));
    var created := Latest(events, CreatesMessage(id));
    if created.Some? {
      var m, since := NewMessage(created.value).value, AfterLatest(events, CreatesMessage(id));
      CourseIsSound(since, id, m);
      CourseSnoc(since, e, id, m.meta.Steering?, QueuedAtFirst(m));
      MessageMoves(m, CourseIn(since, id, m.meta.Steering?, QueuedAtFirst(m)), e, id);
    }
  }

  lemma {:induction false} MessageAdded(events: seq<Committed>, e: Committed, id: MessageId)
    requires CreatesMessage(id)(e)
    ensures MessageIn(events + [e], id) == NewMessage(e)
  {
    AfterSnoc(events, e, CreatesMessage(id));
  }

  lemma {:induction false} MessageRebased(r: Option<MessageRecord>, e: Committed, id: MessageId)
    requires e.event.payload.ContextRebased?
    ensures NextMessage(r, e, id) ==
            if r.Some? && LeftBehind(r.value.meta, e.event.payload.retainedFromContextSeq) then None else r
    ensures !CreatesMessage(id)(e)
    ensures MessageIn([], id) == None
  {
  }

  lemma {:induction false} MessageStep(log: seq<Committed>, events: seq<Committed>, e: Committed, id: MessageId)
    ensures MessageIn(After(MessageDrops(id), log, events, e), id) == NextMessage(MessageIn(events, id), e, id)
  {
    if e.event.payload.ContextRebased? {
      MessageRebased(MessageIn(events, id), e, id);
      MessageUnmoved(events, e, id);
    } else if CreatesMessage(id)(e) {
      MessageAdded(events, e, id);
    } else {
      MessageAged(events, e, id);
    }
  }

  lemma {:induction false} MessagesFolded(log: seq<Committed>, id: MessageId)
    ensures FoldMessages(Empty, log).Get(id) == MessageIn(Counting(log, MessageDrops(id)), id)
  {
    if log != [] {
      var front, e := log[..|log| - 1], log[|log| - 1];
      MessagesFolded(front, id);
      MessageStep(front, Counting(front, MessageDrops(id)), e, id);
      MessageAt(FoldMessages(Empty, front), e, id);
    }
  }

  lemma {:induction false} MessagesRecorded(log: seq<Committed>, id: MessageId)
    ensures FoldReplay(GENESIS, log).messages.Get(id) == MessageIn(Counting(log, MessageDrops(id)), id)
  {
    MessagesFolded(log, id);
    FoldByMap(GENESIS, log);
  }
}
