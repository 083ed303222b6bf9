/**
  Any number of clients running status reports, message sends and acknowledgements against shared stores, interleaved
  between every two awaits of services/api/src/services/payment_service.rs and
  services/api/src/routes/protected_messages.rs.

  A schedule is a sequence of actions; `After` is the system it leads to.  Quantifying over schedules is quantifying
  over all interleavings.  The histories and the responses are history variables: they are appended to, and no branch
  depends on them; a step reads them only to number the version that a response refers to.
 */
module Coordination {
  import opened Wrappers
  import opened PaymentStatuses
  import opened PaymentIntents
  import opened PaymentStore
  import opened PaymentService
  import opened MessageStore
  import opened MessageRoutes

  datatype StatusReport = StatusReport(id: Uuid, status: PaymentStatus, actor: Actor)

  datatype AckRequest = AckRequest(id: Uuid, userId: Uuid, status: string)

  /** What a client was answered. */
  datatype Outcome =
    | Reported(report: Result<PaymentIntent, ApiError>)
    | Delivered(sent: Result<MessageRow, ApiError>)
    | Acknowledged(ack: Result<string, ApiError>)

  /** Where a client stands: each constructor is a point between two awaits. */
  datatype Pc =
    | Idle
    | Replied(outcome: Outcome)
    | ReportStarted(report: StatusReport)
    | ReportRead(report: StatusReport, snapshot: PaymentIntent)
    | ReportAuthorised(report: StatusReport, snapshot: PaymentIntent)
    | ReportCommitted(report: StatusReport, snapshot: PaymentIntent, at: Time, version: nat)
    | SendStarted(sender: User, recipient: Option<User>, link: Option<Uuid>, payload: string)
    | MessageStarted(message: MessageRequest)
    | LinkRead(message: MessageRequest, found: Option<PaymentIntent>)
    | MessageValidated(message: MessageRequest)
    | AckStarted(ack: AckRequest)
    | AckRead(ack: AckRequest, row: MessageRow)
    | AckAuthorised(ack: AckRequest, row: MessageRow)

  /** A version of an intent that was in the store, and the report that committed it, if it is not the created one. */
  datatype Version = Version(intent: PaymentIntent, via: Option<StatusReport>)

  datatype RowVersion = RowVersion(row: MessageRow, via: Option<AckRequest>)

  /** A response that was sent, the report it answers, and which version of the intent its commit produced. */
  datatype Response = Response(body: PaymentIntent, report: StatusReport, version: nat)

  datatype System = System(
    now: Time,
    intents: Store,
    messages: Messages,
    clients: map<nat, Pc>,
    history: map<Uuid, seq<Version>>,
    rowHistory: map<Uuid, seq<RowVersion>>,
    responses: seq<Response>)

  datatype Action =
    | Tick(elapsed: nat)
    | CreateIntent(request: CreateRequest, id: Uuid, started: Time)
    | Begin(client: nat, start: Pc)
    | Advance(client: nat, newId: Uuid)

  // ---------------------------------------------------------------- steps

  function PcOf(s: System, client: nat): Pc {
    if client in s.clients then s.clients[client] else Idle
  }

  function Goto(s: System, client: nat, pc: Pc): System {
    s.(clients := s.clients[client := pc])
  }

  function HistoryOf<T>(history: map<Uuid, seq<T>>, id: Uuid): seq<T> {
    if id in history then history[id] else []
  }

  function Record<T>(history: map<Uuid, seq<T>>, id: Uuid, version: T): map<Uuid, seq<T>> {
    history[id := HistoryOf(history, id) + [version]]
  }

  function StoreIntent(s: System, id: Uuid, version: Version): System {
    s.(intents := s.intents[id := version.intent], history := Record(s.history, id, version))
  }

  function StoreRow(s: System, id: Uuid, version: RowVersion): System {
    s.(messages := s.messages[id := version.row], rowHistory := Record(s.rowHistory, id, version))
  }

  /** Where a step that writes to no store leads: the reads and the checks; a failing check answers with its error. */
  function NextPc(s: System, pc: Pc): Pc {
    match pc
    case ReportStarted(report) =>
      (match FindById(s.intents, report.id)
       case None => Replied(Reported(Err(NotFound)))
       case Some(intent) => ReportRead(report, intent))
    case ReportRead(report, snapshot) =>
      if Authorised(snapshot, report.status, report.actor) then ReportAuthorised(report, snapshot)
      else Replied(Reported(Err(Forbidden)))
    case ReportCommitted(report, snapshot, at, version) =>
      Replied(Reported(Ok(snapshot.(updatedAt := at, status := report.status))))
    case SendStarted(sender, recipient, link, payload) =>
      if recipient.None? then Replied(Delivered(Err(NotFound)))
      else MessageStarted(MessageRequest(sender, recipient.value, link, payload))
    case MessageStarted(m) =>
      if m.link.None? then MessageValidated(m) else LinkRead(m, FindById(s.intents, m.link.value))
    case LinkRead(m, found) =>
      (match ValidateLink(found, AsActor(m.sender), AsActor(m.recipient))
       case Ok(_) => MessageValidated(m)
       case Err(e) => Replied(Delivered(Err(e))))
    case AckStarted(ack) =>
      if ack.id !in s.messages then Replied(Acknowledged(Err(NotFound))) else AckRead(ack, s.messages[ack.id])
    case AckRead(ack, row) =>
      (match RoleCheck(row, ack.userId, ack.status)
       case Ok(_) => AckAuthorised(ack, row)
       case Err(e) => Replied(Acknowledged(Err(e))))
    case _ => Idle
  }

  /** The response of a commit already made, with the version it produced. */
  function Sent(pc: Pc): seq<Response> {
    match pc
    case ReportCommitted(report, snapshot, at, version) =>
      [Response(snapshot.(updatedAt := at, status := report.status), report, version)]
    case _ => []
  }

  /** The next step of one client. */
  function AdvanceClient(s: System, c: nat, newId: Uuid): System {
    match PcOf(s, c)
    case Idle => s
    case Replied(_) => s
    case ReportAuthorised(report, snapshot) =>
      var (intents, r) := StoreUpdate(s.intents, report.id, report.status, s.now);
      (match r
       case Err(e) => Goto(s, c, Replied(Reported(Err(e))))
       case Ok(at) =>
         Goto(StoreIntent(s, report.id, Version(intents[report.id], Some(report))), c,
              ReportCommitted(report, snapshot, at, |HistoryOf(s.history, report.id)|)))
    case MessageValidated(m) =>
      if newId in s.messages then s
      else
        var row := NewRow(m, newId, s.now);
        Goto(StoreRow(s, newId, RowVersion(row, None)), c, Replied(Delivered(Ok(row))))
    case AckAuthorised(ack, row) =>
      var (messages, r) := MessageUpdate(s.messages, ack.id, ack.status, s.now);
      (match r
       case Err(e) => Goto(s, c, Replied(Acknowledged(Err(e))))
       case Ok(_) =>
         Goto(StoreRow(s, ack.id, RowVersion(messages[ack.id], Some(ack))), c, Replied(Acknowledged(Ok(ack.status)))))
    case _ => Goto(s, c, NextPc(s, PcOf(s, c))).(responses := s.responses + Sent(PcOf(s, c)))
  }

  function AdvanceTwice(s: System, c: nat, newId: Uuid): System {
    AdvanceClient(AdvanceClient(s, c, newId), c, newId)
  }

  predicate IsStart(pc: Pc) {
    pc.ReportStarted? || pc.SendStarted? || pc.AckStarted?
  }

  /** The client has nothing to do; a new operation may begin. */
  predicate IsFree(pc: Pc) {
    pc.Idle? || pc.Replied?
  }

  function Step(s: System, a: Action): System {
    match a
    case Tick(elapsed) => s.(now := s.now + elapsed)
    case CreateIntent(request, id, started) =>
      if id in s.intents || NewPaymentIntent(request, id, started, s.now).Err? then s
      else
        StoreIntent(s, id, Version(NewPaymentIntent(request, id, started, s.now).value, None))
    case Begin(client, start) =>
      if IsFree(PcOf(s, client)) && IsStart(start) then Goto(s, client, start) else s
    case Advance(client, newId) => AdvanceClient(s, client, newId)
  }

  const Empty: System := System(0, map[], map[], map[], map[], map[], [])

  function After(schedule: seq<Action>): System {
    if schedule == [] then Empty else Step(After(schedule[..|schedule| - 1]), schedule[|schedule| - 1])
  }

  lemma CommitAndRespond(s: System, c: nat, newId: Uuid, report: StatusReport, snapshot: PaymentIntent)
    requires PcOf(s, c) == ReportAuthorised(report, snapshot)
    ensures var t := AdvanceTwice(s, c, newId);
            var (intents, r) := StoreUpdate(s.intents, report.id, report.status, s.now);
            t.intents == intents &&
            match r
            case Err(e) => t.responses == s.responses && PcOf(t, c) == Replied(Reported(Err(e)))
            case Ok(at) =>
              var body := snapshot.(updatedAt := at, status := report.status);
              && t.responses == s.responses + [Response(body, report, |HistoryOf(s.history, report.id)|)]
              && PcOf(t, c) == Replied(Reported(Ok(body)))
  {
    var s1 := AdvanceClient(s, c, newId);
    var (intents, r) := StoreUpdate(s.intents, report.id, report.status, s.now);
    match r {
      case Ok(at) => assert PcOf(s1, c) == ReportCommitted(report, snapshot, at, |HistoryOf(s.history, report.id)|);
      case Err(e) => assert PcOf(s1, c) == Replied(Reported(Err(e)));
    }
  }

  /** Left alone for four steps, a client does what the sequential `update_payment_status` does, answer included. */
  lemma UninterruptedReport(s: System, c: nat, newId: Uuid, report: StatusReport)
    requires PcOf(s, c) == ReportStarted(report)
    ensures var t := AdvanceTwice(AdvanceTwice(s, c, newId), c, newId);
            var (intents, r) := Report(s.intents, report.id, report.status, report.actor, s.now);
            && t.intents == intents
            && PcOf(t, c) == Replied(Reported(r))
            && t.responses ==
               s.responses + if r.Ok? then [Response(r.value, report, |HistoryOf(s.history, report.id)|)] else []
  {
    var s1 := AdvanceClient(s, c, newId);
    var s2 := AdvanceClient(s1, c, newId);
    if report.id !in s.intents {
      assert s1 == Goto(s, c, Replied(Reported(Err(NotFound))));
    } else {
      var snapshot := s.intents[report.id];
      assert s1 == Goto(s, c, ReportRead(report, snapshot));
      if Authorised(snapshot, report.status, report.actor) {
        assert s2 == Goto(s1, c, ReportAuthorised(report, snapshot));
        CommitAndRespond(s2, c, newId, report, snapshot);
      } else {
        assert s2 == Goto(s1, c, Replied(Reported(Err(Forbidden))));
      }
    }
  }

  lemma StoreAndReply(s: System, c: nat, newId: Uuid, m: MessageRequest)
    requires PcOf(s, c) == MessageValidated(m) && newId !in s.messages
    ensures var (t, row) := (AdvanceClient(s, c, newId), NewRow(m, newId, s.now));
            && t.messages == s.messages[newId := row] && t.intents == s.intents && t.now == s.now
            && PcOf(t, c) == Replied(Delivered(Ok(row)))
  {
  }

  lemma ValidateAndStore(s: System, c: nat, newId: Uuid, m: MessageRequest)
    requires PcOf(s, c) == MessageStarted(m) && newId !in s.messages
    ensures var t := AdvanceClient(AdvanceClient(AdvanceClient(s, c, newId), c, newId), c, newId);
            var r := Send(s.intents, m.sender, Some(m.recipient), m.link, m.payload, newId, s.now);
            && t.messages == (if r.Ok? then s.messages[newId := r.value] else s.messages)
            && t.intents == s.intents
            && PcOf(t, c) == Replied(Delivered(r))
  {
    var s1 := AdvanceClient(s, c, newId);
    var s2 := AdvanceClient(s1, c, newId);
    if m.link.None? {
      assert s1 == Goto(s, c, MessageValidated(m));
      StoreAndReply(s1, c, newId, m);
      assert AdvanceClient(s2, c, newId) == s2;
    } else {
      var found := FindById(s.intents, m.link.value);
      assert s1 == Goto(s, c, LinkRead(m, found));
      match ValidateLink(found, AsActor(m.sender), AsActor(m.recipient)) {
        case Ok(_) =>
          assert s2 == Goto(s1, c, MessageValidated(m));
          StoreAndReply(s2, c, newId, m);
        case Err(e) =>
          assert s2 == Goto(s1, c, Replied(Delivered(Err(e))));
          assert AdvanceClient(s2, c, newId) == s2;
      }
    }
  }

  /** Left alone for four steps, a client sends as the handler does, answer included. */
  lemma UninterruptedSend(
    s: System, c: nat, newId: Uuid, sender: User, recipient: Option<User>, link: Option<Uuid>, payload: string)
    requires PcOf(s, c) == SendStarted(sender, recipient, link, payload) && newId !in s.messages
    ensures var t := AdvanceTwice(AdvanceTwice(s, c, newId), c, newId);
            var r := Send(s.intents, sender, recipient, link, payload, newId, s.now);
            && t.messages == (if r.Ok? then s.messages[newId := r.value] else s.messages)
            && t.intents == s.intents
            && PcOf(t, c) == Replied(Delivered(r))
  {
    var s1 := AdvanceClient(s, c, newId);
    if recipient.None? {
      assert s1 == Goto(s, c, Replied(Delivered(Err(NotFound))));
    } else {
      var m := MessageRequest(sender, recipient.value, link, payload);
      assert s1 == Goto(s, c, MessageStarted(m));
      ValidateAndStore(s1, c, newId, m);
    }
  }

  lemma UpdateAndReply(s: System, c: nat, newId: Uuid, ack: AckRequest, row: MessageRow)
    requires PcOf(s, c) == AckAuthorised(ack, row)
    ensures var t := AdvanceClient(s, c, newId);
            var (messages, r) := MessageUpdate(s.messages, ack.id, ack.status, s.now);
            && t.messages == messages && t.intents == s.intents
            && PcOf(t, c) == Replied(Acknowledged(if r.Ok? then Ok(ack.status) else Err(r.error)))
  {
  }

  /** Left alone for three steps, a client acknowledges as the handler does, answer included. */
  lemma UninterruptedAck(s: System, c: nat, newId: Uuid, ack: AckRequest)
    requires PcOf(s, c) == AckStarted(ack)
    ensures var t := AdvanceClient(AdvanceClient(AdvanceClient(s, c, newId), c, newId), c, newId);
            var (messages, r) := Acknowledge(s.messages, ack.id, ack.userId, Some(ack.status), s.now);
            t.messages == messages && t.intents == s.intents && PcOf(t, c) == Replied(Acknowledged(r))
  {
    var s1 := AdvanceClient(s, c, newId);
    var s2 := AdvanceClient(s1, c, newId);
    if ack.id !in s.messages {
      assert s1 == Goto(s, c, Replied(Acknowledged(Err(NotFound))));
      assert s2 == s1 && AdvanceClient(s2, c, newId) == s2;
    } else {
      assert s1 == Goto(s, c, AckRead(ack, s.messages[ack.id]));
      match RoleCheck(s.messages[ack.id], ack.userId, ack.status) {
        case Ok(_) =>
          assert s2 == Goto(s1, c, AckAuthorised(ack, s.messages[ack.id]));
          UpdateAndReply(s2, c, newId, ack, s.messages[ack.id]);
        case Err(e) =>
          assert s2 == Goto(s1, c, Replied(Acknowledged(Err(e))));
          assert AdvanceClient(s2, c, newId) == s2;
      }
    }
  }

  // ---------------------------------------------------------------- what one commit may do

  /**
    A status commit moves along the graph, or repeats the status and changes nothing at all; and it was reported by an
    actor the committed record itself authorises.
   */
  ghost predicate Follows(a: PaymentIntent, b: Version) {
    && Identity(a) == Identity(b.intent)
    && CanTransitionTo(a.status, b.intent.status)
    && (a.status == b.intent.status ==> a == b.intent)
    && a.updatedAt <= b.intent.updatedAt
    && b.via.Some? && b.via.value.status == b.intent.status
    && Authorised(b.intent, b.via.value.status, b.via.value.actor)
  }

  /** An acknowledgement moves forwards in rank or repeats the status; only the first one sets the timestamp. */
  ghost predicate RowFollows(a: MessageRow, b: RowVersion) {
    && Envelope(a) == Envelope(b.row)
    && IsKnown(b.row.status)
    && (a.status == b.row.status || MessageRank(a.status) < MessageRank(b.row.status))
    && b.row.acknowledgedAt.Some?
    && (a.acknowledgedAt.Some? ==> b.row.acknowledgedAt == a.acknowledgedAt)
    && b.via.Some? && b.via.value.status == b.row.status
    && RoleCheck(b.row, b.via.value.userId, b.via.value.status).Ok?
  }

  ghost predicate GoodVersions(versions: seq<Version>) {
    && versions != []
    && versions[0].via.None? && Rank(versions[0].intent.status) <= Rank(Pending)
    && forall i | 0 < i < |versions| :: Follows(versions[i - 1].intent, versions[i])
  }

  ghost predicate GoodRows(versions: seq<RowVersion>) {
    && versions != []
    && versions[0].via.None? && versions[0].row.status == "delivered" && versions[0].row.acknowledgedAt.None?
    && forall i | 0 < i < |versions| :: RowFollows(versions[i - 1].row, versions[i])
  }

  lemma GoodVersionsExtend(versions: seq<Version>, next: Version)
    requires GoodVersions(versions) && Follows(versions[|versions| - 1].intent, next)
    ensures GoodVersions(versions + [next])
  {
  }

  lemma GoodRowsExtend(versions: seq<RowVersion>, next: RowVersion)
    requires GoodRows(versions) && RowFollows(versions[|versions| - 1].row, next)
    ensures GoodRows(versions + [next])
  {
  }

  // ---------------------------------------------------------------- the invariant

  function SenderOf(row: MessageRow): Actor {
    Actor(row.senderId, Some(row.senderName))
  }

  function RecipientOf(row: MessageRow): Actor {
    Actor(row.recipientId, Some(row.recipientName))
  }

  ghost predicate IntentOk(s: System, id: Uuid) {
    && (id in s.intents <==> id in s.history)
    && (id in s.intents ==>
          && GoodVersions(s.history[id])
          && s.history[id][|s.history[id]| - 1].intent == s.intents[id]
          && s.intents[id].id == id
          && s.intents[id].updatedAt <= s.now)
  }

  ghost predicate RowOk(s: System, id: Uuid) {
    && (id in s.messages <==> id in s.rowHistory)
    && (id in s.messages ==>
          && GoodRows(s.rowHistory[id])
          && s.rowHistory[id][|s.rowHistory[id]| - 1].row == s.messages[id]
          && IsKnown(s.messages[id].status)
          && LinkOk(s.intents, s.messages[id].paymentIntentId, SenderOf(s.messages[id]), RecipientOf(s.messages[id])))
  }

  ghost predicate SnapshotOf(intents: Store, id: Uuid, snapshot: PaymentIntent) {
    id in intents && Identity(snapshot) == Identity(intents[id])
  }

  ghost predicate LinkOk(intents: Store, link: Option<Uuid>, sender: Actor, recipient: Actor) {
    link.Some? ==> ValidateLink(FindById(intents, link.value), sender, recipient).Ok?
  }

  /** The body is the version of the reported intent at that index, and that report committed it. */
  ghost predicate IsVersion(history: map<Uuid, seq<Version>>, report: StatusReport, index: nat, body: PaymentIntent) {
    && report.id in history
    && 0 < index < |history[report.id]|
    && history[report.id][index] == Version(body, Some(report))
  }

  /** What a client may rely on at each point, however long ago it read. */
  ghost predicate PcOk(s: System, pc: Pc) {
    match pc
    case ReportRead(report, snapshot) => SnapshotOf(s.intents, report.id, snapshot)
    case ReportAuthorised(report, snapshot) =>
      SnapshotOf(s.intents, report.id, snapshot) && Authorised(snapshot, report.status, report.actor)
    case ReportCommitted(report, snapshot, at, version) =>
      IsVersion(s.history, report, version, snapshot.(updatedAt := at, status := report.status))
    case LinkRead(m, found) =>
      m.link.Some? && (found.Some? ==> SnapshotOf(s.intents, m.link.value, found.value))
    case MessageValidated(m) => LinkOk(s.intents, m.link, AsActor(m.sender), AsActor(m.recipient))
    case AckRead(ack, row) => ack.id in s.messages && Envelope(row) == Envelope(s.messages[ack.id])
    case AckAuthorised(ack, row) =>
      && ack.id in s.messages && Envelope(row) == Envelope(s.messages[ack.id])
      && RoleCheck(row, ack.userId, ack.status).Ok?
    case _ => true
  }

  ghost predicate ResponsesOk(s: System) {
    forall k | 0 <= k < |s.responses| ::
      IsVersion(s.history, s.responses[k].report, s.responses[k].version, s.responses[k].body)
  }

  ghost predicate Inv(s: System) {
    && (forall id: Uuid :: IntentOk(s, id))
    && (forall id: Uuid :: RowOk(s, id))
    && (forall c | c in s.clients :: PcOk(s, s.clients[c]))
    && ResponsesOk(s)
  }

  // ---------------------------------------------------------------- what every step keeps

  /** Nothing is removed, identities stay, histories and the clock only grow. */
  ghost predicate Grows(s: System, t: System) {
    && (forall id | id in s.intents :: id in t.intents && Identity(t.intents[id]) == Identity(s.intents[id]))
    && (forall id | id in s.messages :: id in t.messages && Envelope(t.messages[id]) == Envelope(s.messages[id]))
    && (forall id | id in s.history :: id in t.history && s.history[id] <= t.history[id])
    && s.now <= t.now
  }

  lemma PcStaysOk(s: System, t: System, pc: Pc)
    requires PcOk(s, pc) && Grows(s, t)
    ensures PcOk(t, pc)
  {
  }

  lemma ClientsStayOk(s: System, t: System, c: int)
    requires forall d | d in s.clients :: PcOk(s, s.clients[d])
    requires Grows(s, t)
    requires forall d | d in t.clients && d != c :: d in s.clients && t.clients[d] == s.clients[d]
    requires c in t.clients ==> PcOk(t, t.clients[c])
    ensures forall d | d in t.clients :: PcOk(t, t.clients[d])
  {
    forall d | d in t.clients
      ensures PcOk(t, t.clients[d])
    {
      if d != c {
        PcStaysOk(s, t, s.clients[d]);
      }
    }
  }

  lemma ResponsesStayOk(s: System, t: System)
    requires ResponsesOk(s) && Grows(s, t) && t.responses == s.responses
    ensures ResponsesOk(t)
  {
  }

  lemma RowStaysOk(s: System, t: System, id: Uuid)
    requires RowOk(s, id) && Grows(s, t)
    requires id in s.messages <==> id in t.messages
    requires id in s.rowHistory <==> id in t.rowHistory
    requires id in s.messages ==> t.messages[id] == s.messages[id]
    requires id in s.rowHistory ==> t.rowHistory[id] == s.rowHistory[id]
    ensures RowOk(t, id)
  {
  }

  /** Client `c`, if there is one, is the only one that moved. */
  ghost predicate OnlyMoves(s: System, t: System, c: int) {
    && (c in t.clients ==> PcOk(t, t.clients[c]))
    && (forall d | d in t.clients && d != c :: d in s.clients && t.clients[d] == s.clients[d])
  }

  /** A step that touches neither the stores nor the histories. */
  lemma QuietStepKeepsInv(s: System, t: System, c: int)
    requires Inv(s) && OnlyMoves(s, t, c) && ResponsesOk(t)
    requires t == s.(clients := t.clients, now := t.now, responses := t.responses) && s.now <= t.now
    ensures Inv(t)
  {
    forall id: Uuid
      ensures IntentOk(t, id) && RowOk(t, id)
    {
      assert IntentOk(s, id) && RowOk(s, id);
    }
    ClientsStayOk(s, t, c);
  }

  /** A step that stores a version of one intent. */
  lemma IntentStepKeepsInv(s: System, t: System, c: int, id: Uuid, version: Version)
    requires Inv(s) && OnlyMoves(s, t, c) && Grows(s, t)
    requires t == StoreIntent(s, id, version).(clients := t.clients)
    requires IntentOk(t, id)
    ensures Inv(t)
  {
    forall other: Uuid
      ensures IntentOk(t, other) && RowOk(t, other)
    {
      assert IntentOk(s, other) && RowOk(s, other);
      RowStaysOk(s, t, other);
    }
    ClientsStayOk(s, t, c);
    ResponsesStayOk(s, t);
  }

  /** A step that stores a version of one message row. */
  lemma RowStepKeepsInv(s: System, t: System, c: int, id: Uuid, version: RowVersion)
    requires Inv(s) && OnlyMoves(s, t, c) && Grows(s, t)
    requires t == StoreRow(s, id, version).(clients := t.clients)
    requires RowOk(t, id)
    ensures Inv(t)
  {
    forall other: Uuid
      ensures IntentOk(t, other) && RowOk(t, other)
    {
      assert IntentOk(s, other) && RowOk(s, other);
      if other != id {
        RowStaysOk(s, t, other);
      }
    }
    ClientsStayOk(s, t, c);
    ResponsesStayOk(s, t);
  }

  // ---------------------------------------------------------------- step by step

  lemma CreateStep(s: System, id: Uuid, intent: PaymentIntent)
    requires IntentOk(s, id) && id !in s.intents
    requires intent.id == id && Rank(intent.status) <= Rank(Pending) && intent.updatedAt <= s.now
    ensures var t := StoreIntent(s, id, Version(intent, None));
            IntentOk(t, id) && Grows(s, t)
  {
  }

  lemma CreateKeepsInv(s: System, a: Action)
    requires Inv(s) && a.CreateIntent?
    ensures Inv(Step(s, a)) && Grows(s, Step(s, a))
  {
    var made := NewPaymentIntent(a.request, a.id, a.started, s.now);
    if a.id !in s.intents && made.Ok? {
      assert IntentOk(s, a.id);
      CreateStep(s, a.id, made.value);
      var t := StoreIntent(s, a.id, Version(made.value, None));
      ClientsStayOk(s, t, -1);
      IntentStepKeepsInv(s, t, -1, a.id, Version(made.value, None));
    }
  }

  /** The commit re-validates against the stored record; the earlier snapshot contributes only identity. */
  lemma CommitIsVersion(s: System, report: StatusReport, snapshot: PaymentIntent)
    requires IntentOk(s, report.id) && SnapshotOf(s.intents, report.id, snapshot)
    requires Authorised(snapshot, report.status, report.actor)
    requires StoreUpdate(s.intents, report.id, report.status, s.now).1.Ok?
    ensures var (intents, at) := StoreUpdate(s.intents, report.id, report.status, s.now);
            && intents[report.id] == snapshot.(updatedAt := at.value, status := report.status)
            && intents[report.id].updatedAt <= s.now
            && Follows(s.intents[report.id], Version(intents[report.id], Some(report)))
  {
  }

  lemma CommitStep(s: System, report: StatusReport, intent: PaymentIntent)
    requires IntentOk(s, report.id) && report.id in s.intents && intent.updatedAt <= s.now
    requires Follows(s.intents[report.id], Version(intent, Some(report)))
    ensures var t := StoreIntent(s, report.id, Version(intent, Some(report)));
            IntentOk(t, report.id) && Grows(s, t) && IsVersion(t.history, report, |s.history[report.id]|, intent)
  {
    GoodVersionsExtend(s.history[report.id], Version(intent, Some(report)));
  }

  lemma CommitKeepsInv(s: System, c: nat, newId: Uuid)
    requires Inv(s) && PcOf(s, c).ReportAuthorised?
    ensures Inv(AdvanceClient(s, c, newId)) && Grows(s, AdvanceClient(s, c, newId))
  {
    var ReportAuthorised(report, snapshot) := PcOf(s, c);
    var t := AdvanceClient(s, c, newId);
    assert PcOk(s, s.clients[c]);
    assert IntentOk(s, report.id);
    var (intents, r) := StoreUpdate(s.intents, report.id, report.status, s.now);
    if r.Ok? {
      var version := Version(intents[report.id], Some(report));
      CommitIsVersion(s, report, snapshot);
      CommitStep(s, report, intents[report.id]);
      IntentStepKeepsInv(s, t, c, report.id, version);
    } else {
      QuietStepKeepsInv(s, t, c);
    }
  }

  lemma SaveStep(s: System, id: Uuid, m: MessageRequest)
    requires RowOk(s, id) && id !in s.messages && LinkOk(s.intents, m.link, AsActor(m.sender), AsActor(m.recipient))
    ensures var t := StoreRow(s, id, RowVersion(NewRow(m, id, s.now), None));
            RowOk(t, id) && Grows(s, t)
  {
  }

  lemma SaveKeepsInv(s: System, c: nat, newId: Uuid)
    requires Inv(s) && PcOf(s, c).MessageValidated?
    ensures Inv(AdvanceClient(s, c, newId)) && Grows(s, AdvanceClient(s, c, newId))
  {
    var m := PcOf(s, c).message;
    assert PcOk(s, s.clients[c]);
    if newId !in s.messages {
      assert RowOk(s, newId);
      SaveStep(s, newId, m);
      RowStepKeepsInv(s, AdvanceClient(s, c, newId), c, newId, RowVersion(NewRow(m, newId, s.now), None));
    }
  }

  lemma AckIsVersion(s: System, ack: AckRequest, row: MessageRow)
    requires RowOk(s, ack.id) && ack.id in s.messages && Envelope(row) == Envelope(s.messages[ack.id])
    requires RoleCheck(row, ack.userId, ack.status).Ok?
    requires MessageUpdate(s.messages, ack.id, ack.status, s.now).1.Ok?
    ensures RowFollows(s.messages[ack.id],
                       RowVersion(MessageUpdate(s.messages, ack.id, ack.status, s.now).0[ack.id], Some(ack)))
  {
    AllowedSourcesByRank(s.messages[ack.id].status, ack.status);
  }

  lemma AckStep(s: System, id: Uuid, version: RowVersion)
    requires RowOk(s, id) && id in s.messages && RowFollows(s.messages[id], version)
    ensures var t := StoreRow(s, id, version);
            RowOk(t, id) && Grows(s, t)
  {
    GoodRowsExtend(s.rowHistory[id], version);
  }

  lemma AckCommitKeepsInv(s: System, c: nat, newId: Uuid, ack: AckRequest, row: MessageRow)
    requires Inv(s) && PcOf(s, c) == AckAuthorised(ack, row) && PcOk(s, PcOf(s, c))
    requires MessageUpdate(s.messages, ack.id, ack.status, s.now).1.Ok?
    ensures Inv(AdvanceClient(s, c, newId)) && Grows(s, AdvanceClient(s, c, newId))
  {
    assert RowOk(s, ack.id);
    var version := RowVersion(MessageUpdate(s.messages, ack.id, ack.status, s.now).0[ack.id], Some(ack));
    AckIsVersion(s, ack, row);
    AckStep(s, ack.id, version);
    RowStepKeepsInv(s, AdvanceClient(s, c, newId), c, ack.id, version);
  }

  lemma AckKeepsInv(s: System, c: nat, newId: Uuid)
    requires Inv(s) && PcOf(s, c).AckAuthorised?
    ensures Inv(AdvanceClient(s, c, newId)) && Grows(s, AdvanceClient(s, c, newId))
  {
    var AckAuthorised(ack, row) := PcOf(s, c);
    var r := MessageUpdate(s.messages, ack.id, ack.status, s.now).1;
    assert PcOk(s, s.clients[c]);
    if r.Ok? {
      AckCommitKeepsInv(s, c, newId, ack, row);
    } else {
      QuietStepKeepsInv(s, Goto(s, c, Replied(Acknowledged(Err(r.error)))), c);
    }
  }

  predicate IsLocal(pc: Pc) {
    !IsFree(pc) && !pc.ReportAuthorised? && !pc.MessageValidated? && !pc.AckAuthorised?
  }

  lemma NextPcOk(s: System, pc: Pc)
    requires IsLocal(pc) && PcOk(s, pc)
    ensures PcOk(s, NextPc(s, pc))
  {
  }

  lemma SentIsVersion(s: System, pc: Pc)
    requires PcOk(s, pc) && ResponsesOk(s)
    ensures ResponsesOk(s.(responses := s.responses + Sent(pc)))
  {
  }

  lemma LocalStep(s: System, t: System, c: nat, pc: Pc, sent: seq<Response>)
    requires t == Goto(s, c, pc).(responses := s.responses + sent)
    requires PcOk(s, pc) && ResponsesOk(s.(responses := t.responses))
    ensures OnlyMoves(s, t, c) && ResponsesOk(t) && Grows(s, t)
  {
    PcStaysOk(s, t, pc);
    assert t.history == s.(responses := t.responses).history;
  }

  /** The steps that only move the client on, or send the response of a commit already made. */
  lemma LocalStepKeepsInv(s: System, c: nat, newId: Uuid)
    requires Inv(s) && IsLocal(PcOf(s, c))
    ensures Inv(AdvanceClient(s, c, newId)) && Grows(s, AdvanceClient(s, c, newId))
  {
    var t := AdvanceClient(s, c, newId);
    assert PcOk(s, s.clients[c]);
    NextPcOk(s, PcOf(s, c));
    SentIsVersion(s, PcOf(s, c));
    LocalStep(s, t, c, NextPc(s, PcOf(s, c)), Sent(PcOf(s, c)));
    QuietStepKeepsInv(s, t, c);
  }

  lemma AdvanceKeepsInv(s: System, c: nat, newId: Uuid)
    requires Inv(s)
    ensures Inv(AdvanceClient(s, c, newId)) && Grows(s, AdvanceClient(s, c, newId))
  {
    match PcOf(s, c) {
      case Idle =>
      case Replied(_) =>
      case ReportAuthorised(_, _) => CommitKeepsInv(s, c, newId);
      case MessageValidated(_) => SaveKeepsInv(s, c, newId);
      case AckAuthorised(_, _) => AckKeepsInv(s, c, newId);
      case _ => LocalStepKeepsInv(s, c, newId);
    }
  }

  lemma StepKeepsInv(s: System, a: Action)
    requires Inv(s)
    ensures Inv(Step(s, a)) && Grows(s, Step(s, a))
  {
    match a {
      case CreateIntent(_, _, _) => CreateKeepsInv(s, a);
      case Advance(c, newId) => AdvanceKeepsInv(s, c, newId);
      case Begin(c, start) =>
        if IsFree(PcOf(s, c)) && IsStart(start) {
          QuietStepKeepsInv(s, Step(s, a), c);
        }
      case Tick(_) => QuietStepKeepsInv(s, Step(s, a), -1);
    }
  }

  // ---------------------------------------------------------------- every schedule

  lemma {:induction false} EveryScheduleKeepsInv(schedule: seq<Action>)
    ensures Inv(After(schedule))
  {
    if schedule != [] {
      EveryScheduleKeepsInv(schedule[..|schedule| - 1]);
      StepKeepsInv(After(schedule[..|schedule| - 1]), schedule[|schedule| - 1]);
    }
  }

  lemma {:induction false} ReachedOk(schedule: seq<Action>, id: Uuid)
    ensures IntentOk(After(schedule), id) && RowOk(After(schedule), id)
  {
    EveryScheduleKeepsInv(schedule);
  }

  lemma {:induction false} HistoryGrows(schedule: seq<Action>, i: nat, id: Uuid)
    requires i <= |schedule| && id in After(schedule[..i]).history
    ensures id in After(schedule).history && After(schedule[..i]).history[id] <= After(schedule).history[id]
  {
    if i < |schedule| {
      var before := schedule[..|schedule| - 1];
      assert before[..i] == schedule[..i];
      HistoryGrows(before, i, id);
      EveryScheduleKeepsInv(before);
      StepKeepsInv(After(before), schedule[|schedule| - 1]);
    } else {
      assert schedule[..i] == schedule;
    }
  }

  function StatusesOf(versions: seq<Version>): seq<PaymentStatus> {
    seq(|versions|, i requires 0 <= i < |versions| => versions[i].intent.status)
  }

  lemma VersionsArePaths(versions: seq<Version>)
    requires GoodVersions(versions)
    ensures IsPath(StatusesOf(versions))
  {
    forall i | 0 < i < |versions|
      ensures CanTransitionTo(StatusesOf(versions)[i - 1], StatusesOf(versions)[i])
    {
      assert Follows(versions[i - 1].intent, versions[i]);
    }
  }

  /** The statuses ever stored for an intent form a path of the transition graph that ends in the stored one. */
  lemma {:induction false} StoredHistoryIsAPath(schedule: seq<Action>, id: Uuid)
    requires id in After(schedule).intents
    ensures id in After(schedule).history
    ensures var path := StatusesOf(After(schedule).history[id]);
            IsPath(path) && Rank(path[0]) <= Rank(Pending) && path[|path| - 1] == After(schedule).intents[id].status
  {
    ReachedOk(schedule, id);
    VersionsArePaths(After(schedule).history[id]);
  }

  /** What was stored as Refunded was stored as Protected or Claimable before. */
  lemma {:induction false} RefundsWereEscrowed(schedule: seq<Action>, id: Uuid)
    requires id in After(schedule).intents && After(schedule).intents[id].status.Refunded?
    ensures id in After(schedule).history
    ensures exists i | 0 <= i < |After(schedule).history[id]| ::
              var status := After(schedule).history[id][i].intent.status;
              status.Protected? || status.Claimable?
  {
    StoredHistoryIsAPath(schedule, id);
    var versions := After(schedule).history[id];
    var path := StatusesOf(versions);
    RefundedPassesThroughEscrow(path, |path| - 1);
    var i :| 0 <= i < |path| - 1 && (path[i].Protected? || path[i].Claimable?);
    assert versions[i].intent.status == path[i];
  }

  lemma {:induction false} VersionsAreFinal(versions: seq<Version>, i: nat, j: nat)
    requires GoodVersions(versions) && i <= j < |versions| && IsTerminal(versions[i].intent.status)
    ensures versions[j].intent == versions[i].intent
  {
    if i < j {
      VersionsAreFinal(versions, i, j - 1);
      assert Follows(versions[j - 1].intent, versions[j]);
    }
  }

  lemma VersionsFromTerminalOn(s: System, id: Uuid, i: nat, j: nat)
    requires IntentOk(s, id) && id in s.history && i <= j < |s.history[id]|
    requires IsTerminal(s.history[id][i].intent.status)
    ensures id in s.intents && s.history[id][j].intent == s.history[id][i].intent == s.intents[id]
  {
    VersionsAreFinal(s.history[id], i, j);
    VersionsAreFinal(s.history[id], i, |s.history[id]| - 1);
  }

  lemma LastVersion(s: System, id: Uuid)
    requires IntentOk(s, id) && id in s.intents
    ensures id in s.history && s.history[id] != [] && s.history[id][|s.history[id]| - 1].intent == s.intents[id]
  {
  }

  /** Once a terminal status is stored, no later point of any schedule shows anything else, timestamp included. */
  lemma {:induction false} TerminalRecordsAreFinal(schedule: seq<Action>, i: nat, id: Uuid)
    requires i <= |schedule| && id in After(schedule[..i]).intents
    requires IsTerminal(After(schedule[..i]).intents[id].status)
    ensures id in After(schedule).intents
    ensures After(schedule).intents[id] == After(schedule[..i]).intents[id]
  {
    ReachedOk(schedule[..i], id);
    LastVersion(After(schedule[..i]), id);
    HistoryGrows(schedule, i, id);
    ReachedOk(schedule, id);
    var n := |After(schedule[..i]).history[id]| - 1;
    VersionsFromTerminalOn(After(schedule), id, n, n);
  }

  /**
    At most one of Claimed, Refunded and Failed is ever stored: every commit from the first terminal one on, whoever
    reported it, left one and the same record.
   */
  lemma {:induction false} OneTerminalRecord(schedule: seq<Action>, id: Uuid, i: nat, j: nat)
    requires id in After(schedule).history && i <= j < |After(schedule).history[id]|
    requires IsTerminal(After(schedule).history[id][i].intent.status)
    ensures id in After(schedule).intents
    ensures After(schedule).history[id][j].intent == After(schedule).history[id][i].intent ==
              After(schedule).intents[id]
  {
    ReachedOk(schedule, id);
    VersionsFromTerminalOn(After(schedule), id, i, j);
  }

  lemma {:induction false} ReachedResponse(schedule: seq<Action>, k: nat)
    requires k < |After(schedule).responses|
    ensures var r := After(schedule).responses[k];
            IsVersion(After(schedule).history, r.report, r.version, r.body)
  {
    EveryScheduleKeepsInv(schedule);
  }

  /**
    Every response is, in all fields, the version that the very report it answers has stored, although it was built
    from a snapshot that other clients may have overtaken; and a report that repeats the status returns the record it
    found.
   */
  lemma {:induction false} ResponsesAreStoredRecords(schedule: seq<Action>, k: nat)
    requires k < |After(schedule).responses|
    ensures var Response(body, report, version) := After(schedule).responses[k];
            && report.id in After(schedule).history
            && var versions := After(schedule).history[report.id];
               && 0 < version < |versions|
               && versions[version] == Version(body, Some(report))
               && report.status == body.status
               && (versions[version - 1].intent.status == body.status ==> body == versions[version - 1].intent)
  {
    ReachedResponse(schedule, k);
    var r := After(schedule).responses[k];
    ReachedOk(schedule, r.report.id);
    var versions := After(schedule).history[r.report.id];
    assert Follows(versions[r.version - 1].intent, versions[r.version]);
  }

  /**
    Who put a status there: the recipient if it is Claimed, the sender if it is Refunded, otherwise one of the two,
    judged by the stored record although authorisation looked at an earlier snapshot.
   */
  lemma {:induction false} StatusProvenance(schedule: seq<Action>, id: Uuid, i: nat)
    requires id in After(schedule).history && i < |After(schedule).history[id]|
    ensures var version := After(schedule).history[id][i];
            if i == 0 then version.via.None? && Rank(version.intent.status) <= Rank(Pending)
            else
              && version.via.Some? && version.via.value.status == version.intent.status
              && match version.intent.status
                 case Claimed => IsRecipient(version.intent, version.via.value.actor)
                 case Refunded => IsSender(version.intent, version.via.value.actor)
                 case _ =>
                   || IsSender(version.intent, version.via.value.actor)
                   || IsRecipient(version.intent, version.via.value.actor)
  {
    ReachedOk(schedule, id);
    var versions := After(schedule).history[id];
    if i > 0 {
      assert Follows(versions[i - 1].intent, versions[i]);
    }
  }

  /** A linked message always names an existing protected intent of its own sender and recipient. */
  lemma {:induction false} LinkedMessagesBelongToTheirIntent(schedule: seq<Action>, id: Uuid)
    requires id in After(schedule).messages && After(schedule).messages[id].paymentIntentId.Some?
    ensures var s := After(schedule);
            var row := s.messages[id];
            && row.paymentIntentId.value in s.intents
            && var intent := s.intents[row.paymentIntentId.value];
               && intent.paymentType.ProtectedPayment?
               && intent.senderId.Some?
                  && MatchesActor(Actor(row.senderId, Some(row.senderName)), intent.senderId.value)
               && MatchesActor(Actor(row.recipientId, Some(row.recipientName)), intent.recipient)
  {
    ReachedOk(schedule, id);
  }

  lemma {:induction false} RowVersionsAdvance(versions: seq<RowVersion>, i: nat, j: nat)
    requires GoodRows(versions) && i <= j < |versions|
    ensures Envelope(versions[j].row) == Envelope(versions[i].row)
    ensures IsKnown(versions[j].row.status)
    ensures versions[j].row.status == versions[i].row.status ||
            MessageRank(versions[i].row.status) < MessageRank(versions[j].row.status)
    ensures versions[j].row.acknowledgedAt.Some? <==> j > 0
    ensures i > 0 ==> versions[j].row.acknowledgedAt == versions[i].row.acknowledgedAt
  {
    if i < j {
      RowVersionsAdvance(versions, i, j - 1);
      assert RowFollows(versions[j - 1].row, versions[j]);
    } else if i > 0 {
      assert RowFollows(versions[i - 1].row, versions[i]);
    }
  }

  /** What holds between an earlier and a later version of a message row. */
  ghost predicate MonotoneRows(versions: seq<RowVersion>, i: nat, j: nat)
    requires i <= j < |versions|
  {
    var early, late := versions[i].row, versions[j].row;
    && MessageRank(early.status) <= MessageRank(late.status)
    && (early.status == "claimed" || early.status == "refunded" ==> late.status == early.status)
    && (late.acknowledgedAt.None? <==> j == 0)
    && (i > 0 ==> late.acknowledgedAt == early.acknowledgedAt)
    && Envelope(late) == Envelope(early)
    && (j > 0 ==>
        && versions[j].via.Some?
        && versions[j].via.value.userId == if late.status == "refunded" then late.senderId else late.recipientId)
  }

  lemma RowVersionsAreMonotone(versions: seq<RowVersion>, i: nat, j: nat)
    requires GoodRows(versions) && i <= j < |versions|
    ensures MonotoneRows(versions, i, j)
  {
    RowVersionsAdvance(versions, i, j);
    RowVersionsAdvance(versions, 0, i);
    if j > 0 {
      assert RowFollows(versions[j - 1].row, versions[j]);
    }
  }

  /**
    Message reports are monotone in every interleaving: the rank never falls, claimed and refunded never replace each
    other, the first successful update sets `acknowledgedAt` for good, and only the row's recipient claims or
    acknowledges, only its sender refunds.  The last version is the stored row.
   */
  lemma {:induction false} MessageReportsAreMonotone(schedule: seq<Action>, id: Uuid, i: nat, j: nat)
    requires id in After(schedule).rowHistory && i <= j < |After(schedule).rowHistory[id]|
    ensures MonotoneRows(After(schedule).rowHistory[id], i, j)
    ensures id in After(schedule).messages
    ensures After(schedule).messages[id] == After(schedule).rowHistory[id][|After(schedule).rowHistory[id]| - 1].row
  {
    ReachedOk(schedule, id);
    RowVersionsAreMonotone(After(schedule).rowHistory[id], i, j);
  }
}
