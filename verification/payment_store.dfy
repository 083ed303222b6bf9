/**
  The two payment-intent repositories of services/api/src/repositories/payment_intent_repo.rs.

  `InMemoryPaymentIntentRepository` updates a locked map; `PgPaymentIntentRepository` reads, parses and rewrites a row
  of text and integers under a row lock.  Both are specified by functions on values, and the second simulates the
  first.
 */
module PaymentStore {
  import opened Wrappers
  import opened Text
  import opened PaymentStatuses
  import opened PaymentIntents

  datatype ApiError =
    | NotFound
    | Forbidden
    | BadRequest
    | Conflict
    | Core(error: CoreError)

  // ---------------------------------------------------------------- in memory

  type Store = map<Uuid, PaymentIntent>

  function FindById(store: Store, id: Uuid): Option<PaymentIntent> {
    if id in store then Some(store[id]) else None
  }

  /** Validate and persist in one atomic step; a repeated status keeps its timestamp. */
  function StoreUpdate(store: Store, id: Uuid, status: PaymentStatus, now: Time): (Store, Result<Time, ApiError>) {
    if id !in store then (store, Err(NotFound))
    else
      match TransitionTo(store[id].status, status)
      case Err(e) => (store, Err(Core(InvalidStateTransition(e.from, e.to))))
      case Ok(_) =>
        if store[id].status == status then (store, Ok(store[id].updatedAt))
        else (store[id := store[id].(status := status, updatedAt := now)], Ok(now))
  }

  /**
    Only an edge of the graph changes the store, and then one intent's status and update time; the reply is that time.
   */
  lemma StoreUpdateExactly(store: Store, id: Uuid, status: PaymentStatus, now: Time)
    ensures var (after, r) := StoreUpdate(store, id, status, now);
            && after.Keys == store.Keys
            && (forall other | other in store && other != id :: after[other] == store[other])
            && if id !in store then r == Err(NotFound)
               else if !CanTransitionTo(store[id].status, status) then
                 r == Err(Core(InvalidStateTransition(store[id].status, status))) && after[id] == store[id]
               else if store[id].status == status then r == Ok(store[id].updatedAt) && after[id] == store[id]
               else
                 && r == Ok(now) && after[id].status == status && after[id].updatedAt == now
                 && Identity(after[id]) == Identity(store[id])
  {
  }

  class InMemoryPaymentIntentRepository {
    var storage: Store

    constructor ()
      ensures storage == map[]
    {
      storage := map[];
    }

    method Save(intent: PaymentIntent)
      modifies this
      ensures storage == old(storage)[intent.id := intent]
    {
      storage := storage[intent.id := intent];
    }

    method Find(id: Uuid) returns (found: Option<PaymentIntent>)
      ensures found == FindById(storage, id)
    {
      found := if id in storage then Some(storage[id]) else None;
    }

    method UpdateStatus(id: Uuid, status: PaymentStatus, now: Time) returns (r: Result<Time, ApiError>)
      modifies this
      ensures storage == StoreUpdate(old(storage), id, status, now).0
      ensures r == StoreUpdate(old(storage), id, status, now).1
    {
      if id !in storage {
        return Err(NotFound);
      }
      var intent := storage[id];
      if !CanTransitionTo(intent.status, status) {
        return Err(Core(InvalidStateTransition(intent.status, status)));
      }
      if intent.status != status {
        intent := intent.(status := status, updatedAt := now);
        storage := storage[id := intent];
      }
      r := Ok(intent.updatedAt);
    }
  }

  // ---------------------------------------------------------------- PostgreSQL

  /** A row of `payment_intents`: enumerations as text, the amount as a signed 64-bit integer. */
  datatype Row = Row(
    paymentType: string,
    status: string,
    amount: int,
    senderId: Option<string>,
    recipient: string,
    description: Option<string>,
    expiresAt: Option<Time>,
    claimReference: Option<string>,
    createdAt: Time,
    updatedAt: Time)

  type Rows = map<Uuid, Row>

  const TWO63: int := 0x8000_0000_0000_0000

  /** `as i64` and `as u64` reinterpret the bits. */
  function ToI64(n: Sats): int {
    if n < TWO63 then n else n - TWO64
  }

  function ToU64(n: int): Sats {
    n % TWO64
  }

  /** The column holds the amount's bits as a signed number, which is the amount itself below two to the 63. */
  lemma AmountColumnExactly(n: Sats)
    ensures -9_223_372_036_854_775_808 <= ToI64(n) <= 9_223_372_036_854_775_807
    ensures ToI64(n) == n || ToI64(n) == n - 18_446_744_073_709_551_616
    ensures ToU64(ToI64(n)) == n
  {
  }

  function DisplayType(t: PaymentType): string {
    match t case InstantPayment => "instant" case ProtectedPayment => "protected"
  }

  function TypeFromStr(text: string): Option<PaymentType> {
    if Lower(text) == "instant" then Some(InstantPayment)
    else if Lower(text) == "protected" then Some(ProtectedPayment)
    else None
  }

  function RoundOption(round: Time -> Time, t: Option<Time>): Option<Time> {
    match t case None => None case Some(at) => Some(round(at))
  }

  /** What the database keeps of an intent; `round` is the precision loss of its timestamp columns. */
  function Rounded(round: Time -> Time, intent: PaymentIntent): PaymentIntent {
    intent.(expiresAt := RoundOption(round, intent.expiresAt), createdAt := round(intent.createdAt),
            updatedAt := round(intent.updatedAt))
  }

  function Encode(round: Time -> Time, intent: PaymentIntent): Row {
    Row(DisplayType(intent.paymentType), Display(intent.status), ToI64(intent.amount), intent.senderId,
        intent.recipient, intent.description, RoundOption(round, intent.expiresAt), intent.claimReference,
        round(intent.createdAt), round(intent.updatedAt))
  }

  function Decode(id: Uuid, row: Row): Result<PaymentIntent, ApiError> {
    match TypeFromStr(row.paymentType)
    case None => Err(BadRequest)
    case Some(paymentType) =>
      match FromStr(row.status)
      case None => Err(BadRequest)
      case Some(status) =>
        Ok(PaymentIntent(id, paymentType, status, ToU64(row.amount), row.senderId, row.recipient, row.description,
                         row.expiresAt, row.claimReference, row.createdAt, row.updatedAt))
  }

  /** A stored intent reads back whole, whatever its amount and status, up to the timestamp precision. */
  lemma DecodeInvertsEncode(round: Time -> Time, intent: PaymentIntent)
    ensures Decode(intent.id, Encode(round, intent)) == Ok(Rounded(round, intent))
  {
    FromStrInvertsDisplay("", intent.status);
    assert Lower("instant") == "instant";
    assert Lower("protected") == "protected";
  }

  /** A payment type is read in any case, and only from its two names. */
  lemma TypeFromStrExactly(text: string)
    ensures TypeFromStr(text) == Some(InstantPayment) <==> EqIgnoreCase(text, "instant")
    ensures TypeFromStr(text) == Some(ProtectedPayment) <==> EqIgnoreCase(text, "protected")
  {
    assert Lower("instant") == "instant";
    assert Lower("protected") == "protected";
  }

  /** A row reads back exactly if its two names can be parsed, and then with every column in its place. */
  lemma DecodeExactly(id: Uuid, row: Row)
    ensures var (t, status) := (TypeFromStr(row.paymentType), FromStr(row.status));
            Decode(id, row) ==
            if t == None || status == None then Err(BadRequest)
            else Ok(PaymentIntent(id, t.value, status.value, ToU64(row.amount), row.senderId, row.recipient,
                                  row.description, row.expiresAt, row.claimReference, row.createdAt, row.updatedAt))
  {
  }

  /** `INSERT .. ON CONFLICT (id) DO UPDATE` of three columns. */
  function RowsSave(round: Time -> Time, rows: Rows, intent: PaymentIntent): Rows {
    var given := Encode(round, intent);
    if intent.id in rows then
      rows[intent.id := rows[intent.id].(status := given.status, claimReference := given.claimReference,
                                         updatedAt := given.updatedAt)]
    else rows[intent.id := given]
  }

  function RowsFind(rows: Rows, id: Uuid): Result<Option<PaymentIntent>, ApiError> {
    if id !in rows then Ok(None)
    else
      match Decode(id, rows[id])
      case Ok(intent) => Ok(Some(intent))
      case Err(e) => Err(e)
  }

  function RowsUpdate(round: Time -> Time, rows: Rows, id: Uuid, status: PaymentStatus, now: Time)
    : (Rows, Result<Time, ApiError>)
  {
    if id !in rows then (rows, Err(NotFound))
    else
      match FromStr(rows[id].status)
      case None => (rows, Err(BadRequest))
      case Some(current) =>
        match TransitionTo(current, status)
        case Err(e) => (rows, Err(Core(InvalidStateTransition(e.from, e.to))))
        case Ok(_) =>
          if current == status then (rows, Ok(rows[id].updatedAt))
          else (rows[id := rows[id].(status := Display(status), updatedAt := round(now))], Ok(round(now)))
  }

  /** An update never touches a row whose status cannot be read. */
  lemma UnreadableRowStays(round: Time -> Time, rows: Rows, id: Uuid, status: PaymentStatus, now: Time)
    requires id in rows && FromStr(rows[id].status) == None
    ensures RowsUpdate(round, rows, id, status, now) == (rows, Err(BadRequest))
  {
  }

  class PgPaymentIntentRepository {
    var rows: Rows
    const round: Time -> Time

    constructor (round: Time -> Time)
      ensures rows == map[] && this.round == round
    {
      rows := map[];
      this.round := round;
    }

    method Save(intent: PaymentIntent)
      modifies this`rows
      ensures rows == RowsSave(round, old(rows), intent)
    {
      var row := Encode(round, intent);
      if intent.id in rows {
        row := rows[intent.id].(status := row.status, claimReference := row.claimReference, updatedAt := row.updatedAt);
      }
      rows := rows[intent.id := row];
    }

    method Find(id: Uuid) returns (r: Result<Option<PaymentIntent>, ApiError>)
      ensures r == RowsFind(rows, id)
    {
      if id !in rows {
        return Ok(None);
      }
      match Decode(id, rows[id]) {
        case Ok(intent) => r := Ok(Some(intent));
        case Err(e) => r := Err(e);
      }
    }

    /** One transaction holding the row lock from the SELECT to the COMMIT. */
    method UpdateStatus(id: Uuid, status: PaymentStatus, now: Time) returns (r: Result<Time, ApiError>)
      modifies this`rows
      ensures rows == RowsUpdate(round, old(rows), id, status, now).0
      ensures r == RowsUpdate(round, old(rows), id, status, now).1
    {
      if id !in rows {
        return Err(NotFound);
      }
      var parsed := FromStr(rows[id].status);
      if parsed.None? {
        return Err(BadRequest);
      }
      var current := parsed.value;
      if !CanTransitionTo(current, status) {
        return Err(Core(InvalidStateTransition(current, status)));
      }
      if current == status {
        return Ok(rows[id].updatedAt);
      }
      rows := rows[id := rows[id].(status := Display(status), updatedAt := round(now))];
      r := Ok(rows[id].updatedAt);
    }
  }

  // ---------------------------------------------------------------- one abstract store

  datatype Op =
    | Save(intent: PaymentIntent)
    | Find(id: Uuid)
    | Update(id: Uuid, status: PaymentStatus, now: Time)

  datatype Reply =
    | Saved
    | Found(found: Result<Option<PaymentIntent>, ApiError>)
    | Updated(at: Result<Time, ApiError>)

  function StoreStep(store: Store, op: Op): (Store, Reply) {
    match op
    case Save(intent) => (store[intent.id := intent], Saved)
    case Find(id) => (store, Found(Ok(FindById(store, id))))
    case Update(id, status, now) =>
      var (store', at) := StoreUpdate(store, id, status, now);
      (store', Updated(at))
  }

  function RowsStep(round: Time -> Time, rows: Rows, op: Op): (Rows, Reply) {
    match op
    case Save(intent) => (RowsSave(round, rows, intent), Saved)
    case Find(id) => (rows, Found(RowsFind(rows, id)))
    case Update(id, status, now) =>
      var (rows', at) := RowsUpdate(round, rows, id, status, now);
      (rows', Updated(at))
  }

  function StoreRun(store: Store, ops: seq<Op>): (Store, seq<Reply>)
    decreases |ops|
  {
    if ops == [] then (store, [])
    else
      var (next, reply) := StoreStep(store, ops[0]);
      var (last, replies) := StoreRun(next, ops[1..]);
      (last, [reply] + replies)
  }

  function RowsRun(round: Time -> Time, rows: Rows, ops: seq<Op>): (Rows, seq<Reply>)
    decreases |ops|
  {
    if ops == [] then (rows, [])
    else
      var (next, reply) := RowsStep(round, rows, ops[0]);
      var (last, replies) := RowsRun(round, next, ops[1..]);
      (last, [reply] + replies)
  }

  function RoundedReply(round: Time -> Time, reply: Reply): Reply {
    match reply
    case Found(Ok(Some(intent))) => Found(Ok(Some(Rounded(round, intent))))
    case Updated(Ok(at)) => Updated(Ok(round(at)))
    case _ => reply
  }

  ghost predicate Represents(round: Time -> Time, rows: Rows, store: Store) {
    && rows.Keys == store.Keys
    && forall id | id in store :: store[id].id == id && rows[id] == Encode(round, store[id])
  }

  /** Two intents agree in the columns that ON CONFLICT leaves alone. */
  predicate SameColumns(round: Time -> Time, a: PaymentIntent, b: PaymentIntent) {
    && a.id == b.id && a.paymentType == b.paymentType && a.amount == b.amount && a.senderId == b.senderId
    && a.recipient == b.recipient && a.description == b.description
    && RoundOption(round, a.expiresAt) == RoundOption(round, b.expiresAt) && round(a.createdAt) == round(b.createdAt)
  }

  /** A save introduces an id or repeats those columns, as a creation under a fresh id does. */
  predicate SaveKeepsColumns(round: Time -> Time, store: Store, op: Op) {
    op.Save? && op.intent.id in store ==> SameColumns(round, store[op.intent.id], op.intent)
  }

  predicate SavesKeepColumns(round: Time -> Time, store: Store, ops: seq<Op>)
    decreases |ops|
  {
    ops != [] ==>
      SaveKeepsColumns(round, store, ops[0]) && SavesKeepColumns(round, StoreStep(store, ops[0]).0, ops[1..])
  }

  lemma AmountsEncodeInjectively(a: Sats, b: Sats)
    requires ToI64(a) == ToI64(b)
    ensures a == b
  {
  }

  /** The two stores stay in step over a save exactly if the save keeps those columns. */
  lemma SaveSimulatesExactly(round: Time -> Time, rows: Rows, store: Store, intent: PaymentIntent)
    requires Represents(round, rows, store)
    ensures Represents(round, RowsSave(round, rows, intent), store[intent.id := intent]) <==>
            SaveKeepsColumns(round, store, Save(intent))
  {
    var (after, stored) := (RowsSave(round, rows, intent), store[intent.id := intent]);
    if intent.id in store {
      var before := store[intent.id];
      assert rows[intent.id] == Encode(round, before);
      if after[intent.id] == Encode(round, intent) {
        AmountsEncodeInjectively(before.amount, intent.amount);
        assert SameColumns(round, before, intent);
      }
      assert SameColumns(round, before, intent) ==> after[intent.id] == Encode(round, intent);
    }
    forall id | id in stored && id != intent.id
      ensures stored[id].id == id && after[id] == Encode(round, stored[id])
    {
      assert id in store;
    }
  }

  lemma StepSimulates(round: Time -> Time, rows: Rows, store: Store, op: Op)
    requires Represents(round, rows, store) && SaveKeepsColumns(round, store, op)
    ensures Represents(round, RowsStep(round, rows, op).0, StoreStep(store, op).0)
    ensures RowsStep(round, rows, op).1 == RoundedReply(round, StoreStep(store, op).1)
  {
    match op {
      case Save(intent) => SaveSimulatesExactly(round, rows, store, intent);
      case Find(id) =>
        if id in store {
          DecodeInvertsEncode(round, store[id]);
        }
      case Update(id, status, now) =>
        if id in store {
          FromStrInvertsDisplay("", store[id].status);
        }
    }
  }

  /**
    Any sequence of reads, status updates and such saves gives the same replies and the same final contents in
    PostgreSQL as in memory, up to the precision of the stored timestamps.
   */
  lemma {:induction false} PostgresSimulatesMemory(round: Time -> Time, rows: Rows, store: Store, ops: seq<Op>)
    requires Represents(round, rows, store) && SavesKeepColumns(round, store, ops)
    ensures Represents(round, RowsRun(round, rows, ops).0, StoreRun(store, ops).0)
    ensures |RowsRun(round, rows, ops).1| == |StoreRun(store, ops).1| == |ops|
    ensures forall i | 0 <= i < |ops| ::
              RowsRun(round, rows, ops).1[i] == RoundedReply(round, StoreRun(store, ops).1[i])
    decreases |ops|
  {
    if ops != [] {
      StepSimulates(round, rows, store, ops[0]);
      PostgresSimulatesMemory(round, RowsStep(round, rows, ops[0]).0, StoreStep(store, ops[0]).0, ops[1..]);
    }
  }

  /** The rows represent the store now and after every operation of the sequence. */
  ghost predicate StayInStep(round: Time -> Time, rows: Rows, store: Store, ops: seq<Op>)
    decreases |ops|
  {
    && Represents(round, rows, store)
    && (ops != [] ==> StayInStep(round, RowsStep(round, rows, ops[0]).0, StoreStep(store, ops[0]).0, ops[1..]))
  }

  /**
    And that condition on the saves is exact: for any sequence the repositories stay in step if and only if it holds.
   */
  lemma {:induction false} InStepExactly(round: Time -> Time, rows: Rows, store: Store, ops: seq<Op>)
    requires Represents(round, rows, store)
    ensures StayInStep(round, rows, store, ops) <==> SavesKeepColumns(round, store, ops)
    decreases |ops|
  {
    if ops != [] {
      var (rows', store') := (RowsStep(round, rows, ops[0]).0, StoreStep(store, ops[0]).0);
      if ops[0].Save? {
        SaveSimulatesExactly(round, rows, store, ops[0].intent);
      }
      if SaveKeepsColumns(round, store, ops[0]) {
        StepSimulates(round, rows, store, ops[0]);
        InStepExactly(round, rows', store', ops[1..]);
      }
    }
  }

  /** A save that changes the amount of a stored id: memory replaces the intent, PostgreSQL keeps the first amount. */
  lemma SavesCanDiverge(round: Time -> Time, a: PaymentIntent, b: PaymentIntent)
    requires a.id == b.id && a.amount != b.amount
    ensures FindById(StoreStep(StoreStep(map[], Save(a)).0, Save(b)).0, a.id) == Some(b)
    ensures var read := RowsFind(RowsStep(round, RowsStep(round, map[], Save(a)).0, Save(b)).0, a.id);
            read.Ok? && read.value.Some? && read.value.value.amount == a.amount
  {
    var kept := a.(status := b.status, claimReference := b.claimReference, updatedAt := b.updatedAt);
    assert RowsSave(round, RowsSave(round, map[], a), b)[a.id] == Encode(round, kept);
    DecodeInvertsEncode(round, kept);
  }
}
