/**
 * The values the front-end exchanges with its backend and holds in its
 * stores: tickets, queue snapshots, profiles, statistics, real-time
 * messages, and the outcome of a request.
 */
module Entities {
  import opened Wrappers

  /** A ticket's life-cycle state, as the pages compare it (`"no_show"` is `NoShow`). */
  datatype TicketStatus = Waiting | Current | Completed | NoShow | Cancelled

  /** A ticket as its holder sees it; `position` is the number of people ahead, or null. */
  datatype TicketInfo = TicketInfo(
    id: int,
    number: int,
    status: TicketStatus,
    position: Option<int>,
    queueId: int,
    estimatedWaitMinutes: Option<int>)

  /**
   * The public snapshot of a queue.  Every member is optional: the same
   * shape holds a full snapshot from the server, the partial delta a
   * `queue:update` message carries, and the result of spreading such a
   * delta over a missing snapshot.
   */
  datatype QueueInfo = QueueInfo(
    id: Option<int>,
    name: Option<string>,
    slug: Option<string>,
    currentNumber: Option<int>,
    nextTicket: Option<int>,
    waitingCount: Option<int>,
    isActive: Option<bool>,
    allowRemoteBooking: Option<bool>,
    avgWaitTime: Option<real>)

  /** The empty object `{}`. */
  const NoFields: QueueInfo :=
    QueueInfo(None, None, None, None, None, None, None, None, None)

  /** A snapshot as the server sends it: the members it always carries are present. */
  predicate IsComplete(q: QueueInfo) {
    q.id.Some? && q.currentNumber.Some? && q.nextTicket.Some? && q.waitingCount.Some?
  }

  /** The names of the members of a queue snapshot. */
  datatype Field =
    | Id | Name | Slug | CurrentNumber | NextTicket | WaitingCount
    | IsActive | AllowRemoteBooking | AvgWaitTime

  /** A member's value, or `Absent` when the object does not have that member. */
  datatype Value = Absent | VInt(i: int) | VStr(s: string) | VBool(b: bool) | VReal(r: real)

  function OfInt(o: Option<int>): Value {
    match o
    case None => Absent
    case Some(i) => VInt(i)
  }

  function OfStr(o: Option<string>): Value {
    match o
    case None => Absent
    case Some(s) => VStr(s)
  }

  function OfBool(o: Option<bool>): Value {
    match o
    case None => Absent
    case Some(b) => VBool(b)
  }

  function OfReal(o: Option<real>): Value {
    match o
    case None => Absent
    case Some(r) => VReal(r)
  }

  /** The value of member `f` of `q`: the uniform view the merge contracts use. */
  function Get(q: QueueInfo, f: Field): Value {
    match f
    case Id => OfInt(q.id)
    case Name => OfStr(q.name)
    case Slug => OfStr(q.slug)
    case CurrentNumber => OfInt(q.currentNumber)
    case NextTicket => OfInt(q.nextTicket)
    case WaitingCount => OfInt(q.waitingCount)
    case IsActive => OfBool(q.isActive)
    case AllowRemoteBooking => OfBool(q.allowRemoteBooking)
    case AvgWaitTime => OfReal(q.avgWaitTime)
  }

  /** Two snapshots with the same members are the same snapshot. */
  lemma FieldsDetermine(a: QueueInfo, b: QueueInfo)
    requires forall f :: Get(a, f) == Get(b, f)
    ensures a == b
  {
    assert Get(a, Id) == Get(b, Id);
    assert Get(a, Name) == Get(b, Name);
    assert Get(a, Slug) == Get(b, Slug);
    assert Get(a, CurrentNumber) == Get(b, CurrentNumber);
    assert Get(a, NextTicket) == Get(b, NextTicket);
    assert Get(a, WaitingCount) == Get(b, WaitingCount);
    assert Get(a, IsActive) == Get(b, IsActive);
    assert Get(a, AllowRemoteBooking) == Get(b, AllowRemoteBooking);
    assert Get(a, AvgWaitTime) == Get(b, AvgWaitTime);
  }

  function Pick<T>(over: Option<T>, under: Option<T>): Option<T> {
    if over.Some? then over else under
  }

  /**
   * Shallow merge `{ ...s, ...d }`: every member present in `d` overwrites
   * the one in `s`; every member absent from `d` keeps its value in `s`.
   */
  function Merge(s: QueueInfo, d: QueueInfo): (r: QueueInfo)
    ensures forall f :: Get(r, f) == if Get(d, f) != Absent then Get(d, f) else Get(s, f)
  {
    QueueInfo(
      Pick(d.id, s.id),
      Pick(d.name, s.name),
      Pick(d.slug, s.slug),
      Pick(d.currentNumber, s.currentNumber),
      Pick(d.nextTicket, s.nextTicket),
      Pick(d.waitingCount, s.waitingCount),
      Pick(d.isActive, s.isActive),
      Pick(d.allowRemoteBooking, s.allowRemoteBooking),
      Pick(d.avgWaitTime, s.avgWaitTime))
  }

  /** Merging the same delta twice is merging it once. */
  lemma MergeIdempotent(s: QueueInfo, d: QueueInfo)
    ensures Merge(Merge(s, d), d) == Merge(s, d)
  {
    FieldsDetermine(Merge(Merge(s, d), d), Merge(s, d));
  }

  /** Two deltas merged one after the other act as their own merge. */
  lemma MergeAssociative(s: QueueInfo, d1: QueueInfo, d2: QueueInfo)
    ensures Merge(Merge(s, d1), d2) == Merge(s, Merge(d1, d2))
  {
    FieldsDetermine(Merge(Merge(s, d1), d2), Merge(s, Merge(d1, d2)));
  }

  /** Spreading a delta over `{}` gives the delta; spreading `{}` changes nothing. */
  lemma MergeNoFields(q: QueueInfo)
    ensures Merge(NoFields, q) == q && Merge(q, NoFields) == q
  {
    FieldsDetermine(Merge(NoFields, q), q);
    FieldsDetermine(Merge(q, NoFields), q);
  }

  /** A merge never loses a member, so a complete snapshot stays complete. */
  lemma MergeKeepsComplete(s: QueueInfo, d: QueueInfo)
    requires IsComplete(s)
    ensures IsComplete(Merge(s, d))
  {
    assert Get(Merge(s, d), Id) != Absent;
    assert Get(Merge(s, d), CurrentNumber) != Absent;
    assert Get(Merge(s, d), NextTicket) != Absent;
    assert Get(Merge(s, d), WaitingCount) != Absent;
  }

  /** A ticket as the professional's dashboard lists it. */
  datatype Ticket = Ticket(id: int, number: int, status: TicketStatus, queueId: int, isRemote: bool)

  /** The queue record of the professional's view of one queue. */
  datatype ProQueue = ProQueue(
    id: int,
    name: string,
    slug: string,
    currentNumber: int,
    nextTicket: int,
    isActive: bool,
    allowRemoteBooking: bool)

  /** A queue with the ticket being served and the ordered waiting list. */
  datatype ProfessionalQueue = ProfessionalQueue(
    queue: ProQueue,
    currentTicket: Option<Ticket>,
    waitingTickets: seq<Ticket>)

  datatype Plan = Free | Pro

  /** The logged-in professional's profile. */
  datatype Professional = Professional(id: int, email: string, name: string, plan: Plan)

  /** What a successful login or registration returns. */
  datatype AuthResponse = AuthResponse(token: string, professional: Professional)

  /** Today's figures of one queue; the rates and durations are fractional numbers. */
  datatype QueueStats = QueueStats(
    totalToday: int,
    completed: int,
    noShow: int,
    waiting: int,
    remote: int,
    noShowRate: real,
    avgWaitTime: real,
    avgServiceTime: real)

  /** An owned queue with its statistics. */
  datatype QueueWithStats = QueueWithStats(queue: QueueInfo, stats: QueueStats)

  /**
   * The result of a queue-control action.  `currentTicket` is `None` when the
   * response has no such member (undefined), `Some(None)` when it is null.
   */
  datatype ActionResult = ActionResult(currentTicket: Option<Option<Ticket>>)

  /**
   * What a rejected request throws: `isError` tells whether it is an `Error`
   * instance, `message` is its message (empty when it has none), `upgrade`
   * whether it carries a truthy `upgrade` member.
   */
  datatype Failure = Failure(isError: bool, message: string, upgrade: bool)

  /** The result of one request to the backend. */
  datatype Outcome<+T> = Ok(value: T) | Err(failure: Failure)

  /** `error.message || fallback`. */
  function MessageOr(f: Failure, fallback: string): string {
    if f.message != "" then f.message else fallback
  }

  /** A JavaScript number that is either NaN or an integer (the result of `Number(...)` or `parseInt`). */
  datatype NumberValue = NaN | Num(n: int) {
    /** JavaScript truthiness: NaN and 0 are falsy. */
    predicate Truthy() {
      Num? && n != 0
    }
  }

  /** The payload of a real-time message: the snapshot-shaped members (`id` among them) and `queueId`. */
  datatype Payload = Payload(fields: QueueInfo, queueId: Option<int>)

  /** A real-time message `{ type, payload?, queueId? }`. */
  datatype WsMessage = WsMessage(kind: string, payload: Option<Payload>, queueId: Option<int>)

  const QueueUpdate: string := "queue:update"
  const TicketCalled: string := "ticket:called"
  const TicketCompleted: string := "ticket:completed"

  /** A transient notification (toast) shown to the user. */
  datatype Notice = Silent | Success(text: string) | Error(text: string)

  /** Where a page sends the browser after an event. */
  datatype Navigation = Stay | ToLogin | ToDashboard | ToQueue(queueId: NumberValue)
}
