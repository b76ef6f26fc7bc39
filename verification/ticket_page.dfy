/**
 * The page of one ticket, reached by the route's queue id and ticket id.
 * It loads the ticket and its queue together and follows the queue's
 * real-time messages.  It differs from the queue page in three ways the
 * model keeps: `ticket:called` is matched against the route's ticket id,
 * there is no `ticket:completed` reaction, and a cancelled ticket is shown
 * with the number card, not as finished.
 */
module TicketPage {
  import opened Wrappers
  import opened Entities
  import QS = QueueStore
  import QP = QueuePage

  /** The route's ticket id, as a number, names the payload's ticket. */
  predicate NamesRoute(p: Payload, tId: NumberValue) {
    tId.Num? && p.fields.id == Some(tId.n)
  }

  /**
   * `handleWsMessage`: a `queue:update` spreads its payload over the
   * snapshot and repositions a waiting ticket when the payload's
   * `currentNumber` is truthy; a `ticket:called` whose id is the route's
   * ticket id makes the held ticket current with no position.  Nothing
   * else reacts, `ticket:completed` included.
   */
  function React(held: Option<TicketInfo>, tId: NumberValue, msg: WsMessage): (r: QP.Reaction)
    ensures r.delta.Some? <==> msg.kind == QueueUpdate && msg.payload.Some?
    ensures r.delta.Some? ==> r.delta.value == msg.payload.value.fields
    ensures r.write.Some? ==>
      held.Some? &&
      r.write.value.id == held.value.id && r.write.value.number == held.value.number &&
      r.write.value.queueId == held.value.queueId &&
      r.write.value.estimatedWaitMinutes == held.value.estimatedWaitMinutes
    ensures msg.payload.None? || (msg.kind != QueueUpdate && msg.kind != TicketCalled) ==> r == QP.NoReaction
  {
    if msg.payload.None? then QP.NoReaction
    else if msg.kind == QueueUpdate then
      var d := msg.payload.value.fields;
      var write :=
        if held.Some? && held.value.status == Waiting && QP.TruthyInt(d.currentNumber) then
          Some(held.value.(position := Some(QP.NewPosition(held.value.number, d.currentNumber.value))))
        else None;
      QP.Reaction(Some(d), write, Silent)
    else if msg.kind == TicketCalled && NamesRoute(msg.payload.value, tId) then
      var write := if held.Some? then Some(held.value.(status := Current, position := None)) else None;
      QP.Reaction(None, write, Success(QP.YourTurn))
    else QP.NoReaction
  }

  /** The snapshot after a message: the payload is spread over the snapshot, or over nothing. */
  function NextInfo(info: Option<QueueInfo>, held: Option<TicketInfo>, tId: NumberValue, msg: WsMessage): Option<QueueInfo> {
    var r := React(held, tId, msg);
    if r.delta.Some? then Some(Merge(info.GetOr(NoFields), r.delta.value)) else info
  }

  function NextHeld(held: Option<TicketInfo>, tId: NumberValue, msg: WsMessage): Option<TicketInfo> {
    var r := React(held, tId, msg);
    if r.write.Some? then r.write else held
  }

  /** A `queue:update` arriving before any snapshot leaves exactly the payload as the snapshot. */
  lemma {:induction false} QueueUpdateWithoutSnapshot(held: Option<TicketInfo>, tId: NumberValue, p: Payload)
    ensures NextInfo(None, held, tId, WsMessage(QueueUpdate, Some(p), None)) == Some(p.fields)
  {
    MergeNoFields(p.fields);
  }

  /**
   * `ticket:called` is matched on the route's ticket id: a held ticket is
   * made current whenever the payload names the route's id, whatever the
   * held ticket's own id, and is left alone otherwise.
   */
  lemma TicketCalledMatchesRoute(info: Option<QueueInfo>, held: TicketInfo, tId: NumberValue, p: Payload)
    ensures var msg := WsMessage(TicketCalled, Some(p), None);
      NextInfo(info, Some(held), tId, msg) == info &&
      NextHeld(Some(held), tId, msg) ==
        (if NamesRoute(p, tId) then Some(held.(status := Current, position := None)) else Some(held))
  {
  }

  /** `ticket:completed` changes nothing on this page. */
  lemma TicketCompletedIgnored(info: Option<QueueInfo>, held: Option<TicketInfo>, tId: NumberValue, p: Payload)
    ensures var msg := WsMessage(TicketCompleted, Some(p), None);
      NextInfo(info, held, tId, msg) == info && NextHeld(held, tId, msg) == held
  {
  }

  /**
   * Where the route's ticket is the held ticket and a snapshot is held,
   * this page reacts to `queue:update` and `ticket:called` exactly as the
   * queue page does.
   */
  lemma {:induction false} AgreesWithQueuePage(info: QueueInfo, held: TicketInfo, msg: WsMessage)
    requires msg.kind == QueueUpdate || msg.kind == TicketCalled
    ensures NextHeld(Some(held), Num(held.id), msg) == QP.NextHeld(Some(held), msg)
    ensures NextInfo(Some(info), Some(held), Num(held.id), msg) == QP.NextInfo(Some(info), Some(held), msg)
  {
    if msg.kind == QueueUpdate && msg.payload.Some? {
      assert QP.React(Some(held), msg).delta == Some(msg.payload.value.fields);
    }
  }

  /** What the page shows. */
  datatype View = Spinner | TicketNotFound | CalledCard | DoneCard | NumberCard

  /** `isDone` on this page: completed or no-show only. */
  predicate IsDone(t: TicketInfo) {
    t.status == Completed || t.status == NoShow
  }

  /**
   * The view: the spinner while loading, "not found" without a ticket, the
   * called card for a current ticket, the done card for a completed or
   * no-show ticket, and the number card for every other ticket.
   */
  function ViewOf(loading: bool, held: Option<TicketInfo>): (r: View)
    ensures r == Spinner <==> loading
    ensures r == TicketNotFound <==> !loading && held.None?
    ensures r == CalledCard <==> !loading && held.Some? && held.value.status == Current
    ensures r == DoneCard <==> !loading && held.Some? && IsDone(held.value)
    ensures r == NumberCard <==> !loading && held.Some? && (held.value.status == Waiting || held.value.status == Cancelled)
  {
    if loading then Spinner
    else if held.None? then TicketNotFound
    else if held.value.status == Current then CalledCard
    else if IsDone(held.value) then DoneCard
    else NumberCard
  }

  /**
   * A cancelled ticket, finished on the queue page, is shown here with the
   * number card and without the "new ticket" button.
   */
  lemma CancelledShowsNumberCard(t: TicketInfo)
    requires t.status == Cancelled
    ensures QP.IsDone(Some(t)) && ViewOf(false, Some(t)) == NumberCard
  {
  }

  const TicketNotFoundMessage: string := "Ticket introuvable"

  class TicketPage {
    var loading: bool
    /** `Number(id)` and `Number(ticketId)` of the route. */
    const queueId: NumberValue
    const tId: NumberValue
    const store: QS.QueueStore

    constructor (queueId: NumberValue, tId: NumberValue, store: QS.QueueStore)
      ensures this.queueId == queueId && this.tId == tId && this.store == store && loading
    {
      this.queueId := queueId;
      this.tId := tId;
      this.store := store;
      loading := true;
    }

    /**
     * `load()`: the ticket and the queue are requested together; both are
     * stored only when both answers arrive, otherwise neither is and the
     * browser goes back to the queue.  Loading ends in every case.
     */
    method Load(ticket: Outcome<TicketInfo>, queue: Outcome<QueueInfo>) returns (notice: Notice, nav: Navigation)
      modifies this, store, store.storage
      ensures ticket.Ok? && queue.Ok? ==>
        notice == Silent && nav == Stay &&
        store.Fields() == old(store.Fields()).(myTicket := Some(ticket.value), queueInfo := Some(queue.value)) &&
        store.storage.items == QS.StoreMyTicket(old(store.storage.items), Some(ticket.value))
      ensures ticket.Err? || queue.Err? ==>
        notice == Error(TicketNotFoundMessage) && nav == ToQueue(queueId) &&
        store.Fields() == old(store.Fields()) && store.storage.items == old(store.storage.items)
      ensures !loading
    {
      if ticket.Ok? && queue.Ok? {
        store.SetMyTicket(Some(ticket.value));
        store.SetQueueInfo(queue.value);
        notice, nav := Silent, Stay;
      } else {
        notice, nav := Error(TicketNotFoundMessage), ToQueue(queueId);
      }
      loading := false;
    }

    /** `handleWsMessage(message)`, with the snapshot and the held ticket read once as the closure does. */
    method HandleWsMessage(msg: WsMessage) returns (notice: Notice)
      modifies store, store.storage
      ensures var r := React(old(store.myTicket), tId, msg);
        notice == r.notice &&
        store.Fields() == old(store.Fields()).(
          queueInfo := NextInfo(old(store.queueInfo), old(store.myTicket), tId, msg),
          myTicket := NextHeld(old(store.myTicket), tId, msg)) &&
        store.storage.items == (if r.write.Some? then QS.StoreMyTicket(old(store.storage.items), r.write) else old(store.storage.items))
    {
      var info := store.queueInfo;
      var held := store.myTicket;
      notice := Silent;
      if msg.kind == QueueUpdate && msg.payload.Some? {
        var payload := msg.payload.value.fields;
        store.SetQueueInfo(Merge(if info.Some? then info.value else NoFields, payload));
        if held.Some? && held.value.status == Waiting && payload.currentNumber.Some? && payload.currentNumber.value != 0 {
          var newPosition := held.value.number - payload.currentNumber.value;
          store.SetMyTicket(Some(held.value.(position := Some(if newPosition > 0 then newPosition else 1))));
        }
      }
      if msg.kind == TicketCalled && msg.payload.Some? {
        if tId.Num? && msg.payload.value.fields.id == Some(tId.n) {
          if held.Some? {
            store.SetMyTicket(Some(held.value.(status := Current, position := None)));
          }
          notice := Success(QP.YourTurn);
        }
      }
    }

    /** The "new ticket" button of the done card: drop the ticket and go back to the queue. */
    method NewTicket() returns (nav: Navigation)
      modifies store, store.storage
      ensures nav == ToQueue(queueId)
      ensures store.Fields() == old(store.Fields()).(myTicket := None)
      ensures store.storage.items == QS.StoreMyTicket(old(store.storage.items), None)
    {
      store.SetMyTicket(None);
      nav := ToQueue(queueId);
    }
  }
}
