/**
 * The ticket holder's page for one queue: it loads the queue, reconciles a
 * ticket left in storage by an earlier visit, follows the queue's real-time
 * messages, and lets the holder take, cancel and replace a ticket.
 *
 * `React` is the pure reaction to one message; `Reconcile` the pure
 * decision about a stored ticket on load; `Section` the choice of what the
 * page shows for the held ticket.  The class `QueuePage` performs the
 * handlers step by step through the shared `QueueStore`.
 */
module QueuePage {
  import opened Wrappers
  import opened Entities
  import opened Storage
  import Json
  import QS = QueueStore

  // ---------------------------------------------------------------------
  // Position and the reaction to a message
  // ---------------------------------------------------------------------

  /** The place shown to a waiting holder: `number - currentNumber`, or 1 when that is not positive. */
  function NewPosition(number: int, currentNumber: int): (p: int)
    ensures p >= 1 && p >= number - currentNumber
    ensures p == 1 || p == number - currentNumber
  {
    var newPosition := number - currentNumber;
    if newPosition > 0 then newPosition else 1
  }

  /** JavaScript truthiness of an optional number: absent and 0 are falsy. */
  predicate TruthyInt(o: Option<int>) {
    o.Some? && o.value != 0
  }

  /**
   * What the page does for one message: the delta it merges into the
   * snapshot (if any), the ticket it stores (if any) and its notification.
   */
  datatype Reaction = Reaction(delta: Option<QueueInfo>, write: Option<TicketInfo>, notice: Notice)

  const NoReaction: Reaction := Reaction(None, None, Silent)

  /** The notification shown when the holder's ticket is called. */
  const YourTurn: string := "C'est votre tour !"

  /** A `ticket:called` or `ticket:completed` payload names the held ticket. */
  predicate Names(p: Payload, held: Option<TicketInfo>) {
    held.Some? && p.fields.id == Some(held.value.id)
  }

  /**
   * `handleWsMessage`: a `queue:update` merges its payload and repositions
   * a waiting ticket when the payload's `currentNumber` is truthy; a
   * `ticket:called` or `ticket:completed` naming the held ticket marks it
   * current (no position) or completed.  Nothing else reacts.
   */
  function React(held: Option<TicketInfo>, msg: WsMessage): (r: Reaction)
    ensures r.delta.Some? <==> msg.kind == QueueUpdate && msg.payload.Some?
    ensures r.delta.Some? ==> r.delta.value == msg.payload.value.fields
    ensures r.write.Some? ==>
      held.Some? &&
      r.write.value.id == held.value.id && r.write.value.number == held.value.number &&
      r.write.value.queueId == held.value.queueId &&
      r.write.value.estimatedWaitMinutes == held.value.estimatedWaitMinutes
    ensures msg.payload.None? ==> r == NoReaction
    ensures msg.kind != QueueUpdate && msg.kind != TicketCalled && msg.kind != TicketCompleted ==> r == NoReaction
  {
    if msg.payload.None? then NoReaction
    else if msg.kind == QueueUpdate then
      var d := msg.payload.value.fields;
      var write :=
        if held.Some? && held.value.status == Waiting && TruthyInt(d.currentNumber) then
          Some(held.value.(position := Some(NewPosition(held.value.number, d.currentNumber.value))))
        else None;
      Reaction(Some(d), write, Silent)
    else if msg.kind == TicketCalled && Names(msg.payload.value, held) then
      Reaction(None, Some(held.value.(status := Current, position := None)), Success(YourTurn))
    else if msg.kind == TicketCompleted && Names(msg.payload.value, held) then
      Reaction(None, Some(held.value.(status := Completed)), Silent)
    else NoReaction
  }

  /** The snapshot after a message. */
  function NextInfo(info: Option<QueueInfo>, held: Option<TicketInfo>, msg: WsMessage): Option<QueueInfo> {
    var r := React(held, msg);
    if r.delta.Some? then QS.UpdatedInfo(info, r.delta.value) else info
  }

  /** The held ticket after a message. */
  function NextHeld(held: Option<TicketInfo>, msg: WsMessage): Option<TicketInfo> {
    var r := React(held, msg);
    if r.write.Some? then r.write else held
  }

  /**
   * A `queue:update` never changes a ticket's status and never touches a
   * ticket that is not waiting; a waiting ticket gets the clamped position
   * exactly when the payload's `currentNumber` is truthy.
   */
  lemma QueueUpdateOnTicket(held: Option<TicketInfo>, p: Payload)
    ensures var h := NextHeld(held, WsMessage(QueueUpdate, Some(p), None));
      h.Some? == held.Some? &&
      (held.Some? ==> h.value.status == held.value.status) &&
      (held.Some? && held.value.status != Waiting ==> h == held) &&
      (held.Some? && held.value.status == Waiting && TruthyInt(p.fields.currentNumber) ==>
         h == Some(held.value.(position := Some(NewPosition(held.value.number, p.fields.currentNumber.value))))) &&
      (!TruthyInt(p.fields.currentNumber) ==> h == held)
  {
  }

  /** A `queue:update` merges exactly the payload's members into a held snapshot. */
  lemma QueueUpdateOnSnapshot(info: Option<QueueInfo>, held: Option<TicketInfo>, p: Payload)
    ensures NextInfo(info, held, WsMessage(QueueUpdate, Some(p), None)) == QS.UpdatedInfo(info, p.fields)
  {
  }

  /** `ticket:called` makes the named held ticket current with no position; any other id changes nothing. */
  lemma TicketCalledOnTicket(info: Option<QueueInfo>, held: Option<TicketInfo>, p: Payload)
    ensures var msg := WsMessage(TicketCalled, Some(p), None);
      NextInfo(info, held, msg) == info &&
      NextHeld(held, msg) ==
        (if Names(p, held) then Some(held.value.(status := Current, position := None)) else held)
  {
  }

  /** `ticket:completed` marks the named held ticket completed, keeping its position; any other id changes nothing. */
  lemma TicketCompletedOnTicket(info: Option<QueueInfo>, held: Option<TicketInfo>, p: Payload)
    ensures var msg := WsMessage(TicketCompleted, Some(p), None);
      NextInfo(info, held, msg) == info &&
      NextHeld(held, msg) == (if Names(p, held) then Some(held.value.(status := Completed)) else held)
  {
  }

  /** Delivering the same message twice has the effect of delivering it once. */
  lemma {:induction false} ReactIdempotent(info: Option<QueueInfo>, held: Option<TicketInfo>, msg: WsMessage)
    ensures NextHeld(NextHeld(held, msg), msg) == NextHeld(held, msg)
    ensures NextInfo(NextInfo(info, held, msg), NextHeld(held, msg), msg) == NextInfo(info, held, msg)
  {
    if msg.payload.Some? && msg.kind == QueueUpdate {
      QS.UpdatedInfoIdempotent(info, msg.payload.value.fields);
    }
  }

  // ---------------------------------------------------------------------
  // The stored ticket on load
  // ---------------------------------------------------------------------

  /** A status after which the ticket is over. */
  predicate IsFinished(s: TicketStatus) {
    s == Completed || s == NoShow || s == Cancelled
  }

  /** What load does with a ticket found in storage. */
  datatype Decision = Ignore | Clear | Replace(ticket: TicketInfo)

  /**
   * The stored-ticket check of `load`: a ticket of another queue (or none)
   * is ignored; one the server reports finished, or cannot find, is
   * cleared; otherwise the server's fresh copy replaces it.
   */
  function Reconcile(stored: Option<TicketInfo>, infoId: Option<int>, lookup: Outcome<TicketInfo>): (d: Decision)
    ensures d == Ignore <==> stored.None? || infoId != Some(stored.value.queueId)
    ensures d.Replace? ==> lookup == Ok(d.ticket) && !IsFinished(d.ticket.status)
    ensures d == Clear <==> !d.Ignore? && (lookup.Err? || IsFinished(lookup.value.status))
  {
    if stored.Some? && infoId == Some(stored.value.queueId) then
      match lookup
      case Ok(serverCopy) => if IsFinished(serverCopy.status) then Clear else Replace(serverCopy)
      case Err(_) => Clear
    else Ignore
  }

  /** The held ticket after a decision. */
  function Decided(d: Decision, held: Option<TicketInfo>): (r: Option<TicketInfo>)
    ensures d.Replace? ==> r == Some(d.ticket)
    ensures d == Clear ==> r.None?
    ensures d == Ignore ==> r == held
  {
    match d
    case Ignore => held
    case Clear => None
    case Replace(t) => Some(t)
  }

  /** After a load that reconciled something, no finished ticket is held. */
  lemma ReconcileNeverHoldsFinished(stored: Option<TicketInfo>, infoId: Option<int>, lookup: Outcome<TicketInfo>, held: Option<TicketInfo>)
    requires !Reconcile(stored, infoId, lookup).Ignore?
    ensures var h := Decided(Reconcile(stored, infoId, lookup), held);
      h.None? || !IsFinished(h.value.status)
  {
  }

  // ---------------------------------------------------------------------
  // What the page shows
  // ---------------------------------------------------------------------

  predicate IsCurrent(held: Option<TicketInfo>) { held.Some? && held.value.status == Current }
  predicate IsWaiting(held: Option<TicketInfo>) { held.Some? && held.value.status == Waiting }
  predicate IsDone(held: Option<TicketInfo>) { held.Some? && IsFinished(held.value.status) }
  predicate HasTicket(held: Option<TicketInfo>) { held.Some? && !IsDone(held) }

  /** The ticket section of the page. */
  datatype Section = CalledCard | WaitingCard | DoneCard | TakeTicketCard

  /**
   * The section shown for the held ticket.  Each section's own render
   * condition holds exactly for it, so exactly one condition holds for any
   * held ticket.
   */
  function SectionOf(held: Option<TicketInfo>): (r: Section)
    ensures r == CalledCard <==> IsCurrent(held)
    ensures r == WaitingCard <==> IsWaiting(held)
    ensures r == DoneCard <==> IsDone(held)
    ensures r == TakeTicketCard <==> !HasTicket(held) && !IsDone(held)
  {
    match held
    case None => TakeTicketCard
    case Some(t) =>
      match t.status
      case Current => CalledCard
      case Waiting => WaitingCard
      case _ => DoneCard
  }

  /** The whole page: a spinner while loading, "not found" without a snapshot, else the ticket section. */
  datatype Screen = Spinner | QueueNotFound | QueueScreen(section: Section)

  function ScreenOf(loading: bool, info: Option<QueueInfo>, held: Option<TicketInfo>): (r: Screen)
    ensures loading <==> r == Spinner
    ensures r == QueueNotFound <==> !loading && info.None?
    ensures r.QueueScreen? ==> r.section == SectionOf(held)
  {
    if loading then Spinner
    else if info.None? then QueueNotFound
    else QueueScreen(SectionOf(held))
  }

  /** JavaScript truthiness of an optional route parameter. */
  predicate Given(o: Option<string>) {
    o.Some? && o.value != ""
  }

  const QueueNotFoundMessage: string := "File introuvable"
  const TakeTicketFailed: string := "Erreur lors de la prise du ticket"
  const TicketCancelled: string := "Ticket annulé"
  const CancelFailed: string := "Erreur lors de l'annulation"

  function TicketObtained(number: int): string {
    "Ticket n°" + Json.IntToString(number) + " obtenu !"
  }

  // ---------------------------------------------------------------------
  // The page
  // ---------------------------------------------------------------------

  class QueuePage {
    var loading: bool
    var taking: bool
    var cancelling: bool
    var queueId: Option<int>
    var showCancelConfirm: bool
    const store: QS.QueueStore

    constructor (store: QS.QueueStore)
      ensures this.store == store
      ensures loading && !taking && !cancelling && queueId.None? && !showCancelConfirm
    {
      this.store := store;
      loading := true;
      taking := false;
      cancelling := false;
      queueId := None;
      showCancelConfirm := false;
    }

    /**
     * `load()`.  `info` is the answer to the queue lookup (by slug when one
     * is given, else by id); `lookup` is the answer to the ticket-status
     * request, consulted only when a stored ticket belongs to this queue.
     * Without slug and id nothing happens and the page keeps loading.
     */
    method Load(slug: Option<string>, id: Option<string>, info: Outcome<QueueInfo>, lookup: Outcome<TicketInfo>)
      returns (notice: Notice)
      modifies this, store, store.storage
      ensures !Given(slug) && !Given(id) ==>
        notice == Silent && loading == old(loading) && queueId == old(queueId) &&
        store.Fields() == old(store.Fields()) && store.storage.items == old(store.storage.items)
      ensures (Given(slug) || Given(id)) && info.Err? ==>
        notice == Error(QueueNotFoundMessage) && !loading && queueId == old(queueId) &&
        store.Fields() == old(store.Fields()) && store.storage.items == old(store.storage.items)
      ensures (Given(slug) || Given(id)) && info.Ok? ==>
        var loaded := QS.LoadTicket(old(store.storage.items));
        var d := Reconcile(loaded.ticket, info.value.id, lookup);
        notice == Silent && !loading && queueId == info.value.id &&
        store.Fields() == old(store.Fields()).(queueInfo := Some(info.value), myTicket := Decided(d, old(store.myTicket))) &&
        store.storage.items == (if d == Ignore then loaded.items else QS.StoreMyTicket(loaded.items, Decided(d, None)))
      ensures taking == old(taking) && cancelling == old(cancelling) && showCancelConfirm == old(showCancelConfirm)
    {
      notice := Silent;
      if !Given(slug) && !Given(id) {
        return;
      }
      match info {
        case Err(_) =>
          notice := Error(QueueNotFoundMessage);
        case Ok(q) =>
          store.SetQueueInfo(q);
          queueId := q.id;
          var stored := QS.LoadTicketFromStorage(store.storage);
          if stored.Some? && q.id == Some(stored.value.queueId) {
            match lookup {
              case Ok(serverCopy) =>
                if serverCopy.status == Completed || serverCopy.status == NoShow || serverCopy.status == Cancelled {
                  store.SetMyTicket(None);
                } else {
                  store.SetMyTicket(Some(serverCopy));
                }
              case Err(_) =>
                store.SetMyTicket(None);
            }
          }
      }
      loading := false;
    }

    /** `handleWsMessage(message)`, with the held ticket read once as the handler's closure does. */
    method HandleWsMessage(msg: WsMessage) returns (notice: Notice)
      modifies store, store.storage
      ensures var r := React(old(store.myTicket), msg);
        notice == r.notice &&
        store.Fields() == old(store.Fields()).(
          queueInfo := NextInfo(old(store.queueInfo), old(store.myTicket), msg),
          myTicket := NextHeld(old(store.myTicket), msg)) &&
        store.storage.items == (if r.write.Some? then QS.StoreMyTicket(old(store.storage.items), r.write) else old(store.storage.items))
      ensures old(store.Valid()) ==> store.Valid()
    {
      var held := store.myTicket;
      notice := Silent;
      if msg.kind == QueueUpdate && msg.payload.Some? {
        var payload := msg.payload.value.fields;
        store.UpdateFromWs(payload);
        if held.Some? && held.value.status == Waiting {
          if payload.currentNumber.Some? && payload.currentNumber.value != 0 {
            var newPosition := held.value.number - payload.currentNumber.value;
            store.SetMyTicket(Some(held.value.(position := Some(if newPosition > 0 then newPosition else 1))));
          }
        }
      }
      if msg.kind == TicketCalled && msg.payload.Some? {
        if held.Some? && msg.payload.value.fields.id == Some(held.value.id) {
          store.SetMyTicket(Some(held.value.(status := Current, position := None)));
          notice := Success(YourTurn);
        }
      }
      if msg.kind == TicketCompleted && msg.payload.Some? {
        if held.Some? && msg.payload.value.fields.id == Some(held.value.id) {
          store.SetMyTicket(Some(held.value.(status := Completed)));
        }
      }
    }

    /**
     * `handleTakeTicket()`: without a (truthy) queue id nothing is sent;
     * otherwise the new ticket is held on success.  `taking` ends false.
     */
    method HandleTakeTicket(ticket: Outcome<TicketInfo>) returns (sent: bool, notice: Notice)
      modifies this, store, store.storage
      ensures sent <==> TruthyInt(old(queueId))
      ensures !sent ==>
        notice == Silent && taking == old(taking) &&
        store.Fields() == old(store.Fields()) && store.storage.items == old(store.storage.items)
      ensures sent && ticket.Ok? ==>
        notice == Success(TicketObtained(ticket.value.number)) &&
        store.Fields() == old(store.Fields()).(myTicket := Some(ticket.value)) &&
        store.storage.items == QS.StoreMyTicket(old(store.storage.items), Some(ticket.value))
      ensures sent && ticket.Err? ==>
        notice == Error(TakeTicketFailed) &&
        store.Fields() == old(store.Fields()) && store.storage.items == old(store.storage.items)
      ensures sent ==> !taking
      ensures loading == old(loading) && queueId == old(queueId) && cancelling == old(cancelling) &&
        showCancelConfirm == old(showCancelConfirm)
    {
      sent := false;
      notice := Silent;
      if queueId.None? || queueId.value == 0 {
        return;
      }
      taking := true;
      sent := true;
      match ticket {
        case Ok(t) =>
          store.SetMyTicket(Some(t));
          notice := Success(TicketObtained(t.number));
        case Err(_) =>
          notice := Error(TakeTicketFailed);
      }
      taking := false;
    }

    /**
     * `handleCancel()`: without a (truthy) queue id and a held ticket
     * nothing is sent; a successful cancellation drops the ticket and
     * closes the confirmation.  `cancelling` ends false.
     */
    method HandleCancel(result: Outcome<()>) returns (sent: bool, notice: Notice)
      modifies this, store, store.storage
      ensures sent <==> TruthyInt(old(queueId)) && old(store.myTicket).Some?
      ensures !sent ==>
        notice == Silent && cancelling == old(cancelling) &&
        showCancelConfirm == old(showCancelConfirm) &&
        store.Fields() == old(store.Fields()) && store.storage.items == old(store.storage.items)
      ensures sent && result.Ok? ==>
        notice == Success(TicketCancelled) && !showCancelConfirm &&
        store.Fields() == old(store.Fields()).(myTicket := None) &&
        store.storage.items == QS.StoreMyTicket(old(store.storage.items), None)
      ensures sent && result.Err? ==>
        notice == Error(CancelFailed) && showCancelConfirm == old(showCancelConfirm) &&
        store.Fields() == old(store.Fields()) && store.storage.items == old(store.storage.items)
      ensures sent ==> !cancelling
      ensures loading == old(loading) && queueId == old(queueId) && taking == old(taking)
    {
      sent := false;
      notice := Silent;
      if queueId.None? || queueId.value == 0 || store.myTicket.None? {
        return;
      }
      cancelling := true;
      sent := true;
      match result {
        case Ok(_) =>
          store.SetMyTicket(None);
          showCancelConfirm := false;
          notice := Success(TicketCancelled);
        case Err(_) =>
          notice := Error(CancelFailed);
      }
      cancelling := false;
    }

    /** `handleNewTicket()`: drop the finished ticket so a new one can be taken. */
    method HandleNewTicket()
      modifies this, store, store.storage
      ensures store.Fields() == old(store.Fields()).(myTicket := None)
      ensures store.storage.items == QS.StoreMyTicket(old(store.storage.items), None)
      ensures !showCancelConfirm
      ensures loading == old(loading) && queueId == old(queueId) && taking == old(taking) &&
        cancelling == old(cancelling)
    {
      store.SetMyTicket(None);
      showCancelConfirm := false;
    }
  }
}
