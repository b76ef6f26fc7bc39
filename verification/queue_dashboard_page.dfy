/**
 * The professional's control page for one queue: it shows the ticket being
 * served and the waiting list, reloads them when a real-time message
 * concerns this queue, and sends the queue-control actions (complete,
 * no-show, call next) and the remote-booking switch.
 */
module QueueDashboardPage {
  import opened Wrappers
  import opened Entities

  /** A message asks for a reload exactly when it has a payload whose `queueId` is the page's queue id. */
  predicate ShouldReload(msg: WsMessage, queueId: NumberValue) {
    msg.payload.Some? && msg.payload.value.queueId.Some? && queueId == Num(msg.payload.value.queueId.value)
  }

  /** A page whose route id is not a number never reloads on a message. */
  lemma NaNNeverReloads(msg: WsMessage)
    ensures !ShouldReload(msg, NaN)
  {
  }

  /** The page's redirect: a visitor who is not logged in is sent to the login page. */
  function AuthRedirect(isAuthenticated: bool): (nav: Navigation)
    ensures nav == ToLogin <==> !isAuthenticated
    ensures nav == ToLogin || nav == Stay
  {
    if !isAuthenticated then ToLogin else Stay
  }

  /** The three queue-control actions. */
  datatype Action = Complete | MarkNoShow | CallNext

  /** The notification of a successful action. */
  function SuccessMessage(a: Action): string {
    match a
    case Complete => "Client traité !"
    case MarkNoShow => "Client marqué absent"
    case CallNext => "Ticket suivant appelé !"
  }

  const LoadFailed: string := "Erreur de chargement de la file d'attente."
  const GenericError: string := "Erreur"
  const RemoteBookingOn: string := "Réservation à distance activée"
  const RemoteBookingOff: string := "Réservation à distance désactivée"

  /** The message of a failed action: an `Error`'s own message, else the generic one. */
  function ActionFailure(f: Failure): (m: string)
    ensures f.isError ==> m == f.message
    ensures !f.isError ==> m == GenericError
  {
    if f.isError then f.message else GenericError
  }

  /** The ticket being served after an action's result: an absent member keeps it, null clears it. */
  function ServedAfter(current: Option<Ticket>, r: ActionResult): (t: Option<Ticket>)
    ensures r.currentTicket.None? ==> t == current
    ensures r.currentTicket.Some? ==> t == r.currentTicket.value
  {
    match r.currentTicket
    case None => current
    case Some(ticket) => ticket
  }

  /** The buttons under the served number. */
  datatype Controls =
    | ServeButtons(enabled: bool)       // "Terminé" and "Absent"
    | CallNextButton(enabled: bool)     // "Appeler le suivant"

  /**
   * Complete and no-show are offered exactly while a ticket is being served
   * and are disabled while an action runs; otherwise "call next" is offered,
   * disabled while an action runs or while nobody waits.
   */
  function ControlsOf(currentTicket: Option<Ticket>, waitingTickets: seq<Ticket>, actionLoading: bool): (c: Controls)
    ensures c.ServeButtons? <==> currentTicket.Some?
    ensures c.ServeButtons? ==> (c.enabled <==> !actionLoading)
    ensures c.CallNextButton? ==> (c.enabled <==> !actionLoading && |waitingTickets| > 0)
  {
    if currentTicket.Some? then ServeButtons(!actionLoading)
    else CallNextButton(!(actionLoading || |waitingTickets| == 0))
  }

  /** An action can be sent only from an enabled button, so "call next" is never sent to an empty queue. */
  lemma CallNextNeedsWaiting(waitingTickets: seq<Ticket>, actionLoading: bool)
    requires ControlsOf(None, waitingTickets, actionLoading).enabled
    ensures |waitingTickets| > 0 && !actionLoading
  {
  }

  /** What the page shows. */
  datatype Screen = Spinner | QueueNotFound | Panel(controls: Controls)

  function ScreenOf(loading: bool, queue: Option<ProQueue>, currentTicket: Option<Ticket>,
                    waitingTickets: seq<Ticket>, actionLoading: bool): (r: Screen)
    ensures r == Spinner <==> loading
    ensures r == QueueNotFound <==> !loading && queue.None?
    ensures r.Panel? ==> r.controls == ControlsOf(currentTicket, waitingTickets, actionLoading)
  {
    if loading then Spinner
    else if queue.None? then QueueNotFound
    else Panel(ControlsOf(currentTicket, waitingTickets, actionLoading))
  }

  class QueueDashboardPage {
    /** `Number(queueId)` of the route. */
    const queueId: NumberValue
    var queue: Option<ProQueue>
    var currentTicket: Option<Ticket>
    var waitingTickets: seq<Ticket>
    var loading: bool
    var actionLoading: bool

    constructor (queueId: NumberValue)
      ensures this.queueId == queueId
      ensures queue.None? && currentTicket.None? && waitingTickets == [] && loading && !actionLoading
    {
      this.queueId := queueId;
      queue := None;
      currentTicket := None;
      waitingTickets := [];
      loading := true;
      actionLoading := false;
    }

    /**
     * `loadData()`: nothing is fetched for a route id that is not a number;
     * a successful fetch replaces the queue, the served ticket and the
     * waiting list together; a failure keeps them.  Loading ends false.
     */
    method LoadData(data: Outcome<ProfessionalQueue>) returns (sent: bool, notices: seq<Notice>)
      modifies this
      ensures sent <==> queueId.Num?
      ensures !loading && actionLoading == old(actionLoading)
      ensures sent && data.Ok? ==>
        notices == [] &&
        queue == Some(data.value.queue) && currentTicket == data.value.currentTicket &&
        waitingTickets == data.value.waitingTickets
      ensures !(sent && data.Ok?) ==>
        queue == old(queue) && currentTicket == old(currentTicket) && waitingTickets == old(waitingTickets)
      ensures sent && data.Err? ==> notices == [Error(LoadFailed)]
      ensures !sent ==> notices == []
    {
      notices := [];
      if queueId.NaN? {
        loading := false;
        sent := false;
        return;
      }
      sent := true;
      loading := true;
      match data {
        case Ok(d) =>
          queue := Some(d.queue);
          currentTicket := d.currentTicket;
          waitingTickets := d.waitingTickets;
        case Err(_) =>
          notices := [Error(LoadFailed)];
      }
      loading := false;
    }

    /** `handleWsMessage(message)`: reload when the message concerns this queue; `data` is the reload's answer. */
    method HandleWsMessage(msg: WsMessage, data: Outcome<ProfessionalQueue>) returns (reloaded: bool, notices: seq<Notice>)
      modifies this
      ensures reloaded <==> ShouldReload(msg, queueId)
      ensures !reloaded ==>
        notices == [] && queue == old(queue) && currentTicket == old(currentTicket) &&
        waitingTickets == old(waitingTickets) && loading == old(loading)
      ensures reloaded && data.Ok? ==>
        queue == Some(data.value.queue) && currentTicket == data.value.currentTicket &&
        waitingTickets == data.value.waitingTickets && !loading && notices == []
      ensures reloaded && data.Err? ==>
        queue == old(queue) && currentTicket == old(currentTicket) &&
        waitingTickets == old(waitingTickets) && !loading && notices == [Error(LoadFailed)]
      ensures actionLoading == old(actionLoading)
    {
      reloaded := false;
      notices := [];
      if msg.payload.Some? && msg.payload.value.queueId.Some? && queueId == Num(msg.payload.value.queueId.value) {
        reloaded := true;
        var _, loadNotices := LoadData(data);
        notices := loadNotices;
      }
    }

    /**
     * `handleAction(action, message)`: nothing is sent for a route id that
     * is not a number.  A successful action updates the served ticket when
     * the result names one (null included), notifies, and reloads with
     * `reload`; a failed one reports the error.  `actionLoading` ends false.
     */
    method HandleAction(action: Action, result: Outcome<ActionResult>, reload: Outcome<ProfessionalQueue>)
      returns (sent: bool, notices: seq<Notice>)
      modifies this
      ensures sent <==> queueId.Num?
      ensures sent ==> !actionLoading
      ensures !sent ==>
        notices == [] && actionLoading == old(actionLoading) && queue == old(queue) && currentTicket == old(currentTicket) &&
        waitingTickets == old(waitingTickets) && loading == old(loading)
      ensures sent && result.Ok? && reload.Ok? ==>
        notices == [Success(SuccessMessage(action))] &&
        queue == Some(reload.value.queue) && currentTicket == reload.value.currentTicket &&
        waitingTickets == reload.value.waitingTickets && !loading
      ensures sent && result.Ok? && reload.Err? ==>
        notices == [Success(SuccessMessage(action)), Error(LoadFailed)] &&
        queue == old(queue) && currentTicket == ServedAfter(old(currentTicket), result.value) &&
        waitingTickets == old(waitingTickets) && !loading
      ensures sent && result.Err? ==>
        notices == [Error(ActionFailure(result.failure))] &&
        queue == old(queue) && currentTicket == old(currentTicket) &&
        waitingTickets == old(waitingTickets) && loading == old(loading)
    {
      notices := [];
      sent := false;
      if queueId.NaN? {
        return;
      }
      sent := true;
      actionLoading := true;
      match result {
        case Ok(r) =>
          if r.currentTicket.Some? {
            currentTicket := r.currentTicket.value;
          }
          notices := [Success(SuccessMessage(action))];
          var _, reloadNotices := LoadData(reload);
          notices := notices + reloadNotices;
        case Err(f) =>
          notices := [Error(if f.isError then f.message else GenericError)];
      }
      actionLoading := false;
    }

    /**
     * `handleToggleRemoteBooking(current)`: nothing is sent for a route id
     * that is not a number; only a successful update sets the queue's
     * remote booking to `!current`, leaving its other members unchanged.
     */
    method HandleToggleRemoteBooking(current: bool, result: Outcome<()>) returns (sent: bool, notice: Notice)
      modifies this
      ensures sent <==> queueId.Num?
      ensures sent && result.Ok? ==>
        notice == Success(if !current then RemoteBookingOn else RemoteBookingOff) &&
        queue.Some? == old(queue).Some? &&
        (queue.Some? ==> queue.value == old(queue).value.(allowRemoteBooking := !current))
      ensures sent && result.Err? ==> notice == Error(GenericError)
      ensures !(sent && result.Ok?) ==> queue == old(queue)
      ensures !sent ==> notice == Silent
      ensures currentTicket == old(currentTicket) && waitingTickets == old(waitingTickets) &&
        loading == old(loading) && actionLoading == old(actionLoading)
    {
      notice := Silent;
      sent := false;
      if queueId.NaN? {
        return;
      }
      sent := true;
      match result {
        case Ok(_) =>
          notice := Success(if !current then RemoteBookingOn else RemoteBookingOff);
          queue := if queue.Some? then Some(queue.value.(allowRemoteBooking := !current)) else None;
        case Err(_) =>
          notice := Error(GenericError);
      }
    }
  }
}
