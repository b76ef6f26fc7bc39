/**
 * The waiting-room display of one queue: the queue's name, the number
 * being served, the next number and how many people wait.  It is filled on
 * mount and refreshed on `queue:update` and `ticket:called` messages.
 */
module DisplayPage {
  import opened Wrappers
  import opened Entities
  import Json

  /** The three figures on the board. */
  datatype Counters = Counters(currentNumber: Option<int>, nextNumber: Option<int>, waitingCount: nat)

  /**
   * The figures derived from a fetched queue: the served number (null when
   * nobody is served or the number is 0, by `|| null`), the number of the
   * first waiting ticket (null for an empty list) and the list's length.
   */
  function CountersOf(data: ProfessionalQueue): (c: Counters)
    ensures c.currentNumber.None? <==> data.currentTicket.None? || data.currentTicket.value.number == 0
    ensures c.currentNumber.Some? ==> c.currentNumber.value == data.currentTicket.value.number
    ensures c.nextNumber.None? <==> data.waitingTickets == []
    ensures c.nextNumber.Some? ==> c.nextNumber.value == data.waitingTickets[0].number
    ensures c.waitingCount == |data.waitingTickets|
  {
    var current :=
      if data.currentTicket.Some? && data.currentTicket.value.number != 0 then Some(data.currentTicket.value.number)
      else None;
    var next := if |data.waitingTickets| > 0 then Some(data.waitingTickets[0].number) else None;
    Counters(current, next, |data.waitingTickets|)
  }

  /** A number as the board writes it, `n || "-"`: a dash for null and for 0. */
  function Shown(n: Option<int>): (s: string)
    ensures s == "-" <==> n.None? || n.value == 0
  {
    if n.None? || n.value == 0 then "-" else Json.IntToString(n.value)
  }

  /** Serving nobody and serving number 0 look the same on the board. */
  lemma ServedZeroShowsDash(q: ProQueue, t: Ticket, waiting: seq<Ticket>)
    requires t.number == 0
    ensures Shown(CountersOf(ProfessionalQueue(q, Some(t), waiting)).currentNumber) ==
            Shown(CountersOf(ProfessionalQueue(q, None, waiting)).currentNumber)
  {
  }

  /** The messages that trigger a refresh. */
  predicate Refreshes(kind: string) {
    kind == QueueUpdate || kind == TicketCalled
  }

  /** JavaScript truthiness of the page's queue id: null, NaN and 0 are falsy. */
  predicate TruthyId(queueId: Option<NumberValue>) {
    queueId.Some? && queueId.value.Truthy()
  }

  /** Route parameters are truthy when present and non-empty. */
  predicate Given(param: Option<string>) {
    param.Some? && param.value != ""
  }

  class DisplayPage {
    var queueName: string
    var currentNumber: Option<int>
    var nextNumber: Option<int>
    var queueId: Option<NumberValue>
    var waitingCount: nat

    function Board(): Counters
      reads this
    {
      Counters(currentNumber, nextNumber, waitingCount)
    }

    constructor ()
      ensures queueName == "" && currentNumber.None? && nextNumber.None? && queueId.None? && waitingCount == 0
    {
      queueName := "";
      currentNumber := None;
      nextNumber := None;
      queueId := None;
      waitingCount := 0;
    }

    /**
     * The mount effect: a visitor who is not logged in goes to the login
     * page and a missing queue parameter to the dashboard, neither with a
     * fetch.  Otherwise the page keeps `parsed` (`parseInt` of the
     * parameter) as its queue id and fills the board from `data`; a failed
     * fetch leaves the board as it was.
     */
    method Mount(isAuthenticated: bool, param: Option<string>, parsed: NumberValue, data: Outcome<ProfessionalQueue>)
      returns (nav: Navigation, fetched: bool)
      modifies this
      ensures !isAuthenticated ==> nav == ToLogin
      ensures isAuthenticated && !Given(param) ==> nav == ToDashboard
      ensures isAuthenticated && Given(param) ==> nav == Stay
      ensures fetched <==> nav == Stay
      ensures !fetched ==>
        queueName == old(queueName) && currentNumber == old(currentNumber) &&
        nextNumber == old(nextNumber) && queueId == old(queueId) && waitingCount == old(waitingCount)
      ensures fetched ==> queueId == Some(parsed)
      ensures fetched && data.Ok? ==>
        queueName == data.value.queue.name && Board() == CountersOf(data.value)
      ensures fetched && data.Err? ==>
        queueName == old(queueName) && currentNumber == old(currentNumber) &&
        nextNumber == old(nextNumber) && waitingCount == old(waitingCount)
    {
      fetched := false;
      if !isAuthenticated {
        nav := ToLogin;
        return;
      }
      if param.None? || param.value == "" {
        nav := ToDashboard;
        return;
      }
      nav := Stay;
      queueId := Some(parsed);
      fetched := true;
      if data.Ok? {
        var d := data.value;
        queueName := d.queue.name;
        currentNumber := if d.currentTicket.Some? && d.currentTicket.value.number != 0 then Some(d.currentTicket.value.number) else None;
        waitingCount := |d.waitingTickets|;
        if |d.waitingTickets| > 0 {
          nextNumber := Some(d.waitingTickets[0].number);
        } else {
          nextNumber := None;
        }
      }
    }

    /**
     * `handleWsMessage(message)`: only `queue:update` and `ticket:called`
     * refresh, and only with a truthy queue id.  A refresh sets the board
     * as the mount does but keeps the queue's name; a failed refresh
     * changes nothing.
     */
    method HandleWsMessage(msg: WsMessage, data: Outcome<ProfessionalQueue>) returns (fetched: bool)
      modifies this
      ensures fetched <==> Refreshes(msg.kind) && TruthyId(queueId)
      ensures fetched && data.Ok? ==> Board() == CountersOf(data.value)
      ensures !(fetched && data.Ok?) ==>
        currentNumber == old(currentNumber) && nextNumber == old(nextNumber) && waitingCount == old(waitingCount)
      ensures queueName == old(queueName) && queueId == old(queueId)
    {
      fetched := false;
      if msg.kind == QueueUpdate || msg.kind == TicketCalled {
        if queueId.None? || !queueId.value.Truthy() {
          return;
        }
        fetched := true;
        if data.Ok? {
          var d := data.value;
          currentNumber := if d.currentTicket.Some? && d.currentTicket.value.number != 0 then Some(d.currentTicket.value.number) else None;
          waitingCount := |d.waitingTickets|;
          if |d.waitingTickets| > 0 {
            nextNumber := Some(d.waitingTickets[0].number);
          } else {
            nextNumber := None;
          }
        }
      }
    }
  }
}
