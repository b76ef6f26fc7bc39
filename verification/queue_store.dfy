/**
 * The queue store shared by the pages.  The ticket holder's side keeps the
 * queue snapshot and the held ticket, the latter mirrored into the storage
 * key `myTicket`; the professional's side keeps the ticket being served and
 * the waiting list.
 *
 * `StoreMyTicket`, `UpdatedInfo` and `LoadTicket` give the effect of the
 * three non-trivial operations; the class `QueueStore` and the method
 * `LoadTicketFromStorage` perform them and are proved to have exactly
 * those effects.
 */
module QueueStore {
  import opened Wrappers
  import opened Entities
  import opened Codec
  import opened Storage

  const MyTicketKey: string := "myTicket"

  /**
   * Storage after `setMyTicket(t)`: a ticket is written under `myTicket`
   * and reads back as itself; no ticket removes the key; every other key
   * is untouched.
   */
  function StoreMyTicket(items: map<string, string>, t: Option<TicketInfo>): (r: map<string, string>)
    ensures MyTicketKey in r <==> t.Some?
    ensures t.Some? ==> r[MyTicketKey] != "" && ParseTicket(r[MyTicketKey]) == t
    ensures forall k :: k != MyTicketKey ==> Read(r, k) == Read(items, k)
  {
    match t
    case Some(ticket) =>
      ParseSerializeTicket(ticket);
      items[MyTicketKey := SerializeTicket(ticket)]
    case None => items - {MyTicketKey}
  }

  /**
   * The snapshot after `updateFromWs(d)`: a held snapshot takes every member
   * present in `d` and keeps every other member; no snapshot stays none.
   */
  function UpdatedInfo(q: Option<QueueInfo>, d: QueueInfo): (r: Option<QueueInfo>)
    ensures r.Some? <==> q.Some?
    ensures r.Some? ==> forall f :: Get(r.value, f) == if Get(d, f) != Absent then Get(d, f) else Get(q.value, f)
  {
    match q
    case Some(s) => Some(Merge(s, d))
    case None => None
  }

  /** The same delta applied twice is applied once. */
  lemma {:induction false} UpdatedInfoIdempotent(q: Option<QueueInfo>, d: QueueInfo)
    ensures UpdatedInfo(UpdatedInfo(q, d), d) == UpdatedInfo(q, d)
  {
    if q.Some? {
      MergeIdempotent(q.value, d);
    }
  }

  /** The result of `loadTicketFromStorage()` and storage afterwards. */
  datatype Loaded = Loaded(ticket: Option<TicketInfo>, items: map<string, string>)

  /**
   * `loadTicketFromStorage()`: a missing or empty value gives no ticket and
   * leaves storage alone; a value that parses gives that ticket; a value
   * that does not parse gives no ticket and is removed.
   */
  function LoadTicket(items: map<string, string>): (r: Loaded)
    ensures MyTicketKey !in items || items[MyTicketKey] == "" ==> r == Loaded(None, items)
    ensures MyTicketKey in items && items[MyTicketKey] != "" ==>
      r.ticket == ParseTicket(items[MyTicketKey]) &&
      r.items == (if r.ticket.Some? then items else items - {MyTicketKey})
  {
    var stored := Read(items, MyTicketKey);
    if stored.Some? && stored.value != "" then
      match ParseTicket(stored.value)
      case Some(t) => Loaded(Some(t), items)
      case None => Loaded(None, items - {MyTicketKey})
    else
      Loaded(None, items)
  }

  /** What `setMyTicket` stored, `loadTicketFromStorage` returns, leaving storage as it is. */
  lemma LoadAfterStore(items: map<string, string>, t: Option<TicketInfo>)
    ensures LoadTicket(StoreMyTicket(items, t)) == Loaded(t, StoreMyTicket(items, t))
  {
  }

  /** Loading twice gives what loading once gives: a corrupt value is gone after the first load. */
  lemma LoadTicketIdempotent(items: map<string, string>)
    ensures LoadTicket(LoadTicket(items).items) == LoadTicket(items)
  {
  }

  /** The slot mirrors the held ticket: present exactly when a ticket is held, and it reads back as that ticket. */
  ghost predicate Synced(myTicket: Option<TicketInfo>, items: map<string, string>) {
    (MyTicketKey in items <==> myTicket.Some?) &&
    (myTicket.Some? ==> ParseTicket(items[MyTicketKey]) == myTicket)
  }

  /** While the slot mirrors the held ticket, loading from storage gives the held ticket back. */
  lemma LoadWhenSynced(myTicket: Option<TicketInfo>, items: map<string, string>)
    requires Synced(myTicket, items)
    ensures LoadTicket(items) == Loaded(myTicket, items)
  {
    if myTicket.Some? {
      assert items[MyTicketKey] != "" by {
        assert ParseTicket(items[MyTicketKey]).Some?;
      }
    }
  }

  /** The store's own fields. */
  datatype State = State(
    queueInfo: Option<QueueInfo>,
    myTicket: Option<TicketInfo>,
    currentTicket: Option<Ticket>,
    waitingTickets: seq<Ticket>)

  class QueueStore {
    var queueInfo: Option<QueueInfo>
    var myTicket: Option<TicketInfo>
    var currentTicket: Option<Ticket>
    var waitingTickets: seq<Ticket>
    const storage: LocalStorage

    function Fields(): State
      reads this
    {
      State(queueInfo, myTicket, currentTicket, waitingTickets)
    }

    /** The held ticket and its storage slot agree. */
    ghost predicate Valid()
      reads this, storage
    {
      Synced(myTicket, storage.items)
    }

    /** The empty store; storage keeps whatever an earlier visit left there. */
    constructor (storage: LocalStorage)
      ensures this.storage == storage
      ensures Fields() == State(None, None, None, [])
    {
      this.storage := storage;
      queueInfo := None;
      myTicket := None;
      currentTicket := None;
      waitingTickets := [];
    }

    method SetQueueInfo(info: QueueInfo)
      modifies this
      ensures Fields() == old(Fields()).(queueInfo := Some(info))
    {
      queueInfo := Some(info);
    }

    /** Hold `t` (or nothing) and mirror it into storage; afterwards the slot and the field agree. */
    method SetMyTicket(t: Option<TicketInfo>)
      modifies this, storage
      ensures Fields() == old(Fields()).(myTicket := t)
      ensures storage.items == StoreMyTicket(old(storage.items), t)
      ensures Valid()
    {
      if t.Some? {
        storage.SetItem(MyTicketKey, SerializeTicket(t.value));
      } else {
        storage.RemoveItem(MyTicketKey);
      }
      myTicket := t;
    }

    method UpdateFromWs(d: QueueInfo)
      modifies this
      ensures Fields() == old(Fields()).(queueInfo := UpdatedInfo(old(queueInfo), d))
    {
      queueInfo := if queueInfo.Some? then Some(Merge(queueInfo.value, d)) else None;
    }

    method SetCurrentTicket(t: Option<Ticket>)
      modifies this
      ensures Fields() == old(Fields()).(currentTicket := t)
    {
      currentTicket := t;
    }

    method SetWaitingTickets(tickets: seq<Ticket>)
      modifies this
      ensures Fields() == old(Fields()).(waitingTickets := tickets)
    {
      waitingTickets := tickets;
    }
  }

  /** `loadTicketFromStorage()`, reading and possibly cleaning the `myTicket` slot. */
  method LoadTicketFromStorage(storage: LocalStorage) returns (t: Option<TicketInfo>)
    modifies storage
    ensures Loaded(t, storage.items) == LoadTicket(old(storage.items))
  {
    var stored := storage.GetItem(MyTicketKey);
    t := None;
    if stored.Some? && stored.value != "" {
      t := ParseTicket(stored.value);
      if t.None? {
        storage.RemoveItem(MyTicketKey);
      }
    }
  }
}
