/**
 * `JSON.stringify` and `JSON.parse` of the two persisted records: the
 * professional's profile (storage key `professional`) and the held ticket
 * (storage key `myTicket`).  Parsing fails on text that is not such an
 * object; a member with the wrong type, a missing required member or an
 * unknown plan or status also make it fail.
 */
module Codec {
  import opened Wrappers
  import opened Json
  import opened Entities

  function PlanName(p: Plan): string {
    match p
    case Free => "free"
    case Pro => "pro"
  }

  function PlanOf(s: string): (r: Option<Plan>)
    ensures r.Some? ==> PlanName(r.value) == s
  {
    if s == "free" then Some(Free) else if s == "pro" then Some(Pro) else None
  }

  function StatusName(s: TicketStatus): string {
    match s
    case Waiting => "waiting"
    case Current => "current"
    case Completed => "completed"
    case NoShow => "no_show"
    case Cancelled => "cancelled"
  }

  function StatusOf(s: string): (r: Option<TicketStatus>)
    ensures r.Some? ==> StatusName(r.value) == s
  {
    if s == "waiting" then Some(Waiting)
    else if s == "current" then Some(Current)
    else if s == "completed" then Some(Completed)
    else if s == "no_show" then Some(NoShow)
    else if s == "cancelled" then Some(Cancelled)
    else None
  }

  lemma StatusOfName(s: TicketStatus)
    ensures StatusOf(StatusName(s)) == Some(s)
  {
  }

  // ---------------------------------------------------------------------
  // Profile
  // ---------------------------------------------------------------------

  function ProfessionalMembers(p: Professional): seq<Member> {
    [("id", JInt(p.id)), ("email", JStr(p.email)), ("name", JStr(p.name)),
     ("plan", JStr(PlanName(p.plan)))]
  }

  function ProfessionalOf(ms: seq<Member>): Option<Professional> {
    match (Lookup(ms, "id"), Lookup(ms, "email"), Lookup(ms, "name"), Lookup(ms, "plan"))
    case (Some(JInt(id)), Some(JStr(email)), Some(JStr(name)), Some(JStr(plan))) =>
      (match PlanOf(plan)
       case Some(pl) => Some(Professional(id, email, name, pl))
       case None => None)
    case _ => None
  }

  /** `JSON.stringify(professional)`; never the empty string. */
  function SerializeProfessional(p: Professional): (r: string)
    ensures r != ""
  {
    Stringify(ProfessionalMembers(p))
  }

  /** `JSON.parse` of a stored profile; `None` where the source's parse would throw. */
  function ParseProfessional(s: string): Option<Professional> {
    match Parse(s)
    case None => None
    case Some(ms) => ProfessionalOf(ms)
  }

  lemma ProfessionalOfMembers(p: Professional)
    ensures ProfessionalOf(ProfessionalMembers(p)) == Some(p)
  {
    var ms := ProfessionalMembers(p);
    LookupUnique(ms, 0, "id");
    LookupUnique(ms, 1, "email");
    LookupUnique(ms, 2, "name");
    LookupUnique(ms, 3, "plan");
  }

  /** A stored profile reads back as the profile that was stored. */
  lemma ParseSerializeProfessional(p: Professional)
    ensures ParseProfessional(SerializeProfessional(p)) == Some(p)
  {
    ParseStringify(ProfessionalMembers(p));
    ProfessionalOfMembers(p);
  }

  // ---------------------------------------------------------------------
  // Ticket
  // ---------------------------------------------------------------------

  function NullableInt(o: Option<int>): Scalar {
    match o
    case Some(i) => JInt(i)
    case None => JNull
  }

  /** A missing member and a null both read as no value. */
  function IntOrNull(v: Option<Scalar>): Option<int> {
    match v
    case Some(JInt(i)) => Some(i)
    case _ => None
  }

  /** The members every ticket has. */
  function TicketBase(t: TicketInfo): seq<Member> {
    [("id", JInt(t.id)), ("number", JInt(t.number)), ("status", JStr(StatusName(t.status))),
     ("position", NullableInt(t.position)), ("queueId", JInt(t.queueId))]
  }

  /** Members of a ticket; `estimatedWaitMinutes` is left out when it has no value. */
  function TicketMembers(t: TicketInfo): seq<Member> {
    match t.estimatedWaitMinutes
    case Some(m) => TicketBase(t) + [("estimatedWaitMinutes", JInt(m))]
    case None => TicketBase(t)
  }

  function TicketOf(ms: seq<Member>): Option<TicketInfo> {
    match (Lookup(ms, "id"), Lookup(ms, "number"), Lookup(ms, "status"), Lookup(ms, "queueId"))
    case (Some(JInt(id)), Some(JInt(number)), Some(JStr(status)), Some(JInt(queueId))) =>
      (match StatusOf(status)
       case Some(st) =>
         Some(TicketInfo(id, number, st, IntOrNull(Lookup(ms, "position")), queueId,
                         IntOrNull(Lookup(ms, "estimatedWaitMinutes"))))
       case None => None)
    case _ => None
  }

  /** `JSON.stringify(ticket)`; never the empty string. */
  function SerializeTicket(t: TicketInfo): (r: string)
    ensures r != ""
  {
    Stringify(TicketMembers(t))
  }

  /** `JSON.parse` of a stored ticket; `None` where the source's parse would throw. */
  function ParseTicket(s: string): Option<TicketInfo> {
    match Parse(s)
    case None => None
    case Some(ms) => TicketOf(ms)
  }

  lemma TicketBaseLookups(t: TicketInfo)
    ensures Lookup(TicketBase(t), "id") == Some(JInt(t.id))
    ensures Lookup(TicketBase(t), "number") == Some(JInt(t.number))
    ensures Lookup(TicketBase(t), "status") == Some(JStr(StatusName(t.status)))
    ensures Lookup(TicketBase(t), "position") == Some(NullableInt(t.position))
    ensures Lookup(TicketBase(t), "queueId") == Some(JInt(t.queueId))
    ensures Lookup(TicketBase(t), "estimatedWaitMinutes") == None
  {
    var ms := TicketBase(t);
    LookupUnique(ms, 0, "id");
    LookupUnique(ms, 1, "number");
    LookupUnique(ms, 2, "status");
    LookupUnique(ms, 3, "position");
    LookupUnique(ms, 4, "queueId");
    LookupFindsLast(ms, "estimatedWaitMinutes");
  }

  lemma TicketMembersLookups(t: TicketInfo)
    ensures Lookup(TicketMembers(t), "id") == Some(JInt(t.id))
    ensures Lookup(TicketMembers(t), "number") == Some(JInt(t.number))
    ensures Lookup(TicketMembers(t), "status") == Some(JStr(StatusName(t.status)))
    ensures Lookup(TicketMembers(t), "queueId") == Some(JInt(t.queueId))
    ensures IntOrNull(Lookup(TicketMembers(t), "position")) == t.position
    ensures IntOrNull(Lookup(TicketMembers(t), "estimatedWaitMinutes")) == t.estimatedWaitMinutes
  {
    TicketBaseLookups(t);
    if t.estimatedWaitMinutes.Some? {
      var base, m := TicketBase(t), ("estimatedWaitMinutes", JInt(t.estimatedWaitMinutes.value));
      LookupAppend(base, m, "id");
      LookupAppend(base, m, "number");
      LookupAppend(base, m, "status");
      LookupAppend(base, m, "position");
      LookupAppend(base, m, "queueId");
      LookupAppend(base, m, "estimatedWaitMinutes");
    }
  }

  lemma TicketOfMembers(t: TicketInfo)
    ensures TicketOf(TicketMembers(t)) == Some(t)
  {
    TicketMembersLookups(t);
    StatusOfName(t.status);
  }

  /** A stored ticket reads back as the ticket that was stored. */
  lemma ParseSerializeTicket(t: TicketInfo)
    ensures ParseTicket(SerializeTicket(t)) == Some(t)
  {
    ParseStringify(TicketMembers(t));
    TicketOfMembers(t);
  }
}
