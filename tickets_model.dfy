/**
 * The Tickets schema and collection: the fields the ledger rules read, the
 * required-field validators, and the partial unique index on ticketNumber.
 */
module TicketsModel {
  import opened Types

  // The two all-zero numbers the unique index leaves out.
  const ZeroNumber13 := "0000000000000"
  const ZeroNumber16 := "0000000000000000"

  datatype Ticket = Ticket(
    id: Id,
    user: Id,
    ticketNumber: string,
    agent: Option<Id>,          // optional: without one the ticket is its own account
    operationType: string,      // free text; "Refund" and "Re-Issue" mean something to the controllers
    consumerCost: int,
    consumerFee: Option<int>,
    providerFee: Option<int>,
    paymentType: string,
    paymentToProvider: string)  // the id of a payment-method record

  /** Numbers the partial index does not cover. */
  predicate IndexExempt(number: string) {
    number == ZeroNumber13 || number == ZeroNumber16
  }

  /** The required validators of the string fields modelled: present and non-empty. */
  predicate RequiredPresent(t: Ticket) {
    && t.ticketNumber != ""
    && t.operationType != ""
    && t.paymentType != ""
    && t.paymentToProvider != ""
  }

  /** The partial unique index: two stored tickets share a number only when it is one of the two all-zero numbers. */
  ghost predicate UniqueNumbers(ts: seq<Ticket>) {
    forall i, j :: 0 <= i < j < |ts| && ts[i].ticketNumber == ts[j].ticketNumber ==> IndexExempt(ts[i].ticketNumber)
  }

  ghost predicate DistinctIds(ts: seq<Ticket>, nextId: Id) {
    && (forall i :: 0 <= i < |ts| ==> ts[i].id < nextId)
    && (forall i, j :: 0 <= i < j < |ts| ==> ts[i].id != ts[j].id)
  }

  predicate NumberUsed(ts: seq<Ticket>, number: string) {
    exists i :: 0 <= i < |ts| && ts[i].ticketNumber == number
  }

  predicate NumberUsedByOther(ts: seq<Ticket>, number: string, id: Id) {
    exists i :: 0 <= i < |ts| && ts[i].ticketNumber == number && ts[i].id != id
  }

  /** The first ticket with this id. */
  function Lookup(ts: seq<Ticket>, id: Id): (r: Option<Ticket>)
    ensures r.Some? ==> r.value in ts && r.value.id == id
    ensures r.None? <==> forall i :: 0 <= i < |ts| ==> ts[i].id != id
  {
    if ts == [] then None
    else if ts[0].id == id then Some(ts[0])
    else Lookup(ts[1..], id)
  }

  function ReplaceById(ts: seq<Ticket>, t: Ticket): (r: seq<Ticket>)
    ensures |r| == |ts|
  {
    seq(|ts|, i requires 0 <= i < |ts| => if ts[i].id == t.id then t else ts[i])
  }

  /** A number in an update body: absent, a JSON number, or a string that Mongoose casts to a number. */
  datatype NumField = Omitted | Number(n: int) | NumericString(n: int)

  /** The update body's fields that the ledger rules depend on; absent fields are left as they are. */
  datatype TicketPatch = TicketPatch(
    ticketNumber: Option<string>,
    agent: Option<Option<Id>>,
    operationType: Option<string>,
    consumerCost: NumField,
    consumerFee: NumField,
    providerFee: Option<Option<int>>,   // Some(None): the body sets it to null
    paymentType: Option<string>,
    paymentToProvider: Option<string>)

  /** `findByIdAndUpdate(id, { ...req.body, user })`: body fields overwrite, and the user becomes the caller. */
  function Patched(t: Ticket, patch: TicketPatch, user: Id): (r: Ticket)
    ensures r.id == t.id && r.user == user
    ensures r.ticketNumber == (if patch.ticketNumber.Some? then patch.ticketNumber.value else t.ticketNumber)
    ensures r.agent == (if patch.agent.Some? then patch.agent.value else t.agent)
    ensures r.operationType == (if patch.operationType.Some? then patch.operationType.value else t.operationType)
    ensures patch.consumerCost.Omitted? ==> r.consumerCost == t.consumerCost
    ensures !patch.consumerCost.Omitted? ==> r.consumerCost == patch.consumerCost.n
    ensures patch.consumerFee.Omitted? ==> r.consumerFee == t.consumerFee
    ensures !patch.consumerFee.Omitted? ==> r.consumerFee == Some(patch.consumerFee.n)
    ensures r.providerFee == (if patch.providerFee.Some? then patch.providerFee.value else t.providerFee)
    ensures r.paymentType == (if patch.paymentType.Some? then patch.paymentType.value else t.paymentType)
    ensures r.paymentToProvider == (if patch.paymentToProvider.Some? then patch.paymentToProvider.value
                                    else t.paymentToProvider)
  {
    t.(user := user,
       ticketNumber := patch.ticketNumber.GetOr(t.ticketNumber),
       agent := patch.agent.GetOr(t.agent),
       operationType := patch.operationType.GetOr(t.operationType),
       consumerCost := if patch.consumerCost.Omitted? then t.consumerCost else patch.consumerCost.n,
       consumerFee := if patch.consumerFee.Omitted? then t.consumerFee else Some(patch.consumerFee.n),
       providerFee := patch.providerFee.GetOr(t.providerFee),
       paymentType := patch.paymentType.GetOr(t.paymentType),
       paymentToProvider := patch.paymentToProvider.GetOr(t.paymentToProvider))
  }

  /** An update body with no modelled fields changes only the owner. */
  lemma EmptyPatchSetsOnlyOwner(t: Ticket, user: Id)
    ensures Patched(t, TicketPatch(None, None, None, Omitted, Omitted, None, None, None), user) == t.(user := user)
  {
  }

  /** Applying the same body twice is applying it once. */
  lemma PatchIsIdempotent(t: Ticket, patch: TicketPatch, user: Id)
    ensures Patched(Patched(t, patch, user), patch, user) == Patched(t, patch, user)
  {
  }

  /** Adding a ticket keeps the index when its number is exempt or unused. */
  lemma InsertKeepsUnique(ts: seq<Ticket>, t: Ticket)
    requires UniqueNumbers(ts)
    requires IndexExempt(t.ticketNumber) || !NumberUsed(ts, t.ticketNumber)
    ensures UniqueNumbers(ts + [t])
  {
    var r := ts + [t];
    forall i, j | 0 <= i < j < |r| && r[i].ticketNumber == r[j].ticketNumber
      ensures IndexExempt(r[i].ticketNumber)
    {
      if j == |ts| {
        assert r[i] == ts[i];
      }
    }
  }

  /** Replacing a ticket keeps the index when its new number is exempt or used by no other ticket. */
  lemma ReplaceKeepsUnique(ts: seq<Ticket>, nextId: Id, t: Ticket)
    requires UniqueNumbers(ts) && DistinctIds(ts, nextId)
    requires IndexExempt(t.ticketNumber) || !NumberUsedByOther(ts, t.ticketNumber, t.id)
    ensures UniqueNumbers(ReplaceById(ts, t)) && DistinctIds(ReplaceById(ts, t), nextId)
  {
    var r := ReplaceById(ts, t);
    forall i, j | 0 <= i < j < |r| && r[i].ticketNumber == r[j].ticketNumber
      ensures IndexExempt(r[i].ticketNumber)
    {
      if ts[i].id == t.id {
        assert ts[j].id != t.id;
        assert ts[j].ticketNumber == t.ticketNumber;
      } else if ts[j].id == t.id {
        assert ts[i].ticketNumber == t.ticketNumber;
      }
    }
  }

  class TicketStore {
    var tickets: seq<Ticket>  // the Tickets collection
    var nextId: Id            // the id the next inserted ticket receives

    ghost predicate Valid()
      reads this
    {
      UniqueNumbers(tickets) && DistinctIds(tickets, nextId)
    }

    constructor ()
      ensures Valid() && tickets == []
    {
      tickets := [];
      nextId := 0;
    }

    /** `Tickets.findOne({ ticketNumber })`, reduced to whether one exists. */
    method FindByNumber(number: string) returns (found: bool)
      ensures found <==> NumberUsed(tickets, number)
    {
      found := false;
      var i := 0;
      while i < |tickets|
        invariant 0 <= i <= |tickets|
        invariant found <==> exists k :: 0 <= k < i && tickets[k].ticketNumber == number
      {
        if tickets[i].ticketNumber == number {
          found := true;
        }
        i := i + 1;
      }
    }

    /** `Tickets.findById(id)`. */
    method FindById(id: Id) returns (t: Option<Ticket>)
      ensures t == Lookup(tickets, id)
    {
      var i := 0;
      while i < |tickets| && tickets[i].id != id
        invariant 0 <= i <= |tickets|
        invariant Lookup(tickets[i..], id) == Lookup(tickets, id)
      {
        assert tickets[i..][1..] == tickets[i + 1..];
        i := i + 1;
      }
      t := if i < |tickets| then Some(tickets[i]) else None;
    }

    /**
     * `Tickets.create`: the document is validated first, then the unique
     * index is consulted; either refusal stores nothing.
     */
    method Create(draft: Ticket) returns (r: Result<Ticket>)
      requires Valid()
      modifies this
      ensures Valid()
      ensures var t := draft.(id := old(nextId));
              if !RequiredPresent(t) then r == Err(ValidationError) && tickets == old(tickets)
              else if !IndexExempt(t.ticketNumber) && NumberUsed(old(tickets), t.ticketNumber) then
                r == Err(DuplicateKey) && tickets == old(tickets)
              else r == Ok(t) && tickets == old(tickets) + [t]
    {
      var t := draft.(id := nextId);
      if !RequiredPresent(t) {
        return Err(ValidationError);
      }
      var taken := FindByNumber(t.ticketNumber);
      if !IndexExempt(t.ticketNumber) && taken {
        return Err(DuplicateKey);
      }
      InsertKeepsUnique(tickets, t);
      tickets := tickets + [t];
      nextId := nextId + 1;
      r := Ok(t);
    }

    /**
     * `Tickets.findByIdAndUpdate(id, body, { new: true })`: no validators run,
     * but the unique index still refuses a number another ticket holds.
     */
    method FindByIdAndUpdate(id: Id, patch: TicketPatch, user: Id) returns (r: Result<Option<Ticket>>)
      requires Valid()
      modifies this
      ensures Valid() && nextId == old(nextId)
      ensures Lookup(old(tickets), id).None? ==> r == Ok(None) && tickets == old(tickets)
      ensures Lookup(old(tickets), id).Some? ==>
                var t := Patched(Lookup(old(tickets), id).value, patch, user);
                if !IndexExempt(t.ticketNumber) && NumberUsedByOther(old(tickets), t.ticketNumber, id) then
                  r == Err(DuplicateKey) && tickets == old(tickets)
                else r == Ok(Some(t)) && tickets == ReplaceById(old(tickets), t)
    {
      var found := FindById(id);
      if found.None? {
        return Ok(None);
      }
      var t := Patched(found.value, patch, user);
      var clash := false;
      var i := 0;
      while i < |tickets|
        invariant 0 <= i <= |tickets|
        invariant clash <==> exists k :: 0 <= k < i && tickets[k].ticketNumber == t.ticketNumber && tickets[k].id != id
      {
        if tickets[i].ticketNumber == t.ticketNumber && tickets[i].id != id {
          clash := true;
        }
        i := i + 1;
      }
      if !IndexExempt(t.ticketNumber) && clash {
        return Err(DuplicateKey);
      }
      ReplaceKeepsUnique(tickets, nextId, t);
      tickets := ReplaceById(tickets, t);
      r := Ok(Some(t));
    }
  }
}
