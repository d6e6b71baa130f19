/**
 * The Ledger and Payment collections and the writers of the ledger
 * controller. Each writer reads the entity's latest balance, builds one
 * document and saves it; the store stays append-only.
 */
module LedgerController {
  import opened Types
  import opened LedgerModel
  import opened PaymentModel
  import opened LedgerBalance

  class Ledger {
    var entries: seq<Entry>     // the Ledger collection, in insertion order
    var payments: seq<Payment>  // the Payment collection
    var clock: int              // the creation time the next saved document receives

    ghost predicate Valid()
      reads this
    {
      StoreInvariant(entries, clock)
    }

    constructor (now: int)
      ensures Valid() && entries == [] && payments == [] && clock == now
    {
      entries := [];
      payments := [];
      clock := now;
    }

    /** The shared lookup `findOne({ entityId }).sort({ createdAt: -1 })`, then `lastEntry ? lastEntry.balance : 0`. */
    method LatestBalance(id: Id) returns (balance: int)
      ensures balance == BalanceOf(entries, id)
    {
      var i := |entries|;
      assert entries[..i] == entries;
      while i > 0 && entries[i - 1].entityId != id
        invariant 0 <= i <= |entries|
        invariant BalanceOf(entries[..i], id) == BalanceOf(entries, id)
      {
        assert entries[..i][..i - 1] == entries[..i - 1];
        i := i - 1;
      }
      if i == 0 {
        balance := 0;
      } else {
        assert entries[..i][..i - 1] == entries[..i - 1];
        balance := entries[i - 1].balance;
      }
    }

    /** `save()`: validate the document, then insert it; a refused document changes nothing. */
    method Save(e: Entry) returns (r: Result<Entry>)
      requires Valid()
      requires e.createdAt == clock
      requires ValidEntry(e) ==> e.balance == BalanceOf(entries, e.entityId) + Delta(e.transactionType, e.amount)
      modifies this
      ensures Valid() && payments == old(payments)
      ensures ValidEntry(e) ==> r == Ok(e) && entries == old(entries) + [e] && clock == old(clock) + 1
      ensures !ValidEntry(e) ==> r == Err(ValidationError) && entries == old(entries) && clock == old(clock)
    {
      if ValidEntry(e) {
        StoreAppend(entries, clock, e);
        entries := entries + [e];
        clock := clock + 1;
        r := Ok(e);
      } else {
        r := Err(ValidationError);
      }
    }

    /**
     * createTicketLedgerEntry: one debit entry against the entity, tied to the
     * ticket, with balance raised by the amount.
     */
    method CreateTicketLedgerEntry(entityId: Id, entityType: string, ticketId: Id, amount: int, referenceNumber: string)
      returns (r: Result<Entry>)
      requires Valid()
      modifies this
      ensures Valid() && payments == old(payments)
      ensures r.Ok? <==> EntityTypeAllowed(entityType) && referenceNumber != ""
      ensures r.Ok? ==>
                && entries == old(entries) + [r.value]
                && r.value.entityId == entityId && r.value.entityType == entityType
                && r.value.ticketId == Some(ticketId)
                && r.value.transactionType == Debit
                && r.value.amount == amount
                && r.value.balance == BalanceOf(old(entries), entityId) + amount
                && r.value.description == "Ticket charge - " + referenceNumber
                && r.value.referenceNumber == referenceNumber
                && r.value.date == old(clock) && r.value.createdAt == old(clock)
      ensures r.Err? ==> r.error == ValidationError && entries == old(entries) && clock == old(clock)
    {
      var current := LatestBalance(entityId);
      var e := NewEntry(entityId, entityType, Some(ticketId), Debit, amount, current + amount,
                        "Ticket charge - " + referenceNumber, None, referenceNumber, clock);
      r := Save(e);
    }

    /**
     * recordPayment: a Payment document and a credit entry that lowers the
     * balance by the amount. The two saves run side by side, so each is
     * validated on its own and either may land while the other is refused;
     * the request succeeds only when both do.
     */
    method RecordPayment(entityId: Id, entityType: string, amount: int, paymentMethod: string,
                         referenceNumber: string, description: string, relatedTickets: seq<Id>)
      returns (r: Result<(Payment, Entry)>)
      requires Valid()
      modifies this
      ensures Valid()
      ensures var payment := Payment(entityId, entityType, amount, paymentMethod, old(clock),
                                     referenceNumber, description, relatedTickets);
              payments == if ValidPayment(payment) then old(payments) + [payment] else old(payments)
      ensures var credit := NewEntry(entityId, entityType, None, Credit, amount,
                                     BalanceOf(old(entries), entityId) - amount,
                                     "Payment received - " + referenceNumber, None, referenceNumber, old(clock));
              && entries == (if ValidEntry(credit) then old(entries) + [credit] else old(entries))
              && (r.Ok? ==> r.value.1 == credit)
      ensures r.Ok? <==> (&& (entityType == PaymentAgents || entityType == PaymentClient)
                          && EntityTypeAllowed(entityType)
                          && paymentMethod != "" && referenceNumber != "" && description != "")
      ensures r.Ok? ==> r.value.0.entityId == r.value.1.entityId == entityId
                        && r.value.0.amount == r.value.1.amount == amount
                        && r.value.0.referenceNumber == r.value.1.referenceNumber == referenceNumber
    {
      var current := LatestBalance(entityId);
      var payment := Payment(entityId, entityType, amount, paymentMethod, clock,
                             referenceNumber, description, relatedTickets);
      var credit := NewEntry(entityId, entityType, None, Credit, amount, current - amount,
                             "Payment received - " + referenceNumber, None, referenceNumber, clock);
      assert |credit.description| > 0;
      assert ValidEntry(credit) <==> EntityTypeAllowed(entityType) && referenceNumber != "";
      ghost var e0, c0 := entries, clock;
      assert credit == NewEntry(entityId, entityType, None, Credit, amount, BalanceOf(old(entries), entityId) - amount,
                                "Payment received - " + referenceNumber, None, referenceNumber, old(clock));
      var paymentValid := ValidPayment(payment);
      if paymentValid {
        payments := payments + [payment];
      }
      assert entries == e0 && clock == c0;
      var saved := Save(credit);
      assert saved.Ok? <==> ValidEntry(credit);
      assert entries == (if ValidEntry(credit) then e0 + [credit] else e0);
      if paymentValid && saved.Ok? {
        r := Ok((payment, credit));
      } else {
        r := Err(ValidationError);
      }
    }

    /**
     * createManualLedgerEntry: a credit lowers the balance by the amount, any
     * other type raises it; `date` is the supplied one or the creation time.
     */
    method CreateManualLedgerEntry(entityId: Id, entityType: string, transactionType: string, amount: int,
                                   description: string, referenceNumber: string, date: Option<int>)
      returns (r: Result<Entry>)
      requires Valid()
      modifies this
      ensures Valid() && payments == old(payments)
      ensures r.Ok? <==> && EntityTypeAllowed(entityType) && TransactionTypeAllowed(transactionType)
                         && description != "" && referenceNumber != ""
      ensures r.Ok? ==>
                && entries == old(entries) + [r.value] && clock == old(clock) + 1
                && r.value.entityId == entityId && r.value.entityType == entityType && r.value.ticketId == None
                && r.value.transactionType == transactionType && r.value.amount == amount
                && r.value.balance == (if transactionType == Credit then BalanceOf(old(entries), entityId) - amount
                                       else BalanceOf(old(entries), entityId) + amount)
                && r.value.description == description && r.value.referenceNumber == referenceNumber
                && r.value.date == date.GetOr(old(clock)) && r.value.createdAt == old(clock)
      ensures r.Err? ==> r.error == ValidationError && entries == old(entries) && clock == old(clock)
    {
      var current := LatestBalance(entityId);
      var balance := if transactionType == Credit then current - amount else current + amount;
      var e := NewEntry(entityId, entityType, None, transactionType, amount, balance,
                        description, date, referenceNumber, clock);
      r := Save(e);
    }

    /**
     * The recorder that ticket creation and ticket update call to post one
     * entry of a given type. Its source is not part of this model: it is
     * taken to build an entry as Recorded does and to save it through the
     * Ledger schema.
     */
    method RecordWithType(p: Posting) returns (r: Result<Entry>)
      requires Valid()
      modifies this
      ensures Valid() && payments == old(payments)
      ensures var c := Commit(old(entries), old(clock), [p]);
              entries == c.entries && clock == c.clock && (r.Ok? <==> c.ok)
    {
      var current := LatestBalance(p.entityId);
      var e := NewEntry(p.entityId, p.entityType, p.ticketId, p.transactionType, p.amount,
                        current + Delta(p.transactionType, p.amount), p.description, None, p.referenceNumber, clock);
      assert e == Recorded(entries, clock, p);
      r := Save(e);
    }
  }

  /**
   * A payment completes only for an agent: "Client" passes the Payment
   * schema but not the Ledger's, and "Tickets" the Ledger's but not the
   * Payment's.
   */
  lemma PaymentCompletesOnlyForAgents(entityType: string)
    ensures (&& (entityType == PaymentAgents || entityType == PaymentClient)
             && EntityTypeAllowed(entityType)) <==> entityType == Agents
  {
  }

  /** For the two types the schema accepts, the manual-entry rule is the chain's rule. */
  lemma ManualRuleFollowsChain(transactionType: string, amount: int, current: int)
    requires TransactionTypeAllowed(transactionType)
    ensures (if transactionType == Credit then current - amount else current + amount)
            == current + Delta(transactionType, amount)
  {
  }

  /** A charge of 500 then a payment of 200 on a new agent leaves a balance of 300. */
  method ChargeThenPayment(agent: Id, ticket: Id) returns (balance: int)
    ensures balance == 300
  {
    var ledger := new Ledger(0);
    var charged := ledger.CreateTicketLedgerEntry(agent, Agents, ticket, 500, "REF1");
    assert charged.Ok? && charged.value.balance == 500;
    var paid := ledger.RecordPayment(agent, Agents, 200, "cash", "REF2", "Payment", []);
    assert paid.Ok? && paid.value.1.balance == 300;
    assert BalanceOf(ledger.entries, agent) == 300 by {
      BalanceAfterAppend(ledger.entries[..1], ledger.entries[1], agent);
      assert ledger.entries == ledger.entries[..1] + [ledger.entries[1]];
    }
    balance := ledger.LatestBalance(agent);
  }
}
