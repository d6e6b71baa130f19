/**
 * The Ledger schema: one document per posting, carrying the entity's running
 * balance just after it was applied.
 */
module LedgerModel {
  import opened Types

  // The `entityType` enum: whose account `entityId` names.
  const Agents := "Agents"
  const Tickets := "Tickets"

  // The `transactionType` enum.
  const Debit := "debit"
  const Credit := "credit"

  /**
   * The type ticket postings request when the provider was paid with an
   * agent's card. It is not one of the schema's enum values.
   */
  const NoEffect := "no-effect"

  datatype Entry = Entry(
    entityId: Id,
    entityType: string,
    ticketId: Option<Id>,    // the only optional field
    transactionType: string,
    amount: int,
    balance: int,
    description: string,
    date: int,
    referenceNumber: string,
    createdAt: int)          // set by the `timestamps` option; the "latest entry" key

  predicate EntityTypeAllowed(t: string) {
    t == Agents || t == Tickets
  }

  predicate TransactionTypeAllowed(t: string) {
    t == Debit || t == Credit
  }

  /**
   * What Mongoose's validators check on save: both enums, and the required
   * strings non-empty. The required number fields are always present here.
   */
  predicate ValidEntry(e: Entry) {
    && EntityTypeAllowed(e.entityType)
    && TransactionTypeAllowed(e.transactionType)
    && e.description != ""
    && e.referenceNumber != ""
  }

  /**
   * A new Ledger document built at time `now`: `date` takes its default,
   * the creation time, when the writer supplies none.
   */
  function NewEntry(entityId: Id, entityType: string, ticketId: Option<Id>, transactionType: string,
                    amount: int, balance: int, description: string, date: Option<int>,
                    referenceNumber: string, now: int): Entry
  {
    Entry(entityId, entityType, ticketId, transactionType, amount, balance, description,
          date.GetOr(now), referenceNumber, now)
  }

  /** `date` defaults to the creation time and otherwise keeps the supplied value; createdAt is always the creation time. */
  lemma DateDefaultsToCreation(entityId: Id, entityType: string, ticketId: Option<Id>, transactionType: string,
                               amount: int, balance: int, description: string, date: Option<int>,
                               referenceNumber: string, now: int)
    ensures var e := NewEntry(entityId, entityType, ticketId, transactionType, amount, balance,
                              description, date, referenceNumber, now);
            && e.createdAt == now
            && (date.None? ==> e.date == now)
            && (date.Some? ==> e.date == date.value)
  {
  }

  /** Every entry that passes validation belongs to an agent or to a ticket; any other tag is refused. */
  lemma EntityTypeIsAgentsOrTickets(e: Entry)
    ensures ValidEntry(e) ==> e.entityType == Agents || e.entityType == Tickets
    ensures e.entityType != Agents && e.entityType != Tickets ==> !ValidEntry(e)
  {
  }

  /**
   * Only debit and credit entries pass validation: a `no-effect` entry is
   * refused whatever its balance, so the schema and the ticket postings that
   * ask for `no-effect` disagree.
   */
  lemma NoEffectIsRefused(e: Entry)
    ensures ValidEntry(e) ==> e.transactionType == Debit || e.transactionType == Credit
    ensures e.transactionType == NoEffect ==> !ValidEntry(e)
  {
  }

  /** ticketId is optional: an entry without one is as valid as the same entry with one. */
  lemma TicketIdIsOptional(e: Entry, t: Id)
    ensures ValidEntry(e.(ticketId := None)) <==> ValidEntry(e.(ticketId := Some(t)))
  {
  }
}
