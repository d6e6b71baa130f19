/** The Payment schema: a record of money received from an entity. */
module PaymentModel {
  import opened Types

  // The Payment schema's `entityType` enum, which differs from the Ledger's.
  const PaymentAgents := "Agents"
  const PaymentClient := "Client"

  datatype Payment = Payment(
    entityId: Id,
    entityType: string,
    amount: int,
    paymentMethod: string,
    paymentDate: int,          // defaults to the creation time
    referenceNumber: string,
    description: string,
    relatedTickets: seq<Id>)

  /** Mongoose's validators for a Payment: the enum and the required strings non-empty. */
  predicate ValidPayment(p: Payment) {
    && (p.entityType == PaymentAgents || p.entityType == PaymentClient)
    && p.paymentMethod != ""
    && p.referenceNumber != ""
    && p.description != ""
  }
}
