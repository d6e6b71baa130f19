/** Shared vocabulary: document identifiers, optional values and the failures the controllers report. */
module Types {

  /** A MongoDB ObjectId. Agents, tickets and ledger entries draw from one identifier space. */
  type Id = nat

  datatype Option<+T> = None | Some(value: T) {
    /** The value, or `default` when absent (the `x || d` and `x ?? d` idioms of the source). */
    function GetOr(default: T): T {
      if Some? then value else default
    }
  }

  /** Why an operation failed. The HTTP status code attached to each is not modelled. */
  datatype Failure =
    | InvalidRequest    // the request body was rejected before any read or write
    | ValidationError   // a document failed its schema's enum or required validators on save
    | DuplicateKey      // the partial unique index on ticketNumber refused an insert or update
    | TicketExists      // createTicket's own duplicate-number check
    | TicketNotFound    // updateTicket found no ticket with the given id
    | MissingEntityId   // getLedgerByEntity was called without an entity id

  datatype Result<+T> = Ok(value: T) | Err(error: Failure)
}
