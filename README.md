# Running-balance ledger of a travel-agency back office

This project models the ledger of a travel agency's back-office API in Dafny and proves properties about it.
Each entity has its own running balance. An entity is an agent, or a ticket that acts as its own client account.
The ledger is an append-only collection of entries. Each entry carries the entity's balance just after the entry was posted.

The model covers:

- the `Ledger` and `Payment` schemas, with their enum and required-field validators (`LedgerModel`, `PaymentModel`);
- the latest-balance lookup and the running-balance chain (`LedgerBalance`);
- the three ledger writers: ticket charge, payment and manual entry. They are methods of the `Ledger` class, which holds the Ledger and Payment collections (`LedgerController`);
- the pagination of `getLedgerByEntity` (`LedgerQuery`);
- `handleLedgerDifference`, which turns a change in a ticket's price or fee into one corrective posting (`LedgerDifference`);
- the `Tickets` schema and its partial unique index on `ticketNumber`, as the `TicketStore` class (`TicketsModel`);
- `createTicket` and `updateTicket`: number trimming, the duplicate-number rule, and the postings a ticket create or update makes (`TicketsController`).

How the store is modelled:

- Every save runs the schema's validators first. A document that fails them is not stored and the caller receives an error.
- The store's clock gives each saved entry its `createdAt`, and the clock advances on every save. Append order is therefore creation order. `LatestIsNewest` proves that the last entry of an entity in append order is its newest by `createdAt`.
- `createLedgerEntryWithType` is the recorder that ticket creation and ticket update call. It is imported from `src/controllers/ledgerController.ts` but not defined there, so it is not part of this model. The recorder is assumed to add the amount for a debit, subtract it for a credit and keep the balance for any other type, and to save the entry through the Ledger schema (`LedgerBalance.Recorded`, `Ledger.RecordWithType`).
- The Ledger schema's `transactionType` enum holds only `debit` and `credit`. So a `no-effect` entry is refused whatever its balance (`NoEffectIsRefused`), and no proved property depends on the balance the recorder would give it. This conflict between the schema and the agent-card postings is kept, not resolved. Its consequences are proved:
  - ticket creation with an agent card posts neither the price nor the fee (`AgentCardBlocksCreatePostings`);
  - an agent-card price change makes `updateTicket` fail after the ticket is already updated (`AgentCardPriceChangeFails`).

Behaviour of the code worth noting:

- The entity tags are `"Agents"`/`"Tickets"` in the Ledger schema and `"Agents"`/`"Client"` in the Payment schema. A payment therefore completes only for an agent (`PaymentCompletesOnlyForAgents`). For `"Client"`, the Payment is stored and the ledger credit is refused. For `"Tickets"`, the credit is stored and the Payment is refused.
- No validator demands a non-negative amount.
- `recordPayment` takes no date: the Payment's `paymentDate` and the ledger entry's `date` both default to the time of the call (`RecordPayment` gives both the same clock value).
- `handleLedgerDifference` itself posts a zero difference as a credit of 0 (`ZeroDifferenceIsZeroCredit`). The zero check is made by `updateTicket`.
- A fee posting on ticket creation is skipped when the price posting before it fails, because both sit in one `try` block.
- `createTicket` charges the raw `agent` id of the request, but `updateTicket` charges the agent of the populated ticket, which reads as null when no Agents document has that id. After an agent is deleted, a ticket's creation charge and its later corrections therefore go to different accounts (`DeletedAgentSplitsAccounts`); while the agent exists they go to the same one (`PopulatedKeepsAccount`).
- The partial unique index on `ticketNumber` is taken as declared in `src/models/ticketsModel.ts:89-97`, with the two all-zero numbers exempt. Whether the database accepts its `$nin` filter expression is outside this model.
- In `src/routes/ledgerRoutes.ts:23` the route declares no `:entityId` parameter, so the handler as routed always takes its error path. The model takes `entityId` as an input.

## Model

| member | source | states |
|---|---|---|
| LedgerModel.DateDefaultsToCreation | src/models/ledgerModel.ts:49-59 | `date` is the supplied date or, when absent, the creation time; `createdAt` is always the creation time |
| LedgerModel.EntityTypeIsAgentsOrTickets | src/models/ledgerModel.ts:22-26 | an entry passes validation only if `entityType` is `Agents` or `Tickets`; any other tag is refused |
| LedgerModel.NoEffectIsRefused | src/models/ledgerModel.ts:32-36 | only `debit` and `credit` entries pass validation; a `no-effect` entry is refused |
| LedgerModel.TicketIdIsOptional | src/models/ledgerModel.ts:27-31 | an entry with no `ticketId` is valid exactly when the same entry with one is |
| LedgerBalance.Latest | src/controllers/ledgerController.ts:43-45 | the entry found for an entity is stored and belongs to that entity |
| LedgerBalance.BalanceOf | src/controllers/ledgerController.ts:43-47 | the current balance is 0 or the balance on one of the entity's entries, and it is the last entry's balance when that entry is the entity's |
| LedgerBalance.LatestIsNewest | src/controllers/ledgerController.ts:43-47 | when append order is creation order, the latest entry has the greatest `createdAt` of the entity's entries, and there is none exactly when the entity has no entries |
| LedgerBalance.BalanceAfterAppend | src/controllers/ledgerController.ts:43-62 | appending an entry sets its entity's balance to the entry's balance and leaves every other entity's balance unchanged |
| LedgerBalance.BalanceDependsOnlyOnOwnEntries | src/controllers/ledgerController.ts:43-47 | an entity's balance is determined by that entity's entries alone |
| LedgerBalance.ChainedPrefix | src/controllers/ledgerController.ts:43-62 | every prefix of a chained ledger is chained |
| LedgerBalance.ChainedAppend | src/controllers/ledgerController.ts:43-62 | appending an entry whose balance is the previous balance plus its signed amount keeps the chain |
| LedgerBalance.BalanceIsNet | src/controllers/ledgerController.ts:43-48 | in a chained ledger an entity's current balance equals the sum of its debits minus its credits, starting from 0 |
| LedgerBalance.FirstEntryStartsFromZero | src/controllers/ledgerController.ts:47-48 | an entity's first entry has as balance its own signed amount |
| LedgerBalance.StoreAppend | src/controllers/ledgerController.ts:62 | saving a valid, chained entry at the clock keeps validity, creation order and the chain |
| LedgerBalance.Recorded | src/controllers/ticketsController.ts:489-497 | the recorder's entry: valid exactly when both enums and the required strings are met; balance raised by a debit, lowered by a credit, kept for any other type; dated and created at the clock |
| LedgerBalance.Commit | src/controllers/ticketsController.ts:470-519 | posting a sequence only appends, at most one entry per posting, and all of them exactly when it succeeds |
| LedgerBalance.CommitKeepsInvariant | src/controllers/ticketsController.ts:485-516 | recorder postings keep the ledger valid, in creation order and chained |
| LedgerBalance.CommitMovesBalanceByNet | src/controllers/ticketsController.ts:489-497 | when all postings are accepted each entity's balance moves by exactly the net of its postings |
| LedgerBalance.CommitConcat | src/controllers/ticketsController.ts:470-519 | posting two groups in turn equals posting them together, and the second group is not attempted after a refusal |
| LedgerBalance.CommitStopsAtNoEffect | src/controllers/ticketsController.ts:487-497 | a posting whose type is neither debit nor credit is refused and nothing after it is posted |
| LedgerController.Ledger.LatestBalance | src/controllers/ledgerController.ts:43-47 | returns the balance of the entity's latest entry, or 0 when it has none |
| LedgerController.Ledger.Save | src/controllers/ledgerController.ts:62 | a valid entry is appended and the clock advances; an invalid one changes nothing and yields a validation error |
| LedgerController.Ledger.CreateTicketLedgerEntry | src/controllers/ledgerController.ts:34-68 | appends one debit entry tied to the ticket, with balance = current + amount and description `Ticket charge - ref`; it fails only for a bad entity type or an empty reference |
| LedgerController.Ledger.RecordPayment | src/controllers/ledgerController.ts:70-133 | stores the Payment if it is valid, and appends the credit with balance = current − amount if that is valid; both carry the same entity, amount and reference; success only when both are saved |
| LedgerController.ChargeThenPayment | src/controllers/ledgerController.ts:34-133 | on a new agent, a ticket charge of 500 followed by a payment of 200 leaves a current balance of 300, read back as the lookup of :43-47 reads it |
| LedgerController.Ledger.CreateManualLedgerEntry | src/controllers/ledgerController.ts:398-450 | appends one entry of the given entity, type, amount, description and reference, with no ticket, balance = current − amount for a credit and current + amount otherwise, dated as supplied or now, created now, and the clock advances; it fails, with a validation error and no change, exactly when validation does |
| LedgerController.Ledger.RecordWithType | src/controllers/ticketsController.ts:489-497 | one recorder call is one posting step: the ledger afterwards is the committed outcome |
| LedgerController.PaymentCompletesOnlyForAgents | src/controllers/ledgerController.ts:94-117 | both of a payment's documents can pass validation only for the entity type `Agents` |
| LedgerController.ManualRuleFollowsChain | src/controllers/ledgerController.ts:418-423 | for debit and credit the manual-entry rule is the running-balance rule |
| LedgerQuery.AtLeastOne | src/controllers/ledgerController.ts:166-167 | the result is the larger of the value and 1: at least both, and equal to one of them |
| LedgerQuery.Matching | src/controllers/ledgerController.ts:190-197 | an entry is selected exactly when it is a stored entry of the entity inside the date window |
| LedgerQuery.Reverse | src/controllers/ledgerController.ts:197-198 | the newest-first order is the append order reversed |
| LedgerQuery.PageOf | src/controllers/ledgerController.ts:197-200 | `.skip(skip).limit(limit)`: the page is the rows from `skip` up to `skip + limit`, both cut at the end of the rows; at most `limit` of them, all taken from the rows; the handler skips (page − 1)·limit rows |
| LedgerQuery.GetLedgerByEntity | src/controllers/ledgerController.ts:135-241 | no entity id gives an error; otherwise `currentPage` and `pageSize` are the clamped request values (defaults 1 and 10), `totalItems` counts all matches, `totalPages` is its ceiling over the page size, and `ledgers` is that page of the matches newest first, all of them the entity's and in the window |
| LedgerQuery.TotalPagesIsCeiling | src/controllers/ledgerController.ts:237 | `totalPages` pages of `limit` hold every item and one fewer page would not |
| LedgerQuery.FirstPagesArePrefix | src/controllers/ledgerController.ts:199-200 | pages 1..k together are the first k·limit rows |
| LedgerQuery.PagesCoverEverything | src/controllers/ledgerController.ts:197-238 | reading pages 1..totalPages returns every matching entry once, in order |
| LedgerQuery.PageBeyondLastIsEmpty | src/controllers/ledgerController.ts:199-200 | a page number past `totalPages` returns no entries |
| LedgerQuery.MatchingKeepsOrder | src/controllers/ledgerController.ts:190-197 | filtering keeps creation order |
| LedgerQuery.ReverseIsDescending | src/controllers/ledgerController.ts:198 | reversing a creation-ordered list gives newest first |
| LedgerQuery.PageIsDescending | src/controllers/ledgerController.ts:199-200 | a page of a newest-first list is newest first |
| LedgerQuery.NewestFirst | src/controllers/ledgerController.ts:197-200 | every returned page is sorted by `createdAt`, newest first |
| LedgerDifference.DifferencePosting | src/helpers/handleLedgerDifference.ts:14-45 | passes entity, type, ticket and reference through; amount = |difference| ≥ 0; agent card gives no-effect; otherwise the posting's signed effect equals the difference; the description embeds prefix and difference |
| LedgerDifference.ClassifyBySign | src/helpers/handleLedgerDifference.ts:25-29 | without an agent card: debit exactly when difference > 0, credit exactly when ≤ 0 |
| LedgerDifference.AgentCardIsNoEffect | src/helpers/handleLedgerDifference.ts:25-26 | the type is no-effect exactly when the agent-card flag is set, whatever the sign |
| LedgerDifference.ZeroDifferenceIsZeroCredit | src/helpers/handleLedgerDifference.ts:27-32 | a zero difference passed directly becomes a credit of 0 |
| LedgerDifference.DecimalRoundTrip | src/helpers/handleLedgerDifference.ts:35 | the signed difference written into the description reads back exactly |
| LedgerDifference.NatStringRoundTrip | src/helpers/handleLedgerDifference.ts:35 | the digits written for a non-negative number read back as that number |
| LedgerDifference.CorrectionMovesBalanceByDifference | src/helpers/handleLedgerDifference.ts:25-45 | an accepted correction moves its entity's balance by exactly the difference and no other entity's |
| LedgerDifference.AgentCardCorrectionIsRefused | src/helpers/handleLedgerDifference.ts:25-45 | an agent-card correction is refused by the Ledger schema and posts nothing |
| LedgerDifference.HandleLedgerDifference | src/helpers/handleLedgerDifference.ts:14-50 | one recorder call with the difference posting, `isAgentCard` defaulting to false; a refusal is returned as an error |
| TicketsModel.Lookup | src/controllers/ticketsController.ts:569 | finds a stored ticket with the id, and none exactly when no ticket has it |
| TicketsModel.Patched | src/controllers/ticketsController.ts:595-599 | keeps the id and sets the owner to the caller; each modelled field given in the body, the provider fee included, overwrites the stored value (a numeric string is cast into the cost or fee, a `null` provider fee clears it), and each absent field keeps it |
| TicketsModel.EmptyPatchSetsOnlyOwner | src/controllers/ticketsController.ts:595-599 | a body with none of the modelled fields changes only the owner |
| TicketsModel.PatchIsIdempotent | src/controllers/ticketsController.ts:595-599 | applying the same body twice is applying it once |
| TicketsModel.InsertKeepsUnique | src/models/ticketsModel.ts:89-97 | inserting a ticket whose number is all-zero or unused keeps the partial unique index |
| TicketsModel.ReplaceKeepsUnique | src/models/ticketsModel.ts:89-97 | replacing a ticket by one whose number is all-zero or held by no other ticket keeps the index and the distinct ids |
| TicketsModel.TicketStore.FindByNumber | src/controllers/ticketsController.ts:451-453 | reports exactly whether a stored ticket has the number |
| TicketsModel.TicketStore.FindById | src/controllers/ticketsController.ts:569 | returns the stored ticket with the id, or none |
| TicketsModel.TicketStore.Create | src/models/ticketsModel.ts:37-97 | a ticket with an empty required string is refused by validation; an unexempt number already in use is refused by the index; otherwise the ticket is appended with a fresh id |
| TicketsModel.TicketStore.FindByIdAndUpdate | src/controllers/ticketsController.ts:595-601 | an unknown id changes nothing; a number held by another ticket is refused by the index; otherwise the ticket is replaced by its patched form |
| TicketsController.LeadingWhitespace | src/controllers/ticketsController.ts:442 | counts the white space the number starts with: every counted character is white space and the next one is not |
| TicketsController.TrailingWhitespace | src/controllers/ticketsController.ts:442 | counts the white space the number ends with: every counted character is white space and the one before is not |
| TicketsController.Trim | src/controllers/ticketsController.ts:442-443 | the normalised number is a contiguous piece of the input, everything around it is white space, and neither of its ends is white space |
| TicketsController.TrimKeepsTrimmed | src/controllers/ticketsController.ts:442-443 | a number without surrounding white space is unchanged |
| TicketsController.TrimIsIdempotent | src/controllers/ticketsController.ts:442-443 | normalising twice is normalising once |
| TicketsController.FindMethod | src/controllers/ticketsController.ts:474-477 | returns a stored payment-method record with that id and owner, and none exactly when no record has both |
| TicketsController.IsAgentCardIffOwnedAgentCard | src/controllers/ticketsController.ts:471-482 | with unique record ids, the payment counts as made by agent card exactly when an id is given and the caller owns a record with that id of type `Agent Card` |
| TicketsController.ChargedEntity | src/controllers/ticketsController.ts:490-491 | the account is the agent, tagged `Agents`, when there is one, and otherwise the ticket itself, tagged `Tickets` |
| TicketsController.CreatePostings | src/controllers/ticketsController.ts:485-516 | price posting iff agent or Partial, for `consumerCost`, no-effect iff agent card and debit otherwise; fee posting iff Refund/Re-Issue with a fee, always debit; all against the agent or else the ticket |
| TicketsController.CreateRefusal | src/controllers/ticketsController.ts:434-464 | refusal for an invalid request exactly when it is invalid; no refusal exactly when the request is valid, the required strings are present and the number is all-zero or unused; "Ticket already exists" only for a used number on a non-Refund |
| TicketsController.CreatedTicketKeepsUnique | src/models/ticketsModel.ts:89-97 | a ticket createTicket lets through never breaks number uniqueness |
| TicketsController.DuplicateIsRefusedBeforeWrite | src/controllers/ticketsController.ts:446-459 | a used number that is not all zeros on a non-Refund is answered "Ticket already exists" |
| TicketsController.RefundDuplicateIsRefusedByIndex | src/controllers/ticketsController.ts:446-464 | a Refund skips that check, but a used number that is not all zeros is still refused, by the index |
| TicketsController.ZeroNumbersMayRepeat | src/models/ticketsModel.ts:89-97 | a valid ticket with an all-zero number is never refused for its number |
| TicketsController.CreateTicket | src/controllers/ticketsController.ts:432-529 | a refused request writes nothing; otherwise the trimmed ticket is stored and its postings are made in order, and the result is success even when a posting fails |
| TicketsController.Populated | src/controllers/ticketsController.ts:600-611 | the populated ticket keeps its agent exactly when an Agents document with that id exists, and is otherwise unchanged |
| TicketsController.PopulatedKeepsAccount | src/controllers/ticketsController.ts:606-611 | with no agent, or an existing one, an update charges the same account and tag as creation |
| TicketsController.DeletedAgentSplitsAccounts | src/controllers/ticketsController.ts:606-611 | when the agent's document is gone, creation charges the agent (`Agents`) but an update charges the ticket (`Tickets`) |
| TicketsController.UpdatePostings | src/controllers/ticketsController.ts:629-650 | one correction per non-zero delta against the account of the ticket it is given, tagged `Agents` or `Tickets` to match; the fee correction is never no-effect |
| TicketsController.Corrections | src/controllers/ticketsController.ts:576-650 | one correction for a cost given as a JSON number that differs from the stored cost, one for a fee given as a number that differs from the stored fee (absent counts as 0), all against the populated ticket's account, with its tag, and tied to the ticket |
| TicketsController.PostCorrections | src/controllers/ticketsController.ts:629-650 | the price correction and then the fee correction are posted; the first error is returned before the second is attempted |
| TicketsController.UpdateTicket | src/controllers/ticketsController.ts:563-661 | an unknown id gives not-found; an index clash changes nothing; otherwise the ticket is updated first and the corrections are posted against the populated ticket's account, with success exactly when all are accepted |
| TicketsController.UnchangedValuesPostNothing | src/controllers/ticketsController.ts:576-592 | a body with no new number for cost or fee posts nothing |
| TicketsController.NumericStringCostIsNotPosted | src/controllers/ticketsController.ts:580-583 | a cost sent as a numeric string is stored but no correction is posted |
| TicketsController.UpdatePostingsNet | src/controllers/ticketsController.ts:629-650 | without an agent card the corrections net to the cost delta plus the fee delta |
| TicketsController.UpdateMovesBalanceByChange | src/controllers/ticketsController.ts:576-650 | after accepted corrections the account's balance has moved by exactly the change in cost plus the change in fee |
| TicketsController.AgentCardPriceChangeFails | src/controllers/ticketsController.ts:614-639 | with an agent card a price change posts nothing and the update reports failure |
| TicketsController.CreateMovesBalance | src/controllers/ticketsController.ts:485-516 | without an agent card, accepted creation postings move the account by the posted price and fee |
| TicketsController.AgentCardBlocksCreatePostings | src/controllers/ticketsController.ts:470-519 | with an agent card and a price posting, nothing is posted on creation, not even the fee |
| TicketsController.PartialTicketChargesItself | src/controllers/ticketsController.ts:485-497 | a Partial ticket without an agent or a fee rule is charged its cost, whatever it is, as a debit on its own account |
| TicketsController.FullTicketWithoutAgentPostsNothing | src/controllers/ticketsController.ts:485 | a non-Partial ticket with no agent and no fee rule posts nothing |
| TicketsController.RefundFeeIsChargedToAgent | src/controllers/ticketsController.ts:500-516 | a Refund with an agent and any fee posts that fee as a separate debit against the agent, whatever the payment type |

## Left out

- HTTP framing, status codes and response bodies beyond success or error, routes, CORS and cookies. `console` logging is left out too.
- Authentication: JWT and bcrypt are foreign library calls. The caller's user id is an input.
- `getLedgers`, `getLedgerSummary`, `getTickets` and the dashboard are database-side aggregations and regex searches. They are reporting projections outside this model.
- PDF receipts and the CRUD controllers for agents, providers, users and payment methods. They are I/O and pass-throughs to Mongoose.
- `createTicketx` and `updateTicketx` are superseded revisions that no route uses.
- Concurrency is not modelled. The race between reading the latest entry and appending is out, and so is the interleaving of the two saves in `recordPayment`. The model is single-threaded and sequential.
- `createLedgerEntryWithType` is imported from `src/controllers/ledgerController.ts` but not defined there, so it is not part of this model. Its balance rule is the stated assumption in `LedgerBalance.Recorded`.
- The Agents collection is represented only by the set of agent ids that exist, which is what `populate("agent")` consults. The PaymentMethodDropdown collection is a sequence of records with id, owner and type.
- `createTicketSchema` is imported by `src/controllers/ticketsController.ts:10` from `./schema`, but `src/controllers/schema.ts` defines only `addUserSchema` and `loginSchema`. As the code stands, `createTicketSchema.validate` at :434 throws inside the `try`, so every `createTicket` call takes its error path before any write. The model assumes the Joi schema exists, and its verdict is the boolean input `requestValid` of `CreateTicket`.
- Amounts are unbounded integers. JavaScript floating point, fractional amounts and `NaN` from `parseInt` are not modelled.
- ObjectId cast errors on malformed ids are not modelled.
- LedgerController.Ledger.CreateManualLedgerEntry: `date` is taken as an already-parsed time or none. A `date` string that `new Date(date)` cannot parse (`src/controllers/ledgerController.ts:434`) gives an Invalid Date, and the save then fails with a cast error. That failure is not modelled.
- Creation times are a counter. Millisecond timestamps that tie are not modelled.
- LedgerQuery.GetLedgerByEntity: takes page, limit and the date bounds already parsed. The day rounding of `setHours` and the test for invalid dates are not modelled.
- LedgerQuery.GetLedgerByEntity: populating ticket and entity names has no effect on the returned entries and is left out.
- TicketsModel.Patched: an update body that sets `consumerCost` or `consumerFee` to `null` is not modelled. Mongoose casts an empty string to `null` as well. The update runs no validators, so the null is stored and nothing is posted. The stored cost is an `int`, so the `existingTicket.consumerCost || 0` fallback at `src/controllers/ticketsController.ts:576` never applies. A later update that sets a cost again is therefore not modelled either: the code posts that whole cost as the difference. The fee's `|| 0` fallback is modelled, for a fee that was never set. A non-empty, non-numeric string in `consumerCost` or `consumerFee` makes the update fail with a cast error before anything is written, and it is not modelled either. Nor are the descriptive ticket fields (names, dates, airline code, PNR and the like), which only feed validation.
- The Payment document's own timestamps are not modelled, and neither is the casting of `relatedTickets`.
