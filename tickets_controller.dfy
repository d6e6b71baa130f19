/**
 * The ticket controller's createTicket and updateTicket: ticket-number
 * normalisation, the duplicate-number rule, and the ledger postings a
 * ticket create or update makes.
 */
module TicketsController {
  import opened Types
  import opened LedgerModel
  import opened LedgerBalance
  import opened LedgerController
  import opened LedgerDifference
  import opened TicketsModel

  const Refund := "Refund"
  const ReIssue := "Re-Issue"
  const Partial := "Partial"
  const AgentCard := "Agent Card"

  /** The characters `String.prototype.trim` removes: ECMAScript white space and line terminators. */
  predicate IsWhitespace(c: char) {
    || ('\t' <= c <= '\r') || c == ' ' || c == '\U{00A0}' || c == '\U{1680}'
    || ('\U{2000}' <= c <= '\U{200A}') || ('\U{2028}' <= c <= '\U{2029}') || c == '\U{202F}'
    || c == '\U{205F}' || c == '\U{3000}' || c == '\U{FEFF}'
  }

  /** The number of white-space characters `s` starts with. */
  function LeadingWhitespace(s: string): (n: nat)
    ensures n <= |s|
    ensures forall i :: 0 <= i < n ==> IsWhitespace(s[i])
    ensures n < |s| ==> !IsWhitespace(s[n])
  {
    if s != [] && IsWhitespace(s[0]) then 1 + LeadingWhitespace(s[1..]) else 0
  }

  /** The number of white-space characters `s` ends with. */
  function TrailingWhitespace(s: string): (n: nat)
    ensures n <= |s|
    ensures forall i :: |s| - n <= i < |s| ==> IsWhitespace(s[i])
    ensures n < |s| ==> !IsWhitespace(s[|s| - n - 1])
  {
    if s != [] && IsWhitespace(s[|s| - 1]) then 1 + TrailingWhitespace(s[..|s| - 1]) else 0
  }

  /**
   * `String.prototype.trim`: the result is the piece of `s` that starts at
   * `k`, everything before and after it is white space, and neither of its
   * ends is.
   */
  function Trim(s: string): (r: string)
    ensures var k := LeadingWhitespace(s);
            && k + |r| <= |s| && r == s[k..k + |r|]
            && (forall i :: 0 <= i < k ==> IsWhitespace(s[i]))
            && (forall i :: k + |r| <= i < |s| ==> IsWhitespace(s[i]))
    ensures r != [] ==> !IsWhitespace(r[0]) && !IsWhitespace(r[|r| - 1])
  {
    var a := LeadingWhitespace(s);
    var b := TrailingWhitespace(s[a..]);
    TailOfPiece(s, a, b);
    s[a..|s| - b]
  }

  /** What ends the piece of `s` after `a` ends `s` itself. */
  lemma TailOfPiece(s: string, a: nat, b: nat)
    requires a <= |s| && b <= |s| - a
    requires forall i :: |s[a..]| - b <= i < |s[a..]| ==> IsWhitespace(s[a..][i])
    requires b < |s| - a ==> !IsWhitespace(s[a..][|s| - a - b - 1])
    ensures forall i :: |s| - b <= i < |s| ==> IsWhitespace(s[i])
    ensures b < |s| - a ==> !IsWhitespace(s[|s| - b - 1])
  {
    forall i | |s| - b <= i < |s| ensures IsWhitespace(s[i]) {
      assert s[i] == s[a..][i - a];
    }
    if b < |s| - a {
      assert s[|s| - b - 1] == s[a..][|s| - a - b - 1];
    }
  }

  /** A string whose ends are not white space is its own trim. */
  lemma TrimKeepsTrimmed(s: string)
    requires s != [] ==> !IsWhitespace(s[0]) && !IsWhitespace(s[|s| - 1])
    ensures Trim(s) == s
  {
  }

  /** Normalising twice is normalising once. */
  lemma TrimIsIdempotent(s: string)
    ensures Trim(Trim(s)) == Trim(s)
  {
    TrimKeepsTrimmed(Trim(s));
  }

  /** The controller's own duplicate check runs unless the number is all zeros or the operation is a Refund. */
  predicate DuplicateCheckApplies(number: string, operationType: string) {
    number != ZeroNumber13 && number != ZeroNumber16 && operationType != Refund
  }

  /** A PaymentMethodDropdown record: its `_id`, its owner and its `type`. */
  datatype PaymentMethod = PaymentMethod(id: string, user: Id, kind: string)

  /** `PaymentMethodDropdown.findOne({ _id: key, user })`: the first record with that id and owner. */
  function FindMethod(methods: seq<PaymentMethod>, key: string, user: Id): (r: Option<PaymentMethod>)
    ensures r.Some? ==> r.value in methods && r.value.id == key && r.value.user == user
    ensures r.None? <==> forall i :: 0 <= i < |methods| ==> !(methods[i].id == key && methods[i].user == user)
  {
    if methods == [] then None
    else if methods[0].id == key && methods[0].user == user then Some(methods[0])
    else FindMethod(methods[1..], key, user)
  }

  /** `if (paymentToProvider)`, find the caller's record with that id and compare its type with "Agent Card". */
  function IsAgentCard(methods: seq<PaymentMethod>, paymentToProvider: string, user: Id): bool {
    if paymentToProvider == "" then false
    else
      var m := FindMethod(methods, paymentToProvider, user);
      m.Some? && m.value.kind == AgentCard
  }

  /** Record ids are unique, as `_id` is in every collection. */
  ghost predicate UniqueMethodIds(methods: seq<PaymentMethod>) {
    forall i, j :: 0 <= i < j < |methods| ==> methods[i].id != methods[j].id
  }

  /**
   * With unique ids, the payment counts as made with an agent's card exactly
   * when an id is given and the caller owns a record with that id whose type
   * is "Agent Card".
   */
  lemma IsAgentCardIffOwnedAgentCard(methods: seq<PaymentMethod>, key: string, user: Id)
    requires UniqueMethodIds(methods)
    ensures IsAgentCard(methods, key, user)
            <==> key != "" && exists i :: 0 <= i < |methods| && methods[i].id == key
                                          && methods[i].user == user && methods[i].kind == AgentCard
  {
    var m := FindMethod(methods, key, user);
    if key != "" && m.Some? {
      var j :| 0 <= j < |methods| && methods[j] == m.value;
      forall i | 0 <= i < |methods| && methods[i].id == key && methods[i].user == user
        ensures methods[i].kind == m.value.kind
      {
        assert i == j;
      }
    }
  }

  /** The account a ticket's postings go to: its agent, or the ticket itself. */
  function ChargedEntity(t: Ticket): (r: Id)
    ensures t.agent.Some? ==> r == t.agent.value && ChargedEntityType(t) == Agents
    ensures t.agent.None? ==> r == t.id && ChargedEntityType(t) == Tickets
  {
    if t.agent.Some? then t.agent.value else t.id
  }

  function ChargedEntityType(t: Ticket): string {
    if t.agent.Some? then Agents else Tickets
  }

  predicate PostsPrice(t: Ticket) {
    t.agent.Some? || t.paymentType == Partial
  }

  predicate PostsFee(t: Ticket) {
    (t.operationType == Refund || t.operationType == ReIssue) && t.consumerFee.Some?
  }

  function PricePosting(t: Ticket, isAgentCard: bool): Posting {
    Posting(ChargedEntity(t), ChargedEntityType(t), Some(t.id), t.consumerCost, t.ticketNumber,
            t.operationType + " - Price - " + t.ticketNumber, if isAgentCard then NoEffect else Debit)
  }

  function FeePosting(t: Ticket): Posting
    requires t.consumerFee.Some?
  {
    Posting(ChargedEntity(t), ChargedEntityType(t), Some(t.id), t.consumerFee.value, t.ticketNumber,
            t.operationType + " - Fee - " + t.ticketNumber, Debit)
  }

  /**
   * The postings a created ticket makes: a price posting exactly when it has
   * an agent or is paid Partial (no-effect exactly for an agent card), and a
   * fee posting, always a debit, exactly for a Refund or Re-Issue with a fee.
   */
  function CreatePostings(t: Ticket, isAgentCard: bool): (ps: seq<Posting>)
    ensures |ps| == (if PostsPrice(t) then 1 else 0) + (if PostsFee(t) then 1 else 0)
    ensures forall p :: p in ps ==>
              && p.entityId == (if t.agent.Some? then t.agent.value else t.id)
              && p.entityType == (if t.agent.Some? then Agents else Tickets)
              && p.ticketId == Some(t.id) && p.referenceNumber == t.ticketNumber
    ensures PostsPrice(t) ==> ps[0].amount == t.consumerCost
                              && (ps[0].transactionType == NoEffect <==> isAgentCard)
                              && (ps[0].transactionType == Debit <==> !isAgentCard)
    ensures PostsFee(t) ==> ps[|ps| - 1].amount == t.consumerFee.value && ps[|ps| - 1].transactionType == Debit
  {
    (if PostsPrice(t) then [PricePosting(t, isAgentCard)] else [])
    + (if PostsFee(t) then [FeePosting(t)] else [])
  }

  /** The request as stored: number trimmed, owner set to the caller. */
  function Normalized(request: Ticket, user: Id): Ticket {
    request.(ticketNumber := Trim(request.ticketNumber), user := user)
  }

  /**
   * Why createTicket refuses `draft` (already normalised) against the stored
   * tickets `ts`, in the order the checks run; None when it is created.
   */
  function CreateRefusal(ts: seq<Ticket>, draft: Ticket, requestValid: bool): (r: Option<Failure>)
    ensures r == Some(InvalidRequest) <==> !requestValid
    ensures r.None? <==> && requestValid && RequiredPresent(draft)
                         && (IndexExempt(draft.ticketNumber) || !NumberUsed(ts, draft.ticketNumber))
    ensures r == Some(TicketExists) ==> draft.operationType != Refund && NumberUsed(ts, draft.ticketNumber)
  {
    if !requestValid then Some(InvalidRequest)
    else if DuplicateCheckApplies(draft.ticketNumber, draft.operationType) && NumberUsed(ts, draft.ticketNumber) then
      Some(TicketExists)
    else if !RequiredPresent(draft) then Some(ValidationError)
    else if !IndexExempt(draft.ticketNumber) && NumberUsed(ts, draft.ticketNumber) then Some(DuplicateKey)
    else None
  }

  /** A ticket that createTicket lets through never breaks the uniqueness of ticket numbers. */
  lemma CreatedTicketKeepsUnique(ts: seq<Ticket>, draft: Ticket, requestValid: bool)
    requires UniqueNumbers(ts)
    requires CreateRefusal(ts, draft, requestValid).None?
    ensures UniqueNumbers(ts + [draft])
  {
    InsertKeepsUnique(ts, draft);
  }

  /** A number already in use is answered by the controller's own check, before any write, unless exempt. */
  lemma DuplicateIsRefusedBeforeWrite(ts: seq<Ticket>, draft: Ticket)
    requires DuplicateCheckApplies(draft.ticketNumber, draft.operationType) && NumberUsed(ts, draft.ticketNumber)
    ensures CreateRefusal(ts, draft, true) == Some(TicketExists)
  {
  }

  /** A Refund skips the controller's check, but a used number that is not all zeros is still refused, by the index. */
  lemma RefundDuplicateIsRefusedByIndex(ts: seq<Ticket>, draft: Ticket)
    requires draft.operationType == Refund && RequiredPresent(draft)
    requires !IndexExempt(draft.ticketNumber) && NumberUsed(ts, draft.ticketNumber)
    ensures CreateRefusal(ts, draft, true) == Some(DuplicateKey)
  {
  }

  /** The two all-zero numbers may repeat: a valid request with one is never refused for its number. */
  lemma ZeroNumbersMayRepeat(ts: seq<Ticket>, draft: Ticket)
    requires RequiredPresent(draft) && IndexExempt(draft.ticketNumber)
    ensures CreateRefusal(ts, draft, true).None?
  {
  }

  /**
   * createTicket. A refused request writes nothing. A created ticket is
   * stored with its trimmed number, then its postings are made one after the
   * other; a refused posting stops the rest, and the ticket is still reported
   * created.
   */
  method CreateTicket(store: TicketStore, ledger: Ledger, request: Ticket, requestValid: bool, user: Id,
                      methods: seq<PaymentMethod>)
    returns (r: Result<Ticket>)
    requires store.Valid() && ledger.Valid()
    modifies store, ledger
    ensures store.Valid() && ledger.Valid() && ledger.payments == old(ledger.payments)
    ensures var draft := Normalized(request, user).(id := old(store.nextId));
            var refusal := CreateRefusal(old(store.tickets), draft, requestValid);
            if refusal.Some? then
              && r == Err(refusal.value) && store.tickets == old(store.tickets)
              && ledger.entries == old(ledger.entries) && ledger.clock == old(ledger.clock)
            else
              && r == Ok(draft) && store.tickets == old(store.tickets) + [draft]
              && var c := Commit(old(ledger.entries), old(ledger.clock),
                                 CreatePostings(draft, IsAgentCard(methods, draft.paymentToProvider, user)));
                 ledger.entries == c.entries && ledger.clock == c.clock
  {
    if !requestValid {
      return Err(InvalidRequest);
    }
    var number := Trim(request.ticketNumber);
    var value := request.(ticketNumber := number, user := user);
    if DuplicateCheckApplies(number, value.operationType) {
      var existing := store.FindByNumber(number);
      if existing {
        return Err(TicketExists);
      }
    }
    var created := store.Create(value);
    if created.Err? {
      return Err(created.error);
    }
    var t := created.value;

    var isAgentCard := false;
    if value.paymentToProvider != "" {
      isAgentCard := IsAgentCard(methods, value.paymentToProvider, user);
    }
    ghost var s0, c0 := ledger.entries, ledger.clock;
    var price := if PostsPrice(t) then [PricePosting(t, isAgentCard)] else [];
    var fee := if PostsFee(t) then [FeePosting(t)] else [];
    var failed := false;
    if PostsPrice(t) {
      var posted := ledger.RecordWithType(PricePosting(t, isAgentCard));
      failed := posted.Err?;
    }
    if !failed && PostsFee(t) {
      var posted := ledger.RecordWithType(FeePosting(t));
    }
    CommitConcat(s0, c0, price, fee);
    r := Ok(t);
  }

  /**
   * The updated ticket as `populate("agent")` returns it: the agent stays
   * only when an Agents document with that id exists (`agents`), otherwise
   * it reads as null.
   */
  function Populated(t: Ticket, agents: set<Id>): (r: Ticket)
    ensures r.agent.Some? <==> t.agent.Some? && t.agent.value in agents
    ensures r.agent.Some? ==> r.agent == t.agent
    ensures r.(agent := t.agent) == t
  {
    if t.agent.Some? && t.agent.value in agents then t else t.(agent := None)
  }

  /** When the agent document exists, or there is no agent, an update charges the account creation charged. */
  lemma PopulatedKeepsAccount(t: Ticket, agents: set<Id>)
    requires t.agent.None? || t.agent.value in agents
    ensures ChargedEntity(Populated(t, agents)) == ChargedEntity(t)
    ensures ChargedEntityType(Populated(t, agents)) == ChargedEntityType(t)
  {
  }

  /**
   * When the agent's document is gone, createTicket charges the agent id but
   * updateTicket charges the ticket's own account.
   */
  lemma DeletedAgentSplitsAccounts(t: Ticket, agents: set<Id>)
    requires t.agent.Some? && t.agent.value !in agents
    ensures ChargedEntity(t) == t.agent.value && ChargedEntityType(t) == Agents
    ensures ChargedEntity(Populated(t, agents)) == t.id && ChargedEntityType(Populated(t, agents)) == Tickets
  {
  }

  /** `typeof body.x === "number" ? body.x : old`: only a JSON number counts as a new value. */
  function NewValue(field: NumField, previous: int): int {
    if field.Number? then field.n else previous
  }

  /**
   * The corrections an update makes against the updated ticket's account:
   * one per non-zero delta, price first; the agent card applies to the price
   * correction only.
   */
  function UpdatePostings(t: Ticket, costDiff: int, feeDiff: int, isAgentCard: bool): (ps: seq<Posting>)
    ensures |ps| == (if costDiff != 0 then 1 else 0) + (if feeDiff != 0 then 1 else 0)
    ensures forall p :: p in ps ==> p.entityId == ChargedEntity(t) && p.entityType == ChargedEntityType(t)
                                    && p.ticketId == Some(t.id)
    ensures feeDiff != 0 ==> ps[|ps| - 1].transactionType != NoEffect
  {
    (if costDiff != 0 then
       [DifferencePosting(costDiff, ChargedEntity(t), ChargedEntityType(t), t.id, t.ticketNumber, "Price", isAgentCard)]
     else [])
    + (if feeDiff != 0 then
         [DifferencePosting(feeDiff, ChargedEntity(t), ChargedEntityType(t), t.id, t.ticketNumber, "Fee", false)]
       else [])
  }

  /**
   * The corrections updateTicket posts when `existing` is updated with
   * `patch` by `user`, against the account of the populated ticket.
   */
  function Corrections(existing: Ticket, patch: TicketPatch, user: Id, methods: seq<PaymentMethod>,
                       agents: set<Id>): (ps: seq<Posting>)
    ensures |ps| == (if patch.consumerCost.Number? && patch.consumerCost.n != existing.consumerCost then 1 else 0)
                    + (if patch.consumerFee.Number? && patch.consumerFee.n != existing.consumerFee.GetOr(0) then 1 else 0)
    ensures forall p :: p in ps ==> p.entityId == ChargedEntity(Populated(Patched(existing, patch, user), agents))
                                    && p.entityType == ChargedEntityType(Populated(Patched(existing, patch, user), agents))
                                    && p.ticketId == Some(existing.id)
  {
    var oldCost := existing.consumerCost;
    var oldFee := existing.consumerFee.GetOr(0);
    UpdatePostings(Populated(Patched(existing, patch, user), agents),
                   NewValue(patch.consumerCost, oldCost) - oldCost,
                   NewValue(patch.consumerFee, oldFee) - oldFee,
                   IsAgentCard(methods, patch.paymentToProvider.GetOr(""), user))
  }

  /** Whether the index refuses the updated ticket. */
  predicate UpdateClash(ts: seq<Ticket>, t: Ticket) {
    !IndexExempt(t.ticketNumber) && NumberUsedByOther(ts, t.ticketNumber, t.id)
  }

  /**
   * The corrective postings of updateTicket, made through
   * handleLedgerDifference: price first, then fee; an error from the first
   * is returned before the second is attempted.
   */
  method PostCorrections(ledger: Ledger, existing: Ticket, patch: TicketPatch, user: Id,
                         methods: seq<PaymentMethod>, agents: set<Id>)
    returns (r: Result<()>)
    requires ledger.Valid()
    modifies ledger
    ensures ledger.Valid() && ledger.payments == old(ledger.payments)
    ensures var c := Commit(old(ledger.entries), old(ledger.clock),
                            Corrections(existing, patch, user, methods, agents));
            ledger.entries == c.entries && ledger.clock == c.clock && (r.Ok? <==> c.ok)
  {
    var oldCost := existing.consumerCost;
    var oldFee := existing.consumerFee.GetOr(0);
    var costDiff := NewValue(patch.consumerCost, oldCost) - oldCost;
    var feeDiff := NewValue(patch.consumerFee, oldFee) - oldFee;
    var t := Populated(Patched(existing, patch, user), agents);
    var isAgentCard := IsAgentCard(methods, patch.paymentToProvider.GetOr(""), user);
    assert Corrections(existing, patch, user, methods, agents) == UpdatePostings(t, costDiff, feeDiff, isAgentCard);
    r := PostDifferences(ledger, t, costDiff, feeDiff, isAgentCard);
  }

  /** The two handleLedgerDifference calls of updateTicket for `t`'s account. */
  method PostDifferences(ledger: Ledger, t: Ticket, costDiff: int, feeDiff: int, isAgentCard: bool)
    returns (r: Result<()>)
    requires ledger.Valid()
    modifies ledger
    ensures ledger.Valid() && ledger.payments == old(ledger.payments)
    ensures var c := Commit(old(ledger.entries), old(ledger.clock), UpdatePostings(t, costDiff, feeDiff, isAgentCard));
            ledger.entries == c.entries && ledger.clock == c.clock && (r.Ok? <==> c.ok)
  {
    ghost var s0, c0 := ledger.entries, ledger.clock;
    var price := if costDiff != 0 then
                   [DifferencePosting(costDiff, ChargedEntity(t), ChargedEntityType(t), t.id, t.ticketNumber, "Price", isAgentCard)]
                 else [];
    var fee := if feeDiff != 0 then
                 [DifferencePosting(feeDiff, ChargedEntity(t), ChargedEntityType(t), t.id, t.ticketNumber, "Fee", false)]
               else [];
    CommitConcat(s0, c0, price, fee);
    if costDiff != 0 {
      var posted := HandleLedgerDifference(ledger, costDiff, ChargedEntity(t), ChargedEntityType(t), t.id,
                                           t.ticketNumber, "Price", isAgentCard);
      if posted.Err? {
        return Err(posted.error);
      }
    }
    if feeDiff != 0 {
      var posted := HandleLedgerDifference(ledger, feeDiff, ChargedEntity(t), ChargedEntityType(t), t.id,
                                           t.ticketNumber, "Fee");
      if posted.Err? {
        return Err(posted.error);
      }
    }
    r := Ok(());
  }

  /**
   * updateTicket. The ticket is updated first; then a correction is posted
   * for each non-zero delta, computed from the body's numbers with the old
   * values as fallback. A refused correction makes the request fail without
   * undoing the update or the corrections already posted.
   */
  method UpdateTicket(store: TicketStore, ledger: Ledger, id: Id, patch: TicketPatch, user: Id,
                      methods: seq<PaymentMethod>, agents: set<Id>)
    returns (r: Result<Ticket>)
    requires store.Valid() && ledger.Valid()
    modifies store, ledger
    ensures store.Valid() && ledger.Valid() && ledger.payments == old(ledger.payments)
    ensures Lookup(old(store.tickets), id).None? ==>
              && r == Err(TicketNotFound) && store.tickets == old(store.tickets)
              && ledger.entries == old(ledger.entries) && ledger.clock == old(ledger.clock)
    ensures Lookup(old(store.tickets), id).Some? ==>
              var existing := Lookup(old(store.tickets), id).value;
              var t := Patched(existing, patch, user);
              if UpdateClash(old(store.tickets), t) then
                && r == Err(DuplicateKey) && store.tickets == old(store.tickets)
                && ledger.entries == old(ledger.entries) && ledger.clock == old(ledger.clock)
              else
                && store.tickets == ReplaceById(old(store.tickets), t)
                && var c := Commit(old(ledger.entries), old(ledger.clock),
                                   Corrections(existing, patch, user, methods, agents));
                   && ledger.entries == c.entries && ledger.clock == c.clock
                   && (r.Ok? <==> c.ok) && (r.Ok? ==> r.value == t)
  {
    var existing := store.FindById(id);
    if existing.None? {
      return Err(TicketNotFound);
    }
    var updated := store.FindByIdAndUpdate(id, patch, user);
    if updated.Err? {
      return Err(updated.error);
    }
    var t := updated.value.value;
    var posted := PostCorrections(ledger, existing.value, patch, user, methods, agents);
    r := if posted.Ok? then Ok(t) else Err(posted.error);
  }

  /** An update whose body carries no new number for the cost or the fee posts nothing. */
  lemma UnchangedValuesPostNothing(existing: Ticket, patch: TicketPatch, user: Id, methods: seq<PaymentMethod>,
                                   agents: set<Id>)
    requires patch.consumerCost.Number? ==> patch.consumerCost.n == existing.consumerCost
    requires patch.consumerFee.Number? ==> patch.consumerFee.n == existing.consumerFee.GetOr(0)
    ensures Corrections(existing, patch, user, methods, agents) == []
  {
  }

  /**
   * A cost sent as a numeric string is stored (Mongoose casts it) but is not
   * a number to the controller, so the stored price changes and no
   * correction is posted.
   */
  lemma NumericStringCostIsNotPosted(existing: Ticket, patch: TicketPatch, user: Id, methods: seq<PaymentMethod>,
                                     agents: set<Id>)
    requires patch.consumerCost.NumericString? && !patch.consumerFee.Number?
    ensures Patched(existing, patch, user).consumerCost == patch.consumerCost.n
    ensures Corrections(existing, patch, user, methods, agents) == []
  {
  }

  lemma {:induction false} UpdatePostingsNet(t: Ticket, costDiff: int, feeDiff: int)
    ensures PostedNet(UpdatePostings(t, costDiff, feeDiff, false), ChargedEntity(t)) == costDiff + feeDiff
  {
    var price := DifferencePosting(costDiff, ChargedEntity(t), ChargedEntityType(t), t.id, t.ticketNumber, "Price", false);
    var fee := DifferencePosting(feeDiff, ChargedEntity(t), ChargedEntityType(t), t.id, t.ticketNumber, "Fee", false);
    var ps := UpdatePostings(t, costDiff, feeDiff, false);
    if costDiff != 0 && feeDiff != 0 {
      assert ps == [price, fee] && ps[1..] == [fee] && ps[1..][1..] == [];
      assert PostedNet([fee], ChargedEntity(t)) == feeDiff;
    } else if costDiff != 0 {
      assert ps == [price] && ps[1..] == [];
    } else if feeDiff != 0 {
      assert ps == [fee] && ps[1..] == [];
    }
  }

  /**
   * Without an agent card, once an update's corrections are accepted the
   * account's balance has moved by exactly the change in cost plus the
   * change in fee.
   */
  lemma UpdateMovesBalanceByChange(s: seq<Entry>, clock: int, existing: Ticket, patch: TicketPatch, user: Id,
                                   methods: seq<PaymentMethod>, agents: set<Id>)
    requires !IsAgentCard(methods, patch.paymentToProvider.GetOr(""), user)
    requires Commit(s, clock, Corrections(existing, patch, user, methods, agents)).ok
    ensures var t := Populated(Patched(existing, patch, user), agents);
            var c := Commit(s, clock, Corrections(existing, patch, user, methods, agents));
            BalanceOf(c.entries, ChargedEntity(t))
              == BalanceOf(s, ChargedEntity(t))
                 + (NewValue(patch.consumerCost, existing.consumerCost) - existing.consumerCost)
                 + (NewValue(patch.consumerFee, existing.consumerFee.GetOr(0)) - existing.consumerFee.GetOr(0))
  {
    var t := Populated(Patched(existing, patch, user), agents);
    var costDiff := NewValue(patch.consumerCost, existing.consumerCost) - existing.consumerCost;
    var feeDiff := NewValue(patch.consumerFee, existing.consumerFee.GetOr(0)) - existing.consumerFee.GetOr(0);
    var ps := UpdatePostings(t, costDiff, feeDiff, false);
    assert Corrections(existing, patch, user, methods, agents) == ps;
    CommitMovesBalanceByNet(s, clock, ps, ChargedEntity(t));
    UpdatePostingsNet(t, costDiff, feeDiff);
  }

  /**
   * With an agent card, a price change is refused by the Ledger schema: the
   * update reports failure, nothing is posted, and the fee correction is
   * never attempted.
   */
  lemma AgentCardPriceChangeFails(s: seq<Entry>, clock: int, existing: Ticket, patch: TicketPatch, user: Id,
                                  methods: seq<PaymentMethod>, agents: set<Id>)
    requires IsAgentCard(methods, patch.paymentToProvider.GetOr(""), user)
    requires NewValue(patch.consumerCost, existing.consumerCost) != existing.consumerCost
    ensures Commit(s, clock, Corrections(existing, patch, user, methods, agents)) == Outcome(s, clock, false)
  {
  }

  /** Without an agent card, once a new ticket's postings are accepted its account has moved by its price and fee postings. */
  lemma CreateMovesBalance(s: seq<Entry>, clock: int, t: Ticket)
    requires Commit(s, clock, CreatePostings(t, false)).ok
    ensures BalanceOf(Commit(s, clock, CreatePostings(t, false)).entries, ChargedEntity(t))
            == BalanceOf(s, ChargedEntity(t))
               + (if PostsPrice(t) then t.consumerCost else 0)
               + (if PostsFee(t) then t.consumerFee.value else 0)
  {
    var ps := CreatePostings(t, false);
    CommitMovesBalanceByNet(s, clock, ps, ChargedEntity(t));
    if |ps| == 2 {
      assert ps[1..][1..] == [];
    } else if |ps| == 1 {
      assert ps[1..] == [];
    }
  }

  /**
   * With an agent card, the no-effect price posting is refused, and since
   * the fee posting follows it in the same try block, a Refund or Re-Issue
   * fee is not posted either.
   */
  lemma AgentCardBlocksCreatePostings(s: seq<Entry>, clock: int, t: Ticket)
    requires PostsPrice(t)
    ensures Commit(s, clock, CreatePostings(t, true)) == Outcome(s, clock, false)
  {
  }

  /** A Partial ticket with no agent and no fee rule is charged its cost, as a debit, on its own account. */
  lemma PartialTicketChargesItself(t: Ticket)
    requires t.agent.None? && t.paymentType == Partial && !PostsFee(t)
    ensures var ps := CreatePostings(t, false);
            |ps| == 1 && ps[0].entityId == t.id && ps[0].entityType == Tickets
            && ps[0].transactionType == Debit && ps[0].amount == t.consumerCost
  {
  }

  /** A fully paid ticket with no agent posts nothing. */
  lemma FullTicketWithoutAgentPostsNothing(t: Ticket, isAgentCard: bool)
    requires t.agent.None? && t.paymentType != Partial && !PostsFee(t)
    ensures CreatePostings(t, isAgentCard) == []
  {
  }

  /** A Refund with an agent and a fee posts, after its price posting, a debit of the fee to the agent, whatever the payment type. */
  lemma RefundFeeIsChargedToAgent(t: Ticket, isAgentCard: bool)
    requires t.agent.Some? && t.operationType == Refund && t.consumerFee.Some?
    ensures var ps := CreatePostings(t, isAgentCard);
            |ps| == 2 && ps[1].entityId == t.agent.value && ps[1].entityType == Agents
            && ps[1].transactionType == Debit && ps[1].amount == t.consumerFee.value
  {
  }
}
