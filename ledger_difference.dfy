/**
 * handleLedgerDifference: turns a signed change in a ticket's price or fee
 * into one corrective posting and hands it to the recorder.
 */
module LedgerDifference {
  import opened Types
  import opened LedgerModel
  import opened LedgerBalance
  import opened LedgerController

  function Abs(x: int): nat {
    if x < 0 then -x else x
  }

  /** The transaction type of a correction: an agent card posts no-effect; otherwise an increase is a debit and anything else a credit. */
  function Classify(difference: int, isAgentCard: bool): string {
    if isAgentCard then NoEffect
    else if difference > 0 then Debit
    else Credit
  }

  function DigitChar(d: nat): (c: char)
    requires d < 10
    ensures '0' <= c <= '9'
  {
    ('0' as int + d) as char
  }

  /** The decimal digits of `n`, most significant first. */
  function NatString(n: nat): (s: string)
    ensures |s| >= 1
    ensures forall i :: 0 <= i < |s| ==> '0' <= s[i] <= '9'
  {
    if n < 10 then [DigitChar(n)] else NatString(n / 10) + [DigitChar(n % 10)]
  }

  /** How a template literal writes an integer: its digits, after a minus sign when negative. */
  function DecimalString(x: int): string {
    if x < 0 then "-" + NatString(-x) else NatString(x)
  }

  function DigitsValue(s: string): int {
    if s == [] then 0 else DigitsValue(s[..|s| - 1]) * 10 + (s[|s| - 1] as int - '0' as int)
  }

  /** Reading a decimal string back, the inverse of DecimalString. */
  function DecimalValue(s: string): int {
    if |s| > 0 && s[0] == '-' then -DigitsValue(s[1..]) else DigitsValue(s)
  }

  lemma {:induction false} NatStringRoundTrip(n: nat)
    ensures DigitsValue(NatString(n)) == n
  {
    if n >= 10 {
      var s := NatString(n);
      assert s[..|s| - 1] == NatString(n / 10);
      NatStringRoundTrip(n / 10);
    }
  }

  /** The difference written into a description can be read back exactly. */
  lemma DecimalRoundTrip(x: int)
    ensures DecimalValue(DecimalString(x)) == x
  {
    if x < 0 {
      NatStringRoundTrip(-x);
      assert DecimalString(x)[1..] == NatString(-x);
    } else {
      NatStringRoundTrip(x);
    }
  }

  function Description(descriptionPrefix: string, difference: int): string {
    descriptionPrefix + " updated by " + DecimalString(difference) + " (old->new) on ticket update"
  }

  /**
   * The one posting a call makes: entity, entity type, ticket and reference
   * passed through; the amount the magnitude of the difference.
   */
  function DifferencePosting(difference: int, entityId: Id, entityType: string, ticketId: Id,
                             referenceNumber: string, descriptionPrefix: string, isAgentCard: bool): (p: Posting)
    ensures p.entityId == entityId && p.entityType == entityType
    ensures p.ticketId == Some(ticketId) && p.referenceNumber == referenceNumber
    ensures p.amount >= 0 && (p.amount == difference || p.amount == -difference)
    ensures isAgentCard ==> p.transactionType == NoEffect
    ensures !isAgentCard ==> Delta(p.transactionType, p.amount) == difference
    ensures p.description == Description(descriptionPrefix, difference)
  {
    Posting(entityId, entityType, Some(ticketId), Abs(difference), referenceNumber,
            Description(descriptionPrefix, difference), Classify(difference, isAgentCard))
  }

  /** Classification by sign, in both directions, when no agent card is involved. */
  lemma ClassifyBySign(difference: int)
    ensures Classify(difference, false) == Debit <==> difference > 0
    ensures Classify(difference, false) == Credit <==> difference <= 0
    ensures Classify(difference, false) != NoEffect
  {
  }

  /** An agent card gives no-effect whatever the sign, and only an agent card does. */
  lemma AgentCardIsNoEffect(difference: int, isAgentCard: bool)
    ensures Classify(difference, isAgentCard) == NoEffect <==> isAgentCard
  {
  }

  /** A zero difference handed over directly becomes a credit of 0. */
  lemma ZeroDifferenceIsZeroCredit(entityId: Id, entityType: string, ticketId: Id, referenceNumber: string, prefix: string)
    ensures var p := DifferencePosting(0, entityId, entityType, ticketId, referenceNumber, prefix, false);
            p.transactionType == Credit && p.amount == 0
  {
  }

  /**
   * An accepted correction moves its entity's balance by exactly the
   * difference and leaves every other entity's balance alone.
   */
  lemma CorrectionMovesBalanceByDifference(s: seq<Entry>, clock: int, difference: int, entityId: Id,
                                           entityType: string, ticketId: Id, referenceNumber: string,
                                           prefix: string, other: Id)
    requires var p := DifferencePosting(difference, entityId, entityType, ticketId, referenceNumber, prefix, false);
             Commit(s, clock, [p]).ok
    requires other != entityId
    ensures var c := Commit(s, clock, [DifferencePosting(difference, entityId, entityType, ticketId, referenceNumber, prefix, false)]);
            && BalanceOf(c.entries, entityId) == BalanceOf(s, entityId) + difference
            && BalanceOf(c.entries, other) == BalanceOf(s, other)
  {
    var p := DifferencePosting(difference, entityId, entityType, ticketId, referenceNumber, prefix, false);
    CommitMovesBalanceByNet(s, clock, [p], entityId);
    CommitMovesBalanceByNet(s, clock, [p], other);
    assert [p][1..] == [];
  }

  /** With an agent card the correction is refused by the Ledger schema and nothing is posted. */
  lemma AgentCardCorrectionIsRefused(s: seq<Entry>, clock: int, difference: int, entityId: Id,
                                     entityType: string, ticketId: Id, referenceNumber: string, prefix: string)
    ensures var p := DifferencePosting(difference, entityId, entityType, ticketId, referenceNumber, prefix, true);
            Commit(s, clock, [p]) == Outcome(s, clock, false)
  {
  }

  /**
   * The helper itself: one recorder call; a refused posting is reported to
   * the caller as an error rather than swallowed.
   */
  method HandleLedgerDifference(ledger: Ledger, difference: int, entityId: Id, entityType: string, ticketId: Id,
                                referenceNumber: string, descriptionPrefix: string, isAgentCard: bool := false)
    returns (r: Result<Entry>)
    requires ledger.Valid()
    modifies ledger
    ensures ledger.Valid() && ledger.payments == old(ledger.payments)
    ensures var c := Commit(old(ledger.entries), old(ledger.clock),
                            [DifferencePosting(difference, entityId, entityType, ticketId, referenceNumber,
                                               descriptionPrefix, isAgentCard)]);
            ledger.entries == c.entries && ledger.clock == c.clock && (r.Ok? <==> c.ok)
  {
    var p := DifferencePosting(difference, entityId, entityType, ticketId, referenceNumber, descriptionPrefix, isAgentCard);
    r := ledger.RecordWithType(p);
  }
}
