/**
 * The running-balance bookkeeping shared by every ledger writer: the latest
 * balance of an entity, the chain its entries form, and the sequential
 * posting of entries through the Ledger schema.
 */
module LedgerBalance {
  import opened Types
  import opened LedgerModel

  /** The signed effect of an entry on its entity's balance. */
  function Delta(transactionType: string, amount: int): int {
    if transactionType == Debit then amount
    else if transactionType == Credit then -amount
    else 0
  }

  /** The newest entry of `id`, found by scanning from the end of the append order. */
  function Latest(s: seq<Entry>, id: Id): (r: Option<Entry>)
    ensures r.Some? ==> r.value in s && r.value.entityId == id
  {
    if s == [] then None
    else if s[|s| - 1].entityId == id then Some(s[|s| - 1])
    else Latest(s[..|s| - 1], id)
  }

  /** The current balance of `id`: the balance on its newest entry, or 0 when it has none. */
  function BalanceOf(s: seq<Entry>, id: Id): (r: int)
    ensures r == 0 || exists e :: e in s && e.entityId == id && e.balance == r
    ensures s != [] && s[|s| - 1].entityId == id ==> r == s[|s| - 1].balance
  {
    match Latest(s, id)
    case None => 0
    case Some(e) => e.balance
  }

  /** Append order agrees with createdAt order. */
  ghost predicate Ordered(s: seq<Entry>) {
    forall i, j :: 0 <= i < j < |s| ==> s[i].createdAt < s[j].createdAt
  }

  /** Every entry's balance is the balance its entity had just before it, moved by the entry's own delta. */
  ghost predicate Chained(s: seq<Entry>) {
    forall i :: 0 <= i < |s| ==>
      s[i].balance == BalanceOf(s[..i], s[i].entityId) + Delta(s[i].transactionType, s[i].amount)
  }

  ghost predicate AllValid(s: seq<Entry>) {
    forall i :: 0 <= i < |s| ==> ValidEntry(s[i])
  }

  /** The invariant of the Ledger collection under the writers, with `clock` the next creation time. */
  ghost predicate StoreInvariant(s: seq<Entry>, clock: int) {
    && AllValid(s)
    && Ordered(s)
    && (forall i :: 0 <= i < |s| ==> s[i].createdAt < clock)
    && Chained(s)
  }

  /** The entries of `id`, in append order. */
  function OfEntity(s: seq<Entry>, id: Id): seq<Entry> {
    if s == [] then []
    else OfEntity(s[..|s| - 1], id) + (if s[|s| - 1].entityId == id then [s[|s| - 1]] else [])
  }

  /** The net of the signed amounts of the entries of `id`. */
  function Net(s: seq<Entry>, id: Id): int {
    if s == [] then 0
    else Net(s[..|s| - 1], id) + (if s[|s| - 1].entityId == id then Delta(s[|s| - 1].transactionType, s[|s| - 1].amount) else 0)
  }

  /**
   * Sorting by createdAt descending and taking the first match is the same as
   * taking the last match in append order: the latest entry has the largest
   * createdAt among the entity's entries, and there is none exactly when the
   * entity has no entries.
   */
  lemma {:induction false} LatestIsNewest(s: seq<Entry>, id: Id)
    requires Ordered(s)
    ensures Latest(s, id).None? <==> forall i :: 0 <= i < |s| ==> s[i].entityId != id
    ensures Latest(s, id).Some? ==>
              forall i :: 0 <= i < |s| && s[i].entityId == id ==> s[i].createdAt <= Latest(s, id).value.createdAt
  {
    if s != [] {
      var n := |s| - 1;
      var p := s[..n];
      assert Ordered(p);
      LatestIsNewest(p, id);
      if s[n].entityId != id {
        forall i | 0 <= i < n && s[i].entityId == id
          ensures s[i].createdAt <= Latest(s, id).value.createdAt
        {
          assert p[i] == s[i];
        }
        forall i | 0 <= i < n
          ensures s[i].entityId == p[i].entityId
        {
        }
      }
    }
  }

  /** The balance after appending `e`: `e`'s balance for its own entity, unchanged for every other. */
  lemma BalanceAfterAppend(s: seq<Entry>, e: Entry, id: Id)
    ensures BalanceOf(s + [e], id) == if e.entityId == id then e.balance else BalanceOf(s, id)
  {
    assert (s + [e])[..|s|] == s;
  }

  /** An entity's balance depends only on that entity's own entries. */
  lemma {:induction false} BalanceDependsOnlyOnOwnEntries(s: seq<Entry>, id: Id)
    ensures BalanceOf(s, id) == BalanceOf(OfEntity(s, id), id)
  {
    if s != [] {
      var n := |s| - 1;
      BalanceDependsOnlyOnOwnEntries(s[..n], id);
      if s[n].entityId == id {
        BalanceAfterAppend(OfEntity(s[..n], id), s[n], id);
      } else {
        assert OfEntity(s, id) == OfEntity(s[..n], id);
      }
    }
  }

  lemma ChainedPrefix(s: seq<Entry>, n: nat)
    requires Chained(s) && n <= |s|
    ensures Chained(s[..n])
  {
    forall i | 0 <= i < n
      ensures s[..n][i].balance == BalanceOf(s[..n][..i], s[..n][i].entityId) + Delta(s[..n][i].transactionType, s[..n][i].amount)
    {
      assert s[..n][..i] == s[..i];
    }
  }

  lemma ChainedAppend(s: seq<Entry>, e: Entry)
    requires Chained(s)
    requires e.balance == BalanceOf(s, e.entityId) + Delta(e.transactionType, e.amount)
    ensures Chained(s + [e])
  {
    var t := s + [e];
    forall i | 0 <= i < |t|
      ensures t[i].balance == BalanceOf(t[..i], t[i].entityId) + Delta(t[i].transactionType, t[i].amount)
    {
      if i < |s| {
        assert t[..i] == s[..i];
      } else {
        assert t[..i] == s;
      }
    }
  }

  /**
   * The running-balance chain, read as a whole: an entity's current balance
   * is the net of all its debits and credits, starting from 0.
   */
  lemma {:induction false} BalanceIsNet(s: seq<Entry>, id: Id)
    requires Chained(s)
    ensures BalanceOf(s, id) == Net(s, id)
  {
    if s != [] {
      var n := |s| - 1;
      ChainedPrefix(s, n);
      BalanceIsNet(s[..n], id);
      assert s[n].balance == BalanceOf(s[..n], s[n].entityId) + Delta(s[n].transactionType, s[n].amount);
      LastEntryStep(s, id);
    }
  }

  /** The last entry of a chain moves its entity's balance by its own signed amount. */
  lemma LastEntryStep(s: seq<Entry>, id: Id)
    requires s != []
    requires s[|s| - 1].balance == BalanceOf(s[..|s| - 1], s[|s| - 1].entityId)
                                   + Delta(s[|s| - 1].transactionType, s[|s| - 1].amount)
    ensures var n := |s| - 1;
            BalanceOf(s, id) == BalanceOf(s[..n], id) + (if s[n].entityId == id then Delta(s[n].transactionType, s[n].amount) else 0)
  {
    var n := |s| - 1;
    assert s == s[..n] + [s[n]];
    BalanceAfterAppend(s[..n], s[n], id);
  }

  /** The first entry of an entity starts from 0: its balance is its own signed amount. */
  lemma FirstEntryStartsFromZero(s: seq<Entry>, i: nat)
    requires Chained(s) && i < |s|
    requires forall j :: 0 <= j < i ==> s[j].entityId != s[i].entityId
    ensures s[i].balance == Delta(s[i].transactionType, s[i].amount)
  {
  }

  /** Appending a validated entry that follows the chain keeps the store invariant. */
  lemma StoreAppend(s: seq<Entry>, clock: int, e: Entry)
    requires StoreInvariant(s, clock)
    requires ValidEntry(e) && e.createdAt == clock
    requires e.balance == BalanceOf(s, e.entityId) + Delta(e.transactionType, e.amount)
    ensures StoreInvariant(s + [e], clock + 1)
  {
    ChainedAppend(s, e);
    var t := s + [e];
    forall i, j | 0 <= i < j < |t| ensures t[i].createdAt < t[j].createdAt {
    }
  }

  /** A request to post one entry, as ticket creation and ticket update hand it to the recorder. */
  datatype Posting = Posting(
    entityId: Id,
    entityType: string,
    ticketId: Option<Id>,
    amount: int,
    referenceNumber: string,
    description: string,
    transactionType: string)

  /**
   * The entry the recorder builds for `p` at time `clock`. Its balance rule
   * (debit adds, credit subtracts, anything else keeps the balance) is an
   * assumption: the recorder's own source is not part of this model. Only
   * its debit and credit cases can reach the store.
   */
  function Recorded(s: seq<Entry>, clock: int, p: Posting): (r: Entry)
    ensures ValidEntry(r) <==> && EntityTypeAllowed(p.entityType) && TransactionTypeAllowed(p.transactionType)
                               && p.description != "" && p.referenceNumber != ""
    ensures p.transactionType == Debit ==> r.balance == BalanceOf(s, p.entityId) + p.amount
    ensures p.transactionType == Credit ==> r.balance == BalanceOf(s, p.entityId) - p.amount
    ensures p.transactionType != Debit && p.transactionType != Credit ==> r.balance == BalanceOf(s, p.entityId)
    ensures r.entityId == p.entityId && r.ticketId == p.ticketId && r.amount == p.amount
            && r.date == clock && r.createdAt == clock
  {
    NewEntry(p.entityId, p.entityType, p.ticketId, p.transactionType, p.amount,
             BalanceOf(s, p.entityId) + Delta(p.transactionType, p.amount),
             p.description, None, p.referenceNumber, clock)
  }

  datatype Outcome = Outcome(entries: seq<Entry>, clock: int, ok: bool)

  /**
   * Posting `ps` one after the other, each through the schema's validation,
   * and stopping at the first that is refused (the caller's await throws).
   */
  function Commit(s: seq<Entry>, clock: int, ps: seq<Posting>): (r: Outcome)
    ensures s <= r.entries
    ensures |r.entries| <= |s| + |ps|
    ensures r.ok <==> |r.entries| == |s| + |ps|
    ensures r.clock == clock + (|r.entries| - |s|)
    decreases |ps|
  {
    if ps == [] then Outcome(s, clock, true)
    else
      var e := Recorded(s, clock, ps[0]);
      if ValidEntry(e) then Commit(s + [e], clock + 1, ps[1..])
      else Outcome(s, clock, false)
  }

  /** The net effect of `ps` on the balance of `id`. */
  function PostedNet(ps: seq<Posting>, id: Id): int {
    if ps == [] then 0
    else (if ps[0].entityId == id then Delta(ps[0].transactionType, ps[0].amount) else 0) + PostedNet(ps[1..], id)
  }

  /** Posting only appends, and the appended entries keep the store invariant. */
  lemma {:induction false} CommitKeepsInvariant(s: seq<Entry>, clock: int, ps: seq<Posting>)
    requires StoreInvariant(s, clock)
    ensures StoreInvariant(Commit(s, clock, ps).entries, Commit(s, clock, ps).clock)
    decreases |ps|
  {
    if ps != [] {
      var e := Recorded(s, clock, ps[0]);
      if ValidEntry(e) {
        StoreAppend(s, clock, e);
        CommitKeepsInvariant(s + [e], clock + 1, ps[1..]);
      }
    }
  }

  /** When every posting is accepted, each entity's balance moves by exactly the net of its postings. */
  lemma {:induction false} CommitMovesBalanceByNet(s: seq<Entry>, clock: int, ps: seq<Posting>, id: Id)
    requires Commit(s, clock, ps).ok
    ensures BalanceOf(Commit(s, clock, ps).entries, id) == BalanceOf(s, id) + PostedNet(ps, id)
    decreases |ps|
  {
    if ps != [] {
      var e := Recorded(s, clock, ps[0]);
      assert ValidEntry(e);
      CommitMovesBalanceByNet(s + [e], clock + 1, ps[1..], id);
      BalanceAfterAppend(s, e, id);
    }
  }

  /** Posting `a` then `b` is posting `a + b`; `b` is not attempted once a posting of `a` is refused. */
  lemma {:induction false} CommitConcat(s: seq<Entry>, clock: int, a: seq<Posting>, b: seq<Posting>)
    ensures var ra := Commit(s, clock, a);
            Commit(s, clock, a + b) == if ra.ok then Commit(ra.entries, ra.clock, b) else ra
    decreases |a|
  {
    if a != [] {
      assert (a + b)[0] == a[0];
      assert (a + b)[1..] == a[1..] + b;
      var e := Recorded(s, clock, a[0]);
      if ValidEntry(e) {
        CommitConcat(s + [e], clock + 1, a[1..], b);
      }
    } else {
      assert a + b == b;
    }
  }

  /** A posting of any type other than debit or credit is refused, and nothing after it is posted. */
  lemma CommitStopsAtNoEffect(s: seq<Entry>, clock: int, ps: seq<Posting>)
    requires ps != [] && !TransactionTypeAllowed(ps[0].transactionType)
    ensures Commit(s, clock, ps) == Outcome(s, clock, false)
  {
  }
}
