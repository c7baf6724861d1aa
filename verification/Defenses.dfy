// What the transactions answer on tables that no run reaches: each defensive check refuses and changes nothing.
module Defenses {
  import opened Prelude
  import opened Chain
  import opened Lease
  import opened Ledger
  import opened Tables
  import opened Payouts
  import opened LeaseColumns
  import opened Gateway
  import opened Storage
  import Deposits

  predicate Open(db: Db, account: Account) {
    account in db.accounts && db.accounts[account] in {Active, Locked}
  }

  /** The requester already posted something else under the journal's key. */
  ghost predicate OtherUnderKey(journals: Journals, requester: Requester, key: IdempotencyKey, entries: seq<Entry>) {
    JournalsUnique(journals)
    && exists other :: other in journals && journals[other].requester == requester && journals[other].key == key && journals[other].entries != entries
  }

  lemma BlockedPosting(journals: Journals, id: string, journal: Journal)
    requires OtherUnderKey(journals, journal.requester, journal.key, journal.entries)
    ensures PostedId(journals, id, journal) == None
  {
    var other :| other in journals && journals[other].requester == journal.requester && journals[other].key == journal.key
      && journals[other].entries != journal.entries;
    KeyDecides(journals, id, journal, other);
  }

  /** A rejection refuses when the frozen balance is short or its key was used for something else. */
  lemma ReviewDefends(db: Db, r: ReviewRequest, allowed: bool, journalId: string)
    requires r.reviewer != "" && |r.reviewer| <= 128 && r.reason != "" && |r.reason| <= 512 && r.id != "" && r.decision == Reject
    requires r.id in db.payouts && db.payouts[r.id].job.status == PendingReview
    requires Open(db, Frozen(db.payouts[r.id].merchant, db.payouts[r.id].asset)) && Open(db, Available(db.payouts[r.id].merchant, db.payouts[r.id].asset))
    ensures
      var p := db.payouts[r.id];
      var frozen, available := Frozen(p.merchant, p.asset), Available(p.merchant, p.asset);
      var entries := [Entry(frozen, p.asset, DebitSide, p.amount), Entry(available, p.asset, CreditSide, p.amount)];
      && (Balance(db.journals, frozen) < p.amount ==> Payouts.Review(db, r, allowed, journalId) == (db, Err(InsufficientFrozen)))
      && (Balance(db.journals, frozen) >= p.amount && OtherUnderKey(db.journals, OperatorRequester(r.reviewer), UnfreezeKey(r.id), entries) ==>
            Payouts.Review(db, r, allowed, journalId) == (db, Err(ReviewWriteFailed)))
  {
    hide Balance, PostedId, PostedJournals, OtherUnderKey;
    var p := db.payouts[r.id];
    var journal := UnfreezeJournal(r.id, p, r.reviewer);
    if OtherUnderKey(db.journals, journal.requester, journal.key, journal.entries) {
      BlockedPosting(db.journals, journalId, journal);
    }
  }

  /** A settlement or release refuses so too. */
  lemma FinalizeDefends(db: Db, c: Claim, succeeded: bool, reason: string, journalId: string)
    requires c.table == PayoutTable && LiveRow(db, c)
    requires Open(db, Frozen(db.payouts[c.id].merchant, db.payouts[c.id].asset))
    requires Open(db, if succeeded then Custody(db.payouts[c.id].asset) else Available(db.payouts[c.id].merchant, db.payouts[c.id].asset))
    ensures
      var p := db.payouts[c.id];
      var frozen, counter := Frozen(p.merchant, p.asset), if succeeded then Custody(p.asset) else Available(p.merchant, p.asset);
      var entries := [Entry(frozen, p.asset, DebitSide, p.amount), Entry(counter, p.asset, CreditSide, p.amount)];
      var key := if succeeded then SettlementKey(c.id) else ReleaseKey(c.id);
      && (Balance(db.journals, frozen) < p.amount ==> Payouts.Finalize(db, c, succeeded, reason, journalId) == (db, Err(FrozenInsufficient)))
      && (Balance(db.journals, frozen) >= p.amount && OtherUnderKey(db.journals, PayoutConfirmationSystem, key, entries) ==>
            Payouts.Finalize(db, c, succeeded, reason, journalId) == (db, Err(TerminalWriteFailed)))
  {
    hide Balance, PostedId, PostedJournals, OtherUnderKey;
    var journal := TerminalJournal(c.id, db.payouts[c.id], succeeded);
    if OtherUnderKey(db.journals, journal.requester, journal.key, journal.entries) {
      BlockedPosting(db.journals, journalId, journal);
    }
  }

  /** An intent that already has its credit is never credited again, and a credit whose key was used otherwise fails. */
  lemma CreditDefends(db: Db, key: EventId, event: EventRow, id: string, journalId: string)
    requires id in db.intents && db.intents[id].received + event.amount == db.intents[id].expected <= MAX_INT64
    requires
      var i := db.intents[id];
      var custody, available := Custody(i.asset), Available(i.merchant, i.asset);
      && custody in db.accounts && db.accounts[custody] == Active && available in db.accounts && db.accounts[available] == Active
      && (i.journalId.Some?
          || OtherUnderKey(db.journals, DepositSystem, CreditKey(id),
                           [Entry(custody, i.asset, DebitSide, i.expected), Entry(available, i.asset, CreditSide, i.expected)]))
    ensures Deposits.Apply(db, key, event, id, journalId) == (db, Deposits.MatchFailed)
  {
    hide PostedId, PostedJournals, OtherUnderKey;
    var journal := Deposits.CreditJournal(id, db.intents[id]);
    if OtherUnderKey(db.journals, journal.requester, journal.key, journal.entries) {
      BlockedPosting(db.journals, journalId, journal);
    }
  }
}
