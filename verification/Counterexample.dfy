// Why the read order matters. A worker may see a transaction missing, the block that executes it
// may solidify with a time past its expiration, and the worker then declares the payout expired:
// the merchant gets the money back although the payout was paid. One concrete run shows it, and
// every reachable state of this kind goes the same way.
module Counterexample {
  import opened Prelude
  import opened Chain
  import opened Lease
  import opened Ledger
  import opened Tables
  import opened Gateway
  import opened LedgerProofs
  import opened LedgerTransactions
  import opened Protocol
  import opened Invariants
  import opened Finality
  import Payouts

  // ---------- the whole failing family ----------

  lemma HeldShape(cfg: Config, s: State, p: string)
    requires Inv(cfg, s) && p in s.procs && s.procs[p].pc.SawNotFound?
    ensures
      var c := s.procs[p].pc.claim;
      && c.transaction.Some? && c.phase == ConfirmationPhase && HasRow(s.db, c.table, c.id) && RowJob(s.db, c.table, c.id).transaction == c.transaction
  {
    hide Inv, ProtocolInv;
    PositionSound(cfg, s, p);
  }

  /** In any reachable state, an unquiet expiry of a payout that was paid ends with the payout failed,
      its amount released, and the payment standing on the solidified chain. */
  lemma UnquietExpiryPaysTwice(cfg: Config, s: State, p: string, journalId: string, delay: nat) returns (t: State, u: State)
    requires Inv(cfg, s) && Expires(s, Work(p, ReadHead(true))) && journalId !in s.db.journals && delay > 0
    requires
      var c := s.procs[p].pc.claim;
      && c.table == PayoutTable && c.id in s.db.payouts && HeldLive(s.db.payouts[c.id].job, c, s.db.now)
      && Usable(s.db, Frozen(s.db.payouts[c.id].merchant, s.db.payouts[c.id].asset))
      && Usable(s.db, Available(s.db.payouts[c.id].merchant, s.db.payouts[c.id].asset))
      && Executed(s.chain, c.transaction.value.id, ExecutionSucceeded)
    ensures Next(cfg, s, Work(p, ReadHead(true)), t) && Next(cfg, t, Work(p, FinishConfirmation(journalId, delay)), u)
    ensures
      var c := s.procs[p].pc.claim;
      && c.id in u.db.payouts && u.db.payouts[c.id].job.status == Failed && u.db.payouts[c.id].unfreezeId == Some(journalId)
      && u.db.payouts[c.id].job.transaction == c.transaction
      && Executed(u.chain, c.transaction.value.id, ExecutionSucceeded)
  {
    hide Inv, LedgerInv, Executed, Payouts.Finalize, ReleaseRow;
    var c := s.procs[p].pc.claim;
    HeldShape(cfg, s, p);
    t := Goto(s, p, SawExpired(c));
    var db := Payouts.Finalize(s.db, c, false, "expired_not_found", journalId).0;
    u := Goto(t, p, Idle).(db := db);
    ReachableLedger(cfg, s);
    FinalizeKeeps(s.db, c, false, "expired_not_found", journalId);
    FinalizeGoesThrough(s.db, c, journalId);
  }

  lemma ReachableLedger(cfg: Config, s: State)
    requires Inv(cfg, s)
    ensures LedgerInv(s.db)
  {
  }

  lemma FinalizeGoesThrough(db: Db, c: Claim, journalId: string)
    requires LedgerInv(db) && journalId !in db.journals && c.phase == ConfirmationPhase
    requires c.id in db.payouts && HeldLive(db.payouts[c.id].job, c, db.now)
    requires Usable(db, Frozen(db.payouts[c.id].merchant, db.payouts[c.id].asset))
    requires Usable(db, Available(db.payouts[c.id].merchant, db.payouts[c.id].asset))
    ensures Payouts.Finalize(db, c, false, "expired_not_found", journalId).1.Ok?
  {
    hide LedgerInv, Balance, PostedId, PostedJournals;
    FinalizeKeeps(db, c, false, "expired_not_found", journalId);
  }
}
