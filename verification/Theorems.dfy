// What every run guarantees: statements over all states of all runs, whatever interleaves, crashes,
// is lost or is retried.
module Theorems {
  import opened Prelude
  import opened Sums
  import opened Chain
  import opened Lease
  import opened Ledger
  import opened Tables
  import opened Signer
  import opened Gateway
  import opened LedgerProofs
  import opened LedgerTransactions
  import opened DepositProofs
  import opened OutboxProofs
  import opened RowProofs
  import opened RowSteps
  import opened StoreProofs
  import opened Protocol
  import opened ProtocolSteps
  import opened IndexProofs
  import opened SweepProofs
  import opened Invariants
  import opened Finality
  import opened CustodyFlow
  import opened Captures
  import SweepFunds
  import Simulator
  import Detectors
  import Wallets
  import Payouts
  import Deposits
  import Indexer
  import Sweeps

  lemma RunParts(cfg: Config, states: seq<State>, actions: seq<Action>, k: nat)
    requires Run(cfg, states, actions) && k < |states|
    ensures Inv(cfg, states[k]) && ProtocolInv(cfg, states[k]) && StoreInv(cfg, states[k].db) && LedgerInv(states[k].db)
    ensures ValidConfig(cfg) && PhasesAgree(states[k].procs)
  {
    hide ProtocolInv, LedgerInv, Next;
    InvRun(cfg, states, actions, k);
  }

  // ---------- money ----------

  /** In every reachable state the frozen balance of each merchant and asset is the sum of its open payouts. */
  lemma FrozenIsOpen(cfg: Config, states: seq<State>, actions: seq<Action>, k: nat, merchant: string, asset: string)
    requires Run(cfg, states, actions) && k < |states|
    ensures Balance(states[k].db.journals, Frozen(merchant, asset)) == MapSum(states[k].db.payouts, OpenAmount(merchant, asset))
  {
    hide Next, Initial, ProtocolInv, StoreInv, Inv;
    RunParts(cfg, states, actions, k);
  }

  /** Custody equals what is owed to all merchants, equals credited deposits minus succeeded payouts. */
  lemma Conservation(cfg: Config, states: seq<State>, actions: seq<Action>, k: nat, asset: string)
    requires Run(cfg, states, actions) && k < |states|
    ensures
      var db := states[k].db;
      && Balance(db.journals, Custody(asset)) == MapSum(db.accounts, LiabilityBalance(db.journals, asset))
      && Balance(db.journals, Custody(asset)) == MapSum(db.intents, CreditedAmount(asset)) - MapSum(db.payouts, SucceededAmount(asset))
  {
    hide Next, Initial, ProtocolInv, StoreInv, Inv;
    RunParts(cfg, states, actions, k);
  }

  /** No account is ever overdrawn. */
  lemma NoOverdraft(cfg: Config, states: seq<State>, actions: seq<Action>, k: nat, account: Account)
    requires Run(cfg, states, actions) && k < |states|
    ensures 0 <= Balance(states[k].db.journals, account)
  {
    hide Next, Initial, ProtocolInv, StoreInv, Inv;
    RunParts(cfg, states, actions, k);
    match account
    case Available(m, a) =>
    case Frozen(m, a) => LiabilityPositive(states[k].db, account);
    case Custody(a) =>
      forall other | other in states[k].db.accounts ensures 0 <= LiabilityBalance(states[k].db.journals, a)(other, states[k].db.accounts[other]) {
        LiabilityPositive(states[k].db, other);
      }
      MapSumNonneg(states[k].db.accounts, LiabilityBalance(states[k].db.journals, a));
  }

  lemma LiabilityPositive(db: Db, account: Account)
    requires LedgerInv(db)
    ensures !account.Custody? ==> 0 <= Balance(db.journals, account)
  {
    if account.Frozen? {
      forall id | id in db.payouts ensures 0 <= OpenAmount(account.merchant, account.asset)(id, db.payouts[id]) {
        PayoutLinked(db, id);
      }
      MapSumNonneg(db.payouts, OpenAmount(account.merchant, account.asset));
    }
  }

  /** The five ledger detectors report nothing in any reachable state. */
  lemma DetectorsSilent(cfg: Config, states: seq<State>, actions: seq<Action>, k: nat)
    requires Run(cfg, states, actions) && k < |states|
    ensures Detectors.LedgerFindings(states[k].db) == {}
  {
    hide Next, Initial, ProtocolInv, StoreInv, Inv, Detectors.LedgerFindings;
    RunParts(cfg, states, actions, k);
    LedgerLinks(states[k].db);
    Detectors.LedgerSilent(states[k].db);
  }

  /** In no reachable state does a review, a settlement or a match run into its defensive failures. */
  lemma DefensiveBranchesDead(cfg: Config, states: seq<State>, actions: seq<Action>, k: nat, journalId: string,
                              review: Payouts.ReviewRequest, allowed: bool, claim: Claim, succeeded: bool, reason: string,
                              input: Deposits.MatchInput)
    requires Run(cfg, states, actions) && k < |states| && journalId !in states[k].db.journals && claim.phase == ConfirmationPhase
    ensures Payouts.Review(states[k].db, review, allowed, journalId).1 !in {Err(Payouts.InsufficientFrozen), Err(Payouts.ReviewWriteFailed)}
    ensures Payouts.Finalize(states[k].db, claim, succeeded, reason, journalId).1 !in {Err(Payouts.FrozenInsufficient), Err(Payouts.TerminalWriteFailed)}
    ensures Deposits.Match(cfg, states[k].db, input, journalId).1 != Deposits.MatchFailed
  {
    hide Next, Initial, ProtocolInv, Inv, LedgerInv, DepositInv, Payouts.Review, Payouts.Finalize, Deposits.Match;
    RunParts(cfg, states, actions, k);
    ReviewKeeps(states[k].db, review, allowed, journalId);
    FinalizeKeeps(states[k].db, claim, succeeded, reason, journalId);
    MatchKeeps(cfg, states[k].db, input, journalId);
  }

  /** Each business reference is posted at most once. */
  lemma PostedOnce(cfg: Config, states: seq<State>, actions: seq<Action>, k: nat, a: string, b: string)
    requires Run(cfg, states, actions) && k < |states| && a in states[k].db.journals && b in states[k].db.journals
    requires
      var ja, jb := states[k].db.journals[a], states[k].db.journals[b];
      ja.referenceType == jb.referenceType && ja.referenceId == jb.referenceId
    ensures a == b
  {
    hide Next, Initial, ProtocolInv, StoreInv, Inv;
    RunParts(cfg, states, actions, k);
    var db := states[k].db;
    assert Owned(db.payouts, db.intents, a, db.journals[a]) && Owned(db.payouts, db.intents, b, db.journals[b]);
  }

  /** A settled payout has exactly one outbox event, with its amount and its settling journal. */
  lemma AnnouncedOnce(cfg: Config, states: seq<State>, actions: seq<Action>, k: nat, id: string) returns (e: OutboxEvent)
    requires Run(cfg, states, actions) && k < |states| && id in states[k].db.payouts && Settled(states[k].db.payouts[id])
    ensures
      var outbox, p := states[k].db.outbox, states[k].db.payouts[id];
      && Announces(e, id, p) && TerminalJournalId(p).Some? && TerminalJournalId(p).value in states[k].db.journals
      && (exists i :: 0 <= i < |outbox| && outbox[i] == e)
      && (forall i, j :: 0 <= i < |outbox| && 0 <= j < |outbox| && About(outbox[i], id) && About(outbox[j], id) ==> i == j && outbox[i] == e)
  {
    hide Next, Initial, ProtocolInv, Inv, DepositInv, LedgerInv, PayoutsShaped, SweepsShaped;
    RunParts(cfg, states, actions, k);
    var db := states[k].db;
    PayoutLinked(db, id);
    e :| e in db.outbox && Announces(e, id, db.payouts[id]);
    var at :| 0 <= at < |db.outbox| && db.outbox[at] == e;
    forall i | 0 <= i < |db.outbox| && About(db.outbox[i], id) ensures i == at {
      OneEvent(db.outbox, db.payouts, db.intents, id, i, at);
    }
  }

  predicate About(e: OutboxEvent, id: string) {
    e.topic != DepositConfirmed && e.aggregateId == id
  }

  // ---------- progress over runs ----------

  lemma ProgressChains(cfg: Config, a: State, b: State, c: State)
    requires Progress(cfg, a, b) && Progress(cfg, b, c)
    ensures Progress(cfg, a, c)
  {
    hide RowsAdvance, SignerGrows;
    AdvanceChains(cfg, a.db, b.db, c.db);
    PrefixStays(b.chain, c.chain, a.chain.solidified + 1);
    assert SignerGrows(a.signer, c.signer) by {
      SignerChains(a.signer, b.signer, c.signer);
    }
  }

  lemma SignerChains(a: Records, b: Records, c: Records)
    requires SignerGrows(a, b) && SignerGrows(b, c)
    ensures SignerGrows(a, c)
  {
  }

  lemma AdvanceChains(cfg: Config, a: Db, b: Db, c: Db)
    requires RowsAdvance(cfg, a, b) && RowsAdvance(cfg, b, c)
    ensures RowsAdvance(cfg, a, c)
  {
    hide RowRequest, SameRowAs, JobProgress;
    forall table, id | HasRow(a, table, id)
      ensures HasRow(c, table, id) && RowRequest(cfg, c, table, id) == RowRequest(cfg, a, table, id)
      ensures JobProgress(RowJob(a, table, id), RowJob(c, table, id))
      ensures Terminal(RowJob(a, table, id).status) ==> SameRowAs(a, c, table, id)
    {
      assert HasRow(b, table, id) && HasRow(c, table, id);
      RowChains(a, b, c, table, id);
    }
  }

  lemma RowChains(a: Db, b: Db, c: Db, table: Table, id: string)
    requires HasRow(a, table, id) && HasRow(b, table, id) && HasRow(c, table, id)
    requires JobProgress(RowJob(a, table, id), RowJob(b, table, id)) && JobProgress(RowJob(b, table, id), RowJob(c, table, id))
    requires Terminal(RowJob(a, table, id).status) ==> SameRowAs(a, b, table, id)
    requires Terminal(RowJob(b, table, id).status) ==> SameRowAs(b, c, table, id)
    ensures JobProgress(RowJob(a, table, id), RowJob(c, table, id))
    ensures Terminal(RowJob(a, table, id).status) ==> SameRowAs(a, c, table, id)
  {
  }

  /** Along a run rows, the signer, the solidified chain and the claim log only progress. */
  lemma {:induction false} RunProgress(cfg: Config, states: seq<State>, actions: seq<Action>, j: nat, k: nat)
    requires Run(cfg, states, actions) && j <= k < |states|
    ensures Progress(cfg, states[j], states[k])
    decreases k - j
  {
    hide Next, Initial, Progress, Inv, ProtocolInv;
    if j == k {
      RunParts(cfg, states, actions, j);
      ProtocolParts(cfg, states[j]);
      SelfProgress(cfg, states[j]);
    } else {
      RunProgress(cfg, states, actions, j, k - 1);
      InvRun(cfg, states, actions, k - 1);
      assert Linked(cfg, states, actions, k - 1);
      InvStep(cfg, states[k - 1], actions[k - 1], states[k]);
      ProgressChains(cfg, states[j], states[k - 1], states[k]);
    }
  }

  lemma SelfProgress(cfg: Config, s: State)
    requires ChainGrows(s.chain, s.chain)
    ensures Progress(cfg, s, s)
  {
    SameRows(cfg, s.db);
  }

  /** Settled rows never change again, in either table. */
  lemma TerminalAbsorbing(cfg: Config, states: seq<State>, actions: seq<Action>, j: nat, k: nat, table: Table, id: string)
    requires Run(cfg, states, actions) && j <= k < |states|
    requires HasRow(states[j].db, table, id) && RowJob(states[j].db, table, id).status in {Succeeded, Failed, Rejected}
    ensures HasRow(states[k].db, table, id) && SameRowAs(states[j].db, states[k].db, table, id)
  {
    hide Next, Initial, JobProgress, ChainGrows;
    RunProgress(cfg, states, actions, j, k);
  }

  // ---------- fencing ----------

  /** The worker whose claim is the row's lease took the last claim of that row, against this very status and transaction. */
  lemma HolderIsLast(cfg: Config, states: seq<State>, actions: seq<Action>, k: nat, p: string)
    requires Run(cfg, states, actions) && k < |states| && p in states[k].procs && HasClaim(states[k].procs[p].pc)
    requires
      var s, c := states[k], states[k].procs[p].pc.claim;
      HasRow(s.db, c.table, c.id) && Held(RowJob(s.db, c.table, c.id), c)
    ensures
      var s, c := states[k], states[k].procs[p].pc.claim;
      && (forall d :: d in s.log && SameRow(d, c) ==> d == c || d.epoch < c.epoch)
      && (forall i :: 0 <= i < |s.log| && s.log[i] == c ==> forall j :: i < j < |s.log| ==> !SameRow(s.log[j], c))
      && RowJob(s.db, c.table, c.id).status == PhaseStatus(c.phase)
      && (c.phase != SigningPhase ==> RowJob(s.db, c.table, c.id).transaction == c.transaction)
  {
    hide Next, Initial, Inv, StoreInv, LedgerInv, ProtocolInv, Held;
    RunParts(cfg, states, actions, k);
    ClaimOf(cfg, states[k], p);
    LeaseHolder(cfg, states[k], states[k].procs[p].pc.claim);
  }

  lemma LeaseHolder(cfg: Config, s: State, c: Claim)
    requires ProtocolInv(cfg, s) && ClaimSound(cfg, s.db, s.log, c) && Held(RowJob(s.db, c.table, c.id), c)
    ensures forall d :: d in s.log && SameRow(d, c) ==> d == c || d.epoch < c.epoch
    ensures forall i :: 0 <= i < |s.log| && s.log[i] == c ==> forall j :: i < j < |s.log| ==> !SameRow(s.log[j], c)
    ensures RowJob(s.db, c.table, c.id).status == PhaseStatus(c.phase)
    ensures c.phase != SigningPhase ==> RowJob(s.db, c.table, c.id).transaction == c.transaction
  {
    hide RowsSigned, BroadcastSound, SuccessSound, LeasesLogged, SignerSound, ChainSound, IncludedBroadcast, ProcsSound, Shaped;
    forall d | d in s.log && SameRow(d, c) ensures d == c || d.epoch < c.epoch {
      assert d.epoch <= RowJob(s.db, d.table, d.id).epoch;
      var i, j :| 0 <= i < |s.log| && s.log[i] == c && 0 <= j < |s.log| && s.log[j] == d;
    }
    forall i, j | 0 <= i < |s.log| && s.log[i] == c && i < j < |s.log| ensures !SameRow(s.log[j], c) {
      assert s.log[j] in s.log;
    }
  }

  /** Fencing: a completing, confirming or terminal statement that changes a row is executed by the
      worker of the row's last claim; no other worker was given the row since. */
  lemma Fencing(cfg: Config, states: seq<State>, actions: seq<Action>, k: nat)
    requires Run(cfg, states, actions) && k < |actions|
    requires actions[k].Work? && !actions[k].work.ClaimRow?
    requires states[k + 1].db.payouts != states[k].db.payouts || states[k + 1].db.sweeps != states[k].db.sweeps
    ensures actions[k].proc in states[k].procs && HasClaim(states[k].procs[actions[k].proc].pc)
    ensures
      var s, c := states[k], states[k].procs[actions[k].proc].pc.claim;
      && HasRow(s.db, c.table, c.id) && Held(RowJob(s.db, c.table, c.id), c)
      && (forall d :: d in s.log && SameRow(d, c) ==> d == c || d.epoch < c.epoch)
      && (c.phase != SigningPhase ==> RowJob(s.db, c.table, c.id).transaction == c.transaction)
  {
    hide Initial, ProtocolInv, StoreInv, Inv, WorkNext, LedgerInv, PhasesAgree, Held;
    RunParts(cfg, states, actions, k);
    var s, t, p, x := states[k], states[k + 1], actions[k].proc, actions[k].work;
    assert Linked(cfg, states, actions, k);
    var change := WorkRows(cfg, s, p, x, t);
    WorkNoClaim(cfg, s, p, x, t);
    ClaimOf(cfg, s, p);
    LeaseHolder(cfg, s, s.procs[p].pc.claim);
  }

  lemma WorkNoClaim(cfg: Config, s: State, p: string, x: WorkAction, t: State)
    requires WorkNext(cfg, s, p, x, t) && !x.ClaimRow?
    ensures p in s.procs && s.procs[p].pc != Idle && HasClaim(s.procs[p].pc)
  {
    hide ConfirmationFinished, BroadcastFinished, SigningFinished, Submit, FreshTransaction, HonestRead;
  }

  lemma ClaimOf(cfg: Config, s: State, p: string)
    requires ProtocolInv(cfg, s) && p in s.procs && HasClaim(s.procs[p].pc)
    ensures ClaimSound(cfg, s.db, s.log, s.procs[p].pc.claim)
  {
    hide RowsSigned, BroadcastSound, SuccessSound, LeasesLogged, SignerSound, ChainSound, IncludedBroadcast, LogSound, Shaped, ClaimSound, Executed;
    assert PcSound(cfg, s, s.procs[p].pc);
  }

  /** Claims of one row carry strictly increasing epochs, across all phases. */
  lemma EpochsIncrease(cfg: Config, states: seq<State>, actions: seq<Action>, k: nat, i: nat, j: nat)
    requires Run(cfg, states, actions) && k < |states| && i < j < |states[k].log| && SameRow(states[k].log[i], states[k].log[j])
    ensures states[k].log[i].epoch < states[k].log[j].epoch
  {
    hide Next, Initial, Inv, StoreInv, LedgerInv, RowsSigned, BroadcastSound, SuccessSound, LeasesLogged, SignerSound, ChainSound, IncludedBroadcast, ProcsSound, Shaped;
    RunParts(cfg, states, actions, k);
  }

  // ---------- one payment per request ----------

  /** Whatever is retried, a request is signed once: the transaction a row carries at any time is the
      one the signer keeps for it at every later time, and every node that knows it knows this content. */
  lemma SignedOnce(cfg: Config, states: seq<State>, actions: seq<Action>, j: nat, k: nat, table: Table, id: string)
    requires Run(cfg, states, actions) && j <= k < |states|
    requires HasRow(states[j].db, table, id) && RowJob(states[j].db, table, id).transaction.Some?
    ensures
      var tx := RowJob(states[j].db, table, id).transaction.value;
      && HasRow(states[k].db, table, id) && RowJob(states[k].db, table, id).transaction == Some(tx)
      && SignedFor(states[k].signer, RowRequest(cfg, states[j].db, table, id), tx)
      && (tx.id in states[k].chain.broadcasted ==> states[k].chain.broadcasted[tx.id] == tx.payload)
  {
    hide Next, Initial, Inv, StoreInv, LedgerInv, BroadcastSound, SuccessSound, LeasesLogged, SignerSound, ChainSound, IncludedBroadcast, ProcsSound, Shaped, ChainGrows;
    RunParts(cfg, states, actions, j);
    RunParts(cfg, states, actions, k);
    RunProgress(cfg, states, actions, j, k);
    var tx := RowJob(states[j].db, table, id).transaction.value;
    if tx.id in states[k].chain.broadcasted {
      PayloadKnown(cfg, states[k], RowRequest(cfg, states[j].db, table, id), tx);
    }
  }

  /** Nodes are given at most one transaction per request. */
  lemma BroadcastOnce(cfg: Config, states: seq<State>, actions: seq<Action>, k: nat, x: string, y: string)
    requires Run(cfg, states, actions) && k < |states| && x in states[k].chain.broadcasted && y in states[k].chain.broadcasted
    requires states[k].chain.broadcasted[x].request.id == states[k].chain.broadcasted[y].request.id
    ensures x == y
  {
    hide Next, Initial, Inv, StoreInv, LedgerInv, SuccessSound, LeasesLogged, ChainSound, IncludedBroadcast, ProcsSound, Shaped, LogSound, SentBy, SignerSound, RowsSigned;
    RunParts(cfg, states, actions, k);
    var s := states[k];
    var tx, ty := SignedTransaction(x, s.chain.broadcasted[x]), SignedTransaction(y, s.chain.broadcasted[y]);
    var table, id :| SentBy(s.db, tx, table, id);
    var table', id' :| SentBy(s.db, ty, table', id');
    SentSigned(cfg, s, tx, table, id);
    SentSigned(cfg, s, ty, table', id');
  }

  /** At most one transfer out of custody per request on any canonical chain, for exactly the row's amount. */
  lemma PaidOnceExactly(cfg: Config, states: seq<State>, actions: seq<Action>, n: nat, k: nat, l: nat)
    requires Run(cfg, states, actions) && n < |states|
    requires k < |Flat(states[n].chain.blocks)| && l < |Flat(states[n].chain.blocks)|
    requires FromCustody(cfg, Flat(states[n].chain.blocks)[k]) && FromCustody(cfg, Flat(states[n].chain.blocks)[l])
    ensures exists table, id :: PaidBy(cfg, states[n], Flat(states[n].chain.blocks)[k], table, id)
    ensures
      var s := states[n];
      var t, u := Flat(s.chain.blocks)[k], Flat(s.chain.blocks)[l];
      && t.id.transactionId in s.chain.broadcasted && u.id.transactionId in s.chain.broadcasted
      && (PayloadOf(s, t).request.id == PayloadOf(s, u).request.id ==> k == l)
  {
    hide Next, Initial, Inv, StoreInv, LedgerInv, ProtocolInv, FromCustody, SentBy, SignedFor;
    RunParts(cfg, states, actions, n);
    var s := states[n];
    var table, id := CustodyPayer(cfg, s, Flat(s.chain.blocks)[k]);
    var table', id' := CustodyPayer(cfg, s, Flat(s.chain.blocks)[l]);
    if PayloadOf(s, Flat(s.chain.blocks)[k]).request.id == PayloadOf(s, Flat(s.chain.blocks)[l]).request.id {
      PaidOnce(cfg, s, k, l);
    }
  }

  lemma OtherRowDiffers(cfg: Config, s: State, table: Table, other: string, request: TransferRequest, tx: SignedTransaction)
    requires SignerSound(s.signer) && RowsSigned(cfg, s.db, s.signer) && SignedFor(s.signer, request, tx)
    requires HasRow(s.db, table, other) && other != request.id && RowJob(s.db, table, other).transaction.Some?
    ensures RowJob(s.db, table, other).transaction.value.id != tx.id
  {
    assert SignedFor(s.signer, RowRequest(cfg, s.db, table, other), RowJob(s.db, table, other).transaction.value);
    assert other in s.signer && request.id in s.signer;
  }

  /** A signed transaction is never found on another row: the conflict branch of completion is dead. */
  lemma SigningNeverConflicts(cfg: Config, states: seq<State>, actions: seq<Action>, k: nat, p: string)
    requires Run(cfg, states, actions) && k < |states| && p in states[k].procs && states[k].procs[p].pc.SignerReturned?
    ensures
      var pc := states[k].procs[p].pc;
      TransactionUnused(states[k].db, pc.claim.table, pc.claim.id, pc.tx.id)
  {
    hide Next, Initial, Inv, StoreInv, LedgerInv, ProtocolInv, TransactionUnused;
    RunParts(cfg, states, actions, k);
    SignedUnused(cfg, states[k], p);
  }

  lemma SignedUnused(cfg: Config, s: State, p: string)
    requires ProtocolInv(cfg, s) && p in s.procs && s.procs[p].pc.SignerReturned?
    ensures TransactionUnused(s.db, s.procs[p].pc.claim.table, s.procs[p].pc.claim.id, s.procs[p].pc.tx.id)
  {
    hide BroadcastSound, SuccessSound, LeasesLogged, ChainSound, IncludedBroadcast, LogSound, Shaped, Executed, SignerSound, RowsSigned, SignedFor;
    var pc := s.procs[p].pc;
    assert PcSound(cfg, s, pc);
    if pc.claim.table == PayoutTable {
      forall other | other in s.db.payouts && other != pc.claim.id && s.db.payouts[other].job.transaction.Some?
        ensures s.db.payouts[other].job.transaction.value.id != pc.tx.id
      {
        OtherRowDiffers(cfg, s, PayoutTable, other, pc.claim.request, pc.tx);
      }
    } else {
      forall other | other in s.db.sweeps && other != pc.claim.id && s.db.sweeps[other].job.transaction.Some?
        ensures s.db.sweeps[other].job.transaction.value.id != pc.tx.id
      {
        OtherRowDiffers(cfg, s, SweepTable, other, pc.claim.request, pc.tx);
      }
    }
  }

  /** A row carries its signed transaction exactly from ready_for_broadcast onward, in either table. */
  lemma SignedFromReady(cfg: Config, states: seq<State>, actions: seq<Action>, k: nat, table: Table, id: string)
    requires Run(cfg, states, actions) && k < |states| && HasRow(states[k].db, table, id)
    ensures
      var job := RowJob(states[k].db, table, id);
      job.transaction.Some? <==> job.status in {ReadyForBroadcast, Confirming, Succeeded, Failed}
  {
    hide Next, Initial, Inv, StoreInv, LedgerInv;
    RunParts(cfg, states, actions, k);
    RowShaped(states[k].db, table, id);
  }

  // ---------- terminal soundness ----------

  /** A row succeeds only if its transaction executed on the solidified chain, and then stays so. */
  lemma SucceededExecuted(cfg: Config, states: seq<State>, actions: seq<Action>, k: nat, table: Table, id: string)
    requires Run(cfg, states, actions) && k < |states|
    requires HasRow(states[k].db, table, id) && RowJob(states[k].db, table, id).status == Succeeded
    ensures RowJob(states[k].db, table, id).transaction.Some?
    ensures Executed(states[k].chain, RowJob(states[k].db, table, id).transaction.value.id, ExecutionSucceeded)
  {
    hide Next, Initial, Inv, StoreInv, LedgerInv, RowsSigned, BroadcastSound, LeasesLogged, SignerSound, ChainSound, IncludedBroadcast, ProcsSound, Shaped, Executed, LogSound;
    RunParts(cfg, states, actions, k);
  }

  /** Finality over runs: once the chain's answer for a transaction is solidified, every later answer is the same. */
  lemma AnswersFinal(cfg: Config, states: seq<State>, actions: seq<Action>, j: nat, k: nat, id: string)
    requires Run(cfg, states, actions) && j <= k < |states| && Simulator.AnswerOf(states[j].chain, id).state.solidified
    ensures Simulator.AnswerOf(states[k].chain, id) == Simulator.AnswerOf(states[j].chain, id)
  {
    hide Next, Initial, Inv, StoreInv, LedgerInv, ProtocolInv, RowsAdvance, ChainGrows, ValidChain, Simulator.AnswerOf;
    RunParts(cfg, states, actions, j);
    RunParts(cfg, states, actions, k);
    ProtocolParts(cfg, states[j]);
    ProtocolParts(cfg, states[k]);
    RunProgress(cfg, states, actions, j, k);
    Simulator.SolidifiedAnswerIsFinal(states[j].chain, states[k].chain, id);
  }

  /** When expiry decisions are quiet, a failed row's transaction is never executed successfully, now
      or at any later time, on any canonical block. */
  lemma FailedNeverPays(cfg: Config, states: seq<State>, actions: seq<Action>, j: nat, k: nat, table: Table, id: string, i: nat)
    requires Run(cfg, states, actions) && QuietRun(states, actions) && j <= k < |states|
    requires HasRow(states[j].db, table, id) && RowJob(states[j].db, table, id).status == Failed
    requires i < |states[k].chain.blocks|
    ensures RowJob(states[j].db, table, id).transaction.Some?
    ensures Receipt(RowJob(states[j].db, table, id).transaction.value.id, ExecutionSucceeded) !in states[k].chain.blocks[i].receipts
  {
    hide Next, Initial, Inv, StoreInv, LedgerInv, RowsSigned, BroadcastSound, LeasesLogged, SignerSound, IncludedBroadcast, ProcsSound, Shaped, LogSound, NeverPays, QuietRun, ExpiriesSound, ValidBlocks, CustodyPaid, CustodyOnce, TimesRise, InTime;
    RunParts(cfg, states, actions, k);
    TerminalAbsorbing(cfg, states, actions, j, k, table, id);
    FinalRun(cfg, states, actions, k);
    NeverPaysUnpaid(states[k].chain, RowJob(states[k].db, table, id).transaction.value, i);
  }

  /** Over a whole run: every declared expiry is right if and only if every one of them was quiet. */
  lemma ExpiriesRightIffQuiet(cfg: Config, states: seq<State>, actions: seq<Action>)
    requires Run(cfg, states, actions)
    ensures QuietRun(states, actions) <==>
            forall k :: 0 <= k < |actions| && Expires(states[k], actions[k]) ==> RightExpiry(states[k], actions[k])
  {
    hide Next, Initial, Inv, NothingBetween, Expired;
    forall k | 0 <= k < |actions| && Expires(states[k], actions[k])
      ensures RightExpiry(states[k], actions[k]) <==> QuietRead(states[k], actions[k])
    {
      InvRun(cfg, states, actions, k);
      ExpiryExact(cfg, states[k], actions[k]);
    }
  }

  /** The transaction declared expired is on no canonical block and its time is over. */
  ghost predicate RightExpiry(s: State, a: Action)
    requires Expires(s, a)
  {
    Expired(s.chain, s.procs[a.proc].pc.claim.transaction.value)
  }

  // ---------- reconciliation ----------

  /** No false shortfall: in every state of every quiet run the wallet rule can only warn of an excess. */
  lemma NoFalseShortfall(cfg: Config, states: seq<State>, actions: seq<Action>, k: nat)
    requires Run(cfg, states, actions) && QuietRun(states, actions) && k < |states|
    ensures forall f :: f in Detectors.WalletFindings(states[k].db.snapshots) ==> f.rule == Detectors.CustodyExcess
    ensures forall snapshot :: snapshot in states[k].db.snapshots ==>
              SnapshotSound(cfg, states[k].chain, snapshot) && snapshot.ledger.balance <= snapshot.total + snapshot.ledger.payoutAmount
  {
    hide Next, Initial, QuietRun, CaptureSound, BalancesAt;
    CapturesRun(cfg, states, actions, k);
    forall snapshot | snapshot in states[k].db.snapshots ensures !Wallets.Shortfall(snapshot) {
      assert SnapshotSound(cfg, states[k].chain, snapshot);
    }
    Detectors.WalletsOnlyExceed(states[k].db.snapshots);
  }

  // ---------- the inbound side ----------

  /** The indexed events are exactly the tracked contract's transfers of the blocks below the cursor,
      which hang together back to the anchor. */
  lemma IndexedExactly(cfg: Config, states: seq<State>, actions: seq<Action>, k: nat)
    requires Run(cfg, states, actions) && k < |states| && states[k].db.cursor.start < states[k].db.cursor.next
    ensures
      var c, chain := states[k].db.cursor, states[k].chain;
      && c.tracked.Some? && c.next <= chain.solidified + 1 && c.next <= |chain.blocks|
      && Exact(states[k].db.events, chain.blocks[..c.next], c.tracked.value, c.start)
      && c.previous == chain.blocks[c.next - 1].header.hash && chain.blocks[c.start].header.parentHash == c.anchor
      && (forall h :: c.start < h < c.next ==> chain.blocks[h].header.parentHash == chain.blocks[h - 1].header.hash)
  {
    hide Next, Initial, ProtocolInv, StoreInv, Exact;
    RunParts(cfg, states, actions, k);
    var c, chain := states[k].db.cursor, states[k].chain;
    ProtocolParts(cfg, states[k]);
    forall h | c.start < h < c.next ensures chain.blocks[h].header.parentHash == chain.blocks[h - 1].header.hash {
      LinkedToParent(chain.network, chain.blocks, h);
    }
  }

  /** Inserting a fetched block never meets a conflicting event row: the scanner only fails by losing its lease. */
  lemma ScannerNeverConflicts(cfg: Config, states: seq<State>, actions: seq<Action>, k: nat, p: string)
    requires Run(cfg, states, actions) && k < |states| && p in states[k].procs && states[k].procs[p].pc.ScanFetched?
    requires states[k].procs[p].pc.scan.next == states[k].db.cursor.next
    ensures
      var s, pc := states[k], states[k].procs[p].pc;
      forall key :: key in Indexer.BlockEvents(pc.contract, pc.block) ==> key !in s.db.events
  {
    hide Next, Initial, Inv, StoreInv, LedgerInv, ProtocolInv, Indexer.BlockEvents;
    RunParts(cfg, states, actions, k);
    FetchedIsNew(cfg, states[k], p);
  }

  lemma FetchedIsNew(cfg: Config, s: State, p: string)
    requires Inv(cfg, s) && p in s.procs && s.procs[p].pc.ScanFetched? && s.procs[p].pc.scan.next == s.db.cursor.next
    ensures forall key :: key in Indexer.BlockEvents(s.procs[p].pc.contract, s.procs[p].pc.block) ==> key !in s.db.events
  {
    hide ProtocolInv, StoreInv, SweepInv, Indexer.EventsValid, Exact, ValidBlocks;
    ProtocolParts(cfg, s);
    var pc := s.procs[p].pc;
    assert ScanSound(s.db, s.chain, pc);
    ValidTargets(s.chain.network, pc.contract, pc.block);
    StartExact(s.db, s.chain, pc.contract);
    NeverConflicts(s.chain.network, s.chain.blocks, s.db.cursor.next, s.db.events, pc.contract, s.db.cursor.start);
  }

  /** Received, status and credit of every intent agree with the events processed for it. */
  lemma IntentsAgree(cfg: Config, states: seq<State>, actions: seq<Action>, k: nat, id: string)
    requires Run(cfg, states, actions) && k < |states| && id in states[k].db.intents
    ensures IntentSound(states[k].db.matches, id, states[k].db.intents[id])
  {
    hide Next, Initial, ProtocolInv, Inv, LedgerInv, IntentSound;
    RunParts(cfg, states, actions, k);
  }

  // ---------- sweeps ----------

  /** Per source at most one active sweep, and succeeded plus active sweeps stay within the indexed inbound. */
  lemma SweepsSafe(cfg: Config, states: seq<State>, actions: seq<Action>, k: nat)
    requires Run(cfg, states, actions) && k < |states|
    ensures SweepInv(cfg, states[k].db.events, states[k].db.sweeps)
  {
    hide Next, Initial, ProtocolInv, StoreInv, SweepInv;
    RunParts(cfg, states, actions, k);
  }

  /** From planning until execution an active sweep's amount lies in its source wallet. */
  lemma SweepsFunded(cfg: Config, states: seq<State>, actions: seq<Action>, k: nat, id: string, n: nat)
    requires Run(cfg, states, actions) && QuietRun(states, actions) && k < |states|
    requires states[k].chain.solidified < n <= |states[k].chain.blocks|
    requires id in states[k].db.sweeps && Sweeps.ActiveSweep(states[k].db.sweeps[id].job.status)
    requires SweepFunds.Unexecuted(states[k].chain, states[k].db.sweeps[id], n)
    ensures states[k].db.sweeps[id].amount <= TokenBalance(states[k].chain.blocks[..n], states[k].db.sweeps[id].asset, states[k].db.sweeps[id].source)
  {
    hide Next, Initial, Inv, FinalInv, QuietRun, TokenBalance;
    RunParts(cfg, states, actions, k);
    FinalRun(cfg, states, actions, k);
    SweepFunds.SourceCovered(cfg, states[k], id, n);
  }
}
