// Posted journals are never changed or removed, and every credit books an entry on custody: an
// unchanged entry count of a custody account certifies unchanged credits.
module Entries {
  import opened Sums
  import opened Chain
  import opened Lease
  import opened Ledger
  import opened Tables
  import opened Gateway
  import opened LedgerProofs
  import opened LedgerTransactions
  import opened DepositProofs
  import opened RowSteps
  import opened StoreProofs
  import opened Frames
  import Payouts
  import Deposits
  import Sweeps

  predicate JournalsKept(was: Journals, journals: Journals) {
    forall id :: id in was ==> id in journals && journals[id] == was[id]
  }

  ghost function CreditedSum(intents: map<string, Intent>, asset: string): int {
    MapSum(intents, CreditedAmount(asset))
  }

  /** Custody entries only grow, and unless they grow nothing was credited. */
  ghost predicate EntriesGrow(was: Db, db: Db) {
    && JournalsKept(was.journals, db.journals)
    && forall a ::
         && EntryCount(was.journals, Custody(a)) <= EntryCount(db.journals, Custody(a))
         && (EntryCount(was.journals, Custody(a)) == EntryCount(db.journals, Custody(a)) ==>
               CreditedSum(db.intents, a) == CreditedSum(was.intents, a))
  }

  lemma KeptCounts(was: Journals, journals: Journals, account: Account)
    requires JournalsKept(was, journals)
    ensures EntryCount(was, account) <= EntryCount(journals, account)
  {
    MapSumGrows(was, journals, HitsOf(account));
  }

  lemma SameCredits(was: Db, db: Db)
    requires JournalsKept(was.journals, db.journals)
    requires forall a :: CreditedSum(db.intents, a) == CreditedSum(was.intents, a)
    ensures EntriesGrow(was, db)
  {
    hide JournalsKept, EntryCount, CreditedSum;
    forall a ensures EntryCount(was.journals, Custody(a)) <= EntryCount(db.journals, Custody(a)) {
      KeptCounts(was.journals, db.journals, Custody(a));
    }
  }

  // ---------- payouts ----------

  lemma CreateEntries(db: Db, r: Payouts.CreateRequest, merchant: Payouts.MerchantStatus, assetStatus: Payouts.AssetStatus, journalId: string)
    requires LedgerInv(db) && journalId !in db.journals
    ensures EntriesGrow(db, Payouts.Create(db, r, merchant, assetStatus, journalId).0)
  {
    hide LedgerInv, Payouts.Create;
    CreateKeeps(db, r, merchant, assetStatus, journalId);
    SameCredits(db, Payouts.Create(db, r, merchant, assetStatus, journalId).0);
  }

  lemma ReviewEntries(db: Db, r: Payouts.ReviewRequest, allowed: bool, journalId: string)
    requires LedgerInv(db) && journalId !in db.journals
    ensures EntriesGrow(db, Payouts.Review(db, r, allowed, journalId).0)
  {
    hide LedgerInv, Payouts.Review;
    ReviewKeeps(db, r, allowed, journalId);
    SameCredits(db, Payouts.Review(db, r, allowed, journalId).0);
  }

  lemma FinalizeEntries(db: Db, claim: Claim, succeeded: bool, reason: string, journalId: string)
    requires LedgerInv(db) && journalId !in db.journals && claim.phase == ConfirmationPhase
    ensures EntriesGrow(db, FinalizeRow(db, claim, succeeded, reason, journalId))
  {
    hide LedgerInv, Payouts.Finalize;
    if claim.table == PayoutTable {
      FinalizeKeeps(db, claim, succeeded, reason, journalId);
    }
    SameCredits(db, FinalizeRow(db, claim, succeeded, reason, journalId));
  }

  // ---------- deposits ----------

  lemma CreditedSumAfter(intents: map<string, Intent>, id: string, i: Intent, a: string)
    requires id in intents ==> i.asset == intents[id].asset
    requires id !in intents ==> i.credited == 0
    ensures CreditedSum(intents[id := i], a)
         == CreditedSum(intents, a) + (if i.asset == a && id in intents then i.credited - intents[id].credited else 0)
  {
    if id in intents {
      MapSumUpdate(intents, CreditedAmount(a), id, i);
    } else {
      MapSumInsert(intents, CreditedAmount(a), id, i);
    }
  }

  /** A credit adds an entry on its asset's custody account. */
  lemma CreditHits(id: string, i: Intent)
    ensures Hits(Deposits.CreditJournal(id, i).entries, Custody(i.asset)) == 1
  {
    var entries := Deposits.CreditJournal(id, i).entries;
    assert entries[..1] == [entries[0]];
    assert entries[..1][..0] == [];
    assert Hits(entries[..1], Custody(i.asset)) == 1;
  }

  lemma CreditEntries(db: Db, key: EventId, id: string, journalId: string)
    requires Pays(db, key, id) && journalId !in db.journals
    ensures EntriesGrow(db, Credited(db, key, db.events[key], id, journalId))
  {
    hide MapSum;
    var next := Credited(db, key, db.events[key], id, journalId);
    var journal := Deposits.CreditJournal(id, db.intents[id]);
    forall a
      ensures EntryCount(db.journals, Custody(a)) <= EntryCount(next.journals, Custody(a))
      ensures EntryCount(db.journals, Custody(a)) == EntryCount(next.journals, Custody(a)) ==>
                CreditedSum(next.intents, a) == CreditedSum(db.intents, a)
    {
      MapSumInsert(db.journals, HitsOf(Custody(a)), journalId, journal);
      CreditHits(id, db.intents[id]);
      CreditedSumAfter(db.intents, id, CreditedIntent(db.intents[id], journalId), a);
    }
  }

  lemma QuietIntentEntries(db: Db, next: Db, id: string)
    requires next.journals == db.journals && id in next.intents && next.intents == db.intents[id := next.intents[id]]
    requires id in db.intents ==> next.intents[id].asset == db.intents[id].asset && next.intents[id].credited == db.intents[id].credited
    requires id !in db.intents ==> next.intents[id].credited == 0
    ensures EntriesGrow(db, next)
  {
    hide CreditedSum;
    forall a ensures CreditedSum(next.intents, a) == CreditedSum(db.intents, a) {
      CreditedSumAfter(db.intents, id, next.intents[id], a);
    }
    SameCredits(db, next);
  }

  lemma ApplyEntries(cfg: Config, db: Db, key: EventId, id: string, journalId: string)
    requires StoreInv(cfg, db) && journalId !in db.journals && Pays(db, key, id)
    ensures EntriesGrow(db, Deposits.Apply(db, key, db.events[key], id, journalId).0)
  {
    hide EntriesGrow, LedgerInv, DepositInv, Deposits.ApplyExact;
    if db.intents[id].received + db.events[key].amount != db.intents[id].expected {
      PartialShape(db, key, db.events[key], id, journalId);
      QuietIntentEntries(db, Accrued(db, key, db.events[key], id), id);
    } else {
      ApplyExactShape(cfg, db, key, id, journalId);
      var (next, outcome) := Deposits.ApplyExact(db, key, db.events[key], id, journalId);
      if outcome == Deposits.Applied(Paid, true) {
        CreditEntries(db, key, id, journalId);
      } else {
        SameCredits(db, next);
      }
    }
  }

  lemma MatchEntries(cfg: Config, db: Db, input: Deposits.MatchInput, journalId: string)
    requires StoreInv(cfg, db) && journalId !in db.journals
    ensures EntriesGrow(db, Deposits.Match(cfg, db, input, journalId).0)
  {
    hide EntriesGrow, Deposits.Match, Deposits.Apply;
    var route := MatchRoutes(cfg, db, input, journalId);
    match route
    case Payment(id) => ApplyEntries(cfg, db, input.event, id, journalId);
    case _ => SameCredits(db, Deposits.Match(cfg, db, input, journalId).0);
  }

  lemma CreateIntentEntries(cfg: Config, db: Db, id: string, i: Intent)
    ensures EntriesGrow(db, Deposits.CreateIntent(cfg, db, id, i))
  {
    hide EntriesGrow;
    var next := Deposits.CreateIntent(cfg, db, id, i);
    if next != db {
      QuietIntentEntries(db, next, id);
    } else {
      SameCredits(db, next);
    }
  }

  lemma ExpireEntries(db: Db, id: string)
    ensures EntriesGrow(db, Deposits.Expire(db, id))
  {
    hide EntriesGrow;
    if id in db.intents {
      QuietIntentEntries(db, Deposits.Expire(db, id), id);
    } else {
      SameCredits(db, db);
    }
  }

  // ---------- steps ----------

  lemma StoreEntries(cfg: Config, db: Db, x: StoreAction, next: Db)
    requires StoreInv(cfg, db) && StoreNext(cfg, db, x, next)
    ensures EntriesGrow(db, next)
  {
    hide StoreInv, EntriesGrow, Payouts.Create, Payouts.Review, Deposits.Match, Deposits.Expire, Deposits.CreateIntent, Sweeps.Candidate, LedgerInv;
    StoreLedger(cfg, db);
    match x
    case CreatePayout(r, merchant, assetStatus, journalId) => CreateEntries(db, r, merchant, assetStatus, journalId);
    case ReviewPayout(r, allowed, journalId) => ReviewEntries(db, r, allowed, journalId);
    case MatchEvent(input, journalId) => MatchEntries(cfg, db, input, journalId);
    case CreateIntent(id, i) => CreateIntentEntries(cfg, db, id, i);
    case ExpireIntent(id) => ExpireEntries(db, id);
    case _ => SameCredits(db, next);
  }

  lemma StoreLedger(cfg: Config, db: Db)
    requires StoreInv(cfg, db)
    ensures LedgerInv(db)
  {
  }

  lemma ConfirmationEntries(db: Db, pc: Pc, journalId: string, delay: nat)
    requires LedgerInv(db) && Confirmed(pc) && (pc.Releasing? || journalId !in db.journals) && PhaseAgrees(pc)
    ensures EntriesGrow(db, ConfirmationFinished(db, pc, journalId, delay))
  {
    hide LedgerInv, FinalizeRow, EntriesGrow;
    match pc
    case SawSucceeded(claim) => FinalizeEntries(db, claim, true, "", journalId);
    case SawFailed(claim) => FinalizeEntries(db, claim, false, "execution_failed", journalId);
    case SawExpired(claim) => FinalizeEntries(db, claim, false, "expired_not_found", journalId);
    case Releasing(claim, code) => SameCredits(db, ReleaseRow(db, claim, delay, code));
  }

  lemma WorkEntries(cfg: Config, s: State, p: string, x: WorkAction, t: State)
    requires LedgerInv(s.db) && PhasesAgree(s.procs) && WorkNext(cfg, s, p, x, t)
    ensures EntriesGrow(s.db, t.db)
  {
    hide LedgerInv, EntriesGrow, ConfirmationFinished, SigningFinished, BroadcastFinished, Submit, FreshTransaction, HonestRead, ClaimJob, WithJob;
    assert PhaseAgrees(s.procs[p].pc);
    if x.FinishConfirmation? {
      ConfirmationEntries(s.db, s.procs[p].pc, x.journalId, x.delay);
    } else {
      WorkRowTables(cfg, s, p, x, t);
      SameCredits(s.db, t.db);
    }
  }
}
