// Creating a payout is idempotent: repeating a request at any later time returns the same payout
// and changes nothing, and a different request on a used key or reference changes nothing either.
module Idempotency {
  import opened Prelude
  import opened Ledger
  import opened Tables
  import opened Payouts
  import opened LedgerProofs
  import opened LedgerSteps
  import opened LedgerTransactions
  import opened Gateway
  import opened Protocol
  import opened Invariants
  import StoreProofs
  import Theorems

  /** The same request, under whatever payout id the retry generated. */
  predicate SameCall(a: CreateRequest, b: CreateRequest) {
    b == a.(id := b.id)
  }

  /** The payout carries the request's key and reference and its fingerprint. */
  predicate Answers(payouts: map<string, Payout>, id: string, r: CreateRequest) {
    && id in payouts && payouts[id].merchant == r.merchant && payouts[id].key == r.key && payouts[id].reference == r.reference
    && payouts[id].asset == r.asset && payouts[id].destination == r.destination && payouts[id].amountText == r.amountText
  }

  /** A payout that answers a request is the only one sharing its key or reference. */
  lemma AnswerIsOnly(payouts: map<string, Payout>, id: string, r: CreateRequest)
    requires KeysUnique(payouts) && Answers(payouts, id, r)
    ensures Matching(payouts, r) == {id}
  {
    forall other | other in Matching(payouts, r) ensures other == id {
    }
    assert id in Matching(payouts, r);
  }

  /** Whatever its outcome, a call that differs from the payout holding its key or reference changes nothing. */
  lemma DifferingChangesNothing(db: Db, r: CreateRequest, merchant: MerchantStatus, assetStatus: AssetStatus, journalId: string, id: string)
    requires ValidRequest(r) && merchant != MissingMerchant
    requires id in db.payouts && db.payouts[id].merchant == r.merchant && (db.payouts[id].key == r.key || db.payouts[id].reference == r.reference)
    requires
      var p := db.payouts[id];
      p.asset != r.asset || p.reference != r.reference || p.destination != r.destination || p.amountText != r.amountText
    ensures Create(db, r, merchant, assetStatus, journalId) == (db, Err(PayoutConflict))
  {
    FindExistingExact(db.payouts, r);
    assert id in Matching(db.payouts, r);
    assert forall other :: Matching(db.payouts, r) == {other} ==> id in {other};
  }

  /** A request already answered is answered again, without any change, even by an inactive merchant. */
  lemma RepeatChangesNothing(db: Db, r: CreateRequest, merchant: MerchantStatus, assetStatus: AssetStatus, journalId: string, id: string)
    requires KeysUnique(db.payouts) && ValidRequest(r) && merchant != MissingMerchant && Answers(db.payouts, id, r)
    ensures Create(db, r, merchant, assetStatus, journalId) == (db, Ok(CreateOutcome(id, false)))
  {
    AnswerIsOnly(db.payouts, id, r);
    FindExistingExact(db.payouts, r);
  }

  /** The payout a first call creates answers the request. */
  lemma CreatedAnswers(db: Db, r: CreateRequest, merchant: MerchantStatus, assetStatus: AssetStatus, journalId: string)
    requires LedgerInv(db) && journalId !in db.journals
    requires Create(db, r, merchant, assetStatus, journalId).1 == Ok(CreateOutcome(r.id, true))
    ensures Answers(Create(db, r, merchant, assetStatus, journalId).0.payouts, r.id, r)
  {
    hide LedgerInv;
    CreateKeeps(db, r, merchant, assetStatus, journalId);
  }

  /** Identity columns of a payout never change along a run. */
  lemma {:induction false} IdentityKept(cfg: Config, states: seq<State>, actions: seq<Action>, j: nat, k: nat, id: string)
    requires Run(cfg, states, actions) && j <= k < |states| && id in states[j].db.payouts
    ensures id in states[k].db.payouts && SameIdentity(states[k].db.payouts[id], states[j].db.payouts[id])
    decreases k - j
  {
    hide Next, Initial, Inv;
    if j < k {
      IdentityKept(cfg, states, actions, j, k - 1, id);
      InvRun(cfg, states, actions, k - 1);
      assert Linked(cfg, states, actions, k - 1);
      IdentityStep(cfg, states[k - 1], actions[k - 1], states[k], id);
    }
  }

  lemma IdentityStep(cfg: Config, s: State, a: Action, t: State, id: string)
    requires Inv(cfg, s) && Next(cfg, s, a, t) && id in s.db.payouts
    ensures id in t.db.payouts && SameIdentity(t.db.payouts[id], s.db.payouts[id])
  {
    hide Next, Inv;
    var change := Invariants.StepRows(cfg, s, a, t);
  }

  /** Idempotent creation over runs: once a call has created a payout, the same call made at any later
      time, any number of times, returns that payout and leaves the state as it is. */
  lemma CreateOnce(cfg: Config, states: seq<State>, actions: seq<Action>, j: nat, k: nat,
                   r: CreateRequest, retry: CreateRequest, merchant: MerchantStatus, assetStatus: AssetStatus, journalId: string)
    requires Run(cfg, states, actions) && j < k < |states|
    requires actions[j].Store? && actions[j].store.CreatePayout? && actions[j].store.create == r
    requires Create(states[j].db, r, actions[j].store.merchant, actions[j].store.assetStatus, actions[j].store.journalId).1
          == Ok(CreateOutcome(r.id, true))
    requires SameCall(r, retry) && retry.id != "" && merchant != MissingMerchant
    ensures Create(states[k].db, retry, merchant, assetStatus, journalId) == (states[k].db, Ok(CreateOutcome(r.id, false)))
  {
    hide Initial, Inv, LedgerInv, Create, ProtocolInv, StoreProofs.StoreInv;
    Theorems.RunParts(cfg, states, actions, j);
    assert Linked(cfg, states, actions, j);
    var x := actions[j].store;
    CreatedAnswers(states[j].db, r, x.merchant, x.assetStatus, x.journalId);
    IdentityKept(cfg, states, actions, j + 1, k, r.id);
    Theorems.RunParts(cfg, states, actions, k);
    UniqueKeys(states[k].db);
    CreatedValid(states[j].db, r, x.merchant, x.assetStatus, x.journalId);
    RepeatChangesNothing(states[k].db, retry, merchant, assetStatus, journalId, r.id);
  }

  lemma UniqueKeys(db: Db)
    requires LedgerInv(db)
    ensures KeysUnique(db.payouts)
  {
  }

  lemma CreatedValid(db: Db, r: CreateRequest, merchant: MerchantStatus, assetStatus: AssetStatus, journalId: string)
    requires Create(db, r, merchant, assetStatus, journalId).1.Ok?
    ensures ValidRequest(r)
  {
    hide FindExisting, PostedId, PostedJournals, Balance;
  }
}
