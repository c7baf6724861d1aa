// What creating and reviewing a payout answers in every reachable state, decided on the request's own
// fields, the rows and the balances, and what a created, approved or rejected payout then looks like.
module Creations {
  import opened Prelude
  import opened Lease
  import opened Ledger
  import opened Tables
  import opened Payouts
  import opened Gateway
  import opened LedgerProofs
  import opened LedgerTransactions
  import opened StoreProofs
  import opened Protocol
  import opened Invariants
  import opened Theorems
  import opened Idempotency
  import Amounts
  import Address
  import PayoutStore
  import Text

  // ---------- the amount of a request ----------

  /** An amount text is a decimal number with an optional sign, within int64. */
  lemma AmountText(text: string, n: int)
    ensures Amounts.ParsedInt64(text) == Some(n) <==>
      && -0x8000_0000_0000_0000 <= n <= 0x7FFF_FFFF_FFFF_FFFF
      && (|| (text != "" && Amounts.Digits(text) && n == Amounts.ValueOf(text))
          || (|text| > 1 && text[0] == '+' && Amounts.Digits(text[1..]) && n == Amounts.ValueOf(text[1..]))
          || (|text| > 1 && text[0] == '-' && Amounts.Digits(text[1..]) && n == 0 - Amounts.ValueOf(text[1..])))
  {
    hide Amounts.ValueOf;
    if text != "" && (text[0] == '+' || text[0] == '-') {
      assert !Amounts.IsDigit(text[0]);
    }
  }

  /** The fields the source checks before it touches the database. */
  predicate Acceptable(r: CreateRequest) {
    && r.id != "" && r.merchant != "" && r.asset != "" && r.destination != ""
    && r.key != "" && |r.key| <= 128 && r.reference != "" && |r.reference| <= 128
    && r.amountText != "" && |r.amountText| <= 19 && r.amountText[0] != '0'
    && Amounts.ParsedInt64(r.amountText).Some? && Amounts.ParsedInt64(r.amountText).value > 0
  }

  /** What a request becomes before anything is read: every field trimmed, checked, and the destination in hexadecimal form. */
  lemma NormalizedExact(check: Address.Checksum, raw: CreateRequest)
    ensures
      var t := CreateRequest(Text.TrimSpace(raw.id), Text.TrimSpace(raw.merchant), Text.TrimSpace(raw.asset), Text.TrimSpace(raw.key),
                             Text.TrimSpace(raw.reference), Text.TrimSpace(raw.destination), Text.TrimSpace(raw.amountText));
      var hex := Address.NormalizeAddressHex(check, t.destination);
      PayoutStore.Normalized(check, raw) ==
        if Acceptable(t) && |t.destination| <= 128 && Address.NormalizeAddress(check, t.destination).Some? && hex.Some?
        then Some(t.(destination := hex.value)) else None
  {
    hide Text.TrimSpace, Address.NormalizeAddress, Address.NormalizeAddressHex, Amounts.ParsedInt64;
  }

  // ---------- conflicts ----------

  /** The payout takes the request's key or its reference, for the same merchant. */
  predicate Takes(p: Payout, r: CreateRequest) {
    p.merchant == r.merchant && (p.key == r.key || p.reference == r.reference)
  }

  /** Nothing the merchant asked for differs. */
  predicate SameWish(p: Payout, r: CreateRequest) {
    p.asset == r.asset && p.reference == r.reference && p.destination == r.destination && p.amountText == r.amountText
  }

  /**
   * After a call created a payout, any later acceptable request of that merchant under the same key or
   * reference that differs in asset, reference, destination or amount text is a conflict and changes nothing.
   */
  lemma DifferentIsConflict(cfg: Config, states: seq<State>, actions: seq<Action>, j: nat, k: nat,
                            r: CreateRequest, later: CreateRequest, merchant: MerchantStatus, assetStatus: AssetStatus, journalId: string)
    requires Run(cfg, states, actions) && j < k < |states|
    requires actions[j].Store? && actions[j].store.CreatePayout? && actions[j].store.create == r
    requires Payouts.Create(states[j].db, r, actions[j].store.merchant, actions[j].store.assetStatus, actions[j].store.journalId).1
          == Ok(CreateOutcome(r.id, true))
    requires Acceptable(later) && merchant != MissingMerchant && later.merchant == r.merchant && (later.key == r.key || later.reference == r.reference)
    requires later.asset != r.asset || later.reference != r.reference || later.destination != r.destination || later.amountText != r.amountText
    ensures Payouts.Create(states[k].db, later, merchant, assetStatus, journalId) == (states[k].db, Err(PayoutConflict))
  {
    hide Initial, Inv, LedgerInv, Payouts.Create, ProtocolInv, StoreInv;
    RunParts(cfg, states, actions, j);
    assert Linked(cfg, states, actions, j);
    var x := actions[j].store;
    CreatedRow(states[j].db, r, x.merchant, x.assetStatus, x.journalId);
    IdentityKept(cfg, states, actions, j + 1, k, r.id);
    DifferingChangesNothing(states[k].db, later, merchant, assetStatus, journalId, r.id);
  }

  lemma CreatedRow(db: Db, r: CreateRequest, merchant: MerchantStatus, assetStatus: AssetStatus, journalId: string)
    requires LedgerInv(db) && journalId !in db.journals && Payouts.Create(db, r, merchant, assetStatus, journalId).1 == Ok(CreateOutcome(r.id, true))
    ensures
      var next := Payouts.Create(db, r, merchant, assetStatus, journalId).0;
      && r.id in next.payouts
      && next.payouts[r.id].merchant == r.merchant && next.payouts[r.id].key == r.key && next.payouts[r.id].reference == r.reference
      && next.payouts[r.id].asset == r.asset && next.payouts[r.id].destination == r.destination && next.payouts[r.id].amountText == r.amountText
  {
    hide LedgerInv;
    CreateKeeps(db, r, merchant, assetStatus, journalId);
  }

  // ---------- every answer of Create ----------

  /** One payout takes both the key and the reference, or just one of them, and is what the request wishes. */
  ghost predicate AnsweredBy(payouts: map<string, Payout>, r: CreateRequest, id: string) {
    && id in payouts && Takes(payouts[id], r) && SameWish(payouts[id], r)
    && forall other :: other in payouts && Takes(payouts[other], r) ==> other == id
  }

  predicate Untaken(payouts: map<string, Payout>, r: CreateRequest) {
    forall id :: id in payouts ==> !Takes(payouts[id], r)
  }

  /** The answers that leave everything as it is, in the source's order. */
  lemma RefusalsExact(db: Db, r: CreateRequest, merchant: MerchantStatus, assetStatus: AssetStatus, journalId: string)
    requires LedgerInv(db) && journalId !in db.journals
    ensures
      var result := Payouts.Create(db, r, merchant, assetStatus, journalId);
      var available, frozen := Available(r.merchant, r.asset), Frozen(r.merchant, r.asset);
      var amount := r.Amount();
      && (!Acceptable(r) ==> result == (db, Err(InvalidRequest)))
      && (Acceptable(r) && merchant == MissingMerchant ==> result == (db, Err(MerchantUnavailable)))
      && (Acceptable(r) && merchant != MissingMerchant ==>
            && (forall id :: AnsweredBy(db.payouts, r, id) ==> result == (db, Ok(CreateOutcome(id, false))))
            && (!Untaken(db.payouts, r) && (forall id :: !AnsweredBy(db.payouts, r, id)) ==> result == (db, Err(PayoutConflict)))
            && (Untaken(db.payouts, r) ==>
                  && (merchant == InactiveMerchant ==> result == (db, Err(MerchantUnavailable)))
                  && (merchant == ActiveMerchant && assetStatus == NoActiveAsset ==> result == (db, Err(AssetUnavailable)))
                  && (merchant == ActiveMerchant && assetStatus.ActiveAsset? && !("tron" <= Text.Lower(assetStatus.network)) ==>
                        result == (db, Err(UnsupportedNetwork)))))
  {
    hide LedgerInv, Balance, PostedId, PostedJournals;
    FindExistingExact(db.payouts, r);
    forall id | AnsweredBy(db.payouts, r, id) ensures FindExisting(db.payouts, r) == Ok(Some(id)) {
      assert id in Matching(db.payouts, r);
      assert Matching(db.payouts, r) == {id};
    }
    if FindExisting(db.payouts, r).Ok? && FindExisting(db.payouts, r).value.Some? {
      var id := FindExisting(db.payouts, r).value.value;
      assert id in Matching(db.payouts, r);
      forall other | other in db.payouts && Takes(db.payouts[other], r) ensures other == id {
        assert other in Matching(db.payouts, r);
      }
      assert AnsweredBy(db.payouts, r, id);
    }
  }

  /** The row, journal and balances of a created payout, column by column. */
  function Created(db: Db, r: CreateRequest, journalId: string): Db {
    var entries := [
      Entry(Available(r.merchant, r.asset), r.asset, DebitSide, r.Amount()),
      Entry(Frozen(r.merchant, r.asset), r.asset, CreditSide, r.Amount())];
    var job := Job(PendingReview, None, 0, 0, 0, 0, None, None, 0, "", "");
    db.(journals := db.journals[journalId := Journal(MerchantRequester(r.merchant), FreezeKey(r.key), PayoutFreeze, r.id, entries)],
        payouts := db.payouts[r.id := Payout(r.merchant, r.asset, r.key, r.reference, r.destination, r.Amount(), r.amountText, journalId,
                                             None, None, None, true, job)])
  }

  /** With a merchant and asset in order and nothing taken, the accounts and the available balance decide. */
  lemma CreationExact(db: Db, r: CreateRequest, assetStatus: AssetStatus, journalId: string)
    requires LedgerInv(db) && journalId !in db.journals
    requires Acceptable(r) && Untaken(db.payouts, r) && assetStatus.ActiveAsset? && "tron" <= Text.Lower(assetStatus.network)
    ensures
      var result := Payouts.Create(db, r, ActiveMerchant, assetStatus, journalId);
      var available, frozen := Available(r.merchant, r.asset), Frozen(r.merchant, r.asset);
      result ==
        if available !in db.accounts || db.accounts[available] != Active || frozen !in db.accounts || db.accounts[frozen] != Active
        then (db, Err(LedgerUnavailable))
        else if Balance(db.journals, available) < r.Amount() then (db, Err(InsufficientBalance))
        else if r.id in db.payouts then (db, Err(WriteFailed))
        else (Created(db, r, journalId), Ok(CreateOutcome(r.id, true)))
  {
    hide LedgerInv, Balance, PostedId, PostedJournals;
    FindExistingExact(db.payouts, r);
    AvailableNeverNegative(db, r.merchant, r.asset);
    assert forall id :: id in db.payouts ==> !SharesKey(db.payouts[id], r);
    CreateKeeps(db, r, ActiveMerchant, assetStatus, journalId);
    var outcome := Payouts.Create(db, r, ActiveMerchant, assetStatus, journalId).1;
    if r.id !in db.payouts {
      assert outcome != Err(WriteFailed);
    }
  }

  lemma AvailableNeverNegative(db: Db, merchant: string, asset: string)
    requires LedgerInv(db)
    ensures 0 <= Balance(db.journals, Available(merchant, asset))
  {
  }

  /** What Create does, in the source's order of checks. */
  ghost function CreateResult(db: Db, r: CreateRequest, merchant: MerchantStatus, assetStatus: AssetStatus, journalId: string)
    : (Db, Result<CreateOutcome, CreateError>)
  {
    var available, frozen := Available(r.merchant, r.asset), Frozen(r.merchant, r.asset);
    if !Acceptable(r) then (db, Err(InvalidRequest))
    else if merchant == MissingMerchant then (db, Err(MerchantUnavailable))
    else if exists id :: AnsweredBy(db.payouts, r, id) then
      var id :| AnsweredBy(db.payouts, r, id);
      (db, Ok(CreateOutcome(id, false)))
    else if !Untaken(db.payouts, r) then (db, Err(PayoutConflict))
    else if merchant == InactiveMerchant then (db, Err(MerchantUnavailable))
    else if assetStatus == NoActiveAsset then (db, Err(AssetUnavailable))
    else if !("tron" <= Text.Lower(assetStatus.network)) then (db, Err(UnsupportedNetwork))
    else if available !in db.accounts || db.accounts[available] != Active || frozen !in db.accounts || db.accounts[frozen] != Active
    then (db, Err(LedgerUnavailable))
    else if Balance(db.journals, available) < r.Amount() then (db, Err(InsufficientBalance))
    else if r.id in db.payouts then (db, Err(WriteFailed))
    else (Created(db, r, journalId), Ok(CreateOutcome(r.id, true)))
  }

  /** In every reachable state Create does exactly that. */
  lemma CreateExact(cfg: Config, states: seq<State>, actions: seq<Action>, k: nat, r: CreateRequest, merchant: MerchantStatus, assetStatus: AssetStatus, journalId: string)
    requires Run(cfg, states, actions) && k < |states| && journalId !in states[k].db.journals
    ensures Payouts.Create(states[k].db, r, merchant, assetStatus, journalId) == CreateResult(states[k].db, r, merchant, assetStatus, journalId)
  {
    hide Initial, Inv, LedgerInv, Payouts.Create, ProtocolInv, StoreInv, Linked, Balance, Created, Acceptable;
    RunParts(cfg, states, actions, k);
    var db := states[k].db;
    RefusalsExact(db, r, merchant, assetStatus, journalId);
    if exists id :: AnsweredBy(db.payouts, r, id) {
      var id :| AnsweredBy(db.payouts, r, id);
      assert !Untaken(db.payouts, r);
    } else if Acceptable(r) && Untaken(db.payouts, r) && merchant == ActiveMerchant && assetStatus.ActiveAsset? && "tron" <= Text.Lower(assetStatus.network) {
      CreationExact(db, r, assetStatus, journalId);
    }
  }

  /** Creating moves exactly the amount from available to frozen. */
  lemma CreatedMoves(db: Db, r: CreateRequest, journalId: string, account: Account)
    requires journalId !in db.journals
    ensures Balance(Created(db, r, journalId).journals, account) == Balance(db.journals, account)
      + (if account == Available(r.merchant, r.asset) then -r.Amount() else if account == Frozen(r.merchant, r.asset) then r.Amount() else 0)
  {
    var journal := Created(db, r, journalId).journals[journalId];
    PostingMoves(db.journals, journalId, journal, Available(r.merchant, r.asset), Frozen(r.merchant, r.asset), r.asset, r.Amount(), account);
  }

  // ---------- every answer of Review ----------

  predicate Reviewable(r: ReviewRequest) {
    r.id != "" && r.reviewer != "" && |r.reviewer| <= 128 && r.reason != "" && |r.reason| <= 512
  }

  /** The payout as an approval or rejection leaves it. */
  function Decided(p: Payout, r: ReviewRequest, journalId: string): Payout {
    if r.decision == Approve then p.(review := Some(ReviewRecord(r.reviewer, r.reason)), screeningOpen := false, job := p.job.(status := Approved))
    else p.(review := Some(ReviewRecord(r.reviewer, r.reason)), screeningOpen := false, unfreezeId := Some(journalId), job := p.job.(status := Rejected))
  }

  function RejectedDb(db: Db, r: ReviewRequest, journalId: string): Db
    requires r.id in db.payouts
  {
    var p := db.payouts[r.id];
    var entries := [
      Entry(Frozen(p.merchant, p.asset), p.asset, DebitSide, p.amount), Entry(Available(p.merchant, p.asset), p.asset, CreditSide, p.amount)];
    db.(journals := db.journals[journalId := Journal(OperatorRequester(r.reviewer), UnfreezeKey(r.id), PayoutUnfreeze, r.id, entries)],
        payouts := db.payouts[r.id := Decided(p, r, journalId)],
        outbox := db.outbox + [OutboxEvent(PayoutRejected, r.id, p.amount, journalId)])
  }

  /** What a review does: only a pending payout is decided, an approval needs a valid screening, a rejection open accounts. */
  function ReviewResult(db: Db, r: ReviewRequest, allowed: bool, journalId: string): (Db, Result<ReviewOutcome, ReviewError>) {
    if !Reviewable(r) then (db, Err(InvalidReview))
    else if r.id !in db.payouts then (db, Err(PayoutNotFound))
    else
      var p := db.payouts[r.id];
      var wanted := if r.decision == Approve then Approved else Rejected;
      if p.job.status != PendingReview then
        (db, if p.job.status == wanted && p.review == Some(ReviewRecord(r.reviewer, r.reason)) then Ok(ReviewOutcome(wanted, false)) else Err(StateConflict))
      else if r.decision == Approve then
        if allowed then (db.(payouts := db.payouts[r.id := Decided(p, r, "")]), Ok(ReviewOutcome(Approved, true)))
        else (db, Err(ScreeningApprovalRequired))
      else
        var available, frozen := Available(p.merchant, p.asset), Frozen(p.merchant, p.asset);
        if available in db.accounts && db.accounts[available] != Closed && frozen in db.accounts && db.accounts[frozen] != Closed
        then (RejectedDb(db, r, journalId), Ok(ReviewOutcome(Rejected, true)))
        else (db, Err(ReviewLedgerUnavailable))
  }

  /** In every reachable state a review does exactly that. */
  lemma ReviewExact(cfg: Config, states: seq<State>, actions: seq<Action>, k: nat, r: ReviewRequest, allowed: bool, journalId: string)
    requires Run(cfg, states, actions) && k < |states| && journalId !in states[k].db.journals
    ensures Payouts.Review(states[k].db, r, allowed, journalId) == ReviewResult(states[k].db, r, allowed, journalId)
  {
    hide Initial, Inv, LedgerInv, ProtocolInv, StoreInv, Linked, Payouts.Review, ReviewResult;
    RunParts(cfg, states, actions, k);
    ReviewAnswer(states[k].db, r, allowed, journalId);
  }

  lemma ReviewAnswer(db: Db, r: ReviewRequest, allowed: bool, journalId: string)
    requires LedgerInv(db) && journalId !in db.journals
    ensures Payouts.Review(db, r, allowed, journalId) == ReviewResult(db, r, allowed, journalId)
  {
    hide LedgerInv, Balance, PostedId, PostedJournals;
    ReviewKeeps(db, r, allowed, journalId);
    if r.id in db.payouts && db.payouts[r.id].job.status == PendingReview {
      ReviewReady(db, r, journalId);
      NoUnfreezeYet(db, r.id);
    }
  }

  lemma NoUnfreezeYet(db: Db, id: string)
    requires LedgerInv(db) && id in db.payouts && db.payouts[id].job.status == PendingReview
    ensures db.payouts[id].unfreezeId == None
  {
    PayoutLinked(db, id);
  }

  /** A rejection moves exactly the amount back from frozen to available. */
  lemma RejectedMoves(db: Db, r: ReviewRequest, journalId: string, account: Account)
    requires r.id in db.payouts && journalId !in db.journals
    ensures
      var p := db.payouts[r.id];
      Balance(RejectedDb(db, r, journalId).journals, account) == Balance(db.journals, account)
        + (if account == Available(p.merchant, p.asset) then p.amount else if account == Frozen(p.merchant, p.asset) then -p.amount else 0)
  {
    var p, journal := db.payouts[r.id], RejectedDb(db, r, journalId).journals[journalId];
    PostingMoves(db.journals, journalId, journal, Frozen(p.merchant, p.asset), Available(p.merchant, p.asset), p.asset, p.amount, account);
  }
}
