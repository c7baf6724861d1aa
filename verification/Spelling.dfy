// The operator's spelling of a payout id. A review finds the row by any spelling of its UUID but posts
// the release under the text as typed, while the detectors compare with the row's own lower-case text.
module Spelling {
  import opened Prelude
  import opened Lease
  import opened Ledger
  import opened Tables
  import opened Payouts
  import opened Gateway
  import opened LedgerProofs
  import opened LedgerSteps
  import opened LedgerTransactions
  import opened Detectors
  import opened Invariants
  import Theorems
  import Text

  /** The text names the id, up to letter case. */
  predicate Spells(text: string, id: string) {
    Text.Lower(text) == id
  }

  /** UUID columns are printed in lower case. */
  predicate PrintedLower(payouts: map<string, Payout>) {
    forall id :: id in payouts ==> Text.Lower(id) == id
  }

  /** The rejection of a pending payout whose id the operator typed as this text. */
  function RejectedAs(db: Db, r: ReviewRequest, text: string, journalId: string): Db
    requires r.id in db.payouts
  {
    var p := db.payouts[r.id];
    db.(journals := db.journals[journalId := UnfreezeJournal(text, p, r.reviewer)],
        payouts := db.payouts[r.id := Reviewed(p, r, Some(journalId))],
        outbox := db.outbox + [OutboxEvent(PayoutRejected, r.id, p.amount, journalId)])
  }

  predicate Rejectable(db: Db, r: ReviewRequest) {
    && ValidReview(r) && r.decision == Reject && r.id in db.payouts && db.payouts[r.id].job.status == PendingReview
    && Usable(db, Frozen(db.payouts[r.id].merchant, db.payouts[r.id].asset))
    && Usable(db, Available(db.payouts[r.id].merchant, db.payouts[r.id].asset))
  }

  /** The one finding a misspelled rejection causes. */
  function ReleaseMismatch(id: string): Finding {
    Finding(PayoutReferenceMismatch, Critical, PayoutLinkResource(id, ReleaseLink))
  }

  /**
   * In every reachable state a rejection posts its release whatever the spelling, and the ledger
   * detectors stay silent about it if and only if the operator typed the id in lower case; otherwise
   * they report exactly this payout's release link.
   */
  lemma SilentIffLowerCase(cfg: Config, states: seq<State>, actions: seq<Action>, k: nat, r: ReviewRequest, text: string, journalId: string, allowed: bool)
    requires Run(cfg, states, actions) && k < |states| && Rejectable(states[k].db, r) && journalId !in states[k].db.journals
    requires Spells(text, r.id) && PrintedLower(states[k].db.payouts)
    ensures Post(states[k].db.journals, journalId, UnfreezeJournal(text, states[k].db.payouts[r.id], r.reviewer)) == Created
    ensures text == r.id ==> RejectedAs(states[k].db, r, text, journalId) == Payouts.Review(states[k].db, r, allowed, journalId).0
    ensures LedgerFindings(RejectedAs(states[k].db, r, text, journalId)) == if Text.Lower(text) == text then {} else {ReleaseMismatch(r.id)}
  {
    hide Next, Initial, Inv, Detectors.LedgerFindings, LedgerInv, RejectedAs;
    Theorems.RunParts(cfg, states, actions, k);
    LedgerLinks(states[k].db);
    ReleasePosts(states[k].db, r, text, journalId);
    ExactRejection(states[k].db, r, journalId, allowed);
    if text != r.id {
      OneFinding(states[k].db, r, text, journalId);
    }
  }

  lemma ReleasePosts(db: Db, r: ReviewRequest, text: string, journalId: string)
    requires Links(db) && journalId !in db.journals && r.id in db.payouts && db.payouts[r.id].job.status == PendingReview
    requires Spells(text, r.id) && PrintedLower(db.payouts)
    ensures Post(db.journals, journalId, UnfreezeJournal(text, db.payouts[r.id], r.reviewer)) == Created
  {
    var journal := UnfreezeJournal(text, db.payouts[r.id], r.reviewer);
    forall other | other in db.journals ensures !SameKeys(db.journals[other], journal) {
      OwnerDecides(db, other);
    }
    assert !Taken(db.journals, journalId, journal);
  }

  /** Spelled as the row prints it, it is the modelled review, and nothing is found. */
  lemma ExactRejection(db: Db, r: ReviewRequest, journalId: string, allowed: bool)
    requires LedgerInv(db) && Links(db) && journalId !in db.journals && Rejectable(db, r)
    ensures RejectedAs(db, r, r.id, journalId) == Payouts.Review(db, r, allowed, journalId).0
    ensures LedgerFindings(RejectedAs(db, r, r.id, journalId)) == {}
  {
    hide LedgerInv, Detectors.LedgerFindings;
    ReviewReady(db, r, journalId);
    ReviewShape(db, r, allowed, journalId);
    RejectionKeeps(db, r, journalId);
    LedgerLinks(Rejection(db, r, journalId));
    LedgerSilent(Rejection(db, r, journalId));
  }

  /** Only the rejected payout's release links to the new journal. */
  lemma NewLink(db: Db, r: ReviewRequest, journalId: string, id: string, kind: LinkKind)
    requires Links(db) && journalId !in db.journals && Rejectable(db, r) && id in db.payouts
    ensures LinkId(RejectedAs(db, r, r.id, journalId).payouts[id], kind) == Some(journalId) <==> id == r.id && kind == ReleaseLink
  {
    assert PayoutLinks(db.journals, id, db.payouts[id]);
  }

  /** Any other spelling changes only the reference of the new journal, and only its link's check sees it. */
  lemma OneFinding(db: Db, r: ReviewRequest, text: string, journalId: string)
    requires Links(db) && journalId !in db.journals && Rejectable(db, r) && text != r.id
    requires LedgerFindings(RejectedAs(db, r, r.id, journalId)) == {}
    ensures LedgerFindings(RejectedAs(db, r, text, journalId)) == {ReleaseMismatch(r.id)}
  {
    hide RejectedAs, Links, Unbalanced, DepositReferences, DepositSemantics, PayoutReferences, PayoutSemantics;
    SameEntries(db, r, text, journalId);
    SameDeposits(db, r, text, journalId);
    TypedReferences(db, r, text, journalId);
  }

  lemma SameEntries(db: Db, r: ReviewRequest, text: string, journalId: string)
    requires r.id in db.payouts
    ensures
      var exact, typed := RejectedAs(db, r, r.id, journalId), RejectedAs(db, r, text, journalId);
      && Unbalanced(typed.journals) == Unbalanced(exact.journals)
      && DepositSemantics(typed) == DepositSemantics(exact) && PayoutSemantics(typed) == PayoutSemantics(exact)
  {
    hide SemanticMatch, GroupUnbalanced, GroupAssets;
    var exact, typed := RejectedAs(db, r, r.id, journalId), RejectedAs(db, r, text, journalId);
    assert typed.journals.Keys == exact.journals.Keys;
    assert forall id :: id in typed.journals ==> typed.journals[id].entries == exact.journals[id].entries;
    assert forall id :: EntriesOf(typed.journals, id) == EntriesOf(exact.journals, id);
  }

  lemma SameDeposits(db: Db, r: ReviewRequest, text: string, journalId: string)
    requires Links(db) && journalId !in db.journals && r.id in db.payouts
    ensures DepositReferences(RejectedAs(db, r, text, journalId)) == DepositReferences(RejectedAs(db, r, r.id, journalId))
  {
    forall id | id in db.intents && db.intents[id].journalId.Some? ensures db.intents[id].journalId.value != journalId {
      assert IntentLinks(db.journals, id, db.intents[id]);
    }
  }

  /** The check of one payout link sees the spelling exactly on the new release. */
  lemma LinkChecked(db: Db, r: ReviewRequest, text: string, journalId: string, id: string, kind: LinkKind)
    requires Links(db) && journalId !in db.journals && Rejectable(db, r) && text != r.id && id in db.payouts
    requires PayoutReferences(RejectedAs(db, r, r.id, journalId)) == {}
    requires
      var p := RejectedAs(db, r, text, journalId).payouts[id];
      LinkId(p, kind).Some? && ExpectedReference(p, kind).Some?
    ensures
      var typed := RejectedAs(db, r, text, journalId);
      var p := typed.payouts[id];
      References(typed.journals, LinkId(p, kind).value, ExpectedReference(p, kind).value, id) <==> !(id == r.id && kind == ReleaseLink)
  {
    NewLink(db, r, journalId, id, kind);
    var finding := Finding(PayoutReferenceMismatch, Critical, PayoutLinkResource(id, kind));
    assert finding !in PayoutReferences(RejectedAs(db, r, r.id, journalId));
  }

  lemma TypedReferences(db: Db, r: ReviewRequest, text: string, journalId: string)
    requires Links(db) && journalId !in db.journals && Rejectable(db, r) && text != r.id
    requires PayoutReferences(RejectedAs(db, r, r.id, journalId)) == {}
    ensures PayoutReferences(RejectedAs(db, r, text, journalId)) == {ReleaseMismatch(r.id)}
  {
    hide Links, References;
    var typed := RejectedAs(db, r, text, journalId);
    forall id, kind | id in typed.payouts && kind in LINK_KINDS && LinkId(typed.payouts[id], kind).Some? && ExpectedReference(typed.payouts[id], kind).Some?
      ensures References(typed.journals, LinkId(typed.payouts[id], kind).value, ExpectedReference(typed.payouts[id], kind).value, id)
         <==> !(id == r.id && kind == ReleaseLink)
    {
      LinkChecked(db, r, text, journalId, id, kind);
    }
    assert ReleaseLink in LINK_KINDS && LinkId(typed.payouts[r.id], ReleaseLink) == Some(journalId);
    assert ReleaseMismatch(r.id) in PayoutReferences(typed);
  }
}
