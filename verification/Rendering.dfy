// The text form of the gateway's journals: what the database compares, and what validation accepts.
module Rendering {
  import opened Prelude
  import opened Ledger
  import Text
  import Validation

  function RequesterText(r: Requester): (string, string) {
    match r
    case MerchantRequester(id) => ("merchant", id)
    case OperatorRequester(id) => ("operator", id)
    case DepositSystem => ("system", "deposit")
    case PayoutConfirmationSystem => ("system", "payout-confirmation")
  }

  function ReferenceText(t: ReferenceType): string {
    match t
    case DepositReference => "deposit"
    case PayoutFreeze => "payout_freeze"
    case PayoutUnfreeze => "payout_unfreeze"
    case PayoutSettlement => "payout_settlement"
    case PayoutFailureRelease => "payout_failure_release"
  }

  /** What follows the prefix of a key. */
  function Suffix(k: IdempotencyKey): string {
    match k
    case FreezeKey(key) => key
    case UnfreezeKey(id) => id
    case SettlementKey(id) => id
    case ReleaseKey(id) => id
    case CreditKey(id) => id
  }

  function PrefixLength(k: IdempotencyKey): nat {
    match k
    case FreezeKey(_) => 14
    case UnfreezeKey(_) => 16
    case SettlementKey(_) => 18
    case ReleaseKey(_) => 23
    case CreditKey(_) => 7
  }

  function Prefix(k: IdempotencyKey): string {
    match k
    case FreezeKey(_) => "payout-freeze:"
    case UnfreezeKey(_) => "payout-unfreeze:"
    case SettlementKey(_) => "payout_settlement:"
    case ReleaseKey(_) => "payout_failure_release:"
    case CreditKey(_) => "credit:"
  }

  function KeyText(k: IdempotencyKey): string {
    Prefix(k) + Suffix(k)
  }

  /** The unique columns of journal_transactions clash in text. */
  predicate SameTextKeys(a: Journal, b: Journal) {
    && RequesterText(a.requester) == RequesterText(b.requester)
    && (KeyText(a.key) == KeyText(b.key)
        || (ReferenceText(a.referenceType) == ReferenceText(b.referenceType) && a.referenceId == b.referenceId))
  }

  lemma PrefixHead(k: IdempotencyKey)
    ensures |Prefix(k)| == PrefixLength(k)
    ensures Prefix(k)[0] == (if k.CreditKey? then 'c' else 'p')
    ensures !k.CreditKey? ==> Prefix(k)[6] == (if k.FreezeKey? || k.UnfreezeKey? then '-' else '_')
    ensures !k.CreditKey? ==> Prefix(k)[7] == (if k.FreezeKey? || k.ReleaseKey? then 'f' else if k.UnfreezeKey? then 'u' else 's')
  {
  }

  lemma KeyHead(k: IdempotencyKey)
    ensures |KeyText(k)| == PrefixLength(k) + |Suffix(k)| && KeyText(k)[PrefixLength(k)..] == Suffix(k)
    ensures KeyText(k)[0] == (if k.CreditKey? then 'c' else 'p')
    ensures !k.CreditKey? ==> KeyText(k)[6] == (if k.FreezeKey? || k.UnfreezeKey? then '-' else '_')
    ensures !k.CreditKey? ==> KeyText(k)[7] == (if k.FreezeKey? || k.ReleaseKey? then 'f' else if k.UnfreezeKey? then 'u' else 's')
  {
    PrefixHead(k);
    hide Prefix, Suffix;
  }

  lemma KeyTextInjective(a: IdempotencyKey, b: IdempotencyKey)
    ensures KeyText(a) == KeyText(b) <==> a == b
  {
    KeyHead(a);
    KeyHead(b);
  }

  lemma RequesterTextInjective(a: Requester, b: Requester)
    ensures RequesterText(a) == RequesterText(b) <==> a == b
  {
    assert "merchant" != "operator" && |"system"| != |"merchant"| && |"deposit"| != |"payout-confirmation"|
    by {
      assert "merchant"[0] != "operator"[0];
    }
  }

  lemma ReferenceTextInjective(a: ReferenceType, b: ReferenceType)
    ensures ReferenceText(a) == ReferenceText(b) <==> a == b
  {
    assert |"deposit"| == 7 && |"payout_freeze"| == 13 && |"payout_unfreeze"| == 15 && |"payout_settlement"| == 17 && |"payout_failure_release"| == 22;
  }

  /** Journals clash in the database exactly when they clash in the model. */
  lemma ClashFaithful(a: Journal, b: Journal)
    ensures SameTextKeys(a, b) <==> SameKeys(a, b)
  {
    RequesterTextInjective(a.requester, b.requester);
    KeyTextInjective(a.key, b.key);
    ReferenceTextInjective(a.referenceType, b.referenceType);
  }

  // ---------- validation ----------

  /** The transaction handed to the ledger; account names are row ids. */
  function Render(id: string, j: Journal, name: Account -> string): Validation.Transaction
    requires forall i :: 0 <= i < |j.entries| ==> 0 < j.entries[i].amount <= MAX_INT64
  {
    Validation.Transaction(
      id, RequesterText(j.requester).0, RequesterText(j.requester).1, KeyText(j.key), ReferenceText(j.referenceType), j.referenceId,
      seq(|j.entries|, i requires 0 <= i < |j.entries| => RenderEntry(j.entries[i], name)))
  }

  function RenderEntry(e: Entry, name: Account -> string): Validation.Entry
    requires 0 < e.amount <= MAX_INT64
  {
    Validation.Entry(name(e.account), e.asset, if e.side == DebitSide then Validation.DEBIT else Validation.CREDIT, e.amount as Validation.int64)
  }

  lemma FirstNotSpace(s: string)
    requires s != "" && !Text.IsSpace(s[0])
    ensures !Text.Blank(s)
  {
    assert s[0] in s;
  }

  lemma ReferenceNotBlank(t: ReferenceType)
    ensures !Text.Blank(ReferenceText(t))
  {
    assert ReferenceText(t)[0] == 'd' || ReferenceText(t)[0] == 'p';
    FirstNotSpace(ReferenceText(t));
  }

  lemma RequesterNotBlank(r: Requester)
    ensures !Text.Blank(RequesterText(r).0)
  {
    assert RequesterText(r).0[0] in {'m', 'o', 's'};
    FirstNotSpace(RequesterText(r).0);
  }

  lemma TextNotBlank(r: Requester, k: IdempotencyKey, t: ReferenceType)
    ensures !Text.Blank(KeyText(k)) && !Text.Blank(ReferenceText(t)) && !Text.Blank(RequesterText(r).0)
  {
    hide KeyText, ReferenceText, RequesterText, Suffix;
    KeyHead(k);
    FirstNotSpace(KeyText(k));
    ReferenceNotBlank(t);
    RequesterNotBlank(r);
  }

  /** Every two-entry posting of the gateway passes validation. */
  lemma GatewayPostingsValid(id: string, j: Journal, name: Account -> string, debit: Account, credit: Account, asset: string, amount: int)
    requires j.entries == TwoEntries(debit, credit, asset, amount) && 0 < amount <= MAX_INT64
    requires !Text.Blank(id) && !Text.Blank(RequesterText(j.requester).1) && !Text.Blank(j.referenceId) && !Text.Blank(asset)
    requires !Text.Blank(name(debit)) && !Text.Blank(name(credit))
    ensures Validation.Postable(Render(id, j, name))
  {
    var t := Render(id, j, name);
    TextNotBlank(j.requester, j.key, j.referenceType);
    forall a ensures Validation.Sum(t.entries, a, Validation.DEBIT) == Validation.Sum(t.entries, a, Validation.CREDIT)
      ensures Validation.Fits(Validation.Sum(t.entries, a, Validation.DEBIT))
    {
      Validation.SumStep(t.entries, 0, a, Validation.DEBIT);
      Validation.SumStep(t.entries, 0, a, Validation.CREDIT);
      Validation.SumStep(t.entries, 1, a, Validation.DEBIT);
      Validation.SumStep(t.entries, 1, a, Validation.CREDIT);
      assert t.entries[..2] == t.entries;
    }
  }
}
