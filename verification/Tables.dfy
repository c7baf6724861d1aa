// The database: one row type per table, and the fixed deployment it serves.
module Tables {
  import opened Prelude
  import opened Chain
  import opened Lease
  import opened Ledger

  /** One network. An asset is named by its contract, wallets of an asset by their addresses. */
  datatype Config = Config(
    network: string,
    hot: string,
    wallets: map<string, seq<string>>,
    depositMerchant: map<(string, string), string>,
    maxAmount: int)

  ghost predicate ValidConfig(cfg: Config) {
    && (forall asset :: asset in cfg.wallets ==> Distinct(cfg.wallets[asset]))
    && (forall key :: key in cfg.depositMerchant ==> InCustody(cfg, key.0, key.1))
    && (forall asset: string :: (asset, cfg.hot) !in cfg.depositMerchant)
  }

  predicate Distinct(s: seq<string>) {
    forall i, j :: 0 <= i < j < |s| ==> s[i] != s[j]
  }

  predicate InCustody(cfg: Config, asset: string, address: string) {
    asset in cfg.wallets && address in cfg.wallets[asset]
  }

  predicate IsDeposit(cfg: Config, asset: string, address: string) {
    (asset, address) in cfg.depositMerchant
  }

  datatype ReviewRecord = ReviewRecord(reviewer: string, reason: string)

  datatype Payout = Payout(
    merchant: string,
    asset: string,
    key: string,
    reference: string,
    destination: string,
    amount: int,
    amountText: string,
    freezeId: string,
    review: Option<ReviewRecord>,
    unfreezeId: Option<string>,
    settlementId: Option<string>,
    screeningOpen: bool,
    job: Job)

  datatype Sweep = Sweep(source: string, destination: string, asset: string, amount: int, runIndex: nat, job: Job)

  datatype Topic = PayoutRejected | PayoutSucceeded | PayoutFailed | DepositConfirmed

  datatype OutboxEvent = OutboxEvent(topic: Topic, aggregateId: string, amount: int, ledgerId: string)

  datatype Cursor = Cursor(
    start: nat,
    anchor: string,
    next: nat,
    previous: string,
    tracked: Option<string>,
    lease: Option<Holder>,
    epoch: nat)

  datatype EventRow = EventRow(height: nat, hash: string, time: nat, sender: string, recipient: string, amount: int)

  datatype IntentStatus = AwaitingPayment | PartiallyPaid | Paid | Overpaid | IntentExpired | Underpaid

  datatype Intent = Intent(
    merchant: string,
    asset: string,
    address: string,
    expected: int,
    received: int,
    status: IntentStatus,
    createdAt: nat,
    expiresAt: nat,
    journalId: Option<string>,
    credited: int)

  datatype ReviewReason =
    | ScreeningDenied | ScreeningReview | NoIntent | AssetDisabled | MerchantInactive | AddressRetired
    | BeforeIntent | AfterExpiry | OverpaidReason | AmountOutOfRange | LedgerAccountUnavailable

  /** A processed chain event: matched to an intent, or set aside for review. */
  datatype MatchRow = MatchRow(address: string, intentId: Option<string>, review: Option<ReviewReason>, amount: int)

  datatype Checkpoint = Checkpoint(
    entryCount: int,
    balance: int,
    payoutCount: int,
    payoutAmount: int,
    sweepCount: int,
    sweepAmount: int)

  datatype Snapshot = Snapshot(asset: string, head: Header, balances: seq<int>, total: int, ledger: Checkpoint)

  datatype Db = Db(
    now: nat,
    accounts: map<Account, AccountStatus>,
    journals: Journals,
    payouts: map<string, Payout>,
    sweeps: map<string, Sweep>,
    outbox: seq<OutboxEvent>,
    cursor: Cursor,
    events: map<EventId, EventRow>,
    intents: map<string, Intent>,
    matches: map<EventId, MatchRow>,
    snapshots: seq<Snapshot>)

  function PayoutRequest(cfg: Config, id: string, p: Payout): TransferRequest {
    TransferRequest(id, p.asset, cfg.hot, p.destination, p.amount)
  }

  function SweepRequest(id: string, s: Sweep): TransferRequest {
    TransferRequest(id, s.asset, s.source, s.destination, s.amount)
  }

  predicate Usable(db: Db, account: Account) {
    account in db.accounts && db.accounts[account] != Closed
  }

  predicate IsActive(db: Db, account: Account) {
    account in db.accounts && db.accounts[account] == Active
  }
}
