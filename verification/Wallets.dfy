// Custody reconciliation: the ledger checkpoint, the wallet snapshot, and the interval rule.
module Wallets {
  import opened Sums
  import opened Lease
  import opened Ledger
  import opened Tables

  function PayoutInFlight(asset: string): (string, Payout) -> int {
    (id: string, p: Payout) => if p.asset == asset && InFlight(p.job) then p.amount else 0
  }

  function PayoutInFlightRow(asset: string): (string, Payout) -> int {
    (id: string, p: Payout) => if p.asset == asset && InFlight(p.job) then 1 else 0
  }

  function SweepInFlight(asset: string): (string, Sweep) -> int {
    (id: string, s: Sweep) => if s.asset == asset && InFlight(s.job) then s.amount else 0
  }

  function SweepInFlightRow(asset: string): (string, Sweep) -> int {
    (id: string, s: Sweep) => if s.asset == asset && InFlight(s.job) then 1 else 0
  }

  /** readLedgerCheckpoint. */
  ghost function ReadCheckpoint(db: Db, asset: string): Checkpoint {
    Checkpoint(
      EntryCount(db.journals, Custody(asset)),
      Balance(db.journals, Custody(asset)),
      MapSum(db.payouts, PayoutInFlightRow(asset)),
      MapSum(db.payouts, PayoutInFlight(asset)),
      MapSum(db.sweeps, SweepInFlightRow(asset)),
      MapSum(db.sweeps, SweepInFlight(asset)))
  }

  function Total(balances: seq<int>): int {
    if balances == [] then 0 else Total(balances[..|balances| - 1]) + balances[|balances| - 1]
  }

  /** The two findings of the interval rule. */
  predicate Shortfall(s: Snapshot) {
    s.ledger.balance > s.total + s.ledger.payoutAmount
  }

  predicate Excess(s: Snapshot) {
    s.ledger.balance < s.total
  }
}
