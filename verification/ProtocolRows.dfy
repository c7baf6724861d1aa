// Row changes keep the links between rows, signer, chain and claim log.
module ProtocolRows {
  import opened Chain
  import opened Lease
  import opened Tables
  import opened Signer
  import opened Gateway
  import opened RowProofs
  import opened Protocol

  /** What must hold outside the row when it moves. */
  ghost predicate MoveBacked(cfg: Config, was: Db, signer: Records, chain: Chain, change: RowChange) {
    change.Moving? ==>
      && HasRow(was, change.table, change.id)
      && (change.move.Signed? ==> SignedFor(signer, RowRequest(cfg, was, change.table, change.id), change.move.tx))
      && (change.move.Finished? && change.move.succeeded ==>
            var tx := RowJob(was, change.table, change.id).transaction;
            tx.Some? && Executed(chain, tx.value.id, ExecutionSucceeded))
  }

  lemma SignedAfter(cfg: Config, was: Db, db: Db, signer: Records, chain: Chain, change: RowChange)
    requires Shaped(was) && RowsChanged(was, db, change) && MoveBacked(cfg, was, signer, chain, change)
    requires RowsSigned(cfg, was, signer)
    ensures RowsSigned(cfg, db, signer)
  {
    hide RowsChanged, Shaped, SignedFor, Executed, RowRequest;
    forall table, id | HasRow(db, table, id) && RowJob(db, table, id).transaction.Some?
      ensures SignedFor(signer, RowRequest(cfg, db, table, id), RowJob(db, table, id).transaction.value)
    {
      RowAfter(cfg, was, db, change, table, id);
    }
  }

  lemma SuccessAfter(cfg: Config, was: Db, db: Db, signer: Records, chain: Chain, change: RowChange)
    requires Shaped(was) && RowsChanged(was, db, change) && MoveBacked(cfg, was, signer, chain, change)
    requires SuccessSound(was, chain)
    ensures SuccessSound(db, chain)
  {
    hide RowsChanged, Shaped, SignedFor, Executed, RowRequest;
    forall table, id | HasRow(db, table, id) && RowJob(db, table, id).status == Succeeded
      ensures RowJob(db, table, id).transaction.Some? && Executed(chain, RowJob(db, table, id).transaction.value.id, ExecutionSucceeded)
    {
      RowAfter(cfg, was, db, change, table, id);
    }
  }

  lemma SentStays(cfg: Config, was: Db, db: Db, tx: SignedTransaction, table: Table, id: string)
    requires RowsAdvance(cfg, was, db) && SentBy(was, tx, table, id)
    ensures SentBy(db, tx, table, id)
  {
  }

  lemma BroadcastAfter(cfg: Config, was: Db, db: Db, broadcasted: map<string, Payload>)
    requires RowsAdvance(cfg, was, db) && BroadcastSound(was, broadcasted)
    ensures BroadcastSound(db, broadcasted)
  {
    hide RowsAdvance, SentBy;
    forall x | x in broadcasted ensures exists table, id :: SentBy(db, SignedTransaction(x, broadcasted[x]), table, id) {
      var table, id :| SentBy(was, SignedTransaction(x, broadcasted[x]), table, id);
      SentStays(cfg, was, db, SignedTransaction(x, broadcasted[x]), table, id);
    }
  }

  lemma LogAfter(cfg: Config, was: Db, db: Db, log: seq<Claim>)
    requires RowsAdvance(cfg, was, db) && LogSound(was, log)
    ensures LogSound(db, log)
  {
  }

  /** Without a new claim, a row keeps its lease or gives it up. */
  lemma LeasesAfter(cfg: Config, was: Db, db: Db, log: seq<Claim>, change: RowChange)
    requires Shaped(was) && RowsChanged(was, db, change) && (change.Moving? ==> !change.move.Claimed?)
    requires LeasesLogged(was, log)
    ensures LeasesLogged(db, log)
  {
    hide RowsChanged, RowRequest;
    forall table, id | HasRow(db, table, id) && RowJob(db, table, id).lease.Some?
      ensures exists c :: c in log && c.table == table && c.id == id && LeasedBy(db, c)
    {
      RowAfter(cfg, was, db, change, table, id);
      LeaseKept(was, db, change, table, id);
      var c :| c in log && c.table == table && c.id == id && LeasedBy(was, c);
      assert LeasedBy(db, c);
    }
  }

  lemma LeaseKept(was: Db, db: Db, change: RowChange, table: Table, id: string)
    requires Shaped(was) && RowsChanged(was, db, change) && (change.Moving? ==> !change.move.Claimed?)
    requires HasRow(db, table, id) && RowJob(db, table, id).lease.Some?
    ensures HasRow(was, table, id) && RowJob(was, table, id) == RowJob(db, table, id)
  {
    if HasRow(was, table, id) {
      RowShaped(was, table, id);
    }
  }

  // ---------- claims ----------

  lemma LogClaim(cfg: Config, was: Db, db: Db, log: seq<Claim>, c: Claim, m: Move)
    requires Shaped(was) && HasRow(was, c.table, c.id) && m.Claimed?
    requires RowsChanged(was, db, Moving(c.table, c.id, m)) && RowsAdvance(cfg, was, db)
    requires c.epoch == RowJob(was, c.table, c.id).epoch + 1 && LogSound(was, log)
    ensures LogSound(db, log + [c])
  {
    RowAfter(cfg, was, db, Moving(c.table, c.id, m), c.table, c.id);
    LogAfter(cfg, was, db, log);
    LogExtended(was, db, log, c);
  }

  lemma LogExtended(was: Db, db: Db, log: seq<Claim>, c: Claim)
    requires LogSound(was, log) && LogSound(db, log)
    requires HasRow(was, c.table, c.id) && HasRow(db, c.table, c.id)
    requires c.epoch == RowJob(was, c.table, c.id).epoch + 1 <= RowJob(db, c.table, c.id).epoch
    ensures LogSound(db, log + [c])
  {
    hide HasRow, RowJob;
    forall i, j | 0 <= i < j < |log| + 1 && SameRow((log + [c])[i], (log + [c])[j])
      ensures (log + [c])[i].epoch < (log + [c])[j].epoch
    {
      assert log[i] in log;
    }
  }

  lemma LeasesClaim(cfg: Config, was: Db, db: Db, log: seq<Claim>, c: Claim, m: Move)
    requires Shaped(was) && HasRow(was, c.table, c.id) && m.Claimed? && m.phase == c.phase && m.worker == c.worker
    requires RowsChanged(was, db, Moving(c.table, c.id, m))
    requires c.epoch == RowJob(was, c.table, c.id).epoch + 1 && LeasesLogged(was, log)
    ensures LeasesLogged(db, log + [c])
  {
    hide RowsChanged, RowRequest;
    forall table, id | HasRow(db, table, id) && RowJob(db, table, id).lease.Some?
      ensures exists d :: d in log + [c] && d.table == table && d.id == id && LeasedBy(db, d)
    {
      RowAfter(cfg, was, db, Moving(c.table, c.id, m), table, id);
      if table == c.table && id == c.id {
        assert c in log + [c] && LeasedBy(db, c);
      } else {
        LeaseElsewhere(was, db, Moving(c.table, c.id, m), table, id);
        var d :| d in log && d.table == table && d.id == id && LeasedBy(was, d);
        assert d in log + [c] && LeasedBy(db, d);
      }
    }
  }

  lemma LeaseElsewhere(was: Db, db: Db, change: RowChange, table: Table, id: string)
    requires RowsChanged(was, db, change) && change.Moving? && !(change.table == table && change.id == id)
    requires HasRow(db, table, id)
    ensures HasRow(was, table, id) && RowJob(was, table, id) == RowJob(db, table, id)
  {
  }
}
