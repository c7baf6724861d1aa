// The outbox holds exactly one event per settled payout and per credited intent, and no other.
module OutboxProofs {
  import opened Prelude
  import opened Lease
  import opened Tables

  predicate Settled(p: Payout) {
    Terminal(p.job.status)
  }

  function TopicOf(status: Status): Topic
    requires Terminal(status)
  {
    match status
    case Rejected => PayoutRejected
    case Succeeded => PayoutSucceeded
    case Failed => PayoutFailed
  }

  function TerminalJournalId(p: Payout): Option<string> {
    if p.job.status == Succeeded then p.settlementId else p.unfreezeId
  }

  /** The event announces this settled payout with its amount and the journal that settled it. */
  predicate Announces(e: OutboxEvent, id: string, p: Payout) {
    && Settled(p) && e.topic == TopicOf(p.job.status) && e.aggregateId == id && e.amount == p.amount
    && TerminalJournalId(p) == Some(e.ledgerId)
  }

  predicate AnnouncesCredit(e: OutboxEvent, id: string, i: Intent) {
    e == OutboxEvent(DepositConfirmed, id, i.expected, e.ledgerId) && i.journalId == Some(e.ledgerId)
  }

  predicate Grounded(payouts: map<string, Payout>, intents: map<string, Intent>, e: OutboxEvent) {
    if e.topic == DepositConfirmed then e.aggregateId in intents && AnnouncesCredit(e, e.aggregateId, intents[e.aggregateId])
    else e.aggregateId in payouts && Announces(e, e.aggregateId, payouts[e.aggregateId])
  }

  predicate AllGrounded(outbox: seq<OutboxEvent>, payouts: map<string, Payout>, intents: map<string, Intent>) {
    forall e :: e in outbox ==> Grounded(payouts, intents, e)
  }

  predicate NoDuplicate(outbox: seq<OutboxEvent>) {
    forall i, j :: 0 <= i < j < |outbox| ==> outbox[i] != outbox[j]
  }

  predicate PayoutsAnnounced(outbox: seq<OutboxEvent>, payouts: map<string, Payout>) {
    forall id :: id in payouts && Settled(payouts[id]) ==> exists e :: e in outbox && Announces(e, id, payouts[id])
  }

  predicate CreditsAnnounced(outbox: seq<OutboxEvent>, intents: map<string, Intent>) {
    forall id :: id in intents && intents[id].journalId.Some? ==> exists e :: e in outbox && AnnouncesCredit(e, id, intents[id])
  }

  predicate OutboxSound(outbox: seq<OutboxEvent>, payouts: map<string, Payout>, intents: map<string, Intent>) {
    && AllGrounded(outbox, payouts, intents) && NoDuplicate(outbox)
    && PayoutsAnnounced(outbox, payouts) && CreditsAnnounced(outbox, intents)
  }

  /** Exactly one event: the only position that announces a settled payout. */
  lemma OneEvent(outbox: seq<OutboxEvent>, payouts: map<string, Payout>, intents: map<string, Intent>, id: string, i: nat, j: nat)
    requires OutboxSound(outbox, payouts, intents) && id in payouts && i < |outbox| && j < |outbox|
    requires outbox[i].topic != DepositConfirmed && outbox[j].topic != DepositConfirmed
    requires outbox[i].aggregateId == id && outbox[j].aggregateId == id
    ensures i == j && Announces(outbox[i], id, payouts[id])
  {
    assert outbox[i] in outbox && outbox[j] in outbox;
    assert Grounded(payouts, intents, outbox[i]) && Grounded(payouts, intents, outbox[j]);
    assert outbox[i] == outbox[j];
  }

  lemma AppendDistinct(outbox: seq<OutboxEvent>, e: OutboxEvent)
    requires NoDuplicate(outbox) && e !in outbox
    ensures NoDuplicate(outbox + [e])
  {
    forall i, j | 0 <= i < j < |outbox| + 1 ensures (outbox + [e])[i] != (outbox + [e])[j] {
      assert outbox[i] in outbox;
    }
  }

  /** A payout that was open settles, and its event is appended. */
  lemma SettleAnnounced(outbox: seq<OutboxEvent>, payouts: map<string, Payout>, intents: map<string, Intent>, id: string, p: Payout, e: OutboxEvent)
    requires OutboxSound(outbox, payouts, intents)
    requires id in payouts && !Settled(payouts[id]) && Announces(e, id, p)
    ensures OutboxSound(outbox + [e], payouts[id := p], intents)
  {
    forall f | f in outbox ensures Grounded(payouts[id := p], intents, f) && f != e {
      assert Grounded(payouts, intents, f);
    }
    AppendDistinct(outbox, e);
    SettleAnnouncesAll(outbox, payouts, id, p, e);
    forall i | i in intents && intents[i].journalId.Some? ensures exists f :: f in outbox + [e] && AnnouncesCredit(f, i, intents[i]) {
      var f :| f in outbox && AnnouncesCredit(f, i, intents[i]);
      assert f in outbox + [e];
    }
  }

  lemma SettleAnnouncesAll(outbox: seq<OutboxEvent>, payouts: map<string, Payout>, id: string, p: Payout, e: OutboxEvent)
    requires PayoutsAnnounced(outbox, payouts) && Announces(e, id, p)
    ensures PayoutsAnnounced(outbox + [e], payouts[id := p])
  {
    var next := payouts[id := p];
    forall k | k in next && Settled(next[k]) ensures exists f :: f in outbox + [e] && Announces(f, k, next[k]) {
      if k == id {
        assert e in outbox + [e];
      } else {
        var f :| f in outbox && Announces(f, k, payouts[k]);
        assert f in outbox + [e];
      }
    }
  }

  /** A row update among open statuses, or a new open row, needs no event. */
  lemma OpenUnannounced(outbox: seq<OutboxEvent>, payouts: map<string, Payout>, intents: map<string, Intent>, id: string, p: Payout)
    requires OutboxSound(outbox, payouts, intents)
    requires (id in payouts ==> !Settled(payouts[id])) && !Settled(p)
    ensures OutboxSound(outbox, payouts[id := p], intents)
  {
    forall f | f in outbox ensures Grounded(payouts[id := p], intents, f) {
      assert Grounded(payouts, intents, f);
    }
  }

  /** An intent is credited, and its event is appended. */
  lemma CreditAnnounced(outbox: seq<OutboxEvent>, payouts: map<string, Payout>, intents: map<string, Intent>, id: string, i: Intent, e: OutboxEvent)
    requires OutboxSound(outbox, payouts, intents)
    requires id in intents && intents[id].journalId.None? && AnnouncesCredit(e, id, i)
    ensures OutboxSound(outbox + [e], payouts, intents[id := i])
  {
    forall f | f in outbox ensures Grounded(payouts, intents[id := i], f) && f != e {
      assert Grounded(payouts, intents, f);
    }
    AppendDistinct(outbox, e);
    CreditAnnouncesAll(outbox, intents, id, i, e);
    forall k | k in payouts && Settled(payouts[k]) ensures exists f :: f in outbox + [e] && Announces(f, k, payouts[k]) {
      var f :| f in outbox && Announces(f, k, payouts[k]);
      assert f in outbox + [e];
    }
  }

  lemma CreditAnnouncesAll(outbox: seq<OutboxEvent>, intents: map<string, Intent>, id: string, i: Intent, e: OutboxEvent)
    requires CreditsAnnounced(outbox, intents) && AnnouncesCredit(e, id, i)
    ensures CreditsAnnounced(outbox + [e], intents[id := i])
  {
    var next := intents[id := i];
    forall k | k in next && next[k].journalId.Some? ensures exists f :: f in outbox + [e] && AnnouncesCredit(f, k, next[k]) {
      if k == id {
        assert e in outbox + [e];
      } else {
        var f :| f in outbox && AnnouncesCredit(f, k, intents[k]);
        assert f in outbox + [e];
      }
    }
  }

  /** Intent changes that neither credit nor touch a credited amount. */
  lemma QuietUnannounced(outbox: seq<OutboxEvent>, payouts: map<string, Payout>, intents: map<string, Intent>, id: string, i: Intent)
    requires OutboxSound(outbox, payouts, intents)
    requires id in intents ==> i.journalId == intents[id].journalId && i.expected == intents[id].expected
    requires id !in intents ==> i.journalId.None?
    ensures OutboxSound(outbox, payouts, intents[id := i])
  {
    forall f | f in outbox ensures Grounded(payouts, intents[id := i], f) {
      assert Grounded(payouts, intents, f);
    }
    var next := intents[id := i];
    forall k | k in next && next[k].journalId.Some? ensures exists f :: f in outbox && AnnouncesCredit(f, k, next[k]) {
      var f :| f in outbox && AnnouncesCredit(f, k, intents[k]);
      assert AnnouncesCredit(f, k, next[k]);
    }
  }
}
