/** A queue of a broker that redelivers: what is not acknowledged when a consumer crashes is ready again. */
module Brokers {

  datatype Verdict = Ack | Requeue | DeadLetter

  /**
   The messages of the queue by where they are. settling holds the verdicts the consumer has reached
   but the broker has not processed: a crash in between redelivers the message.
   */
  datatype Backlog = Backlog(
    ready: set<nat>,
    unacked: set<nat>,
    acked: set<nat>,
    dead: set<nat>,
    settling: map<nat, Verdict>)
  {
    function Offer(m: nat): Backlog {
      this.(ready := ready + {m})
    }

    function Deliver(m: nat): Backlog {
      this.(ready := ready - {m}, unacked := unacked + {m})
    }

    function Judge(m: nat, verdict: Verdict): Backlog {
      this.(settling := settling[m := verdict])
    }

    function Settle(m: nat): Backlog
      requires m in settling
    {
      var q := this.(unacked := unacked - {m}, settling := settling - {m});
      match settling[m]
      case Ack => q.(acked := acked + {m})
      case Requeue => q.(ready := ready + {m})
      case DeadLetter => q.(dead := dead + {m})
    }

    function Crash(): Backlog {
      this.(ready := ready + unacked, unacked := {}, settling := map[])
    }

    /** In how many places a message is. */
    function Places(m: nat): nat {
      (if m in ready then 1 else 0) + (if m in unacked then 1 else 0) +
      (if m in acked then 1 else 0) + (if m in dead then 1 else 0)
    }

    ghost predicate Tidy() {
      forall m :: m in settling ==> m in unacked
    }
  }

  const EMPTY := Backlog({}, {}, {}, {}, map[])

  /** No step of the broker loses a message or doubles it; one that is settled waits for no verdict. */
  lemma StepsConserve(q: Backlog, k: nat, verdict: Verdict, m: nat)
    requires q.Tidy() && q.Places(m) <= 1
    ensures k in q.ready ==> q.Deliver(k).Places(m) == q.Places(m) && q.Deliver(k).Tidy()
    ensures k in q.unacked ==> q.Judge(k, verdict).Places(m) == q.Places(m) && q.Judge(k, verdict).Tidy()
    ensures k in q.settling ==> q.Settle(k).Places(m) == q.Places(m) && q.Settle(k).Tidy()
    ensures q.Crash().Places(m) == q.Places(m) && q.Crash().Tidy()
    ensures m !in q.Crash().unacked && (k in q.settling ==> k !in q.Settle(k).unacked)
    ensures q.Offer(k).Tidy()
    ensures q.Offer(k).Places(m) == if m == k && m !in q.ready then q.Places(m) + 1 else q.Places(m)
  {
  }
}
