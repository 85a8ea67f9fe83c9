/** What a memory fence means for a core's history of memory transactions. */
module FenceLog {
  /** A transaction is sent, a fence is passed, or a transaction is answered. */
  datatype Entry = Sent(id: nat) | Fence | Answer(id: nat)

  /** Transactions sent and not yet answered. */
  function Outstanding(log: seq<Entry>): set<nat> {
    if log == [] then {}
    else
      var before := Outstanding(log[..|log| - 1]);
      match log[|log| - 1]
      case Sent(id) => before + {id}
      case Fence => before
      case Answer(id) => before - {id}
  }

  /** Outstanding transactions that were sent before some fence. */
  function Fenced(log: seq<Entry>): set<nat> {
    if log == [] then {}
    else
      var n := |log| - 1;
      match log[n]
      case Sent(id) => Fenced(log[..n])
      case Fence => Outstanding(log[..n])
      case Answer(id) => Fenced(log[..n]) - {id}
  }

  /** Nothing is sent while a transaction from before a fence is outstanding. */
  predicate FenceSafe(log: seq<Entry>) {
    log == []
    || (FenceSafe(log[..|log| - 1]) && (log[|log| - 1].Sent? ==> Fenced(log[..|log| - 1]) == {}))
  }

  lemma {:induction false} FencedOutstanding(log: seq<Entry>)
    ensures Fenced(log) <= Outstanding(log)
  {
    if log != [] { FencedOutstanding(log[..|log| - 1]); }
  }

  lemma Snoc(log: seq<Entry>, e: Entry)
    ensures Outstanding(log + [e]) ==
            if e.Sent? then Outstanding(log) + {e.id} else if e.Answer? then Outstanding(log) - {e.id} else Outstanding(log)
    ensures Fenced(log + [e]) == if e.Sent? then Fenced(log) else if e.Answer? then Fenced(log) - {e.id} else Outstanding(log)
    ensures FenceSafe(log + [e]) <==> FenceSafe(log) && (e.Sent? ==> Fenced(log) == {})
  {
    assert (log + [e])[..|log|] == log;
  }

  predicate AnsweredBetween(log: seq<Entry>, r: nat, q: nat, id: nat)
    requires q <= |log|
  {
    exists s | r < s < q :: log[s] == Answer(id)
  }

  /** A transaction sent at `r` and not answered since is outstanding. */
  lemma {:induction false} StillOutstanding(log: seq<Entry>, r: nat, id: nat)
    requires r < |log| && log[r] == Sent(id) && !AnsweredBetween(log, r, |log|, id)
    ensures id in Outstanding(log)
  {
    var n := |log| - 1;
    if r < n {
      assert forall s | 0 <= s < n :: log[..n][s] == log[s];
      StillOutstanding(log[..n], r, id);
      assert log[n] != Answer(id);
    }
  }

  lemma {:induction false} StillFenced(log: seq<Entry>, r: nat, p: nat, id: nat)
    requires r < p < |log| && log[r] == Sent(id) && log[p] == Fence && !AnsweredBetween(log, r, |log|, id)
    ensures id in Fenced(log)
  {
    var n := |log| - 1;
    assert forall s | 0 <= s < n :: log[..n][s] == log[s];
    if p < n {
      StillFenced(log[..n], r, p, id);
      assert log[n] != Answer(id);
      if log[n].Fence? { StillOutstanding(log[..n], r, id); }
    } else {
      StillOutstanding(log[..n], r, id);
    }
  }

  /** In a safe history, a transaction sent after a fence comes after the answer to every
      transaction sent before the fence. */
  lemma {:induction false} FenceOrders(log: seq<Entry>, r: nat, p: nat, q: nat)
    requires FenceSafe(log) && r < p < q < |log| && log[r].Sent? && log[p] == Fence && log[q].Sent?
    ensures AnsweredBetween(log, r, q, log[r].id)
  {
    var n := |log| - 1;
    var l := log[..n];
    assert forall s | 0 <= s < n :: l[s] == log[s];
    if q < n {
      FenceOrders(l, r, p, q);
      var s :| r < s < q && l[s] == Answer(l[r].id);
      assert log[s] == Answer(log[r].id);
    } else if !AnsweredBetween(l, r, |l|, log[r].id) {
      StillFenced(l, r, p, log[r].id);
      assert false;
    } else {
      var s :| r < s < |l| && l[s] == Answer(log[r].id);
      assert log[s] == Answer(log[r].id);
    }
  }
}
