/**
 BatchPush of push/client/client.go: one goroutine a payload, each adding its outcome
 under a mutex; the caller waits for all of them. The goroutines finish in any order.
 */
module Batches {
  import opened Options

  datatype Tally = Tally(oks: nat, errs: nat, firstErr: Option<nat>)

  /** Payload i has been pushed. */
  function Counted(t: Tally, i: nat, failed: bool): Tally {
    if failed then Tally(t.oks, t.errs + 1, if t.firstErr.None? then Some(i) else t.firstErr)
    else t.(oks := t.oks + 1)
  }

  function TallyOf(order: seq<nat>, fails: nat -> bool): Tally
    decreases |order|
  {
    if order == [] then Tally(0, 0, None)
    else
      var last := order[|order| - 1];
      Counted(TallyOf(order[..|order| - 1], fails), last, fails(last))
  }

  function Below(n: nat): (s: set<nat>)
    ensures |s| == n && forall i: nat :: i in s <==> i < n
  {
    if n == 0 then {} else Below(n - 1) + {n - 1}
  }

  /** Every payload finishes exactly once. */
  ghost predicate AnyOrder(order: seq<nat>, n: nat) {
    multiset(order) == multiset(Below(n))
  }

  function Failing(order: seq<nat>, fails: nat -> bool): multiset<nat>
    decreases |order|
  {
    if order == [] then multiset{}
    else
      var last := order[|order| - 1];
      Failing(order[..|order| - 1], fails) + if fails(last) then multiset{last} else multiset{}
  }

  lemma {:induction false} TallyCounts(order: seq<nat>, fails: nat -> bool)
    ensures var t := TallyOf(order, fails);
      t.oks + t.errs == |order| && t.errs == |Failing(order, fails)|
    ensures forall i: nat :: Failing(order, fails)[i] == if fails(i) then multiset(order)[i] else 0
    decreases |order|
  {
    if order == [] {
    } else {
      var front := order[..|order| - 1];
      var last := order[|order| - 1];
      TallyCounts(front, fails);
      assert order == front + [last];
    }
  }

  lemma {:induction false} FirstErrIsEarliest(order: seq<nat>, fails: nat -> bool, k: nat)
    requires k < |order| && fails(order[k]) && forall j :: 0 <= j < k ==> !fails(order[j])
    ensures TallyOf(order, fails).firstErr == Some(order[k])
    decreases |order|
  {
    var front := order[..|order| - 1];
    if k < |front| {
      FirstErrIsEarliest(front, fails, k);
    } else {
      NoErrYet(front, fails);
    }
  }

  lemma {:induction false} NoErrYet(order: seq<nat>, fails: nat -> bool)
    requires forall j :: 0 <= j < |order| ==> !fails(order[j])
    ensures TallyOf(order, fails).firstErr == None
    decreases |order|
  {
    if order == [] {
    } else {
      NoErrYet(order[..|order| - 1], fails);
    }
  }

  /**
   In whatever order the pushes finish, failures and successes add up to the payloads, the
   failures are exactly the payloads that failed, and BatchPush returns nil iff there are none.
   */
  lemma BatchCountsAll(order: seq<nat>, n: nat, fails: nat -> bool)
    requires AnyOrder(order, n)
    ensures var t := TallyOf(order, fails);
      && t.oks + t.errs == n
      && t.errs == |set i | i in Below(n) && fails(i)|
      && (t.errs == 0 <==> forall i: nat :: i < n ==> !fails(i))
  {
    var all := Below(n);
    var bad := set i | i in Below(n) && fails(i);
    TallyCounts(order, fails);
    assert |multiset(order)| == |multiset(all)|;
    assert Failing(order, fails) == multiset(bad);
    if bad == {} {
      forall i: nat | i < n
        ensures !fails(i)
      {
        assert i !in bad;
      }
    }
  }
}
