/** How a fallback chain divides the time left for response headers among its routes.
    Durations are nanoseconds. */
module HeaderBudget {
  const RESERVE := 25 * 1_000_000_000

  /** An attempt's provider, and whether time is kept for it when it comes later: it is not
      metered, or the chain opted in to it after a header timeout. */
  datatype Attempt = Attempt(provider: string, eligible: bool)

  function LaterUpTo(attempts: seq<Attempt>, index: nat, provider: string, n: nat): set<string>
    requires n <= |attempts|
  {
    set j | index < j < n && attempts[j].eligible && attempts[j].provider != provider :: attempts[j].provider
  }

  function LaterProviders(attempts: seq<Attempt>, index: nat, provider: string): set<string> {
    LaterUpTo(attempts, index, provider, |attempts|)
  }

  /** The distinct eligible providers still to come, other than the current one. */
  method CountLater(attempts: seq<Attempt>, index: nat, provider: string) returns (count: nat)
    requires index < |attempts|
    ensures count == |LaterProviders(attempts, index, provider)|
  {
    var seen := {provider};
    ghost var later: set<string> := {};
    count := 0;
    for next := index + 1 to |attempts|
      invariant later == LaterUpTo(attempts, index, provider, next)
      invariant seen == {provider} + later && provider !in later && count == |later|
    {
      LaterGrows(attempts, index, provider, next);
      later := LaterUpTo(attempts, index, provider, next + 1);
      if attempts[next].provider !in seen && attempts[next].eligible {
        seen := seen + {attempts[next].provider};
        count := count + 1;
      }
    }
  }

  lemma LaterGrows(attempts: seq<Attempt>, index: nat, provider: string, n: nat)
    requires index < n < |attempts|
    ensures var before, after := LaterUpTo(attempts, index, provider, n), LaterUpTo(attempts, index, provider, n + 1);
      after == if attempts[n].eligible && attempts[n].provider != provider then before + {attempts[n].provider}
          else before
  {
  }

  // ---------- the division ----------

  function Min(a: int, b: int): int {
    if a < b then a else b
  }

  function Reserved(remaining: int, later: nat): int
    requires remaining > 0
  {
    Min(later * RESERVE, remaining / (later + 1) * later)
  }

  /** What the current attempt may use of the time remaining. */
  function Allowance(remaining: int, later: nat): int {
    if remaining <= 0 then 0 else remaining - Reserved(remaining, later)
  }

  function Share(remaining: int, later: nat): int {
    Min(RESERVE, remaining / (later + 1))
  }

  lemma ReservedIsShares(remaining: int, later: nat)
    requires remaining > 0
    ensures Reserved(remaining, later) == later * Share(remaining, later)
    ensures 0 <= Reserved(remaining, later) < remaining
    ensures Allowance(remaining, later) >= Share(remaining, later)
  {
    var q := remaining / (later + 1);
    if q < RESERVE {
      MulMonotone(q, RESERVE, later);
    } else {
      MulMonotone(RESERVE, q, later);
    }
    assert q * (later + 1) <= remaining;
    assert q * (later + 1) == q * later + q;
    assert Share(remaining, later) <= q;
    MulMonotone(Share(remaining, later), q, later);
  }

  lemma MulMonotone(a: int, b: int, n: nat)
    requires a <= b
    ensures a * n <= b * n
  {
  }

  /** Dividing k equal shares among k gives a share each. */
  lemma SharesDivide(share: int, later: nat)
    requires 0 <= share <= RESERVE
    ensures (later + 1) * share / (later + 1) == share
    ensures Share((later + 1) * share, later) == share
  {
    assert (later + 1) * share == share * (later + 1);
    DivExact(share, later + 1);
  }

  lemma DivExact(a: int, n: int)
    requires n > 0
    ensures a * n / n == a
  {
    var q := a * n / n;
    assert a * n == q * n + a * n % n;
    if a > q {
      MulMonotone(q + 1, a, n);
    } else {
      MulMonotone(a, q, n);
    }
  }

  // ---------- a whole chain ----------

  function NextEligible(attempts: seq<Attempt>, i: nat): (j: nat)
    requires i < |attempts|
    ensures i < j <= |attempts|
    ensures j < |attempts| ==> attempts[j].eligible
    ensures forall k :: i < k < j ==> !attempts[k].eligible
    decreases |attempts| - i
  {
    if i + 1 >= |attempts| || attempts[i + 1].eligible then i + 1 else NextEligible(attempts, i + 1)
  }

  function Later(attempts: seq<Attempt>, i: nat): nat
    requires i < |attempts|
  {
    |LaterProviders(attempts, i, attempts[i].provider)|
  }

  /** The allowances when every attempt uses all of its own and only eligible routes follow. */
  function Allowances(attempts: seq<Attempt>, i: nat, remaining: int): seq<int>
    requires i <= |attempts|
    decreases |attempts| - i
  {
    if i == |attempts| then []
    else
      var a := Allowance(remaining, Later(attempts, i));
      [a] + Allowances(attempts, NextEligible(attempts, i), remaining - a)
  }

  /** From attempt i on, every eligible provider comes once. */
  predicate OnceEach(attempts: seq<Attempt>, i: nat) {
    forall j, k :: i <= j < k < |attempts| && attempts[k].eligible && (j == i || attempts[j].eligible)
                   ==> attempts[j].provider != attempts[k].provider
  }

  lemma LaterDrops(attempts: seq<Attempt>, i: nat)
    requires i < |attempts| && OnceEach(attempts, i)
    ensures var j := NextEligible(attempts, i);
      if j < |attempts| then Later(attempts, i) == Later(attempts, j) + 1 && OnceEach(attempts, j)
          else Later(attempts, i) == 0
  {
    var j := NextEligible(attempts, i);
    if j < |attempts| {
      SkipToNext(attempts, i, j);
    }
  }

  lemma SkipToNext(attempts: seq<Attempt>, i: nat, j: nat)
    requires i < j < |attempts| && OnceEach(attempts, i) && attempts[j].eligible
    requires forall k :: i < k < j ==> !attempts[k].eligible
    ensures Later(attempts, i) == Later(attempts, j) + 1
  {
    var p, q := attempts[i].provider, attempts[j].provider;
    var here, there := LaterProviders(attempts, i, p), LaterProviders(attempts, j, q);
    assert q != p && q in here && q !in there;
    forall k | j < k < |attempts| && attempts[k].eligible
      ensures attempts[k].provider != p && attempts[k].provider != q {}
    forall x | x in here && x != q ensures x in there {
      var k :| i < k < |attempts| && attempts[k].eligible && attempts[k].provider != p && attempts[k].provider == x;
      assert k > j;
    }
    forall x | x in there ensures x in here {
      var k :| j < k < |attempts| && attempts[k].eligible && attempts[k].provider != q && attempts[k].provider == x;
      assert attempts[k].provider != p;
    }
    assert here == there + {q};
  }

  /** With n providers to come and R left, each of the n gets exactly the smaller of the reserve
      and R/(n+1), however greedily all of them use their time; nothing is lost. */
  lemma EveryBackupGetsItsShare(attempts: seq<Attempt>, i: nat, remaining: int)
    requires i < |attempts| && OnceEach(attempts, i) && remaining > 0
    ensures var n := Later(attempts, i);
      var m := Share(remaining, n);
      Allowances(attempts, i, remaining) == [remaining - n * m] + seq(n, k => m)
      && remaining - n * m >= m
  {
    var n := Later(attempts, i);
    ReservedIsShares(remaining, n);
    LaterDrops(attempts, i);
    if n > 0 {
      EqualShares(attempts, NextEligible(attempts, i), Share(remaining, n));
    }
  }

  lemma {:induction false} EqualShares(attempts: seq<Attempt>, i: nat, share: int)
    requires i < |attempts| && OnceEach(attempts, i) && 0 <= share <= RESERVE
    ensures var n := Later(attempts, i);
      Allowances(attempts, i, (n + 1) * share) == seq(n + 1, k => share)
    decreases |attempts| - i
  {
    var n := Later(attempts, i);
    var all := (n + 1) * share;
    LaterDrops(attempts, i);
    if share > 0 {
      ReservedIsShares(all, n);
      SharesDivide(share, n);
      assert Allowance(all, n) == all - n * share == share;
    } else {
      assert Allowance(all, n) == 0;
    }
    if n > 0 {
      assert all - share == n * share;
      EqualShares(attempts, NextEligible(attempts, i), share);
    }
  }
}
