/**
 The token budget shared by fresh pool-session creates
 (internal/poolplan/create_budget.go).
 */
module CreateBudget {
  import opened Common
  import Rotation

  /** One template's fresh demand; `floor` says part of it satisfies a configured floor. */
  datatype Demand = Demand(template: string, wanted: int, floor: bool)

  type Shares = map<string, int>

  function Share(shares: Shares, template: string): int {
    if template in shares then shares[template] else 0
  }

  /** Templates must not repeat. */
  ghost predicate UniqueTemplates(ds: seq<Demand>) {
    forall i, j :: 0 <= i < j < |ds| ==> ds[i].template != ds[j].template
  }

  function Active(ds: seq<Demand>): seq<Demand> {
    if ds == [] then [] else (if ds[0].wanted > 0 then [ds[0]] else []) + Active(ds[1..])
  }

  /** Tokens held by the first `n` demands, all of them or only those without a floor. */
  function Held(shares: Shares, ds: seq<Demand>, n: nat, elasticOnly: bool): int
    requires n <= |ds|
  {
    if n == 0 then 0
    else Held(shares, ds, n - 1, elasticOnly) + if elasticOnly && ds[n - 1].floor then 0 else Share(shares, ds[n - 1].template)
  }

  /** Fresh creates wanted by the demands without a floor. */
  function ElasticDemand(ds: seq<Demand>, n: nat): int
    requires n <= |ds|
  {
    if n == 0 then 0 else ElasticDemand(ds, n - 1) + if ds[n - 1].floor then 0 else ds[n - 1].wanted
  }

  ghost function Floors(ds: seq<Demand>): set<nat> {
    set i: nat | i < |ds| && ds[i].floor
  }

  ghost function Templates(ds: seq<Demand>): set<string> {
    set d | d in ds :: d.template
  }

  /** No demand holds more than it wants, or a negative number of tokens. */
  ghost predicate WithinDemand(shares: Shares, ds: seq<Demand>) {
    && (forall i :: 0 <= i < |ds| ==> 0 <= Share(shares, ds[i].template) <= ds[i].wanted)
    && shares.Keys <= Templates(ds)
  }

  // --------------------------------------------------------------- accounting

  function Give(shares: Shares, template: string): Shares {
    shares[template := Share(shares, template) + 1]
  }

  lemma {:induction false} GiveCounts(shares: Shares, ds: seq<Demand>, n: nat, k: nat, elasticOnly: bool)
    requires UniqueTemplates(ds) && n <= |ds| && k < |ds|
    ensures Held(Give(shares, ds[k].template), ds, n, elasticOnly) ==
            Held(shares, ds, n, elasticOnly) + if k < n && !(elasticOnly && ds[k].floor) then 1 else 0
  {
    if n > 0 {
      GiveCounts(shares, ds, n - 1, k, elasticOnly);
      assert k != n - 1 ==> ds[k].template != ds[n - 1].template;
    }
  }

  lemma {:induction false} NothingHeld(ds: seq<Demand>, n: nat, elasticOnly: bool)
    requires n <= |ds|
    ensures Held(map[], ds, n, elasticOnly) == 0
  {
    if n > 0 { NothingHeld(ds, n - 1, elasticOnly); }
  }

  lemma {:induction false} SaturatedElastic(shares: Shares, ds: seq<Demand>, n: nat)
    requires n <= |ds| && forall i :: 0 <= i < n && !ds[i].floor ==> Share(shares, ds[i].template) >= ds[i].wanted
    ensures Held(shares, ds, n, true) >= ElasticDemand(ds, n)
  {
    if n > 0 { SaturatedElastic(shares, ds, n - 1); }
  }

  lemma {:induction false} ActiveProperties(ds: seq<Demand>)
    ensures forall d :: d in Active(ds) <==> d in ds && d.wanted > 0
    ensures UniqueTemplates(ds) ==> UniqueTemplates(Active(ds))
  {
    if ds != [] {
      ActiveProperties(ds[1..]);
      if UniqueTemplates(ds) {
        assert forall d :: d in ds[1..] ==> d.template != ds[0].template;
      }
    }
  }

  // -------------------------------------------------------------- fair shares

  /** The state of a distribution in progress over `ds`, from `limit` tokens. */
  ghost predicate Distributing(ds: seq<Demand>, limit: int, shares: Shares, remaining: int) {
    && UniqueTemplates(ds) && (forall d :: d in ds ==> d.wanted > 0)
    && WithinDemand(shares, ds)
    && remaining >= 0 && Held(shares, ds, |ds|, false) + remaining == limit
  }

  lemma GiveKeeps(ds: seq<Demand>, limit: int, shares: Shares, remaining: int, k: nat)
    requires Distributing(ds, limit, shares, remaining) && remaining > 0 && k < |ds|
    requires Share(shares, ds[k].template) < ds[k].wanted
    ensures Distributing(ds, limit, Give(shares, ds[k].template), remaining - 1)
    ensures Held(Give(shares, ds[k].template), ds, |ds|, true) == Held(shares, ds, |ds|, true) + if ds[k].floor then 0 else 1
  {
    GiveCounts(shares, ds, |ds|, k, false);
    GiveCounts(shares, ds, |ds|, k, true);
    var after := Give(shares, ds[k].template);
    forall i | 0 <= i < |ds| ensures 0 <= Share(after, ds[i].template) <= ds[i].wanted {
      assert i != k ==> ds[i].template != ds[k].template;
    }
  }

  /** After `offset` visits exactly the floor-bearing demands passed hold one token each. */
  ghost predicate FloorsServed(ds: seq<Demand>, start: nat, shares: Shares, served: set<nat>, offset: nat) {
    && served <= Floors(ds)
    && (forall i: nat :: i < |ds| ==> Share(shares, ds[i].template) == if i in served then 1 else 0)
    && (forall i: nat :: i < |ds| && ds[i].floor ==> (i in served <==> Rotation.Offset(start, i, |ds|) < offset))
  }

  lemma FloorVisited(ds: seq<Demand>, start: nat, shares: Shares, served: set<nat>, offset: nat)
    requires UniqueTemplates(ds) && offset < |ds| && FloorsServed(ds, start, shares, served, offset)
    ensures var k := Rotation.Visit(start, offset, |ds|);
            && k !in served
            && if ds[k].floor then FloorsServed(ds, start, Give(shares, ds[k].template), served + {k}, offset + 1)
               else FloorsServed(ds, start, shares, served, offset + 1)
  {
    var k := Rotation.Visit(start, offset, |ds|);
    forall i: nat | i < |ds|
      ensures Rotation.Offset(start, i, |ds|) == offset <==> i == k
      ensures i != k ==> ds[i].template != ds[k].template
    {
      Rotation.VisitedOnce(start, offset, i, |ds|);
    }
  }

  /** One token to each floor-bearing template, in rotated order, within `budget`. */
  method ShareFloors(ds: seq<Demand>, limit: int, start: nat, budget: int) returns (shares: Shares, remaining: int)
    requires ds != [] && UniqueTemplates(ds) && (forall d :: d in ds ==> d.wanted > 0) && 0 <= budget <= limit
    ensures Distributing(ds, limit, shares, remaining) && remaining >= limit - budget
    ensures Held(shares, ds, |ds|, true) == 0
    ensures |Floors(ds)| <= budget ==> forall i :: i in Floors(ds) ==> Share(shares, ds[i].template) >= 1
  {
    shares, remaining := map[], limit;
    NothingHeld(ds, |ds|, false);
    NothingHeld(ds, |ds|, true);
    var used, offset := 0, 0;
    ghost var served: set<nat> := {};
    while offset < |ds| && used < budget
      invariant 0 <= offset <= |ds| && used <= budget && remaining == limit - used && |served| == used
      invariant Distributing(ds, limit, shares, remaining) && Held(shares, ds, |ds|, true) == 0
      invariant FloorsServed(ds, start, shares, served, offset)
    {
      var k := Rotation.Visit(start, offset, |ds|);
      FloorVisited(ds, start, shares, served, offset);
      if ds[k].floor {
        assert ds[k] in ds;
        GiveKeeps(ds, limit, shares, remaining, k);
        shares, remaining, used := Give(shares, ds[k].template), remaining - 1, used + 1;
        served := served + {k};
      }
      offset := offset + 1;
    }
    if |Floors(ds)| <= budget && offset < |ds| { SubsetOfSameSize(served, Floors(ds)); }
  }

  lemma SubsetOfSameSize(a: set<nat>, b: set<nat>)
    requires a <= b && |a| >= |b|
    ensures a == b
  {
    assert |b - a| == |b| - |a|;
  }

  /** Demand `i` cannot be given a token in this round: it has a floor and the
      round is for elastic demand, or it holds all it wants. */
  predicate Sated(shares: Shares, ds: seq<Demand>, i: nat, elasticOnly: bool)
    requires i < |ds|
  {
    (elasticOnly && ds[i].floor) || Share(shares, ds[i].template) >= ds[i].wanted
  }

  ghost predicate NoLoss(before: Shares, after: Shares) {
    forall t :: Share(before, t) <= Share(after, t)
  }

  /** One cyclic sweep that hands out at most `cap` tokens, one per demand. */
  method SweepOnce(ds: seq<Demand>, limit: int, start: nat, shares0: Shares, remaining0: int, elasticOnly: bool, cap: int)
    returns (shares: Shares, given: int)
    requires ds != [] && Distributing(ds, limit, shares0, remaining0) && 0 < cap <= remaining0
    ensures 0 <= given <= cap && Distributing(ds, limit, shares, remaining0 - given) && NoLoss(shares0, shares)
    ensures elasticOnly ==> Held(shares, ds, |ds|, true) == Held(shares0, ds, |ds|, true) + given
    ensures given == 0 ==> shares == shares0 && forall i: nat :: i < |ds| ==> Sated(shares, ds, i, elasticOnly)
  {
    shares, given := shares0, 0;
    var offset := 0;
    while offset < |ds| && given < cap
      invariant 0 <= offset <= |ds| && 0 <= given <= cap
      invariant Distributing(ds, limit, shares, remaining0 - given) && NoLoss(shares0, shares)
      invariant elasticOnly ==> Held(shares, ds, |ds|, true) == Held(shares0, ds, |ds|, true) + given
      invariant given == 0 ==> shares == shares0 && forall i: nat :: i < |ds| && Rotation.Offset(start, i, |ds|) < offset ==> Sated(shares, ds, i, elasticOnly)
    {
      var k := Rotation.Visit(start, offset, |ds|);
      if Sated(shares, ds, k, elasticOnly) {
        forall i: nat | i < |ds| && Rotation.Offset(start, i, |ds|) == offset ensures i == k {
          Rotation.VisitedOnce(start, offset, i, |ds|);
        }
      } else {
        GiveKeeps(ds, limit, shares, remaining0 - given, k);
        shares, given := Give(shares, ds[k].template), given + 1;
      }
      offset := offset + 1;
    }
  }

  /** Sweeps until `cap` tokens are out or a whole sweep gives nothing. */
  method RoundRobin(ds: seq<Demand>, limit: int, start: nat, shares0: Shares, remaining0: int, elasticOnly: bool, cap: int)
    returns (shares: Shares, remaining: int)
    requires ds != [] && Distributing(ds, limit, shares0, remaining0) && 0 <= cap <= remaining0
    ensures Distributing(ds, limit, shares, remaining) && remaining0 - cap <= remaining <= remaining0 && NoLoss(shares0, shares)
    ensures elasticOnly ==> Held(shares, ds, |ds|, true) == Held(shares0, ds, |ds|, true) + remaining0 - remaining
    ensures remaining == remaining0 - cap || forall i: nat :: i < |ds| ==> Sated(shares, ds, i, elasticOnly)
  {
    shares, remaining := shares0, remaining0;
    while remaining > remaining0 - cap
      invariant Distributing(ds, limit, shares, remaining) && remaining0 - cap <= remaining <= remaining0 && NoLoss(shares0, shares)
      invariant elasticOnly ==> Held(shares, ds, |ds|, true) == Held(shares0, ds, |ds|, true) + remaining0 - remaining
      decreases remaining
    {
      var given;
      shares, given := SweepOnce(ds, limit, start, shares, remaining, elasticOnly, remaining - (remaining0 - cap));
      if given == 0 { return; }
      remaining := remaining - given;
    }
  }

  /** The least of the two. */
  function Min(x: int, y: int): int { if x <= y then x else y }

  /** What a fair distribution of `limit` tokens guarantees. */
  ghost predicate FairlyShared(ds: seq<Demand>, limit: int, shares: Shares, spare: int) {
    // Every token is accounted for and nobody is given more than they want ...
    && WithinDemand(shares, ds) && spare >= 0 && Held(shares, ds, |ds|, false) + spare == limit
    // ... tokens are left over only when every demand is met in full ...
    && (spare > 0 ==> forall i :: 0 <= i < |ds| ==> Share(shares, ds[i].template) == ds[i].wanted)
    // ... however many floors there are, elastic demand gets its quarter ...
    && Held(shares, ds, |ds|, true) >= Min(limit / 4, ElasticDemand(ds, |ds|))
    // ... and floors that fit beside it are all served.
    && (|Floors(ds)| <= limit - Min(limit / 4, ElasticDemand(ds, |ds|)) ==>
          forall i :: i in Floors(ds) ==> Share(shares, ds[i].template) >= 1)
  }

  lemma Assembled(ds: seq<Demand>, limit: int, floors: Shares, elastic: Shares, all: Shares, left: int)
    requires Distributing(ds, limit, all, left) && NoLoss(floors, elastic) && NoLoss(elastic, all)
    requires Held(elastic, ds, |ds|, true) >= Min(limit / 4, ElasticDemand(ds, |ds|))
    requires |Floors(ds)| <= limit - Min(limit / 4, ElasticDemand(ds, |ds|)) ==>
               forall i :: i in Floors(ds) ==> Share(floors, ds[i].template) >= 1
    requires left == 0 || forall i: nat :: i < |ds| ==> Sated(all, ds, i, false)
    ensures FairlyShared(ds, limit, all, left)
  {
    HeldMonotone(elastic, all, ds, |ds|);
    if left > 0 {
      forall i | 0 <= i < |ds| ensures Share(all, ds[i].template) == ds[i].wanted { assert Sated(all, ds, i, false); }
    }
    if |Floors(ds)| <= limit - Min(limit / 4, ElasticDemand(ds, |ds|)) {
      forall i | i in Floors(ds) ensures Share(all, ds[i].template) >= 1 {
        assert Share(floors, ds[i].template) <= Share(elastic, ds[i].template) <= Share(all, ds[i].template);
      }
    }
  }

  lemma ElasticServed(ds: seq<Demand>, shares: Shares, reserve: int)
    requires reserve <= ElasticDemand(ds, |ds|)
    requires Held(shares, ds, |ds|, true) >= reserve || forall i: nat :: i < |ds| ==> Sated(shares, ds, i, true)
    ensures Held(shares, ds, |ds|, true) >= reserve
  {
    if Held(shares, ds, |ds|, true) < reserve {
      forall i | 0 <= i < |ds| && !ds[i].floor ensures Share(shares, ds[i].template) >= ds[i].wanted {
        assert Sated(shares, ds, i, true);
      }
      SaturatedElastic(shares, ds, |ds|);
    }
  }

  /** fairShares: None when there is nothing to share out between templates. */
  method FairShares(demands: seq<Demand>, limit: int, seed: nat) returns (shares: Option<Shares>, spare: int)
    requires UniqueTemplates(demands)
    ensures shares.Some? <==> limit > 0 && |Active(demands)| > 1
    ensures shares.Some? ==> FairlyShared(Active(demands), limit, shares.value, spare)
    ensures shares.None? ==> spare == 0
  {
    if limit <= 0 { return None, 0; }
    var ds := Active(demands);
    if |ds| <= 1 { return None, 0; }
    ActiveProperties(demands);
    var start := seed % |ds|;
    var reserve := Min(limit / 4, ElasticDemand(ds, |ds|));
    ElasticDemandNonNegative(ds, |ds|);
    var floors, remaining := ShareFloors(ds, limit, start, limit - reserve);
    var elastic, remaining' := RoundRobin(ds, limit, start, floors, remaining, true, reserve);
    ElasticServed(ds, elastic, reserve);
    var all, left := RoundRobin(ds, limit, start, elastic, remaining', false, remaining');
    Assembled(ds, limit, floors, elastic, all, left);
    shares, spare := Some(all), left;
  }

  lemma {:induction false} ElasticDemandNonNegative(ds: seq<Demand>, n: nat)
    requires n <= |ds| && forall d :: d in ds ==> d.wanted > 0
    ensures ElasticDemand(ds, n) >= 0
  {
    if n > 0 { ElasticDemandNonNegative(ds, n - 1); }
  }

  lemma {:induction false} HeldMonotone(before: Shares, after: Shares, ds: seq<Demand>, n: nat)
    requires n <= |ds| && NoLoss(before, after)
    ensures Held(before, ds, n, true) <= Held(after, ds, n, true)
  {
    if n > 0 { HeldMonotone(before, after, ds, n - 1); }
  }

  // ------------------------------------------------------- claiming and releasing

  /** `shares` is None while fair shares are not configured; any claim then draws on `remaining` alone. */
  datatype Budget = Budget(remaining: int, shares: Option<Shares>, spare: int)

  ghost function Sum(m: Shares): int {
    if m == map[] then 0 else var k :| k in m; m[k] + Sum(m - {k})
  }

  lemma {:induction false} SumRemove(m: Shares, k: string)
    requires k in m
    ensures Sum(m) == m[k] + Sum(m - {k})
    decreases |m|
  {
    var j :| j in m && Sum(m) == m[j] + Sum(m - {j});
    if j != k {
      SumRemove(m - {j}, k);
      SumRemove(m - {k}, j);
      assert m - {j} - {k} == m - {k} - {j};
    }
  }

  lemma SumUpdate(m: Shares, k: string, v: int)
    requires k in m
    ensures Sum(m[k := v]) == Sum(m) - m[k] + v
  {
    SumRemove(m, k);
    SumRemove(m[k := v], k);
    assert m[k := v] - {k} == m - {k};
  }

  lemma {:induction false} SumAtLeast(m: Shares, k: string)
    requires k in m && forall t :: t in m ==> m[t] >= 0
    ensures 0 <= m[k] <= Sum(m)
    decreases |m|
  {
    SumRemove(m, k);
    if m - {k} != map[] {
      var j :| j in m - {k};
      SumAtLeast(m - {k}, j);
    }
  }

  /** Tokens assigned to templates and spare tokens add up to the tokens remaining. */
  ghost predicate Balanced(b: Budget) {
    && b.remaining >= 0
    && (b.shares.Some? ==> b.spare >= 0 && (forall t :: t in b.shares.value ==> b.shares.value[t] >= 0) &&
                           Sum(b.shares.value) + b.spare == b.remaining)
  }

  datatype Claimed = Claimed(budget: Budget, ok: bool)

  function TryClaim(b: Budget, template: string): Claimed {
    if b.remaining <= 0 then Claimed(b, false)
    else match b.shares
    case None => Claimed(b.(remaining := b.remaining - 1), true)
    case Some(shares) =>
      if Share(shares, template) > 0 then
        Claimed(Budget(b.remaining - 1, Some(shares[template := Share(shares, template) - 1]), b.spare), true)
      else if b.spare > 0 then Claimed(Budget(b.remaining - 1, Some(shares), b.spare - 1), true)
      else Claimed(b, false)
  }

  function Release(b: Budget): Budget {
    Budget(b.remaining + 1, b.shares, if b.shares.Some? then b.spare + 1 else b.spare)
  }

  /** The balance survives every step; a template's own share can always be
      claimed; and no claim or release touches another template's share. */
  lemma BudgetStep(b: Budget, template: string)
    requires Balanced(b)
    ensures Balanced(TryClaim(b, template).budget) && Balanced(Release(b))
    ensures b.shares.Some? && Share(b.shares.value, template) > 0 ==> TryClaim(b, template).ok
    ensures b.shares.Some? ==>
              && TryClaim(b, template).budget.shares.Some?
              && forall t :: t != template ==> Share(TryClaim(b, template).budget.shares.value, t) == Share(b.shares.value, t)
    ensures TryClaim(b, template).budget.remaining == b.remaining - if TryClaim(b, template).ok then 1 else 0
  {
    if b.shares.Some? {
      var shares := b.shares.value;
      if Share(shares, template) > 0 {
        SumAtLeast(shares, template);
        SumUpdate(shares, template, shares[template] - 1);
      }
    }
  }

  /** The template has tokens of its own. */
  predicate HasShare(b: Budget, template: string) {
    b.shares.Some? && template in b.shares.value && b.shares.value[template] > 0
  }

  /** A claim is granted exactly when a token remains that the template may
      draw: any without fair shares, else its own first and then a spare one. */
  lemma ClaimDraws(b: Budget, template: string)
    ensures var c := TryClaim(b, template);
            && (c.ok <==> b.remaining > 0 && (b.shares.None? || HasShare(b, template) || b.spare > 0))
            && (c.ok ==> c.budget.spare == b.spare - if b.shares.Some? && !HasShare(b, template) then 1 else 0)
            && (c.ok && HasShare(b, template) ==> c.budget.shares == Some(b.shares.value[template := b.shares.value[template] - 1]))
            && (!c.ok || !HasShare(b, template) ==> c.budget.shares == b.shares)
            && (!c.ok ==> c.budget == b)
  {
  }

  /** A refund adds one token, spare where there are fair shares, so that a claim and its refund cost nothing. */
  lemma ReleaseRefunds(b: Budget, template: string)
    ensures Release(b).remaining == b.remaining + 1 && Release(b).shares == b.shares
    ensures Release(b).spare == b.spare + if b.shares.Some? then 1 else 0
    ensures TryClaim(b, template).ok ==> Release(TryClaim(b, template).budget).remaining == b.remaining
  {
  }

  /** Fair shares start balanced. */
  lemma {:induction false} SharesSum(shares: Shares, ds: seq<Demand>, n: nat)
    requires UniqueTemplates(ds) && n <= |ds| && shares.Keys <= Templates(ds[..n])
    ensures Sum(shares) == Held(shares, ds, n, false)
  {
    if n == 0 {
      assert shares == map[];
    } else {
      var t := ds[n - 1].template;
      var rest := shares - {t};
      OneTemplateLess(shares, ds, n);
      SharesSum(rest, ds, n - 1);
      HeldWithout(shares, ds, n - 1, t);
      if t in shares { SumRemove(shares, t); } else { assert rest == shares; }
    }
  }

  lemma OneTemplateLess(shares: Shares, ds: seq<Demand>, n: nat)
    requires 0 < n <= |ds| && shares.Keys <= Templates(ds[..n])
    ensures (shares - {ds[n - 1].template}).Keys <= Templates(ds[..n - 1])
  {
    assert forall x :: x in ds[..n] ==> x in ds[..n - 1] || x == ds[n - 1];
  }

  lemma {:induction false} HeldWithout(shares: Shares, ds: seq<Demand>, n: nat, t: string)
    requires n <= |ds| && forall i :: 0 <= i < n ==> ds[i].template != t
    ensures Held(shares - {t}, ds, n, false) == Held(shares, ds, n, false)
  {
    if n > 0 { HeldWithout(shares, ds, n - 1, t); }
  }

  lemma FairSharesBalance(ds: seq<Demand>, limit: int, shares: Shares, spare: int)
    requires UniqueTemplates(ds) && limit > 0 && FairlyShared(ds, limit, shares, spare)
    ensures Balanced(Budget(limit, Some(shares), spare))
  {
    assert ds[..|ds|] == ds;
    SharesSum(shares, ds, |ds|);
    forall t | t in shares ensures shares[t] >= 0 {
      var d :| d in ds && d.template == t;
      var i :| 0 <= i < |ds| && ds[i] == d;
      assert Share(shares, ds[i].template) >= 0;
    }
  }
}
