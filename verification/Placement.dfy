/** Placement of chunks on accounts (drivepool/placement.go): the one-shot choice by
    live quota and the tracker that spends an in-memory budget. */
module Placement {
  import opened Prelude

  const MAX_INT64: int := 0x7fff_ffff_ffff_ffff

  /** QuotaInfo (drivepool/gdrive/client.go). */
  datatype Quota = Quota(limit: int, usage: int, unlimited: bool) {
    function Available(): int {
      if unlimited then MAX_INT64 else if limit <= usage then 0 else limit - usage
    }

    /** The same account after `n` more bytes were stored on it. */
    function Grown(n: nat): Quota {
      this.(usage := usage + n)
    }
  }

  type Quotas = map<AccountId, Quota>

  /** `n` more bytes fit within the limit; without one, any number an int64 can express. */
  predicate Offers(q: Quota, n: nat) {
    n == 0 || (if q.unlimited then n < 0x8000_0000_0000_0000 else q.usage + n <= q.limit)
  }

  /** Available is the largest number of bytes on offer. */
  lemma AvailableIsOffer(q: Quota, n: nat)
    ensures n <= q.Available() <==> Offers(q, n)
  {
  }

  /** Some order of sorting by available space puts `id` first. */
  predicate CouldPick(quotas: Quotas, id: AccountId) {
    id in quotas && forall o :: o in quotas ==> quotas[o].Available() <= quotas[id].Available()
  }

  /** pickAccount over the accounts whose quota query succeeded. */
  method PickAccount(quotas: Quotas) returns (best: Option<AccountId>)
    ensures best.None? <==> quotas == map[]
    ensures best.Some? ==> CouldPick(quotas, best.value)
  {
    best := None;
    var rest := quotas.Keys;
    while rest != {}
      invariant rest <= quotas.Keys
      invariant best.None? ==> rest == quotas.Keys
      invariant best.Some? ==> best.value in quotas
      invariant best.Some? ==> forall o :: o in quotas && o !in rest ==>
        quotas[o].Available() <= quotas[best.value].Available()
      decreases |rest|
    {
      var id :| id in rest;
      rest := rest - {id};
      var tieGoesToNew: bool := *;
      if best.None? || quotas[best.value].Available() < quotas[id].Available() ||
         (tieGoesToNew && quotas[best.value].Available() == quotas[id].Available()) {
        best := Some(id);
      }
    }
    assert quotas == map[] <==> quotas.Keys == {};
  }

  /** The tracker's two maps. */
  datatype Budget = Budget(available: map<AccountId, int>, unlimited: set<AccountId>)

  /** The budget newPlacementTracker starts from. */
  function Opening(quotas: Quotas): Budget {
    Budget(map id | id in quotas && !quotas[id].unlimited :: quotas[id].Available(),
           set id | id in quotas && quotas[id].unlimited)
  }

  /** reserve may return `id`: any unlimited account, otherwise an account with the
      largest budget, as long as that is not negative. Map order decides ties. */
  predicate CanReserve(b: Budget, id: AccountId) {
    if b.unlimited != {} then id in b.unlimited
    else id in b.available && 0 <= b.available[id] &&
         forall o :: o in b.available ==> b.available[o] <= b.available[id]
  }

  /** reserve fails. */
  predicate CannotReserve(b: Budget) {
    b.unlimited == {} && forall o :: o in b.available ==> b.available[o] < 0
  }

  function Spend(b: Budget, id: AccountId, size: nat): Budget {
    if b.unlimited == {} && id in b.available then b.(available := b.available[id := b.available[id] - size]) else b
  }

  /** placementTracker. */
  class Tracker {
    var available: map<AccountId, int>
    var unlimited: set<AccountId>

    ghost function State(): Budget
      reads this
    {
      Budget(available, unlimited)
    }

    constructor (quotas: Quotas)
      ensures State() == Opening(quotas)
    {
      var avail: map<AccountId, int>, free: set<AccountId> := map[], {};
      var rest := quotas.Keys;
      while rest != {}
        invariant rest <= quotas.Keys
        invariant avail == map id | id in quotas && id !in rest && !quotas[id].unlimited :: quotas[id].Available()
        invariant free == set id | id in quotas && id !in rest && quotas[id].unlimited
        decreases |rest|
      {
        var id :| id in rest;
        rest := rest - {id};
        if quotas[id].unlimited {
          free := free + {id};
        } else {
          avail := avail[id := quotas[id].Available()];
        }
      }
      available, unlimited := avail, free;
    }

    /** reserve, over every order in which the maps may be walked. */
    method Reserve(size: nat) returns (id: Option<AccountId>)
      modifies this
      ensures id.None? <==> CannotReserve(old(State()))
      ensures id.None? ==> State() == old(State())
      ensures id.Some? ==> CanReserve(old(State()), id.value) && State() == Spend(old(State()), id.value, size)
    {
      if u :| u in unlimited {
        return Some(u);
      }
      var best: Option<AccountId>, bestAvail := None, -1;
      var rest := available.Keys;
      while rest != {}
        invariant rest <= available.Keys && available == old(available) && unlimited == old(unlimited)
        invariant best.None? ==> bestAvail == -1
        invariant best.Some? ==> best.value in available && 0 <= bestAvail == available[best.value]
        invariant forall o :: o in available && o !in rest ==> available[o] <= bestAvail
        decreases |rest|
      {
        var o :| o in rest;
        rest := rest - {o};
        if available[o] > bestAvail {
          best, bestAvail := Some(o), available[o];
        }
      }
      if best.None? {
        return None;
      }
      available := available[best.value := available[best.value] - size];
      return best;
    }
  }

  // ---- runs of reservations ----

  datatype Pick = Pick(id: AccountId, size: nat)

  /** Every pick was one `reserve` could make at its turn. */
  ghost predicate Run(b: Budget, picks: seq<Pick>)
    decreases |picks|
  {
    picks == [] || (CanReserve(b, picks[0].id) && Run(Spend(b, picks[0].id, picks[0].size), picks[1..]))
  }

  function After(b: Budget, picks: seq<Pick>): Budget
    decreases |picks|
  {
    if picks == [] then b else After(Spend(b, picks[0].id, picks[0].size), picks[1..])
  }

  /** Bytes reserved on `id`, and bytes reserved in all. */
  function On(picks: seq<Pick>, id: AccountId): nat {
    if picks == [] then 0 else (if picks[0].id == id then picks[0].size else 0) + On(picks[1..], id)
  }

  function Reserved(picks: seq<Pick>): nat {
    if picks == [] then 0 else picks[0].size + Reserved(picks[1..])
  }

  ghost function Total(m: map<AccountId, int>): int
    decreases |m|
  {
    if m == map[] then 0 else var k :| k in m; m[k] + Total(m - {k})
  }

  lemma {:induction false} TotalSplit(m: map<AccountId, int>, k: AccountId)
    requires k in m
    ensures Total(m) == m[k] + Total(m - {k})
    decreases |m|
  {
    var j :| j in m && Total(m) == m[j] + Total(m - {j});
    if j != k {
      TotalSplit(m - {j}, k);
      TotalSplit(m - {k}, j);
      assert m - {j} - {k} == m - {k} - {j};
    }
  }

  lemma TotalUpdate(m: map<AccountId, int>, k: AccountId, v: int)
    requires k in m
    ensures Total(m[k := v]) == Total(m) - m[k] + v
  {
    TotalSplit(m, k);
    TotalSplit(m[k := v], k);
    assert m[k := v] - {k} == m - {k};
  }

  lemma {:induction false} TotalNegative(m: map<AccountId, int>)
    requires forall k :: k in m ==> m[k] < 0
    ensures if m == map[] then Total(m) == 0 else Total(m) < 0
    decreases |m|
  {
    if m != map[] {
      var k :| k in m && Total(m) == m[k] + Total(m - {k});
      TotalNegative(m - {k});
    }
  }

  /** What a run does to the budget of each account, and of all together. */
  lemma {:induction false} RunAccounting(b: Budget, picks: seq<Pick>)
    requires b.unlimited == {} && Run(b, picks)
    ensures After(b, picks).unlimited == {} && After(b, picks).available.Keys == b.available.Keys
    ensures forall id :: id in b.available ==> After(b, picks).available[id] == b.available[id] - On(picks, id)
    ensures Total(After(b, picks).available) == Total(b.available) - Reserved(picks)
    decreases |picks|
  {
    if picks != [] {
      var p := picks[0];
      TotalUpdate(b.available, p.id, b.available[p.id] - p.size);
      RunAccounting(Spend(b, p.id, p.size), picks[1..]);
    }
  }

  /** With no unlimited account, `reserve` fails only once more bytes were reserved
      than all accounts offered together, so a file no larger than that is never refused. */
  lemma RefusedOnlyWhenFull(b: Budget, picks: seq<Pick>)
    requires b.unlimited == {} && b.available != map[] && Run(b, picks)
    requires CannotReserve(After(b, picks))
    ensures Reserved(picks) > Total(b.available)
  {
    RunAccounting(b, picks);
    assert After(b, picks).available.Keys != {};
    TotalNegative(After(b, picks).available);
  }

  /** No account is over-committed by more than one chunk of `c` bytes. */
  lemma {:induction false} OverCommitBound(b: Budget, picks: seq<Pick>, c: nat)
    requires b.unlimited == {} && Run(b, picks)
    requires forall i :: 0 <= i < |picks| ==> picks[i].size <= c
    requires forall id :: id in b.available ==> b.available[id] + c >= 0
    ensures forall id :: id in b.available ==> id in After(b, picks).available && After(b, picks).available[id] + c >= 0
    decreases |picks|
  {
    if picks != [] {
      assert picks[0].size <= c;
      OverCommitBound(Spend(b, picks[0].id, picks[0].size), picks[1..], c);
    }
  }

  /** reserve looks only for a budget that is not negative: on limited accounts it
      over-commits the account it returns if and only if the chunk is larger than every
      budget, and then no choice would have been better. */
  lemma OverCommitsIff(b: Budget, id: AccountId, size: nat)
    requires b.unlimited == {} && CanReserve(b, id)
    ensures Spend(b, id, size).available[id] < 0 <==> forall o :: o in b.available ==> b.available[o] < size
  {
  }

  /** Such a reservation: one byte free, two wanted. */
  lemma OverCommitExample()
    ensures var b := Budget(map["a" := 1], {}); CanReserve(b, "a") && Spend(b, "a", 2).available["a"] == -1
  {
  }

  ghost predicate Balanced(b: Budget, picked: set<AccountId>, c: nat) {
    forall a, o :: a in picked && a in b.available && o in b.available ==> b.available[a] >= b.available[o] - c
  }

  function Picked(picks: seq<Pick>): set<AccountId> {
    set i | 0 <= i < |picks| :: picks[i].id
  }

  /** Greedy balance: an account picked at least once never falls more than one chunk
      behind any other account. */
  lemma {:induction false} GreedyBalance(b: Budget, before: set<AccountId>, picks: seq<Pick>, c: nat)
    requires b.unlimited == {} && Run(b, picks) && Balanced(b, before, c)
    requires forall i :: 0 <= i < |picks| ==> picks[i].size <= c
    ensures Balanced(After(b, picks), before + Picked(picks), c)
    decreases |picks|
  {
    if picks == [] {
      assert before + Picked(picks) == before;
    } else {
      var p := picks[0];
      var next := Spend(b, p.id, p.size);
      assert p.size <= c;
      assert Balanced(next, before + {p.id}, c);
      GreedyBalance(next, before + {p.id}, picks[1..], c);
      assert Picked(picks) == {p.id} + Picked(picks[1..]) by {
        forall id | id in Picked(picks) ensures id in {p.id} + Picked(picks[1..]) {
          var i :| 0 <= i < |picks| && picks[i].id == id;
          if i > 0 {
            assert picks[1..][i - 1].id == id;
          }
        }
        forall id | id in Picked(picks[1..]) ensures id in Picked(picks) {
          var i :| 0 <= i < |picks[1..]| && picks[1..][i].id == id;
          assert picks[i + 1].id == id;
        }
      }
      assert before + {p.id} + Picked(picks[1..]) == before + Picked(picks);
    }
  }

  /** The live quotas after the reserved bytes were really stored. */
  function Live(quotas: Quotas, picks: seq<Pick>): Quotas {
    map id | id in quotas :: quotas[id].Grown(On(picks, id))
  }

  /** Quotas as int64 values can express them. */
  ghost predicate WellFormed(quotas: Quotas) {
    forall id :: id in quotas ==> quotas[id].Available() <= MAX_INT64
  }

  lemma {:induction false} UnlimitedStays(b: Budget, picks: seq<Pick>)
    requires b.unlimited != {}
    ensures After(b, picks) == b
    decreases |picks|
  {
    if picks != [] {
      UnlimitedStays(b, picks[1..]);
    }
  }

  /** While an account is unlimited only such accounts are picked. */
  lemma {:induction false} UnlimitedTakesAll(b: Budget, picks: seq<Pick>)
    requires b.unlimited != {} && Run(b, picks)
    ensures forall i :: 0 <= i < |picks| ==> picks[i].id in b.unlimited
    decreases |picks|
  {
    if picks != [] {
      UnlimitedTakesAll(b, picks[1..]);
    }
  }

  lemma UnlimitedRefines(quotas: Quotas, picks: seq<Pick>, id: AccountId)
    requires WellFormed(quotas) && Opening(quotas).unlimited != {} && CanReserve(After(Opening(quotas), picks), id)
    ensures CouldPick(Live(quotas, picks), id)
  {
    var live := Live(quotas, picks);
    UnlimitedStays(Opening(quotas), picks);
    forall o | o in live ensures live[o].Available() <= live[id].Available() {
      assert live[o].Available() <= quotas[o].Available();
    }
  }

  /** A limited account has its budget free by then, or nothing. */
  lemma LimitedLive(quotas: Quotas, picks: seq<Pick>, o: AccountId)
    requires Opening(quotas).unlimited == {} && Run(Opening(quotas), picks) && o in quotas
    ensures var now := After(Opening(quotas), picks).available;
      && o in Live(quotas, picks) && o in now && now.Keys == quotas.Keys
      && Live(quotas, picks)[o].Available() == if now[o] < 0 then 0 else now[o]
  {
    var b := Opening(quotas);
    forall x | x in quotas ensures x in b.available {
      assert x !in b.unlimited;
    }
    RunAccounting(b, picks);
  }

  /** The tracker refines asking again: whatever `reserve` returns after any run is an
      account `pickAccount` could return on the quotas as they would be by then. With
      no unlimited account the converse holds too, until every budget is negative. */
  lemma TrackerRefinesQuery(quotas: Quotas, picks: seq<Pick>, id: AccountId)
    requires WellFormed(quotas) && Run(Opening(quotas), picks)
    ensures CanReserve(After(Opening(quotas), picks), id) ==> CouldPick(Live(quotas, picks), id)
    ensures Opening(quotas).unlimited == {} && !CannotReserve(After(Opening(quotas), picks)) ==>
      (CouldPick(Live(quotas, picks), id) ==>
         CanReserve(After(Opening(quotas), picks), id) || AllZero(Live(quotas, picks)))
  {
    hide Opening, Run;
    var b := Opening(quotas);
    if b.unlimited != {} {
      if CanReserve(After(b, picks), id) {
        UnlimitedRefines(quotas, picks, id);
      }
    } else {
      LimitedKeys(b, picks);
      forall o | o in quotas
        ensures var now := After(b, picks).available;
          o in now && now.Keys == quotas.Keys && Live(quotas, picks)[o].Available() == if now[o] < 0 then 0 else now[o]
      {
        LimitedLive(quotas, picks, o);
      }
      if quotas == map[] {
        NoQuotas(picks);
      }
    }
  }

  lemma LimitedKeys(b: Budget, picks: seq<Pick>)
    requires b.unlimited == {} && Run(b, picks)
    ensures After(b, picks).unlimited == {} && After(b, picks).available.Keys == b.available.Keys
  {
    RunAccounting(b, picks);
  }

  lemma NoQuotas(picks: seq<Pick>)
    requires Run(Opening(map[]), picks)
    ensures After(Opening(map[]), picks).available == map[]
  {
    RunAccounting(Opening(map[]), picks);
  }

  ghost predicate AllZero(quotas: Quotas) {
    forall id :: id in quotas ==> quotas[id].Available() == 0
  }
}
