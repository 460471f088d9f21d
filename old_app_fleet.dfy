/**
 * The virtual fleet of `oldApp.js`: `addVirtualUsersIfEmpty`, `addBots`, `removeBots` and
 * `fluctuateVirtualUsers`. The shuffle of the profile pool is a parameter `order` (the
 * positions of the profiles in shuffled order), the random key suffix `makeVirtualEntry` draws
 * at the `k`-th shuffled profile is `suffix(k)`, each `Math.random()` index into the
 * shrinking bot list is an element of `picks`, and `Date.now()` is `now`.
 */
module OldAppFleet {
  import opened Text
  import opened WaitQueue
  import opened OldApp

  /** `virtualUsers.slice().sort(() => Math.random() - 0.5)` yields every position once. */
  predicate IsShuffle(order: seq<nat>, n: nat)
  {
    |order| == n
    && (forall k :: 0 <= k < |order| ==> order[k] < n)
    && (forall a, b :: 0 <= a < b < |order| ==> order[a] != order[b])
  }

  /** A profile whose runtime cooldown still runs: `now < profile.__cooldownUntil`. */
  predicate InCooldown(p: VirtualProfile, now: nat)
  {
    now < p.cooldownUntil
  }

  /** What the fleet jobs change: the queue and the profiles' cooldown stamps. */
  datatype Fleet = Fleet(waiting: seq<WaitEntry>, pool: seq<VirtualProfile>)

  /** Queue the profile at position `j` (keyed with `idSuffix` if it has no id) and stamp its 2-minute cooldown. */
  function Admit(f: Fleet, j: nat, idSuffix: String, now: nat): (r: Fleet)
    requires j < |f.pool|
    ensures |r.pool| == |f.pool|
  {
    var p := f.pool[j];
    Fleet(Upsert(f.waiting, MakeVirtualEntry(p, idSuffix)), f.pool[j := p.(cooldownUntil := now + ADD_COOLDOWN_MS)])
  }

  predicate OrderFits(order: seq<nat>, f: Fleet)
  {
    forall k :: 0 <= k < |order| ==> order[k] < |f.pool|
  }

  /** The loop of `addBots` from the `k`-th shuffled profile on, having added `added` so far. */
  function AddBotsFrom(f: Fleet, order: seq<nat>, suffix: nat -> String, k: nat, added: nat, n: int, now: nat): (r: Fleet)
    requires OrderFits(order, f)
    ensures |r.pool| == |f.pool|
    decreases |order| - k
  {
    if k >= |order| || added >= n then f
    else if InCooldown(f.pool[order[k]], now) then AddBotsFrom(f, order, suffix, k + 1, added, n, now)
    else AddBotsFrom(Admit(f, order[k], suffix(k), now), order, suffix, k + 1, added + 1, n, now)
  }

  /** `addBots(n)`. */
  function AddBots(s: State, n: int, order: seq<nat>, suffix: nat -> String, now: nat): State
    requires IsShuffle(order, |s.pool|)
  {
    if |s.pool| == 0 || n <= 0 then s
    else
      var f := AddBotsFrom(Fleet(s.waiting, s.pool), order, suffix, 0, 0, n, now);
      s.(waiting := f.waiting, pool := f.pool)
  }

  /** The loop of `addVirtualUsersIfEmpty` from the `k`-th shuffled profile on. */
  function FillFrom(f: Fleet, order: seq<nat>, suffix: nat -> String, k: nat, minCount: nat, now: nat): (r: Fleet)
    requires OrderFits(order, f)
    ensures |r.pool| == |f.pool|
    decreases |order| - k
  {
    if k >= |order| || |f.waiting| >= minCount then f
    else if InCooldown(f.pool[order[k]], now) then FillFrom(f, order, suffix, k + 1, minCount, now)
    else FillFrom(Admit(f, order[k], suffix(k), now), order, suffix, k + 1, minCount, now)
  }

  /** `addVirtualUsersIfEmpty(minCount)`. */
  function AddVirtualUsersIfEmpty(s: State, minCount: nat, order: seq<nat>, suffix: nat -> String, now: nat): State
    requires IsShuffle(order, |s.pool|)
  {
    if |s.waiting| >= minCount then s
    else
      var f := FillFrom(Fleet(s.waiting, s.pool), order, suffix, 0, minCount, now);
      Broadcast(s.(waiting := f.waiting, pool := f.pool))
  }

  /**
   * `picks` can index the bot list of every iteration from `i` on: the `k`-th removal
   * draws from a list that has lost `k - i` more bots.
   */
  predicate PicksFrom(picks: seq<nat>, i: nat, count: nat, n: int)
    decreases count
  {
    i >= n || count == 0 || (i < |picks| && picks[i] < count && PicksFrom(picks, i + 1, count - 1, n))
  }

  /** Draws enough for `n` removals are enough for fewer. */
  lemma {:induction false} PicksFewer(picks: seq<nat>, i: nat, count: nat, n: int, m: int)
    requires PicksFrom(picks, i, count, n) && m <= n
    ensures PicksFrom(picks, i, count, m)
    decreases count
  {
    if i < m && count > 0 {
      PicksFewer(picks, i + 1, count - 1, n, m);
    }
  }

  /** The loop of `removeBots` from iteration `i` on, with the remaining bot list `bots`. */
  function RemoveBotsFrom(q: seq<WaitEntry>, bots: seq<WaitEntry>, picks: seq<nat>, i: nat, n: int): seq<WaitEntry>
    requires PicksFrom(picks, i, |bots|, n)
    decreases |bots|
  {
    if i >= n || |bots| == 0 then q
    else
      var idx := picks[i];
      RemoveBotsFrom(Remove(q, bots[idx].id), bots[..idx] + bots[idx + 1..], picks, i + 1, n)
  }

  /** `removeBots(n)`. */
  function RemoveBots(s: State, n: int, picks: seq<nat>): State
    requires PicksFrom(picks, 0, |Bots(s.waiting)|, n)
  {
    var bots := Bots(s.waiting);
    if |bots| == 0 || n <= 0 then s
    else s.(waiting := RemoveBotsFrom(s.waiting, bots, picks, 0, n))
  }

  /** The `Math.random()` results one run of `fluctuateVirtualUsers` consumes. */
  datatype FleetDraws =
    FleetDraws(targetDraw: real, jitterGate: real, jitterDraw: real, order: seq<nat>, suffix: nat -> String, picks: seq<nat>)

  predicate IsDraw(x: real)
  {
    0 as real <= x < 1 as real
  }

  function Min(a: int, b: int): int { if a <= b then a else b }
  function Max(a: int, b: int): int { if a >= b then a else b }

  /** `Math.max(minRange, Math.min(maxRange, Math.floor(r * (maxRange - minRange + 1)) + minRange))`. */
  function Target(minRange: int, maxRange: int, r: real): int
  {
    Max(minRange, Min(maxRange, (r * (maxRange - minRange + 1) as real).Floor + minRange))
  }

  /** `Math.floor(r * 11) - 5`. */
  function Jitter(r: real): int
  {
    (r * 11 as real).Floor - 5
  }

  predicate DrawsFit(s: State, d: FleetDraws)
  {
    IsShuffle(d.order, |s.pool|) && PicksFrom(d.picks, 0, |Bots(s.waiting)|, |Bots(s.waiting)|)
  }

  /** `removeBots(m)` with draws for removing every bot. */
  function Shrink(s: State, m: int, picks: seq<nat>): State
    requires m <= |Bots(s.waiting)| && PicksFrom(picks, 0, |Bots(s.waiting)|, |Bots(s.waiting)|)
  {
    PicksFewer(picks, 0, |Bots(s.waiting)|, |Bots(s.waiting)|, m);
    RemoveBots(s, m, picks)
  }

  /** The jitter branch of `fluctuateVirtualUsers`. */
  function Nudge(s: State, jitter: int, d: FleetDraws, now: nat): State
    requires DrawsFit(s, d)
  {
    var current := |Bots(s.waiting)|;
    if jitter > 0 then AddBots(s, Min(jitter, |s.pool| - current), d.order, d.suffix, now)
    else if jitter < 0 then Shrink(s, Min(-jitter, current), d.picks)
    else s
  }

  /** The part of `fluctuateVirtualUsers` that adds or removes bots to approach `target`. */
  function Resize(s: State, target: int, d: FleetDraws, now: nat): State
    requires DrawsFit(s, d)
  {
    var current := |Bots(s.waiting)|;
    if current == target then
      if d.jitterGate < 4 as real / 10 as real then Nudge(s, Jitter(d.jitterDraw), d, now) else s
    else if current < target then AddBots(s, Min(target - current, |s.pool| - current), d.order, d.suffix, now)
    else Shrink(s, Min(current - target, current), d.picks)
  }

  /** `fluctuateVirtualUsers(minRange, maxRange)`. */
  function Fluctuate(s: State, minRange: int, maxRange: int, d: FleetDraws, now: nat): State
    requires DrawsFit(s, d)
  {
    Broadcast(Resize(s, Target(minRange, maxRange, d.targetDraw), d, now))
  }

  // ------------------------------------------------------------------ properties

  /** Queuing one profile keeps the queue well formed, keeps every human and adds at most one bot. */
  lemma AdmitKeeps(f: Fleet, j: nat, idSuffix: String, now: nat)
    requires j < |f.pool| && QueueOk(f.waiting)
    ensures var r := Admit(f, j, idSuffix, now);
      QueueOk(r.waiting) && HumanIds(r.waiting) == HumanIds(f.waiting)
      && |f.waiting| <= |r.waiting| <= |f.waiting| + 1
      && |Bots(f.waiting)| <= |Bots(r.waiting)| <= |Bots(f.waiting)| + 1
      && forall i :: 0 <= i < |f.pool| && i != j ==> r.pool[i] == f.pool[i]
  {
    var e := MakeVirtualEntry(f.pool[j], idSuffix);
    UpsertUnique(f.waiting, e);
    UpsertElements(f.waiting, e);
    UpsertVirtualHumanIds(f.waiting, e);
    HumanKeysNotVirtual(f.waiting);
    UpsertCounts(f.waiting, e);
  }

  /**
   * The loop of `addBots` adds at most `n - added` more bots, never touches a human entry and
   * never touches a profile whose cooldown runs.
   */
  lemma {:induction false} AddBotsFromBounds(f: Fleet, order: seq<nat>, suffix: nat -> String, k: nat, added: nat, n: int, now: nat)
    requires OrderFits(order, f) && QueueOk(f.waiting)
    ensures var r := AddBotsFrom(f, order, suffix, k, added, n, now);
      QueueOk(r.waiting) && HumanIds(r.waiting) == HumanIds(f.waiting)
      && |f.waiting| <= |r.waiting| <= |f.waiting| + Max(n - added, 0)
      && |Bots(f.waiting)| <= |Bots(r.waiting)| <= |Bots(f.waiting)| + Max(n - added, 0)
      && forall i :: 0 <= i < |f.pool| && InCooldown(f.pool[i], now) ==> r.pool[i] == f.pool[i]
    decreases |order| - k
  {
    if k >= |order| || added >= n {
    } else if InCooldown(f.pool[order[k]], now) {
      AddBotsFromBounds(f, order, suffix, k + 1, added, n, now);
    } else {
      var g := Admit(f, order[k], suffix(k), now);
      AdmitKeeps(f, order[k], suffix(k), now);
      AddBotsFromBounds(g, order, suffix, k + 1, added + 1, n, now);
    }
  }

  /** `addBots(n)` adds at most `n` bots and keeps every human; `n <= 0` or an empty pool changes nothing. */
  lemma AddBotsBounds(s: State, n: int, order: seq<nat>, suffix: nat -> String, now: nat)
    requires IsShuffle(order, |s.pool|) && QueueOk(s.waiting)
    ensures var r := AddBots(s, n, order, suffix, now);
      QueueOk(r.waiting) && HumanIds(r.waiting) == HumanIds(s.waiting)
      && |Bots(s.waiting)| <= |Bots(r.waiting)| <= |Bots(s.waiting)| + Max(n, 0)
      && |r.pool| == |s.pool|
      && (forall i :: 0 <= i < |s.pool| && InCooldown(s.pool[i], now) ==> r.pool[i] == s.pool[i])
      && r.(waiting := s.waiting, pool := s.pool) == s
    ensures |s.pool| == 0 || n <= 0 ==> AddBots(s, n, order, suffix, now) == s
  {
    if |s.pool| > 0 && n > 0 {
      AddBotsFromBounds(Fleet(s.waiting, s.pool), order, suffix, 0, 0, n, now);
    }
  }

  /** The loop of `addVirtualUsersIfEmpty` grows the queue but never past `minCount`, and keeps every human. */
  lemma {:induction false} FillFromBounds(f: Fleet, order: seq<nat>, suffix: nat -> String, k: nat, minCount: nat, now: nat)
    requires OrderFits(order, f) && QueueOk(f.waiting)
    ensures var r := FillFrom(f, order, suffix, k, minCount, now);
      QueueOk(r.waiting) && HumanIds(r.waiting) == HumanIds(f.waiting)
      && |f.waiting| <= |r.waiting|
      && (|f.waiting| <= minCount ==> |r.waiting| <= minCount)
      && forall i :: 0 <= i < |f.pool| && InCooldown(f.pool[i], now) ==> r.pool[i] == f.pool[i]
    decreases |order| - k
  {
    if k >= |order| || |f.waiting| >= minCount {
    } else if InCooldown(f.pool[order[k]], now) {
      FillFromBounds(f, order, suffix, k + 1, minCount, now);
    } else {
      AdmitKeeps(f, order[k], suffix(k), now);
      FillFromBounds(Admit(f, order[k], suffix(k), now), order, suffix, k + 1, minCount, now);
    }
  }

  /**
   * `addVirtualUsersIfEmpty(minCount)` does nothing when the queue already holds `minCount`
   * entries, and otherwise fills it with bots up to at most `minCount` entries and broadcasts.
   */
  lemma AddVirtualUsersIfEmptyBounds(s: State, minCount: nat, order: seq<nat>, suffix: nat -> String, now: nat)
    requires IsShuffle(order, |s.pool|) && QueueOk(s.waiting)
    ensures |s.waiting| >= minCount ==> AddVirtualUsersIfEmpty(s, minCount, order, suffix, now) == s
    ensures var r := AddVirtualUsersIfEmpty(s, minCount, order, suffix, now);
      |s.waiting| < minCount ==>
        QueueOk(r.waiting) && HumanIds(r.waiting) == HumanIds(s.waiting)
        && |s.waiting| <= |r.waiting| <= minCount
        && r.(waiting := s.waiting, pool := s.pool, out := s.out) == s
        && r.out == s.out + [UserCount(|s.active|, |r.waiting|)]
  {
    if |s.waiting| < minCount {
      FillFromBounds(Fleet(s.waiting, s.pool), order, suffix, 0, minCount, now);
    }
  }

  /**
   * The loop of `removeBots` removes exactly `min(n - i, |bots|)` bots and nothing else, as long as
   * `bots` is the queue's bot list.
   */
  lemma {:induction false} RemoveBotsFromExact(q: seq<WaitEntry>, bots: seq<WaitEntry>, picks: seq<nat>, i: nat, n: int)
    requires PicksFrom(picks, i, |bots|, n) && QueueOk(q) && bots == Bots(q)
    ensures var r := RemoveBotsFrom(q, bots, picks, i, n);
      QueueOk(r) && HumanIds(r) == HumanIds(q) && Ids(r) <= Ids(q)
      && |Bots(r)| == |bots| - (if i >= n then 0 else Min(n - i, |bots|))
    decreases |bots|
  {
    if i < n && |bots| > 0 {
      var idx := picks[i];
      RemoveBotOk(q, idx);
      RemoveBotsFromExact(Remove(q, bots[idx].id), bots[..idx] + bots[idx + 1..], picks, i + 1, n);
    }
  }

  /** Removing one bot of the queue keeps it well formed, keeps every human and drops that bot from the bot list. */
  lemma RemoveBotOk(q: seq<WaitEntry>, idx: nat)
    requires QueueOk(q) && idx < |Bots(q)|
    ensures var bots := Bots(q); var r := Remove(q, bots[idx].id);
      QueueOk(r) && HumanIds(r) == HumanIds(q) && Ids(r) <= Ids(q) && Bots(r) == bots[..idx] + bots[idx + 1..]
  {
    var bots := Bots(q);
    var x := bots[idx].id;
    var q' := Remove(q, x);
    BotsUnique(q);
    RemoveAt(bots, idx);
    BotsAfterRemove(q, x);
    RemoveUnique(q, x);
    RemoveIds(q, x);
    RemoveHumanIds(q, x);
    assert bots[idx] in q;
    HumanKeysNotVirtual(q);
    assert forall e :: e in q' ==> e in q by {
      RemoveElements(q, x);
    }
  }

  /** `removeBots(n)` removes exactly `min(n, bots)` virtual entries and keeps every human. */
  lemma RemoveBotsExact(s: State, n: int, picks: seq<nat>)
    requires PicksFrom(picks, 0, |Bots(s.waiting)|, n) && QueueOk(s.waiting)
    ensures var r := RemoveBots(s, n, picks);
      QueueOk(r.waiting) && HumanIds(r.waiting) == HumanIds(s.waiting)
      && |Bots(r.waiting)| == |Bots(s.waiting)| - Min(Max(n, 0), |Bots(s.waiting)|)
      && r.(waiting := s.waiting) == s
  {
    if |Bots(s.waiting)| > 0 && n > 0 {
      RemoveBotsFromExact(s.waiting, Bots(s.waiting), picks, 0, n);
    }
  }

  lemma JitterRange(r: real)
    requires IsDraw(r)
    ensures -5 <= Jitter(r) <= 5
  {
  }

  /** `removeBots(m)` as `fluctuateVirtualUsers` calls it removes exactly `m` bots. */
  lemma ShrinkExact(s: State, m: int, picks: seq<nat>)
    requires 0 <= m <= |Bots(s.waiting)| && PicksFrom(picks, 0, |Bots(s.waiting)|, |Bots(s.waiting)|) && QueueOk(s.waiting)
    ensures var r := Shrink(s, m, picks);
      QueueOk(r.waiting) && HumanIds(r.waiting) == HumanIds(s.waiting)
      && |Bots(r.waiting)| == |Bots(s.waiting)| - m
      && r.(waiting := s.waiting) == s
  {
    PicksFewer(picks, 0, |Bots(s.waiting)|, |Bots(s.waiting)|, m);
    RemoveBotsExact(s, m, picks);
  }

  /** Above the target, the bot count comes down to it (or to zero for a negative target). */
  lemma ResizeDown(s: State, target: int, d: FleetDraws, now: nat)
    requires DrawsFit(s, d) && QueueOk(s.waiting) && |Bots(s.waiting)| > target
    ensures var r := Resize(s, target, d, now);
      QueueOk(r.waiting) && HumanIds(r.waiting) == HumanIds(s.waiting)
      && |Bots(r.waiting)| == Max(target, 0) && r.(waiting := s.waiting, pool := s.pool) == s
  {
    var c := |Bots(s.waiting)|;
    ShrinkExact(s, Min(c - target, c), d.picks);
  }

  /** Below the target, the bot count grows but not past it. */
  lemma ResizeUp(s: State, target: int, d: FleetDraws, now: nat)
    requires DrawsFit(s, d) && QueueOk(s.waiting) && |Bots(s.waiting)| < target
    ensures var r := Resize(s, target, d, now);
      QueueOk(r.waiting) && HumanIds(r.waiting) == HumanIds(s.waiting)
      && |Bots(s.waiting)| <= |Bots(r.waiting)| <= target && r.(waiting := s.waiting, pool := s.pool) == s
  {
    var c := |Bots(s.waiting)|;
    AddBotsBounds(s, Min(target - c, |s.pool| - c), d.order, d.suffix, now);
  }

  /** A jitter of at most five moves the bot count by at most five. */
  lemma NudgeBounds(s: State, jitter: int, d: FleetDraws, now: nat)
    requires DrawsFit(s, d) && QueueOk(s.waiting) && -5 <= jitter <= 5
    ensures var r := Nudge(s, jitter, d, now);
      QueueOk(r.waiting) && HumanIds(r.waiting) == HumanIds(s.waiting)
      && |Bots(s.waiting)| - 5 <= |Bots(r.waiting)| <= |Bots(s.waiting)| + 5 && r.(waiting := s.waiting, pool := s.pool) == s
  {
    var c := |Bots(s.waiting)|;
    if jitter > 0 {
      AddBotsBounds(s, Min(jitter, |s.pool| - c), d.order, d.suffix, now);
    } else if jitter < 0 {
      ShrinkExact(s, Min(-jitter, c), d.picks);
    }
  }

  /** At the target, the jitter moves the bot count by at most five. */
  lemma ResizeJitter(s: State, target: int, d: FleetDraws, now: nat)
    requires DrawsFit(s, d) && QueueOk(s.waiting) && |Bots(s.waiting)| == target && IsDraw(d.jitterDraw)
    ensures var r := Resize(s, target, d, now);
      QueueOk(r.waiting) && HumanIds(r.waiting) == HumanIds(s.waiting)
      && target - 5 <= |Bots(r.waiting)| <= target + 5 && r.(waiting := s.waiting, pool := s.pool) == s
  {
    if d.jitterGate < 4 as real / 10 as real {
      JitterRange(d.jitterDraw);
      NudgeBounds(s, Jitter(d.jitterDraw), d, now);
    }
  }

  /**
   * One run of `fluctuateVirtualUsers` moves the bot count toward the target: down to it when
   * above, up to at most the target when below, and by at most five when already there; it
   * keeps every human and ends by broadcasting.
   */
  lemma FluctuateTowardTarget(s: State, minRange: int, maxRange: int, d: FleetDraws, now: nat)
    requires DrawsFit(s, d) && QueueOk(s.waiting) && IsDraw(d.jitterDraw)
    ensures var r := Fluctuate(s, minRange, maxRange, d, now);
      var c := |Bots(s.waiting)|;
      var c' := |Bots(r.waiting)|;
      var t := Target(minRange, maxRange, d.targetDraw);
      QueueOk(r.waiting) && HumanIds(r.waiting) == HumanIds(s.waiting)
      && (c > t ==> c' == Max(t, 0))
      && (c < t ==> c <= c' <= t)
      && (c == t ==> c - 5 <= c' <= c + 5)
      && r.(waiting := s.waiting, pool := s.pool, out := s.out) == s
      && r.out == s.out + [UserCount(|s.active|, |r.waiting|)]
  {
    var c := |Bots(s.waiting)|;
    var t := Target(minRange, maxRange, d.targetDraw);
    if c > t {
      ResizeDown(s, t, d, now);
    } else if c < t {
      ResizeUp(s, t, d, now);
    } else {
      ResizeJitter(s, t, d, now);
    }
  }

  /** With `minRange <= maxRange` the target lies in the range. */
  lemma TargetInRange(minRange: int, maxRange: int, r: real)
    requires minRange <= maxRange
    ensures minRange <= Target(minRange, maxRange, r) <= maxRange
  {
  }
}
