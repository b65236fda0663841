/** Residency of armed timers and the exact set a poll fires, over ideal integers. */
module WheelTheorems {
  import opened IntrusiveList
  import opened WheelModel
  import opened WheelProofs

  // ---------------------------------------------------------------- residency

  /** The heads are different cells, and there are no other lists. */
  ghost predicate Heads(s: Wheel) {
    && Built(s)
    && (forall j, k :: 0 <= j < k < MAX_MI_WHEEL ==> s.mi[j] != s.mi[k])
    && (forall j, k :: 0 <= j < k < MAX_MA_WHEEL ==> s.ma[j] != s.ma[k])
    && (forall j, k :: 0 <= j < MAX_MI_WHEEL && 0 <= k < MAX_MA_WHEEL ==> s.mi[j] != s.ma[k])
    && s.st !in s.mi && s.st !in s.ma
    && (forall h :: h in s.fam.lists ==> h in s.mi || h in s.ma || h == s.st)
  }

  /** How many turns until slot k of a wheel comes up again. */
  function FineGap(s: Wheel, k: int): int { (k - s.miWheel) % MAX_MI_WHEEL }

  function CoarseGap(s: Wheel, k: int): int { (k - s.maWheel) % MAX_MA_WHEEL }

  /** The tick at which that happens. */
  function FineSlot(s: Wheel, k: int): int { s.miTick + MIN_TIME_OUT * FineGap(s, k) }

  function CoarseSlot(s: Wheel, k: int): int { s.maTick + MIN_MA_TIMER * CoarseGap(s, k) }

  /** Which deadlines may sit in a slot: never the current one, and close to its time. */
  ghost predicate FineFits(s: Wheel, k: int, d: int) {
    FineGap(s, k) > 0 && FineSlot(s, k) - MIN_TIME_OUT <= d < FineSlot(s, k) + MIN_TIME_OUT
  }

  ghost predicate CoarseFits(s: Wheel, k: int, d: int) {
    CoarseGap(s, k) > 0 && CoarseSlot(s, k) <= d < CoarseSlot(s, k) + MIN_MA_TIMER
  }

  ghost predicate OverflowFits(s: Wheel, d: int) {
    d > s.stTick + MIN_ST_TIMER - MIN_MA_TIMER
  }

  ghost predicate OnTime(s: Wheel, h: Timer, d: int)
    requires Built(s)
  {
    && (forall k :: 0 <= k < MAX_MI_WHEEL && s.mi[k] == h ==> FineFits(s, k, d))
    && (forall k :: 0 <= k < MAX_MA_WHEEL && s.ma[k] == h ==> CoarseFits(s, k, d))
    && (h == s.st ==> OverflowFits(s, d))
  }

  /** Both wheels count from one origin, neither is ahead of the clock, and the coarse wheel is not
      ahead of the fine one. */
  ghost predicate Clock(s: Wheel) {
    && s.miTick - MIN_TIME_OUT * s.miWheel == s.maTick - MIN_MA_TIMER * s.maWheel
    && s.maTick <= s.miTick <= s.ticks
    && s.stTick <= s.ticks && s.stTick < s.maTick + MIN_MA_TIMER
  }

  ghost predicate Timely(s: Wheel) {
    && Heads(s) && Clock(s)
    && forall t :: t in s.fam.at && t in s.timers ==> OnTime(s, s.fam.at[t], s.timers[t].interval)
  }

  lemma Mod50(r: int, q: int)
    requires 0 <= r < 50
    ensures (r + 50 * q) % 50 == r
  {
  }

  lemma Mod60(r: int, q: int)
    requires 0 <= r < 60
    ensures (r + 60 * q) % 60 == r
  {
  }

  lemma FineGapOf(w: int, d: int)
    requires 0 <= d < 50
    ensures ((w + d) % 50 - w) % 50 == d
  {
    var q := (w + d) / 50;
    assert (w + d) % 50 - w == d + 50 * -q;
    Mod50(d, -q);
  }

  lemma CoarseGapOf(w: int, d: int)
    requires 0 <= d < 60
    ensures ((w + d) % 60 - w) % 60 == d
  {
    var q := (w + d) / 60;
    assert (w + d) % 60 - w == d + 60 * -q;
    Mod60(d, -q);
  }

  lemma FineGapStep(k: int, w: int)
    requires 0 <= k < 50 && (k - w) % 50 > 0
    ensures (k - (w + 1)) % 50 == (k - w) % 50 - 1
    ensures k == (w + 1) % 50 <==> (k - w) % 50 == 1
  {
    var g, q := (k - w) % 50, (k - w) / 50;
    assert k - (w + 1) == (g - 1) + 50 * q;
    Mod50(g - 1, q);
    if g == 1 {
      Mod50(k, -q);
      assert w + 1 == k + 50 * -q;
    }
    if k == (w + 1) % 50 {
      var p := (w + 1) / 50;
      assert k - w == 1 + 50 * -p;
      Mod50(1, -p);
    }
  }

  lemma CoarseGapStep(k: int, w: int)
    requires 0 <= k < 60 && (k - w) % 60 > 0
    ensures (k - (w + 1)) % 60 == (k - w) % 60 - 1
    ensures k == (w + 1) % 60 <==> (k - w) % 60 == 1
  {
    var g, q := (k - w) % 60, (k - w) / 60;
    assert k - (w + 1) == (g - 1) + 60 * q;
    Mod60(g - 1, q);
    if g == 1 {
      Mod60(k, -q);
      assert w + 1 == k + 60 * -q;
    }
    if k == (w + 1) % 60 {
      var p := (w + 1) / 60;
      assert k - w == 1 + 60 * -p;
      Mod60(1, -p);
    }
  }

  /** tx_timer_reset never picks a current slot. For the coarse wheel the code does not check it:
      it follows from the two wheels' common origin and order. */
  lemma PlaceFits(s: Wheel, d: int)
    requires Heads(s) && Clock(s) && s.miTick <= d
    ensures OnTime(s, Place(Ideal, s, d), d)
  {
    var n := (d - s.miTick) / MIN_TIME_OUT;
    var m := if n == 0 then 1 else n;
    if m < MAX_MI_WHEEL {
      var k := (s.miWheel + m) % MAX_MI_WHEEL;
      FineGapOf(s.miWheel, m);
      assert FineFits(s, k, d);
      assert Place(Ideal, s, d) == s.mi[k];
      assert s.mi[k] in s.mi;
    } else {
      var e := (d - s.maTick) / MIN_MA_TIMER;
      if e < MAX_MA_WHEEL {
        var k := (s.maWheel + e) % MAX_MA_WHEEL;
        CoarseGapOf(s.maWheel, e);
        assert CoarseFits(s, k, d);
        assert Place(Ideal, s, d) == s.ma[k];
        assert s.ma[k] in s.ma;
      }
    }
  }

  // ---------------------------------------------------------------- sweeping

  /** The timer is where it was, with the flags and deadline it had. */
  ghost predicate Untouched(s: Wheel, r: Wheel, t: Timer) {
    && (t in s.fam.at <==> t in r.fam.at) && (t in s.fam.at ==> r.fam.at[t] == s.fam.at[t])
    && (t in s.timers <==> t in r.timers) && (t in s.timers ==> r.timers[t] == s.timers[t])
  }

  /** The timer fired: it is idle and on no list. */
  ghost predicate Gone(s: Wheel, r: Wheel, t: Timer) {
    && t in s.timers && t !in r.fam.at && t in r.timers && r.timers[t] == s.timers[t].(idle := true)
  }

  lemma ListMembers(s: Wheel, h: Timer)
    requires Sound(s) && h in s.fam.lists
    ensures Distinct(s.fam.lists[h])
    ensures forall t :: t in s.fam.lists[h] ==> t in s.timers && t in s.fam.at && s.fam.at[t] == h
    ensures forall t :: t in s.fam.at && s.fam.at[t] == h ==> t in s.fam.lists[h]
  {
  }

  lemma IdealStored(s: Wheel)
    ensures Stored(Ideal, s)
  {
  }

  lemma SweepListIs(arch: Arch, s: Wheel, h: Timer)
    requires Sound(s) && Stored(arch, s) && h in s.fam.lists
    ensures forall t :: t in s.fam.lists[h] ==> t in s.timers
    ensures var r := SweepList(arch, s, h);
            Sound(r) && Stored(arch, r) && Swept(arch, s, s.fam.lists[h], r)
  {
    hide Sound, Swept, Stored, Sweep;
    ListMembers(s, h);
    SweepIs(arch, s, s.fam.lists[h]);
  }

  /** Sweeping a list of an otherwise timely wheel leaves it timely. */
  lemma SweepTimely(s: Wheel, h: Timer)
    requires Sound(s) && Heads(s) && Clock(s) && h in s.fam.lists
    requires forall t :: t in s.fam.at && t in s.timers && s.fam.at[t] != h ==> OnTime(s, s.fam.at[t], s.timers[t].interval)
    ensures var r := SweepList(Ideal, s, h);
            Sound(r) && Timely(r)
  {
    IdealStored(s);
    ListMembers(s, h);
    SweepListIs(Ideal, s, h);
    var r := SweepList(Ideal, s, h);
    HeadsStay(s, r);
    hide Sound, Heads, Stored, Distinct, OnTime, Swept, SweepList, Clock;
    assert Clock(r) by { ClockStays(s, r); }
    forall t | t in r.fam.at && t in r.timers ensures OnTime(r, r.fam.at[t], r.timers[t].interval) {
      SweptOnTime(s, h, r, t);
    }
  }

  lemma SweptOnTime(s: Wheel, h: Timer, r: Wheel, t: Timer)
    requires Heads(s) && Clock(s) && h in s.fam.lists && Built(r) && SameRing(s, r) && SameClock(s, r)
    requires forall u :: u in s.fam.lists[h] ==> u in s.timers
    requires forall u :: u in s.fam.at && s.fam.at[u] == h ==> u in s.fam.lists[h]
    requires t in s.fam.at && t in s.timers && s.fam.at[t] != h ==> OnTime(s, s.fam.at[t], s.timers[t].interval)
    requires Swept(Ideal, s, s.fam.lists[h], r) && t in r.fam.at && t in r.timers
    ensures OnTime(r, r.fam.at[t], r.timers[t].interval)
  {
    hide Place, OnTime, Swept;
    SweptOne(s, h, r, t);
    if t in s.fam.lists[h] {
      PlaceFits(s, s.timers[t].interval);
    }
    OnTimeStays(s, r, r.fam.at[t], r.timers[t].interval);
  }

  lemma ClockStays(s: Wheel, r: Wheel)
    requires Clock(s) && SameClock(s, r)
    ensures Clock(r)
  {
  }

  lemma HeadsStay(s: Wheel, r: Wheel)
    requires Heads(s) && Built(r) && SameRing(s, r)
    ensures Heads(r)
  {
  }

  lemma OnTimeStays(s: Wheel, r: Wheel, h: Timer, d: int)
    requires Built(s) && Built(r) && SameRing(s, r) && SameClock(s, r) && OnTime(s, h, d)
    ensures OnTime(r, h, d)
  {
  }

  lemma SweptOne(s: Wheel, h: Timer, r: Wheel, t: Timer)
    requires Built(s) && h in s.fam.lists && (forall u :: u in s.fam.lists[h] ==> u in s.timers)
    requires Swept(Ideal, s, s.fam.lists[h], r) && t in r.timers
    ensures t in s.timers && r.timers[t].interval == s.timers[t].interval
    ensures t !in s.fam.lists[h] ==> Untouched(s, r, t)
    ensures t in s.fam.lists[h] && Fires(Ideal, s, t) ==> Gone(s, r, t)
    ensures t in s.fam.lists[h] && !Fires(Ideal, s, t) ==>
              t in r.fam.at && r.fam.at[t] == Place(Ideal, s, s.timers[t].interval)
              && r.timers[t] == s.timers[t].(idle := false)
  {
    hide Place, Fires, Due;
  }

  // ---------------------------------------------------------------- the fine wheel

  ghost function FineHead(s: Wheel): Timer
    requires Built(s)
  {
    s.mi[(s.miWheel + 1) % MAX_MI_WHEEL]
  }

  lemma AdvanceFineTimely(s: Wheel)
    requires Timely(s) && FineDue(Ideal, s)
    ensures var a := AdvanceFine(Ideal, s);
            && Heads(a) && Clock(a)
            && forall t :: t in a.fam.at && t in a.timers ==>
                 if a.fam.at[t] == FineHead(s) then a.timers[t].interval < a.miTick + MIN_TIME_OUT
                 else OnTime(a, a.fam.at[t], a.timers[t].interval)
  {
    var a := AdvanceFine(Ideal, s);
    HeadsStay(s, a);
    forall t | t in a.fam.at && t in a.timers
      ensures if a.fam.at[t] == FineHead(s) then a.timers[t].interval < a.miTick + MIN_TIME_OUT
              else OnTime(a, a.fam.at[t], a.timers[t].interval)
    {
      hide Heads;
      FineAhead(s, s.fam.at[t], s.timers[t].interval);
    }
  }

  lemma FineAhead(s: Wheel, h: Timer, d: int)
    requires Heads(s) && OnTime(s, h, d)
    ensures var a := AdvanceFine(Ideal, s);
            if h == FineHead(s) then d < a.miTick + MIN_TIME_OUT else OnTime(a, h, d)
  {
    var a := AdvanceFine(Ideal, s);
    forall k | 0 <= k < MAX_MI_WHEEL && s.mi[k] == h
      ensures k == (s.miWheel + 1) % MAX_MI_WHEEL ==> d < a.miTick + MIN_TIME_OUT
      ensures k != (s.miWheel + 1) % MAX_MI_WHEEL ==> FineFits(a, k, d)
    {
      FineGapStep(k, s.miWheel);
    }
  }

  /** One turn of the fine wheel fires every timer of the slot that came up, re-arms none of them,
      and touches no other timer. */
  lemma FineTurnIs(s: Wheel)
    requires Sound(s) && Timely(s) && FineDue(Ideal, s)
    ensures var r := FineTurn(Ideal, s);
            && Sound(r) && Timely(r)
            && forall t :: t in s.timers ==>
                 if t in s.fam.at && s.fam.at[t] == FineHead(s) then Gone(s, r, t) else Untouched(s, r, t)
  {
    var a, r, h := AdvanceFine(Ideal, s), FineTurn(Ideal, s), FineHead(s);
    AdvancedSound(s, a);
    AdvanceFineTimely(s);
    SweepTimely(a, h);
    IdealStored(a);
    SweepListIs(Ideal, a, h);
    ListMembers(a, h);
    hide Sound, Timely, Heads, OnTime, SweepList, Stored, Swept, Distinct;
    forall t | t in s.timers
      ensures if t in s.fam.at && s.fam.at[t] == h then Gone(s, r, t) else Untouched(s, r, t)
    {
      SweptOne(a, h, r, t);
    }
  }

  lemma AdvancedSound(s: Wheel, a: Wheel)
    requires Sound(s) && Built(a) && a.fam == s.fam && a.timers == s.timers
    ensures Sound(a)
  {
    hide WellFormed;
  }

  /** Catching up fires exactly the timers of the fine slots whose time has come. */
  ghost predicate FineCaughtUp(s: Wheel, r: Wheel)
    requires Built(s)
  {
    && (forall k, t :: 0 <= k < MAX_MI_WHEEL && t in s.timers && t in s.fam.at && s.fam.at[t] == s.mi[k] ==>
          if FineSlot(s, k) <= s.ticks then Gone(s, r, t) else Untouched(s, r, t))
    && (forall t :: t in s.timers && (t !in s.fam.at || s.fam.at[t] !in s.mi) ==> Untouched(s, r, t))
  }

  lemma {:induction false} FineTurnsAre(s: Wheel)
    requires Sound(s) && Timely(s)
    ensures var r := FineTurns(Ideal, s);
            && Sound(r) && Timely(r) && FineCaughtUp(s, r) && r.ticks < r.miTick + MIN_TIME_OUT
            && r.maTick == s.maTick && r.maWheel == s.maWheel && r.stTick == s.stTick
    decreases if FineDue(Ideal, s) then 1 + Signed(Ideal, s.ticks - s.miTick - MIN_TIME_OUT) else 0
  {
    var r := FineTurns(Ideal, s);
    if FineDue(Ideal, s) {
      var m := FineTurn(Ideal, s);
      FineTurnIs(s);
      FineTurnsAre(m);
      hide Sound, FineTurn, FineTurns;
      FineCaughtUpStep(s, m, r);
    } else {
      hide Sound;
      FineIdle(s);
    }
  }

  lemma FineIdle(s: Wheel)
    requires Timely(s) && !FineDue(Ideal, s)
    ensures FineCaughtUp(s, s)
  {
    forall k, t | 0 <= k < MAX_MI_WHEEL && t in s.timers && t in s.fam.at && s.fam.at[t] == s.mi[k]
      ensures FineSlot(s, k) > s.ticks
    {
      assert FineFits(s, k, s.timers[t].interval);
    }
  }

  lemma FineResident(s: Wheel, k: int, t: Timer)
    requires Timely(s) && 0 <= k < MAX_MI_WHEEL && t in s.timers && t in s.fam.at && s.fam.at[t] == s.mi[k]
    ensures FineFits(s, k, s.timers[t].interval)
    ensures s.mi[k] == FineHead(s) <==> FineGap(s, k) == 1
    ensures FineGap(AdvanceFine(Ideal, s), k) == FineGap(s, k) - 1
  {
    assert FineFits(s, k, s.timers[t].interval);
    FineGapStep(k, s.miWheel);
  }

  lemma FineSlotKept(s: Wheel, m: Wheel, k: int)
    requires SameClock(AdvanceFine(Ideal, s), m) && FineGap(AdvanceFine(Ideal, s), k) == FineGap(s, k) - 1
    ensures FineSlot(m, k) == FineSlot(s, k) && m.ticks == s.ticks
  {
    hide FineGap;
    assert FineGap(m, k) == FineGap(AdvanceFine(Ideal, s), k) by { FineGapSame(AdvanceFine(Ideal, s), m, k); }
  }

  lemma FineGapSame(s: Wheel, m: Wheel, k: int)
    requires m.miWheel == s.miWheel
    ensures FineGap(m, k) == FineGap(s, k)
  {
  }

  lemma FineStepOne(s: Wheel, m: Wheel, r: Wheel, k: int, t: Timer)
    requires Timely(s) && FineDue(Ideal, s) && Built(m) && SameRing(s, m) && SameClock(AdvanceFine(Ideal, s), m)
    requires 0 <= k < MAX_MI_WHEEL && t in s.timers && t in s.fam.at && s.fam.at[t] == s.mi[k]
    requires if s.mi[k] == FineHead(s) then Gone(s, m, t) else Untouched(s, m, t)
    requires FineCaughtUp(m, r)
    ensures if FineSlot(s, k) <= s.ticks then Gone(s, r, t) else Untouched(s, r, t)
  {
    assert Built(s) && s.ticks >= s.miTick + MIN_TIME_OUT;
    hide Timely, OnTime, Heads, FineGap, FineHead, FineDue;
    FineResident(s, k, t);
    if s.mi[k] == FineHead(s) {
      assert FineSlot(s, k) <= s.ticks;
      assert Untouched(m, r, t);
    } else {
      FineSlotKept(s, m, k);
      hide FineSlot;
      assert m.fam.at[t] == m.mi[k];
    }
  }

  lemma FineCaughtUpStep(s: Wheel, m: Wheel, r: Wheel)
    requires Timely(s) && FineDue(Ideal, s) && Built(m) && SameRing(s, m) && SameClock(AdvanceFine(Ideal, s), m)
    requires forall t :: t in s.timers ==>
               if t in s.fam.at && s.fam.at[t] == FineHead(s) then Gone(s, m, t) else Untouched(s, m, t)
    requires FineCaughtUp(m, r)
    ensures FineCaughtUp(s, r)
  {
    hide Timely, FineDue;
    forall k, t | 0 <= k < MAX_MI_WHEEL && t in s.timers && t in s.fam.at && s.fam.at[t] == s.mi[k]
      ensures if FineSlot(s, k) <= s.ticks then Gone(s, r, t) else Untouched(s, r, t)
    {
      FineStepOne(s, m, r, k, t);
    }
    forall t | t in s.timers && (t !in s.fam.at || s.fam.at[t] !in s.mi) ensures Untouched(s, r, t) {
      assert FineHead(s) in s.mi;
    }
  }

  // ---------------------------------------------------------------- the coarse wheel

  ghost function CoarseHead(s: Wheel): Timer
    requires Built(s)
  {
    s.ma[(s.maWheel + 1) % MAX_MA_WHEEL]
  }

  /** The timer went down from the coarse to the fine wheel, its deadline unchanged. */
  ghost predicate Cascaded(s: Wheel, r: Wheel, t: Timer) {
    && t in s.timers && t in r.timers && t in r.fam.at && r.fam.at[t] in r.mi
    && r.timers[t] == s.timers[t].(idle := false)
  }

  /** A timer whose slot came up fires or goes down; never back up. */
  ghost predicate Unloaded(s: Wheel, r: Wheel, t: Timer)
    requires t in s.timers
  {
    if s.timers[t].interval < s.ticks + MIN_TIME_OUT then Gone(s, r, t) else Cascaded(s, r, t)
  }

  lemma CoarseAhead(s: Wheel, h: Timer, d: int)
    requires Heads(s) && OnTime(s, h, d)
    ensures var a := AdvanceCoarse(Ideal, s);
            if h == CoarseHead(s) then a.maTick <= d < a.maTick + MIN_MA_TIMER else OnTime(a, h, d)
  {
    var a := AdvanceCoarse(Ideal, s);
    forall k | 0 <= k < MAX_MA_WHEEL && s.ma[k] == h
      ensures k == (s.maWheel + 1) % MAX_MA_WHEEL ==> a.maTick <= d < a.maTick + MIN_MA_TIMER
      ensures k != (s.maWheel + 1) % MAX_MA_WHEEL ==> CoarseFits(a, k, d)
    {
      CoarseGapStep(k, s.maWheel);
    }
  }

  lemma AdvanceCoarseClock(s: Wheel)
    requires Clock(s) && CoarseDue(Ideal, s) && s.ticks < s.miTick + MIN_TIME_OUT
    ensures Clock(AdvanceCoarse(Ideal, s))
  {
    assert s.maTick + 750 - s.miTick == 15 * (50 * (s.maWheel + 1) - s.miWheel);
  }

  lemma AdvanceCoarseTimely(s: Wheel)
    requires Timely(s) && CoarseDue(Ideal, s) && s.ticks < s.miTick + MIN_TIME_OUT
    ensures var a := AdvanceCoarse(Ideal, s);
            && Heads(a) && Clock(a)
            && forall t :: t in a.fam.at && t in a.timers ==>
                 if a.fam.at[t] == CoarseHead(s) then a.maTick <= a.timers[t].interval < a.maTick + MIN_MA_TIMER
                 else OnTime(a, a.fam.at[t], a.timers[t].interval)
  {
    var a := AdvanceCoarse(Ideal, s);
    HeadsStay(s, a);
    AdvanceCoarseClock(s);
    forall t | t in a.fam.at && t in a.timers
      ensures if a.fam.at[t] == CoarseHead(s) then a.maTick <= a.timers[t].interval < a.maTick + MIN_MA_TIMER
              else OnTime(a, a.fam.at[t], a.timers[t].interval)
    {
      hide Heads;
      CoarseAhead(s, s.fam.at[t], s.timers[t].interval);
    }
  }

  /** A deadline less than a coarse turn ahead of the fine wheel has its place there. */
  lemma PlaceFine(s: Wheel, d: int)
    requires Built(s) && s.ticks + MIN_TIME_OUT <= d < s.miTick + MIN_MA_TIMER && s.miTick <= s.ticks
    ensures Place(Ideal, s, d) in s.mi
  {
    var n := (d - s.miTick) / MIN_TIME_OUT;
    assert 1 <= n < MAX_MI_WHEEL;
    assert Place(Ideal, s, d) == s.mi[(s.miWheel + n) % MAX_MI_WHEEL];
  }

  lemma CoarseTurnIs(s: Wheel)
    requires Sound(s) && Timely(s) && CoarseDue(Ideal, s) && s.ticks < s.miTick + MIN_TIME_OUT
    ensures var r := CoarseTurn(Ideal, s);
            && Sound(r) && Timely(r)
            && forall t :: t in s.timers ==>
                 if t in s.fam.at && s.fam.at[t] == CoarseHead(s) then Unloaded(s, r, t) else Untouched(s, r, t)
  {
    var a, r, h := AdvanceCoarse(Ideal, s), CoarseTurn(Ideal, s), CoarseHead(s);
    AdvancedSound(s, a);
    AdvanceCoarseTimely(s);
    hide Sound, Timely, Heads, OnTime, SweepList, Stored, Swept, Distinct, Unloaded, Untouched;
    SweepTimely(a, h);
    IdealStored(a);
    SweepListIs(Ideal, a, h);
    ListMembers(a, h);
    forall t | t in s.timers
      ensures if t in s.fam.at && s.fam.at[t] == h then Unloaded(s, r, t) else Untouched(s, r, t)
    {
      CoarseTurnOne(s, a, h, r, t);
    }
  }

  lemma CoarseTurnOne(s: Wheel, a: Wheel, h: Timer, r: Wheel, t: Timer)
    requires Built(s) && Built(a) && a == AdvanceCoarse(Ideal, s) && h in a.fam.lists && Built(r) && SameRing(a, r)
    requires forall u :: u in a.fam.lists[h] <==> u in a.fam.at && a.fam.at[u] == h
    requires (forall u :: u in a.fam.lists[h] ==> u in a.timers) && Swept(Ideal, a, a.fam.lists[h], r)
    requires t in s.timers && a.miTick <= a.ticks
    requires t in a.fam.at && a.fam.at[t] == h ==> a.timers[t].interval < a.miTick + MIN_MA_TIMER
    ensures if t in s.fam.at && s.fam.at[t] == h then Unloaded(s, r, t) else Untouched(s, r, t)
  {
    hide Swept, Place, Built;
    SweptOne(a, h, r, t);
    if t in s.fam.at && s.fam.at[t] == h && !Fires(Ideal, a, t) {
      PlaceFine(a, s.timers[t].interval);
    }
  }

  ghost predicate CoarseCaughtUp(s: Wheel, r: Wheel)
    requires Built(s)
  {
    && (forall k, t :: 0 <= k < MAX_MA_WHEEL && t in s.timers && t in s.fam.at && s.fam.at[t] == s.ma[k] ==>
          if CoarseSlot(s, k) <= s.ticks then Unloaded(s, r, t) else Untouched(s, r, t))
    && (forall t :: t in s.timers && (t !in s.fam.at || s.fam.at[t] !in s.ma) ==> Untouched(s, r, t))
  }

  lemma {:induction false} CoarseTurnsAre(s: Wheel)
    requires Sound(s) && Timely(s) && s.ticks < s.miTick + MIN_TIME_OUT
    ensures var r := CoarseTurns(Ideal, s);
            && Sound(r) && Timely(r) && CoarseCaughtUp(s, r) && r.ticks < r.maTick + MIN_MA_TIMER
            && r.miTick == s.miTick && r.miWheel == s.miWheel && r.stTick == s.stTick
    decreases if CoarseDue(Ideal, s) then 1 + Signed(Ideal, s.ticks - s.maTick - MIN_MA_TIMER) else 0
  {
    var r := CoarseTurns(Ideal, s);
    if CoarseDue(Ideal, s) {
      var m := CoarseTurn(Ideal, s);
      CoarseTurnIs(s);
      CoarseTurnsAre(m);
      hide Sound, CoarseTurn, CoarseTurns;
      CoarseCaughtUpStep(s, m, r);
    } else {
      hide Sound;
      CoarseIdle(s);
    }
  }

  lemma CoarseIdle(s: Wheel)
    requires Timely(s) && !CoarseDue(Ideal, s)
    ensures CoarseCaughtUp(s, s)
  {
    forall k, t | 0 <= k < MAX_MA_WHEEL && t in s.timers && t in s.fam.at && s.fam.at[t] == s.ma[k]
      ensures CoarseSlot(s, k) > s.ticks
    {
      assert CoarseFits(s, k, s.timers[t].interval);
    }
  }

  lemma CoarseCaughtUpStep(s: Wheel, m: Wheel, r: Wheel)
    requires Timely(s) && CoarseDue(Ideal, s) && Built(m) && SameRing(s, m) && SameClock(AdvanceCoarse(Ideal, s), m)
    requires forall t :: t in s.timers ==>
               if t in s.fam.at && s.fam.at[t] == CoarseHead(s) then Unloaded(s, m, t) else Untouched(s, m, t)
    requires CoarseCaughtUp(m, r)
    requires r.mi == s.mi
    ensures CoarseCaughtUp(s, r)
  {
    forall k, t | 0 <= k < MAX_MA_WHEEL && t in s.timers && t in s.fam.at && s.fam.at[t] == s.ma[k]
      ensures if CoarseSlot(s, k) <= s.ticks then Unloaded(s, r, t) else Untouched(s, r, t)
    {
      CoarseStepOne(s, m, r, k, t);
    }
    forall t | t in s.timers && (t !in s.fam.at || s.fam.at[t] !in s.ma) ensures Untouched(s, r, t) {
      assert CoarseHead(s) in s.ma;
      assert Untouched(s, m, t);
      assert m.fam.at == m.fam.at && (t !in m.fam.at || m.fam.at[t] !in m.ma);
    }
  }

  lemma CoarseResident(s: Wheel, k: int, t: Timer)
    requires Timely(s) && 0 <= k < MAX_MA_WHEEL && t in s.timers && t in s.fam.at && s.fam.at[t] == s.ma[k]
    ensures CoarseFits(s, k, s.timers[t].interval)
    ensures s.ma[k] == CoarseHead(s) <==> CoarseGap(s, k) == 1
    ensures CoarseGap(AdvanceCoarse(Ideal, s), k) == CoarseGap(s, k) - 1
  {
    assert CoarseFits(s, k, s.timers[t].interval);
    CoarseGapStep(k, s.maWheel);
  }

  lemma CoarseStepOne(s: Wheel, m: Wheel, r: Wheel, k: int, t: Timer)
    requires Timely(s) && CoarseDue(Ideal, s) && Built(m) && SameRing(s, m) && SameClock(AdvanceCoarse(Ideal, s), m)
    requires 0 <= k < MAX_MA_WHEEL && t in s.timers && t in s.fam.at && s.fam.at[t] == s.ma[k]
    requires if s.ma[k] == CoarseHead(s) then Unloaded(s, m, t) else Untouched(s, m, t)
    requires CoarseCaughtUp(m, r) && r.mi == s.mi
    ensures if CoarseSlot(s, k) <= s.ticks then Unloaded(s, r, t) else Untouched(s, r, t)
  {
    CoarseClocks(s, m, k, t);
    hide Timely, OnTime, CoarseDue, SameClock, Built, Heads, CoarseFits, CoarseCaughtUp, Unloaded, Untouched, CoarseSlot;
    if s.ma[k] == CoarseHead(s) {
      UnloadedStays(s, m, r, t);
    } else {
      UntouchedStays(s, m, r, k, t);
    }
  }

  /** After a turn every coarse slot still has its time, and the one drained was due. */
  lemma CoarseClocks(s: Wheel, m: Wheel, k: int, t: Timer)
    requires Timely(s) && CoarseDue(Ideal, s) && SameRing(s, m) && SameClock(AdvanceCoarse(Ideal, s), m)
    requires 0 <= k < MAX_MA_WHEEL && t in s.timers && t in s.fam.at && s.fam.at[t] == s.ma[k]
    ensures Heads(s) && m.ticks == s.ticks && CoarseSlot(m, k) == CoarseSlot(s, k)
    ensures s.ma[k] == CoarseHead(s) ==> CoarseSlot(s, k) <= s.ticks
  {
    hide OnTime, CoarseFits;
    CoarseResident(s, k, t);
  }

  lemma UnloadedStays(s: Wheel, m: Wheel, r: Wheel, t: Timer)
    requires Heads(s) && Built(m) && SameRing(s, m) && CoarseCaughtUp(m, r) && r.mi == s.mi
    requires m.ticks == s.ticks && t in s.timers && Unloaded(s, m, t)
    ensures Unloaded(s, r, t)
  {
    hide Heads, Built;
    if t in m.fam.at {
      MiNotMa(s, m.fam.at[t]);
    }
    assert Untouched(m, r, t);
  }

  lemma UntouchedStays(s: Wheel, m: Wheel, r: Wheel, k: int, t: Timer)
    requires Built(m) && SameRing(s, m) && CoarseCaughtUp(m, r) && m.ticks == s.ticks && CoarseSlot(m, k) == CoarseSlot(s, k)
    requires 0 <= k < MAX_MA_WHEEL && t in s.timers && t in s.fam.at && s.fam.at[t] == s.ma[k] && Untouched(s, m, t)
    ensures if CoarseSlot(s, k) <= s.ticks then Unloaded(s, r, t) else Untouched(s, r, t)
  {
    assert |m.ma| == MAX_MA_WHEEL;
    hide Built, CoarseSlot;
    assert m.fam.at[t] == m.ma[k];
  }

  lemma MiNotMa(s: Wheel, h: Timer)
    requires Heads(s) && h in s.mi
    ensures h !in s.ma && h != s.st
  {
  }
}
