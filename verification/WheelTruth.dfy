/** The wheel over machine integers with no bound on its age: counters, ticks and deadlines wrap as often as they
    like, and every run is followed beside the true clock. A timer fires less than fifteen ticks early and is at
    most 748 late; with a 64-bit size_t one with a deadline beyond 2^32 waits for a rescan and is at most 44999 late. */
module WheelTruth {
  import opened IntrusiveList
  import opened WheelModel
  import opened WheelProofs
  import opened WheelTheorems
  import opened PollTheorems
  import opened WheelRuns
  import opened WheelWidth
  import opened WheelWrap

  // ---------------------------------------------------------------- the true clock

  /** The true clock, the true ticks of the fine and the coarse wheel, and the true clock of the last rescan. */
  datatype Truth = Truth(now: int, mi: int, ma: int, st: int)

  /** How far the clock may run ahead of the wheels and of the last rescan. */
  ghost predicate Close(arch: Arch, g: Truth) {
    && g.now - g.ma < HALF - MIN_TIME_OUT
    && g.now - g.st <= HALF + MIN_ST_TIMER - MIN_MA_TIMER - MIN_TIME_OUT
    && (arch == Size64 ==> g.now < WORD64 / 2)
  }

  ghost predicate Ordered(arch: Arch, g: Truth) {
    && g.ma <= g.mi <= g.now && (g.mi - g.ma) % MIN_TIME_OUT == 0
    && g.st <= g.now && g.st < g.ma + MIN_MA_TIMER
    && (arch == Size64 ==> 0 <= g.ma)
  }

  /** The ring shows as much of the truth as fits its fields; its counters may have wrapped. */
  ghost predicate Follows(arch: Arch, m: Wheel, g: Truth) {
    && arch != Ideal && Ordered(arch, g) && Close(arch, g)
    && m.ticks == g.now % WORD32 && m.stTick == g.st % WORD32
    && m.miTick == Size(arch, g.mi) && m.maTick == Size(arch, g.ma)
  }

  /** The signed tests are exact. */
  lemma DueTruly(arch: Arch, m: Wheel, g: Truth)
    requires Follows(arch, m, g)
    ensures FineDue(arch, m) <==> g.now - g.mi >= MIN_TIME_OUT
    ensures CoarseDue(arch, m) <==> g.now - g.ma >= MIN_MA_TIMER
    ensures OverflowDue(arch, m) <==> g.now - g.st >= MIN_ST_TIMER
  {
    hide Signed, Size;
    SignedSize(arch, g.now, g.mi, MIN_TIME_OUT);
    SignedSize(arch, g.now, g.ma, MIN_MA_TIMER);
    SignedOf(arch, g.now - g.st - MIN_ST_TIMER, m.ticks - m.stTick - MIN_ST_TIMER, g.st / WORD32 - g.now / WORD32);
  }

  // ---------------------------------------------------------------- residency

  /** A deadline that a 64-bit size_t cannot compare with its ticks. */
  predicate Wide(arch: Arch, d: int) { arch == Size64 && d >= WORD32 }

  /** The slot that the n-th turn from now drains, and the deadlines it may hold. */
  ghost predicate FineAt(arch: Arch, m: Wheel, g: Truth, h: Timer, d: int, n: int)
    requires Built(m)
  {
    && 1 <= n < MAX_MI_WHEEL && h == m.mi[Size(arch, m.miWheel + n) % MAX_MI_WHEEL]
    && g.mi + MIN_TIME_OUT * n - MIN_TIME_OUT <= d < g.mi + MIN_TIME_OUT * n + MIN_TIME_OUT
  }

  ghost predicate CoarseAt(arch: Arch, m: Wheel, g: Truth, h: Timer, d: int, n: int)
    requires Built(m)
  {
    && 1 <= n < MAX_MA_WHEEL && h == m.ma[Size(arch, m.maWheel + n) % MAX_MA_WHEEL]
    && g.ma + MIN_MA_TIMER * n <= d < g.ma + MIN_MA_TIMER * n + MIN_MA_TIMER
  }

  ghost predicate Findable(arch: Arch, m: Wheel, g: Truth, h: Timer, d: int)
    requires Built(m)
  {
    if Wide(arch, d) then h == m.st && d >= g.st
    else
      || (exists n :: FineAt(arch, m, g, h, d, n))
      || (exists n :: CoarseAt(arch, m, g, h, d, n))
      || (h == m.st && d > g.st + MIN_ST_TIMER - MIN_MA_TIMER)
  }

  /** Less than half the range of an unsigned away from the firing test. */
  predicate Comparable(g: Truth, d: int) { -HALF <= d - g.now - MIN_TIME_OUT < HALF }

  lemma PlaceIn(arch: Arch, m: Wheel, d: int, toFine: nat, toCoarse: nat)
    requires Built(m) && Size(arch, d - m.miTick) == toFine && Size(arch, d - m.maTick) == toCoarse
    ensures var n := if toFine / MIN_TIME_OUT == 0 then 1 else toFine / MIN_TIME_OUT;
            var e := toCoarse / MIN_MA_TIMER;
            Place(arch, m, d) == if n < MAX_MI_WHEEL then m.mi[Size(arch, m.miWheel + n) % MAX_MI_WHEEL]
                                 else if e < MAX_MA_WHEEL then m.ma[Size(arch, m.maWheel + e) % MAX_MA_WHEEL] else m.st
  {
    hide Size;
  }

  /** tx_timer_reset files every deadline where it will be found. */
  lemma PlaceResident(arch: Arch, m: Wheel, g: Truth, d: int)
    requires Built(m) && Follows(arch, m, g) && g.now <= d && Comparable(g, d)
    ensures Findable(arch, m, g, Place(arch, m, d % WORD32), d)
  {
    if Wide(arch, d) {
      PlaceBeyond(m, g, d);
    } else {
      PlaceFound(arch, m, g, d);
    }
  }

  lemma PlaceFound(arch: Arch, m: Wheel, g: Truth, d: int)
    requires Built(m) && Follows(arch, m, g) && g.now <= d && Comparable(g, d) && !Wide(arch, d)
    ensures Findable(arch, m, g, Place(arch, m, d % WORD32), d)
  {
    hide Place, Size, Built;
    SizeDiff(arch, d, g.mi);
    SizeDiff(arch, d, g.ma);
    var f, c := d - g.mi, d - g.ma;
    PlaceIn(arch, m, d % WORD32, f, c);
    var n := if f / MIN_TIME_OUT == 0 then 1 else f / MIN_TIME_OUT;
    var e := c / MIN_MA_TIMER;
    var h := Place(arch, m, d % WORD32);
    if n < MAX_MI_WHEEL {
      assert FineAt(arch, m, g, h, d, n);
    } else if e < MAX_MA_WHEEL {
      assert CoarseAt(arch, m, g, h, d, e);
    }
  }

  /** With a 64-bit size_t a deadline beyond 2^32 is filed on the overflow list as soon as it can be. */
  lemma PlaceBeyond(m: Wheel, g: Truth, d: int)
    requires Built(m) && Follows(Size64, m, g) && WORD32 <= d < g.now + HALF + MIN_TIME_OUT
    ensures Place(Size64, m, d % WORD32) == m.st
  {
    SizeExact(Size64, g.mi);
    SizeExact(Size64, g.ma);
    assert d % WORD32 < g.ma by {
      if g.ma < WORD32 { Mod32(d, 1); }
    }
    hide Place, Size;
    PlaceBehind(m, d % WORD32);
  }

  lemma PlaceBehind(m: Wheel, stored: int)
    requires Built(m) && 0 <= stored < m.maTick < WORD64 / 2 && stored < m.miTick < WORD64 / 2
    ensures Place(Size64, m, stored) == m.st
  {
    hide Size;
    Negative64(stored - m.maTick);
    Negative64(stored - m.miTick);
  }

  // ---------------------------------------------------------------- tracking the deadlines

  /** The timer is armed for the true deadline d. */
  ghost predicate Armed(m: Wheel, g: Truth, t: Timer, d: int) {
    t in m.timers && t in m.fam.at && m.timers[t].interval == d % WORD32 && Comparable(g, d)
  }

  /** due holds the true deadlines of the armed timers. */
  ghost predicate Listed(m: Wheel, g: Truth, due: Table) {
    && (forall t :: t in due ==> Armed(m, g, t, due[t]))
    && (forall t :: t in m.timers ==> (t in due <==> !m.timers[t].idle))
  }

  /** All of them are where they will be found, except for those on the list h. */
  ghost predicate ResidentBut(arch: Arch, m: Wheel, g: Truth, due: Table, h: OptTimer)
    requires Built(m)
  {
    forall t :: t in due && t in m.fam.at && m.fam.at[t] != h ==> Findable(arch, m, g, m.fam.at[t], due[t])
  }

  ghost predicate Tracked(arch: Arch, m: Wheel, g: Truth, due: Table)
    requires Built(m)
  {
    Listed(m, g, due) && ResidentBut(arch, m, g, due, null)
  }

  /** What every event keeps. */
  ghost predicate Kept(arch: Arch, m: Wheel, g: Truth, due: Table) {
    Sound(m) && Stored(arch, m) && Heads(m) && Follows(arch, m, g) && Tracked(arch, m, g, due)
  }

  /** The same while the list h is to be drained. */
  ghost predicate KeptBut(arch: Arch, m: Wheel, g: Truth, due: Table, h: Timer) {
    Sound(m) && Stored(arch, m) && Heads(m) && Follows(arch, m, g) && Listed(m, g, due) && ResidentBut(arch, m, g, due, h)
  }

  /** The deadlines of the timers that are still armed. */
  ghost function Left(due: Table, r: Wheel): Table {
    map t | t in due && t in r.timers && !r.timers[t].idle :: due[t]
  }

  lemma FiresTruly(arch: Arch, m: Wheel, g: Truth, t: Timer, d: int)
    requires Armed(m, g, t, d) && arch != Ideal && m.ticks == g.now % WORD32
    ensures Fires(arch, m, t) <==> d < g.now + MIN_TIME_OUT
  {
    SignedUnsigned(arch, d, g.now, MIN_TIME_OUT);
    hide Signed;
  }

  lemma ResidentStays(arch: Arch, m: Wheel, r: Wheel, g: Truth, h: Timer, d: int)
    requires Built(m) && Built(r) && SameRing(m, r) && SameClock(m, r) && Findable(arch, m, g, h, d)
    ensures Findable(arch, r, g, h, d)
  {
    hide Built, Size;
    if n :| FineAt(arch, m, g, h, d, n) { assert FineAt(arch, r, g, h, d, n); }
    if n :| CoarseAt(arch, m, g, h, d, n) { assert CoarseAt(arch, r, g, h, d, n); }
  }

  // ---------------------------------------------------------------- sweeping

  /** What sweeping the list h does to one timer. */
  ghost predicate SweptOnce(arch: Arch, m: Wheel, g: Truth, due: Table, h: Timer, r: Wheel, t: Timer)
    requires t in due && Built(r)
  {
    && t in m.fam.at && t in r.timers && (r.timers[t].idle <==> m.fam.at[t] == h && due[t] < g.now + MIN_TIME_OUT)
    && (!r.timers[t].idle ==> Armed(r, g, t, due[t]) && Findable(arch, r, g, r.fam.at[t], due[t]))
  }

  lemma SweptOneTruly(arch: Arch, m: Wheel, g: Truth, due: Table, h: Timer, r: Wheel, t: Timer)
    requires Built(m) && Follows(arch, m, g) && h in m.fam.lists && t in due && Armed(m, g, t, due[t]) && !m.timers[t].idle
    requires m.fam.at[t] != h ==> Findable(arch, m, g, m.fam.at[t], due[t])
    requires forall u :: u in m.fam.lists[h] ==> u in m.timers
    requires t in m.fam.lists[h] <==> m.fam.at[t] == h
    requires Swept(arch, m, m.fam.lists[h], r) && Built(r) && SameRing(m, r) && SameClock(m, r)
    ensures SweptOnce(arch, m, g, due, h, r, t)
  {
    hide Fires, Place, Built, Follows, WheelProofs.Due, Findable, SameRing, SameClock;
    var d := due[t];
    FollowsTicks(arch, m, g);
    FiresTruly(arch, m, g, t, d);
    if m.fam.at[t] != h {
      ResidentStays(arch, m, r, g, m.fam.at[t], d);
    } else if d >= g.now + MIN_TIME_OUT {
      PlaceResident(arch, m, g, d);
      ResidentStays(arch, m, r, g, Place(arch, m, d % WORD32), d);
    }
  }

  lemma FollowsTicks(arch: Arch, m: Wheel, g: Truth)
    requires Follows(arch, m, g)
    ensures arch != Ideal && m.ticks == g.now % WORD32
  {
  }

  lemma FollowsStays(arch: Arch, m: Wheel, r: Wheel, g: Truth)
    requires Follows(arch, m, g) && SameClock(m, r)
    ensures Follows(arch, r, g)
  {
  }

  lemma SweptFacts(arch: Arch, m: Wheel, h: Timer)
    requires Sound(m) && Stored(arch, m) && Heads(m) && h in m.fam.lists
    ensures Built(m) && forall u :: u in m.fam.lists[h] ==> u in m.timers
    ensures forall t :: t in m.fam.at ==> (t in m.fam.lists[h] <==> m.fam.at[t] == h)
    ensures var r := SweepList(arch, m, h);
            && Sound(r) && Stored(arch, r) && Heads(r) && Swept(arch, m, m.fam.lists[h], r)
            && r.timers.Keys == m.timers.Keys && forall t :: t in m.timers && m.timers[t].idle ==> r.timers[t].idle
  {
    assert Built(m);
    ListMembers(m, h);
    SweepListIs(arch, m, h);
    SweepSpares(arch, m, h);
    HeadsStay(m, SweepList(arch, m, h));
    hide Sound, Stored, SweepList, Swept, Distinct, Fires;
  }

  /** Sweeping a list fires its timers that are due and files the others where they will be found. */
  lemma SweepTruly(arch: Arch, m: Wheel, g: Truth, due: Table, h: Timer)
    requires KeptBut(arch, m, g, due, h) && h in m.fam.lists
    ensures Built(m)
    ensures var r := SweepList(arch, m, h);
            && Kept(arch, r, g, Left(due, r)) && r.timers.Keys == m.timers.Keys
            && forall t :: t in due ==>
                 t in m.fam.at && t in r.timers && (r.timers[t].idle <==> m.fam.at[t] == h && due[t] < g.now + MIN_TIME_OUT)
  {
    assert Built(m);
    hide Sound, Stored, Heads, SweepList, Swept, Follows, Armed, Findable, SameRing, SameClock, Built;
    SweptFacts(arch, m, h);
    var r := SweepList(arch, m, h);
    FollowsStays(arch, m, r, g);
    forall t | t in due ensures SweptOnce(arch, m, g, due, h, r, t) {
      ArmedParts(m, g, t, due[t]);
      SweptOneTruly(arch, m, g, due, h, r, t);
    }
    SweptWhole(arch, m, g, due, h, r);
  }

  lemma ArmedParts(m: Wheel, g: Truth, t: Timer, d: int)
    requires Armed(m, g, t, d)
    ensures t in m.timers && t in m.fam.at
  {
  }

  lemma SweptWhole(arch: Arch, m: Wheel, g: Truth, due: Table, h: Timer, r: Wheel)
    requires Built(r) && forall t :: t in due ==> SweptOnce(arch, m, g, due, h, r, t)
    requires r.timers.Keys == m.timers.Keys && forall t :: t in m.timers && m.timers[t].idle ==> r.timers[t].idle
    requires forall t :: t in m.timers && t !in due ==> m.timers[t].idle
    ensures Tracked(arch, r, g, Left(due, r))
    ensures forall t :: t in due ==>
              t in m.fam.at && t in r.timers && (r.timers[t].idle <==> m.fam.at[t] == h && due[t] < g.now + MIN_TIME_OUT)
  {
    hide Armed, Findable, Built;
    var left := Left(due, r);
    forall t | t in left ensures Armed(r, g, t, left[t]) && t in r.fam.at && Findable(arch, r, g, r.fam.at[t], left[t]) {
      assert SweptOnce(arch, m, g, due, h, r, t);
      ArmedParts(r, g, t, due[t]);
    }
  }

  // ---------------------------------------------------------------- turns of the wheels

  /** One turn, or any number of them: no timer beyond 2^32 is touched, and none fires early. */
  ghost predicate TurnedTruly(arch: Arch, m: Wheel, due: Table, r: Wheel, g: Truth) {
    && Kept(arch, r, g, Left(due, r)) && r.timers.Keys == m.timers.Keys
    && forall t :: t in due ==> t in r.timers && (r.timers[t].idle ==> !Wide(arch, due[t]) && due[t] < g.now + MIN_TIME_OUT)
  }

  lemma KeptParts(arch: Arch, m: Wheel, g: Truth, due: Table)
    requires Kept(arch, m, g, due)
    ensures Built(m) && Follows(arch, m, g) && Left(due, m) == due
    ensures forall t :: t in due ==> t in m.timers && !m.timers[t].idle
  {
    hide Sound, Stored, Follows, Findable;
  }

  lemma TurnedNone(arch: Arch, m: Wheel, g: Truth, due: Table)
    requires Kept(arch, m, g, due)
    ensures TurnedTruly(arch, m, due, m, g)
  {
    KeptParts(arch, m, g, due);
    hide Kept;
  }

  lemma LeftTwice(arch: Arch, n: Wheel, r: Wheel, g: Truth, due: Table)
    requires Kept(arch, n, g, Left(due, n)) && n.timers.Keys == r.timers.Keys
    requires forall t :: t in n.timers && n.timers[t].idle ==> r.timers[t].idle
    ensures Left(Left(due, n), r) == Left(due, r)
  {
    hide Kept;
  }

  lemma KeptIdle(arch: Arch, r: Wheel, g: Truth, due: Table)
    requires Kept(arch, r, g, due)
    ensures forall t :: t in r.timers && t !in due ==> r.timers[t].idle
  {
    hide Sound, Stored, Follows, Findable, Heads;
  }

  lemma TurnedChain(arch: Arch, m: Wheel, due: Table, n: Wheel, g: Truth, r: Wheel, k: Truth)
    requires TurnedTruly(arch, m, due, n, g) && TurnedTruly(arch, n, Left(due, n), r, k) && k.now == g.now
    ensures TurnedTruly(arch, m, due, r, k)
  {
    hide Kept;
    KeptIdle(arch, r, k, Left(Left(due, n), r));
    LeftTwice(arch, n, r, g, due);
    forall t | t in due
      ensures t in r.timers && (r.timers[t].idle ==> !Wide(arch, due[t]) && due[t] < k.now + MIN_TIME_OUT)
    {
      if !n.timers[t].idle { assert t in Left(due, n); }
    }
  }

  /** Sweeping a slot that has come up. */
  lemma SlotTurned(arch: Arch, m: Wheel, a: Wheel, g: Truth, due: Table, h: Timer)
    requires KeptBut(arch, a, g, due, h) && h in a.fam.lists && h != a.st && a.timers.Keys == m.timers.Keys
    requires forall t :: t in due && t in a.fam.at && Wide(arch, due[t]) ==> a.fam.at[t] == a.st
    ensures Built(a) && TurnedTruly(arch, m, due, SweepList(arch, a, h), g)
  {
    hide KeptBut, Kept, SweepList;
    SweepTruly(arch, a, g, due, h);
  }

  lemma WideParked(arch: Arch, m: Wheel, g: Truth, due: Table)
    requires Kept(arch, m, g, due)
    ensures forall t :: t in due && t in m.fam.at && Wide(arch, due[t]) ==> m.fam.at[t] == m.st
  {
    hide Sound, Stored, Follows, Armed, FineAt, CoarseAt;
  }

  lemma FineMoves(arch: Arch, m: Wheel, g: Truth, h: Timer, d: int)
    requires arch != Ideal && Built(m) && Findable(arch, m, g, h, d) && h != FineDrained(arch, m)
    ensures Findable(arch, AdvanceFine(arch, m), g.(mi := g.mi + MIN_TIME_OUT), h, d)
  {
    hide Size, Built;
    var a, k := AdvanceFine(arch, m), g.(mi := g.mi + MIN_TIME_OUT);
    BuiltTurned(arch, m);
    if n :| FineAt(arch, m, g, h, d, n) {
      SizeStep(arch, m.miWheel + 1, n - 1);
      assert FineAt(arch, a, k, h, d, n - 1);
    }
    if n :| CoarseAt(arch, m, g, h, d, n) { assert CoarseAt(arch, a, k, h, d, n); }
  }

  lemma CoarseMoves(arch: Arch, m: Wheel, g: Truth, h: Timer, d: int)
    requires arch != Ideal && Built(m) && Findable(arch, m, g, h, d) && h != CoarseDrained(arch, m)
    ensures Findable(arch, AdvanceCoarse(arch, m), g.(ma := g.ma + MIN_MA_TIMER), h, d)
  {
    hide Size, Built;
    var a, k := AdvanceCoarse(arch, m), g.(ma := g.ma + MIN_MA_TIMER);
    BuiltTurned(arch, m);
    if n :| CoarseAt(arch, m, g, h, d, n) {
      SizeStep(arch, m.maWheel + 1, n - 1);
      assert CoarseAt(arch, a, k, h, d, n - 1);
    }
    if n :| FineAt(arch, m, g, h, d, n) { assert FineAt(arch, a, k, h, d, n); }
  }

  lemma BuiltTurned(arch: Arch, m: Wheel)
    requires Built(m)
    ensures Built(AdvanceFine(arch, m)) && Built(AdvanceCoarse(arch, m))
    ensures FineDrained(arch, m) in m.mi && CoarseDrained(arch, m) in m.ma
  {
    hide Size;
  }

  lemma FineFollows(arch: Arch, m: Wheel, g: Truth)
    requires Follows(arch, m, g) && g.now - g.mi >= MIN_TIME_OUT
    ensures Follows(arch, AdvanceFine(arch, m), g.(mi := g.mi + MIN_TIME_OUT))
  {
    hide Size;
    SizeStep(arch, g.mi, MIN_TIME_OUT);
    FineOrder(g.mi, g.ma);
  }

  lemma CoarseFollows(arch: Arch, m: Wheel, g: Truth)
    requires Follows(arch, m, g) && g.now - g.ma >= MIN_MA_TIMER && g.now < g.mi + MIN_TIME_OUT
    ensures Follows(arch, AdvanceCoarse(arch, m), g.(ma := g.ma + MIN_MA_TIMER))
  {
    hide Size;
    SizeStep(arch, g.ma, MIN_MA_TIMER);
    CoarseBehind(g.mi, g.ma, g.now);
  }

  lemma CoarseBehind(mi: int, ma: int, now: int)
    requires (mi - ma) % MIN_TIME_OUT == 0 && ma + MIN_MA_TIMER <= now < mi + MIN_TIME_OUT
    ensures ma + MIN_MA_TIMER <= mi && (mi - (ma + MIN_MA_TIMER)) % MIN_TIME_OUT == 0
  {
    var q := (mi - ma) / MIN_TIME_OUT;
    assert mi - ma == 15 * q && mi - (ma + MIN_MA_TIMER) == 15 * (q - 50);
  }

  lemma FineOrder(mi: int, ma: int)
    requires (mi - ma) % MIN_TIME_OUT == 0
    ensures (mi + MIN_TIME_OUT - ma) % MIN_TIME_OUT == 0
  {
  }

  lemma ListedStays(m: Wheel, a: Wheel, g: Truth, k: Truth, due: Table)
    requires Listed(m, g, due) && a.timers == m.timers && a.fam == m.fam && k.now == g.now
    ensures Listed(a, k, due)
  {
  }

  lemma FineKeptBut(arch: Arch, m: Wheel, g: Truth, due: Table)
    requires Kept(arch, m, g, due) && g.now - g.mi >= MIN_TIME_OUT
    ensures Built(m)
    ensures KeptBut(arch, AdvanceFine(arch, m), g.(mi := g.mi + MIN_TIME_OUT), due, FineDrained(arch, m))
  {
    var a, k, h := AdvanceFine(arch, m), g.(mi := g.mi + MIN_TIME_OUT), FineDrained(arch, m);
    KeptParts(arch, m, g, due);
    AdvancedSound(m, a);
    StoredSame(arch, m, a);
    HeadsStay(m, a);
    hide Sound, Stored, Heads, Follows, Listed, Findable, FineDrained, AdvanceFine;
    FineFollows(arch, m, g);
    FollowsTicks(arch, m, g);
    AdvancedFields(arch, m);
    ListedStays(m, a, g, k, due);
    forall t | t in due && t in a.fam.at && a.fam.at[t] != h ensures Findable(arch, a, k, a.fam.at[t], due[t]) {
      FineMoves(arch, m, g, m.fam.at[t], due[t]);
    }
  }

  lemma AdvancedFields(arch: Arch, m: Wheel)
    ensures AdvanceFine(arch, m).fam == m.fam && AdvanceFine(arch, m).timers == m.timers && AdvanceFine(arch, m).st == m.st
    ensures AdvanceCoarse(arch, m).fam == m.fam && AdvanceCoarse(arch, m).timers == m.timers && AdvanceCoarse(arch, m).st == m.st
  {
  }

  lemma CoarseKeptBut(arch: Arch, m: Wheel, g: Truth, due: Table)
    requires Kept(arch, m, g, due) && g.now - g.ma >= MIN_MA_TIMER && g.now < g.mi + MIN_TIME_OUT
    ensures Built(m)
    ensures KeptBut(arch, AdvanceCoarse(arch, m), g.(ma := g.ma + MIN_MA_TIMER), due, CoarseDrained(arch, m))
  {
    var a, k, h := AdvanceCoarse(arch, m), g.(ma := g.ma + MIN_MA_TIMER), CoarseDrained(arch, m);
    KeptParts(arch, m, g, due);
    AdvancedSound(m, a);
    StoredSame(arch, m, a);
    HeadsStay(m, a);
    hide Sound, Stored, Heads, Follows, Listed, Findable, CoarseDrained, AdvanceCoarse;
    CoarseFollows(arch, m, g);
    FollowsTicks(arch, m, g);
    AdvancedFields(arch, m);
    ListedStays(m, a, g, k, due);
    forall t | t in due && t in a.fam.at && a.fam.at[t] != h ensures Findable(arch, a, k, a.fam.at[t], due[t]) {
      CoarseMoves(arch, m, g, m.fam.at[t], due[t]);
    }
  }

  lemma HeadsOf(arch: Arch, m: Wheel, g: Truth, due: Table)
    requires Kept(arch, m, g, due)
    ensures Built(m) && FineDrained(arch, m) != m.st && CoarseDrained(arch, m) != m.st
  {
    hide Sound, Stored, Follows, Tracked;
    BuiltTurned(arch, m);
  }

  lemma FineTurned(arch: Arch, m: Wheel, g: Truth, due: Table)
    requires Kept(arch, m, g, due) && FineDue(arch, m)
    ensures Built(m) && g.now - g.mi >= MIN_TIME_OUT && TurnedTruly(arch, m, due, FineTurn(arch, m), g.(mi := g.mi + MIN_TIME_OUT))
  {
    hide Kept, KeptBut, TurnedTruly, FineDue, FineTurn, FineDrained, AdvanceFine, SweepList, Follows;
    KeptParts(arch, m, g, due);
    DueTruly(arch, m, g);
    FineKeptBut(arch, m, g, due);
    WideParked(arch, m, g, due);
    HeadsOf(arch, m, g, due);
    AdvancedFields(arch, m);
    TurnsDrain(arch, m);
    SlotTurned(arch, m, AdvanceFine(arch, m), g.(mi := g.mi + MIN_TIME_OUT), due, FineDrained(arch, m));
  }

  lemma CoarseTurned(arch: Arch, m: Wheel, g: Truth, due: Table)
    requires Kept(arch, m, g, due) && CoarseDue(arch, m) && g.now < g.mi + MIN_TIME_OUT
    ensures Built(m) && g.now - g.ma >= MIN_MA_TIMER && TurnedTruly(arch, m, due, CoarseTurn(arch, m), g.(ma := g.ma + MIN_MA_TIMER))
  {
    hide Kept, KeptBut, TurnedTruly, CoarseDue, CoarseTurn, CoarseDrained, AdvanceCoarse, SweepList, Follows;
    KeptParts(arch, m, g, due);
    DueTruly(arch, m, g);
    CoarseKeptBut(arch, m, g, due);
    WideParked(arch, m, g, due);
    HeadsOf(arch, m, g, due);
    AdvancedFields(arch, m);
    TurnsDrain(arch, m);
    SlotTurned(arch, m, AdvanceCoarse(arch, m), g.(ma := g.ma + MIN_MA_TIMER), due, CoarseDrained(arch, m));
  }

  /** The truth once the fine wheel, and then the coarse one, has caught up. */
  function FineCaught(g: Truth): Truth { g.(mi := g.now - (g.now - g.mi) % MIN_TIME_OUT) }

  function CoarseCaught(g: Truth): Truth { g.(ma := g.now - (g.now - g.ma) % MIN_MA_TIMER) }

  lemma CaughtStep(g: Truth)
    ensures FineCaught(g.(mi := g.mi + MIN_TIME_OUT)) == FineCaught(g)
    ensures CoarseCaught(g.(ma := g.ma + MIN_MA_TIMER)) == CoarseCaught(g)
    ensures 0 <= g.now - g.mi < MIN_TIME_OUT ==> FineCaught(g) == g
    ensures 0 <= g.now - g.ma < MIN_MA_TIMER ==> CoarseCaught(g) == g
    ensures g.now - MIN_TIME_OUT < FineCaught(g).mi <= g.now && g.now - MIN_MA_TIMER < CoarseCaught(g).ma <= g.now
  {
    assert (g.now - (g.mi + MIN_TIME_OUT)) % MIN_TIME_OUT == (g.now - g.mi) % MIN_TIME_OUT;
    assert (g.now - (g.ma + MIN_MA_TIMER)) % MIN_MA_TIMER == (g.now - g.ma) % MIN_MA_TIMER;
  }

  lemma TicksOrdered(arch: Arch, m: Wheel, g: Truth)
    requires Follows(arch, m, g)
    ensures g.ma <= g.mi <= g.now
  {
  }

  lemma TurnedKept(arch: Arch, m: Wheel, due: Table, r: Wheel, g: Truth)
    requires TurnedTruly(arch, m, due, r, g)
    ensures Kept(arch, r, g, Left(due, r))
  {
    hide Kept;
  }

  lemma {:induction false} FineTurnedAll(arch: Arch, m: Wheel, g: Truth, due: Table)
    requires Kept(arch, m, g, due)
    ensures Built(m) && TurnedTruly(arch, m, due, FineTurns(arch, m), FineCaught(g))
    decreases g.now - g.mi
  {
    hide Kept, TurnedTruly, FineTurn, FineDue, Built, Left, Follows, FineCaught;
    KeptParts(arch, m, g, due);
    TicksOrdered(arch, m, g);
    DueTruly(arch, m, g);
    CaughtStep(g);
    TurnedNone(arch, m, g, due);
    if FineDue(arch, m) {
      var n, k := FineTurn(arch, m), g.(mi := g.mi + MIN_TIME_OUT);
      FineTurned(arch, m, g, due);
      TurnedKept(arch, m, due, n, k);
      FineTurnedAll(arch, n, k, Left(due, n));
      CaughtNow(k);
      TurnedChain(arch, m, due, n, k, FineTurns(arch, n), FineCaught(k));
    }
  }

  lemma CaughtNow(g: Truth)
    ensures FineCaught(g).now == g.now && CoarseCaught(g).now == g.now
    ensures FineCaught(g).ma == g.ma && FineCaught(g).st == g.st && CoarseCaught(g).mi == g.mi && CoarseCaught(g).st == g.st
  {
  }

  lemma {:induction false} CoarseTurnedAll(arch: Arch, m: Wheel, g: Truth, due: Table)
    requires Kept(arch, m, g, due) && g.now < g.mi + MIN_TIME_OUT
    ensures Built(m) && TurnedTruly(arch, m, due, CoarseTurns(arch, m), CoarseCaught(g))
    decreases g.now - g.ma
  {
    hide Kept, TurnedTruly, CoarseTurn, CoarseDue, Built, Left, Follows, CoarseCaught;
    KeptParts(arch, m, g, due);
    TicksOrdered(arch, m, g);
    DueTruly(arch, m, g);
    CaughtStep(g);
    TurnedNone(arch, m, g, due);
    if CoarseDue(arch, m) {
      var n, k := CoarseTurn(arch, m), g.(ma := g.ma + MIN_MA_TIMER);
      CoarseTurned(arch, m, g, due);
      TurnedKept(arch, m, due, n, k);
      CoarseTurnedAll(arch, n, k, Left(due, n));
      CaughtNow(k);
      TurnedChain(arch, m, due, n, k, CoarseTurns(arch, n), CoarseCaught(k));
    }
  }

  // ---------------------------------------------------------------- one poll

  /** The clock may go on to `now`: it does not outrun the wheels or the last rescan by half the tick range. */
  ghost predicate MayTick(arch: Arch, g: Truth, due: Table, now: int) {
    && g.now <= now && Close(arch, g.(now := now))
    && forall t :: t in due && Wide(arch, due[t]) ==> now - g.st <= HALF - MIN_TIME_OUT
  }

  lemma StillComparable(arch: Arch, m: Wheel, g: Truth, due: Table, now: int, t: Timer)
    requires Built(m) && Ordered(arch, g) && MayTick(arch, g, due, now) && t in due && t in m.fam.at
    requires Comparable(g, due[t]) && Findable(arch, m, g, m.fam.at[t], due[t])
    ensures Comparable(g.(now := now), due[t])
  {
    hide Built;
    var h, d := m.fam.at[t], due[t];
    if !Wide(arch, d) {
      if n :| FineAt(arch, m, g, h, d, n) {
        assert d >= g.mi;
      } else if n :| CoarseAt(arch, m, g, h, d, n) {
        assert d >= g.ma;
      }
    }
  }

  lemma ResidentLater(arch: Arch, m: Wheel, a: Wheel, g: Truth, now: int, h: Timer, d: int)
    requires Built(m) && Built(a) && a == m.(ticks := a.ticks) && Findable(arch, m, g, h, d)
    ensures Findable(arch, a, g.(now := now), h, d)
  {
    hide Built, Size;
    var k := g.(now := now);
    if n :| FineAt(arch, m, g, h, d, n) { assert FineAt(arch, a, k, h, d, n); }
    if n :| CoarseAt(arch, m, g, h, d, n) { assert CoarseAt(arch, a, k, h, d, n); }
  }

  lemma BuiltTicks(m: Wheel, ticks: int)
    requires Built(m)
    ensures var a := m.(ticks := ticks); Built(a) && SameRing(m, a) && a.fam == m.fam && a.timers == m.timers
  {
  }

  lemma TickFollows(arch: Arch, m: Wheel, g: Truth, due: Table, now: int)
    requires Follows(arch, m, g) && MayTick(arch, g, due, now)
    ensures Follows(arch, m.(ticks := now % WORD32), g.(now := now)) && Ordered(arch, g)
  {
  }

  lemma Ticks(arch: Arch, m: Wheel, g: Truth, due: Table, now: int)
    requires Kept(arch, m, g, due) && MayTick(arch, g, due, now)
    ensures Kept(arch, m.(ticks := now % WORD32), g.(now := now), due)
  {
    hide Sound, Stored, Heads, Follows, Findable, Ordered, MayTick, Comparable, Built, Close;
    var a, k := m.(ticks := now % WORD32), g.(now := now);
    KeptParts(arch, m, g, due);
    BuiltTicks(m, now % WORD32);
    AdvancedSound(m, a);
    StoredSame(arch, m, a);
    HeadsStay(m, a);
    TickFollows(arch, m, g, due, now);
    forall t | t in due ensures Armed(a, k, t, due[t]) && t in a.fam.at && Findable(arch, a, k, a.fam.at[t], due[t]) {
      StillComparable(arch, m, g, due, now, t);
      ResidentLater(arch, m, a, g, now, m.fam.at[t], due[t]);
    }
  }

  /** When a poll drains the overflow list. */
  predicate Rescanning(g: Truth) { g.now - g.st >= MIN_ST_TIMER }

  function Rescanned(g: Truth): Truth { if Rescanning(g) then g.(st := g.now) else g }

  /** The truth after a poll. */
  function Caught(g: Truth): Truth { Rescanned(CoarseCaught(FineCaught(g))) }

  lemma ResidentRescan(arch: Arch, c: Wheel, a: Wheel, g: Truth, h: Timer, d: int)
    requires Built(c) && Built(a) && a == c.(stTick := a.stTick) && Findable(arch, c, g, h, d) && h != c.st
    ensures Findable(arch, a, g.(st := g.now), h, d)
  {
    hide Built, Size;
    var k := g.(st := g.now);
    if n :| FineAt(arch, c, g, h, d, n) { assert FineAt(arch, a, k, h, d, n); }
    if n :| CoarseAt(arch, c, g, h, d, n) { assert CoarseAt(arch, a, k, h, d, n); }
  }

  lemma RescanKeptBut(arch: Arch, c: Wheel, g: Truth, due: Table)
    requires Kept(arch, c, g, due) && g.now < g.ma + MIN_MA_TIMER
    ensures Built(c) && KeptBut(arch, c.(stTick := c.ticks), g.(st := g.now), due, c.st)
  {
    var a, k := c.(stTick := c.ticks), g.(st := g.now);
    KeptParts(arch, c, g, due);
    AdvancedSound(c, a);
    StoredSame(arch, c, a);
    HeadsStay(c, a);
    ListedStays(c, a, g, k, due);
    assert Follows(arch, a, k);
    hide Sound, Stored, Heads, Follows, Listed, Findable;
    forall t | t in due && t in a.fam.at && a.fam.at[t] != c.st ensures Findable(arch, a, k, a.fam.at[t], due[t]) {
      ResidentRescan(arch, c, a, g, c.fam.at[t], due[t]);
    }
  }

  /** What a rescan does: those on the overflow list that are due fire. */
  ghost predicate RescannedTruly(arch: Arch, c: Wheel, g: Truth, due: Table, r: Wheel) {
    && Kept(arch, r, Rescanned(g), Left(due, r)) && r.timers.Keys == c.timers.Keys
    && forall t :: t in due ==>
         && t in c.fam.at && t in r.timers
         && (r.timers[t].idle <==> Rescanning(g) && c.fam.at[t] == c.st && due[t] < g.now + MIN_TIME_OUT)
  }

  lemma RescanTruly(arch: Arch, c: Wheel, g: Truth, due: Table)
    requires Kept(arch, c, g, due) && g.now < g.ma + MIN_MA_TIMER
    ensures Built(c) && RescannedTruly(arch, c, g, due, Rescan(arch, c))
  {
    hide Kept, KeptBut, SweepList, OverflowDue, Follows;
    KeptParts(arch, c, g, due);
    DueTruly(arch, c, g);
    if OverflowDue(arch, c) {
      RescanKeptBut(arch, c, g, due);
      SweepTruly(arch, c.(stTick := c.ticks), g.(st := g.now), due, c.st);
    } else {
      ArmedAt(arch, c, g, due);
    }
  }

  lemma ArmedAt(arch: Arch, c: Wheel, g: Truth, due: Table)
    requires Kept(arch, c, g, due)
    ensures forall t :: t in due ==> t in c.fam.at && t in c.timers && !c.timers[t].idle
  {
    hide Sound, Stored, Heads, Follows, Findable;
  }

  /** The latest a timer may still be armed for, after a poll. */
  function Overdue(arch: Arch, d: int): int { if Wide(arch, d) then MIN_ST_TIMER else MIN_MA_TIMER - 1 }

  /** What a poll at the truth g does: nothing fires fifteen ticks early, whatever is overdue too long has fired, and
      a timer beyond 2^32 fires exactly in a rescan. */
  ghost predicate PolledOne(arch: Arch, g: Truth, due: Table, r: Wheel, t: Timer)
    requires t in due
  {
    && t in r.timers && (r.timers[t].idle ==> due[t] < g.now + MIN_TIME_OUT)
    && (due[t] <= g.now - Overdue(arch, due[t]) ==> r.timers[t].idle)
    && (Wide(arch, due[t]) ==> (r.timers[t].idle <==> Rescanning(g) && due[t] < g.now + MIN_TIME_OUT))
  }

  ghost predicate PolledTruly(arch: Arch, g: Truth, due: Table, r: Wheel) {
    forall t :: t in due ==> PolledOne(arch, g, due, r, t)
  }

  lemma NotLate(arch: Arch, r: Wheel, g: Truth, h: Timer, d: int)
    requires Built(r) && Findable(arch, r, g, h, d)
    requires g.now < g.mi + MIN_TIME_OUT && g.now < g.ma + MIN_MA_TIMER && g.now - g.st < MIN_ST_TIMER
    ensures d > g.now - Overdue(arch, d)
  {
    hide Built;
    if !Wide(arch, d) {
      if n :| FineAt(arch, r, g, h, d, n) {
        assert d >= g.mi;
      } else if n :| CoarseAt(arch, r, g, h, d, n) {
        assert d >= g.ma;
      }
    }
  }

  lemma NoneLate(arch: Arch, r: Wheel, g: Truth, left: Table)
    requires Kept(arch, r, g, left)
    requires g.now < g.mi + MIN_TIME_OUT && g.now < g.ma + MIN_MA_TIMER && g.now - g.st < MIN_ST_TIMER
    ensures forall t :: t in left ==> left[t] > g.now - Overdue(arch, left[t])
  {
    KeptParts(arch, r, g, left);
    ArmedAt(arch, r, g, left);
    hide Sound, Stored, Heads, Follows, Listed, Findable, Overdue;
    forall t | t in left ensures left[t] > g.now - Overdue(arch, left[t]) {
      NotLate(arch, r, g, r.fam.at[t], left[t]);
    }
  }

  lemma PolledWhole(arch: Arch, a: Wheel, g: Truth, due: Table, c: Wheel, k: Truth, r: Wheel)
    requires TurnedTruly(arch, a, due, c, k) && k.now == g.now && k.st == g.st && RescannedTruly(arch, c, k, Left(due, c), r)
    requires k.now < k.mi + MIN_TIME_OUT && k.now < k.ma + MIN_MA_TIMER
    ensures Kept(arch, r, Rescanned(k), Left(due, r)) && r.timers.Keys == a.timers.Keys && PolledTruly(arch, g, due, r)
  {
    hide Kept, Overdue, Wide;
    TurnedKept(arch, a, due, c, k);
    WideParked(arch, c, k, Left(due, c));
    KeptIdle(arch, r, Rescanned(k), Left(Left(due, c), r));
    LeftTwice(arch, c, r, k, due);
    NoneLate(arch, r, Rescanned(k), Left(due, r));
    forall t | t in due ensures PolledOne(arch, g, due, r, t) {
      PolledEach(arch, a, g, due, c, k, r, t);
    }
  }

  lemma PolledEach(arch: Arch, a: Wheel, g: Truth, due: Table, c: Wheel, k: Truth, r: Wheel, t: Timer)
    requires TurnedTruly(arch, a, due, c, k) && k.now == g.now && k.st == g.st && RescannedTruly(arch, c, k, Left(due, c), r)
    requires forall u :: u in Left(due, c) && u in c.fam.at && Wide(arch, due[u]) ==> c.fam.at[u] == c.st
    requires forall u :: u in r.timers && u !in Left(Left(due, c), r) ==> r.timers[u].idle
    requires forall u :: u in Left(due, r) ==> due[u] > g.now - Overdue(arch, due[u])
    requires t in due
    ensures PolledOne(arch, g, due, r, t)
  {
    hide Kept, Overdue, Wide;
    if !c.timers[t].idle { assert t in Left(due, c); }
    if !r.timers[t].idle { assert t in Left(due, r); }
  }

  /** One poll, at any age of the ring: no timer fires fifteen ticks early, none stays armed 749 ticks late (45000 with
      a deadline beyond 2^32 and a 64-bit size_t), and everything else is kept. */
  lemma PollTruly(arch: Arch, m: Wheel, g: Truth, due: Table, now: int)
    requires Kept(arch, m, g, due) && MayTick(arch, g, due, now)
    ensures Built(m)
    ensures var r := Poll(arch, m, now % WORD32);
            && Kept(arch, r, Caught(g.(now := now)), Left(due, r)) && r.timers.Keys == m.timers.Keys
            && PolledTruly(arch, g.(now := now), due, r)
  {
    hide Kept, TurnedTruly, MayTick, FineTurns, CoarseTurns, Rescan, RescannedTruly, PolledTruly, FineCaught, CoarseCaught, Rescanned, Left;
    var a, x := m.(ticks := now % WORD32), g.(now := now);
    KeptParts(arch, m, g, due);
    Ticks(arch, m, g, due, now);
    CaughtStep(x);
    CaughtNow(x);
    FineTurnedAll(arch, a, x, due);
    var f, y := FineTurns(arch, a), FineCaught(x);
    TurnedKept(arch, a, due, f, y);
    CaughtStep(y);
    CaughtNow(y);
    CoarseTurnedAll(arch, f, y, Left(due, f));
    var c, k := CoarseTurns(arch, f), CoarseCaught(y);
    TurnedChain(arch, a, due, f, y, c, k);
    TurnedKept(arch, a, due, c, k);
    RescanTruly(arch, c, k, Left(due, c));
    PolledWhole(arch, a, x, due, c, k, Rescan(arch, c));
  }

  // ---------------------------------------------------------------- arming and disarming

  lemma StoredValue(arch: Arch, x: int)
    ensures Unsigned(arch, Unsigned(arch, x)) == Unsigned(arch, x)
  {
  }

  lemma EnlistStored(arch: Arch, m: Wheel, t: Timer, u: nat)
    requires Built(m) && Stored(arch, m) && t in m.timers
    ensures Stored(arch, Enlist(arch, m, t, u))
  {
    hide Place, Unsigned;
    StoredValue(arch, m.ticks + u);
  }

  lemma EnlistListed(m: Wheel, r: Wheel, g: Truth, due: Table, t: Timer, u: nat)
    requires Listed(m, g, due) && t in m.timers && t !in due && u < HALF && t in r.fam.at
    requires r.timers == m.timers[t := m.timers[t].(idle := false, interval := (g.now + u) % WORD32)]
    requires forall k :: k != t && k in m.fam.at ==> k in r.fam.at
    ensures Listed(r, g, due[t := g.now + u])
  {
    var left := due[t := g.now + u];
    forall k | k in left ensures Armed(r, g, k, left[k]) {
      if k != t { assert Armed(m, g, k, due[k]); }
    }
  }

  lemma EnlistResident(arch: Arch, m: Wheel, r: Wheel, g: Truth, due: Table, t: Timer, d: int, h: Timer)
    requires Built(m) && Built(r) && SameRing(m, r) && SameClock(m, r) && ResidentBut(arch, m, g, due, null)
    requires r.fam.at == m.fam.at[t := h] && Findable(arch, m, g, h, d)
    ensures ResidentBut(arch, r, g, due[t := d], null)
  {
    hide Built, SameRing, SameClock, Findable;
    var left := due[t := d];
    forall k | k in left && k in r.fam.at ensures Findable(arch, r, g, r.fam.at[k], left[k]) {
      ResidentStays(arch, m, r, g, r.fam.at[k], left[k]);
    }
  }

  lemma EnlistTruly(arch: Arch, m: Wheel, g: Truth, due: Table, t: Timer, u: nat)
    requires Kept(arch, m, g, due) && t in m.timers && m.timers[t].idle && u < HALF && t !in due
    ensures Built(m) && Kept(arch, Enlist(arch, m, t, u), g, due[t := g.now + u])
  {
    hide Sound, Stored, Heads, Enlist, Place, Follows, Built, Listed, ResidentBut, Findable, SameRing, SameClock, Unsigned;
    KeptParts(arch, m, g, due);
    FollowsTicks(arch, m, g);
    var r, d := Enlist(arch, m, t, u), g.now + u;
    DeadlineTruly(arch, m, g, u);
    EnlistSound(arch, m, t, u);
    EnlistStored(arch, m, t, u);
    HeadsStay(m, r);
    FollowsStays(arch, m, r, g);
    PlaceResident(arch, m, g, d);
    EnlistListed(m, r, g, due, t, u);
    EnlistResident(arch, m, r, g, due, t, d, Place(arch, m, d % WORD32));
  }

  lemma DeadlineTruly(arch: Arch, m: Wheel, g: Truth, u: nat)
    requires arch != Ideal && m.ticks == g.now % WORD32 && u < HALF
    ensures Unsigned(arch, m.ticks + u) == (g.now + u) % WORD32 && Comparable(g, g.now + u)
  {
    UnsignedStep(arch, g.now, u);
  }

  lemma UnlistStored(arch: Arch, m: Wheel, t: Timer, r: Wheel)
    requires Stored(arch, m) && t in m.timers && r.timers == m.timers[t := m.timers[t].(idle := true)]
    ensures Stored(arch, r)
  {
    hide Unsigned;
  }

  lemma UnlistListed(m: Wheel, g: Truth, due: Table, t: Timer, r: Wheel)
    requires Listed(m, g, due) && t in m.timers
    requires r.timers == m.timers[t := m.timers[t].(idle := true)] && r.fam.at == m.fam.at - {t}
    ensures Listed(r, g, due - {t})
  {
    forall k | k in due - {t} ensures Armed(r, g, k, due[k]) {
      assert Armed(m, g, k, due[k]);
    }
  }

  lemma UnlistResident(arch: Arch, m: Wheel, r: Wheel, g: Truth, due: Table, t: Timer)
    requires Built(m) && Built(r) && SameRing(m, r) && SameClock(m, r) && ResidentBut(arch, m, g, due, null)
    requires r.fam.at == m.fam.at - {t}
    ensures ResidentBut(arch, r, g, due - {t}, null)
  {
    hide Built, SameRing, SameClock, Findable;
    forall k | k in due - {t} && k in r.fam.at ensures Findable(arch, r, g, r.fam.at[k], due[k]) {
      ResidentStays(arch, m, r, g, r.fam.at[k], due[k]);
    }
  }

  lemma UnlistTruly(arch: Arch, m: Wheel, g: Truth, due: Table, t: Timer)
    requires Kept(arch, m, g, due) && t in m.timers
    ensures Built(m) && Kept(arch, Unlist(m, t), g, due - {t}) && Unlist(m, t).timers[t].idle
  {
    hide Sound, Stored, Heads, Unlist, Follows, Built, Listed, ResidentBut, Findable, SameRing, SameClock;
    KeptParts(arch, m, g, due);
    var r := Unlist(m, t);
    UnlistSound(m, t);
    HeadsStay(m, r);
    FollowsStays(arch, m, r, g);
    UnlistStored(arch, m, t, r);
    UnlistListed(m, g, due, t, r);
    UnlistResident(arch, m, r, g, due, t);
  }

  lemma PutBack(due: Table, t: Timer, d: int)
    ensures (due - {t})[t := d] == due[t := d]
  {
  }

  lemma IdleUntracked(arch: Arch, m: Wheel, g: Truth, due: Table, t: Timer)
    requires Kept(arch, m, g, due) && t in m.timers
    ensures m.timers[t].idle <==> t !in due
  {
    hide Sound, Stored, Heads, Follows, Findable;
  }

  lemma ResetTruly(arch: Arch, m: Wheel, g: Truth, due: Table, t: Timer, u: nat)
    requires Kept(arch, m, g, due) && t in m.timers && u < HALF
    ensures Built(m) && Kept(arch, Reset(arch, m, t, u), g, due[t := g.now + u])
  {
    hide Kept, Enlist, Unlist, Built;
    KeptParts(arch, m, g, due);
    IdleUntracked(arch, m, g, due, t);
    if m.timers[t].idle {
      EnlistTruly(arch, m, g, due, t, u);
    } else {
      UnlistTruly(arch, m, g, due, t);
      EnlistTruly(arch, Unlist(m, t), g, due - {t}, t, u);
      PutBack(due, t, g.now + u);
    }
  }

  lemma FiredTruly(arch: Arch, m: Wheel, g: Truth, due: Table, fired: seq<Timer>)
    requires Kept(arch, m, g, due)
    ensures Kept(arch, m.(fired := fired), g, due)
  {
    hide Sound, Stored, Heads, Follows, Listed, ResidentBut, Findable, SameRing, SameClock, Built;
    KeptParts(arch, m, g, due);
    var r := m.(fired := fired);
    BuiltFired(m, fired);
    FiredSound(m, fired);
    HeadsStay(m, r);
    StoredSame(arch, m, r);
    FollowsStays(arch, m, r, g);
    ListedStays(m, r, g, g, due);
    ResidentAgain(arch, m, r, g, due);
  }

  lemma BuiltFired(m: Wheel, fired: seq<Timer>)
    requires Built(m)
    ensures var r := m.(fired := fired); Built(r) && SameRing(m, r) && SameClock(m, r)
  {
  }

  lemma ResidentAgain(arch: Arch, m: Wheel, r: Wheel, g: Truth, due: Table)
    requires Built(m) && Built(r) && SameRing(m, r) && SameClock(m, r) && ResidentBut(arch, m, g, due, null) && r.fam == m.fam
    ensures ResidentBut(arch, r, g, due, null)
  {
    hide Built, SameRing, SameClock, Findable;
    forall k | k in due && k in r.fam.at ensures Findable(arch, r, g, r.fam.at[k], due[k]) {
      ResidentStays(arch, m, r, g, r.fam.at[k], due[k]);
    }
  }

  lemma LeftIs(arch: Arch, r: Wheel, g: Truth, due: Table, left: Table)
    requires Kept(arch, r, g, left) && left.Keys <= due.Keys && forall t :: t in left ==> left[t] == due[t]
    ensures Left(due, r) == left
  {
    hide Sound, Stored, Heads, Follows, Findable;
    forall t | t in due && t in r.timers && !r.timers[t].idle ensures t in left { }
    forall t | t in left ensures t in r.timers && !r.timers[t].idle {
      ArmedParts(r, g, t, left[t]);
    }
  }

  lemma DisarmTruly(arch: Arch, m: Wheel, g: Truth, due: Table, t: Timer)
    requires Kept(arch, m, g, due) && t in m.timers
    ensures Built(m)
    ensures var r := StopTimer(m, t); Kept(arch, r, g, Left(due, r)) && Left(due, r) == due - {t}
    ensures var r := DrainTimer(m, t); Kept(arch, r, g, Left(due, r)) && Left(due, r) == due - {t}
  {
    hide Kept, Unlist, Built, Left;
    KeptParts(arch, m, g, due);
    IdleUntracked(arch, m, g, due, t);
    if m.timers[t].idle {
      assert due - {t} == due;
    } else {
      UnlistTruly(arch, m, g, due, t);
      var u := Unlist(m, t);
      FiredTruly(arch, u, g, due - {t}, m.fired + [t]);
      LeftIs(arch, u, g, due, due - {t});
      LeftIs(arch, u.(fired := m.fired + [t]), g, due, due - {t});
    }
  }

  // ---------------------------------------------------------------- runs

  /** What the events must respect, step by step. */
  ghost predicate MayApply(arch: Arch, m: Wheel, g: Truth, due: Table, e: WheelEvent) {
    && Known(m, e)
    && match e
       case ResetEvent(_, u) => u < HALF
       case ClockEvent(now) => MayTick(arch, g, due, now)
       case PollEvent(now) => MayTick(arch, g, due, now)
       case _ => true
  }

  function TruthAfter(g: Truth, e: WheelEvent): Truth {
    match e
    case ClockEvent(now) => g.(now := now)
    case PollEvent(now) => Caught(g.(now := now))
    case _ => g
  }

  /** The true deadlines of the timers armed after an event. */
  ghost function DueAfter(g: Truth, due: Table, e: WheelEvent, r: Wheel): Table {
    if e.ResetEvent? then due[e.t := g.now + e.umilsec] else Left(due, r)
  }

  lemma NothingLeft(arch: Arch, m: Wheel, g: Truth, due: Table, r: Wheel)
    requires Kept(arch, m, g, due) && r.timers == m.timers
    ensures Left(due, r) == due
  {
    KeptParts(arch, m, g, due);
    hide Kept;
  }

  /** Every event keeps all armed timers where they will be found. */
  lemma ApplyTruly(arch: Arch, m: Wheel, g: Truth, due: Table, e: WheelEvent)
    requires Kept(arch, m, g, due) && MayApply(arch, m, g, due, e)
    ensures Built(m) && Known(m, Narrow(arch, e))
    ensures var r := Apply(arch, m, Narrow(arch, e)); Kept(arch, r, TruthAfter(g, e), DueAfter(g, due, e, r))
  {
    hide Kept, Reset, StopTimer, DrainTimer, Poll, Left, Built, MayTick, Caught;
    KeptParts(arch, m, g, due);
    NotIdeal(arch, m, g, due);
    match e
    case ResetEvent(t, u) => ResetTruly(arch, m, g, due, t, u);
    case StopEvent(t) => DisarmTruly(arch, m, g, due, t);
    case DrainEvent(t) => DisarmTruly(arch, m, g, due, t);
    case ClockEvent(now) =>
      Ticks(arch, m, g, due, now);
      NothingLeft(arch, m, g, due, m.(ticks := now % WORD32));
    case PollEvent(now) => PollTruly(arch, m, g, due, now);
  }

  lemma NotIdeal(arch: Arch, m: Wheel, g: Truth, due: Table)
    requires Kept(arch, m, g, due)
    ensures arch != Ideal
  {
    hide Sound, Stored, Heads, Listed, Findable;
  }

  /** The events lead the machine's ring from m to r, and the truth from g and due to k and left. */
  ghost predicate TrueRun(arch: Arch, m: Wheel, g: Truth, due: Table, es: seq<WheelEvent>, r: Wheel, k: Truth, left: Table)
    decreases |es|
  {
    if es == [] then r == m && k == g && left == due
    else
      && Built(m) && MayApply(arch, m, g, due, es[0]) && Known(m, Narrow(arch, es[0]))
      && var n := Apply(arch, m, Narrow(arch, es[0]));
      TrueRun(arch, n, TruthAfter(g, es[0]), DueAfter(g, due, es[0], n), es[1..], r, k, left)
  }

  lemma {:induction false} RunTruly(arch: Arch, m: Wheel, g: Truth, due: Table, es: seq<WheelEvent>, r: Wheel, k: Truth, left: Table)
    requires Kept(arch, m, g, due) && TrueRun(arch, m, g, due, es, r, k, left)
    ensures Kept(arch, r, k, left)
    decreases |es|
  {
    if es != [] {
      hide Kept, MayApply, Apply, Narrow, Known, DueAfter, TruthAfter, Built;
      ApplyTruly(arch, m, g, due, es[0]);
      var n := Apply(arch, m, Narrow(arch, es[0]));
      RunTruly(arch, n, TruthAfter(g, es[0]), DueAfter(g, due, es[0], n), es[1..], r, k, left);
    }
  }

  // ---------------------------------------------------------------- where the runs start

  /** The truth about a ring created at the clock reading x, from which the true clock is counted. */
  function Started(x: int): Truth { Truth(x, x, x, x) }

  lemma NewKept(arch: Arch, m: Wheel, x: int)
    requires arch != Ideal && NewRing(m, x) && 0 <= x < WORD32 && Stored(arch, m)
    ensures Kept(arch, m, Started(x), map[])
  {
    NewRingTimely(m, x);
    NewFollows(arch, m, x);
    hide Sound, Stored, Follows, OnTime, Clock;
  }

  lemma NewFollows(arch: Arch, m: Wheel, x: int)
    requires arch != Ideal && 0 <= x < WORD32 && m.ticks == m.miTick == m.maTick == m.stTick == x
    ensures Follows(arch, m, Started(x))
  {
  }

  /** Over every run of a new ring, however old it has become: at each poll no timer fires fifteen ticks or more before
      its deadline, and none is left armed 749 ticks or more after it (45000, if the deadline lies beyond 2^32 and
      size_t has 64 bits). */
  lemma NeverLate(arch: Arch, m: Wheel, x: int, es: seq<WheelEvent>, a: Wheel, g: Truth, due: Table, now: int, t: Timer)
    requires arch != Ideal && NewRing(m, x) && 0 <= x < WORD32 && Stored(arch, m)
    requires TrueRun(arch, m, Started(x), map[], es, a, g, due) && MayTick(arch, g, due, now) && t in due
    ensures Built(a) && t in a.timers && !a.timers[t].idle && a.timers[t].interval == due[t] % WORD32
    ensures var r := Poll(arch, a, now % WORD32);
            && t in r.timers && (r.timers[t].idle ==> due[t] < now + MIN_TIME_OUT)
            && (!r.timers[t].idle ==> due[t] > now - if arch == Size64 && due[t] >= WORD32 then 45000 else 749)
  {
    hide NewRing, Kept, TrueRun, MayTick, Poll, Stored;
    NewKept(arch, m, x);
    RunTruly(arch, m, Started(x), map[], es, a, g, due);
    TrackedOne(arch, a, g, due, t);
    PollTruly(arch, a, g, due, now);
  }

  lemma TrackedOne(arch: Arch, a: Wheel, g: Truth, due: Table, t: Timer)
    requires Kept(arch, a, g, due) && t in due
    ensures Built(a) && t in a.timers && !a.timers[t].idle && a.timers[t].interval == due[t] % WORD32
  {
    KeptParts(arch, a, g, due);
    hide Sound, Stored, Heads, Follows, Findable;
  }

  /** Polls close enough to each other are never outrun: after one, the clock may go on for 2^31 - 765 ticks, or for
      2^31 - 45014 while a 64-bit size_t has timers beyond 2^32. */
  lemma MayTickAfter(arch: Arch, g: Truth, due: Table, now: int)
    requires g.now < g.ma + MIN_MA_TIMER && g.now - g.st < MIN_ST_TIMER
    requires g.now <= now <= g.now + HALF - MIN_MA_TIMER - MIN_TIME_OUT && (arch == Size64 ==> now < WORD64 / 2)
    requires now <= g.now + HALF - MIN_ST_TIMER - MIN_TIME_OUT + 1 || forall t :: t in due ==> !Wide(arch, due[t])
    ensures MayTick(arch, g, due, now)
  {
  }

  /** The rings of the simulation are such starts too, unless their clock has outrun them. */
  lemma FitsKept(arch: Arch, s: Wheel)
    requires arch != Ideal && Fits(arch, s) && Close(arch, Truth(s.ticks, s.miTick, s.maTick, s.stTick))
    ensures Kept(arch, Image(arch, s), Truth(s.ticks, s.miTick, s.maTick, s.stTick), Flat(s))
  {
    hide Sound, Timely, Room, Ahead, Stored, Heads, Listed, Findable, Follows, Image;
    NearOfAhead(arch, s);
    ImageSound(arch, s);
    ImageHeads(arch, s);
    ImageFollows(arch, s);
    ImageListed(arch, s);
    ImageResident(arch, s);
  }

  lemma ImageHeads(arch: Arch, s: Wheel)
    requires Timely(s)
    ensures Heads(s) && Heads(Image(arch, s))
  {
    hide OnTime, Clock;
    HeadsAgain(s, Image(arch, s));
  }

  lemma HeadsAgain(s: Wheel, r: Wheel)
    requires Heads(s) && r.mi == s.mi && r.ma == s.ma && r.st == s.st && r.fam == s.fam
    ensures Heads(r)
  {
  }

  lemma ImageFollows(arch: Arch, s: Wheel)
    requires arch != Ideal && Timely(s) && Room(arch, s) && Close(arch, Truth(s.ticks, s.miTick, s.maTick, s.stTick))
    ensures Follows(arch, Image(arch, s), Truth(s.ticks, s.miTick, s.maTick, s.stTick))
  {
    hide StoredTimers, Size, Unsigned, Heads;
    TimelyClock(s);
    CommonOrigin(s);
    ImageClock(arch, s);
    hide Timely, Image;
    if arch == Size64 { SizeSmall(arch, s.stTick); }
    StoredTick(arch, s.ticks, s.stTick);
  }

  lemma StoredTick(arch: Arch, ticks: int, st: int)
    requires arch != Ideal
    ensures Unsigned(arch, ticks) == ticks % WORD32 && (arch == Size32 || 0 <= st < WORD32 ==> Size(arch, st) == st % WORD32)
  {
  }

  lemma CommonOrigin(s: Wheel)
    requires Clock(s)
    ensures (s.miTick - s.maTick) % MIN_TIME_OUT == 0
  {
    assert s.miTick - s.maTick == MIN_TIME_OUT * (s.miWheel - MAX_MI_WHEEL * s.maWheel);
  }

  lemma ImageListed(arch: Arch, s: Wheel)
    requires Sound(s) && AllNear(arch, s) && arch != Ideal
    ensures Listed(Image(arch, s), Truth(s.ticks, s.miTick, s.maTick, s.stTick), Flat(s))
  {
    hide WellFormed;
    var m, g := Image(arch, s), Truth(s.ticks, s.miTick, s.maTick, s.stTick);
    forall t | t in Flat(s) ensures Armed(m, g, t, Flat(s)[t]) {
      assert Near(arch, s, s.timers[t].interval);
    }
  }

  lemma ImageResident(arch: Arch, s: Wheel)
    requires arch != Ideal && Sound(s) && Timely(s) && Room(arch, s) && Ahead(arch, s)
    ensures Built(Image(arch, s))
    ensures ResidentBut(arch, Image(arch, s), Truth(s.ticks, s.miTick, s.maTick, s.stTick), Flat(s), null)
  {
    var m, g := Image(arch, s), Truth(s.ticks, s.miTick, s.maTick, s.stTick);
    forall t | t in Flat(s) && t in m.fam.at ensures Findable(arch, m, g, m.fam.at[t], Flat(s)[t]) {
      Located(s, t);
      assert OnTime(s, s.fam.at[t], s.timers[t].interval);
      ResidentImage(arch, s, s.fam.at[t], s.timers[t].interval);
    }
  }

  lemma ResidentImage(arch: Arch, s: Wheel, h: Timer, d: int)
    requires arch != Ideal && Built(s) && Room(arch, s) && OnTime(s, h, d) && !Wide(arch, d)
    requires (exists k :: 0 <= k < MAX_MI_WHEEL && s.mi[k] == h) || (exists k :: 0 <= k < MAX_MA_WHEEL && s.ma[k] == h) || h == s.st
    ensures Built(Image(arch, s)) && Findable(arch, Image(arch, s), Truth(s.ticks, s.miTick, s.maTick, s.stTick), h, d)
  {
    hide StoredTimers, Size;
    WheelSmall(arch, s);
    hide Room;
    var m, g := Image(arch, s), Truth(s.ticks, s.miTick, s.maTick, s.stTick);
    if k :| 0 <= k < MAX_MI_WHEEL && s.mi[k] == h {
      assert FineFits(s, k, d);
      SizeSmall(arch, s.miWheel + FineGap(s, k));
      GapBack50(s.miWheel, k);
      assert FineAt(arch, m, g, h, d, FineGap(s, k));
    } else if k :| 0 <= k < MAX_MA_WHEEL && s.ma[k] == h {
      assert CoarseFits(s, k, d);
      SizeSmall(arch, s.maWheel + CoarseGap(s, k));
      GapBack60(s.maWheel, k);
      assert CoarseAt(arch, m, g, h, d, CoarseGap(s, k));
    }
  }

  lemma GapBack50(w: int, k: int)
    requires 0 <= k < 50
    ensures (w + (k - w) % 50) % 50 == k
  {
    Mod50(k, -((k - w) / 50));
  }

  lemma GapBack60(w: int, k: int)
    requires 0 <= k < 60
    ensures (w + (k - w) % 60) % 60 == k
  {
    Mod60(k, -((k - w) / 60));
  }
}
