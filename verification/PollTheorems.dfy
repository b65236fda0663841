/** What one poll fires, exactly, and what a run of the wheel promises. */
module PollTheorems {
  import opened IntrusiveList
  import opened WheelModel
  import opened WheelProofs
  import opened WheelTheorems

  // ---------------------------------------------------------------- the overflow list

  lemma RescanReady(s: Wheel)
    requires Timely(s) && s.ticks < s.maTick + MIN_MA_TIMER
    ensures var a := s.(stTick := s.ticks);
            && Heads(a) && Clock(a)
            && forall t :: t in a.fam.at && t in a.timers && a.fam.at[t] != a.st ==>
                 OnTime(a, a.fam.at[t], a.timers[t].interval)
  {
    var a := s.(stTick := s.ticks);
    HeadsStay(s, a);
    forall t | t in a.fam.at && t in a.timers && a.fam.at[t] != a.st
      ensures OnTime(a, a.fam.at[t], a.timers[t].interval)
    {
      hide Heads;
      assert OnTime(s, s.fam.at[t], s.timers[t].interval);
      assert forall k :: FineFits(s, k, s.timers[t].interval) ==> FineFits(a, k, s.timers[t].interval);
      assert forall k :: CoarseFits(s, k, s.timers[t].interval) ==> CoarseFits(a, k, s.timers[t].interval);
    }
  }

  /** Still armed, with the same deadline, wherever it is now. */
  ghost predicate StillArmed(s: Wheel, r: Wheel, t: Timer) {
    t in s.timers && t in r.timers && t in r.fam.at && r.timers[t] == s.timers[t].(idle := false)
  }

  /** A rescan fires the due timers of the overflow list and files the others again. */
  ghost predicate Rescanned(s: Wheel, r: Wheel) {
    forall t :: t in s.timers ==>
      if t in s.fam.at && s.fam.at[t] == s.st && OverflowDue(Ideal, s) then
        if s.timers[t].interval < s.ticks + MIN_TIME_OUT then Gone(s, r, t) else StillArmed(s, r, t)
      else Untouched(s, r, t)
  }

  lemma RescanDue(s: Wheel)
    requires Sound(s) && Timely(s) && s.ticks < s.maTick + MIN_MA_TIMER
    ensures var r := SweepList(Ideal, s.(stTick := s.ticks), s.st);
            && Sound(r) && Timely(r)
            && forall t :: t in s.timers ==>
                 if t in s.fam.at && s.fam.at[t] == s.st then
                   if s.timers[t].interval < s.ticks + MIN_TIME_OUT then Gone(s, r, t) else StillArmed(s, r, t)
                 else Untouched(s, r, t)
  {
    var a := s.(stTick := s.ticks);
    var r := SweepList(Ideal, a, a.st);
    AdvancedSound(s, a);
    RescanReady(s);
    SweepTimely(a, a.st);
    IdealStored(a);
    SweepListIs(Ideal, a, a.st);
    ListMembers(a, a.st);
    hide Sound, Timely, Heads, OnTime, SweepList, Stored, Swept, Distinct, Place, Clock;
    forall t | t in s.timers
      ensures if t in s.fam.at && s.fam.at[t] == s.st then
                if s.timers[t].interval < s.ticks + MIN_TIME_OUT then Gone(s, r, t) else StillArmed(s, r, t)
              else Untouched(s, r, t)
    {
      SweptOne(a, a.st, r, t);
    }
  }

  lemma RescanIs(s: Wheel)
    requires Sound(s) && Timely(s) && s.ticks < s.maTick + MIN_MA_TIMER
    ensures var r := Rescan(Ideal, s);
            && Sound(r) && Timely(r) && Rescanned(s, r)
            && r.ticks - r.stTick < MIN_ST_TIMER
            && r.stTick == (if OverflowDue(Ideal, s) then s.ticks else s.stTick)
            && SameClock(s.(stTick := r.stTick), r)
  {
    hide Sound, Timely, SweepList, Gone, StillArmed;
    RescanDue(s);
    assert !OverflowDue(Ideal, s) ==> Rescanned(s, s);
  }

  // ---------------------------------------------------------------- one poll

  /** The timers a poll at `now` fires, told from where they sit before it. */
  ghost predicate PollFires(s: Wheel, now: int, t: Timer)
    requires Built(s)
  {
    && t in s.fam.at && t in s.timers
    && (|| (exists k :: 0 <= k < MAX_MI_WHEEL && s.mi[k] == s.fam.at[t] && FineSlot(s, k) <= now)
        || (s.timers[t].interval < now + MIN_TIME_OUT
            && exists k :: 0 <= k < MAX_MA_WHEEL && s.ma[k] == s.fam.at[t] && CoarseSlot(s, k) <= now)
        || (s.timers[t].interval < now + MIN_TIME_OUT && s.fam.at[t] == s.st && now - s.stTick >= MIN_ST_TIMER))
  }

  lemma Ticked(s: Wheel, now: int)
    requires Sound(s) && Timely(s) && s.ticks <= now
    ensures Sound(s.(ticks := now)) && Timely(s.(ticks := now))
  {
    var a := s.(ticks := now);
    AdvancedSound(s, a);
    HeadsStay(s, a);
    forall t | t in a.fam.at && t in a.timers ensures OnTime(a, a.fam.at[t], a.timers[t].interval) {
      hide Heads;
      assert OnTime(s, s.fam.at[t], s.timers[t].interval);
      assert forall k :: FineFits(s, k, s.timers[t].interval) ==> FineFits(a, k, s.timers[t].interval);
      assert forall k :: CoarseFits(s, k, s.timers[t].interval) ==> CoarseFits(a, k, s.timers[t].interval);
    }
  }

  /** A poll fires exactly those timers; all others stay armed or idle with their deadline, and the
      wheel is timely again. */
  lemma PollIs(s: Wheel, now: int)
    requires Sound(s) && Timely(s) && s.ticks <= now
    ensures var r := Poll(Ideal, s, now);
            && Sound(r) && Timely(r) && r.ticks == now
            && now < r.miTick + MIN_TIME_OUT && now < r.maTick + MIN_MA_TIMER && now - r.stTick < MIN_ST_TIMER
            && r.stTick == (if now - s.stTick >= MIN_ST_TIMER then now else s.stTick)
            && (forall t :: t in s.timers && PollFires(s, now, t) ==> Gone(s, r, t))
            && (forall t :: t in s.timers && !PollFires(s, now, t) ==>
                  && r.timers[t] == s.timers[t] && (t in r.fam.at <==> t in s.fam.at)
                  && (InWheel(s, t) ==> InWheel(r, t)))
  {
    var a := s.(ticks := now);
    Ticked(s, now);
    var f := FineTurns(Ideal, a);
    FineTurnsAre(a);
    var c := CoarseTurns(Ideal, f);
    CoarseTurnsAre(f);
    RescanIs(c);
    var r := Rescan(Ideal, c);
    forall t | t in s.timers ensures Polled(s, now, r, t) {
      hide Sound, FineTurns, CoarseTurns, Rescan;
      PollOne(s, now, a, f, c, r, t);
    }
  }

  lemma Located(s: Wheel, t: Timer)
    requires Sound(s) && Heads(s) && t in s.fam.at
    ensures (exists k :: 0 <= k < MAX_MI_WHEEL && s.mi[k] == s.fam.at[t])
         || (exists k :: 0 <= k < MAX_MA_WHEEL && s.ma[k] == s.fam.at[t]) || s.fam.at[t] == s.st
  {
  }

  lemma FiresFine(s: Wheel, now: int, t: Timer, k: int)
    requires Heads(s) && t in s.fam.at && t in s.timers && 0 <= k < MAX_MI_WHEEL && s.mi[k] == s.fam.at[t]
    ensures PollFires(s, now, t) <==> FineSlot(s, k) <= now
    ensures s.fam.at[t] !in s.ma && s.fam.at[t] != s.st
  {
    assert s.mi[k] in s.mi;
    assert forall j :: 0 <= j < MAX_MA_WHEEL ==> s.ma[j] != s.mi[k];
  }

  lemma FiresCoarse(s: Wheel, now: int, t: Timer, k: int)
    requires Heads(s) && t in s.fam.at && t in s.timers && 0 <= k < MAX_MA_WHEEL && s.ma[k] == s.fam.at[t]
    ensures PollFires(s, now, t) <==> CoarseSlot(s, k) <= now && s.timers[t].interval < now + MIN_TIME_OUT
    ensures s.fam.at[t] !in s.mi && s.fam.at[t] != s.st
  {
    assert s.ma[k] in s.ma;
    assert forall j :: 0 <= j < MAX_MI_WHEEL ==> s.mi[j] != s.ma[k];
  }

  lemma FiresOverflow(s: Wheel, now: int, t: Timer)
    requires Heads(s) && t in s.fam.at && t in s.timers && s.st == s.fam.at[t]
    ensures PollFires(s, now, t) <==> now - s.stTick >= MIN_ST_TIMER && s.timers[t].interval < now + MIN_TIME_OUT
    ensures s.st !in s.mi && s.st !in s.ma
  {
  }

  /** The three phases of a poll, with the clock values each leaves to the next. */
  ghost predicate Phases(s: Wheel, now: int, a: Wheel, f: Wheel, c: Wheel, r: Wheel) {
    && Built(s) && a == s.(ticks := now)
    && Built(f) && SameRing(a, f) && f.ticks == now && f.maTick == s.maTick && f.maWheel == s.maWheel && f.stTick == s.stTick
    && Built(c) && SameRing(f, c) && c.ticks == now && c.stTick == s.stTick
    && Built(r) && SameRing(c, r)
    && FineCaughtUp(a, f) && CoarseCaughtUp(f, c) && Rescanned(c, r)
  }

  /** The timer sits in one of the two wheels. */
  ghost predicate InWheel(s: Wheel, t: Timer) {
    t in s.fam.at && (s.fam.at[t] in s.mi || s.fam.at[t] in s.ma)
  }

  lemma FineSkips(a: Wheel, f: Wheel, t: Timer)
    requires Built(a) && FineCaughtUp(a, f) && t in a.timers && (t !in a.fam.at || a.fam.at[t] !in a.mi)
    ensures Untouched(a, f, t)
  {
  }

  lemma FineTakes(a: Wheel, f: Wheel, t: Timer, k: int)
    requires Built(a) && FineCaughtUp(a, f) && t in a.timers && t in a.fam.at
    requires 0 <= k < MAX_MI_WHEEL && a.fam.at[t] == a.mi[k]
    ensures if FineSlot(a, k) <= a.ticks then Gone(a, f, t) else Untouched(a, f, t)
  {
  }

  lemma CoarseSkips(f: Wheel, c: Wheel, t: Timer)
    requires Built(f) && CoarseCaughtUp(f, c) && t in f.timers && (t !in f.fam.at || f.fam.at[t] !in f.ma)
    ensures Untouched(f, c, t)
  {
  }

  lemma CoarseTakes(f: Wheel, c: Wheel, t: Timer, k: int)
    requires Built(f) && CoarseCaughtUp(f, c) && t in f.timers && t in f.fam.at
    requires 0 <= k < MAX_MA_WHEEL && f.fam.at[t] == f.ma[k]
    ensures if CoarseSlot(f, k) <= f.ticks then Unloaded(f, c, t) else Untouched(f, c, t)
  {
  }

  lemma RescanSkips(c: Wheel, r: Wheel, t: Timer)
    requires Rescanned(c, r) && t in c.timers && (t !in c.fam.at || c.fam.at[t] != c.st)
    ensures Untouched(c, r, t)
  {
  }

  lemma PollFine(s: Wheel, now: int, a: Wheel, f: Wheel, c: Wheel, r: Wheel, t: Timer, k: int)
    requires Phases(s, now, a, f, c, r) && t in s.timers && t in s.fam.at
    requires 0 <= k < MAX_MI_WHEEL && s.mi[k] == s.fam.at[t] && s.mi[k] !in s.ma && s.mi[k] != s.st
    ensures if FineSlot(s, k) <= now then Gone(s, r, t) else Untouched(s, r, t)
  {
    hide FineCaughtUp, CoarseCaughtUp, Rescanned;
    FineTakes(a, f, t, k);
    assert FineSlot(a, k) == FineSlot(s, k);
    hide FineSlot;
    CoarseSkips(f, c, t);
    RescanSkips(c, r, t);
  }

  lemma PollCoarse(s: Wheel, now: int, a: Wheel, f: Wheel, c: Wheel, r: Wheel, t: Timer, k: int)
    requires Phases(s, now, a, f, c, r) && t in s.timers && t in s.fam.at && !s.timers[t].idle
    requires 0 <= k < MAX_MA_WHEEL && s.ma[k] == s.fam.at[t] && s.ma[k] !in s.mi && s.ma[k] != s.st
    requires s.st !in s.mi
    requires s.st !in s.ma
    ensures if CoarseSlot(s, k) <= now && s.timers[t].interval < now + MIN_TIME_OUT then Gone(s, r, t)
            else r.timers[t] == s.timers[t] && t in r.fam.at && InWheel(r, t)
  {
    hide FineCaughtUp, CoarseCaughtUp, Rescanned;
    FineSkips(a, f, t);
    CoarseTakes(f, c, t, k);
    assert CoarseSlot(f, k) == CoarseSlot(s, k);
    hide CoarseSlot;
    RescanSkips(c, r, t);
  }

  lemma PollOverflow(s: Wheel, now: int, a: Wheel, f: Wheel, c: Wheel, r: Wheel, t: Timer)
    requires Phases(s, now, a, f, c, r) && t in s.timers && t in s.fam.at && !s.timers[t].idle
    requires s.st == s.fam.at[t] && s.st !in s.mi && s.st !in s.ma
    ensures if now - s.stTick >= MIN_ST_TIMER && s.timers[t].interval < now + MIN_TIME_OUT then Gone(s, r, t)
            else r.timers[t] == s.timers[t] && t in r.fam.at
  {
    hide FineCaughtUp, CoarseCaughtUp;
    FineSkips(a, f, t);
    CoarseSkips(f, c, t);
  }

  lemma PollIdle(s: Wheel, now: int, a: Wheel, f: Wheel, c: Wheel, r: Wheel, t: Timer)
    requires Phases(s, now, a, f, c, r) && t in s.timers && t !in s.fam.at
    ensures Untouched(s, r, t)
  {
    hide FineCaughtUp, CoarseCaughtUp, Rescanned;
    FineSkips(a, f, t);
    CoarseSkips(f, c, t);
    RescanSkips(c, r, t);
  }

  /** Fired, or left as it is; and one that is left in a wheel is still in one. */
  ghost predicate Polled(s: Wheel, now: int, r: Wheel, t: Timer)
    requires Built(s)
  {
    && t in s.timers && t in r.timers
    && (if PollFires(s, now, t) then Gone(s, r, t)
        else r.timers[t] == s.timers[t] && (t in r.fam.at <==> t in s.fam.at) && (InWheel(s, t) ==> InWheel(r, t)))
  }

  lemma PollOne(s: Wheel, now: int, a: Wheel, f: Wheel, c: Wheel, r: Wheel, t: Timer)
    requires Sound(s) && Heads(s) && Built(s) && Phases(s, now, a, f, c, r) && t in s.timers
    ensures Polled(s, now, r, t)
  {
    SameKeys(s, now, a, f, c, r);
    hide Sound, Heads, Phases, FineSlot, CoarseSlot, PollFires, Untouched, Gone, Built;
    ArmedIff(s, t);
    if t !in s.fam.at {
      FiresArmed(s, now, t);
      PollIdle(s, now, a, f, c, r, t);
      IdleStays(s, r, t);
    } else {
      Located(s, t);
      if k :| 0 <= k < MAX_MI_WHEEL && s.mi[k] == s.fam.at[t] {
        FiresFine(s, now, t, k);
        PollFine(s, now, a, f, c, r, t, k);
        IdleStays(s, r, t);
      } else if k :| 0 <= k < MAX_MA_WHEEL && s.ma[k] == s.fam.at[t] {
        FiresCoarse(s, now, t, k);
        StNotMi(s);
        PollCoarse(s, now, a, f, c, r, t, k);
      } else {
        FiresOverflow(s, now, t);
        PollOverflow(s, now, a, f, c, r, t);
        NotInWheel(s, t);
      }
    }
  }

  lemma NotInWheel(s: Wheel, t: Timer)
    requires t in s.fam.at && s.fam.at[t] == s.st && s.st !in s.mi && s.st !in s.ma
    ensures !InWheel(s, t)
  {
  }

  lemma SameKeys(s: Wheel, now: int, a: Wheel, f: Wheel, c: Wheel, r: Wheel)
    requires Phases(s, now, a, f, c, r)
    ensures r.timers.Keys == s.timers.Keys && r.mi == s.mi && r.ma == s.ma && r.st == s.st
  {
    hide FineCaughtUp, CoarseCaughtUp, Rescanned, Built;
  }

  lemma ArmedIff(s: Wheel, t: Timer)
    requires Sound(s) && t in s.timers
    ensures Built(s) && (t in s.fam.at <==> !s.timers[t].idle)
  {
  }

  lemma FiresArmed(s: Wheel, now: int, t: Timer)
    requires Built(s) && t !in s.fam.at
    ensures !PollFires(s, now, t)
  {
  }

  lemma IdleStays(s: Wheel, r: Wheel, t: Timer)
    requires t in s.timers
    ensures Untouched(s, r, t) ==> t in r.timers && r.timers[t] == s.timers[t] && (t in r.fam.at <==> t in s.fam.at)
    ensures Untouched(s, r, t) && r.mi == s.mi && r.ma == s.ma && InWheel(s, t) ==> InWheel(r, t)
  {
  }

  lemma StNotMi(s: Wheel)
    requires Heads(s)
    ensures s.st !in s.mi && s.st !in s.ma
  {
  }

  // ---------------------------------------------------------------- how early and how late

  /** No timer fires fifteen ticks or more before its deadline, and none survives a poll 749 ticks
      or more after it. */
  lemma PollBounds(s: Wheel, now: int, t: Timer)
    requires Sound(s) && Timely(s) && t in s.timers && t in s.fam.at
    ensures PollFires(s, now, t) ==> s.timers[t].interval < now + MIN_TIME_OUT
    ensures s.timers[t].interval <= now - 749 ==> PollFires(s, now, t)
  {
    Located(s, t);
    assert OnTime(s, s.fam.at[t], s.timers[t].interval);
    hide Sound, Timely;
    if k :| 0 <= k < MAX_MI_WHEEL && s.mi[k] == s.fam.at[t] {
      FiresFine(s, now, t, k);
    } else if k :| 0 <= k < MAX_MA_WHEEL && s.ma[k] == s.fam.at[t] {
      FiresCoarse(s, now, t, k);
    } else {
      FiresOverflow(s, now, t);
    }
  }

  /** A timer in a wheel fires at the latest at the first poll fifteen ticks after its deadline. */
  lemma WheelPunctual(s: Wheel, now: int, t: Timer)
    requires Timely(s) && t in s.timers && InWheel(s, t) && s.timers[t].interval <= now - MIN_TIME_OUT
    ensures PollFires(s, now, t)
  {
    assert OnTime(s, s.fam.at[t], s.timers[t].interval);
    assert Heads(s);
    hide Timely, Heads;
    if s.fam.at[t] in s.mi {
      var k :| 0 <= k < MAX_MI_WHEEL && s.mi[k] == s.fam.at[t];
      assert FineFits(s, k, s.timers[t].interval);
    } else {
      var k :| 0 <= k < MAX_MA_WHEEL && s.ma[k] == s.fam.at[t];
      assert CoarseFits(s, k, s.timers[t].interval);
    }
  }

  /** Where a timer still armed after a poll may be, and how its deadline compares with the clock. */
  lemma SurvivorBounds(s: Wheel, now: int, t: Timer)
    requires Sound(s) && Timely(s) && s.ticks <= now
    requires var r := Poll(Ideal, s, now); t in r.timers && t in r.fam.at
    ensures var r := Poll(Ideal, s, now);
            var d := r.timers[t].interval;
            || (r.fam.at[t] in r.mi && d > now - MIN_TIME_OUT)
            || (r.fam.at[t] in r.ma && d > now)
            || (r.fam.at[t] == r.st && d > now - 749)
  {
    hide Poll;
    PollIs(s, now);
    var r := Poll(Ideal, s, now);
    Located(r, t);
    assert OnTime(r, r.fam.at[t], r.timers[t].interval);
    hide Sound, Timely;
    if k :| 0 <= k < MAX_MI_WHEEL && r.mi[k] == r.fam.at[t] {
      assert FineFits(r, k, r.timers[t].interval);
    } else if k :| 0 <= k < MAX_MA_WHEEL && r.ma[k] == r.fam.at[t] {
      assert CoarseFits(r, k, r.timers[t].interval);
    }
  }

  /** That a timer whose deadline has come fires at the next poll is false of the code. It stays armed
      exactly in two cases: it sits in a fine slot that has not come up, or on the overflow list
      before the next rescan. */
  lemma OverdueSurvivesIff(s: Wheel, now: int, t: Timer)
    requires Sound(s) && Timely(s) && t in s.timers && t in s.fam.at && s.timers[t].interval <= now
    ensures !PollFires(s, now, t) <==>
              || (exists k :: 0 <= k < MAX_MI_WHEEL && s.mi[k] == s.fam.at[t] && FineSlot(s, k) > now)
              || (s.fam.at[t] == s.st && now - s.stTick < MIN_ST_TIMER)
  {
    Located(s, t);
    assert OnTime(s, s.fam.at[t], s.timers[t].interval);
    hide Sound, Timely;
    if k :| 0 <= k < MAX_MI_WHEEL && s.mi[k] == s.fam.at[t] {
      FiresFine(s, now, t, k);
      OnlySlot(s, k);
    } else if k :| 0 <= k < MAX_MA_WHEEL && s.ma[k] == s.fam.at[t] {
      FiresCoarse(s, now, t, k);
      assert CoarseFits(s, k, s.timers[t].interval);
    } else {
      FiresOverflow(s, now, t);
    }
  }

  lemma OnlySlot(s: Wheel, k: int)
    requires Heads(s) && 0 <= k < MAX_MI_WHEEL
    ensures forall j :: 0 <= j < MAX_MI_WHEEL && s.mi[j] == s.mi[k] ==> j == k
  {
  }

}
