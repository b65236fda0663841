/** The exact conditions under which one test, one drained timer, one reset and one poll over machine integers
    have the effect they have over unbounded ones, with inputs that miss them. */
module WheelGaps {
  import opened WheelModel
  import opened WheelProofs
  import opened WheelTheorems
  import opened PollTheorems
  import opened WheelRuns
  import opened WheelWidth
  import opened WheelWrap

  // ---------------------------------------------------------------- the signed tests

  /** A cast to int keeps the sign of x: x lies an even number of halves of the range from 0 upwards, or an odd
      number below it. */
  predicate SignKept(x: int) { x / HALF % 2 == if x < 0 then 1 else 0 }

  /** Less than 2^32 away from 0 these are the values an int can hold. */
  lemma SignKeptIff(x: int)
    requires -WORD32 <= x < WORD32
    ensures SignKept(x) <==> -HALF <= x < HALF
  {
  }

  lemma HalfParity(x: int)
    ensures x % WORD32 < HALF <==> x / HALF % 2 == 0
  {
    var h := x / HALF;
    var r := x - h * HALF;
    if h % 2 == 0 {
      assert x == h / 2 * WORD32 + r;
      Mod32(x, h / 2);
    } else {
      assert x == h / 2 * WORD32 + HALF + r;
      Mod32(x, h / 2);
    }
  }

  lemma SignIff(arch: Arch, x: int, y: int, q: int)
    requires arch != Ideal && y == x + q * WORD32
    ensures (Signed(arch, y) < 0) == (x < 0) <==> SignKept(x)
  {
    Shift32(x, q);
    HalfParity(x);
  }

  /** The firing test agrees with the ideal one if and only if the cast keeps the sign of the time left. */
  lemma FiresIff(arch: Arch, s: Wheel, t: Timer)
    requires arch != Ideal && t in s.timers
    ensures t in Image(arch, s).timers
    ensures Fires(arch, Image(arch, s), t) == Fires(Ideal, s, t) <==> SignKept(s.timers[t].interval - s.ticks - MIN_TIME_OUT)
  {
    var d, x := s.timers[t].interval, s.ticks;
    SignIff(arch, d - x - MIN_TIME_OUT, d % WORD32 - x % WORD32 - MIN_TIME_OUT, x / WORD32 - d / WORD32);
    hide Signed, SignKept;
    SignedExact();
  }

  lemma DueIs(arch: Arch, ticks: int, tick: int, c: int)
    requires arch != Ideal
    ensures (Signed(arch, Unsigned(arch, ticks) - Size(arch, tick) - c) < 0) == (ticks - tick - c < 0) <==> SignKept(ticks - tick - c)
  {
    SizeQuotient(arch, tick);
    SignIff(arch, ticks - tick - c, ticks % WORD32 - Size(arch, tick) - c, (tick - Size(arch, tick)) / WORD32 - ticks / WORD32);
  }

  /** So do the three tests of a poll, each for its own distance. */
  lemma DueIff(arch: Arch, s: Wheel)
    requires arch != Ideal
    ensures FineDue(arch, Image(arch, s)) == FineDue(Ideal, s) <==> SignKept(s.ticks - s.miTick - MIN_TIME_OUT)
    ensures CoarseDue(arch, Image(arch, s)) == CoarseDue(Ideal, s) <==> SignKept(s.ticks - s.maTick - MIN_MA_TIMER)
    ensures OverflowDue(arch, Image(arch, s)) == OverflowDue(Ideal, s) <==> SignKept(s.ticks - s.stTick - MIN_ST_TIMER)
  {
    hide Signed, Unsigned, Size, Image, SignKept;
    DueIs(arch, s.ticks, s.miTick, MIN_TIME_OUT);
    DueIs(arch, s.ticks, s.maTick, MIN_MA_TIMER);
    DueIs(arch, s.ticks, s.stTick, MIN_ST_TIMER);
    SignedExact();
    ImageClock(arch, s);
  }

  // ---------------------------------------------------------------- one drained timer, one reset

  /** A drain loop treats a timer as over unbounded integers if and only if the firing test agrees and, when it does
      not fire, it goes to the same list. */
  lemma HandleImageIff(arch: Arch, s: Wheel, t: Timer)
    requires arch != Ideal && Built(s) && t in s.timers
    ensures t in Image(arch, s).timers
    ensures Handle(arch, Image(arch, s), t) == Image(arch, Handle(Ideal, s, t))
       <==> && SignKept(s.timers[t].interval - s.ticks - MIN_TIME_OUT)
            && (s.timers[t].interval < s.ticks + MIN_TIME_OUT || PlacedAlike(arch, s, s.timers[t].interval))
  {
    hide Fires, Unlist, Image, Enlist, PlacedAlike, SignKept, Unsigned, Built;
    FiresIff(arch, s, t);
    ImageFields(arch, s, t);
    FireImage(arch, s, t);
    RearmImage(arch, s, t);
    FiresIdeal(s, t);
    IdealExact();
    HandledFired(arch, Image(arch, s), t);
    HandledFired(Ideal, s, t);
    ImageFired(arch, Handle(Ideal, s, t));
    ImageFired(arch, s);
  }

  lemma FiresIdeal(s: Wheel, t: Timer)
    requires t in s.timers
    ensures Fires(Ideal, s, t) <==> s.timers[t].interval < s.ticks + MIN_TIME_OUT
  {
  }

  lemma HandledFired(arch: Arch, s: Wheel, t: Timer)
    requires Built(s) && t in s.timers
    ensures |Handle(arch, s, t).fired| == |s.fired| + if Fires(arch, s, t) then 1 else 0
  {
    hide Fires, Place;
  }

  /** With a 32-bit size_t that is a matter of the deadline alone. */
  lemma HandleImage32Iff(s: Wheel, t: Timer)
    requires Heads(s) && Room(Size32, s) && t in s.timers
    ensures t in Image(Size32, s).timers
    ensures var d := s.timers[t].interval;
            Handle(Size32, Image(Size32, s), t) == Image(Size32, Handle(Ideal, s, t))
            <==> SignKept(d - s.ticks - MIN_TIME_OUT) && (d < s.ticks + MIN_TIME_OUT || FiledAlike(s, d))
  {
    hide Heads, Room, Handle, Image, PlacedAlike, SignKept, FiledAlike;
    assert Built(s) by { HeadsBuilt(s); }
    HandleImageIff(Size32, s, t);
    if s.timers[t].interval >= s.ticks + MIN_TIME_OUT { FiledAlikeIff(s, s.timers[t].interval); }
  }

  lemma HeadsBuilt(s: Wheel)
    requires Heads(s)
    ensures Built(s)
  {
  }

  /** With a 32-bit size_t a timer is filed where the ideal wheel files it if and only if its timeout, counted from
      the coarse tick, is below 2^32, or lies within the fine wheel, or is too far for both wheels modulo 2^32. */
  lemma ResetImageIff(s: Wheel, t: Timer, u: nat)
    requires Heads(s) && Room(Size32, s) && t in s.timers
    ensures t in Image(Size32, s).timers
    ensures var toCoarse, toFine := s.ticks - s.maTick + u, s.ticks - s.miTick + u;
            Reset(Size32, Image(Size32, s), t, u) == Image(Size32, Reset(Ideal, s, t, u))
            <==> || toCoarse < WORD32 || toFine < MIN_MA_TIMER
                 || (toCoarse % WORD32 >= MIN_ST_TIMER && toFine % WORD32 >= MIN_MA_TIMER)
  {
    hide Heads, Room, Reset, Image, PlacedAlike;
    assert Built(s) by { HeadsBuilt(s); }
    ImageFired(Size32, s);
    ResetImage(Size32, s, t, u);
    FiledAlikeIff(s, s.ticks + u);
  }

  // ---------------------------------------------------------------- one poll

  /** How many turns a wheel makes for the signed distance v. */
  function Turns(v: int, step: int): nat
    requires step > 0
  {
    if v < 0 then 0 else v / step + 1
  }

  lemma TurnsStep(v: int, step: int)
    requires v >= 0 && (step == MIN_TIME_OUT || step == MIN_MA_TIMER)
    ensures Turns(v, step) == Turns(v - step, step) + 1
  {
    if step == MIN_TIME_OUT {
      assert Turns(v, MIN_TIME_OUT) == Turns(v - MIN_TIME_OUT, MIN_TIME_OUT) + 1;
    } else {
      assert Turns(v, MIN_MA_TIMER) == Turns(v - MIN_MA_TIMER, MIN_MA_TIMER) + 1;
    }
  }

  /** A distance beyond the int range makes the machine turn less often than it should. */
  lemma TurnsDiffer(x: int, step: int)
    requires x >= HALF && (step == MIN_TIME_OUT || step == MIN_MA_TIMER)
    ensures Turns(Signed(Size32, x), step) < Turns(x, step)
  {
    var v := Signed(Size32, x);
    assert v < HALF && (x - v) % WORD32 == 0;
    if v >= 0 {
      assert x - v >= WORD32;
      assert x / step >= (v + step) / step == v / step + 1;
    }
  }

  lemma {:induction false} FineTurnsCount(arch: Arch, s: Wheel)
    requires Built(s)
    ensures var r, n := FineTurns(arch, s), Turns(Signed(arch, s.ticks - s.miTick - MIN_TIME_OUT), MIN_TIME_OUT);
            && r.miWheel == (if n == 0 then s.miWheel else Size(arch, s.miWheel + n))
            && r.maTick == s.maTick && r.maWheel == s.maWheel && r.stTick == s.stTick
    decreases if FineDue(arch, s) then 1 + Signed(arch, s.ticks - s.miTick - MIN_TIME_OUT) else 0
  {
    hide Signed, Size, Built, Turns, FineTurn;
    var v := Signed(arch, s.ticks - s.miTick - MIN_TIME_OUT);
    TurnsNone(v, MIN_TIME_OUT);
    if FineDue(arch, s) {
      var m := FineTurn(arch, s);
      SignedStep(arch, s.ticks, s.miTick, MIN_TIME_OUT);
      FineTurnsCount(arch, m);
      TurnsStep(v, MIN_TIME_OUT);
      SizeAgain(arch, s.miWheel, Turns(v - MIN_TIME_OUT, MIN_TIME_OUT));
    }
  }

  lemma TurnsNone(v: int, step: int)
    requires step > 0
    ensures Turns(v, step) == 0 <==> v < 0
  {
  }

  lemma SizeAgain(arch: Arch, w: int, n: int)
    ensures Size(arch, Size(arch, w + 1) + n) == Size(arch, w + 1 + n)
  {
    if arch != Ideal { SizeStep(arch, w + 1, n); }
  }

  lemma {:induction false} CoarseTurnsCount(arch: Arch, s: Wheel)
    requires Built(s)
    ensures var r, n := CoarseTurns(arch, s), Turns(Signed(arch, s.ticks - s.maTick - MIN_MA_TIMER), MIN_MA_TIMER);
            && r.maWheel == (if n == 0 then s.maWheel else Size(arch, s.maWheel + n))
            && r.miTick == s.miTick && r.miWheel == s.miWheel && r.stTick == s.stTick
    decreases if CoarseDue(arch, s) then 1 + Signed(arch, s.ticks - s.maTick - MIN_MA_TIMER) else 0
  {
    hide Signed, Size, Built, Turns, CoarseTurn;
    var v := Signed(arch, s.ticks - s.maTick - MIN_MA_TIMER);
    TurnsNone(v, MIN_MA_TIMER);
    if CoarseDue(arch, s) {
      var m := CoarseTurn(arch, s);
      SignedStep(arch, s.ticks, s.maTick, MIN_MA_TIMER);
      CoarseTurnsCount(arch, m);
      TurnsStep(v, MIN_MA_TIMER);
      SizeAgain(arch, s.maWheel, Turns(v - MIN_MA_TIMER, MIN_MA_TIMER));
    }
  }

  /** The counters and the last rescan after a poll. */
  lemma PollCounts(arch: Arch, s: Wheel, now: int)
    requires Built(s)
    ensures var r := Poll(arch, s, now);
            var n, m := Turns(Signed(arch, now - s.miTick - MIN_TIME_OUT), MIN_TIME_OUT), Turns(Signed(arch, now - s.maTick - MIN_MA_TIMER), MIN_MA_TIMER);
            && r.miWheel == (if n == 0 then s.miWheel else Size(arch, s.miWheel + n))
            && r.maWheel == (if m == 0 then s.maWheel else Size(arch, s.maWheel + m))
            && r.stTick == (if Signed(arch, now - s.stTick - MIN_ST_TIMER) >= 0 then now else s.stTick)
  {
    hide Signed, Size, Built, Turns, FineTurns, CoarseTurns, SweepList;
    var a := s.(ticks := now);
    BuiltAt(s, now);
    FineTurnsCount(arch, a);
    CoarseTurnsCount(arch, FineTurns(arch, a));
  }

  lemma BuiltAt(s: Wheel, now: int)
    requires Built(s)
    ensures Built(s.(ticks := now))
  {
  }

  /** The machine's signed distance is that of the exact one. */
  lemma SignedSame(arch: Arch, x: int, y: int, q: int)
    requires arch != Ideal && y == x + q * WORD32
    ensures Signed(arch, y) == Signed(Size32, x)
  {
    Shift32(x, q);
  }

  lemma SignedTick(arch: Arch, ticks: int, tick: int, c: int)
    requires arch != Ideal
    ensures Signed(arch, Unsigned(arch, ticks) - Size(arch, tick) - c) == Signed(Size32, ticks - tick - c)
  {
    SizeQuotient(arch, tick);
    SignedSame(arch, ticks - tick - c, ticks % WORD32 - Size(arch, tick) - c, (tick - Size(arch, tick)) / WORD32 - ticks / WORD32);
  }

  lemma ImageBuilt(arch: Arch, s: Wheel)
    requires Built(s)
    ensures Built(Image(arch, s))
  {
    hide StoredTimers;
  }

  /** The counters of a machine's poll, from the exact distances. */
  lemma MachineCounts(arch: Arch, s: Wheel, now: int)
    requires arch != Ideal && Built(s) && Room(arch, s)
    ensures Built(Image(arch, s))
    ensures var r := Poll(arch, Image(arch, s), Unsigned(arch, now));
            && r.miWheel == Size(arch, s.miWheel + Turns(Signed(Size32, now - s.miTick - MIN_TIME_OUT), MIN_TIME_OUT))
            && r.maWheel == Size(arch, s.maWheel + Turns(Signed(Size32, now - s.maTick - MIN_MA_TIMER), MIN_MA_TIMER))
            && r.stTick == (if Signed(Size32, now - s.stTick - MIN_ST_TIMER) >= 0 then Unsigned(arch, now) else Size(arch, s.stTick))
  {
    hide Room, Signed, Unsigned, Size, Poll, Turns, Image, Built;
    WheelSmall(arch, s);
    ImageClock(arch, s);
    ImageBuilt(arch, s);
    PollCounts(arch, Image(arch, s), Unsigned(arch, now));
    SignedTick(arch, now, s.miTick, MIN_TIME_OUT);
    SignedTick(arch, now, s.maTick, MIN_MA_TIMER);
    SignedTick(arch, now, s.stTick, MIN_ST_TIMER);
  }

  lemma IdealCounts(s: Wheel, now: int)
    requires Built(s)
    ensures var r := Poll(Ideal, s, now);
            && r.miWheel == s.miWheel + Turns(now - s.miTick - MIN_TIME_OUT, MIN_TIME_OUT)
            && r.maWheel == s.maWheel + Turns(now - s.maTick - MIN_MA_TIMER, MIN_MA_TIMER)
            && r.stTick == if now - s.stTick - MIN_ST_TIMER >= 0 then now else s.stTick
  {
    SignedExact();
    IdealExact();
    hide Signed, Size, Poll, Turns, Built;
    PollCounts(Ideal, s, now);
  }

  lemma CountersFit(arch: Arch, s: Wheel, now: int)
    requires Room(arch, s) && Room(arch, s.(ticks := now)) && s.ticks <= now
    ensures 0 <= s.miWheel && s.miWheel + Turns(now - s.miTick - MIN_TIME_OUT, MIN_TIME_OUT) < WORD32
    ensures 0 <= s.maWheel && s.maWheel + Turns(now - s.maTick - MIN_MA_TIMER, MIN_MA_TIMER) < WORD32
  {
    var n, m := Turns(now - s.miTick - MIN_TIME_OUT, MIN_TIME_OUT), Turns(now - s.maTick - MIN_MA_TIMER, MIN_MA_TIMER);
    assert MIN_TIME_OUT * n <= now - s.miTick && MIN_MA_TIMER * m <= now - s.maTick;
  }

  lemma SmallApart(arch: Arch, a: int, b: int)
    requires arch != Ideal && 0 <= a < b < WORD32
    ensures Size(arch, a) != Size(arch, b)
  {
    SizeSmall(arch, a);
    SizeSmall(arch, b);
  }

  /** A clock that has outrun a wheel: its counter falls behind. */
  lemma OutrunWheels(arch: Arch, s: Wheel, now: int)
    requires arch != Ideal && Built(s) && Room(arch, s) && Room(arch, s.(ticks := now)) && s.ticks <= now
    requires now - s.miTick >= HALF + MIN_TIME_OUT || now - s.maTick >= HALF + MIN_MA_TIMER
    ensures Built(Image(arch, s)) && Poll(arch, Image(arch, s), Unsigned(arch, now)) != Image(arch, Poll(Ideal, s, now))
  {
    hide Room, Turns, Signed, Size, Unsigned, Poll, Image, Built;
    CountersFit(arch, s, now);
    MachineCounts(arch, s, now);
    IdealCounts(s, now);
    ImageClock(arch, Poll(Ideal, s, now));
    if now - s.miTick >= HALF + MIN_TIME_OUT {
      var x := now - s.miTick - MIN_TIME_OUT;
      TurnsDiffer(x, MIN_TIME_OUT);
      SmallApart(arch, s.miWheel + Turns(Signed(Size32, x), MIN_TIME_OUT), s.miWheel + Turns(x, MIN_TIME_OUT));
    } else {
      var x := now - s.maTick - MIN_MA_TIMER;
      TurnsDiffer(x, MIN_MA_TIMER);
      SmallApart(arch, s.maWheel + Turns(Signed(Size32, x), MIN_MA_TIMER), s.maWheel + Turns(x, MIN_MA_TIMER));
    }
  }

  lemma SignedWrapped(x: int)
    requires HALF <= x < WORD32
    ensures Signed(Size32, x) < 0
  {
  }

  lemma TicksApart(arch: Arch, a: int, b: int)
    requires arch != Ideal && 0 < b - a < WORD32 && (arch == Size64 ==> 0 <= a && b < WORD32)
    ensures Size(arch, a) != Size(arch, b)
  {
    if arch == Size32 {
      Diff32(b, a);
      Mod32(b - a, 0);
    } else {
      SizeSmall(arch, a);
      SizeSmall(arch, b);
    }
  }

  lemma Room64(arch: Arch, s: Wheel, now: int)
    requires Room(arch, s) && Room(arch, s.(ticks := now))
    ensures arch == Size64 ==> 0 <= s.stTick && now < WORD32
  {
  }

  /** A clock that has outrun the last rescan: there is none. */
  lemma OutrunRescan(arch: Arch, s: Wheel, now: int)
    requires arch != Ideal && Built(s) && Room(arch, s) && Room(arch, s.(ticks := now)) && s.ticks <= now
    requires HALF + MIN_ST_TIMER <= now - s.stTick < WORD32
    ensures Built(Image(arch, s)) && Poll(arch, Image(arch, s), Unsigned(arch, now)) != Image(arch, Poll(Ideal, s, now))
  {
    hide Turns, Signed, Size, Unsigned, Poll, Image, Built;
    Room64(arch, s, now);
    hide Room;
    MachineCounts(arch, s, now);
    IdealCounts(s, now);
    ImageClock(arch, Poll(Ideal, s, now));
    SignedWrapped(now - s.stTick - MIN_ST_TIMER);
    TicksApart(arch, s.stTick, now);
  }

  lemma NotFiring(arch: Arch, s: Wheel, now: int, t: Timer)
    requires arch != Ideal && t in s.timers && HALF - MIN_TIME_OUT < now - s.timers[t].interval < WORD32 - MIN_TIME_OUT
    ensures t in Image(arch, s).timers && !Fires(arch, Image(arch, s).(ticks := Unsigned(arch, now)), t)
  {
    FiresIff(arch, s.(ticks := now), t);
    SignKeptIff(s.timers[t].interval - now - MIN_TIME_OUT);
    TickedImage(arch, s, now);
    FiresIdeal(s.(ticks := now), t);
    hide Fires, SignKept, Image, Unsigned;
  }

  /** A timer overdue by half the tick range stays armed on the machine. */
  lemma LostTimer(arch: Arch, s: Wheel, now: int, t: Timer)
    requires arch != Ideal && Sound(s) && Timely(s) && s.ticks <= now && t in s.timers && !s.timers[t].idle
    requires HALF - MIN_TIME_OUT < now - s.timers[t].interval < WORD32 - MIN_TIME_OUT
    ensures Built(s) && Built(Image(arch, s))
    ensures Poll(arch, Image(arch, s), Unsigned(arch, now)) != Image(arch, Poll(Ideal, s, now))
  {
    assert Built(s) && t in s.fam.at;
    hide Sound, Timely, Poll, PollFires, Fires, Image, Unsigned, Stored, Built;
    PollIs(s, now);
    PollBounds(s, now, t);
    ImageSound(arch, s);
    SoundBuilt(Image(arch, s));
    PollSpares(arch, Image(arch, s), Unsigned(arch, now));
    NotFiring(arch, s, now, t);
    ImageIdle(arch, s, t);
    ImageIdle(arch, Poll(Ideal, s, now), t);
  }

  lemma SoundBuilt(s: Wheel)
    requires Sound(s)
    ensures Built(s)
  {
  }

  lemma ImageIdle(arch: Arch, s: Wheel, t: Timer)
    requires t in s.timers
    ensures t in Image(arch, s).timers && Image(arch, s).timers[t].idle == s.timers[t].idle
  {
  }

  /** A poll over machine integers is the ideal one if and only if the clock has outrun neither a wheel nor the last
      rescan nor an armed timer. */
  lemma PollImageIff(arch: Arch, s: Wheel, now: int)
    requires arch != Ideal && Fits(arch, s) && Modest(arch, s, PollEvent(now))
    ensures Built(s) && Built(Image(arch, s))
    ensures Poll(arch, Image(arch, s), Unsigned(arch, now)) == Image(arch, Poll(Ideal, s, now))
       <==> Gap(s.(ticks := now)) && NoneLost(s.(ticks := now))
  {
    assert Built(s) && Clock(s) && Built(Image(arch, s));
    hide Sound, Timely, Ahead, Room, Poll, Image, Built, Unsigned, NoneLost;
    if Gap(s.(ticks := now)) && NoneLost(s.(ticks := now)) {
      PollFitsMachine(arch, s, now);
    } else if now - s.miTick >= HALF + MIN_TIME_OUT || now - s.maTick >= HALF + MIN_MA_TIMER {
      OutrunWheels(arch, s, now);
    } else if now - s.stTick >= HALF + MIN_ST_TIMER {
      OutrunRescan(arch, s, now);
    } else {
      var t := Lost(s.(ticks := now));
      AboveTicks(s, t);
      LostTimer(arch, s, now, t);
    }
  }

  lemma Lost(s: Wheel) returns (t: Timer)
    requires !NoneLost(s)
    ensures t in s.timers && !s.timers[t].idle && s.ticks - s.timers[t].interval > HALF - MIN_TIME_OUT
  {
    t :| t in s.timers && !s.timers[t].idle && s.ticks - s.timers[t].interval > HALF - MIN_TIME_OUT;
  }

  // ---------------------------------------------------------------- one event

  /** On a young ring, with timeouts below 2^31, one event on the machine has the effect it has on the ideal wheel if
      and only if it is allowed; so the runs of MachineRun are all that agree event by event. */
  lemma ApplyImageIff(arch: Arch, s: Wheel, e: WheelEvent)
    requires arch != Ideal && Fits(arch, s) && Modest(arch, s, e)
    ensures Built(s) && Known(s, e) && Built(Image(arch, s)) && Known(Image(arch, s), Narrow(arch, e))
    ensures Apply(arch, Image(arch, s), Narrow(arch, e)) == Image(arch, Apply(Ideal, s, e)) <==> Allowed(arch, s, e)
  {
    hide Heads, Room, Poll, Reset, Image, Built, Unsigned, NoneLost, Gap, StopTimer, DrainTimer, FiledAlike, PlacedAlike, Fits;
    FitsParts(arch, s);
    ImageFired(arch, s);
    ImageBuilt(arch, s);
    if Allowed(arch, s, e) {
      hide Apply, Allowed;
      ApplyImage(arch, s, e);
    } else if e.PollEvent? {
      PollImageIff(arch, s, e.now);
    } else {
      Filed64(arch, s, e.umilsec);
      ResetImage(arch, s, e.t, e.umilsec);
      FiledAlikeIff(s, s.ticks + e.umilsec);
    }
  }

  lemma FitsParts(arch: Arch, s: Wheel)
    requires Fits(arch, s)
    ensures Built(s) && Heads(s) && Room(arch, s)
  {
    hide Sound, Room, Ahead, OnTime;
  }

  lemma Filed64(arch: Arch, s: Wheel, u: nat)
    requires Room(arch, s) && (arch == Size64 ==> s.ticks + u < WORD32)
    ensures arch == Size64 ==> FiledAlike(s, s.ticks + u)
  {
  }

  // ---------------------------------------------------------------- clock gaps

  /** A gap just below 2^31 is too long: a timer armed with no delay on a ring created at tick 0 is not
      fired by a poll 2^31 - 14 ticks later, since on the machine its deadline seems to lie ahead. */
  lemma GapTooLong(s: Wheel, t: Timer, a: Wheel)
    requires NewRing(s, 0) && t in s.timers && a == Reset(Ideal, s, t, 0)
    ensures var r := Poll(Ideal, a, HALF - 14); t in r.timers && r.timers[t].idle
    ensures Built(Image(Size32, a))
    ensures var r := Poll(Size32, Image(Size32, a), HALF - 14); t in r.timers && !r.timers[t].idle
  {
    NewRingTimely(s, 0);
    ResetTimely(s, t, 0);
    ArmedAtZero(s, t, a);
    hide NewRing, Sound, Timely, Reset, Poll, PollFires, Image, Resident;
    PollIs(a, HALF - 14);
    PollBounds(a, HALF - 14, t);
    ImageSound(Size32, a);
    StoredAtZero(a, t);
    hide Stored, Built;
    PollSpares(Size32, Image(Size32, a), HALF - 14);
    StillArmedAtZero(Image(Size32, a), t, Poll(Size32, Image(Size32, a), HALF - 14));
  }

  lemma ArmedAtZero(s: Wheel, t: Timer, a: Wheel)
    requires NewRing(s, 0) && t in s.timers && a == Reset(Ideal, s, t, 0)
    ensures t in a.timers && t in a.fam.at && !a.timers[t].idle && a.timers[t].interval == 0 && a.ticks == 0 && Built(a)
  {
    hide Place;
  }

  lemma StoredAtZero(a: Wheel, t: Timer)
    requires t in a.timers && !a.timers[t].idle && a.timers[t].interval == 0 && Built(a)
    ensures var i := Image(Size32, a); Built(i) && t in i.timers && !i.timers[t].idle && i.timers[t].interval == 0
  {
  }

  lemma StillArmedAtZero(i: Wheel, t: Timer, r: Wheel)
    requires Spared(Size32, i.(ticks := HALF - 14), r) && t in i.timers && !i.timers[t].idle && i.timers[t].interval == 0
    ensures t in r.timers && !r.timers[t].idle
  {
    var a := i.(ticks := HALF - 14);
    Mod32(0 - a.ticks - MIN_TIME_OUT, -1);
    assert !Fires(Size32, a, t);
  }

  lemma PolledAt749(s: Wheel)
    requires NewRing(s, 0)
    ensures var p := Poll(Ideal, s, 749);
            p.miTick == 735 && p.miWheel == 49 && p.maTick == 0 && p.maWheel == 0 && Built(p) && Heads(p)
  {
    hide Sound, Heads, PollFires, Poll;
    NewRingTimely(s, 0);
    assert Built(s);
    PollIs(s, 749);
    PollOrigin(s, 749);
  }

  lemma PlaceInGap(a: Wheel)
    requires Built(a) && a.miTick == 735 && a.miWheel == 49 && a.maTick == 0 && a.maWheel == 0
    requires a.ticks == 749 + HALF - 1
    ensures Place(Ideal, a, a.ticks + HALF - 1) == a.st
    ensures Place(Size32, Image(Size32, a), Unsigned(Size32, a.ticks + HALF - 1)) == a.mi[0]
  {
    hide StoredTimers;
    var i := Image(Size32, a);
    Mod32(a.ticks + HALF - 1, 1);
    assert Unsigned(Size32, a.ticks + HALF - 1) == 747 && i.miTick == 735 && i.miWheel == 49;
  }

  /** And a reset inside a gap below 2^31 may be filed wrongly, because it measures from the coarse tick:
      on a ring created at tick 0 and polled at 749, a timer armed 2^31 - 1 ticks later for 2^31 - 1
      more goes to the next fine slot. */
  lemma ResetInGap(s: Wheel, p: Wheel, a: Wheel)
    requires NewRing(s, 0) && p == Poll(Ideal, s, 749) && a == p.(ticks := 749 + HALF - 1)
    ensures Built(a) && Heads(a)
    ensures Place(Ideal, a, a.ticks + HALF - 1) == a.st
    ensures Place(Size32, Image(Size32, a), Unsigned(Size32, a.ticks + HALF - 1)) == a.mi[0]
  {
    hide NewRing, Poll, Place, Image, Unsigned;
    PolledAt749(s);
    HeadsStay(p, a);
    hide Heads;
    PlaceInGap(a);
  }
}
