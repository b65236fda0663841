/** Where machine integers part from the ideal wheel: wheel counters beyond their range, and a 64-bit size_t once
    deadlines pass 2^32; and what a poll may do on any machine. */
module WheelWrap {
  import opened IntrusiveList
  import opened WheelModel
  import opened WheelProofs
  import opened WheelTheorems
  import opened WheelRuns
  import opened WheelWidth

  // ---------------------------------------------------------------- wheel counters

  /** The head whose list the next turn of a wheel drains. */
  ghost function FineDrained(arch: Arch, s: Wheel): (h: Timer)
    requires Built(s)
    ensures h in s.fam.lists
  {
    s.mi[Size(arch, s.miWheel + 1) % MAX_MI_WHEEL]
  }

  ghost function CoarseDrained(arch: Arch, s: Wheel): (h: Timer)
    requires Built(s)
    ensures h in s.fam.lists
  {
    s.ma[Size(arch, s.maWheel + 1) % MAX_MA_WHEEL]
  }

  lemma TurnsDrain(arch: Arch, s: Wheel)
    requires Built(s)
    ensures FineTurn(arch, s) == SweepList(arch, AdvanceFine(arch, s), FineDrained(arch, s))
    ensures CoarseTurn(arch, s) == SweepList(arch, AdvanceCoarse(arch, s), CoarseDrained(arch, s))
  {
    hide SweepList, Size;
  }

  lemma FineWrapIff(s: Wheel)
    requires Heads(s) && 0 <= s.miWheel < WORD32
    ensures FineDrained(Size32, s) == FineDrained(Ideal, s) <==> s.miWheel + 1 < WORD32
  {
    if s.miWheel + 1 == WORD32 {
      assert FineDrained(Size32, s) == s.mi[0] && FineDrained(Ideal, s) == s.mi[46];
    }
  }

  lemma CoarseWrapIff(s: Wheel)
    requires Heads(s) && 0 <= s.maWheel < WORD32
    ensures CoarseDrained(Size32, s) == CoarseDrained(Ideal, s) <==> s.maWheel + 1 < WORD32
  {
    if s.maWheel + 1 == WORD32 {
      assert CoarseDrained(Size32, s) == s.ma[0] && CoarseDrained(Ideal, s) == s.ma[16];
    }
  }

  /** The next turn with a 32-bit counter drains the slot the ideal one drains exactly until the
      counter wraps, because 2^32 is a multiple of neither 50 nor 60. */
  lemma CounterWrapIff(s: Wheel)
    requires Heads(s) && 0 <= s.miWheel < WORD32 && 0 <= s.maWheel < WORD32
    ensures FineTurn(Size32, s) == SweepList(Size32, AdvanceFine(Size32, s), FineDrained(Size32, s))
    ensures FineDrained(Size32, s) == FineHead(s) <==> s.miWheel + 1 < WORD32
    ensures CoarseTurn(Size32, s) == SweepList(Size32, AdvanceCoarse(Size32, s), CoarseDrained(Size32, s))
    ensures CoarseDrained(Size32, s) == CoarseHead(s) <==> s.maWheel + 1 < WORD32
  {
    TurnsDrain(Size32, s);
    FineWrapIff(s);
    CoarseWrapIff(s);
    hide Heads, Built, FineTurn, CoarseTurn, SweepList;
  }

  /** The counter w after n more turns. */
  function Turned(arch: Arch, w: int, n: nat): int {
    if n == 0 then w else Size(arch, Turned(arch, w, n - 1) + 1)
  }

  /** Filing and draining wrap alike: the slot for n turns ahead is the one the n-th turn drains. */
  lemma {:induction false} PlacedIsDrained(arch: Arch, w: int, n: nat)
    requires n > 0
    ensures Turned(arch, w, n) == Size(arch, w + n)
  {
    if n > 1 {
      PlacedIsDrained(arch, w, n - 1);
      if arch != Ideal { SizeStep(arch, w + n - 1, 1); }
    }
  }

  /** But it may come up once more before that: ten turns before the wrap, the slot for 49 turns ahead is
      also the one of the third turn. */
  lemma VisitedEarly()
    ensures Turned(Size32, WORD32 - 10, 49) % MAX_MI_WHEEL == Turned(Size32, WORD32 - 10, 3) % MAX_MI_WHEEL
    ensures Turned(Ideal, WORD32 - 10, 49) % MAX_MI_WHEEL != Turned(Ideal, WORD32 - 10, 3) % MAX_MI_WHEEL
  {
    PlacedIsDrained(Size32, WORD32 - 10, 49);
    PlacedIsDrained(Size32, WORD32 - 10, 3);
    PlacedIsDrained(Ideal, WORD32 - 10, 49);
    PlacedIsDrained(Ideal, WORD32 - 10, 3);
  }

  // ---------------------------------------------------------------- what a poll may do on any machine

  /** Timers that fail the firing test at the clock of s are spared, and all keep their deadlines. */
  ghost predicate Spared(arch: Arch, s: Wheel, r: Wheel) {
    && r.timers.Keys == s.timers.Keys && r.ticks == s.ticks
    && forall t :: t in s.timers ==>
         && (s.timers[t].idle || !Fires(arch, s, t) ==> r.timers[t] == s.timers[t])
         && (r.timers[t] == s.timers[t] || r.timers[t] == s.timers[t].(idle := true))
  }

  lemma SparedSelf(arch: Arch, s: Wheel, r: Wheel)
    requires r.timers == s.timers && r.ticks == s.ticks
    ensures Spared(arch, s, r)
  {
    hide Fires;
  }

  lemma SparedChain(arch: Arch, s: Wheel, m: Wheel, r: Wheel)
    requires Spared(arch, s, m) && Spared(arch, m, r)
    ensures Spared(arch, s, r)
  {
    hide Signed;
  }

  lemma SparedFrom(arch: Arch, s: Wheel, a: Wheel, r: Wheel)
    requires Spared(arch, a, r) && a.timers == s.timers && a.ticks == s.ticks
    ensures Spared(arch, s, r)
  {
    SparedSelf(arch, s, a);
    SparedChain(arch, s, a, r);
  }

  lemma SweepSpares(arch: Arch, s: Wheel, h: Timer)
    requires Sound(s) && Stored(arch, s) && h in s.fam.lists
    ensures var r := SweepList(arch, s, h); Sound(r) && Stored(arch, r) && Spared(arch, s, r)
  {
    ArmedMembers(s, h);
    SweepListIs(arch, s, h);
    hide Sound, Stored, SweepList, SweptPlaces, Fires, Distinct;
  }

  lemma StoredSame(arch: Arch, s: Wheel, a: Wheel)
    requires Stored(arch, s) && a.timers == s.timers
    ensures Stored(arch, a)
  {
    hide Unsigned;
  }

  lemma FineTurnSpares(arch: Arch, s: Wheel)
    requires Sound(s) && Stored(arch, s) && Built(s)
    ensures var r := FineTurn(arch, s); Sound(r) && Stored(arch, r) && Spared(arch, s, r)
  {
    var a := AdvanceFine(arch, s);
    AdvancedSound(s, a);
    StoredSame(arch, s, a);
    hide Sound, Stored, SweepList, Spared, Built;
    TurnsDrain(arch, s);
    SweepSpares(arch, a, FineDrained(arch, s));
    SparedFrom(arch, s, a, FineTurn(arch, s));
  }

  lemma {:induction false} FineTurnsSpare(arch: Arch, s: Wheel)
    requires Sound(s) && Stored(arch, s) && Built(s)
    ensures var r := FineTurns(arch, s); Sound(r) && Stored(arch, r) && Spared(arch, s, r)
    decreases if FineDue(arch, s) then 1 + Signed(arch, s.ticks - s.miTick - MIN_TIME_OUT) else 0
  {
    hide Sound, Stored, Spared, Built, FineTurn, Signed, Size;
    if FineDue(arch, s) {
      SignedStep(arch, s.ticks, s.miTick, MIN_TIME_OUT);
      FineTurnSpares(arch, s);
      FineTurnsSpare(arch, FineTurn(arch, s));
      SparedChain(arch, s, FineTurn(arch, s), FineTurns(arch, s));
    } else {
      SparedSelf(arch, s, s);
    }
  }

  lemma CoarseTurnSpares(arch: Arch, s: Wheel)
    requires Sound(s) && Stored(arch, s) && Built(s)
    ensures var r := CoarseTurn(arch, s); Sound(r) && Stored(arch, r) && Spared(arch, s, r)
  {
    var a := AdvanceCoarse(arch, s);
    AdvancedSound(s, a);
    StoredSame(arch, s, a);
    hide Sound, Stored, SweepList, Spared, Built;
    TurnsDrain(arch, s);
    SweepSpares(arch, a, CoarseDrained(arch, s));
    SparedFrom(arch, s, a, CoarseTurn(arch, s));
  }

  lemma {:induction false} CoarseTurnsSpare(arch: Arch, s: Wheel)
    requires Sound(s) && Stored(arch, s) && Built(s)
    ensures var r := CoarseTurns(arch, s); Sound(r) && Stored(arch, r) && Spared(arch, s, r)
    decreases if CoarseDue(arch, s) then 1 + Signed(arch, s.ticks - s.maTick - MIN_MA_TIMER) else 0
  {
    hide Sound, Stored, Spared, Built, CoarseTurn, Signed, Size;
    if CoarseDue(arch, s) {
      SignedStep(arch, s.ticks, s.maTick, MIN_MA_TIMER);
      CoarseTurnSpares(arch, s);
      CoarseTurnsSpare(arch, CoarseTurn(arch, s));
      SparedChain(arch, s, CoarseTurn(arch, s), CoarseTurns(arch, s));
    } else {
      SparedSelf(arch, s, s);
    }
  }

  lemma RescanSpares(arch: Arch, s: Wheel)
    requires Sound(s) && Stored(arch, s) && Built(s)
    ensures var r := Rescan(arch, s); Sound(r) && Stored(arch, r) && Spared(arch, s, r)
  {
    var a := s.(stTick := s.ticks);
    AdvancedSound(s, a);
    StoredSame(arch, s, a);
    SparedSelf(arch, s, s);
    hide Sound, Stored, SweepList, Spared, OverflowDue;
    SweepSpares(arch, a, a.st);
    SparedFrom(arch, s, a, SweepList(arch, a, a.st));
  }

  /** On every machine a poll fires only timers that pass the test, and changes no deadline. */
  lemma PollSpares(arch: Arch, s: Wheel, now: int)
    requires Sound(s) && Stored(arch, s) && Built(s)
    ensures Spared(arch, s.(ticks := now), Poll(arch, s, now))
  {
    var a := s.(ticks := now);
    AdvancedSound(s, a);
    StoredSame(arch, s, a);
    hide Sound, Stored, Spared, Built, FineTurns, CoarseTurns, Rescan;
    var f := FineTurns(arch, a);
    FineTurnsSpare(arch, a);
    var c := CoarseTurns(arch, f);
    CoarseTurnsSpare(arch, f);
    RescanSpares(arch, c);
    SparedChain(arch, a, f, c);
    SparedChain(arch, a, c, Rescan(arch, c));
  }

  lemma ImageSound(arch: Arch, s: Wheel)
    requires Sound(s)
    ensures Sound(Image(arch, s)) && Stored(arch, Image(arch, s))
  {
    hide WellFormed;
    forall t | t in s.timers ensures Unsigned(arch, Unsigned(arch, s.timers[t].interval)) == Unsigned(arch, s.timers[t].interval) {
      UnsignedStep(arch, s.timers[t].interval, 0);
    }
  }

  // ---------------------------------------------------------------- filing with a 64-bit size_t

  /** With a 64-bit size_t tx_timer_reset files a timer where the ideal wheel does exactly when the deadline
      fits in the 32 bits it is stored in, or is too far for both wheels both as it is and as it is stored. */
  lemma WrappedPlaceIff(s: Wheel, d: int)
    requires Heads(s) && Room(Size64, s) && s.ticks <= d < WORD64 / 2
    ensures Place(Size64, Image(Size64, s), Unsigned(Size64, d)) == Place(Ideal, s, d)
       <==> d < WORD32 || (TooFar(s, d) && OutOfWheels(s, d % WORD32))
  {
    hide Place, Image, Heads, Unsigned, OutOfWheels, Clock;
    RoomOrder(s);
    PlacedOut(s, d);
    IdealFiled(s, d);
    hide Room;
    if d < WORD32 {
      SamePlaceOnMachine(Size64, s, d);
    } else {
      StoredBelow(d);
    }
  }

  lemma RoomOrder(s: Wheel)
    requires Room(Size64, s)
    ensures 0 <= s.maTick <= s.miTick <= s.ticks < WORD32
  {
  }

  lemma StoredBelow(d: int)
    requires d >= WORD32
    ensures d % WORD32 <= d - WORD32
  {
  }

  /** Beyond both wheels. */
  predicate TooFar(s: Wheel, d: int) { d - s.maTick >= MIN_ST_TIMER && d - s.miTick >= MIN_MA_TIMER }

  /** Of each wheel, behind its tick or beyond it. */
  predicate OutOfWheels(s: Wheel, d: int) {
    (d < s.maTick || d - s.maTick >= MIN_ST_TIMER) && (d < s.miTick || d - s.miTick >= MIN_MA_TIMER)
  }

  lemma Size64Far(x: int, step: int)
    requires -WORD64 / 2 <= x < WORD64 / 2 && 0 < step <= MIN_ST_TIMER
    ensures Size(Size64, x) >= step <==> x < 0 || x >= step
    ensures 0 <= Size(Size64, x)
  {
    if x >= 0 { SizeExact(Size64, x); } else { Negative64(x); }
  }

  lemma PlacedOut(s: Wheel, d: int)
    requires Heads(s) && Room(Size64, s) && s.ticks <= d < WORD64 / 2
    ensures Built(s)
    ensures var p := Place(Size64, Image(Size64, s), Unsigned(Size64, d));
            (p == s.st <==> OutOfWheels(s, d % WORD32)) && (p in s.mi ==> s.miTick <= d % WORD32 < s.miTick + MIN_MA_TIMER)
            && (p in s.ma ==> s.maTick <= d % WORD32 < s.maTick + MIN_ST_TIMER)
  {
    hide Place, Image, PlaceBy;
    var e := d % WORD32;
    RoomOrder(s);
    MachinePlace(Size64, s, d);
    SizeExact(Size64, s.miTick);
    SizeExact(Size64, s.maTick);
    Size64Far(e - s.miTick, MIN_MA_TIMER);
    Size64Far(e - s.maTick, MIN_ST_TIMER);
    hide Size, Room, Heads;
    PlaceByWheel(s, Size(Size64, e - s.miTick), Size(Size64, e - s.maTick));
  }

  lemma PlaceByWheel(s: Wheel, toFine: nat, toCoarse: nat)
    requires Heads(s)
    ensures var p := PlaceBy(s, toFine, toCoarse);
            && (p == s.st <==> toFine >= MIN_MA_TIMER && toCoarse >= MIN_ST_TIMER)
            && (p in s.mi <==> toFine < MIN_MA_TIMER) && (p in s.ma ==> toCoarse < MIN_ST_TIMER)
  {
  }

  lemma IdealFiled(s: Wheel, d: int)
    requires Heads(s) && Room(Size64, s) && s.ticks <= d
    ensures var p := Place(Ideal, s, d);
            && (p == s.st <==> TooFar(s, d)) && (p in s.mi <==> d - s.miTick < MIN_MA_TIMER)
            && (p !in s.mi && p in s.ma ==> d - s.maTick < MIN_ST_TIMER) && (p in s.mi || p in s.ma || p == s.st)
  {
    IdealPlace(s, d);
    hide Place;
    PlaceByWheel(s, d - s.miTick, d - s.maTick);
  }

  lemma Negative64(x: int)
    requires -WORD64 / 2 <= x < 0
    ensures Size(Size64, x) >= MIN_ST_TIMER
  {
  }

  lemma SizeExact(arch: Arch, x: int)
    requires 0 <= x < if arch == Size64 then WORD64 else WORD32
    ensures Size(arch, x) == x
  {
  }

  /** A stored deadline behind both wheel ticks always goes to the overflow list. */
  lemma WrappedPlace(s: Wheel, stored: int)
    requires Built(s) && 0 <= stored < s.maTick < WORD64 / 2 && stored < s.miTick < WORD64 / 2
    ensures Place(Size64, Image(Size64, s), stored) == s.st
  {
    hide Size;
    SizeExact(Size64, s.maTick);
    SizeExact(Size64, s.miTick);
    Negative64(stored - s.maTick);
    Negative64(stored - s.miTick);
  }

  /** Once the coarse tick has passed 2^32 every timer goes to the overflow list, whatever its timeout. */
  lemma NoWheelAfterWrap(s: Wheel, d: int)
    requires Built(s) && WORD32 <= s.maTick <= s.miTick < WORD64 / 2
    ensures Place(Size64, Image(Size64, s), Unsigned(Size64, d)) == s.st
  {
    WrappedPlace(s, d % WORD32);
  }

  /** Such a ring is reached at once: on one created a hundred ticks before the wrap a timer armed for 200
      ticks, which belongs in the fine wheel, goes to the overflow list. */
  lemma WrapsSoon(s: Wheel)
    requires NewRing(s, WORD32 - 100) && Stored(Size64, s)
    ensures Fits(Size64, s) && Heads(s) && Image(Size64, s) == s
    ensures Place(Ideal, s, s.ticks + 200) in s.mi && Place(Size64, s, Unsigned(Size64, s.ticks + 200)) == s.st
  {
    NewRingFits(Size64, s, WORD32 - 100);
    NewRingImage(s, WORD32 - 100);
    Mod32(s.ticks + 200, 1);
    WrappedPlace(s, 100);
    PlaceNear(s);
  }

  lemma PlaceNear(s: Wheel)
    requires Built(s) && s.miTick == s.ticks
    ensures Place(Ideal, s, s.ticks + 200) in s.mi
  {
  }

  lemma NewRingImage(s: Wheel, now: int)
    requires NewRing(s, now) && 0 <= now < WORD32 && Stored(Size64, s)
    ensures Image(Size64, s) == s
  {
    assert StoredTimers(Size64, s.timers) == s.timers;
  }
}
