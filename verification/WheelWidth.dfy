/** The wheel over machine integers: it simulates the ideal wheel, across the wrap of the 32-bit tick
    when size_t has 32 bits too, and up to it when size_t has 64. */
module WheelWidth {
  import opened IntrusiveList
  import opened WheelModel
  import opened WheelProofs
  import opened WheelTheorems
  import opened PollTheorems
  import opened WheelRuns

  const HALF := 0x8000_0000

  // ---------------------------------------------------------------- what the machine stores

  ghost function StoredTimers(arch: Arch, m: map<Timer, TimerFields>): map<Timer, TimerFields> {
    map t | t in m :: m[t].(interval := Unsigned(arch, m[t].interval))
  }

  /** The machine's view of an ideal wheel: deadlines and the clock as unsigned, the rest as size_t. */
  ghost function Image(arch: Arch, s: Wheel): (r: Wheel)
    ensures Built(s) ==> Built(r)
  {
    s.(timers := StoredTimers(arch, s.timers), ticks := Unsigned(arch, s.ticks),
       miTick := Size(arch, s.miTick), miWheel := Size(arch, s.miWheel),
       maTick := Size(arch, s.maTick), maWheel := Size(arch, s.maWheel),
       stTick := Size(arch, s.stTick))
  }

  // ---------------------------------------------------------------- arithmetic

  lemma Mod32(x: int, q: int)
    requires 0 <= x - q * WORD32 < WORD32
    ensures x % WORD32 == x - q * WORD32
  {
  }

  lemma Diff32(a: int, b: int)
    ensures (a % WORD32 - b % WORD32) % WORD32 == (a - b) % WORD32
  {
    var p, q := a / WORD32, b / WORD32;
    assert a % WORD32 - b % WORD32 == (a - b) + (q - p) * WORD32;
    Shift32(a - b, q - p);
  }

  /** A difference of a deadline or clock and a wheel tick comes out exact when it fits in 32 bits and,
      on 64 bits, the tick has not wrapped. */
  lemma SizeDiff(arch: Arch, d: int, tick: int)
    requires arch != Ideal && 0 <= d - tick < WORD32
    requires arch == Size64 ==> 0 <= tick && d < WORD32
    ensures Size(arch, Unsigned(arch, d) - Size(arch, tick)) == d - tick
  {
    if arch == Size32 {
      Diff32(d, tick);
    }
  }

  /** The signed tests come out exact while the difference fits in 31 bits. */
  lemma SignedOf(arch: Arch, x: int, y: int, q: int)
    requires arch != Ideal && -HALF <= x < HALF && y == x + q * WORD32
    ensures Signed(arch, y) == x
  {
    Shift32(x, q);
    if x >= 0 { Mod32(x, 0); } else { Mod32(x, -1); }
  }

  lemma SignedUnsigned(arch: Arch, d: int, ticks: int, c: int)
    requires arch != Ideal && -HALF <= d - ticks - c < HALF
    ensures Signed(arch, Unsigned(arch, d) - Unsigned(arch, ticks) - c) == d - ticks - c
  {
    var p, q := d / WORD32, ticks / WORD32;
    SignedOf(arch, d - ticks - c, d % WORD32 - ticks % WORD32 - c, q - p);
  }

  lemma SignedSize(arch: Arch, ticks: int, tick: int, c: int)
    requires arch != Ideal && -HALF <= ticks - tick - c < HALF
    ensures Signed(arch, Unsigned(arch, ticks) - Size(arch, tick) - c) == ticks - tick - c
  {
    SizeQuotient(arch, tick);
    var p, q := ticks / WORD32, (tick - Size(arch, tick)) / WORD32;
    SignedOf(arch, ticks - tick - c, ticks % WORD32 - Size(arch, tick) - c, q - p);
  }

  lemma SizeStep(arch: Arch, tick: int, c: int)
    requires arch != Ideal
    ensures Size(arch, Size(arch, tick) + c) == Size(arch, tick + c)
  {
    if arch == Size32 {
      Shift32(tick + c, -(tick / WORD32));
    } else {
      Shift64(tick + c, -(tick / WORD64));
    }
  }

  lemma Shift64(y: int, q: int)
    ensures (y + q * WORD64) % WORD64 == y % WORD64
  {
  }

  lemma UnsignedStep(arch: Arch, ticks: int, u: int)
    ensures Unsigned(arch, Unsigned(arch, ticks) + u) == Unsigned(arch, ticks + u)
  {
    if arch != Ideal { Shift32(ticks + u, -(ticks / WORD32)); }
  }

  lemma IdealExact()
    ensures forall x :: Unsigned(Ideal, x) == x && Size(Ideal, x) == x
  {
  }

  // ---------------------------------------------------------------- when the sizes suffice

  /** The tick at which the ring was created, counted back from its turns. */
  ghost function Origin(s: Wheel): int { s.miTick - MIN_TIME_OUT * s.miWheel }

  /** The ring is young enough for its counters, and with a 64-bit size_t the tick has not wrapped. */
  ghost predicate Room(arch: Arch, s: Wheel) {
    && Clock(s) && 0 <= s.miWheel && 0 <= s.maWheel
    && s.ticks - Origin(s) < MIN_TIME_OUT * (WORD32 - MAX_MA_WHEEL)
    && (arch == Size64 ==> 0 <= s.maTick && 0 <= s.stTick && s.ticks < WORD32)
  }

  /** The clock has not outrun the wheels: the three signed tests see its distance. */
  ghost predicate Gap(s: Wheel) {
    && s.ticks - s.miTick < HALF + MIN_TIME_OUT
    && s.ticks - s.maTick < HALF + MIN_MA_TIMER
    && s.ticks - s.stTick < HALF + MIN_ST_TIMER
  }

  /** The deadline is less than half the tick range away from the clock. */
  ghost predicate Near(arch: Arch, s: Wheel, d: int) {
    && -HALF <= d - s.ticks - MIN_TIME_OUT < HALF
    && (arch == Size64 ==> 0 <= d < WORD32)
  }

  ghost predicate AllNear(arch: Arch, s: Wheel) {
    forall t :: t in s.timers && !s.timers[t].idle ==> Near(arch, s, s.timers[t].interval)
  }

  /** A deadline that the drain loops treat alike: if it does not fire, its slot can be told. */
  ghost predicate Reach(arch: Arch, s: Wheel, d: int) {
    Near(arch, s, d) && (s.ticks + MIN_TIME_OUT <= d ==> d - s.maTick < WORD32)
  }

  lemma WheelSmall(arch: Arch, s: Wheel)
    requires arch != Ideal && Room(arch, s)
    ensures s.miWheel + MAX_MI_WHEEL < WORD32 && s.maWheel + MAX_MA_WHEEL < WORD32
    ensures Size(arch, s.miWheel) == s.miWheel && Size(arch, s.maWheel) == s.maWheel
  {
    assert MIN_TIME_OUT * s.miWheel <= s.ticks - Origin(s);
    assert MIN_MA_TIMER * s.maWheel <= s.ticks - Origin(s);
  }

  /** The choice of tx_timer_reset, from the two exact distances. */
  ghost function PlaceBy(s: Wheel, toFine: int, toCoarse: int): Timer
    requires |s.mi| == MAX_MI_WHEEL && |s.ma| == MAX_MA_WHEEL
  {
    var d := toFine / MIN_TIME_OUT;
    var mi := if d == 0 then 1 else d;
    if mi < MAX_MI_WHEEL then s.mi[(s.miWheel + mi) % MAX_MI_WHEEL]
    else if toCoarse / MIN_MA_TIMER < MAX_MA_WHEEL then s.ma[(s.maWheel + toCoarse / MIN_MA_TIMER) % MAX_MA_WHEEL]
    else s.st
  }

  lemma SizeSmall(arch: Arch, x: int)
    requires arch == Ideal || 0 <= x < WORD32
    ensures Size(arch, x) == x
  {
  }

  lemma PlaceIs(arch: Arch, s: Wheel, d: int, toFine: nat, toCoarse: nat)
    requires Built(s) && Size(arch, d - s.miTick) == toFine && Size(arch, d - s.maTick) == toCoarse
    requires arch == Ideal || (0 <= s.miWheel < WORD32 - MAX_MI_WHEEL && 0 <= s.maWheel < WORD32 - MAX_MA_WHEEL)
    ensures Place(arch, s, d) == PlaceBy(s, toFine, toCoarse)
  {
    var m := if toFine / MIN_TIME_OUT == 0 then 1 else toFine / MIN_TIME_OUT;
    var e := toCoarse / MIN_MA_TIMER;
    if m < MAX_MI_WHEEL {
      SizeSmall(arch, s.miWheel + m);
    } else if e < MAX_MA_WHEEL {
      SizeSmall(arch, s.maWheel + e);
    }
    hide Size;
  }

  lemma SamePlaceOnMachine(arch: Arch, s: Wheel, d: int)
    requires arch != Ideal && Built(s) && Room(arch, s) && s.ticks <= d && d - s.maTick < WORD32
    requires arch == Size64 ==> d < WORD32
    ensures Place(arch, Image(arch, s), Unsigned(arch, d)) == Place(Ideal, s, d)
  {
    hide Place, PlaceBy, Size, Unsigned;
    SizeDiff(arch, d, s.miTick);
    SizeDiff(arch, d, s.maTick);
    IdealExact();
    WheelSmall(arch, s);
    hide Room;
    PlaceIs(arch, Image(arch, s), Unsigned(arch, d), d - s.miTick, d - s.maTick);
    PlaceIs(Ideal, s, d, d - s.miTick, d - s.maTick);
    SamePlaceBy(arch, s, d - s.miTick, d - s.maTick);
  }

  lemma SamePlaceBy(arch: Arch, s: Wheel, toFine: nat, toCoarse: nat)
    requires Built(s) && Size(arch, s.miWheel) == s.miWheel && Size(arch, s.maWheel) == s.maWheel
    ensures PlaceBy(Image(arch, s), toFine, toCoarse) == PlaceBy(s, toFine, toCoarse)
  {
  }

  lemma SameFiresOnMachine(arch: Arch, s: Wheel, t: Timer)
    requires arch != Ideal && t in s.timers && Near(arch, s, s.timers[t].interval)
    ensures Fires(arch, Image(arch, s), t) == Fires(Ideal, s, t)
  {
    SignedUnsigned(arch, s.timers[t].interval, s.ticks, MIN_TIME_OUT);
  }

  // ---------------------------------------------------------------- operations

  lemma StoredUpdate(arch: Arch, m: map<Timer, TimerFields>, t: Timer, idle: bool, d: int)
    requires t in m
    ensures var i := StoredTimers(arch, m);
            StoredTimers(arch, m[t := m[t].(idle := idle, interval := d)])
              == i[t := i[t].(idle := idle, interval := Unsigned(arch, d))]
  {
    hide Unsigned;
  }

  /** The deadline d goes to the list the ideal wheel chooses. */
  ghost predicate PlacedAlike(arch: Arch, s: Wheel, d: int)
    requires Built(s)
  {
    Place(arch, Image(arch, s), Unsigned(arch, d)) == Place(Ideal, s, d)
  }

  /** Arming a timer has the ideal effect exactly when it goes to that list. */
  lemma EnlistImage(arch: Arch, s: Wheel, t: Timer, u: int, v: int)
    requires arch != Ideal && Built(s) && t in s.timers
    requires Unsigned(arch, Unsigned(arch, s.ticks) + v) == Unsigned(arch, s.ticks + u)
    ensures Enlist(arch, Image(arch, s), t, v) == Image(arch, Enlist(Ideal, s, t, u)) <==> PlacedAlike(arch, s, s.ticks + u)
  {
    hide Place, Pushed, Unsigned, Size, StoredTimers, Built;
    ImageFired(arch, s);
    StoredUpdate(arch, s.timers, t, false, s.ticks + u);
    IdealExact();
    PushedApart(s.fam, Place(arch, Image(arch, s), Unsigned(arch, s.ticks + u)), Place(Ideal, s, s.ticks + u), t);
  }

  lemma PushedApart(f: Family<TimerFields>, h: Timer, g: Timer, t: Timer)
    requires h in f.lists && g in f.lists
    ensures Pushed(f, h, t) == Pushed(f, g, t) <==> h == g
  {
    PushedAt(f, h, t);
    PushedAt(f, g, t);
    hide Pushed;
    assert f.at[t := h][t] == h && f.at[t := g][t] == g;
  }

  lemma UnlistImage(arch: Arch, s: Wheel, t: Timer)
    requires Built(s) && t in s.timers
    ensures Unlist(Image(arch, s), t) == Image(arch, Unlist(s, t))
  {
    hide Unlinked, Unsigned, Size;
    assert Unlist(Image(arch, s), t).timers == Image(arch, Unlist(s, t)).timers;
  }

  lemma FiredImage(arch: Arch, s: Wheel, fired: seq<Timer>)
    ensures Image(arch, s).(fired := fired) == Image(arch, s.(fired := fired))
  {
  }

  lemma RoomStays(arch: Arch, s: Wheel, r: Wheel)
    requires Room(arch, s) && SameClock(s, r)
    ensures Room(arch, r)
  {
  }

  lemma PlacedAlikeStays(arch: Arch, s: Wheel, u: Wheel, d: int)
    requires Built(s) && Built(u) && SameRing(s, u) && SameClock(s, u)
    ensures PlacedAlike(arch, u, d) == PlacedAlike(arch, s, d)
  {
    hide Place, StoredTimers, Size, Unsigned, Built;
    ImageFired(arch, s);
    ImageFired(arch, u);
    SamePlace(Ideal, s, u, d);
    SamePlace(arch, Image(arch, s), Image(arch, u), Unsigned(arch, d));
  }

  /** Filing a timer again has the ideal effect exactly when it goes to the same list. */
  lemma RearmImage(arch: Arch, s: Wheel, t: Timer)
    requires arch != Ideal && Built(s) && t in s.timers
    ensures Enlist(arch, Unlist(Image(arch, s), t), t,
                   Unsigned(arch, Unsigned(arch, s.timers[t].interval) - Unsigned(arch, s.ticks)))
         == Image(arch, Enlist(Ideal, Unlist(s, t), t, s.timers[t].interval - s.ticks))
       <==> PlacedAlike(arch, s, s.timers[t].interval)
  {
    hide Unsigned, Enlist, Image, Built, PlacedAlike;
    var u, d := Unlist(s, t), s.timers[t].interval;
    UnlistImage(arch, s, t);
    PlacedAlikeStays(arch, s, u, d);
    UnsignedDiff(arch, d, s.ticks);
    EnlistImage(arch, u, t, d - s.ticks, Unsigned(arch, Unsigned(arch, d) - Unsigned(arch, s.ticks)));
  }

  lemma FireImage(arch: Arch, s: Wheel, t: Timer)
    requires Built(s) && t in s.timers
    ensures Unlist(Image(arch, s), t).(fired := s.fired + [t]) == Image(arch, Unlist(s, t).(fired := s.fired + [t]))
  {
    UnlistImage(arch, s, t);
    hide Unlist;
    FiredImage(arch, Unlist(s, t), s.fired + [t]);
  }

  lemma NotFired(s: Wheel, t: Timer)
    requires t in s.timers && !Fires(Ideal, s, t)
    ensures s.ticks + MIN_TIME_OUT <= s.timers[t].interval && forall x :: Unsigned(Ideal, x) == x
  {
  }

  lemma HandleImage(arch: Arch, s: Wheel, t: Timer)
    requires arch != Ideal && Built(s) && Room(arch, s) && t in s.timers && Reach(arch, s, s.timers[t].interval)
    ensures Handle(arch, Image(arch, s), t) == Image(arch, Handle(Ideal, s, t))
  {
    hide Fires, Unlist, Image, Enlist, Room, Unsigned, Built;
    SameFiresOnMachine(arch, s, t);
    ImageFields(arch, s, t);
    if Fires(Ideal, s, t) {
      FireImage(arch, s, t);
    } else {
      NotFired(s, t);
      SamePlaceOnMachine(arch, s, s.timers[t].interval);
      RearmImage(arch, s, t);
    }
  }

  lemma ImageFields(arch: Arch, s: Wheel, t: Timer)
    requires t in s.timers
    ensures Image(arch, s).fired == s.fired && t in Image(arch, s).timers && Image(arch, s).ticks == Unsigned(arch, s.ticks)
    ensures Image(arch, s).timers[t].interval == Unsigned(arch, s.timers[t].interval)
  {
  }

  lemma ImageFired(arch: Arch, s: Wheel)
    ensures Image(arch, s).fired == s.fired && Image(arch, s).fam == s.fam && Image(arch, s).timers.Keys == s.timers.Keys
  {
  }

  lemma UnsignedDiff(arch: Arch, d: int, ticks: int)
    requires arch != Ideal
    ensures Unsigned(arch, Unsigned(arch, ticks) + Unsigned(arch, Unsigned(arch, d) - Unsigned(arch, ticks)))
         == Unsigned(arch, ticks + (d - ticks))
  {
    RearmKeepsDeadline(arch, ticks % WORD32, d % WORD32);
  }

  // ---------------------------------------------------------------- drain loops

  lemma HandleOthers(arch: Arch, s: Wheel, t: Timer)
    requires Built(s) && t in s.timers
    ensures forall x :: x in s.timers && x != t ==> Handle(arch, s, t).timers[x] == s.timers[x]
  {
    hide Fires, Place, Unsigned, Pushed, Unlinked, Built;
  }

  lemma {:induction false} SweepImage(arch: Arch, s: Wheel, todo: seq<Timer>)
    requires arch != Ideal && Built(s) && Room(arch, s) && Distinct(todo)
    requires forall t :: t in todo ==> t in s.timers && Reach(arch, s, s.timers[t].interval)
    ensures Image(arch, s).timers.Keys == s.timers.Keys
    ensures Sweep(arch, Image(arch, s), todo) == Image(arch, Sweep(Ideal, s, todo))
    decreases |todo|
  {
    ImageFired(arch, s);
    if todo != [] {
      hide Handle, Image, Room, Built, Distinct;
      var m := Handle(Ideal, s, todo[0]);
      Split(todo);
      HandleOthers(Ideal, s, todo[0]);
      RoomStays(arch, s, m);
      HandleImage(arch, s, todo[0]);
      SweepImage(arch, m, todo[1..]);
    }
  }

  lemma SweepListImage(arch: Arch, s: Wheel, h: Timer)
    requires arch != Ideal && Sound(s) && Room(arch, s) && h in s.fam.lists
    requires forall t :: t in s.fam.at && t in s.timers && s.fam.at[t] == h ==> Reach(arch, s, s.timers[t].interval)
    ensures h in Image(arch, s).fam.lists
    ensures SweepList(arch, Image(arch, s), h) == Image(arch, SweepList(Ideal, s, h))
  {
    assert Built(s);
    hide Sound, Room, Reach, Image, Sweep, Distinct;
    ListMembers(s, h);
    ArmedMembers(s, h);
    ImageFired(arch, s);
    SweepImage(arch, s, s.fam.lists[h]);
  }

  // ---------------------------------------------------------------- turns of the wheels

  lemma ImageClock(arch: Arch, s: Wheel)
    ensures var i := Image(arch, s);
            && i.ticks == Unsigned(arch, s.ticks) && i.miTick == Size(arch, s.miTick) && i.maTick == Size(arch, s.maTick)
            && i.stTick == Size(arch, s.stTick) && i.miWheel == Size(arch, s.miWheel) && i.maWheel == Size(arch, s.maWheel)
            && i.mi == s.mi && i.ma == s.ma && i.st == s.st
  {
  }

  lemma SameDueOnMachine(arch: Arch, s: Wheel)
    requires arch != Ideal && Gap(s) && Clock(s)
    ensures FineDue(arch, Image(arch, s)) == FineDue(Ideal, s)
    ensures CoarseDue(arch, Image(arch, s)) == CoarseDue(Ideal, s)
    ensures OverflowDue(arch, Image(arch, s)) == OverflowDue(Ideal, s)
  {
    hide Signed, Unsigned, Size, Image;
    SignedSize(arch, s.ticks, s.miTick, MIN_TIME_OUT);
    SignedSize(arch, s.ticks, s.maTick, MIN_MA_TIMER);
    SignedSize(arch, s.ticks, s.stTick, MIN_ST_TIMER);
    SignedExact();
    ImageClock(arch, s);
  }

  lemma SignedExact()
    ensures forall x :: Signed(Ideal, x) == x
  {
  }

  lemma AdvanceFineImage(arch: Arch, s: Wheel)
    requires arch != Ideal
    ensures AdvanceFine(arch, Image(arch, s)) == Image(arch, AdvanceFine(Ideal, s))
  {
    hide Size, Unsigned;
    SizeStep(arch, s.miTick, MIN_TIME_OUT);
    SizeStep(arch, s.miWheel, 1);
    IdealExact();
  }

  lemma AdvanceCoarseImage(arch: Arch, s: Wheel)
    requires arch != Ideal
    ensures AdvanceCoarse(arch, Image(arch, s)) == Image(arch, AdvanceCoarse(Ideal, s))
  {
    hide Size, Unsigned;
    SizeStep(arch, s.maTick, MIN_MA_TIMER);
    SizeStep(arch, s.maWheel, 1);
    IdealExact();
  }

  lemma FineTurnImage(arch: Arch, s: Wheel)
    requires arch != Ideal && Sound(s) && Timely(s) && FineDue(Ideal, s) && AllNear(arch, s) && Room(arch, AdvanceFine(Ideal, s))
    ensures FineTurn(arch, Image(arch, s)) == Image(arch, FineTurn(Ideal, s))
  {
    var a := AdvanceFine(Ideal, s);
    AdvancedSound(s, a);
    FineReach(arch, s);
    hide Sound, Timely, FineDue, Reach, AllNear, Room, Image, SweepList, Size, Unsigned;
    AdvanceFineImage(arch, s);
    WheelSmall(arch, a);
    ImageClock(arch, a);
    hide AdvanceFine;
    SweepListImage(arch, a, a.mi[a.miWheel % MAX_MI_WHEEL]);
  }

  /** Whatever the next fine slot holds fires. */
  lemma FineReach(arch: Arch, s: Wheel)
    requires Sound(s) && Timely(s) && FineDue(Ideal, s) && AllNear(arch, s)
    ensures var a := AdvanceFine(Ideal, s);
            forall t :: t in a.fam.at && t in a.timers && a.fam.at[t] == FineHead(s) ==> Reach(arch, a, a.timers[t].interval)
  {
    hide Timely;
    AdvanceFineTimely(s);
  }

  /** Whatever the next coarse slot holds is close to its time. */
  lemma CoarseReach(arch: Arch, s: Wheel)
    requires Sound(s) && Timely(s) && CoarseDue(Ideal, s) && AllNear(arch, s) && s.ticks < s.miTick + MIN_TIME_OUT
    ensures var a := AdvanceCoarse(Ideal, s);
            forall t :: t in a.fam.at && t in a.timers && a.fam.at[t] == CoarseHead(s) ==> Reach(arch, a, a.timers[t].interval)
  {
    hide Timely;
    AdvanceCoarseTimely(s);
  }

  lemma CoarseTurnImage(arch: Arch, s: Wheel)
    requires arch != Ideal && Sound(s) && Timely(s) && CoarseDue(Ideal, s) && AllNear(arch, s) && Room(arch, AdvanceCoarse(Ideal, s))
    requires s.ticks < s.miTick + MIN_TIME_OUT
    ensures CoarseTurn(arch, Image(arch, s)) == Image(arch, CoarseTurn(Ideal, s))
  {
    var a := AdvanceCoarse(Ideal, s);
    AdvancedSound(s, a);
    CoarseReach(arch, s);
    hide Sound, Timely, CoarseDue, Reach, AllNear, Room, Image, SweepList, Size, Unsigned;
    AdvanceCoarseImage(arch, s);
    WheelSmall(arch, a);
    ImageClock(arch, a);
    hide AdvanceCoarse;
    SweepListImage(arch, a, a.ma[a.maWheel % MAX_MA_WHEEL]);
  }

  /** Every timer keeps its deadline, and none is armed anew. */
  ghost predicate Keeping(s: Wheel, r: Wheel) {
    && r.timers.Keys == s.timers.Keys && r.ticks == s.ticks
    && forall t :: t in s.timers ==>
         r.timers[t].interval == s.timers[t].interval && (s.timers[t].idle ==> r.timers[t].idle)
  }

  lemma KeepingSelf(s: Wheel)
    ensures Keeping(s, s)
  {
  }

  lemma KeepingOn(s: Wheel, m: Wheel, r: Wheel)
    requires Keeping(s, m) && Keeping(m, r)
    ensures Keeping(s, r)
  {
  }

  lemma NearStays(arch: Arch, s: Wheel, r: Wheel)
    requires AllNear(arch, s) && Keeping(s, r)
    ensures AllNear(arch, r)
  {
  }

  lemma FineTurnKeeps(s: Wheel)
    requires Sound(s) && Timely(s) && FineDue(Ideal, s)
    ensures Keeping(s, FineTurn(Ideal, s))
  {
    hide Sound, Timely, FineTurn, FineDue;
    FineTurnIs(s);
    var r := FineTurn(Ideal, s);
    forall t | t in s.timers
      ensures r.timers[t].interval == s.timers[t].interval && (s.timers[t].idle ==> r.timers[t].idle)
    {
      assert Gone(s, r, t) || Untouched(s, r, t);
    }
  }

  lemma CoarseTurnKeeps(s: Wheel)
    requires Sound(s) && Timely(s) && CoarseDue(Ideal, s) && s.ticks < s.miTick + MIN_TIME_OUT
    ensures Keeping(s, CoarseTurn(Ideal, s))
  {
    CoarseTurnIs(s);
    var r := CoarseTurn(Ideal, s);
    forall t | t in s.timers
      ensures r.timers[t].interval == s.timers[t].interval && (s.timers[t].idle ==> r.timers[t].idle)
    {
      hide Timely, CoarseTurn, CoarseDue;
      assert Gone(s, r, t) || Untouched(s, r, t) || (t in s.fam.at && Cascaded(s, r, t));
    }
  }

  lemma FineRoom(arch: Arch, s: Wheel, r: Wheel)
    requires Room(arch, s) && FineDue(Ideal, s) && SameClock(AdvanceFine(Ideal, s), r)
    ensures Room(arch, AdvanceFine(Ideal, s)) && Room(arch, r) && Clock(s) && (Gap(s) ==> Gap(r))
  {
  }

  lemma CoarseRoom(arch: Arch, s: Wheel, r: Wheel)
    requires Room(arch, s) && CoarseDue(Ideal, s) && s.ticks < s.miTick + MIN_TIME_OUT
    requires SameClock(AdvanceCoarse(Ideal, s), r)
    ensures Room(arch, AdvanceCoarse(Ideal, s)) && Room(arch, r) && Clock(s) && (Gap(s) ==> Gap(r))
  {
    AdvanceCoarseClock(s);
  }

  lemma FineStepImage(arch: Arch, s: Wheel)
    requires arch != Ideal && Sound(s) && Timely(s) && Room(arch, s) && AllNear(arch, s) && FineDue(Ideal, s)
    ensures var m := FineTurn(Ideal, s);
            && Sound(m) && Timely(m) && Room(arch, m) && AllNear(arch, m) && Keeping(s, m) && (Gap(s) ==> Gap(m))
            && FineTurn(arch, Image(arch, s)) == Image(arch, m)
            && 0 < s.ticks - s.miTick && m.ticks - m.miTick < s.ticks - s.miTick
  {
    var m := FineTurn(Ideal, s);
    FineTurnIs(s);
    FineTurnKeeps(s);
    hide Sound, Timely, Image, FineTurn, Untouched, Gone, FineDue, AllNear;
    FineRoom(arch, s, m);
    hide Room, Gap;
    FineTurnImage(arch, s);
    NearStays(arch, s, m);
  }

  lemma {:induction false} FineTurnsImage(arch: Arch, s: Wheel)
    requires arch != Ideal && Sound(s) && Timely(s) && Room(arch, s) && AllNear(arch, s) && Gap(s)
    ensures var r := FineTurns(Ideal, s);
            FineTurns(arch, Image(arch, s)) == Image(arch, r) && Room(arch, r) && Gap(r) && Keeping(s, r)
    decreases s.ticks - s.miTick
  {
    assert Built(s) && Clock(s);
    hide Sound, Timely, Room, Gap, AllNear, Image, Keeping, FineTurn, FineDue, Signed;
    SameDueOnMachine(arch, s);
    KeepingSelf(s);
    if FineDue(Ideal, s) {
      var m := FineTurn(Ideal, s);
      FineStepImage(arch, s);
      FineTurnsImage(arch, m);
      KeepingOn(s, m, FineTurns(Ideal, m));
    }
  }

  lemma CoarseStepImage(arch: Arch, s: Wheel)
    requires arch != Ideal && Sound(s) && Timely(s) && Room(arch, s) && AllNear(arch, s) && CoarseDue(Ideal, s)
    requires s.ticks < s.miTick + MIN_TIME_OUT
    ensures var m := CoarseTurn(Ideal, s);
            && Sound(m) && Timely(m) && Room(arch, m) && AllNear(arch, m) && Keeping(s, m) && (Gap(s) ==> Gap(m))
            && CoarseTurn(arch, Image(arch, s)) == Image(arch, m)
            && 0 < s.ticks - s.maTick && m.ticks - m.maTick < s.ticks - s.maTick
  {
    var m := CoarseTurn(Ideal, s);
    CoarseTurnIs(s);
    CoarseTurnKeeps(s);
    hide Sound, Timely, Image, CoarseTurn, Untouched, Unloaded, CoarseDue, AllNear;
    CoarseRoom(arch, s, m);
    hide Room, Gap;
    CoarseTurnImage(arch, s);
    NearStays(arch, s, m);
  }

  lemma {:induction false} CoarseTurnsImage(arch: Arch, s: Wheel)
    requires arch != Ideal && Sound(s) && Timely(s) && Room(arch, s) && AllNear(arch, s) && Gap(s)
    requires s.ticks < s.miTick + MIN_TIME_OUT
    ensures var r := CoarseTurns(Ideal, s);
            CoarseTurns(arch, Image(arch, s)) == Image(arch, r) && Room(arch, r) && Gap(r) && Keeping(s, r)
    decreases s.ticks - s.maTick
  {
    assert Built(s) && Clock(s);
    hide Sound, Timely, Room, Gap, AllNear, Image, Keeping, CoarseTurn, CoarseDue, Signed;
    SameDueOnMachine(arch, s);
    KeepingSelf(s);
    if CoarseDue(Ideal, s) {
      var m := CoarseTurn(Ideal, s);
      CoarseStepImage(arch, s);
      CoarseTurnsImage(arch, m);
      KeepingOn(s, m, CoarseTurns(Ideal, m));
    }
  }

  /** Narrowing the clock to store it in tx_st_tick loses nothing. */
  lemma RescanClockImage(arch: Arch, s: Wheel)
    requires arch != Ideal && Room(arch, s)
    ensures var i := Image(arch, s); i.(stTick := i.ticks) == Image(arch, s.(stTick := s.ticks))
  {
    hide StoredTimers, Size, Unsigned, Room;
    ClockFits(arch, s);
  }

  lemma ClockFits(arch: Arch, s: Wheel)
    requires arch != Ideal && Room(arch, s)
    ensures Unsigned(arch, s.ticks) == Size(arch, s.ticks)
  {
  }

  /** Once the wheels have caught up every slot can be told. */
  lemma OverflowReach(arch: Arch, s: Wheel)
    requires Sound(s) && AllNear(arch, s) && s.ticks < s.maTick + MIN_MA_TIMER
    ensures forall t :: t in s.fam.at && t in s.timers ==> Reach(arch, s.(stTick := s.ticks), s.timers[t].interval)
  {
  }

  lemma RescanRoom(arch: Arch, s: Wheel)
    requires Room(arch, s) && s.ticks < s.maTick + MIN_MA_TIMER
    ensures Clock(s) && Room(arch, s.(stTick := s.ticks))
  {
  }

  lemma RescanImage(arch: Arch, s: Wheel)
    requires arch != Ideal && Sound(s) && Room(arch, s) && Gap(s) && AllNear(arch, s) && s.ticks < s.maTick + MIN_MA_TIMER
    ensures Rescan(arch, Image(arch, s)) == Image(arch, Rescan(Ideal, s)) && Room(arch, Rescan(Ideal, s))
  {
    var a := s.(stTick := s.ticks);
    RescanRoom(arch, s);
    SameDueOnMachine(arch, s);
    RescanClockImage(arch, s);
    ImageClock(arch, s);
    AdvancedSound(s, a);
    OverflowReach(arch, s);
    if OverflowDue(Ideal, s) { RoomStays(arch, a, SweepList(Ideal, a, a.st)); }
    hide Sound, Room, AllNear, Reach, Image, SweepList, OverflowDue;
    SweepListImage(arch, a, a.st);
  }

  lemma TickedImage(arch: Arch, s: Wheel, now: int)
    ensures Image(arch, s).(ticks := Unsigned(arch, now)) == Image(arch, s.(ticks := now))
  {
  }

  /** One poll at the machine's reading of the clock. */
  lemma PollImage(arch: Arch, s: Wheel, now: int)
    requires arch != Ideal && Sound(s) && Timely(s) && s.ticks <= now
    requires Room(arch, s.(ticks := now)) && Gap(s.(ticks := now)) && AllNear(arch, s.(ticks := now))
    ensures Poll(arch, Image(arch, s), Unsigned(arch, now)) == Image(arch, Poll(Ideal, s, now))
    ensures Room(arch, Poll(Ideal, s, now))
  {
    var a := s.(ticks := now);
    Ticked(s, now);
    TickedImage(arch, s, now);
    var f := FineTurns(Ideal, a);
    FineTurnsAre(a);
    FineTurnsImage(arch, a);
    var c := CoarseTurns(Ideal, f);
    CoarseTurnsAre(f);
    hide Sound, Timely, FineTurns, CoarseTurns, Rescan, FineCaughtUp, CoarseCaughtUp, Image, Room, Gap, AllNear, Keeping;
    NearStays(arch, a, f);
    CoarseTurnsImage(arch, f);
    NearStays(arch, f, c);
    RescanImage(arch, c);
  }

  // ---------------------------------------------------------------- runs

  /** Every armed timer is less than half the tick range ahead of the clock. */
  ghost predicate Ahead(arch: Arch, s: Wheel) {
    forall t :: t in s.timers && !s.timers[t].idle ==>
      s.timers[t].interval - s.ticks - MIN_TIME_OUT < HALF && (arch == Size64 ==> s.timers[t].interval < WORD32)
  }

  /** What holds over a run: residency, a young ring, timers ahead, and a rescan that is not older than
      the coarse tick by 45000. */
  ghost predicate Fits(arch: Arch, s: Wheel) {
    Sound(s) && Timely(s) && Room(arch, s) && Ahead(arch, s) && s.maTick - s.stTick < MIN_ST_TIMER
  }

  /** No armed timer is overdue by half the tick range. */
  ghost predicate NoneLost(s: Wheel) {
    forall t :: t in s.timers && !s.timers[t].idle ==> s.ticks - s.timers[t].interval <= HALF - MIN_TIME_OUT
  }

  lemma NearOf(arch: Arch, s: Wheel)
    requires Ahead(arch, s) && NoneLost(s) && (arch == Size64 ==> forall t :: t in s.timers && !s.timers[t].idle ==> 0 <= s.timers[t].interval)
    ensures AllNear(arch, s)
  {
  }

  /** With a 64-bit size_t no deadline was ever negative. */
  lemma Naturals(arch: Arch, s: Wheel)
    requires Sound(s) && Timely(s) && Room(arch, s)
    ensures arch == Size64 ==> forall t :: t in s.timers && !s.timers[t].idle ==> 0 <= s.timers[t].interval
  {
    if arch == Size64 {
      forall t | t in s.timers && !s.timers[t].idle ensures 0 <= s.timers[t].interval {
        AboveTicks(s, t);
      }
    }
  }

  lemma AboveTicks(s: Wheel, t: Timer)
    requires Sound(s) && Timely(s) && t in s.timers && !s.timers[t].idle
    ensures s.timers[t].interval >= s.maTick || s.timers[t].interval > s.stTick + MIN_ST_TIMER - MIN_MA_TIMER
  {
    Located(s, t);
    assert OnTime(s, s.fam.at[t], s.timers[t].interval);
    hide Sound, Timely;
    if k :| 0 <= k < MAX_MI_WHEEL && s.mi[k] == s.fam.at[t] {
      assert FineFits(s, k, s.timers[t].interval);
    } else if k :| 0 <= k < MAX_MA_WHEEL && s.ma[k] == s.fam.at[t] {
      assert CoarseFits(s, k, s.timers[t].interval);
    }
  }

  /** A timely wheel not outrun by 2^31 - 15 ticks holds no timer overdue by half the tick range. */
  lemma NearOfAhead(arch: Arch, s: Wheel)
    requires Sound(s) && Timely(s) && Room(arch, s) && Ahead(arch, s)
    requires s.ticks - s.maTick < HALF - MIN_TIME_OUT && s.ticks - s.stTick <= HALF + MIN_ST_TIMER - MIN_MA_TIMER - MIN_TIME_OUT
    ensures NoneLost(s) && AllNear(arch, s)
  {
    forall t | t in s.timers && !s.timers[t].idle
      ensures Near(arch, s, s.timers[t].interval) && s.ticks - s.timers[t].interval <= HALF - MIN_TIME_OUT
    {
      AboveTicks(s, t);
      hide Sound, Timely;
    }
  }

  /** The environment of the simulation: a young ring, timeouts below 2^31, and with a 64-bit size_t no
      deadline or reading of the clock beyond 2^32. */
  ghost predicate Modest(arch: Arch, s: Wheel, e: WheelEvent) {
    && InOrder(s, e)
    && match e
       case ResetEvent(_, u) => u < HALF && (arch == Size64 ==> s.ticks + u < WORD32)
       case ClockEvent(now) => Room(arch, s.(ticks := now))
       case PollEvent(now) => Room(arch, s.(ticks := now))
       case _ => true
  }

  /** A deadline d is filed alike: it is less than 2^32 ahead of the coarse tick or 750 ahead of the fine one,
      or too far for both wheels even modulo 2^32. */
  ghost predicate FiledAlike(s: Wheel, d: int) {
    || d - s.maTick < WORD32 || d - s.miTick < MIN_MA_TIMER
    || ((d - s.maTick) % WORD32 >= MIN_ST_TIMER && (d - s.miTick) % WORD32 >= MIN_MA_TIMER)
  }

  /** What the machine asks of it beyond that: a timeout is counted from the coarse tick, and a poll comes
      before the clock has outrun the wheels or a deadline. */
  ghost predicate Allowed(arch: Arch, s: Wheel, e: WheelEvent) {
    && Modest(arch, s, e)
    && match e
       case ResetEvent(_, u) => FiledAlike(s, s.ticks + u)
       case PollEvent(now) => Gap(s.(ticks := now)) && NoneLost(s.(ticks := now))
       case _ => true
  }

  /** The clock reading as tx_getticks returns it. */
  function Narrow(arch: Arch, e: WheelEvent): WheelEvent {
    match e
    case ClockEvent(now) => ClockEvent(Unsigned(arch, now))
    case PollEvent(now) => PollEvent(Unsigned(arch, now))
    case _ => e
  }

  lemma ResetImage(arch: Arch, s: Wheel, t: Timer, u: nat)
    requires arch != Ideal && Built(s) && t in s.timers
    ensures Reset(arch, Image(arch, s), t, u) == Image(arch, Reset(Ideal, s, t, u)) <==> PlacedAlike(arch, s, s.ticks + u)
  {
    hide Unsigned, Size, Enlist, Built, PlacedAlike;
    ImageFields(arch, s, t);
    UnsignedStep(arch, s.ticks, u);
    if s.timers[t].idle {
      EnlistImage(arch, s, t, u, u);
    } else {
      UnlistImage(arch, s, t);
      PlacedAlikeStays(arch, s, Unlist(s, t), s.ticks + u);
      EnlistImage(arch, Unlist(s, t), t, u, u);
    }
  }

  // ---------------------------------------------------------------- where a deadline goes, exactly

  lemma PlaceByOverflow(s: Wheel, toFine: nat, toCoarse: nat)
    requires Heads(s)
    ensures PlaceBy(s, toFine, toCoarse) == s.st <==> toFine >= MIN_MA_TIMER && toCoarse >= MIN_ST_TIMER
  {
  }

  /** The distances the machine computes. */
  lemma MachinePlace(arch: Arch, s: Wheel, d: int)
    requires arch != Ideal && Built(s) && Room(arch, s)
    ensures 0 <= Size(arch, Unsigned(arch, d) - Size(arch, s.miTick)) && 0 <= Size(arch, Unsigned(arch, d) - Size(arch, s.maTick))
    ensures Place(arch, Image(arch, s), Unsigned(arch, d))
         == PlaceBy(s, Size(arch, Unsigned(arch, d) - Size(arch, s.miTick)), Size(arch, Unsigned(arch, d) - Size(arch, s.maTick)))
  {
    SizeNatural(arch, Unsigned(arch, d) - Size(arch, s.miTick));
    SizeNatural(arch, Unsigned(arch, d) - Size(arch, s.maTick));
    hide Place, PlaceBy, Size, Unsigned;
    var f, c := Size(arch, Unsigned(arch, d) - Size(arch, s.miTick)), Size(arch, Unsigned(arch, d) - Size(arch, s.maTick));
    WheelSmall(arch, s);
    hide Room;
    PlaceIs(arch, Image(arch, s), Unsigned(arch, d), f, c);
    SamePlaceBy(arch, s, f, c);
  }

  lemma SizeNatural(arch: Arch, x: int)
    requires arch != Ideal
    ensures 0 <= Size(arch, x)
  {
  }

  lemma IdealPlace(s: Wheel, d: int)
    requires Built(s) && s.miTick <= d && s.maTick <= d
    ensures Place(Ideal, s, d) == PlaceBy(s, d - s.miTick, d - s.maTick)
  {
    IdealExact();
    hide Place, PlaceBy, Size;
    PlaceIs(Ideal, s, d, d - s.miTick, d - s.maTick);
  }

  /** With a 32-bit size_t both distances are taken modulo 2^32. */
  lemma FiledAlikeIff(s: Wheel, d: int)
    requires Heads(s) && Room(Size32, s) && s.ticks <= d
    ensures PlacedAlike(Size32, s, d) <==> FiledAlike(s, d)
  {
    Distances(s, d);
    hide Heads, Room, Place, PlaceBy, Image, Unsigned;
    var f, c := (d - s.miTick) % WORD32, (d - s.maTick) % WORD32;
    if d - s.maTick >= WORD32 && d - s.miTick >= MIN_MA_TIMER {
      PlaceByOverflow(s, f, c);
      PlaceByOverflow(s, d - s.miTick, d - s.maTick);
    } else if d - s.miTick < MIN_MA_TIMER {
      Mod32(d - s.miTick, 0);
      NearFine(s, f, c, d - s.maTick);
    } else {
      Mod32(d - s.miTick, 0);
      Mod32(d - s.maTick, 0);
    }
  }

  lemma Distances(s: Wheel, d: int)
    requires Heads(s) && Room(Size32, s) && s.ticks <= d
    ensures Built(s) && s.maTick <= s.miTick <= d
    ensures Place(Size32, Image(Size32, s), Unsigned(Size32, d)) == PlaceBy(s, (d - s.miTick) % WORD32, (d - s.maTick) % WORD32)
    ensures Place(Ideal, s, d) == PlaceBy(s, d - s.miTick, d - s.maTick)
  {
    hide Place, PlaceBy, Image;
    MachinePlace(Size32, s, d);
    IdealPlace(s, d);
    Diff32(d, s.miTick);
    Diff32(d, s.maTick);
  }

  /** Whatever is filed alike within the machine's bounds goes to the same list. */
  lemma FiledSame(arch: Arch, s: Wheel, d: int)
    requires arch != Ideal && Heads(s) && Room(arch, s) && s.ticks <= d && FiledAlike(s, d) && (arch == Size64 ==> d < WORD32)
    ensures PlacedAlike(arch, s, d)
  {
    if arch == Size32 {
      FiledAlikeIff(s, d);
    } else {
      SamePlaceOnMachine(arch, s, d);
    }
  }

  lemma NearFine(s: Wheel, toFine: nat, c: nat, e: nat)
    requires |s.mi| == MAX_MI_WHEEL && |s.ma| == MAX_MA_WHEEL && toFine < MIN_MA_TIMER
    ensures PlaceBy(s, toFine, c) == PlaceBy(s, toFine, e)
  {
  }

  lemma ResetAhead(arch: Arch, s: Wheel, t: Timer, u: nat)
    requires Built(s) && t in s.timers && Ahead(arch, s) && u < HALF && (arch == Size64 ==> s.ticks + u < WORD32)
    ensures Ahead(arch, Reset(Ideal, s, t, u)) && Ahead(arch, StopTimer(s, t)) && Ahead(arch, DrainTimer(s, t))
  {
    hide Place, Pushed, Unlinked, Built;
  }

  lemma AheadLater(arch: Arch, s: Wheel, now: int)
    requires Ahead(arch, s) && s.ticks <= now
    ensures Ahead(arch, s.(ticks := now))
  {
  }

  lemma PollFitsMachine(arch: Arch, s: Wheel, now: int)
    requires arch != Ideal && Fits(arch, s) && Allowed(arch, s, PollEvent(now))
    ensures Fits(arch, Poll(Ideal, s, now)) && Poll(arch, Image(arch, s), Unsigned(arch, now)) == Image(arch, Poll(Ideal, s, now))
  {
    hide Sound, Timely, Poll, Image, Room, Gap, Ahead, NoneLost, AllNear, PollFires, Unsigned;
    var a := s.(ticks := now);
    Ticked(s, now);
    AheadLater(arch, s, now);
    Naturals(arch, a);
    NearOf(arch, a);
    PollImage(arch, s, now);
    PollAhead(arch, s, now);
  }

  lemma PollAhead(arch: Arch, s: Wheel, now: int)
    requires Sound(s) && Timely(s) && s.ticks <= now && Ahead(arch, s)
    ensures Sound(Poll(Ideal, s, now)) && Timely(Poll(Ideal, s, now)) && Ahead(arch, Poll(Ideal, s, now))
    ensures Poll(Ideal, s, now).maTick - Poll(Ideal, s, now).stTick < MIN_ST_TIMER
  {
    hide Sound, Timely, Poll, PollFires;
    PollIs(s, now);
    assert Clock(Poll(Ideal, s, now)) by { TimelyClock(Poll(Ideal, s, now)); }
  }

  lemma TimelyClock(s: Wheel)
    requires Timely(s)
    ensures Clock(s)
  {
  }

  lemma FitsAllowed(arch: Arch, s: Wheel, e: WheelEvent)
    requires Fits(arch, s) && Allowed(arch, s, e)
    ensures Built(s) && Heads(s) && (!e.ClockEvent? && !e.PollEvent? && arch == Size64 ==> s.ticks < WORD32)
  {
    hide Sound, Gap, Ahead, NoneLost;
  }

  /** One event on the machine has the effect the ideal wheel has. */
  lemma ApplyImage(arch: Arch, s: Wheel, e: WheelEvent)
    requires arch != Ideal && Fits(arch, s) && Allowed(arch, s, e)
    ensures Fits(arch, Apply(Ideal, s, e))
    ensures Known(Image(arch, s), Narrow(arch, e))
    ensures Apply(arch, Image(arch, s), Narrow(arch, e)) == Image(arch, Apply(Ideal, s, e))
  {
    hide Sound, Timely, Built, Heads, Image, Room, Gap, Ahead, NoneLost, FiledAlike, PlacedAlike, Reset, StopTimer, DrainTimer, Poll, Unsigned;
    FitsAllowed(arch, s, e);
    ImageFired(arch, s);
    ApplyTimely(s, e);
    match e
    case ResetEvent(t, u) =>
      FiledSame(arch, s, s.ticks + u);
      ResetImage(arch, s, t, u);
      ResetAhead(arch, s, t, u);
      RoomStays(arch, s, Reset(Ideal, s, t, u));
    case StopEvent(t) =>
      StopImage(arch, s, t);
      ResetAhead(arch, s, t, 0);
      RoomStays(arch, s, StopTimer(s, t));
    case DrainEvent(t) =>
      StopImage(arch, s, t);
      ResetAhead(arch, s, t, 0);
      RoomStays(arch, s, DrainTimer(s, t));
    case ClockEvent(now) =>
      TickedImage(arch, s, now);
      AheadLater(arch, s, now);
    case PollEvent(now) =>
      PollFitsMachine(arch, s, now);
  }

  lemma StopImage(arch: Arch, s: Wheel, t: Timer)
    requires Built(s) && t in s.timers
    ensures StopTimer(Image(arch, s), t) == Image(arch, StopTimer(s, t))
    ensures DrainTimer(Image(arch, s), t) == Image(arch, DrainTimer(s, t))
  {
    hide Unlist, Built;
    UnlistImage(arch, s, t);
    FireImage(arch, s, t);
  }

  ghost predicate AllowedAll(arch: Arch, s: Wheel, es: seq<WheelEvent>)
    requires Built(s)
    decreases |es|
  {
    es == [] || (Allowed(arch, s, es[0]) && AllowedAll(arch, Apply(Ideal, s, es[0]), es[1..]))
  }

  /** The run of the machine: it stops at an event about a timer it does not know. */
  ghost function MachineAfter(arch: Arch, s: Wheel, es: seq<WheelEvent>): (r: Wheel)
    requires Built(s)
    decreases |es|
  {
    if es == [] || !Known(s, Narrow(arch, es[0])) then s
    else MachineAfter(arch, Apply(arch, s, Narrow(arch, es[0])), es[1..])
  }

  lemma {:induction false} AllowedLegal(arch: Arch, s: Wheel, es: seq<WheelEvent>)
    requires Built(s) && AllowedAll(arch, s, es)
    ensures Legal(s, es)
    decreases |es|
  {
    if es != [] { AllowedLegal(arch, Apply(Ideal, s, es[0]), es[1..]); }
  }

  /** The simulation: over a whole run the machine's wheel is the stored form of the ideal one, so it
      fires the same timers in the same order. With a 32-bit size_t that goes on across the wraps of
      the tick, for as long as the wheel counters do not wrap (fewer than fifteen wraps of the tick). */
  lemma {:induction false} MachineRun(arch: Arch, s: Wheel, es: seq<WheelEvent>)
    requires arch != Ideal && Fits(arch, s) && AllowedAll(arch, s, es)
    ensures Legal(s, es) && Fits(arch, After(s, es))
    ensures MachineAfter(arch, Image(arch, s), es) == Image(arch, After(s, es))
    ensures MachineAfter(arch, Image(arch, s), es).fired == After(s, es).fired
    decreases |es|
  {
    AllowedLegal(arch, s, es);
    ImageFired(arch, After(s, es));
    if es != [] {
      assert Built(s);
      hide Sound, Timely, Fits, Image, Allowed, Apply, Narrow;
      ApplyImage(arch, s, es[0]);
      MachineRun(arch, Apply(Ideal, s, es[0]), es[1..]);
    }
  }

  lemma NewRingFits(arch: Arch, s: Wheel, now: int)
    requires NewRing(s, now) && (arch == Size64 ==> 0 <= now < WORD32)
    ensures Fits(arch, s)
  {
    NewRingTimely(s, now);
    hide Sound, Timely;
  }

  /** After a poll at `last`, readings up to 2^31 - 765 ticks later are allowed while the ring is
      younger than 15 * (2^32 - 60) ticks. */
  lemma GapAllowed(arch: Arch, s: Wheel, last: int, now: int)
    requires Fits(arch, s) && last < s.maTick + MIN_MA_TIMER && last - s.stTick < MIN_ST_TIMER && s.ticks <= now
    requires now <= last + HALF - MIN_MA_TIMER - MIN_TIME_OUT
    requires now - Origin(s) < MIN_TIME_OUT * (WORD32 - MAX_MA_WHEEL) && (arch == Size64 ==> now < WORD32)
    ensures Allowed(arch, s, PollEvent(now)) && Allowed(arch, s, ClockEvent(now))
  {
    assert Clock(s);
    Ticked(s, now);
    AheadLater(arch, s, now);
    NearOfAhead(arch, s.(ticks := now));
    hide Sound, Timely, Ahead, AllNear;
  }
}
