/** Rings brought to the ages at which machine integers part from the ideal wheel: a 32-bit wheel counter about to
    wrap, and a 64-bit size_t past the wrap of the 32-bit tick. */
module WheelAges {
  import opened WheelModel
  import opened WheelProofs
  import opened WheelTheorems
  import opened WheelRuns
  import opened WheelWidth
  import opened WheelWrap
  import opened WheelGaps
  import opened WheelTruth

  // ---------------------------------------------------------------- a 32-bit wheel counter

  /** A ring created at x after n polls, one every fifteen ticks. */
  ghost function PolledEvery(s: Wheel, x: int, n: nat): (r: Wheel)
    requires Built(s)
    ensures Built(r) && SameRing(s, r)
  {
    if n == 0 then s else Poll(Size32, PolledEvery(s, x, n - 1), (x + MIN_TIME_OUT * n) % WORD32)
  }

  /** The wheels keep up with such polls. */
  ghost predicate Keeps(m: Wheel, x: int, n: nat, g: Truth) {
    && Kept(Size32, m, g, map[]) && m.miWheel == Size(Size32, n)
    && g.now == g.mi == x + MIN_TIME_OUT * n && g.now < g.ma + MIN_MA_TIMER && g.now - g.st < MIN_ST_TIMER
  }

  lemma OneTurn(m: Wheel, g: Truth, now: int)
    requires Kept(Size32, m, g, map[]) && now == g.mi + MIN_TIME_OUT
    ensures Built(m) && Poll(Size32, m, now % WORD32).miWheel == Size(Size32, m.miWheel + 1)
  {
    hide Kept, Poll, Size, Follows, Signed, Turns, Unsigned, Built;
    KeptParts(Size32, m, g, map[]);
    FineTick(m, g);
    PollCounts(Size32, m, now % WORD32);
    SignedTick(Size32, now, g.mi, MIN_TIME_OUT);
    OneTurnOf(now);
  }

  lemma FineTick(m: Wheel, g: Truth)
    requires Follows(Size32, m, g)
    ensures m.miTick == Size(Size32, g.mi)
  {
  }

  lemma OneTurnOf(now: int)
    ensures Turns(Signed(Size32, 0), MIN_TIME_OUT) == 1 && Unsigned(Size32, now) == now % WORD32
  {
  }

  lemma CaughtNear(g: Truth, now: int)
    requires g.now == g.mi && now == g.mi + MIN_TIME_OUT && g.now < g.ma + MIN_MA_TIMER && g.now - g.st < MIN_ST_TIMER
    ensures var k := Caught(g.(now := now)); k.now == k.mi == now && now < k.ma + MIN_MA_TIMER && now - k.st < MIN_ST_TIMER
  {
  }

  lemma PollKeeps(m: Wheel, x: int, n: nat, g: Truth) returns (k: Truth)
    requires Keeps(m, x, n, g)
    ensures Built(m) && Keeps(Poll(Size32, m, (x + MIN_TIME_OUT * (n + 1)) % WORD32), x, n + 1, k)
  {
    hide Kept, Poll, Caught, Size, Left;
    var now := g.now + MIN_TIME_OUT;
    var none: Table := map[];
    OneTurn(m, g, now);
    SizeStep(Size32, n, 1);
    MayTickAfter(Size32, g, none, now);
    PollTruly(Size32, m, g, none, now);
    NoneLeft(Poll(Size32, m, now % WORD32));
    CaughtNear(g, now);
    k := Caught(g.(now := now));
  }

  lemma NoneLeft(r: Wheel)
    ensures Left(map[], r) == map[]
  {
  }

  lemma {:induction false} KeepsUp(s: Wheel, x: int, n: nat) returns (g: Truth)
    requires NewRing(s, x) && 0 <= x < WORD32 && Stored(Size32, s)
    ensures Built(s) && Keeps(PolledEvery(s, x, n), x, n, g)
    decreases n
  {
    hide NewRing, Stored, Keeps, Poll;
    RingBuilt(s, x);
    if n == 0 {
      g := Started(x);
      KeepsFirst(s, x);
    } else {
      var k := KeepsUp(s, x, n - 1);
      g := PollKeeps(PolledEvery(s, x, n - 1), x, n - 1, k);
    }
  }

  lemma RingBuilt(s: Wheel, x: int)
    requires NewRing(s, x)
    ensures Built(s) && s.miWheel == 0
  {
  }

  lemma KeepsFirst(s: Wheel, x: int)
    requires NewRing(s, x) && 0 <= x < WORD32 && Stored(Size32, s)
    ensures Keeps(s, x, 0, Started(x))
  {
    hide Kept, NewRing, Stored;
    RingBuilt(s, x);
    NewKept(Size32, s, x);
  }

  /** Any new ring, polled every fifteen ticks, comes to where the counter wraps: the next turn drains slot 0, where an
      unbounded counter would drain slot 46. */
  lemma CounterWraps(s: Wheel, x: int) returns (m: Wheel)
    requires NewRing(s, x) && 0 <= x < WORD32 && Stored(Size32, s)
    ensures Built(s) && m == PolledEvery(s, x, WORD32 - 1) && m.miWheel == WORD32 - 1
    ensures FineDrained(Size32, m) == m.mi[0] && FineDrained(Ideal, m) == m.mi[46] && m.mi[0] != m.mi[46]
  {
    hide NewRing, Stored, PolledEvery, Keeps, Heads;
    var g := KeepsUp(s, x, WORD32 - 1);
    m := PolledEvery(s, x, WORD32 - 1);
    KeepsParts(m, x, WORD32 - 1, g);
    LastSlot(m);
  }

  lemma LastSlot(m: Wheel)
    requires Heads(m) && m.miWheel == WORD32 - 1
    ensures FineDrained(Size32, m) == m.mi[0] && FineDrained(Ideal, m) == m.mi[46] && m.mi[0] != m.mi[46]
  {
  }

  lemma KeepsParts(m: Wheel, x: int, n: nat, g: Truth)
    requires Keeps(m, x, n, g) && n < WORD32
    ensures Heads(m) && m.miWheel == n && m.miTick == Size(Size32, g.mi) && m.maTick == Size(Size32, g.ma)
  {
    hide Sound, Stored, Listed, Findable, Heads;
    SizeSmall(Size32, n);
  }

  /** Ten polls earlier the slot for a deadline 49 turns ahead is also drained by the third turn. */
  lemma SlotVisitedEarly(s: Wheel, x: int) returns (m: Wheel)
    requires NewRing(s, x) && 0 <= x < WORD32 && Stored(Size32, s)
    ensures Built(s) && m == PolledEvery(s, x, WORD32 - 10)
    ensures Place(Size32, m, (x + MIN_TIME_OUT * (WORD32 - 10 + 49)) % WORD32) == m.mi[Turned(Size32, m.miWheel, 3) % MAX_MI_WHEEL]
  {
    hide NewRing, Stored, PolledEvery, Place;
    var g := KeepsUp(s, x, WORD32 - 10);
    m := PolledEvery(s, x, WORD32 - 10);
    KeepsParts(m, x, WORD32 - 10, g);
    FarSlot(m, x, g);
  }

  lemma FarSlot(m: Wheel, x: int, g: Truth)
    requires Keeps(m, x, WORD32 - 10, g) && Heads(m) && m.miWheel == WORD32 - 10
    requires m.miTick == Size(Size32, g.mi) && m.maTick == Size(Size32, g.ma)
    ensures Place(Size32, m, (x + MIN_TIME_OUT * (WORD32 - 10 + 49)) % WORD32) == m.mi[Turned(Size32, m.miWheel, 3) % MAX_MI_WHEEL]
  {
    hide Heads, Kept;
    var d := x + MIN_TIME_OUT * (WORD32 - 10 + 49);
    assert Built(m) by { HeadsBuilt(m); }
    SizeDiff(Size32, d, g.mi);
    VisitedEarly();
    PlacedIsDrained(Size32, WORD32 - 10, 49);
    FarPlace(m, d % WORD32);
  }

  lemma FarPlace(m: Wheel, d: int)
    requires Built(m) && Size(Size32, d - m.miTick) == MIN_TIME_OUT * 49
    ensures Place(Size32, m, d) == m.mi[Size(Size32, m.miWheel + 49) % MAX_MI_WHEEL]
  {
    hide Size;
  }

  // ---------------------------------------------------------------- a 64-bit size_t past the wrap of the tick

  /** A ring without timers armed, created a thousand ticks before the wrap and polled 45000 ticks later. */
  lemma PolledPastWrap(s: Wheel) returns (m: Wheel)
    requires NewRing(s, WORD32 - 1000) && Stored(Size64, s)
    ensures Built(s) && m == Poll(Size64, s, 44000) && Kept(Size64, m, Started(WORD32 + 44000), map[])
    ensures Built(m) && m.timers.Keys == s.timers.Keys && m.maTick == m.miTick == WORD32 + 44000
  {
    hide NewRing, Kept, Poll, MayTick, Stored, Caught, Left;
    var none: Table := map[];
    NewKept(Size64, s, WORD32 - 1000);
    Mod32(WORD32 + 44000, 1);
    SoonAfter(Started(WORD32 - 1000), none, WORD32 + 44000);
    PollTruly(Size64, s, Started(WORD32 - 1000), none, WORD32 + 44000);
    m := Poll(Size64, s, 44000);
    NoneLeft(m);
    CaughtWhole(WORD32 - 1000, WORD32 + 44000);
    TrueTicks(m, Started(WORD32 + 44000), none);
  }

  lemma SoonAfter(g: Truth, due: Table, now: int)
    requires g == Started(g.now) && g.now <= now <= g.now + 50000 < WORD64 / 4
    ensures MayTick(Size64, g, due, now)
  {
  }

  lemma CaughtWhole(x: int, now: int)
    requires now == x + MIN_ST_TIMER
    ensures Caught(Started(x).(now := now)) == Started(now)
  {
  }

  lemma TrueTicks(m: Wheel, g: Truth, due: Table)
    requires Kept(Size64, m, g, due)
    ensures Built(m) && (0 <= g.ma && g.mi < WORD64 ==> m.maTick == g.ma && m.miTick == g.mi)
  {
    KeptParts(Size64, m, g, due);
    hide Kept;
  }

  /** So a ring is brought past 2^32, and from then on no timer goes to a wheel, whatever its deadline. */
  lemma NoWheelReached(s: Wheel, d: int) returns (m: Wheel)
    requires NewRing(s, WORD32 - 1000) && Stored(Size64, s)
    ensures Built(s) && m == Poll(Size64, s, 44000) && Built(m) && Place(Size64, m, d % WORD32) == m.st
  {
    hide NewRing, Poll, Place, Kept, Stored;
    m := PolledPastWrap(s);
    PlaceBehind(m, d % WORD32);
  }

  /** Armed with no delay right after a rescan. */
  lemma LateFrom(m: Wheel, x: int, t: Timer, a: Wheel)
    requires Kept(Size64, m, Started(x), map[]) && WORD32 <= x < WORD64 / 8 && t in m.timers
    requires Built(m) && a == Reset(Size64, m, t, 0)
    ensures Built(a)
    ensures var r := Poll(Size64, a, (x + 44999) % WORD32); t in r.timers && !r.timers[t].idle
  {
    hide Poll, Reset, Kept, MayTick;
    var none: Table := map[];
    var due: Table := map[t := x];
    ResetTruly(Size64, m, Started(x), none, t, 0);
    assert none[t := x + 0] == due;
    SoonAfter(Started(x), due, x + 44999);
    PollTruly(Size64, a, Started(x), due, x + 44999);
    assert PolledOne(Size64, Started(x).(now := x + 44999), due, Poll(Size64, a, (x + 44999) % WORD32), t);
  }

  /** The bound is sharp: on that ring a timer armed with no delay right after the poll at 2^32 + 44000
      is still armed after a poll 44999 ticks later. */
  lemma LateByARescan(s: Wheel, t: Timer) returns (m: Wheel, a: Wheel)
    requires NewRing(s, WORD32 - 1000) && Stored(Size64, s) && t in s.timers
    ensures Built(s) && m == Poll(Size64, s, 44000) && Built(m) && t in m.timers && a == Reset(Size64, m, t, 0) && Built(a)
    ensures var r := Poll(Size64, a, 44000 + 44999); t in r.timers && !r.timers[t].idle
  {
    hide NewRing, Poll, Reset, Kept, Stored;
    m := PolledPastWrap(s);
    a := Reset(Size64, m, t, 0);
    LateFrom(m, WORD32 + 44000, t, a);
    Mod32(WORD32 + 44000 + 44999, 1);
  }
}
