/** The timer wheel of tx_timer.cpp as a state machine on values, over ideal or machine integers. */
module WheelModel {
  import opened IntrusiveList
  import LoopModel

  const MIN_TIME_OUT := 15
  const MAX_MI_WHEEL := 50
  const MAX_MA_WHEEL := 60
  const MIN_MA_TIMER := 750
  const MIN_ST_TIMER := 45000

  const WORD32 := 0x1_0000_0000
  const WORD64 := 0x1_0000_0000_0000_0000

  // ---------------------------------------------------------------- integers

  /** unsigned is 32 bits wide and size_t 32 or 64; Ideal stands for unbounded integers. */
  datatype Arch = Ideal | Size32 | Size64

  /** A value stored in an unsigned. */
  function Unsigned(arch: Arch, x: int): int {
    if arch == Ideal then x else x % WORD32
  }

  /** A value stored in a size_t. */
  function Size(arch: Arch, x: int): int {
    match arch
    case Ideal => x
    case Size32 => x % WORD32
    case Size64 => x % WORD64
  }

  /** A value cast to int. */
  function Signed(arch: Arch, x: int): int {
    if arch == Ideal then x
    else if x % WORD32 < WORD32 / 2 then x % WORD32
    else x % WORD32 - WORD32
  }

  // ---------------------------------------------------------------- the ring

  datatype TimerFields = TimerFields(idle: bool, interval: int, task: LoopModel.OptTask)

  type Timer = Link<TimerFields>
  type OptTimer = Link?<TimerFields>

  datatype Wheel = Wheel(
    mi: seq<Timer>,                      // heads of the fine slots
    ma: seq<Timer>,                      // heads of the coarse slots
    st: Timer,                           // head of the overflow list
    fam: Family<TimerFields>,
    timers: map<Timer, TimerFields>,     // every initialised timer of the ring
    ticks: int,                          // tx_ticks
    miTick: int, miWheel: int,
    maTick: int, maWheel: int,
    stTick: int,
    fired: seq<Timer>)                   // history: timers whose task was activated, in order

  ghost predicate Built(s: Wheel) {
    && |s.mi| == MAX_MI_WHEEL && |s.ma| == MAX_MA_WHEEL
    && (forall k :: 0 <= k < MAX_MI_WHEEL ==> s.mi[k] in s.fam.lists)
    && (forall k :: 0 <= k < MAX_MA_WHEEL ==> s.ma[k] in s.fam.lists)
    && s.st in s.fam.lists
  }

  /** What no operation on timers changes. */
  ghost predicate SameRing(s: Wheel, r: Wheel) {
    && r.mi == s.mi && r.ma == s.ma && r.st == s.st
    && r.fam.lists.Keys == s.fam.lists.Keys && r.timers.Keys == s.timers.Keys
  }

  ghost predicate SameClock(s: Wheel, r: Wheel) {
    && r.ticks == s.ticks && r.miTick == s.miTick && r.miWheel == s.miWheel
    && r.maTick == s.maTick && r.maWheel == s.maWheel && r.stTick == s.stTick
  }

  // ---------------------------------------------------------------- tx_timer_reset, stop, drain

  /** The list tx_timer_reset chooses for a deadline. */
  ghost function Place(arch: Arch, s: Wheel, deadline: int): (h: Timer)
    requires Built(s)
    ensures h in s.fam.lists
  {
    var d := Size(arch, deadline - s.miTick) / MIN_TIME_OUT;
    var mi := if d == 0 then 1 else d;
    if mi < MAX_MI_WHEEL then s.mi[Size(arch, s.miWheel + mi) % MAX_MI_WHEEL]
    else
      var ma := Size(arch, deadline - s.maTick) / MIN_MA_TIMER;
      if ma < MAX_MA_WHEEL then s.ma[Size(arch, s.maWheel + ma) % MAX_MA_WHEEL]
      else s.st
  }

  /** tx_timer_reset of an idle timer. */
  ghost function Enlist(arch: Arch, s: Wheel, t: Timer, umilsec: int): (r: Wheel)
    requires Built(s) && t in s.timers
    ensures Built(r) && SameRing(s, r) && SameClock(s, r) && r.fired == s.fired
  {
    var deadline := Unsigned(arch, s.ticks + umilsec);
    s.(timers := s.timers[t := s.timers[t].(idle := false, interval := deadline)],
       fam := Pushed(s.fam, Place(arch, s, deadline), t))
  }

  ghost function Unlist(s: Wheel, t: Timer): (r: Wheel)
    requires Built(s) && t in s.timers
    ensures Built(r) && SameRing(s, r) && SameClock(s, r) && r.fired == s.fired
  {
    s.(timers := s.timers[t := s.timers[t].(idle := true)], fam := Unlinked(s.fam, t))
  }

  ghost function Reset(arch: Arch, s: Wheel, t: Timer, umilsec: int): (r: Wheel)
    requires Built(s) && t in s.timers
    ensures Built(r) && SameRing(s, r) && SameClock(s, r)
  {
    if s.timers[t].idle then Enlist(arch, s, t, umilsec) else Enlist(arch, Unlist(s, t), t, umilsec)
  }

  ghost function StopTimer(s: Wheel, t: Timer): (r: Wheel)
    requires Built(s) && t in s.timers
    ensures Built(r) && SameRing(s, r) && SameClock(s, r)
  {
    if s.timers[t].idle then s else Unlist(s, t)
  }

  /** tx_timer_drain: the timer fires at once. */
  ghost function DrainTimer(s: Wheel, t: Timer): (r: Wheel)
    requires Built(s) && t in s.timers
    ensures Built(r) && SameRing(s, r) && SameClock(s, r)
  {
    if s.timers[t].idle then s else Unlist(s, t).(fired := s.fired + [t])
  }

  // ---------------------------------------------------------------- tx_timer_polling

  /** The test that decides between firing and arming again. */
  ghost predicate Fires(arch: Arch, s: Wheel, t: Timer)
    requires t in s.timers
  {
    Signed(arch, s.timers[t].interval - s.ticks - MIN_TIME_OUT) < 0
  }

  /** The body of the three drain loops. */
  ghost function Handle(arch: Arch, s: Wheel, t: Timer): (r: Wheel)
    requires Built(s) && t in s.timers
    ensures Built(r) && SameRing(s, r) && SameClock(s, r)
  {
    if Fires(arch, s, t) then Unlist(s, t).(fired := s.fired + [t])
    else Enlist(arch, Unlist(s, t), t, Unsigned(arch, s.timers[t].interval - s.ticks))
  }

  ghost function Sweep(arch: Arch, s: Wheel, todo: seq<Timer>): (r: Wheel)
    requires Built(s) && forall t :: t in todo ==> t in s.timers
    ensures Built(r) && SameRing(s, r) && SameClock(s, r)
    decreases |todo|
  {
    if todo == [] then s else Sweep(arch, Handle(arch, s, todo[0]), todo[1..])
  }

  /** Sweeping one list; a list can only hold timers of the ring. */
  ghost function SweepList(arch: Arch, s: Wheel, h: Timer): (r: Wheel)
    requires Built(s) && h in s.fam.lists
    ensures Built(r) && SameRing(s, r) && SameClock(s, r)
  {
    if forall t :: t in s.fam.lists[h] ==> t in s.timers then Sweep(arch, s, s.fam.lists[h]) else s
  }

  ghost predicate FineDue(arch: Arch, s: Wheel) {
    Signed(arch, s.ticks - s.miTick - MIN_TIME_OUT) >= 0
  }

  ghost predicate CoarseDue(arch: Arch, s: Wheel) {
    Signed(arch, s.ticks - s.maTick - MIN_MA_TIMER) >= 0
  }

  ghost predicate OverflowDue(arch: Arch, s: Wheel) {
    Signed(arch, s.ticks - s.stTick - MIN_ST_TIMER) >= 0
  }

  ghost function AdvanceFine(arch: Arch, s: Wheel): Wheel {
    s.(miTick := Size(arch, s.miTick + MIN_TIME_OUT), miWheel := Size(arch, s.miWheel + 1))
  }

  ghost function AdvanceCoarse(arch: Arch, s: Wheel): Wheel {
    s.(maTick := Size(arch, s.maTick + MIN_MA_TIMER), maWheel := Size(arch, s.maWheel + 1))
  }

  ghost function FineTurn(arch: Arch, s: Wheel): (r: Wheel)
    requires Built(s)
    ensures Built(r) && SameRing(s, r) && SameClock(AdvanceFine(arch, s), r)
  {
    var a := AdvanceFine(arch, s);
    SweepList(arch, a, a.mi[a.miWheel % MAX_MI_WHEEL])
  }

  ghost function CoarseTurn(arch: Arch, s: Wheel): (r: Wheel)
    requires Built(s)
    ensures Built(r) && SameRing(s, r) && SameClock(AdvanceCoarse(arch, s), r)
  {
    var a := AdvanceCoarse(arch, s);
    SweepList(arch, a, a.ma[a.maWheel % MAX_MA_WHEEL])
  }

  /** The wheels catch up in a finite number of turns, over machine integers too. */
  lemma SignedStep(arch: Arch, x: int, tick: int, step: nat)
    requires step < 1000 && Signed(arch, x - tick - step) >= 0
    ensures Signed(arch, x - Size(arch, tick + step) - step) == Signed(arch, x - tick - step) - step
  {
    var y, m := x - tick - step, Size(arch, tick + step);
    if arch != Ideal {
      SizeQuotient(arch, tick + step);
      var q := (tick + step - m) / WORD32;
      Shift32(y - step, q);
      StepDown(y, step);
    }
  }

  /** A size_t differs from its exact value by a multiple of 2^32 on both machines. */
  lemma SizeQuotient(arch: Arch, x: int)
    requires arch != Ideal
    ensures x == Size(arch, x) + (x - Size(arch, x)) / WORD32 * WORD32
  {
    if arch == Size32 {
      Quotient32(x);
    } else {
      Quotient64(x);
    }
  }

  lemma DivMul(q: int)
    ensures q * WORD32 / WORD32 == q
  {
  }

  lemma Quotient32(x: int)
    ensures x == x % WORD32 + (x - x % WORD32) / WORD32 * WORD32
  {
    assert x - x % WORD32 == x / WORD32 * WORD32;
    DivMul(x / WORD32);
  }

  lemma Quotient64(x: int)
    ensures x == x % WORD64 + (x - x % WORD64) / WORD32 * WORD32
  {
    var q := x / WORD64 * WORD32;
    assert x - x % WORD64 == q * WORD32;
    DivMul(q);
  }

  lemma Shift32(y: int, q: int)
    ensures (y + q * WORD32) % WORD32 == y % WORD32
  {
  }

  lemma StepDown(y: int, step: nat)
    requires step < 1000 && y % WORD32 < WORD32 / 2
    ensures Signed(Size32, y - step) == y % WORD32 - step
  {
    var r, q := y % WORD32, y / WORD32;
    assert y - step == (r - step) + q * WORD32;
    Shift32(r - step, q);
  }

  ghost function FineTurns(arch: Arch, s: Wheel): (r: Wheel)
    requires Built(s)
    ensures Built(r) && SameRing(s, r) && r.ticks == s.ticks && !FineDue(arch, r)
    decreases if FineDue(arch, s) then 1 + Signed(arch, s.ticks - s.miTick - MIN_TIME_OUT) else 0
  {
    if FineDue(arch, s) then
      SignedStep(arch, s.ticks, s.miTick, MIN_TIME_OUT);
      FineTurns(arch, FineTurn(arch, s))
    else s
  }

  ghost function CoarseTurns(arch: Arch, s: Wheel): (r: Wheel)
    requires Built(s)
    ensures Built(r) && SameRing(s, r) && r.ticks == s.ticks && !CoarseDue(arch, r)
    decreases if CoarseDue(arch, s) then 1 + Signed(arch, s.ticks - s.maTick - MIN_MA_TIMER) else 0
  {
    if CoarseDue(arch, s) then
      SignedStep(arch, s.ticks, s.maTick, MIN_MA_TIMER);
      CoarseTurns(arch, CoarseTurn(arch, s))
    else s
  }

  ghost function Rescan(arch: Arch, s: Wheel): (r: Wheel)
    requires Built(s)
    ensures Built(r) && SameRing(s, r)
  {
    if OverflowDue(arch, s) then SweepList(arch, s.(stTick := s.ticks), s.st) else s
  }

  /** tx_timer_polling up to its blocking decision, with the clock reading `now`. */
  ghost function Poll(arch: Arch, s: Wheel, now: int): (r: Wheel)
    requires Built(s)
    ensures Built(r) && SameRing(s, r)
  {
    Rescan(arch, CoarseTurns(arch, FineTurns(arch, s.(ticks := now))))
  }

  // ---------------------------------------------------------------- runs

  datatype WheelEvent =
    | ResetEvent(t: Timer, umilsec: nat)
    | StopEvent(t: Timer)
    | DrainEvent(t: Timer)
    | ClockEvent(now: int)        // tx_getticks called elsewhere
    | PollEvent(now: int)

  ghost predicate Known(s: Wheel, e: WheelEvent) {
    match e
    case ResetEvent(t, _) => t in s.timers
    case StopEvent(t) => t in s.timers
    case DrainEvent(t) => t in s.timers
    case ClockEvent(now) => true
    case PollEvent(now) => true
  }

  ghost function Apply(arch: Arch, s: Wheel, e: WheelEvent): (r: Wheel)
    requires Built(s) && Known(s, e)
    ensures Built(r) && SameRing(s, r)
  {
    match e
    case ResetEvent(t, u) => Reset(arch, s, t, u)
    case StopEvent(t) => StopTimer(s, t)
    case DrainEvent(t) => DrainTimer(s, t)
    case ClockEvent(now) => s.(ticks := now)
    case PollEvent(now) => Poll(arch, s, now)
  }

  /** tx_timer_ring_new at clock reading `now`, with its timers initialised and idle. */
  ghost predicate NewRing(s: Wheel, now: int) {
    && Built(s) && Distinct(s.mi + s.ma + [s.st])
    && s.fam.lists.Keys == (set h | h in s.mi) + (set h | h in s.ma) + {s.st}
    && s.fam.at == map[] && (forall h :: h in s.fam.lists ==> s.fam.lists[h] == [] && h !in s.timers)
    && (forall t :: t in s.timers ==> s.timers[t].idle)
    && s.ticks == s.miTick == s.maTick == s.stTick == now && s.miWheel == s.maWheel == 0
    && s.fired == []
  }
}
