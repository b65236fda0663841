/** Over whole runs the timer wheel refines a flat table of armed timers and their deadlines. */
module WheelRuns {
  import opened IntrusiveList
  import opened WheelModel
  import opened WheelProofs
  import opened WheelTheorems
  import opened PollTheorems

  // ---------------------------------------------------------------- the history of a poll

  /** Between the two states the timers in `log` fired, each once, and they are exactly the armed
      ones that became idle. */
  ghost predicate Logged(s: Wheel, r: Wheel, log: seq<Timer>) {
    && r.fired == s.fired + log && Distinct(log)
    && r.timers.Keys == s.timers.Keys
    && (forall t :: t in log ==> t in s.timers)
    && (forall t :: t in s.timers && s.timers[t].idle ==> r.timers[t].idle)
    && (forall t :: t in s.timers ==> (t in log <==> !s.timers[t].idle && r.timers[t].idle))
  }

  lemma LoggedNone(s: Wheel, r: Wheel)
    requires r.fired == s.fired && r.timers == s.timers
    ensures Logged(s, r, [])
  {
  }

  lemma DistinctJoin<T>(a: seq<T>, b: seq<T>)
    requires Distinct(a) && Distinct(b) && forall x :: x in a ==> x !in b
    ensures Distinct(a + b)
  {
    var c := a + b;
    forall i, j | 0 <= i < j < |c| ensures c[i] != c[j] {
      if i < |a| <= j {
        assert c[i] in a && c[j] in b;
      }
    }
  }

  lemma LoggedChain(s: Wheel, m: Wheel, r: Wheel, a: seq<Timer>, b: seq<Timer>)
    requires Logged(s, m, a) && Logged(m, r, b)
    ensures Logged(s, r, a + b)
  {
    DistinctJoin(a, b);
    assert s.fired + a + b == s.fired + (a + b);
    hide Distinct;
    assert forall t :: t in a + b <==> t in a || t in b;
  }

  lemma {:induction false} DueOnce(arch: Arch, s: Wheel, todo: seq<Timer>)
    requires Distinct(todo) && forall t :: t in todo ==> t in s.timers
    ensures Distinct(Due(arch, s, todo))
    ensures forall t :: t in Due(arch, s, todo) <==> t in todo && t in s.timers && Fires(arch, s, t)
    decreases |todo|
  {
    if todo != [] {
      Split(todo);
      DueOnce(arch, s, todo[1..]);
      if Fires(arch, s, todo[0]) { PushFacts(Due(arch, s, todo[1..]), todo[0]); }
      hide Fires, Distinct;
    }
  }

  lemma SweptLogged(arch: Arch, s: Wheel, todo: seq<Timer>, r: Wheel)
    requires Distinct(todo) && (forall t :: t in todo ==> t in s.timers && !s.timers[t].idle)
    requires SweptFlags(arch, s, todo, r)
    ensures Logged(s, r, Due(arch, s, todo))
  {
    DueOnce(arch, s, todo);
    hide Fires, Distinct, Due;
    var log := Due(arch, s, todo);
    forall t | t in s.timers ensures t in log <==> !s.timers[t].idle && r.timers[t].idle {
      if t in todo { assert t in log <==> Fires(arch, s, t); } else { assert t !in log; }
    }
    assert r.fired == s.fired + log;
    assert Distinct(log);
    assert r.timers.Keys == s.timers.Keys;
    assert (forall t :: t in log ==> t in s.timers);
    assert (forall t :: t in s.timers && s.timers[t].idle ==> r.timers[t].idle);
  }

  lemma ArmedMembers(s: Wheel, h: Timer)
    requires Sound(s) && h in s.fam.lists
    ensures Distinct(s.fam.lists[h])
    ensures forall t :: t in s.fam.lists[h] ==> t in s.timers && !s.timers[t].idle
  {
    ListMembers(s, h);
  }

  lemma SweepLogged(arch: Arch, s: Wheel, h: Timer) returns (log: seq<Timer>)
    requires Sound(s) && Stored(arch, s) && h in s.fam.lists
    ensures Logged(s, SweepList(arch, s, h), log)
  {
    ArmedMembers(s, h);
    SweepListIs(arch, s, h);
    hide Sound, Stored, SweepList, SweptFlags, SweptPlaces, Distinct, Due, Logged;
    log := Due(arch, s, s.fam.lists[h]);
    SweptLogged(arch, s, s.fam.lists[h], SweepList(arch, s, h));
  }

  lemma FineTurnLogged(s: Wheel) returns (log: seq<Timer>)
    requires Sound(s)
    ensures Logged(s, FineTurn(Ideal, s), log)
  {
    var a := AdvanceFine(Ideal, s);
    AdvancedSound(s, a);
    IdealStored(a);
    hide Sound, SweepList, Stored, Logged;
    log := SweepLogged(Ideal, a, a.mi[a.miWheel % MAX_MI_WHEEL]);
    LoggedFrom(s, a, FineTurn(Ideal, s), log);
  }

  lemma {:induction false} FineLogged(s: Wheel) returns (log: seq<Timer>)
    requires Sound(s) && Timely(s)
    ensures Logged(s, FineTurns(Ideal, s), log)
    decreases if FineDue(Ideal, s) then 1 + Signed(Ideal, s.ticks - s.miTick - MIN_TIME_OUT) else 0
  {
    assert Built(s);
    hide Sound, Timely, FineTurn, Logged, Gone, Untouched, Unloaded;
    if FineDue(Ideal, s) {
      FineTurnIs(s);
      var l := FineTurnLogged(s);
      var n := FineLogged(FineTurn(Ideal, s));
      LoggedChain(s, FineTurn(Ideal, s), FineTurns(Ideal, s), l, n);
      log := l + n;
    } else {
      log := [];
      LoggedNone(s, s);
    }
  }

  lemma CoarseTurnLogged(s: Wheel) returns (log: seq<Timer>)
    requires Sound(s)
    ensures Logged(s, CoarseTurn(Ideal, s), log)
  {
    var a := AdvanceCoarse(Ideal, s);
    AdvancedSound(s, a);
    IdealStored(a);
    hide Sound, SweepList, Stored, Logged;
    log := SweepLogged(Ideal, a, a.ma[a.maWheel % MAX_MA_WHEEL]);
    LoggedFrom(s, a, CoarseTurn(Ideal, s), log);
  }

  lemma {:induction false} CoarseLogged(s: Wheel) returns (log: seq<Timer>)
    requires Sound(s) && Timely(s) && s.ticks < s.miTick + MIN_TIME_OUT
    ensures Logged(s, CoarseTurns(Ideal, s), log)
    decreases if CoarseDue(Ideal, s) then 1 + Signed(Ideal, s.ticks - s.maTick - MIN_MA_TIMER) else 0
  {
    assert Built(s);
    hide Sound, Timely, CoarseTurn, Logged, Gone, Untouched, Unloaded;
    if CoarseDue(Ideal, s) {
      CoarseTurnIs(s);
      var l := CoarseTurnLogged(s);
      var n := CoarseLogged(CoarseTurn(Ideal, s));
      LoggedChain(s, CoarseTurn(Ideal, s), CoarseTurns(Ideal, s), l, n);
      log := l + n;
    } else {
      log := [];
      LoggedNone(s, s);
    }
  }

  lemma RescanLogged(s: Wheel) returns (log: seq<Timer>)
    requires Sound(s)
    ensures Logged(s, Rescan(Ideal, s), log)
  {
    if OverflowDue(Ideal, s) {
      var a := s.(stTick := s.ticks);
      AdvancedSound(s, a);
      IdealStored(a);
      log := SweepLogged(Ideal, a, a.st);
    } else {
      log := [];
    }
  }

  lemma PollLogged(s: Wheel, now: int) returns (log: seq<Timer>)
    requires Sound(s) && Timely(s) && s.ticks <= now
    ensures Logged(s, Poll(Ideal, s, now), log)
  {
    var a := s.(ticks := now);
    Ticked(s, now);
    var f := FineTurns(Ideal, a);
    FineTurnsAre(a);
    var c := CoarseTurns(Ideal, f);
    CoarseTurnsAre(f);
    var l1 := FineLogged(a);
    var l2 := CoarseLogged(f);
    var l3 := RescanLogged(c);
    hide Sound, Timely, FineTurns, CoarseTurns, Rescan, FineCaughtUp, CoarseCaughtUp, Logged;
    LoggedChain(a, f, c, l1, l2);
    LoggedChain(a, c, Rescan(Ideal, c), l1 + l2, l3);
    log := l1 + l2 + l3;
    LoggedFrom(s, a, Poll(Ideal, s, now), log);
  }

  lemma LoggedFrom(s: Wheel, a: Wheel, r: Wheel, log: seq<Timer>)
    requires Logged(a, r, log) && a.fired == s.fired && a.timers == s.timers
    ensures Logged(s, r, log)
  {
  }

  // ---------------------------------------------------------------- every event keeps the wheel timely

  lemma NewRingTimely(s: Wheel, now: int)
    requires NewRing(s, now)
    ensures Sound(s) && Timely(s)
  {
    var hs := s.mi + s.ma + [s.st];
    assert forall k :: 0 <= k < MAX_MI_WHEEL ==> hs[k] == s.mi[k];
    assert forall k :: 0 <= k < MAX_MA_WHEEL ==> hs[MAX_MI_WHEEL + k] == s.ma[k];
    assert hs[MAX_MI_WHEEL + MAX_MA_WHEEL] == s.st;
  }

  lemma EnlistTimely(s: Wheel, t: Timer, u: nat)
    requires Sound(s) && Timely(s) && t in s.timers && s.timers[t].idle
    ensures Timely(Enlist(Ideal, s, t, u))
  {
    assert Built(s) && s.miTick <= s.ticks + u;
    hide Sound, Heads, Clock, Enlist, OnTime, Built;
    var r := Enlist(Ideal, s, t, u);
    HeadsStay(s, r);
    ClockStays(s, r);
    PlaceFits(s, s.ticks + u);
    EnlistedAt(s, t, u);
    forall x | x in r.fam.at && x in r.timers ensures OnTime(r, r.fam.at[x], r.timers[x].interval) {
      EnlistedOnTime(s, t, u, r, x);
    }
  }

  lemma EnlistedAt(s: Wheel, t: Timer, u: nat)
    requires Built(s) && t in s.timers
    ensures var r := Enlist(Ideal, s, t, u);
            && r.fam.at == s.fam.at[t := Place(Ideal, s, s.ticks + u)]
            && r.timers == s.timers[t := s.timers[t].(idle := false, interval := s.ticks + u)]
  {
    hide Place;
  }

  lemma EnlistedOnTime(s: Wheel, t: Timer, u: nat, r: Wheel, x: Timer)
    requires Built(s) && Built(r) && SameRing(s, r) && SameClock(s, r) && t in s.timers
    requires r.fam.at == s.fam.at[t := Place(Ideal, s, s.ticks + u)]
    requires r.timers == s.timers[t := s.timers[t].(idle := false, interval := s.ticks + u)]
    requires x in r.fam.at && x in r.timers
    requires if x == t then OnTime(s, Place(Ideal, s, s.ticks + u), s.ticks + u)
             else x in s.fam.at && x in s.timers && OnTime(s, s.fam.at[x], s.timers[x].interval)
    ensures OnTime(r, r.fam.at[x], r.timers[x].interval)
  {
    hide OnTime, Place;
    OnTimeStays(s, r, r.fam.at[x], r.timers[x].interval);
  }

  lemma UnlistTimely(s: Wheel, t: Timer)
    requires Sound(s) && Timely(s) && t in s.timers
    ensures Timely(Unlist(s, t))
  {
    var r := Unlist(s, t);
    UnlistSound(s, t);
    HeadsStay(s, r);
    ClockStays(s, r);
    hide Sound, Heads, Clock, Unlist, OnTime;
    forall x | x in r.fam.at && x in r.timers ensures OnTime(r, r.fam.at[x], r.timers[x].interval) {
      OnTimeStays(s, r, r.fam.at[x], r.timers[x].interval);
    }
  }

  lemma FiredTimely(s: Wheel, fired: seq<Timer>)
    requires Timely(s)
    ensures Timely(s.(fired := fired))
  {
    var r := s.(fired := fired);
    HeadsStay(s, r);
    hide Heads;
    forall x | x in r.fam.at && x in r.timers ensures OnTime(r, r.fam.at[x], r.timers[x].interval) {
      OnTimeStays(s, r, r.fam.at[x], r.timers[x].interval);
    }
  }

  /** A legal event of the ideal wheel: the clock never goes back. */
  ghost predicate InOrder(s: Wheel, e: WheelEvent) {
    Known(s, e) && (e.ClockEvent? || e.PollEvent? ==> s.ticks <= e.now)
  }

  lemma ApplyTimely(s: Wheel, e: WheelEvent)
    requires Sound(s) && Timely(s) && InOrder(s, e)
    ensures Sound(Apply(Ideal, s, e)) && Timely(Apply(Ideal, s, e))
  {
    assert Built(s);
    match e
    case ResetEvent(t, u) =>
      ResetSound(Ideal, s, t, u);
      hide Sound, Timely, Enlist, Unlist;
      if s.timers[t].idle {
        EnlistTimely(s, t, u);
      } else {
        UnlistSound(s, t);
        UnlistTimely(s, t);
        UnlistedIdle(s, t);
        EnlistTimely(Unlist(s, t), t, u);
      }
    case StopEvent(t) =>
      StopSound(s, t);
      UnlistTimely(s, t);
    case DrainEvent(t) =>
      StopSound(s, t);
      UnlistTimely(s, t);
      FiredTimely(Unlist(s, t), s.fired + [t]);
    case ClockEvent(now) => Ticked(s, now);
    case PollEvent(now) => PollIs(s, now);
  }

  // ---------------------------------------------------------------- the flat table

  type Table = map<Timer, int>

  /** The armed timers and their deadlines. */
  ghost function Flat(s: Wheel): Table {
    map t | t in s.timers && !s.timers[t].idle :: s.timers[t].interval
  }

  /** What an event makes of the table when the timers in log fire. */
  ghost function TableNext(m: Table, ticks: int, e: WheelEvent, log: seq<Timer>): Table {
    match e
    case ResetEvent(t, u) => m[t := ticks + u]
    case StopEvent(t) => m - {t}
    case DrainEvent(t) => m - {t}
    case ClockEvent(now) => m
    case PollEvent(now) => m - set t | t in log
  }

  /** Which timers an event may and must fire: a poll fires armed timers only, each once, none
      fifteen ticks early, and leaves none 749 ticks overdue. */
  ghost predicate MayFire(m: Table, e: WheelEvent, log: seq<Timer>) {
    match e
    case DrainEvent(t) => log == if t in m then [t] else []
    case PollEvent(now) =>
      && Distinct(log)
      && (forall t :: t in log ==> t in m && m[t] < now + MIN_TIME_OUT)
      && (forall t :: t in m && m[t] <= now - 749 ==> t in log)
    case _ => log == []
  }

  ghost predicate TableStep(m: Table, ticks: int, e: WheelEvent, log: seq<Timer>, n: Table) {
    MayFire(m, e, log) && n == TableNext(m, ticks, e, log)
  }

  lemma ResetFlat(s: Wheel, t: Timer, u: nat)
    requires Built(s) && t in s.timers
    ensures var r := Reset(Ideal, s, t, u); Flat(r) == Flat(s)[t := s.ticks + u] && r.fired == s.fired
  {
    hide Place, Pushed, Unlinked;
  }

  lemma StopFlat(s: Wheel, t: Timer)
    requires Built(s) && t in s.timers
    ensures Flat(StopTimer(s, t)) == Flat(s) - {t} && StopTimer(s, t).fired == s.fired
    ensures Flat(DrainTimer(s, t)) == Flat(s) - {t}
    ensures DrainTimer(s, t).fired == s.fired + if t in Flat(s) then [t] else []
  {
    hide Unlinked;
  }

  lemma CallRefines(s: Wheel, e: WheelEvent, log: seq<Timer>)
    requires Built(s) && InOrder(s, e) && !e.PollEvent?
    requires log == if e.DrainEvent? && e.t in Flat(s) then [e.t] else []
    ensures var r := Apply(Ideal, s, e);
            r.fired == s.fired + log && TableStep(Flat(s), s.ticks, e, log, Flat(r))
  {
    hide Built, Flat, Reset, StopTimer, DrainTimer;
    match e
    case ResetEvent(t, u) => ResetFlat(s, t, u);
    case StopEvent(t) => StopFlat(s, t);
    case DrainEvent(t) => StopFlat(s, t);
    case ClockEvent(now) => SameFlat(s, s.(ticks := now));
  }

  /** Each event fires, arms and disarms what it would in a flat table. */
  lemma ApplyRefines(s: Wheel, e: WheelEvent) returns (log: seq<Timer>)
    requires Sound(s) && Timely(s) && InOrder(s, e)
    ensures var r := Apply(Ideal, s, e);
            r.fired == s.fired + log && TableStep(Flat(s), s.ticks, e, log, Flat(r))
  {
    assert Built(s);
    hide Sound, Timely, Flat, TableStep, Reset, StopTimer, DrainTimer, Poll, Built;
    if e.PollEvent? {
      log := PollRefines(s, e.now);
    } else {
      log := if e.DrainEvent? && e.t in Flat(s) then [e.t] else [];
      CallRefines(s, e, log);
    }
  }

  lemma SameFlat(s: Wheel, r: Wheel)
    requires r.timers == s.timers
    ensures Flat(r) == Flat(s)
  {
  }

  lemma PollRefinesOne(s: Wheel, now: int, log: seq<Timer>, r: Wheel, t: Timer)
    requires Sound(s) && Timely(s) && t in s.timers && !s.timers[t].idle && r.timers.Keys == s.timers.Keys
    requires t in log <==> r.timers[t].idle
    requires if PollFires(s, now, t) then Gone(s, r, t) else r.timers[t] == s.timers[t]
    ensures t in log ==> s.timers[t].interval < now + MIN_TIME_OUT
    ensures s.timers[t].interval <= now - 749 ==> t in log
    ensures t !in log ==> r.timers[t] == s.timers[t]
  {
    assert t in s.fam.at;
    PollBounds(s, now, t);
    hide PollFires, Sound, Timely;
  }

  lemma PollFlat(s: Wheel, r: Wheel, log: seq<Timer>)
    requires r.timers.Keys == s.timers.Keys
    requires forall t :: t in s.timers && s.timers[t].idle ==> r.timers[t].idle
    requires forall t :: t in s.timers && !s.timers[t].idle ==>
               (t in log <==> r.timers[t].idle) && (t !in log ==> r.timers[t] == s.timers[t])
    ensures Flat(r) == Flat(s) - set t | t in log
  {
  }

  lemma PollRefines(s: Wheel, now: int) returns (log: seq<Timer>)
    requires Sound(s) && Timely(s) && s.ticks <= now
    ensures var r := Poll(Ideal, s, now);
            r.fired == s.fired + log && TableStep(Flat(s), s.ticks, PollEvent(now), log, Flat(r))
  {
    hide Sound, Timely, PollFires, Poll, Distinct, Gone;
    log := PollLogged(s, now);
    PollIs(s, now);
    var r := Poll(Ideal, s, now);
    forall t | t in s.timers && !s.timers[t].idle
      ensures t in log ==> s.timers[t].interval < now + MIN_TIME_OUT
      ensures s.timers[t].interval <= now - 749 ==> t in log
      ensures t !in log ==> r.timers[t] == s.timers[t]
    {
      PollRefinesOne(s, now, log, r, t);
    }
    PollFlat(s, r, log);
    PollMay(s, now, r, log);
  }

  lemma PollMay(s: Wheel, now: int, r: Wheel, log: seq<Timer>)
    requires Logged(s, r, log)
    requires forall t :: t in s.timers && !s.timers[t].idle ==>
               && (t in log ==> s.timers[t].interval < now + MIN_TIME_OUT)
               && (s.timers[t].interval <= now - 749 ==> t in log)
    ensures MayFire(Flat(s), PollEvent(now), log)
  {
    hide Distinct;
  }

  // ---------------------------------------------------------------- runs

  ghost predicate Legal(s: Wheel, es: seq<WheelEvent>)
    requires Built(s)
    decreases |es|
  {
    es == [] || (InOrder(s, es[0]) && Legal(Apply(Ideal, s, es[0]), es[1..]))
  }

  ghost function After(s: Wheel, es: seq<WheelEvent>): (r: Wheel)
    requires Built(s) && Legal(s, es)
    ensures Built(r)
    decreases |es|
  {
    if es == [] then s else After(Apply(Ideal, s, es[0]), es[1..])
  }

  /** The clock a table follows. */
  function Clocked(ticks: int, e: WheelEvent): int {
    if e.ClockEvent? || e.PollEvent? then e.now else ticks
  }

  /** The table m, at clock ticks, can become n under the events with this history of firings. */
  ghost predicate TableRun(m: Table, ticks: int, es: seq<WheelEvent>, log: seq<Timer>, n: Table)
    decreases |es|
  {
    if es == [] then log == [] && n == m
    else exists i :: 0 <= i <= |log| && MayFire(m, es[0], log[..i])
           && TableRun(TableNext(m, ticks, es[0], log[..i]), Clocked(ticks, es[0]), es[1..], log[i..], n)
  }

  lemma ApplyClock(s: Wheel, e: WheelEvent)
    requires Sound(s) && Timely(s) && InOrder(s, e)
    ensures Apply(Ideal, s, e).ticks == Clocked(s.ticks, e)
  {
    if e.PollEvent? { PollIs(s, e.now); }
  }

  lemma RunSteps(s: Wheel, es: seq<WheelEvent>)
    requires Sound(s) && Legal(s, es)
    ensures Built(s)
    ensures es == [] ==> After(s, es) == s
    ensures es != [] ==>
              && InOrder(s, es[0]) && Known(s, es[0]) && Built(Apply(Ideal, s, es[0])) && Legal(Apply(Ideal, s, es[0]), es[1..])
              && After(s, es) == After(Apply(Ideal, s, es[0]), es[1..])
  {
    assert Built(s);
    hide Sound, Built, Apply;
  }

  lemma TableRunNone(m: Table, ticks: int)
    ensures TableRun(m, ticks, [], [], m)
  {
  }

  lemma TableRunStep(m: Table, ticks: int, es: seq<WheelEvent>, a: seq<Timer>, b: seq<Timer>, n: Table)
    requires es != [] && MayFire(m, es[0], a)
    requires TableRun(TableNext(m, ticks, es[0], a), Clocked(ticks, es[0]), es[1..], b, n)
    ensures TableRun(m, ticks, es, a + b, n)
  {
    hide MayFire, TableNext, Clocked;
    var log := a + b;
    assert log[|a|..] == b && log[..|a|] == a;
  }

  /** The refinement over whole runs: whatever a ring goes through, it stays timely, and its armed
      timers and firings are those of a run of the flat table. */
  lemma {:induction false} RunRefines(s: Wheel, es: seq<WheelEvent>) returns (log: seq<Timer>)
    requires Sound(s) && Timely(s) && Legal(s, es)
    ensures var r := After(s, es);
            && Sound(r) && Timely(r)
            && r.fired == s.fired + log && TableRun(Flat(s), s.ticks, es, log, Flat(r))
    decreases |es|
  {
    hide Sound, Timely, Apply, MayFire, TableNext, Flat, InOrder, Known, Clocked, TableRun, Legal, After, Built;
    RunSteps(s, es);
    if es == [] {
      log := [];
      TableRunNone(Flat(s), s.ticks);
    } else {
      var m := Apply(Ideal, s, es[0]);
      ApplyTimely(s, es[0]);
      ApplyClock(s, es[0]);
      var a := ApplyRefines(s, es[0]);
      var b := RunRefines(m, es[1..]);
      log := a + b;
      assert s.fired + a + b == s.fired + log;
      TableRunStep(Flat(s), s.ticks, es, a, b, Flat(After(m, es[1..])));
    }
  }

  /** The same from a new ring, which starts with the empty table. */
  lemma NewRingRefines(s: Wheel, now: int, es: seq<WheelEvent>) returns (log: seq<Timer>)
    requires NewRing(s, now) && Legal(s, es)
    ensures var r := After(s, es);
            Sound(r) && Timely(r) && r.fired == log && TableRun(map[], now, es, log, Flat(r))
  {
    NewRingTimely(s, now);
    log := RunRefines(s, es);
    assert Flat(s) == map[];
  }

  // ---------------------------------------------------------------- a punctual timer

  /** t is idle, or still in a wheel with the deadline d. */
  ghost predicate Resident(s: Wheel, t: Timer, d: int) {
    t in s.timers && (s.timers[t].idle || (InWheel(s, t) && s.timers[t].interval == d))
  }

  lemma PlaceInWheel(s: Wheel, d: int)
    requires Heads(s) && s.maTick <= s.miTick <= d && d - s.maTick < MIN_ST_TIMER
    ensures Place(Ideal, s, d) in s.mi || Place(Ideal, s, d) in s.ma
  {
  }

  /** A deadline less than 45000 ticks from the coarse tick is filed in a wheel. */
  lemma ResetResident(s: Wheel, t: Timer, u: nat)
    requires Sound(s) && Timely(s) && t in s.timers && s.ticks + u - s.maTick < MIN_ST_TIMER
    ensures Resident(Reset(Ideal, s, t, u), t, s.ticks + u)
  {
    hide Sound, OnTime, Place, Pushed, Unlinked, Built;
    var m := if s.timers[t].idle then s else Unlist(s, t);
    HeadsStay(s, m);
    hide Heads;
    PlaceInWheel(m, s.ticks + u);
    EnlistedAt(m, t, u);
  }

  /** Arming, stopping or firing another timer moves nothing else. */
  lemma OtherStays(s: Wheel, e: WheelEvent, t: Timer)
    requires Built(s) && Known(s, e) && !e.PollEvent? && !(e.ResetEvent? && e.t == t) && t in s.timers
    ensures var r := Apply(Ideal, s, e);
            && r.mi == s.mi && r.ma == s.ma && t in r.timers
            && (r.timers[t].idle || (r.timers[t] == s.timers[t] && (t in s.fam.at ==> t in r.fam.at && r.fam.at[t] == s.fam.at[t])))
  {
    hide Built, Place, Pushed, Unlinked;
    match e
    case ResetEvent(x, u) =>
      if s.timers[x].idle {
        EnlistedAt(s, x, u);
      } else {
        UnlinkedAt(s.fam, x);
        EnlistedAt(Unlist(s, x), x, u);
      }
    case StopEvent(x) => UnlinkedAt(s.fam, x);
    case DrainEvent(x) => UnlinkedAt(s.fam, x);
    case ClockEvent(now) =>
  }

  lemma ApplyResident(s: Wheel, e: WheelEvent, t: Timer, d: int)
    requires Sound(s) && Timely(s) && InOrder(s, e) && Resident(s, t, d) && !(e.ResetEvent? && e.t == t)
    ensures Resident(Apply(Ideal, s, e), t, d)
  {
    assert Built(s);
    if e.PollEvent? {
      hide Sound, Timely, Poll, PollFires, InWheel;
      PollIs(s, e.now);
      if s.timers[t].idle { IdleNotFired(s, e.now, t); }
    } else {
      hide Sound, Timely, Apply, Built;
      OtherStays(s, e, t);
    }
  }

  lemma IdleNotFired(s: Wheel, now: int, t: Timer)
    requires Sound(s) && t in s.timers && s.timers[t].idle
    ensures Built(s) && !PollFires(s, now, t)
  {
  }

  lemma {:induction false} RunResident(s: Wheel, es: seq<WheelEvent>, t: Timer, d: int)
    requires Sound(s) && Timely(s) && Legal(s, es) && Resident(s, t, d)
    requires forall e :: e in es ==> !(e.ResetEvent? && e.t == t)
    ensures Sound(After(s, es)) && Timely(After(s, es)) && Resident(After(s, es), t, d)
    decreases |es|
  {
    hide Sound, Timely, Apply, InOrder, Known, Legal, After, Built, Resident;
    RunSteps(s, es);
    if es != [] {
      assert es[0] in es && forall e :: e in es[1..] ==> e in es;
      ApplyTimely(s, es[0]);
      ApplyResident(s, es[0], t, d);
      RunResident(Apply(Ideal, s, es[0]), es[1..], t, d);
    }
  }

  lemma ResidentPunctual(s: Wheel, now: int, t: Timer, d: int)
    requires Sound(s) && Timely(s) && s.ticks <= now && Resident(s, t, d)
    ensures var r := Poll(Ideal, s, now);
            t in r.timers && (r.timers[t].idle || (r.timers[t].interval == d && d > now - MIN_TIME_OUT))
  {
    PollIs(s, now);
    hide Poll, Timely, Sound, PollFires;
    if s.timers[t].idle {
      IdleNotFired(s, now, t);
    } else if d <= now - MIN_TIME_OUT {
      WheelPunctual(s, now, t);
    }
  }

  /** The usual timer is at most fourteen ticks late: one that is armed for a deadline less than 45000
      ticks from the coarse tick never enters the overflow list, so whatever happens to the ring, as long as it
      is not armed anew, it is idle after the first poll fifteen ticks past its deadline. */
  lemma WheelTimerPunctual(s: Wheel, t: Timer, u: nat, a: Wheel, es: seq<WheelEvent>, b: Wheel, now: int)
    requires Sound(s) && Timely(s) && t in s.timers && s.ticks + u - s.maTick < MIN_ST_TIMER
    requires a == Reset(Ideal, s, t, u) && Legal(a, es) && b == After(a, es) && b.ticks <= now
    requires forall e :: e in es ==> !(e.ResetEvent? && e.t == t)
    ensures var d, r := s.ticks + u, Poll(Ideal, b, now);
            t in r.timers && (r.timers[t].idle || (r.timers[t].interval == d && d > now - MIN_TIME_OUT))
  {
    hide Sound, Timely, Reset, Poll, Legal, After, Resident;
    ResetTimely(s, t, u);
    RunResident(a, es, t, s.ticks + u);
    ResidentPunctual(b, now, t, s.ticks + u);
  }

  lemma ResetTimely(s: Wheel, t: Timer, u: nat)
    requires Sound(s) && Timely(s) && t in s.timers
    ensures Built(s) && Sound(Reset(Ideal, s, t, u)) && Timely(Reset(Ideal, s, t, u))
    ensures s.ticks + u - s.maTick < MIN_ST_TIMER ==> Resident(Reset(Ideal, s, t, u), t, s.ticks + u)
  {
    assert Built(s);
    if s.ticks + u - s.maTick < MIN_ST_TIMER { ResetResident(s, t, u); }
    hide Sound, Timely, Reset, Built;
    ApplyTimely(s, ResetEvent(t, u));
  }

  // ---------------------------------------------------------------- a late timer

  /** After a poll the clock values determine both wheels. */
  lemma PolledAt45749(s0: Wheel)
    requires NewRing(s0, 0)
    ensures var s1 := Poll(Ideal, s0, 45749);
            Sound(s1) && Timely(s1) && s1.ticks == 45749 && s1.maTick == 45000 && s1.miTick == 45735 && s1.stTick == 45749
            && forall t :: t in s0.timers ==> t in s1.timers && t !in s1.fam.at && s1.timers[t].idle
  {
    hide Poll;
    NewRingTimely(s0, 0);
    PollIs(s0, 45749);
    var s1 := Poll(Ideal, s0, 45749);
    forall t | t in s0.timers ensures t in s1.timers && t !in s1.fam.at && s1.timers[t].idle {
      assert t !in s0.fam.at && !PollFires(s0, 45749, t);
    }
    PollOrigin(s0, 45749);
  }

  /** The origin both wheels count from never changes. */
  lemma PollOrigin(s: Wheel, now: int)
    requires Built(s)
    ensures Poll(Ideal, s, now).miTick - 15 * Poll(Ideal, s, now).miWheel == s.miTick - 15 * s.miWheel
    ensures Poll(Ideal, s, now).maTick - 750 * Poll(Ideal, s, now).maWheel == s.maTick - 750 * s.maWheel
  {
    var a := s.(ticks := now);
    FineOrigin(a);
    CoarseOrigin(FineTurns(Ideal, a));
  }

  lemma {:induction false} FineOrigin(s: Wheel)
    requires Built(s)
    ensures var r := FineTurns(Ideal, s);
            r.miTick - 15 * r.miWheel == s.miTick - 15 * s.miWheel && r.maTick == s.maTick && r.maWheel == s.maWheel
    decreases if FineDue(Ideal, s) then 1 + Signed(Ideal, s.ticks - s.miTick - MIN_TIME_OUT) else 0
  {
    if FineDue(Ideal, s) { FineOrigin(FineTurn(Ideal, s)); }
  }

  lemma {:induction false} CoarseOrigin(s: Wheel)
    requires Built(s)
    ensures var r := CoarseTurns(Ideal, s);
            r.maTick - 750 * r.maWheel == s.maTick - 750 * s.maWheel && r.miTick == s.miTick && r.miWheel == s.miWheel
    decreases if CoarseDue(Ideal, s) then 1 + Signed(Ideal, s.ticks - s.maTick - MIN_MA_TIMER) else 0
  {
    if CoarseDue(Ideal, s) { CoarseOrigin(CoarseTurn(Ideal, s)); }
  }

  /** The bound of 749 is sharp: on a ring created at tick 0 and polled at 45749, a timer armed for
      44251 more ticks is still armed after the poll at 90748, 748 ticks past its deadline. */
  lemma LateByACoarseTurn(s0: Wheel, t: Timer)
    requires NewRing(s0, 0) && t in s0.timers
    ensures var s1 := Poll(Ideal, s0, 45749);
            var s2 := Reset(Ideal, s1, t, 44251);
            var s3 := Poll(Ideal, s2, 90748);
            t in s3.timers && !s3.timers[t].idle && s3.timers[t].interval == 90748 - 748
  {
    hide Poll;
    var s1 := Poll(Ideal, s0, 45749);
    PolledAt45749(s0);
    ApplyTimely(s1, ResetEvent(t, 44251));
    var s2 := Reset(Ideal, s1, t, 44251);
    assert s2.fam.at[t] == s2.st by { PushedAt(s1.fam, s1.st, t); }
    FiresOverflow(s2, 90748, t);
    PollIs(s2, 90748);
  }
}
