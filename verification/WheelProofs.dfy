/** Why the timer wheel is right, over ideal integers: where an armed timer may sit, and what a poll
    fires. */
module WheelProofs {
  import opened IntrusiveList
  import opened WheelModel

  // ---------------------------------------------------------------- structure

  /** Every armed timer is on exactly one list and every idle one on none. */
  ghost predicate Sound(s: Wheel) {
    && Built(s) && WellFormed(s.fam)
    && (forall h :: h in s.fam.lists ==> h !in s.timers)
    && (forall t :: t in s.fam.at ==> t in s.timers)
    && (forall t :: t in s.timers ==> (s.timers[t].idle <==> t !in s.fam.at))
  }

  lemma PushedAt(f: Family<TimerFields>, h: Timer, x: Timer)
    requires h in f.lists
    ensures Pushed(f, h, x).at == f.at[x := h]
  {
  }

  lemma UnlinkedAt(f: Family<TimerFields>, x: Timer)
    ensures Unlinked(f, x).at == f.at - {x}
  {
    hide Minus;
  }

  lemma EnlistSound(arch: Arch, s: Wheel, t: Timer, umilsec: int)
    requires Sound(s) && t in s.timers && s.timers[t].idle
    ensures var r, d := Enlist(arch, s, t, umilsec), Unsigned(arch, s.ticks + umilsec);
            && Sound(r) && r.fam.at == s.fam.at[t := Place(arch, s, d)]
            && r.timers == s.timers[t := s.timers[t].(idle := false, interval := d)]
  {
    hide WellFormed, Pushed, Place;
    var d := Unsigned(arch, s.ticks + umilsec);
    PushedWellFormed(s.fam, Place(arch, s, d), t);
    PushedAt(s.fam, Place(arch, s, d), t);
  }

  lemma UnlistSound(s: Wheel, t: Timer)
    requires Sound(s) && t in s.timers
    ensures var r := Unlist(s, t);
            && Sound(r) && r.fam.at == s.fam.at - {t}
            && r.timers == s.timers[t := s.timers[t].(idle := true)]
  {
    hide WellFormed, Unlinked;
    UnlinkedWellFormed(s.fam, t);
    UnlinkedAt(s.fam, t);
  }

  lemma ResetSound(arch: Arch, s: Wheel, t: Timer, umilsec: int)
    requires Sound(s) && t in s.timers
    ensures Sound(Reset(arch, s, t, umilsec))
  {
    hide Sound, Unlist, Enlist;
    if s.timers[t].idle {
      EnlistSound(arch, s, t, umilsec);
    } else {
      UnlistSound(s, t);
      EnlistSound(arch, Unlist(s, t), t, umilsec);
    }
  }

  lemma StopSound(s: Wheel, t: Timer)
    requires Sound(s) && t in s.timers
    ensures Sound(StopTimer(s, t)) && Sound(DrainTimer(s, t))
  {
    hide WellFormed, Unlist;
    UnlistSound(s, t);
  }

  // ---------------------------------------------------------------- one timer of a drain loop

  /** A stored deadline is a value of its own type. */
  ghost predicate Stored(arch: Arch, s: Wheel) {
    forall t :: t in s.timers ==> Unsigned(arch, s.timers[t].interval) == s.timers[t].interval
  }

  /** Arming again for the remaining time restores the deadline, wrap-around included. */
  lemma RearmKeepsDeadline(arch: Arch, ticks: int, deadline: int)
    requires Unsigned(arch, deadline) == deadline
    ensures Unsigned(arch, ticks + Unsigned(arch, deadline - ticks)) == deadline
  {
    if arch != Ideal {
      var x := deadline - ticks;
      assert ticks + x % WORD32 == deadline - x / WORD32 * WORD32;
      Shift32(deadline, -(x / WORD32));
    }
  }

  /** What a drain loop does with a timer: it fires, or goes back with its deadline unchanged. */
  ghost predicate Handled(arch: Arch, s: Wheel, t: Timer, r: Wheel)
    requires Built(s) && t in s.timers
  {
    if Fires(arch, s, t) then
      && r.fam.at == s.fam.at - {t} && r.fired == s.fired + [t]
      && r.timers == s.timers[t := s.timers[t].(idle := true)]
    else
      && r.fam.at == s.fam.at[t := Place(arch, s, s.timers[t].interval)] && r.fired == s.fired
      && r.timers == s.timers[t := s.timers[t].(idle := false)]
  }

  lemma HandleSound(arch: Arch, s: Wheel, t: Timer)
    requires Sound(s) && t in s.timers
    ensures Sound(Handle(arch, s, t))
  {
    hide Sound, Unlist, Enlist, Unsigned, Fires;
    UnlistSound(s, t);
    if Fires(arch, s, t) {
      FiredSound(Unlist(s, t), s.fired + [t]);
    } else {
      UnlistedIdle(s, t);
      EnlistSound(arch, Unlist(s, t), t, Unsigned(arch, s.timers[t].interval - s.ticks));
    }
  }

  lemma UnlistedIdle(s: Wheel, t: Timer)
    requires Built(s) && t in s.timers
    ensures Unlist(s, t).timers[t].idle
  {
  }

  lemma HandleMoves(arch: Arch, s: Wheel, t: Timer)
    requires Built(s) && t in s.timers && Unsigned(arch, s.timers[t].interval) == s.timers[t].interval
    ensures Handled(arch, s, t, Handle(arch, s, t))
  {
    hide Fires, Unsigned, Place, Pushed, Unlinked;
    var u, d := Unlist(s, t), s.timers[t].interval;
    UnlinkedAt(s.fam, t);
    if !Fires(arch, s, t) {
      RearmKeepsDeadline(arch, s.ticks, d);
      SamePlace(arch, s, u, d);
      PushedAt(u.fam, Place(arch, s, d), t);
      assert (s.fam.at - {t})[t := Place(arch, s, d)] == s.fam.at[t := Place(arch, s, d)];
      assert s.timers[t := s.timers[t].(idle := true)][t := s.timers[t].(idle := false)] == s.timers[t := s.timers[t].(idle := false)];
    }
  }

  lemma SamePlace(arch: Arch, s: Wheel, u: Wheel, d: int)
    requires Built(s) && Built(u) && SameRing(s, u) && SameClock(s, u)
    ensures Place(arch, u, d) == Place(arch, s, d)
  {
  }

  lemma HandledStored(arch: Arch, s: Wheel, t: Timer, m: Wheel)
    requires Built(s) && t in s.timers && Handled(arch, s, t, m) && Stored(arch, s)
    ensures Stored(arch, m)
  {
    hide Fires, Place, Unsigned;
  }

  lemma HandleIs(arch: Arch, s: Wheel, t: Timer)
    requires Sound(s) && Stored(arch, s) && t in s.timers
    ensures Sound(Handle(arch, s, t)) && Handled(arch, s, t, Handle(arch, s, t)) && Stored(arch, Handle(arch, s, t))
  {
    assert Built(s);
    HandleSound(arch, s, t);
    hide Sound, Handle, Unsigned, Handled;
    HandleMoves(arch, s, t);
    HandledStored(arch, s, t, Handle(arch, s, t));
  }

  lemma FiredSound(s: Wheel, fired: seq<Timer>)
    requires Sound(s)
    ensures Sound(s.(fired := fired))
  {
    hide WellFormed;
  }

  // ---------------------------------------------------------------- a whole drain loop

  /** The timers of a list that fire, in list order. */
  ghost function Due(arch: Arch, s: Wheel, todo: seq<Timer>): seq<Timer>
    requires forall t :: t in todo ==> t in s.timers
    decreases |todo|
  {
    if todo == [] then []
    else if Fires(arch, s, todo[0]) then [todo[0]] + Due(arch, s, todo[1..])
    else Due(arch, s, todo[1..])
  }

  /** The drain loop fires the due timers of the list and puts every other one where a fresh
      tx_timer_reset would, with its deadline unchanged; all timers off the list are untouched. */
  ghost predicate Swept(arch: Arch, s: Wheel, todo: seq<Timer>, r: Wheel)
    requires Built(s) && forall t :: t in todo ==> t in s.timers
  {
    SweptFlags(arch, s, todo, r) && SweptPlaces(arch, s, todo, r)
  }

  ghost predicate SweptFlags(arch: Arch, s: Wheel, todo: seq<Timer>, r: Wheel)
    requires forall t :: t in todo ==> t in s.timers
  {
    && r.fired == s.fired + Due(arch, s, todo)
    && r.timers.Keys == s.timers.Keys
    && (forall t :: t in s.timers && t !in todo ==> r.timers[t] == s.timers[t])
    && (forall t :: t in todo ==> r.timers[t] == s.timers[t].(idle := Fires(arch, s, t)))
  }

  ghost predicate SweptPlaces(arch: Arch, s: Wheel, todo: seq<Timer>, r: Wheel)
    requires Built(s) && forall t :: t in todo ==> t in s.timers
  {
    && (forall t :: t in s.fam.at && t !in todo ==> t in r.fam.at && r.fam.at[t] == s.fam.at[t])
    && (forall t :: t in r.fam.at && t !in todo ==> t in s.fam.at)
    && (forall t :: t in todo && Fires(arch, s, t) ==> t !in r.fam.at)
    && (forall t :: t in todo && !Fires(arch, s, t) ==>
          t in r.fam.at && r.fam.at[t] == Place(arch, s, s.timers[t].interval))
  }

  lemma {:induction false} SweepIs(arch: Arch, s: Wheel, todo: seq<Timer>)
    requires Sound(s) && Stored(arch, s) && Distinct(todo) && forall t :: t in todo ==> t in s.timers
    ensures var r := Sweep(arch, s, todo);
            Sound(r) && Stored(arch, r) && Swept(arch, s, todo, r)
    decreases |todo|
  {
    assert Built(s);
    hide Sound, Stored, Handle, Handled, Swept;
    if todo == [] {
      SweptNothing(arch, s);
    } else {
      var m := Handle(arch, s, todo[0]);
      HandleIs(arch, s, todo[0]);
      assert forall i :: 0 < i < |todo| ==> todo[i] == todo[1..][i - 1];
      SweepIs(arch, m, todo[1..]);
      SweptStep(arch, s, todo, m, Sweep(arch, m, todo[1..]));
    }
  }

  lemma SweptNothing(arch: Arch, s: Wheel)
    requires Built(s)
    ensures Swept(arch, s, [], s)
  {
  }

  lemma FlagsStep(arch: Arch, s: Wheel, todo: seq<Timer>, m: Wheel, r: Wheel)
    requires Built(s) && todo != [] && Distinct(todo) && (forall t :: t in todo ==> t in s.timers)
    requires m.timers.Keys == s.timers.Keys && m.ticks == s.ticks
    requires Handled(arch, s, todo[0], m) && SweptFlags(arch, m, todo[1..], r)
    ensures SweptFlags(arch, s, todo, r)
  {
    Split(todo);
    HandledParts(arch, s, todo[0], m);
    DueSame(arch, s, m, todo[1..]);
    DueFirst(arch, s, todo);
    SameFires(arch, s, m, todo[1..]);
    hide Distinct, Built, Fires, Handled, Due;
  }

  lemma PlacesStep(arch: Arch, s: Wheel, todo: seq<Timer>, m: Wheel, r: Wheel)
    requires Built(s) && Built(m) && SameRing(s, m) && SameClock(s, m)
    requires todo != [] && Distinct(todo) && (forall t :: t in todo ==> t in s.timers)
    requires Handled(arch, s, todo[0], m) && SweptPlaces(arch, m, todo[1..], r)
    ensures SweptPlaces(arch, s, todo, r)
  {
    hide Distinct, Built, Fires, Handled, Place;
    Split(todo);
    HandledParts(arch, s, todo[0], m);
    SameFires(arch, s, m, todo[1..]);
    SamePlaces(arch, s, m);
  }

  lemma SweptStep(arch: Arch, s: Wheel, todo: seq<Timer>, m: Wheel, r: Wheel)
    requires Built(s) && Built(m) && SameRing(s, m) && SameClock(s, m)
    requires todo != [] && Distinct(todo) && (forall t :: t in todo ==> t in s.timers)
    requires Handled(arch, s, todo[0], m) && Swept(arch, m, todo[1..], r)
    ensures Swept(arch, s, todo, r)
  {
    hide Distinct, Built, Handled, SweptFlags, SweptPlaces;
    FlagsStep(arch, s, todo, m, r);
    PlacesStep(arch, s, todo, m, r);
  }

  lemma SameFires(arch: Arch, s: Wheel, m: Wheel, rest: seq<Timer>)
    requires m.ticks == s.ticks && forall u :: u in rest ==> u in s.timers && u in m.timers && m.timers[u] == s.timers[u]
    ensures forall u :: u in rest ==> Fires(arch, m, u) == Fires(arch, s, u)
  {
    hide Signed;
  }

  lemma Split<T>(todo: seq<T>)
    requires todo != [] && Distinct(todo)
    ensures todo[0] !in todo[1..] && Distinct(todo[1..])
    ensures forall u :: u in todo ==> u == todo[0] || u in todo[1..]
    ensures forall u :: u in todo[1..] ==> u in todo
  {
    assert forall i :: 0 < i < |todo| ==> todo[i] == todo[1..][i - 1];
  }

  lemma SamePlaces(arch: Arch, s: Wheel, m: Wheel)
    requires Built(s) && Built(m) && SameRing(s, m) && SameClock(s, m)
    ensures forall d: int :: Place(arch, m, d) == Place(arch, s, d)
  {
    forall d: int ensures Place(arch, m, d) == Place(arch, s, d) { SamePlace(arch, s, m, d); }
  }

  lemma DueFirst(arch: Arch, s: Wheel, todo: seq<Timer>)
    requires todo != [] && forall t :: t in todo ==> t in s.timers
    ensures Due(arch, s, todo) == (if Fires(arch, s, todo[0]) then [todo[0]] else []) + Due(arch, s, todo[1..])
  {
    hide Fires;
  }

  lemma HandledParts(arch: Arch, s: Wheel, t: Timer, m: Wheel)
    requires Built(s) && t in s.timers && Handled(arch, s, t, m)
    ensures m.fired == s.fired + (if Fires(arch, s, t) then [t] else [])
    ensures m.timers == s.timers[t := s.timers[t].(idle := Fires(arch, s, t))]
    ensures m.fam.at == if Fires(arch, s, t) then s.fam.at - {t}
                        else s.fam.at[t := Place(arch, s, s.timers[t].interval)]
  {
    hide Fires, Place;
  }

  lemma {:induction false} DueSame(arch: Arch, s: Wheel, m: Wheel, todo: seq<Timer>)
    requires m.ticks == s.ticks && forall t :: t in todo ==> t in s.timers && t in m.timers && m.timers[t] == s.timers[t]
    ensures Due(arch, m, todo) == Due(arch, s, todo)
    decreases |todo|
  {
    hide Signed;
    if todo != [] { DueSame(arch, s, m, todo[1..]); }
  }
}
