// What any sequence of actions does to one task: its lifecycle, its sleeps, its timeouts and
// its event waits.
module TaskLife {
  import opened Types
  import opened TaskSpec

  // ----- Lifecycle ---------------------------------------------------------------------

  /** RUNNING is never entered, a suspension saves one of four states, an event wait and a
      non-empty wait set go together, and a timed wait has time left. */
  ghost predicate Sound(t: Task) {
    && t.state != RUNNING
    && (t.state == SUSPENDED ==> t.savedState in {READY, WAITING_TIME, WAITING_EVENT, WAITING_EVENT_TIMEOUT})
    && (t.state != KILLED ==> (t.waits != {} <==> AwaitsEvent(EffectiveState(t))))
    && (t.state != KILLED && AwaitsTime(EffectiveState(t)) ==> t.time > 0)
    && (t.state != KILLED && EffectiveState(t) == WAITING_EVENT_TIMEOUT ==> t.clockId == 0)
  }

  lemma SoundNext(t: Task, a: Action)
    requires Sound(t) && Allowed(t, a)
    ensures Sound(Do(t, a))
  {
    if a.WaitEvent? {
      assert a.e in Do(t, a).waits;
    } else if a.WaitMultiple? {
      assert a.es[0] in SetOf(a.es);
    } else if a.Signal? && t.waits != {a.e} && a.e in t.waits {
      var f :| f in t.waits && f != a.e;
      assert f in t.waits - {a.e};
    }
  }

  lemma {:induction false} SoundAfter(t: Task, acts: seq<Action>)
    requires Sound(t) && AllAllowed(t, acts)
    ensures Sound(DoAll(t, acts))
    decreases |acts|
  {
    if acts != [] {
      SoundNext(t, acts[0]);
      SoundAfter(Do(t, acts[0]), acts[1..]);
    }
  }

  /** A killed task stays killed as long as it does not wait for anything itself. */
  lemma {:induction false} KilledIsAbsorbing(t: Task, acts: seq<Action>)
    requires t.state == KILLED
    ensures (forall a | a in acts :: !OwnWait(a)) ==> DoAll(t, acts).state == KILLED
    decreases |acts|
  {
    if acts != [] {
      assert acts[0] in acts;
      if forall a | a in acts :: !OwnWait(a) {
        KilledIsAbsorbing(Do(t, acts[0]), acts[1..]);
      }
    }
  }

  // ----- Sleep -------------------------------------------------------------------------

  /** How far clock c advances during a sequence of actions. */
  function Advance(acts: seq<Action>, c: uint8): nat
    decreases |acts|
  {
    if acts == [] then 0
    else (if acts[0].Timer? && acts[0].clock == c then acts[0].size else 0) + Advance(acts[1..], c)
  }

  lemma {:induction false} AdvanceConcat(a: seq<Action>, b: seq<Action>, c: uint8)
    ensures Advance(a + b, c) == Advance(a, c) + Advance(b, c)
    decreases |a|
  {
    if a == [] {
      assert a + b == b;
    } else {
      assert (a + b)[0] == a[0] && (a + b)[1..] == a[1..] + b;
      AdvanceConcat(a[1..], b, c);
    }
  }

  predicate AllPassive(acts: seq<Action>) {
    forall a | a in acts :: Passive(a)
  }

  lemma {:induction false} PassiveLeavesAwake(t: Task, acts: seq<Action>)
    requires (t.state == READY || t.state == KILLED) && AllPassive(acts)
    ensures DoAll(t, acts) == t
    decreases |acts|
  {
    if acts != [] {
      assert Passive(acts[0]) && forall a | a in acts[1..] :: a in acts;
      PassiveLeavesAwake(t, acts[1..]);
    }
  }

  /** A sleeping task holds its time minus what its own clock advanced, whatever other clocks
      and signals do, and is ready as soon as that clock has advanced far enough. */
  lemma {:induction false} SleepIsExact(t: Task, acts: seq<Action>)
    requires t.state == WAITING_TIME && t.time > 0 && AllPassive(acts)
    ensures var gone := Advance(acts, t.clockId);
            DoAll(t, acts) ==
            if gone < t.time then t.(time := t.time - gone) else t.(time := 0, state := READY)
    decreases |acts|
  {
    if acts != [] {
      assert Passive(acts[0]) && forall a | a in acts[1..] :: a in acts;
      var u := Do(t, acts[0]);
      if u.state == READY {
        PassiveLeavesAwake(u, acts[1..]);
      } else {
        SleepIsExact(u, acts[1..]);
      }
    }
  }

  // ----- Timeout or event --------------------------------------------------------------

  /** Actions that leave the waiting task its own: no waits of its own, no kill. */
  predicate Outside(a: Action) {
    Passive(a) || a.Suspend?
  }

  /** The action that ends a timed event wait, None while it lasts. */
  function WokenBy(t: Task, acts: seq<Action>): Option<Action>
    decreases |acts|
  {
    if acts == [] then None
    else if EffectiveState(Do(t, acts[0])) != WAITING_EVENT_TIMEOUT then Some(acts[0])
    else WokenBy(Do(t, acts[0]), acts[1..])
  }

  lemma {:induction false} OutsideKeepsAwake(t: Task, acts: seq<Action>)
    requires EffectiveState(t) == READY && forall a | a in acts :: Outside(a)
    ensures EffectiveState(DoAll(t, acts)) == READY && DoAll(t, acts).time == t.time
    decreases |acts|
  {
    if acts != [] {
      assert Outside(acts[0]) && forall a | a in acts[1..] :: a in acts;
      OutsideKeepsAwake(Do(t, acts[0]), acts[1..]);
    }
  }

  /** event_get_timeout after a timed event wait: 0 when a tick of the master clock ended the
      wait, non-zero when a signal of an awaited event did; nothing else can end it, not even
      a suspension in between. */
  lemma {:induction false} TimeTellsTimeout(t: Task, acts: seq<Action>)
    requires Sound(t) && EffectiveState(t) == WAITING_EVENT_TIMEOUT
    requires forall a | a in acts :: Outside(a)
    ensures var r, w := DoAll(t, acts), WokenBy(t, acts);
            if w == None then EffectiveState(r) == WAITING_EVENT_TIMEOUT && r.time > 0
            else
              && EffectiveState(r) == READY
              && (r.time == 0 <==> w.value.Timer? && w.value.clock == 0)
              && (r.time != 0 <==> w.value.Signal? && w.value.e in t.waits)
    decreases |acts|
  {
    if acts != [] {
      var u := Do(t, acts[0]);
      assert Outside(acts[0]) && forall a | a in acts[1..] :: a in acts;
      SoundNext(t, acts[0]);
      if EffectiveState(u) == WAITING_EVENT_TIMEOUT {
        TimeTellsTimeout(u, acts[1..]);
      } else {
        OutsideKeepsAwake(u, acts[1..]);
      }
    }
  }

  // ----- Wait for all, wait for any ----------------------------------------------------

  function Signalled(acts: seq<Action>): set<nat>
    decreases |acts|
  {
    if acts == [] then {}
    else (if acts[0].Signal? then {acts[0].e} else {}) + Signalled(acts[1..])
  }

  lemma {:induction false} SignalledConcat(a: seq<Action>, b: seq<Action>)
    ensures Signalled(a + b) == Signalled(a) + Signalled(b)
    decreases |a|
  {
    if a == [] {
      assert a + b == b;
    } else {
      assert (a + b)[0] == a[0] && (a + b)[1..] == a[1..] + b;
      SignalledConcat(a[1..], b);
    }
  }

  /** A task waiting for all of its events becomes ready exactly when all were signalled. */
  lemma {:induction false} WaitAllMeansAll(t: Task, acts: seq<Action>)
    requires t.state == WAITING_EVENT && !t.waitSingleEvent && t.waits != {} && AllPassive(acts)
    ensures var r, s := DoAll(t, acts), Signalled(acts);
            if t.waits <= s then r == ClearWaits(t).(state := READY) else r == t.(waits := t.waits - s)
    decreases |acts|
  {
    if acts == [] {
      assert t.waits - {} == t.waits;
    } else {
      var u, s := Do(t, acts[0]), Signalled(acts[1..]);
      assert Passive(acts[0]) && forall a | a in acts[1..] :: a in acts;
      if u.state == READY {
        assert t.waits == {acts[0].e} <= Signalled(acts);
        PassiveLeavesAwake(u, acts[1..]);
      } else {
        if acts[0].Signal? && acts[0].e in t.waits {
          assert t.waits != {acts[0].e};
          var f :| f in t.waits && f != acts[0].e;
          assert f in u.waits;
          assert Signalled(acts) == {acts[0].e} + s;
        } else {
          assert u.waits == t.waits && t.waits * Signalled(acts) == t.waits * s;
        }
        WaitAllMeansAll(u, acts[1..]);
        assert u.waits <= s <==> t.waits <= Signalled(acts);
        assert u.waits - s == t.waits - Signalled(acts);
      }
    }
  }

  /** A task waiting for any of its events becomes ready exactly when one was signalled. */
  lemma {:induction false} WaitAnyMeansAny(t: Task, acts: seq<Action>)
    requires t.state == WAITING_EVENT && t.waitSingleEvent && AllPassive(acts)
    ensures DoAll(t, acts) == if t.waits * Signalled(acts) != {} then ClearWaits(t).(state := READY) else t
    decreases |acts|
  {
    if acts != [] {
      assert Passive(acts[0]) && forall a | a in acts[1..] :: a in acts;
      if Do(t, acts[0]).state == READY {
        assert acts[0].e in t.waits * Signalled(acts);
        PassiveLeavesAwake(Do(t, acts[0]), acts[1..]);
      } else {
        WaitAnyMeansAny(t, acts[1..]);
        assert t.waits * Signalled(acts) == t.waits * Signalled(acts[1..]);
      }
    }
  }

  // ----- Missed signals ----------------------------------------------------------------

  /** Whether the current event wait had one of its events signalled while the task was
      suspended, which the source does not deliver; a new wait starts with a clean slate. */
  function Missed(t: Task, missed: bool, acts: seq<Action>): bool
    decreases |acts|
  {
    if acts == [] then missed
    else
      var m := if acts[0].Signal? && t.state == SUSPENDED && acts[0].e in t.waits then true
               else if OwnWait(acts[0]) then false
               else missed;
      Missed(Do(t, acts[0]), m, acts[1..])
  }

  /** Waiting for nothing but the single event e, suspended or not. */
  ghost predicate BlockedOn(t: Task, e: nat) {
    EffectiveState(t) == WAITING_EVENT && t.waits == {e} && t.waitSingleEvent
  }

  lemma {:induction false} NotWaitingStays(t: Task, acts: seq<Action>)
    requires EffectiveState(t) != WAITING_EVENT && Sound(t)
    requires forall a | a in acts :: !OwnWait(a)
    ensures EffectiveState(DoAll(t, acts)) != WAITING_EVENT
    decreases |acts|
  {
    if acts != [] {
      assert !OwnWait(acts[0]) && forall a | a in acts[1..] :: a in acts;
      SoundNext(t, acts[0]);
      NotWaitingStays(Do(t, acts[0]), acts[1..]);
    }
  }

  lemma {:induction false} MissedStays(t: Task, acts: seq<Action>)
    requires forall a | a in acts :: !OwnWait(a)
    ensures Missed(t, true, acts)
    decreases |acts|
  {
    if acts != [] {
      assert !OwnWait(acts[0]) && forall a | a in acts[1..] :: a in acts;
      MissedStays(Do(t, acts[0]), acts[1..]);
    }
  }

  /** A signal of e ends the wait of a task blocked on e, or is recorded as missed. */
  lemma {:induction false} SignalWakesOrIsMissed(t: Task, missed: bool, acts: seq<Action>, e: nat)
    requires Sound(t) && BlockedOn(t, e) && Signal(e) in acts
    requires forall a | a in acts :: !OwnWait(a)
    ensures EffectiveState(DoAll(t, acts)) != WAITING_EVENT || Missed(t, missed, acts)
    decreases |acts|
  {
    var u, rest := Do(t, acts[0]), acts[1..];
    assert !OwnWait(acts[0]) && forall a | a in rest :: a in acts;
    SoundNext(t, acts[0]);
    if acts[0] == Signal(e) {
      if t.state == SUSPENDED {
        MissedStays(u, rest);
      } else {
        NotWaitingStays(u, rest);
      }
    } else if EffectiveState(u) == WAITING_EVENT {
      var m := if acts[0].Signal? && t.state == SUSPENDED && acts[0].e in t.waits then true else missed;
      SignalWakesOrIsMissed(u, m, rest, e);
    } else {
      NotWaitingStays(u, rest);
    }
  }
}
