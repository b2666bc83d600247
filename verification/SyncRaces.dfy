/**
 The sync scheduler between two uses of its lock. A Start looks at the maps, stops, marks, arms and
 records in separate moments, a callback arms and records in two, and anything may happen in between:
 the steps of SyncTimers are what remains when nothing does.
 */
module SyncRaces {
  import opened Common
  import opened VolumeTypes
  import opened SyncTimers

  /** What a call does next: the moments of a Start, the record of a callback, the Stop of its end. */
  datatype Stage = Looking | Stopping(done: bool) | Marking(done: bool) | Arming | Recording(timer: TimerId) | Ending

  datatype Call = Call(c: Closure, stage: Stage)

  /** The scheduler and the calls that have not returned. */
  datatype Race = Race(sched: Sched, calls: map<nat, Call>)

  const REST := Race(IDLE, map[])

  datatype Move =
    | Enter(id: nat, c: Closure)
    | Stop(key: string)
    | Advance(id: nat)
    | Fires(t: TimerId)
    | IsThere(t: TimerId)
    | IsGone(t: TimerId, id: nat)
    | Returns(t: TimerId, id: nat)

  function ArmOnly(s: Sched, c: Closure): Sched {
    s.(armed := s.armed[s.next := c], next := s.next + 1)
  }

  function Record(s: Sched, key: string, t: TimerId): Sched {
    s.(timers := s.timers[key := t])
  }

  /** One moment of a call. */
  function Advanced(y: Race, id: nat): Race
    requires id in y.calls
  {
    var Call(c, stage) := y.calls[id];
    var s, key := y.sched, ClosureKey(c);
    match stage
    case Looking =>
      if key in s.timers then y.(calls := y.calls - {id})
      else y.(calls := y.calls[id := Call(c, Stopping(key in s.initial && s.initial[key]))])
    case Stopping(done) => Race(StopTimer(s, key), y.calls[id := Call(c, Marking(done))])
    case Marking(done) =>
      Race(if done then s else s.(initial := s.initial[key := true]), y.calls[id := Call(c, Arming)])
    case Arming => Race(ArmOnly(s, c), y.calls[id := Call(c, Recording(s.next))])
    case Recording(t) => Race(Record(s, key, t), y.calls - {id})
    case Ending => Race(StopTimer(s, key), y.calls - {id})
  }

  predicate Enabled(y: Race, move: Move) {
    match move
    case Enter(id, _) => id !in y.calls
    case Stop(_) => true
    case Advance(id) => id in y.calls
    case Fires(t) => t in y.sched.armed
    case IsThere(t) => t in y.sched.fired
    case IsGone(t, id) => t in y.sched.fired && id !in y.calls
    case Returns(t, id) => t in y.sched.running && id !in y.calls
  }

  /** A Start enters with its first Stop; a callback returns with its new timer armed. */
  function Moved(y: Race, move: Move): Race
    requires Enabled(y, move)
  {
    var s := y.sched;
    match move
    case Enter(id, c) => Race(StopTimer(s, ClosureKey(c)), y.calls[id := Call(c, Looking)])
    case Stop(key) => y.(sched := StopTimer(s, key))
    case Advance(id) => Advanced(y, id)
    case Fires(t) => y.(sched := Fire(s, t))
    case IsThere(t) => y.(sched := Check(s, t, true))
    case IsGone(t, id) => Race(s.(fired := s.fired - {t}), y.calls[id := Call(s.fired[t], Ending)])
    case Returns(t, id) =>
      Race(ArmOnly(s.(running := s.running - {t}), s.running[t]),
           y.calls[id := Call(s.running[t], Recording(s.next))])
  }

  /** A move that is not possible changes nothing. */
  function After(y: Race, moves: seq<Move>): Race {
    if moves == [] then y
    else
      var front, last := After(y, moves[..|moves| - 1]), moves[|moves| - 1];
      if Enabled(front, last) then Moved(front, last) else front
  }

  // ---------- chains, known and loose ----------

  /** The live chains of a key: each is a timer that is armed, or whose callback may arm the next. */
  ghost function LiveOn(s: Sched, key: string): set<TimerId> {
    TimersOn(s.armed, key) + TimersOn(s.fired, key) + TimersOn(s.running, key)
  }

  predicate RecordsOn(call: Call, key: string) {
    call.stage.Recording? && ClosureKey(call.c) == key
  }

  /** The calls of a key that have armed a timer and not recorded it. */
  ghost function Recorders(y: Race, key: string): set<nat> {
    set id | id in y.calls && RecordsOn(y.calls[id], key)
  }

  ghost predicate AboutToRecord(y: Race, key: string, t: TimerId) {
    exists id :: id in y.calls && RecordsOn(y.calls[id], key) && y.calls[id].stage.timer == t
  }

  ghost predicate Known(y: Race, key: string, t: TimerId) {
    (key in y.sched.timers && y.sched.timers[key] == t) || AboutToRecord(y, key, t)
  }

  /** The chains that no Stop can reach: neither recorded nor about to be. */
  ghost function Loose(y: Race, key: string): set<TimerId> {
    set t | t in LiveOn(y.sched, key) && !Known(y, key, t)
  }

  ghost predicate FreshTimer(s: Sched, t: TimerId) {
    t < s.next && forall k :: k in s.timers ==> s.timers[k] != t
  }

  /** Timers are in one place, and a timer that is about to be recorded is new. */
  ghost predicate Sound(y: Race) {
    var s := y.sched;
    && s.armed.Keys !! s.fired.Keys !! s.running.Keys
    && (forall t :: t in s.armed || t in s.fired || t in s.running ==> t < s.next)
    && (forall k :: k in s.timers ==> s.timers[k] < s.next)
    && (forall id :: id in y.calls && y.calls[id].stage.Recording? ==> FreshTimer(s, y.calls[id].stage.timer))
    && (forall i, j :: i in y.calls && j in y.calls && i != j && y.calls[i].stage.Recording? ==>
          y.calls[j].stage != y.calls[i].stage)
  }

  /** The timer recorded for the key has fired, and its callback is not over. */
  ghost predicate InCallback(s: Sched, key: string) {
    key in s.timers && (On(s.fired, s.timers[key], key) || On(s.running, s.timers[key], key))
  }

  /** The move stops the timer recorded for the key. */
  predicate StopsKey(y: Race, move: Move, key: string) {
    match move
    case Enter(_, c) => ClosureKey(c) == key
    case Stop(k) => k == key
    case Advance(id) => id in y.calls && ClosureKey(y.calls[id].c) == key &&
      (y.calls[id].stage.Stopping? || y.calls[id].stage.Ending?)
    case _ => false
  }

  /** A Stop falls into the callback of the recorded timer, or a record replaces a live timer. */
  ghost predicate Loses(y: Race, move: Move, key: string) {
    || (StopsKey(y, move, key) && InCallback(y.sched, key))
    || (move.Advance? && move.id in y.calls && RecordsOn(y.calls[move.id], key) &&
        key in y.sched.timers && y.sched.timers[key] in LiveOn(y.sched, key))
  }

  // ---------- timers stay in one place ----------

  lemma StopIsSound(y: Race, key: string)
    requires Sound(y)
    ensures Sound(y.(sched := StopTimer(y.sched, key)))
  {
  }

  /** A call that has nothing to record. */
  lemma CallIsSound(y: Race, id: nat, call: Call)
    requires Sound(y) && !call.stage.Recording?
    ensures Sound(y.(calls := y.calls[id := call])) && Sound(y.(calls := y.calls - {id}))
  {
  }

  lemma ArmIsSound(y: Race, id: nat, c: Closure)
    requires Sound(y)
    ensures Sound(Race(ArmOnly(y.sched, c), y.calls[id := Call(c, Recording(y.sched.next))]))
  {
  }

  lemma RecordIsSound(y: Race, id: nat)
    requires Sound(y) && id in y.calls && y.calls[id].stage.Recording?
    ensures Sound(Race(Record(y.sched, ClosureKey(y.calls[id].c), y.calls[id].stage.timer), y.calls - {id}))
  {
  }

  /** A timer that fires, or a callback that goes on or drops out. */
  lemma CallbackIsSound(y: Race, t: TimerId)
    requires Sound(y)
    ensures t in y.sched.armed ==> Sound(y.(sched := Fire(y.sched, t)))
    ensures t in y.sched.fired ==> Sound(y.(sched := Check(y.sched, t, true)))
    ensures Sound(y.(sched := y.sched.(fired := y.sched.fired - {t})))
    ensures Sound(y.(sched := y.sched.(running := y.sched.running - {t})))
  {
  }

  lemma AdvancedIsSound(y: Race, id: nat)
    requires Sound(y) && id in y.calls
    ensures Sound(Advanced(y, id))
  {
    var Call(c, stage) := y.calls[id];
    var key := ClosureKey(c);
    match stage
    case Looking => CallIsSound(y, id, Call(c, Stopping(key in y.sched.initial && y.sched.initial[key])));
    case Stopping(done) =>
      StopIsSound(y, key);
      CallIsSound(y.(sched := StopTimer(y.sched, key)), id, Call(c, Marking(done)));
    case Marking(_) =>
      CallIsSound(y.(sched := y.sched.(initial := y.sched.initial[key := true])), id, Call(c, Arming));
      CallIsSound(y, id, Call(c, Arming));
    case Arming => ArmIsSound(y, id, c);
    case Recording(_) => RecordIsSound(y, id);
    case Ending =>
      StopIsSound(y, key);
      CallIsSound(y.(sched := StopTimer(y.sched, key)), id, Call(c, Ending));
  }

  lemma MovedIsSound(y: Race, move: Move)
    requires Sound(y) && Enabled(y, move)
    ensures Sound(Moved(y, move))
  {
    match move
    case Enter(id, c) =>
      StopIsSound(y, ClosureKey(c));
      CallIsSound(y.(sched := StopTimer(y.sched, ClosureKey(c))), id, Call(c, Looking));
    case Stop(key) => StopIsSound(y, key);
    case Advance(id) => AdvancedIsSound(y, id);
    case Fires(t) => CallbackIsSound(y, t);
    case IsThere(t) => CallbackIsSound(y, t);
    case IsGone(t, id) =>
      CallbackIsSound(y, t);
      CallIsSound(y.(sched := y.sched.(fired := y.sched.fired - {t})), id, Call(y.sched.fired[t], Ending));
    case Returns(t, id) =>
      CallbackIsSound(y, t);
      ArmIsSound(y.(sched := y.sched.(running := y.sched.running - {t})), id, y.sched.running[t]);
  }

  // ---------- how moves make chains loose ----------

  /** At most the recorded timer becomes loose, and it does exactly when `lost`. */
  ghost predicate Loosens(y: Race, y': Race, key: string, lost: bool)
    requires lost ==> key in y.sched.timers
  {
    && (forall t :: t in Loose(y', key) ==> t in Loose(y, key) || (lost && y.sched.timers[key] == t))
    && (lost ==> y.sched.timers[key] in Loose(y', key))
  }

  lemma StopLoosens(y: Race, stopped: string, key: string)
    requires Sound(y)
    ensures Loosens(y, y.(sched := StopTimer(y.sched, stopped)), key, stopped == key && InCallback(y.sched, key))
  {
  }

  /** A call that has nothing to record, before and after. */
  lemma CallLoosens(y: Race, id: nat, call: Call, key: string)
    requires !call.stage.Recording? && (id in y.calls ==> !y.calls[id].stage.Recording?)
    ensures Loose(y.(calls := y.calls[id := call]), key) == Loose(y, key) == Loose(y.(calls := y.calls - {id}), key)
  {
    forall t
      ensures AboutToRecord(y.(calls := y.calls[id := call]), key, t) <==> AboutToRecord(y, key, t)
      ensures AboutToRecord(y.(calls := y.calls - {id}), key, t) <==> AboutToRecord(y, key, t)
    {
      if AboutToRecord(y, key, t) {
        var i :| i in y.calls && RecordsOn(y.calls[i], key) && y.calls[i].stage.timer == t;
        assert i in y.calls[id := call] && i in y.calls - {id};
      }
    }
  }

  lemma ArmLoosens(y: Race, id: nat, c: Closure, key: string)
    requires Sound(y) && (id in y.calls ==> !y.calls[id].stage.Recording?)
    ensures Loosens(y, Race(ArmOnly(y.sched, c), y.calls[id := Call(c, Recording(y.sched.next))]), key, false)
  {
    var y' := Race(ArmOnly(y.sched, c), y.calls[id := Call(c, Recording(y.sched.next))]);
    forall t | AboutToRecord(y, key, t)
      ensures AboutToRecord(y', key, t)
    {
      var i :| i in y.calls && RecordsOn(y.calls[i], key) && y.calls[i].stage.timer == t;
      assert i in y'.calls;
    }
    assert id in y'.calls;
  }

  lemma RecordLoosens(y: Race, id: nat, key: string)
    requires Sound(y) && id in y.calls && y.calls[id].stage.Recording?
    ensures var recorded := ClosureKey(y.calls[id].c);
      Loosens(y, Race(Record(y.sched, recorded, y.calls[id].stage.timer), y.calls - {id}), key,
              recorded == key && key in y.sched.timers && y.sched.timers[key] in LiveOn(y.sched, key))
  {
    var recorded := ClosureKey(y.calls[id].c);
    var y' := Race(Record(y.sched, recorded, y.calls[id].stage.timer), y.calls - {id});
    forall t | AboutToRecord(y, key, t) && t != y.calls[id].stage.timer
      ensures AboutToRecord(y', key, t)
    {
      var i :| i in y.calls && RecordsOn(y.calls[i], key) && y.calls[i].stage.timer == t;
      assert i in y'.calls;
    }
  }

  lemma SameKnown(y: Race, s: Sched, key: string)
    requires s.timers == y.sched.timers
    ensures Loose(y.(sched := s), key) == LiveOn(s, key) - (LiveOn(y.sched, key) - Loose(y, key)) ||
      !(LiveOn(s, key) <= LiveOn(y.sched, key))
  {
    assert forall x :: AboutToRecord(y.(sched := s), key, x) <==> AboutToRecord(y, key, x);
  }

  lemma SameLive(s: Sched, t: TimerId, key: string)
    requires s.armed.Keys !! s.fired.Keys !! s.running.Keys
    ensures t in s.armed ==> LiveOn(Fire(s, t), key) == LiveOn(s, key)
    ensures t in s.fired ==> LiveOn(Check(s, t, true), key) == LiveOn(s, key)
  {
    if t in s.armed {
      assert forall x :: x in LiveOn(Fire(s, t), key) <==> x in LiveOn(s, key);
    } else if t in s.fired {
      assert forall x :: x in LiveOn(Check(s, t, true), key) <==> x in LiveOn(s, key);
    }
  }

  lemma CallbackGoesOnLoosens(y: Race, t: TimerId, key: string)
    requires Sound(y)
    ensures t in y.sched.armed ==> Loose(y.(sched := Fire(y.sched, t)), key) == Loose(y, key)
    ensures t in y.sched.fired ==> Loose(y.(sched := Check(y.sched, t, true)), key) == Loose(y, key)
  {
    SameLive(y.sched, t, key);
    if t in y.sched.armed {
      SameKnown(y, Fire(y.sched, t), key);
    } else if t in y.sched.fired {
      SameKnown(y, Check(y.sched, t, true), key);
    }
  }

  lemma CallbackDropsOutLoosens(y: Race, t: TimerId, key: string)
    ensures Loose(y.(sched := y.sched.(fired := y.sched.fired - {t})), key) <= Loose(y, key)
    ensures Loose(y.(sched := y.sched.(running := y.sched.running - {t})), key) <= Loose(y, key)
  {
    SameKnown(y, y.sched.(fired := y.sched.fired - {t}), key);
    SameKnown(y, y.sched.(running := y.sched.running - {t}), key);
  }

  lemma AdvancedLoosens(y: Race, id: nat, key: string)
    requires Sound(y) && id in y.calls
    ensures Loosens(y, Advanced(y, id), key, Loses(y, Advance(id), key))
  {
    var Call(c, stage) := y.calls[id];
    var called := ClosureKey(c);
    match stage
    case Looking => CallLoosens(y, id, Call(c, Stopping(called in y.sched.initial && y.sched.initial[called])), key);
    case Stopping(done) =>
      StopLoosens(y, called, key);
      CallLoosens(y.(sched := StopTimer(y.sched, called)), id, Call(c, Marking(done)), key);
    case Marking(_) =>
      CallLoosens(y.(sched := y.sched.(initial := y.sched.initial[called := true])), id, Call(c, Arming), key);
      CallLoosens(y, id, Call(c, Arming), key);
    case Arming => ArmLoosens(y, id, c, key);
    case Recording(_) => RecordLoosens(y, id, key);
    case Ending =>
      StopLoosens(y, called, key);
      CallLoosens(y.(sched := StopTimer(y.sched, called)), id, Call(c, Ending), key);
  }

  lemma MovedLoosens(y: Race, move: Move, key: string)
    requires Sound(y) && Enabled(y, move)
    ensures Loosens(y, Moved(y, move), key, Loses(y, move, key))
  {
    match move
    case Enter(id, c) =>
      StopLoosens(y, ClosureKey(c), key);
      CallLoosens(y.(sched := StopTimer(y.sched, ClosureKey(c))), id, Call(c, Looking), key);
    case Stop(stopped) => StopLoosens(y, stopped, key);
    case Advance(id) => AdvancedLoosens(y, id, key);
    case Fires(t) => CallbackGoesOnLoosens(y, t, key);
    case IsThere(t) => CallbackGoesOnLoosens(y, t, key);
    case IsGone(t, id) =>
      CallbackDropsOutLoosens(y, t, key);
      CallLoosens(y.(sched := y.sched.(fired := y.sched.fired - {t})), id, Call(y.sched.fired[t], Ending), key);
    case Returns(t, id) =>
      CallbackDropsOutLoosens(y, t, key);
      CallbackIsSound(y, t);
      ArmLoosens(y.(sched := y.sched.(running := y.sched.running - {t})), id, y.sched.running[t], key);
  }

  // ---------- over all runs ----------

  ghost predicate LosesAt(moves: seq<Move>, i: nat, key: string)
    requires i < |moves|
  {
    var y := After(REST, moves[..i]);
    Enabled(y, moves[i]) && Loses(y, moves[i], key)
  }

  ghost function Losses(moves: seq<Move>, key: string): nat {
    if moves == [] then 0
    else
      var front := moves[..|moves| - 1];
      Losses(front, key) + if LosesAt(moves, |moves| - 1, key) then 1 else 0
  }

  lemma {:induction false} RunIsSound(moves: seq<Move>)
    ensures Sound(After(REST, moves))
  {
    if moves != [] {
      var front, last := moves[..|moves| - 1], moves[|moves| - 1];
      RunIsSound(front);
      if Enabled(After(REST, front), last) {
        MovedIsSound(After(REST, front), last);
      }
    }
  }

  lemma {:induction false} SubsetSize<T>(a: set<T>, b: set<T>)
    requires a <= b
    ensures |a| <= |b|
  {
    if a != {} {
      var x :| x in a;
      SubsetSize(a - {x}, b - {x});
    }
  }

  lemma {:induction false} LooseBounded(moves: seq<Move>, key: string)
    ensures |Loose(After(REST, moves), key)| <= Losses(moves, key)
  {
    if moves == [] {
      assert Loose(REST, key) == {};
    } else {
      var front, last := moves[..|moves| - 1], moves[|moves| - 1];
      var y := After(REST, front);
      LooseBounded(front, key);
      RunIsSound(front);
      if Enabled(y, last) {
        MovedLoosens(y, last, key);
        var lost := if Loses(y, last, key) then {y.sched.timers[key]} else {};
        SubsetSize(Loose(Moved(y, last), key), Loose(y, key) + lost);
      }
    }
  }

  ghost function TimersOf(y: Race, ids: set<nat>): set<TimerId>
    requires forall id :: id in ids ==> id in y.calls && y.calls[id].stage.Recording?
  {
    set id | id in ids :: y.calls[id].stage.timer
  }

  lemma {:induction false} TimersOfSize(y: Race, ids: set<nat>)
    requires forall id :: id in ids ==> id in y.calls && y.calls[id].stage.Recording?
    ensures |TimersOf(y, ids)| <= |ids|
  {
    if ids == {} {
      assert TimersOf(y, ids) == {};
    } else {
      var id :| id in ids;
      TimersOfSize(y, ids - {id});
      assert TimersOf(y, ids) == TimersOf(y, ids - {id}) + {y.calls[id].stage.timer};
    }
  }

  lemma ChainsAreLive(s: Sched, key: string)
    requires s.armed.Keys !! s.fired.Keys !! s.running.Keys
    ensures Chains(s, key) == |LiveOn(s, key)|
  {
    assert TimersOn(s.armed, key) !! TimersOn(s.fired, key) !! TimersOn(s.running, key);
  }

  lemma LiveAreAccounted(y: Race, key: string)
    ensures LiveOn(y.sched, key) <= Loose(y, key) + TimersOf(y, Recorders(y, key)) +
      (if key in y.sched.timers then {y.sched.timers[key]} else {})
  {
  }

  /** Every chain is loose, recorded, or about to be recorded. */
  lemma ChainsAreAccounted(y: Race, key: string)
    requires Sound(y)
    ensures Chains(y.sched, key) <= |Loose(y, key)| + Tracked(y.sched, key) + |Recorders(y, key)|
  {
    var recorded := if key in y.sched.timers then {y.sched.timers[key]} else {};
    ChainsAreLive(y.sched, key);
    LiveAreAccounted(y, key);
    TimersOfSize(y, Recorders(y, key));
    SubsetSize(LiveOn(y.sched, key), Loose(y, key) + TimersOf(y, Recorders(y, key)) + recorded);
  }

  /**
   Bounded chains between any two uses of the lock, over all runs: one for the map entry, one for
   every call that is about to record, and one for every Stop that fell into the callback of the
   recorded timer and every record that replaced a live one.
   */
  lemma RacingChainsBounded(moves: seq<Move>, key: string)
    ensures var y := After(REST, moves);
      Chains(y.sched, key) <= Losses(moves, key) + Tracked(y.sched, key) + |Recorders(y, key)|
  {
    RunIsSound(moves);
    LooseBounded(moves, key);
    ChainsAreAccounted(After(REST, moves), key);
  }

  ghost predicate NoneLooseAt(moves: seq<Move>, i: nat, key: string)
    requires i <= |moves|
  {
    Loose(After(REST, moves[..i]), key) == {}
  }

  lemma NoneLooseNext(moves: seq<Move>, i: nat, key: string)
    requires i < |moves| && NoneLooseAt(moves, i, key)
    ensures NoneLooseAt(moves, i + 1, key) <==> !LosesAt(moves, i, key)
  {
    var y := After(REST, moves[..i]);
    assert moves[..i + 1][..i] == moves[..i];
    RunIsSound(moves[..i]);
    if Enabled(y, moves[i]) {
      MovedLoosens(y, moves[i], key);
    }
  }

  lemma {:induction false} NoneLooseUpTo(moves: seq<Move>, i: nat, key: string)
    requires i <= |moves| && forall j :: 0 <= j < i ==> !LosesAt(moves, j, key)
    ensures NoneLooseAt(moves, i, key)
  {
    if i == 0 {
      assert Loose(REST, key) == {};
    } else {
      NoneLooseUpTo(moves, i - 1, key);
      NoneLooseNext(moves, i - 1, key);
    }
  }

  /** No chain of a key ever gets out of reach exactly when no move of the run loses one. */
  lemma NoneLooseIff(moves: seq<Move>, key: string)
    ensures (forall i :: 0 <= i <= |moves| ==> NoneLooseAt(moves, i, key)) <==>
      (forall i :: 0 <= i < |moves| ==> !LosesAt(moves, i, key))
  {
    if forall i :: 0 <= i <= |moves| ==> NoneLooseAt(moves, i, key) {
      forall i | 0 <= i < |moves|
        ensures !LosesAt(moves, i, key)
      {
        assert NoneLooseAt(moves, i, key) && NoneLooseAt(moves, i + 1, key);
        NoneLooseNext(moves, i, key);
      }
    } else if forall i :: 0 <= i < |moves| ==> !LosesAt(moves, i, key) {
      forall i | 0 <= i <= |moves|
        ensures NoneLooseAt(moves, i, key)
      {
        NoneLooseUpTo(moves, i, key);
      }
    }
  }

  // ---------- what nothing interrupts ----------

  /** The present state with the scheduler and one call replaced. */
  function Standing(y: Race, s: Sched, id: nat, c: Closure, stage: Stage): Race {
    Race(s, y.calls[id := Call(c, stage)])
  }

  /** A call that stands in some state of the scheduler goes on from there. */
  lemma GoesOn(y: Race, moves: seq<Move>, x: Race, s: Sched, id: nat, c: Closure, stage: Stage)
    requires After(y, moves) == Standing(x, s, id, c, stage)
    ensures After(y, moves + [Advance(id)]) == Advanced(Standing(x, s, id, c, stage), id)
  {
    assert (moves + [Advance(id)])[..|moves|] == moves;
  }

  lemma AfterOne(y: Race, move: Move)
    requires Enabled(y, move)
    ensures After(y, [move]) == Moved(y, move)
  {
    assert [move][..0] == [];
  }

  lemma StartArms(y: Race, id: nat, c: Closure, s: Sched, moves: seq<Move>)
    requires id !in y.calls && After(y, moves) == Standing(y, s, id, c, Arming)
    ensures After(y, moves + [Advance(id)] + [Advance(id)]) == y.(sched := Arm(s, c))
  {
    var armed := ArmOnly(s, c);
    GoesOn(y, moves, y, s, id, c, Arming);
    assert Advanced(Standing(y, s, id, c, Arming), id) == Standing(y, armed, id, c, Recording(s.next));
    GoesOn(y, moves + [Advance(id)], y, armed, id, c, Recording(s.next));
    assert y.calls[id := Call(c, Recording(s.next))] - {id} == y.calls;
  }

  lemma StartMarks(y: Race, id: nat, c: Closure)
    requires id !in y.calls
    ensures var s := StopTimer(y.sched, ClosureKey(c));
      After(y, [Enter(id, c)] + [Advance(id)] + [Advance(id)] + [Advance(id)]) ==
      Standing(y, s.(initial := s.initial[ClosureKey(c) := true]), id, c, Arming)
  {
    var s := StopTimer(y.sched, ClosureKey(c));
    AfterOne(y, Enter(id, c));
    GoesOn(y, [Enter(id, c)], y, s, id, c, Looking);
    assert Advanced(Standing(y, s, id, c, Looking), id) == Standing(y, s, id, c, Stopping(false));
    GoesOn(y, [Enter(id, c)] + [Advance(id)], y, s, id, c, Stopping(false));
    assert StopTimer(s, ClosureKey(c)) == s;
    assert Advanced(Standing(y, s, id, c, Stopping(false)), id) == Standing(y, s, id, c, Marking(false));
    GoesOn(y, [Enter(id, c)] + [Advance(id)] + [Advance(id)], y, s, id, c, Marking(false));
  }

  /** A Start from its first Stop to its return. */
  function StartMoves(id: nat, c: Closure): seq<Move> {
    [Enter(id, c)] + [Advance(id)] + [Advance(id)] + [Advance(id)] + [Advance(id)] + [Advance(id)]
  }

  /** Uninterrupted, a Start is the one step that it is in SyncTimers. */
  lemma StartIsOneStep(y: Race, id: nat, c: Closure)
    requires id !in y.calls
    ensures After(y, StartMoves(id, c)) == y.(sched := StartCommon(StopTimer(y.sched, ClosureKey(c)), c))
  {
    var s := StopTimer(y.sched, ClosureKey(c));
    StartMarks(y, id, c);
    StartArms(y, id, c, s.(initial := s.initial[ClosureKey(c) := true]),
              [Enter(id, c)] + [Advance(id)] + [Advance(id)] + [Advance(id)]);
    StartAfterStop(y.sched, c);
  }

  /** So are the two ends of a callback. */
  lemma CallbackIsOneStep(y: Race, t: TimerId, id: nat)
    requires id !in y.calls
    ensures t in y.sched.running ==>
      After(y, [Returns(t, id), Advance(id)]) == y.(sched := FireEnd(y.sched, t))
    ensures t in y.sched.fired ==>
      After(y, [IsGone(t, id), Advance(id)]) == y.(sched := Check(y.sched, t, false))
  {
    if t in y.sched.running {
      AfterOne(y, Returns(t, id));
      GoesOn(y, [Returns(t, id)], y, Moved(y, Returns(t, id)).sched, id, y.sched.running[t], Recording(y.sched.next));
      assert [Returns(t, id), Advance(id)] == [Returns(t, id)] + [Advance(id)];
      assert y.calls[id := Call(y.sched.running[t], Recording(y.sched.next))] - {id} == y.calls;
    }
    if t in y.sched.fired {
      AfterOne(y, IsGone(t, id));
      GoesOn(y, [IsGone(t, id)], y, Moved(y, IsGone(t, id)).sched, id, y.sched.fired[t], Ending);
      assert [IsGone(t, id), Advance(id)] == [IsGone(t, id)] + [Advance(id)];
      assert y.calls[id := Call(y.sched.fired[t], Ending)] - {id} == y.calls;
    }
  }

  lemma {:induction false} AfterJoined(y: Race, a: seq<Move>, b: seq<Move>)
    ensures After(y, a + b) == After(After(y, a), b)
  {
    if b == [] {
      assert a + b == a;
    } else {
      var front := b[..|b| - 1];
      assert (a + b)[..|a + b| - 1] == a + front;
      AfterJoined(y, a, front);
    }
  }

  // ---------- two Starts at once ----------

  /** Two Starts of one volume, the second while the first has stopped and not yet armed. */
  function RacingStarts(c: Closure): seq<Move> {
    [Enter(0, c)] + [Advance(0)] + [Advance(0)] + StartMoves(1, c) + [Advance(0)] + [Advance(0)] + [Advance(0)]
  }

  /**
   The failing input: when both have returned, two timers are armed and the map knows one of them,
   although no timer has ever fired.
   */
  lemma TwoStartsRace(c: Closure)
    ensures var y, key := After(REST, RacingStarts(c)), ClosureKey(c);
      && y.calls == map[] && Chains(y.sched, key) == 2 && Loose(y, key) == {0}
      && y.sched.timers == map[key := 1] && Losses(RacingStarts(c), key) >= 1
  {
    var key, first := ClosureKey(c), [Enter(0, c)] + [Advance(0)] + [Advance(0)];
    AfterOne(REST, Enter(0, c));
    var begun := REST.sched;
    assert StopTimer(begun, key) == begun;
    GoesOn(REST, [Enter(0, c)], REST, begun, 0, c, Looking);
    GoesOn(REST, [Enter(0, c)] + [Advance(0)], REST, begun, 0, c, Stopping(false));
    var waiting := Standing(REST, begun, 0, c, Marking(false));
    assert After(REST, first) == waiting;
    AfterJoined(REST, first, StartMoves(1, c));
    StartIsOneStep(waiting, 1, c);
    StartAfterStop(begun, c);
    var one := Arm(begun.(initial := map[key := true]), c);
    assert After(REST, first + StartMoves(1, c)) == Standing(REST, one, 0, c, Marking(false));
    var moves := first + StartMoves(1, c);
    GoesOn(REST, moves, REST, one, 0, c, Marking(false));
    var marked := one.(initial := one.initial[key := true]);
    StartArms(REST, 0, c, marked, moves + [Advance(0)]);
    var y := After(REST, RacingStarts(c));
    assert y == REST.(sched := Arm(marked, c));
    assert LiveOn(y.sched, key) == {0, 1};
    assert TimersOn(y.sched.armed, key) == {0, 1};
    LooseBounded(RacingStarts(c), key);
  }
}
