/**
 The sync scheduler: a map of timers that re-arm themselves from their own callback.

 A timer that fires runs its callback in three moments: the firing, the answer to the existence
 check, and the re-arming at the end. Start and Stop calls may fall between any two of them. A timer
 identifier stands for one time.AfterFunc; it is armed until it fires or is stopped, fired until the
 check is answered, and running from there until its callback returns.
 */
module SyncTimers {
  import opened Common
  import opened VolumeTypes

  type TimerId = nat

  /** What the callback of a timer captures. */
  datatype Closure = Closure(name: string, namespace: string, spec: VolumeSpec, interval: int)

  datatype SharedVolume = SharedVolume(namespace: string, name: string, phase: string, spec: VolumeSpec)
  datatype ClusterSharedVolume = ClusterSharedVolume(name: string, phase: string, spec: VolumeSpec)

  function KeyOf(namespace: string, name: string): string {
    namespace + "/" + name
  }

  function ClosureKey(c: Closure): string {
    KeyOf(c.namespace, c.name)
  }

  /** What a Start gives the timer of a volume. */
  function ClosureOf(sv: SharedVolume, interval: int): Closure {
    Closure(sv.name, sv.namespace, sv.spec, interval)
  }

  function ClusterClosure(csv: ClusterSharedVolume, interval: int): Closure {
    Closure(csv.name, csv.spec.resourceNamespace, csv.spec, interval)
  }

  /** The two maps of the controller, and the timers and callbacks of the runtime. */
  datatype Sched = Sched(
    timers: map<string, TimerId>,
    initial: map<string, bool>,
    armed: map<TimerId, Closure>,
    fired: map<TimerId, Closure>,
    running: map<TimerId, Closure>,
    next: TimerId)

  const IDLE := Sched(map[], map[], map[], map[], map[], 0)

  // ---------- what one locked operation does ----------

  function StopTimer(s: Sched, key: string): Sched {
    if key in s.timers then
      s.(armed := s.armed - {s.timers[key]}, timers := s.timers - {key}, initial := s.initial - {key})
    else
      s.(initial := s.initial - {key})
  }

  function Arm(s: Sched, c: Closure): Sched {
    s.(armed := s.armed[s.next := c], timers := s.timers[ClosureKey(c) := s.next], next := s.next + 1)
  }

  function StartCommon(s: Sched, c: Closure): Sched {
    var key := ClosureKey(c);
    if key in s.timers then s
    else
      var initialSyncDone := key in s.initial && s.initial[key];
      var stopped := StopTimer(s, key);
      Arm(if initialSyncDone then stopped else stopped.(initial := stopped.initial[key := true]), c)
  }

  /** The second component tells whether the call returns without an error. */
  function StartShared(s: Sched, sv: SharedVolume, parse: DurationParser): (Sched, bool) {
    var stopped := StopTimer(s, KeyOf(sv.namespace, sv.name));
    if sv.phase != "Ready" || !HasValidSource(sv.spec) then (stopped, true)
    else match parse(sv.spec.syncInterval)
      case None => (stopped, false)
      case Some(interval) => (StartCommon(stopped, ClosureOf(sv, interval)), true)
  }

  function StartCluster(s: Sched, csv: ClusterSharedVolume, parse: DurationParser): (Sched, bool) {
    var stopped := StopTimer(s, KeyOf(csv.spec.resourceNamespace, csv.name));
    if !HasValidSource(csv.spec) then (stopped, true)
    else match parse(csv.spec.syncInterval)
      case None => (s, false)
      case Some(interval) =>
        (StartCommon(stopped, ClusterClosure(csv, interval)), true)
  }

  /** The existence test of a callback: any failed read counts as "gone". */
  predicate VolumeExists(shared: Answer<()>, cluster: Answer<()>) {
    shared.Found? || (shared.NotFound? && cluster.Found?)
  }

  function Fire(s: Sched, t: TimerId): Sched
    requires t in s.armed
  {
    s.(armed := s.armed - {t}, fired := s.fired[t := s.armed[t]])
  }

  function Check(s: Sched, t: TimerId, found: bool): Sched
    requires t in s.fired
  {
    var c := s.fired[t];
    var answered := s.(fired := s.fired - {t});
    if found then answered.(running := answered.running[t := c]) else StopTimer(answered, ClosureKey(c))
  }

  function FireEnd(s: Sched, t: TimerId): Sched
    requires t in s.running
  {
    Arm(s.(running := s.running - {t}), s.running[t])
  }

  function RecoverShared(s: Sched, list: seq<SharedVolume>, parse: DurationParser): Sched {
    if list == [] then s
    else
      var sv := list[|list| - 1];
      var before := RecoverShared(s, list[..|list| - 1], parse);
      if sv.phase != "Ready" || !HasValidSource(sv.spec) then before else StartShared(before, sv, parse).0
  }

  function RecoverCluster(s: Sched, list: seq<ClusterSharedVolume>, parse: DurationParser): Sched {
    if list == [] then s
    else
      var csv := list[|list| - 1];
      var before := RecoverCluster(s, list[..|list| - 1], parse);
      if csv.phase != "Ready" || !HasValidSource(csv.spec) then before else StartCluster(before, csv, parse).0
  }

  // ---------- the controller itself ----------

  class SyncController {
    const parseDuration: DurationParser
    var syncTimers: map<string, TimerId>
    var initialSyncDone: map<string, bool>
    // The runtime's side of time.AfterFunc.
    var armedTimers: map<TimerId, Closure>
    var firedTimers: map<TimerId, Closure>
    var runningCallbacks: map<TimerId, Closure>
    var nextTimer: TimerId

    function State(): Sched
      reads this
    {
      Sched(syncTimers, initialSyncDone, armedTimers, firedTimers, runningCallbacks, nextTimer)
    }

    constructor (parse: DurationParser)
      ensures State() == IDLE && parseDuration == parse
    {
      parseDuration := parse;
      syncTimers, initialSyncDone := map[], map[];
      armedTimers, firedTimers, runningCallbacks, nextTimer := map[], map[], map[], 0;
    }

    method AfterFunc(c: Closure) returns (timer: TimerId)
      modifies this`armedTimers, this`nextTimer
      ensures timer == old(nextTimer) && nextTimer == timer + 1
      ensures armedTimers == old(armedTimers)[timer := c]
    {
      timer := nextTimer;
      armedTimers := armedTimers[timer := c];
      nextTimer := nextTimer + 1;
    }

    method StopSyncTimer(key: string)
      modifies this
      ensures State() == StopTimer(old(State()), key)
    {
      if key in syncTimers {
        armedTimers := armedTimers - {syncTimers[key]};
        syncTimers := syncTimers - {key};
      }
      initialSyncDone := initialSyncDone - {key};
    }

    method StartSyncCommon(name: string, namespace: string, spec: VolumeSpec, interval: int)
      modifies this
      ensures State() == StartCommon(old(State()), Closure(name, namespace, spec, interval))
      ensures KeyOf(namespace, name) in old(syncTimers) ==> State() == old(State())
      ensures KeyOf(namespace, name) !in old(syncTimers) ==>
        && armedTimers == old(armedTimers)[old(nextTimer) := Closure(name, namespace, spec, interval)]
        && syncTimers == old(syncTimers)[KeyOf(namespace, name) := old(nextTimer)]
        && initialSyncDone - {KeyOf(namespace, name)} == old(initialSyncDone) - {KeyOf(namespace, name)}
        && (KeyOf(namespace, name) in initialSyncDone <==>
              !(KeyOf(namespace, name) in old(initialSyncDone) && old(initialSyncDone)[KeyOf(namespace, name)]))
    {
      var key := KeyOf(namespace, name);
      var alreadyRunning := key in syncTimers;
      var initialDone := key in initialSyncDone && initialSyncDone[key];
      if alreadyRunning {
        return;
      }
      StopSyncTimer(key);
      if !initialDone {
        initialSyncDone := initialSyncDone[key := true];
      }
      var timer := AfterFunc(Closure(name, namespace, spec, interval));
      syncTimers := syncTimers[key := timer];
    }

    method StartSyncForSharedVolume(sv: SharedVolume) returns (ok: bool)
      modifies this
      ensures (State(), ok) == StartShared(old(State()), sv, parseDuration)
    {
      StopSyncTimer(KeyOf(sv.namespace, sv.name));
      if sv.phase != "Ready" || !HasValidSource(sv.spec) {
        return true;
      }
      var interval := parseDuration(sv.spec.syncInterval);
      if interval.None? {
        return false;
      }
      StartSyncCommon(sv.name, sv.namespace, sv.spec, interval.value);
      return true;
    }

    method StartSyncForClusterSharedVolume(csv: ClusterSharedVolume) returns (ok: bool)
      modifies this
      ensures (State(), ok) == StartCluster(old(State()), csv, parseDuration)
    {
      var key := KeyOf(csv.spec.resourceNamespace, csv.name);
      if !HasValidSource(csv.spec) {
        StopSyncTimer(key);
        return true;
      }
      var interval := parseDuration(csv.spec.syncInterval);
      if interval.None? {
        return false;
      }
      StopSyncTimer(key);
      StartSyncCommon(csv.name, csv.spec.resourceNamespace, csv.spec, interval.value);
      return true;
    }

    /** The runtime's part: the callback of an armed timer starts. */
    method TimerFires(t: TimerId)
      requires t in armedTimers
      modifies this`armedTimers, this`firedTimers
      ensures State() == Fire(old(State()), t)
    {
      firedTimers := firedTimers[t := armedTimers[t]];
      armedTimers := armedTimers - {t};
    }

    /** First half of the callback: the lookups are answered; the chain stops when the volume is gone. */
    method ScheduledSyncBegin(t: TimerId, shared: Answer<()>, cluster: Answer<()>) returns (volumeExists: bool)
      requires t in firedTimers
      modifies this
      ensures volumeExists == VolumeExists(shared, cluster)
      ensures State() == Check(old(State()), t, volumeExists)
    {
      var c := firedTimers[t];
      firedTimers := firedTimers - {t};
      match shared {
        case Found(_) => volumeExists := true;
        case NotFound =>
          match cluster {
            case Found(_) => volumeExists := true;
            case NotFound => volumeExists := false;
            case Failed => volumeExists := false;
          }
        case Failed => volumeExists := false;
      }
      if !volumeExists {
        StopSyncTimer(ClosureKey(c));
        return;
      }
      runningCallbacks := runningCallbacks[t := c];
    }

    /** Second half: sync from the captured spec when it has a source, then always re-arm. */
    method ScheduledSyncEnd(t: TimerId) returns (synced: bool)
      requires t in runningCallbacks
      modifies this
      ensures synced == HasValidSource(old(runningCallbacks)[t].spec)
      ensures State() == FireEnd(old(State()), t)
    {
      var c := runningCallbacks[t];
      runningCallbacks := runningCallbacks - {t};
      if c.spec.source.None? {
        synced := false;
      } else if !c.spec.source.value.ssh && !c.spec.source.value.http && !c.spec.source.value.git &&
        !c.spec.source.value.s3 {
        synced := false;
      } else {
        synced := true;
      }
      var timer := AfterFunc(c);
      syncTimers := syncTimers[ClosureKey(c) := timer];
    }

    /** Each list is absent when the API server fails to answer. */
    method RecoverSyncOperations(shared: Option<seq<SharedVolume>>, cluster: Option<seq<ClusterSharedVolume>>)
      returns (ok: bool)
      modifies this
      ensures ok == shared.Some?
      ensures !ok ==> State() == old(State())
      ensures ok ==>
        var afterShared := RecoverShared(old(State()), shared.value, parseDuration);
        State() == if cluster.None? then afterShared else RecoverCluster(afterShared, cluster.value, parseDuration)
    {
      if shared.None? {
        return false;
      }
      for i := 0 to |shared.value|
        invariant State() == RecoverShared(old(State()), shared.value[..i], parseDuration)
      {
        var sv := shared.value[i];
        assert shared.value[..i + 1][..i] == shared.value[..i];
        if sv.phase == "Ready" && HasValidSource(sv.spec) {
          var _ := StartSyncForSharedVolume(sv);
        }
      }
      assert shared.value[..|shared.value|] == shared.value;
      if cluster.Some? {
        ghost var mid := State();
        for i := 0 to |cluster.value|
          invariant State() == RecoverCluster(mid, cluster.value[..i], parseDuration)
        {
          var csv := cluster.value[i];
          assert cluster.value[..i + 1][..i] == cluster.value[..i];
          if csv.phase == "Ready" && HasValidSource(csv.spec) {
            var _ := StartSyncForClusterSharedVolume(csv);
          }
        }
        assert cluster.value[..|cluster.value|] == cluster.value;
      }
      return true;
    }
  }

  // ---------- runs ----------

  /** The scheduler together with the volumes that the API server stores. */
  datatype System = System(sched: Sched, shared: set<(string, string)>, cluster: set<string>)

  datatype Step =
    | CallStartShared(sv: SharedVolume)
    | CallStartCluster(csv: ClusterSharedVolume)
    | CallStopShared(namespace: string, name: string)
    | CallStopCluster(resourceNamespace: string, name: string)
    | Begin(t: TimerId)
    | Answered(t: TimerId, sharedAnswer: Answer<()>, clusterAnswer: Answer<()>)
    | End(t: TimerId)
    | StoreShared(namespace: string, name: string)
    | StoreCluster(name: string)
    | RemoveShared(namespace: string, name: string)
    | RemoveCluster(name: string)

  /** A read may fail, but an answer it gives is true. */
  ghost predicate Truthful(y: System, c: Closure, shared: Answer<()>, cluster: Answer<()>) {
    && (shared.Found? ==> (c.namespace, c.name) in y.shared)
    && (shared.NotFound? ==> (c.namespace, c.name) !in y.shared)
    && (cluster.Found? ==> c.name in y.cluster)
    && (cluster.NotFound? ==> c.name !in y.cluster)
  }

  /** A step that is not possible in the present state leaves it alone. */
  ghost function Next(y: System, step: Step, parse: DurationParser): System {
    match step
    case CallStartShared(sv) => y.(sched := StartShared(y.sched, sv, parse).0)
    case CallStartCluster(csv) => y.(sched := StartCluster(y.sched, csv, parse).0)
    case CallStopShared(namespace, name) => y.(sched := StopTimer(y.sched, KeyOf(namespace, name)))
    case CallStopCluster(namespace, name) => y.(sched := StopTimer(y.sched, KeyOf(namespace, name)))
    case Begin(t) => if t in y.sched.armed then y.(sched := Fire(y.sched, t)) else y
    case Answered(t, shared, cluster) =>
      if t in y.sched.fired && Truthful(y, y.sched.fired[t], shared, cluster)
      then y.(sched := Check(y.sched, t, VolumeExists(shared, cluster))) else y
    case End(t) => if t in y.sched.running then y.(sched := FireEnd(y.sched, t)) else y
    case StoreShared(namespace, name) => y.(shared := y.shared + {(namespace, name)})
    case StoreCluster(name) => y.(cluster := y.cluster + {name})
    case RemoveShared(namespace, name) => y.(shared := y.shared - {(namespace, name)})
    case RemoveCluster(name) => y.(cluster := y.cluster - {name})
  }

  ghost function Run(y: System, steps: seq<Step>, parse: DurationParser): System {
    if steps == [] then y
    else Next(Run(y, steps[..|steps| - 1], parse), steps[|steps| - 1], parse)
  }

  ghost function TimersOn(m: map<TimerId, Closure>, key: string): set<TimerId> {
    set t | t in m && ClosureKey(m[t]) == key
  }

  ghost function CountOn(m: map<TimerId, Closure>, key: string): nat {
    |TimersOn(m, key)|
  }

  /** The callbacks of a key that have started and not returned. */
  ghost function Busy(s: Sched, key: string): nat {
    CountOn(s.fired, key) + CountOn(s.running, key)
  }

  /** The sync chains alive on a key: timers waiting to fire, and callbacks that may re-arm. */
  ghost function Chains(s: Sched, key: string): nat {
    CountOn(s.armed, key) + Busy(s, key)
  }

  ghost function Tracked(s: Sched, key: string): nat {
    if key in s.timers then 1 else 0
  }

  ghost predicate IsCallOn(step: Step, key: string) {
    match step
    case CallStartShared(sv) => KeyOf(sv.namespace, sv.name) == key
    case CallStartCluster(csv) => KeyOf(csv.spec.resourceNamespace, csv.name) == key
    case CallStopShared(namespace, name) => KeyOf(namespace, name) == key
    case CallStopCluster(namespace, name) => KeyOf(namespace, name) == key
    case _ => false
  }

  /** How many Start and Stop calls on the key fell into one of its callbacks. */
  ghost function OverlappingCalls(y: System, steps: seq<Step>, key: string, parse: DurationParser): nat {
    if steps == [] then 0
    else
      var front, last := steps[..|steps| - 1], steps[|steps| - 1];
      OverlappingCalls(y, front, key, parse) +
      if IsCallOn(last, key) && Busy(Run(y, front, parse).sched, key) > 0 then 1 else 0
  }

  ghost predicate On(m: map<TimerId, Closure>, t: TimerId, key: string) {
    t in m && ClosureKey(m[t]) == key
  }

  /** The timer recorded for a key is still armed, or its callback has not returned. */
  ghost predicate Held(s: Sched, key: string) {
    key in s.timers ==>
      var t := s.timers[key];
      On(s.armed, t, key) || On(s.fired, t, key) || On(s.running, t, key)
  }

  ghost predicate Coherent(s: Sched) {
    && s.armed.Keys !! s.fired.Keys !! s.running.Keys
    && (forall t :: t in s.armed || t in s.fired || t in s.running ==> t < s.next)
    && (forall k :: k in s.timers ==> Held(s, k))
  }

  /** The timer recorded for a key has not fired yet. */
  ghost predicate Waiting(s: Sched, key: string) {
    key in s.timers && s.timers[key] in s.armed
  }

  // ---------- how each locked operation moves the number of chains ----------

  lemma CountInsert(m: map<TimerId, Closure>, t: TimerId, c: Closure, key: string)
    requires t !in m
    ensures CountOn(m[t := c], key) == CountOn(m, key) + if ClosureKey(c) == key then 1 else 0
  {
    if ClosureKey(c) == key {
      assert TimersOn(m[t := c], key) == TimersOn(m, key) + {t};
    } else {
      assert TimersOn(m[t := c], key) == TimersOn(m, key);
    }
  }

  lemma CountRemove(m: map<TimerId, Closure>, t: TimerId, key: string)
    requires t in m
    ensures CountOn(m, key) == CountOn(m - {t}, key) + if ClosureKey(m[t]) == key then 1 else 0
  {
    if ClosureKey(m[t]) == key {
      assert TimersOn(m, key) == TimersOn(m - {t}, key) + {t};
    } else {
      assert TimersOn(m, key) == TimersOn(m - {t}, key);
    }
  }

  lemma CountZero(m: map<TimerId, Closure>, t: TimerId)
    requires t in m
    ensures CountOn(m, ClosureKey(m[t])) > 0
  {
    CountRemove(m, t, ClosureKey(m[t]));
  }

  /** A recorded timer that is not waiting has its callback running. */
  lemma TrackedIsBusyOrWaiting(s: Sched, key: string)
    requires Coherent(s) && key in s.timers && Busy(s, key) == 0
    ensures Waiting(s, key) && CountOn(s.armed, key) > 0
  {
    var t := s.timers[key];
    assert Held(s, key);
    if t in s.fired {
      CountZero(s.fired, t);
    } else if t in s.running {
      CountZero(s.running, t);
    } else {
      CountZero(s.armed, t);
    }
  }

  lemma StopTimerCoheres(s: Sched, stopped: string)
    requires Coherent(s)
    ensures Coherent(StopTimer(s, stopped))
  {
    var s' := StopTimer(s, stopped);
    forall k | k in s'.timers
      ensures Held(s', k)
    {
      assert Held(s, k);
      assert stopped in s.timers ==> Held(s, stopped);
    }
  }

  lemma StopTimerChains(s: Sched, stopped: string, key: string)
    requires Coherent(s)
    ensures var s' := StopTimer(s, stopped);
      && Coherent(s') && s'.fired == s.fired && s'.running == s.running && stopped !in s'.timers
      && (stopped != key ==> Tracked(s', key) == Tracked(s, key))
      && Chains(s', key) + (if stopped == key && Waiting(s, key) then 1 else 0) == Chains(s, key)
  {
    StopTimerCoheres(s, stopped);
    if stopped in s.timers {
      var t := s.timers[stopped];
      assert Held(s, stopped);
      if t in s.armed {
        CountRemove(s.armed, t, key);
      } else {
        assert s.armed - {t} == s.armed;
      }
    }
  }

  lemma ArmChains(s: Sched, c: Closure, key: string)
    requires Coherent(s)
    ensures var s' := Arm(s, c);
      && Coherent(s') && s'.fired == s.fired && s'.running == s.running
      && Chains(s', key) == Chains(s, key) + (if ClosureKey(c) == key then 1 else 0)
      && (ClosureKey(c) == key ==> Tracked(s', key) == 1)
      && (ClosureKey(c) != key ==> Tracked(s', key) == Tracked(s, key))
  {
    var s' := Arm(s, c);
    CountInsert(s.armed, s.next, c, key);
    forall k | k in s'.timers
      ensures Held(s', k)
    {
      assert Held(s, k);
    }
  }

  /** After a Stop, a Start is the arming of a new timer. */
  lemma StartAfterStop(s: Sched, c: Closure)
    ensures var key := ClosureKey(c);
      var stopped := StopTimer(s, key);
      StartCommon(stopped, c) == Arm(stopped.(initial := stopped.initial[key := true]), c)
  {
    var stopped := StopTimer(s, ClosureKey(c));
    assert stopped.initial - {ClosureKey(c)} == stopped.initial;
  }

  lemma InitialIsBeside(s: Sched, initial: map<string, bool>)
    requires Coherent(s)
    ensures Coherent(s.(initial := initial))
  {
    forall k | k in s.timers
      ensures Held(s.(initial := initial), k)
    {
      assert Held(s, k);
    }
  }

  /** A successful start: stop the key's timer, then arm one new timer for it. */
  lemma RestartChains(s: Sched, c: Closure, key: string)
    requires Coherent(s)
    ensures var s' := StartCommon(StopTimer(s, ClosureKey(c)), c);
      && Coherent(s')
      && (ClosureKey(c) != key ==> Chains(s', key) == Chains(s, key) && Tracked(s', key) == Tracked(s, key))
      && (ClosureKey(c) == key ==>
            Tracked(s', key) == 1 && Chains(s', key) + (if Waiting(s, key) then 1 else 0) == Chains(s, key) + 1)
  {
    var k := ClosureKey(c);
    StopTimerChains(s, k, key);
    var stopped := StopTimer(s, k);
    InitialIsBeside(stopped, stopped.initial[k := true]);
    StartAfterStop(s, c);
    ArmChains(stopped.(initial := stopped.initial[k := true]), c, key);
  }

  /** A timer that fires is the same chain, seen from the other side. */
  lemma FireChains(s: Sched, t: TimerId, key: string)
    requires Coherent(s) && t in s.armed
    ensures var s' := Fire(s, t);
      && Coherent(s') && Chains(s', key) == Chains(s, key) && s'.timers == s.timers
      && CountOn(s'.armed, key) + (if ClosureKey(s.armed[t]) == key then 1 else 0) == CountOn(s.armed, key)
      && CountOn(s'.running, key) == CountOn(s.running, key)
  {
    var s' := Fire(s, t);
    CountRemove(s.armed, t, key);
    CountInsert(s.fired, t, s.armed[t], key);
    forall j | j in s'.timers
      ensures Held(s', j)
    {
      assert Held(s, j);
    }
  }

  lemma CheckFoundChains(s: Sched, t: TimerId, key: string)
    requires Coherent(s) && t in s.fired
    ensures var s' := Check(s, t, true);
      && Coherent(s') && Chains(s', key) == Chains(s, key) && s'.timers == s.timers
      && s'.armed == s.armed
      && (ClosureKey(s.fired[t]) != key ==> CountOn(s'.running, key) == CountOn(s.running, key))
  {
    var s' := Check(s, t, true);
    CountRemove(s.fired, t, key);
    CountInsert(s.running, t, s.fired[t], key);
    forall j | j in s'.timers
      ensures Held(s', j)
    {
      assert Held(s, j);
    }
  }

  /** A callback that does not find its volume ends its own chain at least. */
  lemma CheckGoneChains(s: Sched, t: TimerId, key: string)
    requires Coherent(s) && t in s.fired
    ensures var s' := Check(s, t, false);
      && Coherent(s') && s'.running == s.running && CountOn(s'.armed, key) <= CountOn(s.armed, key)
      && (ClosureKey(s.fired[t]) != key ==> Chains(s', key) == Chains(s, key) && Tracked(s', key) == Tracked(s, key))
      && (ClosureKey(s.fired[t]) == key ==> Chains(s', key) < Chains(s, key) && Tracked(s', key) == 0)
  {
    var k := ClosureKey(s.fired[t]);
    var s' := Check(s, t, false);
    CountRemove(s.fired, t, key);
    if k in s.timers && s.timers[k] in s.armed {
      CountRemove(s.armed, s.timers[k], key);
      assert Held(s, k);
    } else if k in s.timers {
      assert s.armed - {s.timers[k]} == s.armed;
    }
    forall j | j in s'.timers
      ensures Held(s', j)
    {
      assert Held(s, j);
      assert k in s.timers ==> Held(s, k);
    }
  }

  lemma FireEndChains(s: Sched, t: TimerId, key: string)
    requires Coherent(s) && t in s.running
    ensures var s' := FireEnd(s, t);
      && Coherent(s') && Chains(s', key) == Chains(s, key)
      && Tracked(s', key) >= Tracked(s, key)
      && (ClosureKey(s.running[t]) != key ==> Tracked(s', key) == Tracked(s, key))
      && CountOn(s'.armed, key) + CountOn(s'.running, key) == CountOn(s.armed, key) + CountOn(s.running, key)
  {
    var s' := FireEnd(s, t);
    CountRemove(s.running, t, key);
    CountInsert(s.armed, s.next, s.running[t], key);
    forall j | j in s'.timers
      ensures Held(s', j)
    {
      assert j in s.timers ==> Held(s, j);
    }
  }

  /** A Start or a Stop on a key, seen from any key. */
  ghost predicate CallMoves(s: Sched, s': Sched, called: string, key: string) {
    && Coherent(s')
    && (called != key ==> Chains(s', key) == Chains(s, key) && Tracked(s', key) == Tracked(s, key))
    && Chains(s', key) + Tracked(s, key) <=
       Chains(s, key) + Tracked(s', key) + (if called == key && Busy(s, key) > 0 then 1 else 0)
  }

  lemma StopMoves(s: Sched, called: string, key: string)
    requires Coherent(s)
    ensures CallMoves(s, StopTimer(s, called), called, key)
  {
    StopTimerChains(s, called, key);
    if called in s.timers && Busy(s, called) == 0 {
      TrackedIsBusyOrWaiting(s, called);
    }
  }

  lemma RestartMoves(s: Sched, c: Closure, key: string)
    requires Coherent(s)
    ensures CallMoves(s, StartCommon(StopTimer(s, ClosureKey(c)), c), ClosureKey(c), key)
  {
    RestartChains(s, c, key);
    if ClosureKey(c) in s.timers && Busy(s, ClosureKey(c)) == 0 {
      TrackedIsBusyOrWaiting(s, ClosureKey(c));
    }
  }

  lemma StartSharedMoves(s: Sched, sv: SharedVolume, key: string, parse: DurationParser)
    requires Coherent(s)
    ensures CallMoves(s, StartShared(s, sv, parse).0, KeyOf(sv.namespace, sv.name), key)
  {
    StopMoves(s, KeyOf(sv.namespace, sv.name), key);
    match parse(sv.spec.syncInterval) {
      case None =>
      case Some(interval) => RestartMoves(s, ClosureOf(sv, interval), key);
    }
  }

  lemma StartClusterMoves(s: Sched, csv: ClusterSharedVolume, key: string, parse: DurationParser)
    requires Coherent(s)
    ensures CallMoves(s, StartCluster(s, csv, parse).0, KeyOf(csv.spec.resourceNamespace, csv.name), key)
  {
    StopMoves(s, KeyOf(csv.spec.resourceNamespace, csv.name), key);
    match parse(csv.spec.syncInterval) {
      case None =>
      case Some(interval) => RestartMoves(s, ClusterClosure(csv, interval), key);
    }
  }

  lemma NextChains(y: System, step: Step, key: string, parse: DurationParser)
    requires Coherent(y.sched)
    ensures var y' := Next(y, step, parse);
      var overlap := if IsCallOn(step, key) && Busy(y.sched, key) > 0 then 1 else 0;
      && Coherent(y'.sched)
      && Chains(y'.sched, key) + Tracked(y.sched, key) <= Chains(y.sched, key) + Tracked(y'.sched, key) + overlap
  {
    match step
    case CallStartShared(sv) => StartSharedMoves(y.sched, sv, key, parse);
    case CallStartCluster(csv) => StartClusterMoves(y.sched, csv, key, parse);
    case CallStopShared(namespace, name) => StopMoves(y.sched, KeyOf(namespace, name), key);
    case CallStopCluster(namespace, name) => StopMoves(y.sched, KeyOf(namespace, name), key);
    case Begin(t) =>
      if t in y.sched.armed {
        FireChains(y.sched, t, key);
      }
    case Answered(t, shared, cluster) =>
      if t in y.sched.fired {
        if VolumeExists(shared, cluster) {
          CheckFoundChains(y.sched, t, key);
        } else {
          CheckGoneChains(y.sched, t, key);
        }
      }
    case End(t) =>
      if t in y.sched.running {
        FireEndChains(y.sched, t, key);
      }
    case _ =>
  }

  /**
   Bounded chains, over all runs: a key never has more armed timers and running callbacks than
   one for its map entry, and one for every Start or Stop that overlapped one of its callbacks.
   */
  lemma {:induction false} ChainsBounded(steps: seq<Step>, key: string, parse: DurationParser)
    ensures var start := System(IDLE, {}, {});
      var s := Run(start, steps, parse).sched;
      Coherent(s) && Chains(s, key) <= OverlappingCalls(start, steps, key, parse) + Tracked(s, key)
  {
    if steps != [] {
      var front := steps[..|steps| - 1];
      ChainsBounded(front, key, parse);
      NextChains(Run(System(IDLE, {}, {}), front, parse), steps[|steps| - 1], key, parse);
    }
  }

  lemma RunStep(y: System, steps: seq<Step>, step: Step, parse: DurationParser)
    ensures Run(y, steps + [step], parse) == Next(Run(y, steps, parse), step, parse)
    ensures forall key ::
      (OverlappingCalls(y, steps + [step], key, parse) ==
       OverlappingCalls(y, steps, key, parse) +
       if IsCallOn(step, key) && Busy(Run(y, steps, parse).sched, key) > 0 then 1 else 0)
  {
    assert (steps + [step])[..|steps|] == steps;
  }

  ghost predicate Startable(sv: SharedVolume, interval: int, parse: DurationParser) {
    sv.phase == "Ready" && HasValidSource(sv.spec) && parse(sv.spec.syncInterval) == Some(interval)
  }

  /** No callback of the volume is running, and the timer recorded for it is waiting. */
  ghost predicate Resting(y: System, sv: SharedVolume, interval: int) {
    var s, key := y.sched, KeyOf(sv.namespace, sv.name);
    && Coherent(s) && s.fired == map[] && s.running == map[] && (sv.namespace, sv.name) in y.shared
    && Waiting(s, key) && s.armed[s.timers[key]] == ClosureOf(sv, interval)
  }

  /** The recorded timer fires and finds its volume: one callback is running, nothing else has changed. */
  lemma OneCallback(y: System, sv: SharedVolume, interval: int, parse: DurationParser) returns (z: System)
    requires Resting(y, sv, interval)
    ensures var s, key := y.sched, KeyOf(sv.namespace, sv.name);
      var t := s.timers[key];
      && z == Next(Next(y, Begin(t), parse), Answered(t, Found(()), Failed), parse)
      && z == y.(sched := s.(armed := s.armed - {t}, running := map[t := ClosureOf(sv, interval)]))
      && Coherent(z.sched) && Chains(z.sched, key) == Chains(s, key) && Busy(z.sched, key) == 1
  {
    var s, key := y.sched, KeyOf(sv.namespace, sv.name);
    var t := s.timers[key];
    FireChains(s, t, key);
    CheckFoundChains(Fire(s, t), t, key);
    z := Next(Next(y, Begin(t), parse), Answered(t, Found(()), Failed), parse);
    CountInsert(map[], t, ClosureOf(sv, interval), key);
    assert TimersOn(map[], key) == {};
  }

  /** A Start during that callback, and its end: at rest again, with one chain more. */
  lemma OneMoreChain(y: System, sv: SharedVolume, interval: int, parse: DurationParser) returns (z: System)
    requires Resting(y, sv, interval) && Startable(sv, interval, parse)
    ensures var key := KeyOf(sv.namespace, sv.name);
      var t := y.sched.timers[key];
      var called := Next(Next(y, Begin(t), parse), Answered(t, Found(()), Failed), parse);
      && z == Next(Next(called, CallStartShared(sv), parse), End(t), parse)
      && Busy(called.sched, key) == 1
      && Resting(z, sv, interval) && Chains(z.sched, key) == Chains(y.sched, key) + 1
  {
    var key := KeyOf(sv.namespace, sv.name);
    var t := y.sched.timers[key];
    var called := OneCallback(y, sv, interval, parse);
    RestartChains(called.sched, ClosureOf(sv, interval), key);
    StartAfterStop(called.sched, ClosureOf(sv, interval));
    var started := Next(called, CallStartShared(sv), parse);
    assert called.sched.armed - {t} == called.sched.armed;
    FireEndChains(started.sched, t, key);
    z := Next(started, End(t), parse);
    assert map[t := ClosureOf(sv, interval)] - {t} == map[];
  }

  /** A run of four steps more: fire, find the volume, start it again, end the callback. */
  lemma LongerByFour(y: System, steps: seq<Step>, t: TimerId, sv: SharedVolume, parse: DurationParser)
    returns (longer: seq<Step>)
    ensures var key := KeyOf(sv.namespace, sv.name);
      var called := Next(Next(Run(y, steps, parse), Begin(t), parse), Answered(t, Found(()), Failed), parse);
      && Run(y, longer, parse) == Next(Next(called, CallStartShared(sv), parse), End(t), parse)
      && OverlappingCalls(y, longer, key, parse) ==
           OverlappingCalls(y, steps, key, parse) + if Busy(called.sched, key) > 0 then 1 else 0
  {
    RunStep(y, steps, Begin(t), parse);
    longer := steps + [Begin(t)];
    RunStep(y, longer, Answered(t, Found(()), Failed), parse);
    longer := longer + [Answered(t, Found(()), Failed)];
    RunStep(y, longer, CallStartShared(sv), parse);
    longer := longer + [CallStartShared(sv)];
    RunStep(y, longer, End(t), parse);
    longer := longer + [End(t)];
  }

  lemma StartedRun(sv: SharedVolume, interval: int, parse: DurationParser) returns (steps: seq<Step>)
    requires Startable(sv, interval, parse)
    ensures var y, key := Run(System(IDLE, {}, {}), steps, parse), KeyOf(sv.namespace, sv.name);
      && Resting(y, sv, interval) && Chains(y.sched, key) == 1
      && y.sched == Sched(map[key := 0], map[key := true], map[0 := ClosureOf(sv, interval)], map[], map[], 1)
      && OverlappingCalls(System(IDLE, {}, {}), steps, key, parse) == 0
  {
    var y0, key := System(IDLE, {}, {}), KeyOf(sv.namespace, sv.name);
    RunStep(y0, [], StoreShared(sv.namespace, sv.name), parse);
    steps := [] + [StoreShared(sv.namespace, sv.name)];
    RunStep(y0, steps, CallStartShared(sv), parse);
    assert TimersOn(map[], key) == {};
    steps := steps + [CallStartShared(sv)];
    CountInsert(map[], 0, ClosureOf(sv, interval), key);
    assert On(map[0 := ClosureOf(sv, interval)], 0, key);
  }

  lemma {:induction false} ManyChains(sv: SharedVolume, interval: int, n: nat, parse: DurationParser)
    returns (steps: seq<Step>)
    requires Startable(sv, interval, parse)
    ensures var y, key := Run(System(IDLE, {}, {}), steps, parse), KeyOf(sv.namespace, sv.name);
      && Resting(y, sv, interval) && Chains(y.sched, key) == n + 1
      && OverlappingCalls(System(IDLE, {}, {}), steps, key, parse) == n
  {
    if n == 0 {
      steps := StartedRun(sv, interval, parse);
    } else {
      var fewer := ManyChains(sv, interval, n - 1, parse);
      var y, key := Run(System(IDLE, {}, {}), fewer, parse), KeyOf(sv.namespace, sv.name);
      var _ := OneMoreChain(y, sv, interval, parse);
      steps := LongerByFour(System(IDLE, {}, {}), fewer, y.sched.timers[key], sv, parse);
    }
  }

  /** The bound is reached for every number of overlapping calls: n Starts can leave n + 1 chains. */
  lemma BoundIsReached(sv: SharedVolume, interval: int, n: nat, parse: DurationParser)
    requires Startable(sv, interval, parse)
    ensures exists steps ::
      var start, key := System(IDLE, {}, {}), KeyOf(sv.namespace, sv.name);
      var s := Run(start, steps, parse).sched;
      && OverlappingCalls(start, steps, key, parse) == n && Tracked(s, key) == 1
      && Chains(s, key) == OverlappingCalls(start, steps, key, parse) + Tracked(s, key)
  {
    var steps := ManyChains(sv, interval, n, parse);
  }

  // ---------- when a Stop ends the sync of its key, and a Start leaves one chain ----------

  /** No callback of the key is running, and no timer of it is armed but the recorded one. */
  ghost predicate Quiescent(s: Sched, key: string) {
    Busy(s, key) == 0 && CountOn(s.armed, key) <= Tracked(s, key)
  }

  lemma WaitingCounts(s: Sched, key: string)
    requires Coherent(s)
    ensures Waiting(s, key) ==> CountOn(s.armed, key) > 0 && Tracked(s, key) == 1
    ensures Busy(s, key) == 0 && key in s.timers ==> Waiting(s, key)
  {
    if Waiting(s, key) {
      assert Held(s, key);
      CountZero(s.armed, s.timers[key]);
    }
    if Busy(s, key) == 0 && key in s.timers {
      TrackedIsBusyOrWaiting(s, key);
    }
  }

  /** A Stop ends every chain of its key exactly when the key is quiescent. */
  lemma StopEndsChainsIff(s: Sched, key: string)
    requires Coherent(s)
    ensures Chains(StopTimer(s, key), key) == 0 <==> Quiescent(s, key)
  {
    StopTimerChains(s, key, key);
    WaitingCounts(s, key);
  }

  predicate RecoversShared(sv: SharedVolume, parse: DurationParser) {
    sv.phase == "Ready" && HasValidSource(sv.spec) && parse(sv.spec.syncInterval).Some?
  }

  /** A successful Start of either kind leaves exactly one chain under the same condition. */
  lemma StartLeavesOneIff(s: Sched, sv: SharedVolume, csv: ClusterSharedVolume, parse: DurationParser)
    requires Coherent(s)
    ensures RecoversShared(sv, parse) ==>
      var key := KeyOf(sv.namespace, sv.name);
      (Chains(StartShared(s, sv, parse).0, key) == 1 <==> Quiescent(s, key))
    ensures HasValidSource(csv.spec) && parse(csv.spec.syncInterval).Some? ==>
      var key := KeyOf(csv.spec.resourceNamespace, csv.name);
      (Chains(StartCluster(s, csv, parse).0, key) == 1 <==> Quiescent(s, key))
  {
    if RecoversShared(sv, parse) {
      var c := ClosureOf(sv, parse(sv.spec.syncInterval).value);
      RestartChains(s, c, ClosureKey(c));
      WaitingCounts(s, ClosureKey(c));
    }
    if HasValidSource(csv.spec) && parse(csv.spec.syncInterval).Some? {
      var c := ClusterClosure(csv, parse(csv.spec.syncInterval).value);
      RestartChains(s, c, ClosureKey(c));
      WaitingCounts(s, ClosureKey(c));
    }
  }

  ghost predicate SameKeys(s: Sched) {
    s.timers.Keys == s.initial.Keys
  }

  /** A callback that returns after its key was stopped. */
  ghost predicate EndsStopped(s: Sched, step: Step) {
    step.End? && step.t in s.running && ClosureKey(s.running[step.t]) !in s.timers
  }

  lemma StopKeepsSameKeys(s: Sched, key: string)
    requires SameKeys(s)
    ensures SameKeys(StopTimer(s, key))
  {
  }

  lemma RestartKeepsSameKeys(s: Sched, c: Closure)
    requires SameKeys(s)
    ensures SameKeys(StartCommon(StopTimer(s, ClosureKey(c)), c))
  {
    StopKeepsSameKeys(s, ClosureKey(c));
    StartAfterStop(s, c);
  }

  lemma StartsKeepSameKeys(s: Sched, sv: SharedVolume, csv: ClusterSharedVolume, parse: DurationParser)
    requires SameKeys(s)
    ensures SameKeys(StartShared(s, sv, parse).0) && SameKeys(StartCluster(s, csv, parse).0)
  {
    StopKeepsSameKeys(s, KeyOf(sv.namespace, sv.name));
    StopKeepsSameKeys(s, KeyOf(csv.spec.resourceNamespace, csv.name));
    if parse(sv.spec.syncInterval).Some? {
      RestartKeepsSameKeys(s, ClosureOf(sv, parse(sv.spec.syncInterval).value));
    }
    if parse(csv.spec.syncInterval).Some? {
      var interval := parse(csv.spec.syncInterval).value;
      RestartKeepsSameKeys(s, ClusterClosure(csv, interval));
    }
  }

  lemma StepKeepsSameKeys(y: System, step: Step, parse: DurationParser)
    requires SameKeys(y.sched)
    ensures SameKeys(Next(y, step, parse).sched) <==> !EndsStopped(y.sched, step)
  {
    var s := y.sched;
    match step
    case CallStartShared(sv) => StartsKeepSameKeys(s, sv, ClusterSharedVolume("", "", sv.spec), parse);
    case CallStartCluster(csv) => StartsKeepSameKeys(s, SharedVolume("", "", "", csv.spec), csv, parse);
    case CallStopShared(namespace, name) => StopKeepsSameKeys(s, KeyOf(namespace, name));
    case CallStopCluster(namespace, name) => StopKeepsSameKeys(s, KeyOf(namespace, name));
    case Answered(t, _, _) =>
      if t in s.fired {
        StopKeepsSameKeys(s.(fired := s.fired - {t}), ClosureKey(s.fired[t]));
      }
    case End(t) =>
      if t in s.running {
        assert ClosureKey(s.running[t]) in FireEnd(s, t).timers;
      }
    case _ =>
  }

  ghost predicate SameKeysAfter(steps: seq<Step>, i: nat, parse: DurationParser)
    requires i <= |steps|
  {
    SameKeys(Run(System(IDLE, {}, {}), steps[..i], parse).sched)
  }

  ghost predicate EndsStoppedAt(steps: seq<Step>, i: nat, parse: DurationParser)
    requires i < |steps|
  {
    EndsStopped(Run(System(IDLE, {}, {}), steps[..i], parse).sched, steps[i])
  }

  lemma NextKeepsSameKeys(steps: seq<Step>, i: nat, parse: DurationParser)
    requires i < |steps| && SameKeysAfter(steps, i, parse)
    ensures SameKeysAfter(steps, i + 1, parse) <==> !EndsStoppedAt(steps, i, parse)
  {
    var start := System(IDLE, {}, {});
    assert steps[..i + 1] == steps[..i] + [steps[i]];
    RunStep(start, steps[..i], steps[i], parse);
    StepKeepsSameKeys(Run(start, steps[..i], parse), steps[i], parse);
  }

  lemma {:induction false} SameKeysUpTo(steps: seq<Step>, i: nat, parse: DurationParser)
    requires i <= |steps| && forall j :: 0 <= j < i ==> !EndsStoppedAt(steps, j, parse)
    ensures SameKeysAfter(steps, i, parse)
  {
    if i == 0 {
      assert steps[..0] == [];
    } else {
      SameKeysUpTo(steps, i - 1, parse);
      NextKeepsSameKeys(steps, i - 1, parse);
    }
  }

  /**
   The two maps have the same keys throughout a run exactly when no callback returns after a Stop
   that it overlapped and that no Start has followed.
   */
  lemma SameKeysThroughoutIff(steps: seq<Step>, parse: DurationParser)
    ensures (forall i :: 0 <= i <= |steps| ==> SameKeysAfter(steps, i, parse)) <==>
      (forall i :: 0 <= i < |steps| ==> !EndsStoppedAt(steps, i, parse))
  {
    if forall i :: 0 <= i <= |steps| ==> SameKeysAfter(steps, i, parse) {
      forall i | 0 <= i < |steps|
        ensures !EndsStoppedAt(steps, i, parse)
      {
        NextKeepsSameKeys(steps, i, parse);
      }
    } else if forall i :: 0 <= i < |steps| ==> !EndsStoppedAt(steps, i, parse) {
      forall i | 0 <= i <= |steps|
        ensures SameKeysAfter(steps, i, parse)
      {
        SameKeysUpTo(steps, i, parse);
      }
    }
  }

  /** A run that ends inside the callback of the only timer. */
  lemma InsideCallback(sv: SharedVolume, interval: int, parse: DurationParser) returns (steps: seq<Step>)
    requires Startable(sv, interval, parse)
    ensures var key := KeyOf(sv.namespace, sv.name);
      Run(System(IDLE, {}, {}), steps, parse).sched ==
      Sched(map[key := 0], map[key := true], map[], map[], map[0 := ClosureOf(sv, interval)], 1)
  {
    var y0 := System(IDLE, {}, {});
    var first := StartedRun(sv, interval, parse);
    var called := OneCallback(Run(y0, first, parse), sv, interval, parse);
    RunStep(y0, first, Begin(0), parse);
    RunStep(y0, first + [Begin(0)], Answered(0, Found(()), Failed), parse);
    steps := first + [Begin(0)] + [Answered(0, Found(()), Failed)];
  }

  /** The failing input: a Stop that overlaps a callback neither ends its chain nor keeps the keys equal. */
  lemma OverlappingStopIsLost(sv: SharedVolume, interval: int, parse: DurationParser)
    requires Startable(sv, interval, parse)
    ensures exists steps ::
      var s := Run(System(IDLE, {}, {}), steps + [CallStopShared(sv.namespace, sv.name), End(0)], parse).sched;
      s.timers.Keys == {KeyOf(sv.namespace, sv.name)} && s.initial.Keys == {} && s.armed.Keys == s.timers.Values
  {
    var key, c := KeyOf(sv.namespace, sv.name), ClosureOf(sv, interval);
    var y0 := System(IDLE, {}, {});
    var steps := InsideCallback(sv, interval, parse);
    var stop, end := CallStopShared(sv.namespace, sv.name), End(0);
    RunStep(y0, steps, stop, parse);
    assert Run(y0, steps + [stop], parse).sched == Sched(map[], map[], map[], map[], map[0 := c], 1);
    RunStep(y0, steps + [stop], end, parse);
    assert steps + [stop] + [end] == steps + [stop, end];
    assert Run(y0, steps + [stop, end], parse).sched == Sched(map[key := 1], map[], map[1 := c], map[], map[], 2);
  }

  // ---------- sync dies out after deletion ----------

  /** Namespaces are labels without a slash, so a key names one volume. */
  lemma KeyNamesOneVolume(a: Closure, namespace: string, name: string)
    requires Free('/', a.namespace) && Free('/', namespace)
    requires ClosureKey(a) == KeyOf(namespace, name)
    ensures a.namespace == namespace && a.name == name
  {
    SplitUnique(a.namespace, a.name, '/', namespace, name);
  }

  ghost predicate WellNamed(s: Sched) {
    && (forall t :: t in s.armed ==> Free('/', s.armed[t].namespace))
    && (forall t :: t in s.fired ==> Free('/', s.fired[t].namespace))
    && (forall t :: t in s.running ==> Free('/', s.running[t].namespace))
  }

  ghost predicate WellNamedStep(step: Step) {
    match step
    case CallStartShared(sv) => Free('/', sv.namespace)
    case CallStartCluster(csv) => Free('/', csv.spec.resourceNamespace)
    case _ => true
  }

  /** No later Start on the volume's key, and nobody stores a volume that answers its lookups. */
  ghost predicate LeavesDeleted(step: Step, namespace: string, name: string) {
    match step
    case CallStartShared(sv) => KeyOf(sv.namespace, sv.name) != KeyOf(namespace, name)
    case CallStartCluster(csv) => KeyOf(csv.spec.resourceNamespace, csv.name) != KeyOf(namespace, name)
    case StoreShared(ns, n) => (ns, n) != (namespace, name)
    case StoreCluster(n) => n != name
    case _ => true
  }

  ghost predicate Deleted(y: System, namespace: string, name: string) {
    (namespace, name) !in y.shared && name !in y.cluster
  }

  /** How many callbacks of the key start in the run. */
  ghost function Callbacks(y: System, steps: seq<Step>, key: string, parse: DurationParser): nat {
    if steps == [] then 0
    else
      var front, last := steps[..|steps| - 1], steps[|steps| - 1];
      var s := Run(y, front, parse);
      Callbacks(y, front, key, parse) +
      if last.Begin? && last.t in s.sched.armed && ClosureKey(s.sched.armed[last.t]) == key then 1 else 0
  }

  /** The chains that can still start a callback: all but those whose check is not answered yet. */
  ghost function Renewable(s: Sched, key: string): nat {
    CountOn(s.armed, key) + CountOn(s.running, key)
  }

  lemma StopKeepsNames(s: Sched, key: string)
    requires WellNamed(s)
    ensures WellNamed(StopTimer(s, key))
  {
  }

  lemma StartKeepsNames(s: Sched, c: Closure)
    requires WellNamed(s) && Free('/', c.namespace)
    ensures WellNamed(StartCommon(StopTimer(s, ClosureKey(c)), c))
  {
    StopKeepsNames(s, ClosureKey(c));
    StartAfterStop(s, c);
  }

  lemma StepKeepsNames(y: System, step: Step, parse: DurationParser)
    requires WellNamed(y.sched) && WellNamedStep(step)
    ensures WellNamed(Next(y, step, parse).sched)
  {
    match step
    case CallStartShared(sv) =>
      StopKeepsNames(y.sched, KeyOf(sv.namespace, sv.name));
      match parse(sv.spec.syncInterval) {
        case None =>
        case Some(interval) => StartKeepsNames(y.sched, ClosureOf(sv, interval));
      }
    case CallStartCluster(csv) =>
      StopKeepsNames(y.sched, KeyOf(csv.spec.resourceNamespace, csv.name));
      match parse(csv.spec.syncInterval) {
        case None =>
        case Some(interval) =>
          StartKeepsNames(y.sched, ClusterClosure(csv, interval));
      }
    case CallStopShared(ns, n) => StopKeepsNames(y.sched, KeyOf(ns, n));
    case CallStopCluster(ns, n) => StopKeepsNames(y.sched, KeyOf(ns, n));
    case Begin(t) =>
    case Answered(t, _, _) =>
      if t in y.sched.fired {
        StopKeepsNames(y.sched.(fired := y.sched.fired - {t}), ClosureKey(y.sched.fired[t]));
      }
    case End(t) =>
    case _ =>
  }

  /** A call on another key, or a Stop, adds no renewable chain. */
  lemma CallAddsNothing(s: Sched, s': Sched, key: string)
    requires Chains(s', key) <= Chains(s, key) && s'.fired == s.fired
    ensures Renewable(s', key) <= Renewable(s, key)
  {
  }

  lemma StartsElsewhere(s: Sched, c: Closure, key: string)
    requires Coherent(s) && ClosureKey(c) != key
    ensures StartCommon(StopTimer(s, ClosureKey(c)), c).fired == s.fired
    ensures Chains(StartCommon(StopTimer(s, ClosureKey(c)), c), key) == Chains(s, key)
  {
    RestartChains(s, c, key);
  }

  lemma DeletedCall(y: System, step: Step, namespace: string, name: string, parse: DurationParser)
    requires Coherent(y.sched) && LeavesDeleted(step, namespace, name)
    requires step.CallStartShared? || step.CallStartCluster? || step.CallStopShared? || step.CallStopCluster?
    ensures var key := KeyOf(namespace, name); Renewable(Next(y, step, parse).sched, key) <= Renewable(y.sched, key)
  {
    var s, key := y.sched, KeyOf(namespace, name);
    match step
    case CallStartShared(sv) =>
      StopTimerChains(s, KeyOf(sv.namespace, sv.name), key);
      match parse(sv.spec.syncInterval) {
        case None =>
        case Some(interval) => StartsElsewhere(s, ClosureOf(sv, interval), key);
      }
    case CallStartCluster(csv) =>
      StopTimerChains(s, KeyOf(csv.spec.resourceNamespace, csv.name), key);
      match parse(csv.spec.syncInterval) {
        case None =>
        case Some(interval) =>
          StartsElsewhere(s, ClusterClosure(csv, interval), key);
      }
    case CallStopShared(ns, n) => StopTimerChains(s, KeyOf(ns, n), key);
    case CallStopCluster(ns, n) => StopTimerChains(s, KeyOf(ns, n), key);
  }

  lemma DeletedStep(y: System, step: Step, namespace: string, name: string, parse: DurationParser)
    requires Coherent(y.sched) && WellNamed(y.sched) && WellNamedStep(step) && Free('/', namespace)
    requires Deleted(y, namespace, name) && LeavesDeleted(step, namespace, name)
    ensures var y' := Next(y, step, parse);
      var key := KeyOf(namespace, name);
      && Coherent(y'.sched) && WellNamed(y'.sched) && Deleted(y', namespace, name)
      && Renewable(y'.sched, key) + Callbacks(y, [step], key, parse) <= Renewable(y.sched, key)
  {
    var key := KeyOf(namespace, name);
    NextChains(y, step, key, parse);
    StepKeepsNames(y, step, parse);
    assert [step][..0] == [];
    assert Run(y, [], parse) == y;
    assert Callbacks(y, [], key, parse) == 0;
    match step
    case Begin(t) =>
      if t in y.sched.armed {
        FireChains(y.sched, t, key);
      }
    case Answered(t, shared, cluster) =>
      if t in y.sched.fired && Truthful(y, y.sched.fired[t], shared, cluster) {
        CheckFoundChains(y.sched, t, key);
        CheckGoneChains(y.sched, t, key);
        if ClosureKey(y.sched.fired[t]) == key {
          KeyNamesOneVolume(y.sched.fired[t], namespace, name);
          assert !VolumeExists(shared, cluster);
        }
      }
    case End(t) =>
      if t in y.sched.running {
        FireEndChains(y.sched, t, key);
      }
    case StoreShared(_, _) =>
    case StoreCluster(_) =>
    case RemoveShared(_, _) =>
    case RemoveCluster(_) =>
    case _ => DeletedCall(y, step, namespace, name, parse);
  }

  lemma {:induction false} ChainsKeptApart(y: System, steps: seq<Step>, namespace: string, name: string,
                                           parse: DurationParser)
    requires Coherent(y.sched) && WellNamed(y.sched) && Free('/', namespace) && Deleted(y, namespace, name)
    requires forall i :: 0 <= i < |steps| ==> WellNamedStep(steps[i]) && LeavesDeleted(steps[i], namespace, name)
    ensures var y' := Run(y, steps, parse);
      var key := KeyOf(namespace, name);
      && Coherent(y'.sched) && WellNamed(y'.sched) && Deleted(y', namespace, name)
      && Callbacks(y, steps, key, parse) + Renewable(y'.sched, key) <= Renewable(y.sched, key)
  {
    if steps != [] {
      var front, last := steps[..|steps| - 1], steps[|steps| - 1];
      ChainsKeptApart(y, front, namespace, name, parse);
      var mid := Run(y, front, parse);
      DeletedStep(mid, last, namespace, name, parse);
      assert [last][..0] == [];
      assert Run(mid, [], parse) == mid;
      assert Callbacks(mid, [], KeyOf(namespace, name), parse) == 0;
    }
  }

  lemma {:induction false} NamesStayWell(steps: seq<Step>, parse: DurationParser)
    requires forall i :: 0 <= i < |steps| ==> WellNamedStep(steps[i])
    ensures WellNamed(Run(System(IDLE, {}, {}), steps, parse).sched)
  {
    if steps != [] {
      NamesStayWell(steps[..|steps| - 1], parse);
      StepKeepsNames(Run(System(IDLE, {}, {}), steps[..|steps| - 1], parse), steps[|steps| - 1], parse);
    }
  }

  /**
   Once a volume is gone, whatever happened before, its key starts at most as many further callbacks
   as it had chains alive at that moment, a callback whose check is pending not counted; each ends at
   least its own chain.
   */
  lemma SyncDiesOut(before: seq<Step>, after: seq<Step>, namespace: string, name: string, parse: DurationParser)
    requires Free('/', namespace)
    requires forall i :: 0 <= i < |before| ==> WellNamedStep(before[i])
    requires forall i :: 0 <= i < |after| ==> WellNamedStep(after[i]) && LeavesDeleted(after[i], namespace, name)
    requires Deleted(Run(System(IDLE, {}, {}), before, parse), namespace, name)
    ensures var y := Run(System(IDLE, {}, {}), before, parse);
      var key := KeyOf(namespace, name);
      && Callbacks(y, after, key, parse) + Renewable(Run(y, after, parse).sched, key) <= Renewable(y.sched, key)
      && Renewable(y.sched, key) <= Chains(y.sched, key)
  {
    NamesStayWell(before, parse);
    ChainsBounded(before, KeyOf(namespace, name), parse);
    ChainsKeptApart(Run(System(IDLE, {}, {}), before, parse), after, namespace, name, parse);
  }

  // ---------- the chain of a stored volume lives on ----------

  /** One of the two lookups of a callback can find the volume. */
  predicate IsStored(y: System, c: Closure) {
    (c.namespace, c.name) in y.shared || c.name in y.cluster
  }

  /** With lookups that do not fail a callback goes on exactly if a volume of either kind is stored. */
  lemma StoredGoesOnIff(y: System, t: TimerId, shared: Answer<()>, cluster: Answer<()>, parse: DurationParser)
    requires Coherent(y.sched) && t in y.sched.fired && Truthful(y, y.sched.fired[t], shared, cluster)
    requires !shared.Failed? && !cluster.Failed?
    ensures var c, y' := y.sched.fired[t], Next(y, Answered(t, shared, cluster), parse);
      && t !in y'.sched.fired
      && (IsStored(y, c) ==> y'.sched == y.sched.(fired := y'.sched.fired, running := y.sched.running[t := c]))
      && (!IsStored(y, c) ==> t !in y'.sched.running && ClosureKey(c) !in y'.sched.timers)
  {
  }

  /** A callback that returns has armed one new timer with its own closure, and recorded it for its key. */
  lemma ReturnRearms(y: System, t: TimerId, parse: DurationParser)
    requires Coherent(y.sched) && t in y.sched.running
    ensures var c, s' := y.sched.running[t], Next(y, End(t), parse).sched;
      && t !in s'.running && ClosureKey(c) in s'.timers
      && var n := s'.timers[ClosureKey(c)];
         && n !in y.sched.armed && n !in y.sched.fired && n !in y.sched.running
         && s'.armed == y.sched.armed[n := c] && s'.timers == y.sched.timers[ClosureKey(c) := n]
  {
  }

  /** A lookup that fails, with nothing found before it, ends the chain, stored or not. */
  lemma FailedLookupStops(y: System, t: TimerId, shared: Answer<()>, cluster: Answer<()>, parse: DurationParser)
    requires Coherent(y.sched) && t in y.sched.fired && Truthful(y, y.sched.fired[t], shared, cluster)
    requires shared.Failed? || (shared.NotFound? && cluster.Failed?)
    ensures var c, s' := y.sched.fired[t], Next(y, Answered(t, shared, cluster), parse).sched;
      && t !in s'.fired && t !in s'.running && ClosureKey(c) !in s'.timers
      && (Waiting(y.sched, ClosureKey(c)) ==> y.sched.timers[ClosureKey(c)] !in s'.armed)
  {
  }

  /** A source of any one kind is enough to be synced. */
  lemma AnyKindOfSource(spec: VolumeSpec, ssh: bool, http: bool, git: bool, s3: bool, fieldsValid: bool)
    requires spec.source == Some(SourceSpec(ssh, http, git, s3, fieldsValid))
    ensures HasValidSource(spec) <==> ssh || http || git || s3
    ensures !HasValidSource(spec.(source := None))
  {
  }

  /** A successful Start records one armed timer with the volume's own names, spec and interval. */
  lemma StartArmsOwnSpec(s: Sched, sv: SharedVolume, csv: ClusterSharedVolume, parse: DurationParser)
    ensures RecoversShared(sv, parse) ==>
      var (s', ok) := StartShared(s, sv, parse);
      && ok && KeyOf(sv.namespace, sv.name) in s'.timers && s'.timers[KeyOf(sv.namespace, sv.name)] in s'.armed
      && s'.armed[s'.timers[KeyOf(sv.namespace, sv.name)]] ==
           Closure(sv.name, sv.namespace, sv.spec, parse(sv.spec.syncInterval).value)
    ensures HasValidSource(csv.spec) && parse(csv.spec.syncInterval).Some? ==>
      var (s', ok) := StartCluster(s, csv, parse);
      var key := KeyOf(csv.spec.resourceNamespace, csv.name);
      && ok && key in s'.timers && s'.timers[key] in s'.armed
      && s'.armed[s'.timers[key]] ==
           Closure(csv.name, csv.spec.resourceNamespace, csv.spec, parse(csv.spec.syncInterval).value)
  {
    if RecoversShared(sv, parse) {
      StartAfterStop(s, ClosureOf(sv, parse(sv.spec.syncInterval).value));
    }
    if HasValidSource(csv.spec) && parse(csv.spec.syncInterval).Some? {
      StartAfterStop(s, ClusterClosure(csv, parse(csv.spec.syncInterval).value));
    }
  }

  ghost function With(m: map<TimerId, Closure>, c: Closure): set<TimerId> {
    set t | t in m && m[t] == c
  }

  /** The chains that carry exactly this closure. */
  ghost function ChainsWith(s: Sched, c: Closure): nat {
    |With(s.armed, c)| + |With(s.fired, c)| + |With(s.running, c)|
  }

  lemma WithInsert(m: map<TimerId, Closure>, t: TimerId, x: Closure, c: Closure)
    requires t !in m
    ensures |With(m[t := x], c)| == |With(m, c)| + if x == c then 1 else 0
  {
    assert With(m[t := x], c) == With(m, c) + (if x == c then {t} else {});
  }

  lemma WithRemove(m: map<TimerId, Closure>, t: TimerId, c: Closure)
    requires t in m
    ensures |With(m, c)| == |With(m - {t}, c)| + if m[t] == c then 1 else 0
  {
    assert With(m, c) == With(m - {t}, c) + (if m[t] == c then {t} else {});
  }

  /** No call on the key of the closure, and every callback of that key is told that its volume is stored. */
  ghost predicate Untroubled(y: System, step: Step, key: string) {
    && !IsCallOn(step, key)
    && (step.Answered? && step.t in y.sched.fired && ClosureKey(y.sched.fired[step.t]) == key ==>
          !step.sharedAnswer.Failed? && !step.clusterAnswer.Failed? && IsStored(y, y.sched.fired[step.t]))
  }

  lemma StopKeepsWith(s: Sched, stopped: string, c: Closure)
    requires Coherent(s) && stopped != ClosureKey(c)
    ensures ChainsWith(StopTimer(s, stopped), c) == ChainsWith(s, c)
  {
    if stopped in s.timers {
      assert Held(s, stopped);
      if s.timers[stopped] in s.armed {
        WithRemove(s.armed, s.timers[stopped], c);
      } else {
        assert s.armed - {s.timers[stopped]} == s.armed;
      }
    }
  }

  lemma StartKeepsWith(s: Sched, x: Closure, c: Closure)
    requires Coherent(s) && ClosureKey(x) != ClosureKey(c)
    ensures ChainsWith(StartCommon(StopTimer(s, ClosureKey(x)), x), c) == ChainsWith(s, c)
  {
    StopTimerChains(s, ClosureKey(x), ClosureKey(x));
    StopKeepsWith(s, ClosureKey(x), c);
    StartAfterStop(s, x);
    WithInsert(StopTimer(s, ClosureKey(x)).armed, s.next, x, c);
  }

  lemma CallKeepsWith(y: System, step: Step, c: Closure, parse: DurationParser)
    requires Coherent(y.sched) && !IsCallOn(step, ClosureKey(c))
    requires step.CallStartShared? || step.CallStartCluster? || step.CallStopShared? || step.CallStopCluster?
    ensures ChainsWith(Next(y, step, parse).sched, c) == ChainsWith(y.sched, c)
  {
    var s := y.sched;
    match step
    case CallStartShared(sv) =>
      StopKeepsWith(s, KeyOf(sv.namespace, sv.name), c);
      match parse(sv.spec.syncInterval) {
        case None =>
        case Some(interval) => StartKeepsWith(s, ClosureOf(sv, interval), c);
      }
    case CallStartCluster(csv) =>
      StopKeepsWith(s, KeyOf(csv.spec.resourceNamespace, csv.name), c);
      match parse(csv.spec.syncInterval) {
        case None =>
        case Some(interval) => StartKeepsWith(s, ClusterClosure(csv, interval), c);
      }
    case CallStopShared(ns, n) => StopKeepsWith(s, KeyOf(ns, n), c);
    case CallStopCluster(ns, n) => StopKeepsWith(s, KeyOf(ns, n), c);
  }

  lemma FireKeepsWith(s: Sched, t: TimerId, c: Closure)
    requires Coherent(s)
    ensures t in s.armed ==> ChainsWith(Fire(s, t), c) == ChainsWith(s, c)
    ensures t in s.running ==> ChainsWith(FireEnd(s, t), c) == ChainsWith(s, c)
  {
    if t in s.armed {
      WithRemove(s.armed, t, c);
      WithInsert(s.fired, t, s.armed[t], c);
    } else if t in s.running {
      WithRemove(s.running, t, c);
      WithInsert(s.armed, s.next, s.running[t], c);
    }
  }

  lemma AnsweredKeepsWith(y: System, step: Step, c: Closure, parse: DurationParser)
    requires Coherent(y.sched) && step.Answered? && Untroubled(y, step, ClosureKey(c))
    ensures ChainsWith(Next(y, step, parse).sched, c) == ChainsWith(y.sched, c)
  {
    var s, t := y.sched, step.t;
    if t in s.fired && Truthful(y, s.fired[t], step.sharedAnswer, step.clusterAnswer) {
      var x := s.fired[t];
      WithRemove(s.fired, t, c);
      if ClosureKey(x) == ClosureKey(c) {
        StoredGoesOnIff(y, t, step.sharedAnswer, step.clusterAnswer, parse);
        WithInsert(s.running, t, x, c);
      } else if VolumeExists(step.sharedAnswer, step.clusterAnswer) {
        WithInsert(s.running, t, x, c);
      } else {
        StopKeepsWith(s, ClosureKey(x), c);
      }
    }
  }

  lemma StepKeepsWith(y: System, step: Step, c: Closure, parse: DurationParser)
    requires Coherent(y.sched) && Untroubled(y, step, ClosureKey(c))
    ensures var y' := Next(y, step, parse);
      Coherent(y'.sched) && ChainsWith(y'.sched, c) == ChainsWith(y.sched, c)
  {
    NextChains(y, step, ClosureKey(c), parse);
    match step
    case Begin(t) => FireKeepsWith(y.sched, t, c);
    case End(t) => FireKeepsWith(y.sched, t, c);
    case Answered(_, _, _) => AnsweredKeepsWith(y, step, c, parse);
    case StoreShared(_, _) =>
    case StoreCluster(_) =>
    case RemoveShared(_, _) =>
    case RemoveCluster(_) =>
    case _ => CallKeepsWith(y, step, c, parse);
  }

  ghost predicate UntroubledRun(y: System, steps: seq<Step>, key: string, parse: DurationParser) {
    forall i :: 0 <= i < |steps| ==> Untroubled(Run(y, steps[..i], parse), steps[i], key)
  }

  lemma {:induction false} ChainsLive(y: System, steps: seq<Step>, c: Closure, parse: DurationParser)
    requires Coherent(y.sched) && UntroubledRun(y, steps, ClosureKey(c), parse)
    ensures Coherent(Run(y, steps, parse).sched)
    ensures ChainsWith(Run(y, steps, parse).sched, c) == ChainsWith(y.sched, c)
  {
    if steps != [] {
      var n := |steps| - 1;
      assert UntroubledRun(y, steps[..n], ClosureKey(c), parse) by {
        forall i | 0 <= i < n
          ensures Untroubled(Run(y, steps[..n][..i], parse), steps[..n][i], ClosureKey(c))
        {
          assert steps[..n][..i] == steps[..i];
        }
      }
      ChainsLive(y, steps[..n], c, parse);
      StepKeepsWith(Run(y, steps[..n], parse), steps[n], c, parse);
    }
  }

  /**
   Whatever came before: while nobody calls Start or Stop on its key and its callbacks are told, without
   failed lookups, that a volume of either kind is stored, the chains with a volume's closure are as
   many as they were; so a chain never dies, and never changes what it syncs.
   */
  lemma StoredChainsLiveOn(before: seq<Step>, after: seq<Step>, c: Closure, parse: DurationParser)
    requires UntroubledRun(Run(System(IDLE, {}, {}), before, parse), after, ClosureKey(c), parse)
    ensures var y := Run(System(IDLE, {}, {}), before, parse);
      ChainsWith(Run(y, after, parse).sched, c) == ChainsWith(y.sched, c)
  {
    ChainsBounded(before, ClosureKey(c), parse);
    ChainsLive(Run(System(IDLE, {}, {}), before, parse), after, c, parse);
  }

  // ---------- refinement of a plain map when callbacks are atomic ----------

  /** The simple picture: for each key with sync running, what its next callback will use. */
  type Schedule = map<string, Closure>

  datatype AtomicStep =
    | DoStartShared(sv: SharedVolume)
    | DoStartCluster(csv: ClusterSharedVolume)
    | DoStop(namespace: string, name: string)
    | DoFire(t: TimerId, shared: Answer<()>, cluster: Answer<()>)

  function PlanShared(m: Schedule, sv: SharedVolume, parse: DurationParser): Schedule {
    var key := KeyOf(sv.namespace, sv.name);
    if sv.phase == "Ready" && HasValidSource(sv.spec) && parse(sv.spec.syncInterval).Some?
    then m[key := ClosureOf(sv, parse(sv.spec.syncInterval).value)]
    else m - {key}
  }

  /** An unreadable interval of a cluster-scoped volume leaves the old schedule in force. */
  function PlanCluster(m: Schedule, csv: ClusterSharedVolume, parse: DurationParser): Schedule {
    var key := KeyOf(csv.spec.resourceNamespace, csv.name);
    if !HasValidSource(csv.spec) then m - {key}
    else match parse(csv.spec.syncInterval)
      case None => m
      case Some(interval) => m[key := ClusterClosure(csv, interval)]
  }

  ghost function AtomicNext(s: Sched, step: AtomicStep, parse: DurationParser): Sched {
    match step
    case DoStartShared(sv) => StartShared(s, sv, parse).0
    case DoStartCluster(csv) => StartCluster(s, csv, parse).0
    case DoStop(namespace, name) => StopTimer(s, KeyOf(namespace, name))
    case DoFire(t, shared, cluster) =>
      if t !in s.armed then s
      else
        var begun := Check(Fire(s, t), t, VolumeExists(shared, cluster));
        if t in begun.running then FireEnd(begun, t) else begun
  }

  ghost function PlanNext(s: Sched, m: Schedule, step: AtomicStep, parse: DurationParser): Schedule {
    match step
    case DoStartShared(sv) => PlanShared(m, sv, parse)
    case DoStartCluster(csv) => PlanCluster(m, csv, parse)
    case DoStop(namespace, name) => m - {KeyOf(namespace, name)}
    case DoFire(t, shared, cluster) =>
      if t !in s.armed || VolumeExists(shared, cluster) then m else m - {ClosureKey(s.armed[t])}
  }

  ghost function AtomicRun(steps: seq<AtomicStep>, parse: DurationParser): (Sched, Schedule) {
    if steps == [] then (IDLE, map[])
    else
      var (s, m) := AtomicRun(steps[..|steps| - 1], parse);
      var step := steps[|steps| - 1];
      (AtomicNext(s, step, parse), PlanNext(s, m, step, parse))
  }

  ghost predicate OnKey(s: Sched, m: Schedule, k: string)
    requires k in s.timers && k in m
  {
    s.timers[k] in s.armed && s.armed[s.timers[k]] == m[k] && ClosureKey(m[k]) == k
  }

  ghost predicate OnTimer(s: Sched, t: TimerId)
    requires t in s.armed
  {
    var k := ClosureKey(s.armed[t]);
    t < s.next && k in s.timers && s.timers[k] == t
  }

  /** One armed timer per key, nothing else armed, and both maps agree with the schedule. */
  ghost predicate Refines(s: Sched, m: Schedule) {
    && s.fired == map[] && s.running == map[]
    && s.timers.Keys == m.Keys
    && s.initial.Keys == m.Keys && (forall k :: k in s.initial ==> s.initial[k])
    && (forall k :: k in m ==> OnKey(s, m, k))
    && (forall t :: t in s.armed ==> OnTimer(s, t))
  }

  lemma StopRefines(s: Sched, m: Schedule, key: string)
    requires Refines(s, m)
    ensures Refines(StopTimer(s, key), m - {key})
  {
    var s', m' := StopTimer(s, key), m - {key};
    forall k | k in m'
      ensures OnKey(s', m', k)
    {
      assert OnKey(s, m, k);
      assert key in m ==> OnKey(s, m, key);
    }
    forall t | t in s'.armed
      ensures OnTimer(s', t)
    {
      assert OnTimer(s, t);
    }
  }

  lemma ArmRefines(s: Sched, m: Schedule, c: Closure)
    requires Refines(s, m) && ClosureKey(c) !in m
    ensures Refines(Arm(s.(initial := s.initial[ClosureKey(c) := true]), c), m[ClosureKey(c) := c])
  {
    var key := ClosureKey(c);
    var s', m' := Arm(s.(initial := s.initial[key := true]), c), m[key := c];
    forall k | k in m'
      ensures OnKey(s', m', k)
    {
      assert k != key ==> OnKey(s, m, k) && OnTimer(s, s.timers[k]);
    }
    forall t | t in s'.armed
      ensures OnTimer(s', t)
    {
      assert t != s.next ==> OnTimer(s, t);
    }
  }

  lemma Rescheduled(m: Schedule, key: string, c: Closure)
    ensures (m - {key})[key := c] == m[key := c] && key !in m - {key}
  {
  }

  lemma StopThenArmRefines(s: Sched, m: Schedule, key: string, c: Closure)
    requires Refines(s, m) && key == ClosureKey(c)
    ensures var stopped := StopTimer(s, key);
      Refines(Arm(stopped.(initial := stopped.initial[key := true]), c), (m - {key})[key := c])
  {
    StopRefines(s, m, key);
    ArmRefines(StopTimer(s, key), m - {key}, c);
  }

  lemma RestartRefines(s: Sched, m: Schedule, c: Closure)
    requires Refines(s, m)
    ensures Refines(StartCommon(StopTimer(s, ClosureKey(c)), c), m[ClosureKey(c) := c])
  {
    var key := ClosureKey(c);
    Rescheduled(m, key, c);
    StartAfterStop(s, c);
    StopThenArmRefines(s, m, key, c);
  }

  lemma FireRefines(s: Sched, m: Schedule, t: TimerId, found: bool)
    requires Refines(s, m) && t in s.armed
    ensures var begun := Check(Fire(s, t), t, found);
      if found then t in begun.running && Refines(FireEnd(begun, t), m)
      else t !in begun.running && Refines(begun, m - {ClosureKey(s.armed[t])})
  {
    assert OnTimer(s, t);
    var begun := Check(Fire(s, t), t, found);
    assert map[t := s.armed[t]] - {t} == map[];
    if found {
      var s' := FireEnd(begun, t);
      assert OnKey(s, m, ClosureKey(s.armed[t]));
      forall k | k in m
        ensures OnKey(s', m, k)
      {
        assert OnKey(s, m, k);
      }
      forall u | u in s'.armed
        ensures OnTimer(s', u)
      {
        assert u != s.next ==> OnTimer(s, u);
      }
    } else {
      StopRefines(s, m, ClosureKey(s.armed[t]));
      assert begun == StopTimer(s, ClosureKey(s.armed[t]));
    }
  }

  lemma StartSharedRefines(s: Sched, m: Schedule, sv: SharedVolume, parse: DurationParser)
    requires Refines(s, m)
    ensures Refines(StartShared(s, sv, parse).0, PlanShared(m, sv, parse))
  {
    StopRefines(s, m, KeyOf(sv.namespace, sv.name));
    match parse(sv.spec.syncInterval) {
      case None =>
      case Some(interval) => RestartRefines(s, m, ClosureOf(sv, interval));
    }
  }

  lemma StartClusterRefines(s: Sched, m: Schedule, csv: ClusterSharedVolume, parse: DurationParser)
    requires Refines(s, m)
    ensures Refines(StartCluster(s, csv, parse).0, PlanCluster(m, csv, parse))
  {
    StopRefines(s, m, KeyOf(csv.spec.resourceNamespace, csv.name));
    match parse(csv.spec.syncInterval) {
      case None =>
      case Some(interval) =>
        RestartRefines(s, m, ClusterClosure(csv, interval));
    }
  }

  /**
   With atomic callbacks every run refines the simple map: the armed timers are exactly the values
   of the timer map, and each carries what the latest successful Start gave its key.
   */
  lemma {:induction false} TimersRefineSchedule(steps: seq<AtomicStep>, parse: DurationParser)
    ensures var (s, m) := AtomicRun(steps, parse); Refines(s, m)
  {
    if steps != [] {
      TimersRefineSchedule(steps[..|steps| - 1], parse);
      var (s, m) := AtomicRun(steps[..|steps| - 1], parse);
      match steps[|steps| - 1]
      case DoStartShared(sv) => StartSharedRefines(s, m, sv, parse);
      case DoStartCluster(csv) => StartClusterRefines(s, m, csv, parse);
      case DoStop(namespace, name) => StopRefines(s, m, KeyOf(namespace, name));
      case DoFire(t, shared, cluster) =>
        if t in s.armed {
          FireRefines(s, m, t, VolumeExists(shared, cluster));
        }
    }
  }

  /** The armed timers are exactly the recorded ones, and no two keys share one. */
  lemma ArmedAreRecorded(s: Sched, m: Schedule)
    requires Refines(s, m)
    ensures s.armed.Keys == s.timers.Values && s.timers.Keys == s.initial.Keys
    ensures forall k, l :: k in s.timers && l in s.timers && s.timers[k] == s.timers[l] ==> k == l
  {
    forall t | t in s.timers.Values
      ensures t in s.armed
    {
      var k :| k in s.timers && s.timers[k] == t;
      assert OnKey(s, m, k);
    }
    forall k, l | k in s.timers && l in s.timers && s.timers[k] == s.timers[l]
      ensures k == l
    {
      assert OnKey(s, m, k) && OnKey(s, m, l);
    }
    forall t | t in s.armed
      ensures t in s.timers.Values
    {
      assert OnTimer(s, t);
    }
  }

  // ---------- recovery after a restart ----------

  predicate RecoversCluster(csv: ClusterSharedVolume, parse: DurationParser) {
    csv.phase == "Ready" && HasValidSource(csv.spec) && parse(csv.spec.syncInterval).Some?
  }

  ghost predicate DistinctKeys(list: seq<SharedVolume>) {
    forall i, j :: 0 <= i < j < |list| ==>
      KeyOf(list[i].namespace, list[i].name) != KeyOf(list[j].namespace, list[j].name)
  }

  ghost function SharedKeys(list: seq<SharedVolume>, parse: DurationParser): set<string> {
    set sv | sv in list && RecoversShared(sv, parse) :: KeyOf(sv.namespace, sv.name)
  }

  ghost function ClusterKeys(list: seq<ClusterSharedVolume>, parse: DurationParser): set<string> {
    set csv | csv in list && RecoversCluster(csv, parse) :: KeyOf(csv.spec.resourceNamespace, csv.name)
  }

  lemma KeysOfLonger(shared: seq<SharedVolume>, sv: SharedVolume, cluster: seq<ClusterSharedVolume>,
                     csv: ClusterSharedVolume, parse: DurationParser)
    ensures SharedKeys(shared + [sv], parse) ==
      SharedKeys(shared, parse) + (if RecoversShared(sv, parse) then {KeyOf(sv.namespace, sv.name)} else {})
    ensures ClusterKeys(cluster + [csv], parse) ==
      ClusterKeys(cluster, parse) +
      (if RecoversCluster(csv, parse) then {KeyOf(csv.spec.resourceNamespace, csv.name)} else {})
  {
    assert forall v :: v in shared + [sv] <==> v in shared || v == sv;
    assert forall v :: v in cluster + [csv] <==> v in cluster || v == csv;
  }

  ghost predicate HasShared(m: Schedule, sv: SharedVolume, parse: DurationParser) {
    var key := KeyOf(sv.namespace, sv.name);
    key in m && parse(sv.spec.syncInterval).Some? && m[key] == ClosureOf(sv, parse(sv.spec.syncInterval).value)
  }

  /** Every volume of the list that is recovered has its own spec and interval in the schedule. */
  ghost predicate CarriesShared(m: Schedule, list: seq<SharedVolume>, parse: DurationParser) {
    forall sv :: sv in list && RecoversShared(sv, parse) ==> HasShared(m, sv, parse)
  }

  ghost predicate HasCluster(m: Schedule, csv: ClusterSharedVolume, parse: DurationParser) {
    var key := KeyOf(csv.spec.resourceNamespace, csv.name);
    key in m && parse(csv.spec.syncInterval).Some? && m[key] == ClusterClosure(csv, parse(csv.spec.syncInterval).value)
  }

  ghost predicate CarriesCluster(m: Schedule, list: seq<ClusterSharedVolume>, parse: DurationParser) {
    forall csv :: csv in list && RecoversCluster(csv, parse) ==> HasCluster(m, csv, parse)
  }

  lemma NextKeyIsNew(front: seq<SharedVolume>, sv: SharedVolume, parse: DurationParser)
    requires DistinctKeys(front + [sv])
    ensures DistinctKeys(front) && KeyOf(sv.namespace, sv.name) !in SharedKeys(front, parse)
    ensures forall v :: v in front ==> KeyOf(v.namespace, v.name) != KeyOf(sv.namespace, sv.name)
  {
    var list := front + [sv];
    forall i, j | 0 <= i < j < |list|
      ensures KeyOf(list[i].namespace, list[i].name) != KeyOf(list[j].namespace, list[j].name)
    {
    }
    assert list[|front|] == sv;
    assert forall i :: 0 <= i < |front| ==> list[i] == front[i];
  }

  lemma RecoverOneShared(front: seq<SharedVolume>, sv: SharedVolume, before: Schedule, parse: DurationParser)
    returns (m: Schedule)
    requires KeyOf(sv.namespace, sv.name) !in before
    requires Refines(RecoverShared(IDLE, front, parse), before)
    ensures Refines(RecoverShared(IDLE, front + [sv], parse), m)
    ensures RecoversShared(sv, parse) ==>
      m == before[KeyOf(sv.namespace, sv.name) := ClosureOf(sv, parse(sv.spec.syncInterval).value)]
    ensures !RecoversShared(sv, parse) ==> m == before
  {
    assert (front + [sv])[..|front|] == front;
    if sv.phase != "Ready" || !HasValidSource(sv.spec) {
      m := before;
    } else {
      StartSharedRefines(RecoverShared(IDLE, front, parse), before, sv, parse);
      m := PlanShared(before, sv, parse);
      assert before - {KeyOf(sv.namespace, sv.name)} == before;
    }
  }

  lemma CarriesOneMore(m: Schedule, front: seq<SharedVolume>, sv: SharedVolume, parse: DurationParser)
    requires CarriesShared(m, front, parse) && RecoversShared(sv, parse)
    requires forall v :: v in front ==> KeyOf(v.namespace, v.name) != KeyOf(sv.namespace, sv.name)
    ensures var key := KeyOf(sv.namespace, sv.name);
      CarriesShared(m[key := ClosureOf(sv, parse(sv.spec.syncInterval).value)], front + [sv], parse)
  {
    var longer := m[KeyOf(sv.namespace, sv.name) := ClosureOf(sv, parse(sv.spec.syncInterval).value)];
    forall v | v in front + [sv] && RecoversShared(v, parse)
      ensures HasShared(longer, v, parse)
    {
      assert v in front ==> HasShared(m, v, parse);
    }
  }

  lemma RecoversOneMore(m: Schedule, front: seq<SharedVolume>, sv: SharedVolume, parse: DurationParser, m': Schedule)
    requires m.Keys == SharedKeys(front, parse) && CarriesShared(m, front, parse)
    requires forall v :: v in front ==> KeyOf(v.namespace, v.name) != KeyOf(sv.namespace, sv.name)
    requires RecoversShared(sv, parse) ==>
      m' == m[KeyOf(sv.namespace, sv.name) := ClosureOf(sv, parse(sv.spec.syncInterval).value)]
    requires !RecoversShared(sv, parse) ==> m' == m
    ensures m'.Keys == SharedKeys(front + [sv], parse) && CarriesShared(m', front + [sv], parse)
  {
    KeysOfLonger(front, sv, [], ClusterSharedVolume("", "", sv.spec), parse);
    if RecoversShared(sv, parse) {
      CarriesOneMore(m, front, sv, parse);
    }
  }

  lemma {:induction false} RecoverSharedKeys(list: seq<SharedVolume>, parse: DurationParser) returns (m: Schedule)
    requires DistinctKeys(list)
    ensures Refines(RecoverShared(IDLE, list, parse), m)
    ensures m.Keys == SharedKeys(list, parse) && CarriesShared(m, list, parse)
  {
    if list == [] {
      m := map[];
    } else {
      var sv, front := list[|list| - 1], list[..|list| - 1];
      assert list == front + [sv];
      NextKeyIsNew(front, sv, parse);
      var before := RecoverSharedKeys(front, parse);
      m := RecoverOneShared(front, sv, before, parse);
      RecoversOneMore(before, front, sv, parse, m);
    }
  }

  function PlanRecovered(m: Schedule, csv: ClusterSharedVolume, parse: DurationParser): Schedule {
    if csv.phase != "Ready" || !HasValidSource(csv.spec) then m else PlanCluster(m, csv, parse)
  }

  lemma RecoverOneCluster(s: Sched, m: Schedule, front: seq<ClusterSharedVolume>, csv: ClusterSharedVolume,
                          parse: DurationParser)
    requires Refines(RecoverCluster(s, front, parse), m)
    ensures Refines(RecoverCluster(s, front + [csv], parse), PlanRecovered(m, csv, parse))
  {
    assert (front + [csv])[..|front|] == front;
    StartClusterRefines(RecoverCluster(s, front, parse), m, csv, parse);
  }

  lemma PlanRecoveredKeys(m: Schedule, before: Schedule, front: seq<ClusterSharedVolume>,
                          csv: ClusterSharedVolume, parse: DurationParser)
    requires before.Keys == m.Keys + ClusterKeys(front, parse)
    ensures PlanRecovered(before, csv, parse).Keys == m.Keys + ClusterKeys(front + [csv], parse)
  {
    KeysOfLonger([], SharedVolume("", "", "", csv.spec), front, csv, parse);
  }

  ghost predicate DistinctClusterKeys(list: seq<ClusterSharedVolume>) {
    forall i, j :: 0 <= i < j < |list| ==>
      KeyOf(list[i].spec.resourceNamespace, list[i].name) != KeyOf(list[j].spec.resourceNamespace, list[j].name)
  }

  /** Recovery of the cluster-scoped volumes changes the schedule on their keys only. */
  ghost predicate OnlyOn(m: Schedule, m': Schedule, keys: set<string>) {
    forall k :: k in m && k !in keys ==> k in m' && m'[k] == m[k]
  }

  lemma PlanRecoveredCarries(before: Schedule, front: seq<ClusterSharedVolume>, csv: ClusterSharedVolume,
                             parse: DurationParser)
    requires DistinctClusterKeys(front + [csv])
    ensures DistinctClusterKeys(front)
    ensures CarriesCluster(before, front, parse) ==>
      CarriesCluster(PlanRecovered(before, csv, parse), front + [csv], parse)
  {
    var list := front + [csv];
    assert list[|front|] == csv && forall i :: 0 <= i < |front| ==> list[i] == front[i];
    forall i, j | 0 <= i < j < |front|
      ensures KeyOf(front[i].spec.resourceNamespace, front[i].name) != KeyOf(front[j].spec.resourceNamespace,
                                                                             front[j].name)
    {
      assert list[i] == front[i] && list[j] == front[j];
    }
    if CarriesCluster(before, front, parse) {
      forall v | v in list && RecoversCluster(v, parse)
        ensures HasCluster(PlanRecovered(before, csv, parse), v, parse)
      {
        if v in front {
          var i :| 0 <= i < |front| && front[i] == v;
          assert HasCluster(before, v, parse) && list[i] == v;
        }
      }
    }
  }

  lemma PlanRecoveredOnly(m: Schedule, before: Schedule, front: seq<ClusterSharedVolume>, csv: ClusterSharedVolume,
                          parse: DurationParser)
    requires OnlyOn(m, before, ClusterKeys(front, parse))
    ensures OnlyOn(m, PlanRecovered(before, csv, parse), ClusterKeys(front + [csv], parse))
  {
    KeysOfLonger([], SharedVolume("", "", "", csv.spec), front, csv, parse);
  }

  lemma {:induction false} RecoverClusterKeys(s: Sched, m: Schedule, list: seq<ClusterSharedVolume>,
                                              parse: DurationParser)
    returns (m': Schedule)
    requires Refines(s, m)
    ensures Refines(RecoverCluster(s, list, parse), m')
    ensures m'.Keys == m.Keys + ClusterKeys(list, parse) && OnlyOn(m, m', ClusterKeys(list, parse))
    ensures DistinctClusterKeys(list) ==> CarriesCluster(m', list, parse)
  {
    if list == [] {
      m' := m;
    } else {
      var csv, front := list[|list| - 1], list[..|list| - 1];
      assert list == front + [csv];
      var before := RecoverClusterKeys(s, m, front, parse);
      RecoverOneCluster(s, before, front, csv, parse);
      m' := PlanRecovered(before, csv, parse);
      PlanRecoveredKeys(m, before, front, csv, parse);
      PlanRecoveredOnly(m, before, front, csv, parse);
      if DistinctClusterKeys(list) {
        PlanRecoveredCarries(before, front, csv, parse);
      }
    }
  }

  /** The timer recorded for a key is armed with exactly this closure. */
  ghost predicate ArmedWith(s: Sched, key: string, c: Closure) {
    key in s.timers && s.timers[key] in s.armed && s.armed[s.timers[key]] == c
  }

  /**
   Recovery from an empty controller schedules exactly the volumes that are Ready, have a source
   and a readable interval, one timer each; a volume whose key no other has gets its own spec and
   interval.
   */
  lemma RecoveryIsExact(shared: seq<SharedVolume>, cluster: seq<ClusterSharedVolume>, parse: DurationParser)
    requires DistinctKeys(shared)
    ensures var s := RecoverCluster(RecoverShared(IDLE, shared, parse), cluster, parse);
      && s.timers.Keys == SharedKeys(shared, parse) + ClusterKeys(cluster, parse)
      && s.armed.Keys == s.timers.Values && s.initial.Keys == s.timers.Keys && s.running == map[]
    ensures
      var s := RecoverCluster(RecoverShared(IDLE, shared, parse), cluster, parse);
      forall sv :: sv in shared && RecoversShared(sv, parse) ==>
        KeyOf(sv.namespace, sv.name) in ClusterKeys(cluster, parse) ||
        ArmedWith(s, KeyOf(sv.namespace, sv.name), ClosureOf(sv, parse(sv.spec.syncInterval).value))
    ensures DistinctClusterKeys(cluster) ==>
      var s := RecoverCluster(RecoverShared(IDLE, shared, parse), cluster, parse);
      forall csv :: csv in cluster && RecoversCluster(csv, parse) ==>
        ArmedWith(s, KeyOf(csv.spec.resourceNamespace, csv.name),
                  ClusterClosure(csv, parse(csv.spec.syncInterval).value))
  {
    var m := RecoverSharedKeys(shared, parse);
    var m' := RecoverClusterKeys(RecoverShared(IDLE, shared, parse), m, cluster, parse);
    var s := RecoverCluster(RecoverShared(IDLE, shared, parse), cluster, parse);
    ArmedAreRecorded(s, m');
    forall sv | sv in shared && RecoversShared(sv, parse) &&
      KeyOf(sv.namespace, sv.name) !in ClusterKeys(cluster, parse)
      ensures ArmedWith(s, KeyOf(sv.namespace, sv.name), ClosureOf(sv, parse(sv.spec.syncInterval).value))
    {
      assert HasShared(m, sv, parse);
      assert OnKey(s, m', KeyOf(sv.namespace, sv.name));
    }
    if DistinctClusterKeys(cluster) {
      forall csv | csv in cluster && RecoversCluster(csv, parse)
        ensures ArmedWith(s, KeyOf(csv.spec.resourceNamespace, csv.name),
                          ClusterClosure(csv, parse(csv.spec.syncInterval).value))
      {
        assert HasCluster(m', csv, parse);
        assert OnKey(s, m', KeyOf(csv.spec.resourceNamespace, csv.name));
      }
    }
  }

  // ---------- what recovery leaves alone ----------

  /** Both entries of the key are as before, and so is the timer that is recorded for it. */
  ghost predicate SameFor(s: Sched, s': Sched, key: string) {
    && (key in s.timers <==> key in s'.timers) && (key in s.initial <==> key in s'.initial)
    && (key in s.timers ==>
          var t := s.timers[key];
          s'.timers[key] == t && (t in s.armed <==> t in s'.armed) && (t in s.armed ==> s'.armed[t] == s.armed[t]))
    && (key in s.initial ==> s'.initial[key] == s.initial[key])
  }

  lemma RestartLeaves(s: Sched, c: Closure, key: string)
    requires Coherent(s) && ClosureKey(c) != key
    ensures SameFor(s, StopTimer(s, ClosureKey(c)), key)
    ensures SameFor(s, StartCommon(StopTimer(s, ClosureKey(c)), c), key)
  {
    StartAfterStop(s, c);
    if ClosureKey(c) in s.timers {
      assert Held(s, ClosureKey(c));
    }
    if key in s.timers {
      assert Held(s, key);
    }
  }

  lemma {:induction false} RecoverSharedLeaves(s: Sched, list: seq<SharedVolume>, key: string, parse: DurationParser)
    requires Coherent(s)
    requires forall sv :: sv in list && KeyOf(sv.namespace, sv.name) == key ==>
      sv.phase != "Ready" || !HasValidSource(sv.spec)
    ensures Coherent(RecoverShared(s, list, parse)) && SameFor(s, RecoverShared(s, list, parse), key)
  {
    if list != [] {
      var sv, front := list[|list| - 1], list[..|list| - 1];
      RecoverSharedLeaves(s, front, key, parse);
      assert sv in list;
      var before := RecoverShared(s, front, parse);
      StartSharedMoves(before, sv, key, parse);
      if KeyOf(sv.namespace, sv.name) != key {
        RestartLeaves(before, ClosureOf(sv, if parse(sv.spec.syncInterval).None? then 0
                                            else parse(sv.spec.syncInterval).value), key);
      }
    }
  }

  lemma {:induction false} RecoverClusterLeaves(s: Sched, list: seq<ClusterSharedVolume>, key: string,
                                                parse: DurationParser)
    requires Coherent(s)
    requires forall csv :: csv in list && KeyOf(csv.spec.resourceNamespace, csv.name) == key ==>
      csv.phase != "Ready" || !HasValidSource(csv.spec)
    ensures Coherent(RecoverCluster(s, list, parse)) && SameFor(s, RecoverCluster(s, list, parse), key)
  {
    if list != [] {
      var csv, front := list[|list| - 1], list[..|list| - 1];
      RecoverClusterLeaves(s, front, key, parse);
      assert csv in list;
      var before := RecoverCluster(s, front, parse);
      StartClusterMoves(before, csv, key, parse);
      if KeyOf(csv.spec.resourceNamespace, csv.name) != key {
        RestartLeaves(before, ClusterClosure(csv, if parse(csv.spec.syncInterval).None? then 0
                                                  else parse(csv.spec.syncInterval).value), key);
      }
    }
  }

  /** Recovery does not touch a key unless a volume of that key is Ready and has a source. */
  lemma RecoveryLeavesOthers(s: Sched, shared: seq<SharedVolume>, cluster: seq<ClusterSharedVolume>, key: string,
                             parse: DurationParser)
    requires Coherent(s)
    requires forall sv :: sv in shared && KeyOf(sv.namespace, sv.name) == key ==>
      sv.phase != "Ready" || !HasValidSource(sv.spec)
    requires forall csv :: csv in cluster && KeyOf(csv.spec.resourceNamespace, csv.name) == key ==>
      csv.phase != "Ready" || !HasValidSource(csv.spec)
    ensures SameFor(s, RecoverCluster(RecoverShared(s, shared, parse), cluster, parse), key)
  {
    RecoverSharedLeaves(s, shared, key, parse);
    RecoverClusterLeaves(RecoverShared(s, shared, parse), cluster, key, parse);
  }
}
