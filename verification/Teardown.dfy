/**
 The cleanup of a deleted volume, as a trace of what it asks for and when. Other clients, the
 storage driver and the clock move on between any two requests, and any request may fail.
 */
module Teardown {
  import opened Common
  import opened VolumeTypes
  import opened VolumeDefaults
  import opened CleanupNames
  import opened PodSweeps
  import FinalizerRemoval
  import SyncTimers

  // In nanoseconds.
  const MAX_WAIT := 120_000_000_000
  const CHECK_INTERVAL := 5_000_000_000

  /** One look at the volumes: the names stored at the moments of its two reads, and their answers. */
  datatype Poll = Poll(atGet: set<string>, main: Answer<()>, atList: set<string>, list: Answer<seq<string>>)

  function SweepRank(sweep: Sweep): nat {
    match sweep
    case Users => 1
    case Replicas => 2
    case Remaining => 4
  }

  datatype Event =
    | TimerStopped(key: string)
    | PodsListed(sweep: Sweep, pods: Option<seq<StoredPod>>)
    | PodDeleted(sweep: Sweep, pod: Key)
    | ReplicaSetRead(found: bool)
    | ReplicaSetDeleted(at: Key)
    | ClaimDeleted(claim: Claim)
    | VolumeDeleted(volume: PersistentVolume)
    | Polled(poll: Poll)
    | TimedOut(started: int, ended: int)
    | ServiceRead(found: bool)
    | ServiceDeleted(at: Key)
    | ServerRead(found: bool)
    | ServerDeleted(at: Key)
    | FinalizerRemoved

  function Rank(e: Event): nat {
    match e
    case TimerStopped(_) => 0
    case PodsListed(sweep, _) => SweepRank(sweep)
    case PodDeleted(sweep, _) => SweepRank(sweep)
    case ReplicaSetRead(_) => 2
    case ReplicaSetDeleted(_) => 3
    case ClaimDeleted(_) => 5
    case VolumeDeleted(_) => 6
    case Polled(_) => 7
    case TimedOut(_, _) => 8
    case ServiceRead(_) | ServiceDeleted(_) => 9
    case ServerRead(_) | ServerDeleted(_) => 10
    case FinalizerRemoved => 11
  }

  predicate IsDeletion(e: Event) {
    || e.PodDeleted? || e.ReplicaSetDeleted? || e.ClaimDeleted? || e.VolumeDeleted?
    || e.ServiceDeleted? || e.ServerDeleted?
  }

  /** A poll sees nothing when neither read returns a match: a failed read sees nothing either. */
  ghost predicate SawNone(reference: string, p: Poll) {
    !p.main.Found? && !(p.list.Found? && exists n :: n in p.list.value && HasPrefix(n, reference + "-"))
  }

  predicate Watched(reference: string, name: string) {
    name == "pv-" + reference || HasPrefix(name, reference + "-")
  }

  /** The answers of a poll are true of their moments; a read may still fail, unless none does. */
  ghost predicate Truthful(reference: string, p: Poll, quiet: bool) {
    && (p.main.Found? ==> "pv-" + reference in p.atGet) && (p.main.NotFound? ==> "pv-" + reference !in p.atGet)
    && !p.list.NotFound? && (p.list.Found? ==> forall n :: n in p.list.value <==> n in p.atList)
    && (quiet ==> !p.main.Failed? && !p.list.Failed?)
  }

  /** The wait may end here: nothing was seen, or two minutes have passed. */
  ghost predicate WaitOver(reference: string, e: Event) {
    (e.Polled? && SawNone(reference, e.poll)) || (e.TimedOut? && e.ended - e.started >= MAX_WAIT)
  }

  ghost predicate Sorted(trace: seq<Event>) {
    var n := |trace| - 1;
    n <= 0 || (Sorted(trace[..n]) && Rank(trace[n - 1]) <= Rank(trace[n]))
  }

  /** The last event of a sorted trace has at most this rank, and so have all. */
  ghost predicate UpTo(trace: seq<Event>, rank: nat) {
    trace == [] || Rank(trace[|trace| - 1]) <= rank
  }

  lemma {:induction false} SortedPair(trace: seq<Event>, i: nat, j: nat)
    requires Sorted(trace) && i <= j < |trace|
    ensures Rank(trace[i]) <= Rank(trace[j])
    decreases |trace|
  {
    var n := |trace| - 1;
    if j < n {
      SortedPair(trace[..n], i, j);
    } else if i < n {
      SortedPair(trace[..n], i, n - 1);
    }
  }

  lemma NothingAbove(trace: seq<Event>, rank: nat)
    requires Sorted(trace) && UpTo(trace, rank)
    ensures forall i :: 0 <= i < |trace| ==> Rank(trace[i]) <= rank
  {
    forall i | 0 <= i < |trace|
      ensures Rank(trace[i]) <= rank
    {
      SortedPair(trace, i, |trace| - 1);
    }
  }

  /** Only events of these ranks were added. */
  ghost predicate Extends(before: seq<Event>, after: seq<Event>, low: nat, high: nat) {
    && before <= after && forall i :: |before| <= i < |after| ==> low <= Rank(after[i]) <= high
  }

  ghost predicate PodsDeleted(trace: seq<Event>, sweep: Sweep, chosen: seq<Key>) {
    && (forall i :: 0 <= i < |trace| && trace[i].PodDeleted? && trace[i].sweep == sweep ==> trace[i].pod in chosen)
    && (forall k :: k in chosen ==> PodDeleted(sweep, k) in trace)
  }

  /** The sweep has listed pods and deleted exactly those that it takes; a failed list has none. */
  ghost predicate SweepDone(v: Volume, trace: seq<Event>, sweep: Sweep, quiet: bool) {
    exists pods: Option<seq<StoredPod>> :: PodsListed(sweep, pods) in trace && (quiet ==> pods.Some?) &&
      PodsDeleted(trace, sweep, Chosen(v, sweep, if pods.Some? then pods.value else []))
  }

  /** The ReplicaSet was looked for, and deleted after its pods if found; no other one was. */
  ghost predicate ReplicaSetDone(v: Volume, trace: seq<Event>, quiet: bool) {
    && (forall i :: 0 <= i < |trace| && trace[i].ReplicaSetDeleted? ==>
          trace[i].at == (v.OperationalNamespace(), v.reference))
    && exists found :: ReplicaSetRead(found) in trace &&
         (found ==>
            SweepDone(v, trace, Replicas, quiet) && ReplicaSetDeleted((v.OperationalNamespace(), v.reference)) in trace)
  }

  ghost predicate ServiceGone(trace: seq<Event>, at: Key) {
    && (forall i :: 0 <= i < |trace| && trace[i].ServiceDeleted? ==> trace[i].at == at)
    && exists found :: ServiceRead(found) in trace && (found ==> ServiceDeleted(at) in trace)
  }

  ghost predicate ServerGone(trace: seq<Event>, at: Key) {
    && (forall i :: 0 <= i < |trace| && trace[i].ServerDeleted? ==> trace[i].at == at)
    && exists found :: ServerRead(found) in trace && (found ==> ServerDeleted(at) in trace)
  }

  /** Only a managed server that has a name goes. */
  ghost predicate ServerDone(v: Volume, server: Option<NfsServerSpec>, trace: seq<Event>) {
    if server.Some? && !IsExternal(server) && server.value.name != "" then
      ServerGone(trace, (v.OperationalNamespace(), server.value.name))
    else forall i :: 0 <= i < |trace| ==> !trace[i].ServerDeleted?
  }

  /** Everything but the claims and volumes. */
  ghost predicate RestDone(v: Volume, server: Option<NfsServerSpec>, trace: seq<Event>, quiet: bool) {
    && SweepDone(v, trace, Users, quiet) && ReplicaSetDone(v, trace, quiet) && SweepDone(v, trace, Remaining, quiet)
    && ServiceGone(trace, (v.OperationalNamespace(), v.reference)) && ServerDone(v, server, trace)
  }

  ghost predicate ClaimsDeleted(trace: seq<Event>, chosen: seq<Claim>) {
    && (forall i :: 0 <= i < |trace| && trace[i].ClaimDeleted? ==> trace[i].claim in chosen)
    && (forall c :: c in chosen ==> ClaimDeleted(c) in trace)
  }

  ghost predicate VolumesDeleted(trace: seq<Event>, chosen: seq<PersistentVolume>) {
    && (forall i :: 0 <= i < |trace| && trace[i].VolumeDeleted? ==> trace[i].volume in chosen)
    && (forall p :: p in chosen ==> VolumeDeleted(p) in trace)
  }

  /** What the two reads of a cleanup saw, each at its moment. */
  datatype Seen<T> = Seen(main: Answer<T>, list: Option<seq<T>>)

  ghost predicate Complete<T>(seen: Seen<T>) {
    !seen.main.Failed? && seen.list.Some?
  }

  /** Exactly the main claim, if it was found, and the listed claims whose names continue the reference. */
  ghost predicate ChosenClaims(v: Volume, seen: Seen<Claim>, chosen: seq<Claim>) {
    && (seen.main.Found? ==> seen.main.value == MainClaim(v))
    && forall c :: c in chosen <==>
         seen.main == Found(c) || (seen.list.Some? && c in seen.list.value && HasPrefix(c.name, v.reference + "-"))
  }

  /** Exactly the main volume, if it was found, and the other listed ones that a test picks out. */
  ghost predicate ChosenVolumes(v: Volume, seen: Seen<PersistentVolume>, chosen: seq<PersistentVolume>) {
    && (seen.main.Found? ==> seen.main.value.name == "pv-" + v.reference)
    && forall p :: p in chosen <==>
         seen.main == Found(p) ||
         (seen.list.Some? && p in seen.list.value && p.name != "pv-" + v.reference && ShouldDelete(v, p))
  }

  ghost predicate WaitedFor(reference: string, trace: seq<Event>) {
    exists i :: 0 <= i < |trace| && WaitOver(reference, trace[i])
  }

  ghost predicate AllTruthful(reference: string, trace: seq<Event>, quiet: bool) {
    forall i :: 0 <= i < |trace| && trace[i].Polled? ==> Truthful(reference, trace[i].poll, quiet)
  }

  ghost function Polls(trace: seq<Event>): nat {
    if trace == [] then 0 else Polls(trace[..|trace| - 1]) + if trace[|trace| - 1].Polled? then 1 else 0
  }

  lemma PollsOfLonger(trace: seq<Event>, e: Event)
    ensures Polls(trace + [e]) == Polls(trace) + if e.Polled? then 1 else 0
  {
    assert (trace + [e])[..|trace|] == trace;
  }

  lemma {:induction false} PollsOnlyInTheWait(a: seq<Event>, b: seq<Event>, low: nat, high: nat)
    requires Extends(a, b, low, high) && (high < 7 || low > 7)
    ensures Polls(b) == Polls(a)
  {
    if |a| == |b| {
      assert a == b;
    } else {
      PollsOnlyInTheWait(a, b[..|b| - 1], low, high);
    }
  }

  // ---------- how a trace grows ----------

  lemma InLonger(a: seq<Event>, b: seq<Event>, e: Event)
    requires a <= b && e in a
    ensures e in b
  {
    var i :| 0 <= i < |a| && a[i] == e;
    assert b[i] == e;
  }

  lemma PodsLogged(trace: seq<Event>, sweep: Sweep, chosen: seq<Key>, pod: Key)
    requires PodsDeleted(trace, sweep, chosen)
    ensures PodsDeleted(trace + [PodDeleted(sweep, pod)], sweep, chosen + [pod])
  {
    var longer := trace + [PodDeleted(sweep, pod)];
    assert longer[|trace|] == PodDeleted(sweep, pod);
    forall k | k in chosen
      ensures PodDeleted(sweep, k) in longer
    {
      InLonger(trace, longer, PodDeleted(sweep, k));
    }
  }

  lemma PodsStayDeleted(a: seq<Event>, b: seq<Event>, sweep: Sweep, chosen: seq<Key>)
    requires Extends(a, b, SweepRank(sweep) + 1, 11) && PodsDeleted(a, sweep, chosen)
    ensures PodsDeleted(b, sweep, chosen)
  {
    forall k | k in chosen
      ensures PodDeleted(sweep, k) in b
    {
      InLonger(a, b, PodDeleted(sweep, k));
    }
  }

  lemma SweepShown(v: Volume, listed: seq<Event>, trace: seq<Event>, sweep: Sweep,
                   pods: Option<seq<StoredPod>>, quiet: bool)
    requires listed <= trace && PodsListed(sweep, pods) in listed && (quiet ==> pods.Some?)
    requires PodsDeleted(trace, sweep, Chosen(v, sweep, if pods.Some? then pods.value else []))
    ensures SweepDone(v, trace, sweep, quiet)
  {
    InLonger(listed, trace, PodsListed(sweep, pods));
  }

  lemma SweepStays(v: Volume, a: seq<Event>, b: seq<Event>, sweep: Sweep, quiet: bool)
    requires Extends(a, b, SweepRank(sweep) + 1, 11) && SweepDone(v, a, sweep, quiet)
    ensures SweepDone(v, b, sweep, quiet)
  {
    var pods: Option<seq<StoredPod>> :| PodsListed(sweep, pods) in a && (quiet ==> pods.Some?) &&
      PodsDeleted(a, sweep, Chosen(v, sweep, if pods.Some? then pods.value else []));
    InLonger(a, b, PodsListed(sweep, pods));
    PodsStayDeleted(a, b, sweep, Chosen(v, sweep, if pods.Some? then pods.value else []));
  }

  lemma ReplicaSetStays(v: Volume, a: seq<Event>, b: seq<Event>, quiet: bool)
    requires Extends(a, b, 4, 11) && ReplicaSetDone(v, a, quiet)
    ensures ReplicaSetDone(v, b, quiet)
  {
    var found :| ReplicaSetRead(found) in a &&
      (found ==>
         SweepDone(v, a, Replicas, quiet) && ReplicaSetDeleted((v.OperationalNamespace(), v.reference)) in a);
    InLonger(a, b, ReplicaSetRead(found));
    if found {
      SweepStays(v, a, b, Replicas, quiet);
      InLonger(a, b, ReplicaSetDeleted((v.OperationalNamespace(), v.reference)));
    }
  }

  lemma PodsStay(v: Volume, a: seq<Event>, b: seq<Event>, quiet: bool)
    requires Extends(a, b, 5, 11)
    requires SweepDone(v, a, Users, quiet) && ReplicaSetDone(v, a, quiet) && SweepDone(v, a, Remaining, quiet)
    ensures SweepDone(v, b, Users, quiet) && ReplicaSetDone(v, b, quiet) && SweepDone(v, b, Remaining, quiet)
  {
    SweepStays(v, a, b, Users, quiet);
    ReplicaSetStays(v, a, b, quiet);
    SweepStays(v, a, b, Remaining, quiet);
  }

  lemma ServiceStays(a: seq<Event>, b: seq<Event>, at: Key)
    requires Extends(a, b, 10, 11) && ServiceGone(a, at)
    ensures ServiceGone(b, at)
  {
    var found :| ServiceRead(found) in a && (found ==> ServiceDeleted(at) in a);
    InLonger(a, b, ServiceRead(found));
    if found {
      InLonger(a, b, ServiceDeleted(at));
    }
  }

  lemma ReplicaSetLookedFor(v: Volume, trace: seq<Event>, found: bool, quiet: bool)
    requires Sorted(trace) && UpTo(trace, 1)
    ensures var read := trace + [ReplicaSetRead(found)];
      && ReplicaSetRead(found) in read && PodsDeleted(read, Replicas, []) && (!found ==> ReplicaSetDone(v, read, quiet))
  {
    NothingAbove(trace, 1);
    var read := trace + [ReplicaSetRead(found)];
    assert read[|trace|] == ReplicaSetRead(found);
  }

  lemma ReplicaSetLogged(v: Volume, trace: seq<Event>, quiet: bool)
    requires forall i :: 0 <= i < |trace| ==> !trace[i].ReplicaSetDeleted?
    requires ReplicaSetRead(true) in trace && SweepDone(v, trace, Replicas, quiet)
    ensures ReplicaSetDone(v, trace + [ReplicaSetDeleted((v.OperationalNamespace(), v.reference))], quiet)
  {
    var e := ReplicaSetDeleted((v.OperationalNamespace(), v.reference));
    assert (trace + [e])[|trace|] == e;
    InLonger(trace, trace + [e], ReplicaSetRead(true));
    SweepStays(v, trace, trace + [e], Replicas, quiet);
  }

  lemma ServiceLogged(trace: seq<Event>, found: bool, at: Key)
    requires forall i :: 0 <= i < |trace| ==> !trace[i].ServiceDeleted?
    ensures var read := trace + [ServiceRead(found)];
      ServiceGone(if found then read + [ServiceDeleted(at)] else read, at)
  {
    var read := trace + [ServiceRead(found)];
    assert read[|trace|] == ServiceRead(found);
    if found {
      InLonger(read, read + [ServiceDeleted(at)], ServiceRead(true));
      assert (read + [ServiceDeleted(at)])[|read|] == ServiceDeleted(at);
    }
  }

  lemma ServerLogged(trace: seq<Event>, found: bool, at: Key)
    requires forall i :: 0 <= i < |trace| ==> !trace[i].ServerDeleted?
    ensures var read := trace + [ServerRead(found)];
      ServerGone(if found then read + [ServerDeleted(at)] else read, at)
  {
    var read := trace + [ServerRead(found)];
    assert read[|trace|] == ServerRead(found);
    if found {
      InLonger(read, read + [ServerDeleted(at)], ServerRead(true));
      assert (read + [ServerDeleted(at)])[|read|] == ServerDeleted(at);
    }
  }

  lemma ClaimsLogged(trace: seq<Event>, chosen: seq<Claim>, claim: Claim)
    requires ClaimsDeleted(trace, chosen)
    ensures ClaimsDeleted(trace + [ClaimDeleted(claim)], chosen + [claim])
  {
    var longer := trace + [ClaimDeleted(claim)];
    assert longer[|trace|] == ClaimDeleted(claim);
    forall x | x in chosen
      ensures ClaimDeleted(x) in longer
    {
      var i :| 0 <= i < |trace| && trace[i] == ClaimDeleted(x);
      assert longer[i] == trace[i];
    }
  }

  lemma ClaimsStay(a: seq<Event>, b: seq<Event>, chosen: seq<Claim>)
    requires Extends(a, b, 6, 11) && ClaimsDeleted(a, chosen)
    ensures ClaimsDeleted(b, chosen)
  {
    forall c | c in chosen
      ensures ClaimDeleted(c) in b
    {
      var i :| 0 <= i < |a| && a[i] == ClaimDeleted(c);
      assert b[i] == a[i];
    }
  }

  lemma VolumesLogged(trace: seq<Event>, chosen: seq<PersistentVolume>, volume: PersistentVolume)
    requires VolumesDeleted(trace, chosen)
    ensures VolumesDeleted(trace + [VolumeDeleted(volume)], chosen + [volume])
  {
    var longer := trace + [VolumeDeleted(volume)];
    assert longer[|trace|] == VolumeDeleted(volume);
    forall x | x in chosen
      ensures VolumeDeleted(x) in longer
    {
      var i :| 0 <= i < |trace| && trace[i] == VolumeDeleted(x);
      assert longer[i] == trace[i];
    }
  }

  lemma VolumesStay(a: seq<Event>, b: seq<Event>, chosen: seq<PersistentVolume>)
    requires Extends(a, b, 7, 11) && VolumesDeleted(a, chosen)
    ensures VolumesDeleted(b, chosen)
  {
    forall p | p in chosen
      ensures VolumeDeleted(p) in b
    {
      var i :| 0 <= i < |a| && a[i] == VolumeDeleted(p);
      assert b[i] == a[i];
    }
  }

  lemma WaitStays(reference: string, a: seq<Event>, b: seq<Event>)
    requires a <= b && WaitedFor(reference, a)
    ensures WaitedFor(reference, b)
  {
    var i :| 0 <= i < |a| && WaitOver(reference, a[i]);
    assert b[i] == a[i];
  }

  lemma StorageStays(reference: string, a: seq<Event>, b: seq<Event>,
                     claims: seq<Claim>, volumes: seq<PersistentVolume>)
    requires Extends(a, b, 9, 11) && WaitedFor(reference, a) && ClaimsDeleted(a, claims) && VolumesDeleted(a, volumes)
    ensures WaitedFor(reference, b) && ClaimsDeleted(b, claims) && VolumesDeleted(b, volumes)
  {
    ClaimsStay(a, b, claims);
    VolumesStay(a, b, volumes);
    WaitStays(reference, a, b);
  }

  // ---------- the cleanup ----------

  class Cleaner {
    const v: Volume
    const resourceNamespace: string
    const server: Option<NfsServerSpec>
    /** The manager may run without a sync controller. */
    const sync: SyncTimers.SyncController?
    /** No read fails. */
    const quiet: bool
    var clock: int
    var trace: seq<Event>

    ghost predicate Valid()
      reads this
    {
      Sorted(trace) && AllTruthful(v.reference, trace, quiet)
    }

    constructor (v: Volume, resourceNamespace: string, server: Option<NfsServerSpec>,
                 sync: SyncTimers.SyncController?, quiet: bool)
      ensures this.v == v && this.resourceNamespace == resourceNamespace && this.server == server
      ensures this.sync == sync && this.quiet == quiet
      ensures Valid() && trace == []
    {
      this.v, this.resourceNamespace, this.server, this.sync, this.quiet := v, resourceNamespace, server, sync, quiet;
      clock, trace := 0, [];
    }

    method TimePasses()
      modifies this`clock
      ensures clock >= old(clock)
    {
      var t: int := *;
      if t > 0 {
        clock := clock + t;
      }
    }

    /** What is stored at this moment: anything, as everybody else acts between any two requests. */
    method StoredClaims() returns (claims: seq<Claim>)
      ensures Distinct(claims)
    {
      claims := *;
      if !forall i | 0 <= i < |claims| :: forall j | i < j < |claims| :: claims[i] != claims[j] {
        claims := [];
      }
    }

    method StoredVolumes() returns (volumes: seq<PersistentVolume>)
      ensures DistinctNames(volumes)
    {
      volumes := *;
      if !forall i | 0 <= i < |volumes| :: forall j | i < j < |volumes| :: volumes[i].name != volumes[j].name {
        volumes := [];
      }
    }

    /** Get of the main claim, then, at a later moment, a list of all claims. */
    method ReadClaims() returns (seen: Seen<Claim>)
      ensures seen.main.Found? ==> seen.main.value == MainClaim(v)
      ensures seen.list.Some? ==> Distinct(seen.list.value)
      ensures quiet ==> Complete(seen)
    {
      var stored := StoredClaims();
      var main := MainClaim(v);
      var failed := Fails();
      seen := Seen(if failed then Failed else if main in stored then Found(main) else NotFound, None);
      stored := StoredClaims();
      failed := Fails();
      if !failed {
        seen := seen.(list := Some(stored));
      }
    }

    method ReadVolumes() returns (seen: Seen<PersistentVolume>)
      ensures seen.main.Found? ==> seen.main.value.name == "pv-" + v.reference
      ensures seen.list.Some? ==> DistinctNames(seen.list.value)
      ensures quiet ==> Complete(seen)
    {
      var main := GetVolume();
      seen := Seen(main, None);
      var stored := StoredVolumes();
      var failed := Fails();
      if !failed {
        seen := seen.(list := Some(stored));
      }
    }

    method GetVolume() returns (a: Answer<PersistentVolume>)
      ensures a.Found? ==> a.value.name == "pv-" + v.reference
      ensures quiet ==> !a.Failed?
    {
      var stored := StoredVolumes();
      var failed := Fails();
      if failed {
        return Failed;
      }
      for i := 0 to |stored| {
        if stored[i].name == "pv-" + v.reference {
          return Found(stored[i]);
        }
      }
      return NotFound;
    }

    method Fails() returns (failed: bool)
      ensures quiet ==> !failed
    {
      failed := *;
      failed := failed && !quiet;
    }

    method Log(e: Event)
      requires Valid() && UpTo(trace, Rank(e))
      requires e.Polled? ==> Truthful(v.reference, e.poll, quiet)
      modifies this`trace
      ensures Valid() && UpTo(trace, Rank(e))
      ensures trace == old(trace) + [e]
    {
      assert (trace + [e])[..|trace|] == trace;
      trace := trace + [e];
    }

    function TimerKey(): string {
      SyncTimers.KeyOf(if v.kind.Namespaced? then v.namespace else resourceNamespace, v.name)
    }

    /** What is listed at this moment; the server selects by label and namespace where it is asked to. */
    method StoredPods() returns (pods: seq<StoredPod>) {
      pods := *;
    }

    method ListPods(sweep: Sweep) returns (pods: Option<seq<StoredPod>>)
      requires Valid() && UpTo(trace, SweepRank(sweep))
      modifies this`trace
      ensures Valid() && UpTo(trace, SweepRank(sweep))
      ensures trace == old(trace) + [PodsListed(sweep, pods)] && (quiet ==> pods.Some?)
    {
      var stored := StoredPods();
      var failed := Fails();
      pods := if failed then None else Some(stored);
      Log(PodsListed(sweep, pods));
    }

    method DeletePods(sweep: Sweep)
      requires Valid() && UpTo(trace, SweepRank(sweep)) && PodsDeleted(trace, sweep, [])
      modifies this`trace
      ensures Valid() && UpTo(trace, SweepRank(sweep))
      ensures Extends(old(trace), trace, SweepRank(sweep), SweepRank(sweep))
      ensures SweepDone(v, trace, sweep, quiet)
    {
      var pods := ListPods(sweep);
      var chosen := Choose(v, sweep, if pods.Some? then pods.value else []);
      ghost var listed := trace;
      assert listed[|listed| - 1] == PodsListed(sweep, pods);
      DeleteChosen(sweep, chosen);
      SweepShown(v, listed, trace, sweep, pods, quiet);
    }

    method DeleteChosen(sweep: Sweep, chosen: seq<Key>)
      requires Valid() && UpTo(trace, SweepRank(sweep)) && PodsDeleted(trace, sweep, [])
      modifies this`trace
      ensures Valid() && UpTo(trace, SweepRank(sweep)) && PodsDeleted(trace, sweep, chosen)
      ensures Extends(old(trace), trace, SweepRank(sweep), SweepRank(sweep))
    {
      var rank := SweepRank(sweep);
      for i := 0 to |chosen|
        invariant Valid() && UpTo(trace, rank) && PodsDeleted(trace, sweep, chosen[..i])
        invariant Extends(old(trace), trace, rank, rank)
      {
        PodsLogged(trace, sweep, chosen[..i], chosen[i]);
        assert chosen[..i + 1] == chosen[..i] + [chosen[i]];
        Log(PodDeleted(sweep, chosen[i]));
      }
      assert chosen[..|chosen|] == chosen;
    }

    method CleanupReplicaSet()
      requires Valid() && UpTo(trace, 1)
      modifies this`trace
      ensures Valid() && UpTo(trace, 3) && Extends(old(trace), trace, 2, 3)
      ensures ReplicaSetDone(v, trace, quiet)
    {
      var found: bool := *;
      ReplicaSetLookedFor(v, trace, found, quiet);
      Log(ReplicaSetRead(found));
      if found {
        DeleteReplicaSetAndPods();
      }
    }

    method DeleteReplicaSetAndPods()
      requires Valid() && UpTo(trace, 2) && ReplicaSetRead(true) in trace && PodsDeleted(trace, Replicas, [])
      modifies this`trace
      ensures Valid() && UpTo(trace, 3) && Extends(old(trace), trace, 2, 3)
      ensures ReplicaSetDone(v, trace, quiet)
    {
      DeletePods(Replicas);
      InLonger(old(trace), trace, ReplicaSetRead(true));
      DeleteReplicaSet();
    }

    method DeleteReplicaSet()
      requires Valid() && UpTo(trace, 2) && ReplicaSetRead(true) in trace && SweepDone(v, trace, Replicas, quiet)
      modifies this`trace
      ensures Valid() && UpTo(trace, 3) && Extends(old(trace), trace, 3, 3)
      ensures ReplicaSetDone(v, trace, quiet)
    {
      NothingAbove(trace, 2);
      ReplicaSetLogged(v, trace, quiet);
      Log(ReplicaSetDeleted((v.OperationalNamespace(), v.reference)));
    }

    method DeleteClaims(chosen: seq<Claim>)
      requires Valid() && UpTo(trace, 4)
      modifies this`trace
      ensures Valid() && UpTo(trace, 5) && Extends(old(trace), trace, 5, 5)
      ensures ClaimsDeleted(trace, chosen)
    {
      NothingAbove(trace, 4);
      for i := 0 to |chosen|
        invariant Valid() && UpTo(trace, 5) && Extends(old(trace), trace, 5, 5)
        invariant ClaimsDeleted(trace, chosen[..i])
      {
        ClaimsLogged(trace, chosen[..i], chosen[i]);
        assert chosen[..i + 1] == chosen[..i] + [chosen[i]];
        Log(ClaimDeleted(chosen[i]));
      }
      assert chosen[..|chosen|] == chosen;
    }

    method DeleteVolumes(chosen: seq<PersistentVolume>)
      requires Valid() && UpTo(trace, 5)
      modifies this`trace
      ensures Valid() && UpTo(trace, 6) && Extends(old(trace), trace, 6, 6)
      ensures VolumesDeleted(trace, chosen)
    {
      NothingAbove(trace, 5);
      for i := 0 to |chosen|
        invariant Valid() && UpTo(trace, 6) && Extends(old(trace), trace, 6, 6)
        invariant VolumesDeleted(trace, chosen[..i])
      {
        VolumesLogged(trace, chosen[..i], chosen[i]);
        assert chosen[..i + 1] == chosen[..i] + [chosen[i]];
        Log(VolumeDeleted(chosen[i]));
      }
      assert chosen[..|chosen|] == chosen;
    }

    method CleanupAllPVCs() returns (seen: Seen<Claim>, chosen: seq<Claim>)
      requires Valid() && UpTo(trace, 4)
      modifies this`trace
      ensures Valid() && UpTo(trace, 5) && Extends(old(trace), trace, 5, 5)
      ensures ClaimsDeleted(trace, chosen)
      ensures ChosenClaims(v, seen, chosen) && (quiet ==> Complete(seen))
    {
      seen := ReadClaims();
      chosen := CleanupNames.CleanupAllPVCs(v, seen.main, seen.list);
      DeleteClaims(chosen);
    }

    method CleanupAllPVs() returns (seen: Seen<PersistentVolume>, chosen: seq<PersistentVolume>)
      requires Valid() && UpTo(trace, 5)
      modifies this`trace
      ensures Valid() && UpTo(trace, 6) && Extends(old(trace), trace, 6, 6)
      ensures VolumesDeleted(trace, chosen)
      ensures ChosenVolumes(v, seen, chosen) && (quiet ==> Complete(seen))
    {
      seen := ReadVolumes();
      chosen := CleanupNames.CleanupAllPVs(v, seen.main, seen.list);
      DeleteVolumes(chosen);
    }

    /** Reads the main volume, then, at a later moment, the list of all. */
    method TakePoll() returns (p: Poll, stillExists: bool)
      ensures Truthful(v.reference, p, quiet)
      ensures stillExists <==> !SawNone(v.reference, p)
    {
      stillExists := false;
      var volumes := StoredVolumes();
      var atGet := set i | 0 <= i < |volumes| :: volumes[i].name;
      var main := NotFound;
      var failed := Fails();
      if failed {
        main := Failed;
      } else if "pv-" + v.reference in atGet {
        main := Found(());
        stillExists := true;
      }
      volumes := StoredVolumes();
      var atList := set i | 0 <= i < |volumes| :: volumes[i].name;
      failed := Fails();
      if failed {
        return Poll(atGet, main, atList, Failed), stillExists;
      }
      var names := seq(|volumes|, i requires 0 <= i < |volumes| => volumes[i].name);
      for i := 0 to |names|
        invariant stillExists <==> main.Found? || exists j :: 0 <= j < i && HasPrefix(names[j], v.reference + "-")
      {
        if HasPrefix(names[i], v.reference + "-") {
          stillExists := true;
        }
      }
      p := Poll(atGet, main, atList, Found(names));
      assert forall i :: 0 <= i < |names| ==> names[i] == volumes[i].name;
      assert forall n :: n in names <==> n in atList;
    }

    method PollVolumes() returns (stillExists: bool)
      requires Valid() && UpTo(trace, 7)
      modifies this`clock, this`trace
      ensures Valid() && UpTo(trace, 7) && Extends(old(trace), trace, 7, 7) && Polls(trace) == Polls(old(trace)) + 1
      ensures !stillExists ==> WaitedFor(v.reference, trace)
      ensures clock >= old(clock)
    {
      TimePasses();
      var poll;
      poll, stillExists := TakePoll();
      PollsOfLonger(trace, Polled(poll));
      Log(Polled(poll));
      assert trace[|trace| - 1] == Polled(poll);
      assert !stillExists ==> WaitOver(v.reference, trace[|trace| - 1]);
    }

    /** At most 24 polls; ends with one that saw nothing, or after two minutes. */
    method WaitForVolumes()
      requires Valid() && UpTo(trace, 6)
      modifies this`clock, this`trace
      ensures Valid() && UpTo(trace, 8) && Extends(old(trace), trace, 7, 8) && WaitedFor(v.reference, trace)
      ensures Polls(trace) <= Polls(old(trace)) + 24
    {
      TimePasses();
      var started := clock;
      var deadline := started + MAX_WAIT;
      ghost var polls := 0;
      while clock < deadline
        invariant Valid() && UpTo(trace, 7) && Extends(old(trace), trace, 7, 8)
        invariant 0 <= polls <= 24 && clock - started >= 5_000_000_000 * polls
        invariant Polls(trace) == Polls(old(trace)) + polls
        decreases 24 - polls
      {
        var stillExists := PollVolumes();
        polls := polls + 1;
        if !stillExists {
          return;
        }
        TimePasses();
        clock := clock + CHECK_INTERVAL;
      }
      LogTimeout(started);
    }

    method LogTimeout(started: int)
      requires Valid() && UpTo(trace, 7) && clock - started >= MAX_WAIT
      modifies this`trace
      ensures Valid() && UpTo(trace, 8) && Extends(old(trace), trace, 8, 8) && WaitedFor(v.reference, trace)
      ensures Polls(trace) == Polls(old(trace))
    {
      PollsOfLonger(trace, TimedOut(started, clock));
      Log(TimedOut(started, clock));
      assert WaitOver(v.reference, trace[|trace| - 1]);
    }

    method CleanupAllPVsWithWait() returns (seen: Seen<PersistentVolume>, chosen: seq<PersistentVolume>)
      requires Valid() && UpTo(trace, 5)
      modifies this`clock, this`trace
      ensures Valid() && UpTo(trace, 8) && Extends(old(trace), trace, 6, 8) && WaitedFor(v.reference, trace)
      ensures Polls(trace) <= Polls(old(trace)) + 24
      ensures VolumesDeleted(trace, chosen)
      ensures ChosenVolumes(v, seen, chosen) && (quiet ==> Complete(seen))
    {
      seen, chosen := CleanupAllPVs();
      ghost var before := trace;
      PollsOnlyInTheWait(old(trace), before, 6, 6);
      WaitForVolumes();
      VolumesStay(before, trace, chosen);
    }

    method CleanupService()
      requires Valid() && UpTo(trace, 8)
      modifies this`trace
      ensures Valid() && UpTo(trace, 9) && Extends(old(trace), trace, 9, 9)
      ensures ServiceGone(trace, (v.OperationalNamespace(), v.reference))
    {
      NothingAbove(trace, 8);
      var found: bool := *;
      ServiceLogged(trace, found, (v.OperationalNamespace(), v.reference));
      Log(ServiceRead(found));
      if found {
        Log(ServiceDeleted((v.OperationalNamespace(), v.reference)));
      }
    }

    method CleanupNFSServer()
      requires Valid() && UpTo(trace, 9)
      modifies this`trace
      ensures Valid() && UpTo(trace, 10) && Extends(old(trace), trace, 10, 10)
      ensures ServerDone(v, server, trace)
    {
      NothingAbove(trace, 9);
      if server.Some? {
        if IsExternal(server) {
          return;
        }
        if server.value.name != "" {
          DeleteServer((v.OperationalNamespace(), server.value.name));
        }
      }
    }

    method DeleteServer(at: Key)
      requires Valid() && UpTo(trace, 9)
      modifies this`trace
      ensures Valid() && UpTo(trace, 10) && Extends(old(trace), trace, 10, 10)
      ensures ServerGone(trace, at)
    {
      NothingAbove(trace, 9);
      var found: bool := *;
      ServerLogged(trace, found, at);
      Log(ServerRead(found));
      if found {
        Log(ServerDeleted(at));
      }
    }

    method CleanupPods()
      requires Valid() && UpTo(trace, 0)
      modifies this`trace
      ensures Valid() && UpTo(trace, 4) && Extends(old(trace), trace, 1, 4)
      ensures SweepDone(v, trace, Users, quiet) && ReplicaSetDone(v, trace, quiet)
      ensures SweepDone(v, trace, Remaining, quiet)
    {
      NothingAbove(trace, 0);
      DeletePods(Users);
      ghost var users := trace;
      CleanupReplicaSet();
      ghost var replicas := trace;
      NothingAbove(trace, 3);
      DeletePods(Remaining);
      SweepStays(v, users, trace, Users, quiet);
      ReplicaSetStays(v, replicas, trace, quiet);
    }

    method CleanupStorage()
      returns (seenClaims: Seen<Claim>, seenVolumes: Seen<PersistentVolume>,
               claimsGone: seq<Claim>, volumesGone: seq<PersistentVolume>)
      requires Valid() && UpTo(trace, 4)
      modifies this`clock, this`trace
      ensures Valid() && UpTo(trace, 8) && Extends(old(trace), trace, 5, 8)
      ensures Polls(trace) <= Polls(old(trace)) + 24 && WaitedFor(v.reference, trace)
      ensures ClaimsDeleted(trace, claimsGone) && VolumesDeleted(trace, volumesGone)
      ensures ChosenClaims(v, seenClaims, claimsGone) && ChosenVolumes(v, seenVolumes, volumesGone)
      ensures quiet ==> Complete(seenClaims) && Complete(seenVolumes)
    {
      seenClaims, claimsGone := CleanupAllPVCs();
      ghost var before := trace;
      PollsOnlyInTheWait(old(trace), before, 5, 5);
      seenVolumes, volumesGone := CleanupAllPVsWithWait();
      ClaimsStay(before, trace, claimsGone);
    }

    method CleanupAccess()
      requires Valid() && UpTo(trace, 8)
      modifies this`trace
      ensures Valid() && UpTo(trace, 10) && Extends(old(trace), trace, 9, 10) && Polls(trace) == Polls(old(trace))
      ensures ServiceGone(trace, (v.OperationalNamespace(), v.reference)) && ServerDone(v, server, trace)
    {
      CleanupService();
      ghost var service := trace;
      CleanupNFSServer();
      PollsOnlyInTheWait(old(trace), trace, 9, 10);
      ServiceStays(service, trace, (v.OperationalNamespace(), v.reference));
    }

    method CleanupNamed()
      returns (seenClaims: Seen<Claim>, seenVolumes: Seen<PersistentVolume>,
               claimsGone: seq<Claim>, volumesGone: seq<PersistentVolume>)
      requires Valid() && UpTo(trace, 0)
      modifies this`clock, this`trace
      ensures Valid() && UpTo(trace, 10) && Polls(trace) <= Polls(old(trace)) + 24 && old(trace) <= trace
      ensures WaitedFor(v.reference, trace) && RestDone(v, server, trace, quiet)
      ensures ClaimsDeleted(trace, claimsGone) && VolumesDeleted(trace, volumesGone)
      ensures ChosenClaims(v, seenClaims, claimsGone) && ChosenVolumes(v, seenVolumes, volumesGone)
      ensures quiet ==> Complete(seenClaims) && Complete(seenVolumes)
    {
      CleanupPods();
      ghost var pods := trace;
      PollsOnlyInTheWait(old(trace), pods, 1, 4);
      seenClaims, seenVolumes, claimsGone, volumesGone := CleanupStorage();
      ghost var before := trace;
      CleanupAccess();
      StorageStays(v.reference, before, trace, claimsGone, volumesGone);
      PodsStay(v, pods, trace, quiet);
    }

    /**
     The whole cleanup: events in order of rank, the timer first; everything of the volume is looked
     for, and deleted if found, and nothing else is. Without a reference only the timer is touched.
     */
    method CleanupResourcesInNamespace()
      returns (seenClaims: Seen<Claim>, seenVolumes: Seen<PersistentVolume>,
               claimsGone: seq<Claim>, volumesGone: seq<PersistentVolume>)
      requires Valid() && trace == []
      modifies this`clock, this`trace, if sync == null then {} else {sync}
      ensures Valid() && UpTo(trace, 10) && Polls(trace) <= 24
      ensures sync != null ==> trace != [] && trace[0] == TimerStopped(TimerKey())
      ensures sync != null ==> sync.State() == SyncTimers.StopTimer(old(sync.State()), TimerKey())
      ensures v.reference == "" ==> |trace| <= 1 && (sync == null ==> trace == [])
      ensures v.reference != "" ==> WaitedFor(v.reference, trace) && RestDone(v, server, trace, quiet)
      ensures v.reference != "" ==> ClaimsDeleted(trace, claimsGone) && VolumesDeleted(trace, volumesGone)
      ensures v.reference != "" ==>
        && ChosenClaims(v, seenClaims, claimsGone) && ChosenVolumes(v, seenVolumes, volumesGone)
        && (quiet ==> Complete(seenClaims) && Complete(seenVolumes))
    {
      seenClaims, seenVolumes, claimsGone, volumesGone := Seen(Failed, None), Seen(Failed, None), [], [];
      if sync != null {
        sync.StopSyncTimer(TimerKey());
        Log(TimerStopped(TimerKey()));
      }
      if v.reference == "" {
        return;
      }
      seenClaims, seenVolumes, claimsGone, volumesGone := CleanupNamed();
    }

    method DropFinalizer(api: FinalizerRemoval.ApiServer, key: Key, finalizer: string) returns (ok: bool)
      requires Valid() && UpTo(trace, 10) && FinalizerRemoval.Valid(api.State())
      modifies this`trace
      modifies api`objects, api`next, api`gets, api`updates, api`faults, api`getFaults, api`rivals
      ensures Valid()
      ensures api.faults == old(api.faults) && api.rivals <= old(api.rivals) + 3 ==> ok
      ensures trace == if ok then old(trace) + [FinalizerRemoved] else old(trace)
      ensures ok && key in api.objects ==> finalizer !in api.objects[key].finalizers
    {
      var err, _ := FinalizerRemoval.RemoveFinalizerWithRetry(api, key, finalizer);
      ok := err.None?;
      if ok {
        Log(FinalizerRemoved);
      }
    }

    /**
     The volume's own finalizer goes last, whatever the cleanup achieved; a volume without it is left
     alone.
     */
    method HandleDeletion(api: FinalizerRemoval.ApiServer, key: Key, finalizer: string, finalizers: seq<string>)
      returns (ok: bool)
      requires Valid() && trace == [] && FinalizerRemoval.Valid(api.State())
      modifies this`clock, this`trace, if sync == null then {} else {sync}
      modifies api`objects, api`next, api`gets, api`updates, api`faults, api`getFaults, api`rivals
      ensures Valid()
      ensures api.faults == old(api.faults) && api.rivals <= old(api.rivals) + 3 ==> ok
      ensures finalizer !in finalizers ==> ok && trace == [] && api.State() == old(api.State())
      ensures ok && finalizer in finalizers ==>
        && trace != [] && trace[|trace| - 1] == FinalizerRemoved
        && (v.reference != "" ==> var before := trace[..|trace| - 1];
              WaitedFor(v.reference, before) && RestDone(v, server, before, quiet))
        && (key in api.objects ==> finalizer !in api.objects[key].finalizers)
      ensures !ok ==> UpTo(trace, 10)
    {
      if finalizer !in finalizers {
        return true;
      }
      var _, _, _, _ := CleanupResourcesInNamespace();
      ghost var before := trace;
      ok := DropFinalizer(api, key, finalizer);
      assert ok ==> trace[..|trace| - 1] == before;
    }
  }

  // ---------- what such a trace means ----------

  ghost predicate Before(trace: seq<Event>, first: Event -> bool, second: Event -> bool) {
    forall i, j :: 0 <= i < |trace| && 0 <= j < |trace| && first(trace[i]) && second(trace[j]) ==> i < j
  }

  lemma RanksGiveOrder(trace: seq<Event>, first: Event -> bool, second: Event -> bool)
    requires Sorted(trace)
    requires forall a, b :: first(a) && second(b) ==> Rank(a) < Rank(b)
    ensures Before(trace, first, second)
  {
    forall i, j | 0 <= i < |trace| && 0 <= j < |trace| && first(trace[i]) && second(trace[j])
      ensures i < j
    {
      if j <= i {
        SortedPair(trace, j, i);
      }
    }
  }

  /**
   The order of every teardown: the timer stops before anything is deleted, claims go before volumes,
   and the Service and the NfsServer go after the wait is over.
   */
  lemma TeardownOrder(reference: string, trace: seq<Event>)
    requires Sorted(trace) && WaitedFor(reference, trace)
    ensures Before(trace, (e: Event) => e.TimerStopped?, (e: Event) => IsDeletion(e))
    ensures Before(trace, (e: Event) => e.ClaimDeleted?, (e: Event) => e.VolumeDeleted?)
    ensures Before(trace, (e: Event) => e.VolumeDeleted?, (e: Event) => e.ServiceDeleted? || e.ServerDeleted?)
    ensures forall j :: 0 <= j < |trace| && (trace[j].ServiceDeleted? || trace[j].ServerDeleted?) ==>
      exists i :: 0 <= i < j && WaitOver(reference, trace[i])
  {
    RanksGiveOrder(trace, (e: Event) => e.TimerStopped?, (e: Event) => IsDeletion(e));
    RanksGiveOrder(trace, (e: Event) => e.ClaimDeleted?, (e: Event) => e.VolumeDeleted?);
    RanksGiveOrder(trace, (e: Event) => e.VolumeDeleted?, (e: Event) => e.ServiceDeleted? || e.ServerDeleted?);
    var i :| 0 <= i < |trace| && WaitOver(reference, trace[i]);
    forall j | 0 <= j < |trace| && (trace[j].ServiceDeleted? || trace[j].ServerDeleted?)
      ensures exists i :: 0 <= i < j && WaitOver(reference, trace[i])
    {
      if j <= i {
        SortedPair(trace, j, i);
      }
    }
  }

  /** What a poll that sees nothing tells: of each read that did not fail, about its own moment. */
  lemma PollTells(reference: string, p: Poll, quiet: bool)
    requires Truthful(reference, p, quiet)
    ensures SawNone(reference, p) <==>
      && (p.main.Failed? || "pv-" + reference !in p.atGet)
      && (p.list.Failed? || forall n :: n in p.atList ==> !HasPrefix(n, reference + "-"))
  {
    if p.list.Found? && (exists n :: n in p.atList && HasPrefix(n, reference + "-")) {
      var n :| n in p.atList && HasPrefix(n, reference + "-");
      assert n in p.list.value;
    }
  }

  /** The wait watches, among the volumes that the operator makes, exactly those of its own volume. */
  lemma WaitWatchesOwnVolumes(world: set<Volume>, v: Volume, p: PersistentVolume)
    requires WellFormed(world) && v in world && MadeVolume(world, p)
    ensures Watched(v.reference, p.name) <==> OwnsVolume(v, p)
  {
    var u :| u in world && OwnsVolume(u, p);
    if p == MainVolume(u) {
      ReferencePrefix(v.reference, u.reference, "");
      MainVolumeSelected(world, v, u);
      if p.name == "pv-" + v.reference {
        CancelLeft("pv-", u.reference, v.reference);
      }
    } else {
      var namespace :| p == PodVolume(u, namespace);
      ReferencePrefix(v.reference, u.reference, namespace);
      PodVolumeSelected(world, v, u, namespace);
    }
  }

  /**
   With fault-free reads a wait that is over has lasted two minutes, or ended in a poll whose Get did
   not find the volume's main persistent volume and whose List, a moment later, had none of its
   others.
   */
  lemma WaitOverMeansGone(world: set<Volume>, v: Volume, e: Event, p: PersistentVolume)
    requires WellFormed(world) && v in world && WaitOver(v.reference, e)
    requires e.Polled? ==> Truthful(v.reference, e.poll, true)
    requires MadeVolume(world, p) && OwnsVolume(v, p)
    ensures e.TimedOut? ==> e.ended - e.started >= 120_000_000_000
    ensures e.Polled? ==> p.name !in (if p == MainVolume(v) then e.poll.atGet else e.poll.atList)
  {
    WaitWatchesOwnVolumes(world, v, p);
    if e.Polled? {
      PollTells(v.reference, e.poll, true);
      if p != MainVolume(v) {
        var namespace :| p == PodVolume(v, namespace);
        ReferencePrefix(v.reference, v.reference, namespace);
      }
    }
  }

  /**
   If nobody stores a volume of a watched name between the two reads, there is one such moment: the
   later one.
   */
  lemma WaitOverMeansAllGone(world: set<Volume>, v: Volume, e: Event, p: PersistentVolume)
    requires WellFormed(world) && v in world && WaitOver(v.reference, e) && e.Polled?
    requires Truthful(v.reference, e.poll, true) && MadeVolume(world, p) && OwnsVolume(v, p)
    requires forall n :: n in e.poll.atList && Watched(v.reference, n) ==> n in e.poll.atGet
    ensures p.name !in e.poll.atList
  {
    WaitOverMeansGone(world, v, e, p);
    WaitWatchesOwnVolumes(world, v, p);
  }
}
