/**
 The controller that reconciles a volume, call by call. Unless it is quiet, servers, claims and
 ReplicaSets get ready and unready between any two calls, others touch the volume object, and any
 call may fail without being applied. When it is quiet, every method has exactly its specified effect.
 */
module VolumeController {
  import opened Common
  import opened VolumeTypes
  import opened VolumeDefaults
  import opened UpdateAdmission
  import opened VolumeReconcile

  // ---------- what others and what a reconcile may change ----------

  predicate SameButReady(a: ReplicaSet, b: ReplicaSet) {
    b == a.(ready := b.ready)
  }

  /** Only readiness has changed. */
  ghost predicate Drifted(a: World, b: World) {
    && b == a.(servers := b.servers, claims := b.claims, replicaSets := b.replicaSets)
    && b.servers.Keys == a.servers.Keys && b.claims.Keys == a.claims.Keys && b.replicaSets.Keys == a.replicaSets.Keys
    && (forall k :: k in a.replicaSets ==> SameButReady(a.replicaSets[k], b.replicaSets[k]))
  }

  lemma DriftsCompose(a: World, b: World, c: World)
    requires Drifted(a, b) && Drifted(b, c)
    ensures Drifted(a, c)
  {
  }

  lemma DriftBesideStatus(a: World, b: World, c: World, status: Status, writes: nat)
    requires Drifted(a, b) && Drifted(b.(status := status, writes := writes), c)
    ensures Drifted(a.(status := status, writes := writes), c)
  {
  }

  ghost predicate SetsKept(own: Key, a: map<Key, ReplicaSet>, b: map<Key, ReplicaSet>) {
    && (forall k :: k in a && (k != own || PortOk(a[k].port)) ==> k in b && SameButReady(a[k], b[k]))
    && (forall k :: k in b ==> k in a || k == own)
  }

  ghost predicate ServicesKept(own: Key, a: map<Key, Option<int>>, b: map<Key, Option<int>>) {
    && (forall k :: k in a && (k != own || PortOk(a[k])) ==> k in b && b[k] == a[k])
    && (forall k :: k in b ==> k in a || k == own)
  }

  ghost predicate VolumesKept(own: string, a: map<string, string>, b: map<string, string>) {
    && (forall n :: n in a ==> n in b && b[n] == a[n])
    && (forall n :: n in b ==> n in a || n == own)
  }

  /**
   Existing volumes and claims stay, nothing under a foreign name changes but its readiness, and only
   an own ReplicaSet or Service with a wrong port is ever removed.
   */
  ghost predicate ResourcesKept(cfg: Config, reference: string, a: World, b: World) {
    var own := (cfg.Namespace(), reference);
    && VolumesKept("pv-" + reference, a.volumes, b.volumes)
    && a.claims.Keys <= b.claims.Keys <= a.claims.Keys + {own}
    && SetsKept(own, a.replicaSets, b.replicaSets) && ServicesKept(own, a.services, b.services)
  }

  lemma ResourcesKeptCompose(cfg: Config, reference: string, a: World, b: World, c: World)
    requires ResourcesKept(cfg, reference, a, b) && ResourcesKept(cfg, reference, b, c)
    ensures ResourcesKept(cfg, reference, a, c)
  {
  }

  lemma DriftKeepsResources(cfg: Config, reference: string, a: World, b: World)
    requires Drifted(a, b)
    ensures ResourcesKept(cfg, reference, a, b)
  {
  }

  // ---------- what a readiness check saw ----------

  /** The moments at which server, claim and ReplicaSet were last looked at. */
  datatype Sight = Sight(nfs: World, claim: World, replicas: World)

  /** The phase that the three answers call for. */
  function PhaseSeen(cfg: Config, seen: Sight, spec: VolumeSpec): string {
    var nfsReady := NfsReady(cfg, seen.nfs, spec);
    DeterminePhase(nfsReady, nfsReady && ClaimBound(cfg, seen.claim, spec) && ReplicasReady(cfg, seen.replicas, spec))
  }

  /** A later moment of the same reconcile: the spec and the servers are the same ones. */
  ghost predicate Later(cfg: Config, reference: string, a: World, b: World) {
    b.spec == a.spec && b.servers.Keys == a.servers.Keys && ResourcesKept(cfg, reference, a, b)
  }

  lemma DriftIsLater(cfg: Config, reference: string, a: World, b: World)
    requires Drifted(a, b)
    ensures Later(cfg, reference, a, b)
  {
    DriftKeepsResources(cfg, reference, a, b);
  }

  lemma LaterComposes(cfg: Config, reference: string, a: World, b: World, c: World)
    requires Later(cfg, reference, a, b) && Later(cfg, reference, b, c)
    ensures Later(cfg, reference, a, c)
  {
    ResourcesKeptCompose(cfg, reference, a, b, c);
  }

  /** The three moments in their order, and then the end of the reconcile. */
  ghost predicate InOrder(cfg: Config, reference: string, seen: Sight, end: World) {
    && Later(cfg, reference, seen.nfs, seen.claim) && Later(cfg, reference, seen.claim, seen.replicas)
    && Later(cfg, reference, seen.replicas, end)
  }

  /** A reconcile leaves the status alone, or stores the phase that its own three looks call for. */
  ghost predicate WrittenFrom(cfg: Config, before: World, seen: Sight, after: World) {
    after.status == before.status ||
    (InOrder(cfg, after.spec.referenceValue, seen, after) && after.status.phase == PhaseSeen(cfg, seen, after.spec))
  }

  /** A managed server with a name, which has to be looked up. */
  predicate Looked(server: Option<NfsServerSpec>) {
    server.Some? && !IsExternal(server) && server.value.name != ""
  }

  /** The moment of the last look at the server: the readiness check skips one that seems external. */
  function LastLook(seen: Sight, checked: World, filled: VolumeSpec, resolved: VolumeSpec): Sight {
    if Looked(filled.nfsServer) && IsExternal(resolved.nfsServer) then seen.(nfs := checked) else seen
  }

  /**
   The spec in memory calls for the same phase as the stored one, provided the look at a server that
   only the written-back URL makes external is the earlier one, which found it ready.
   */
  lemma SameSight(cfg: Config, seen: Sight, checked: World, filled: VolumeSpec, resolved: VolumeSpec, spec: VolumeSpec)
    requires spec.nfsServer.Some? && FilledFrom(spec, filled) && resolved.nfsServer.Some?
    requires resolved == filled.(nfsServer := resolved.nfsServer)
    requires resolved.nfsServer == filled.nfsServer ||
      (Looked(filled.nfsServer) && ServerReady(cfg, checked, filled.nfsServer.value) &&
       resolved.nfsServer.value == filled.nfsServer.value.(url := resolved.nfsServer.value.url))
    ensures PhaseSeen(cfg, LastLook(seen, checked, filled, resolved), spec) == PhaseSeen(cfg, seen, resolved)
  {
  }

  /** From the look at the server to the end of the reconcile. */
  lemma WrittenSinceChecked(cfg: Config, checked: World, seen: Sight, end: World, filled: VolumeSpec,
                            resolved: VolumeSpec)
    requires checked.spec.nfsServer.Some? && FilledFrom(checked.spec, filled) && resolved.nfsServer.Some?
    requires resolved == filled.(nfsServer := resolved.nfsServer)
    requires resolved.nfsServer == filled.nfsServer ||
      (Looked(filled.nfsServer) && ServerReady(cfg, checked, filled.nfsServer.value) &&
       resolved.nfsServer.value == filled.nfsServer.value.(url := resolved.nfsServer.value.url))
    requires end.spec == checked.spec && Later(cfg, end.spec.referenceValue, checked, seen.nfs)
    requires InOrder(cfg, end.spec.referenceValue, seen, end)
    requires end.status == checked.status || end.status.phase == PhaseSeen(cfg, seen, resolved)
    ensures WrittenFrom(cfg, checked, LastLook(seen, checked, filled, resolved), end)
    ensures ResourcesKept(cfg, end.spec.referenceValue, checked, end)
  {
    var reference := end.spec.referenceValue;
    SameSight(cfg, seen, checked, filled, resolved, end.spec);
    LaterComposes(cfg, reference, checked, seen.nfs, seen.claim);
    LaterComposes(cfg, reference, checked, seen.claim, seen.replicas);
    LaterComposes(cfg, reference, checked, seen.replicas, end);
  }

  /** Generating a server touches no resource and no status, however far it gets. */
  lemma GenerationKeeps(cfg: Config, reference: string, before: World, generated: VolumeSpec, after: World)
    requires generated.nfsServer.Some?
    requires var stored := StoreSpec(cfg, before, generated).0;
      after == before || Drifted(stored, after) || Drifted(WithServer(cfg, stored, generated.nfsServer.value), after)
    ensures after.status == before.status && ResourcesKept(cfg, reference, before, after)
  {
    var stored := StoreSpec(cfg, before, generated).0;
    var created := WithServer(cfg, stored, generated.nfsServer.value);
    if Drifted(stored, after) {
      DriftKeepsResources(cfg, reference, stored, after);
    } else if Drifted(created, after) {
      DriftKeepsResources(cfg, reference, created, after);
    }
  }

  /** Nor does the write of a new reference. */
  lemma ReferenceKeeps(cfg: Config, reference: string, before: World, spec: VolumeSpec, after: World)
    requires after == before || after == StoreSpec(cfg, before, spec).0
    ensures after.status == before.status && ResourcesKept(cfg, reference, before, after)
  {
  }

  lemma VolumeStep(cfg: Config, spec: VolumeSpec, before: World, after: World, ok: bool)
    requires spec.nfsServer.Some? && spec.storage.Some?
    requires after == if ok then WithVolume(cfg, before, spec).0 else before
    ensures ResourcesKept(cfg, spec.referenceValue, before, after)
    ensures after == before.(volumes := after.volumes, writes := after.writes)
  {
  }

  lemma ClaimStep(cfg: Config, spec: VolumeSpec, before: World, after: World, ok: bool)
    requires spec.storage.Some? && Drifted(if ok then WithClaim(cfg, before, spec).0 else before, after)
    ensures ResourcesKept(cfg, spec.referenceValue, before, after)
    ensures after == before.(servers := after.servers, claims := after.claims, replicaSets := after.replicaSets,
                             writes := after.writes)
    ensures after.servers.Keys == before.servers.Keys
  {
  }

  /** However far the replacement of the ReplicaSet gets, only the own one with a wrong port goes. */
  lemma ReplicaSetStep(cfg: Config, spec: VolumeSpec, before: World, after: World, ok: bool)
    requires var key := (cfg.Namespace(), spec.referenceValue);
      || (ok && Drifted(WithReplicaSet(cfg, before, spec), after))
      || (!ok && Drifted(before, after))
      || (!ok && key in before.replicaSets && !PortOk(before.replicaSets[key].port)
          && Drifted(before.(replicaSets := before.replicaSets - {key}, writes := before.writes + 1), after))
    ensures ResourcesKept(cfg, spec.referenceValue, before, after)
    ensures after == before.(servers := after.servers, claims := after.claims, replicaSets := after.replicaSets,
                             writes := after.writes)
    ensures after.servers.Keys == before.servers.Keys
    ensures ok ==> var key := (cfg.Namespace(), spec.referenceValue);
      key in after.replicaSets && PortOk(after.replicaSets[key].port)
  {
  }

  lemma ServiceStep(cfg: Config, spec: VolumeSpec, before: World, after: World, ok: bool)
    requires var key := (cfg.Namespace(), spec.referenceValue);
      || (ok && after == WithService(cfg, before, spec))
      || (!ok && after == before)
      || (!ok && key in before.services && !PortOk(before.services[key])
          && after == before.(services := before.services - {key}, writes := before.writes + 1))
    ensures ResourcesKept(cfg, spec.referenceValue, before, after)
    ensures after == before.(services := after.services, writes := after.writes)
    ensures ok ==> ServiceMade(cfg, after, spec)
  {
  }

  class Controller {
    const cfg: Config
    /** No call fails, and nobody else acts during a reconcile. */
    const quiet: bool
    /** What the API server stores. */
    var store: World
    // The resourceVersion of the volume object.
    var version: nat
    ghost var statusReads: nat
    ghost var statusWrites: nat
    // Status updates that another writer overtook, and those that failed for another reason.
    ghost var overtaken: nat
    ghost var statusFaults: nat

    constructor (cfg: Config, quiet: bool, w: World)
      ensures this.cfg == cfg && this.quiet == quiet && store == w
    {
      this.cfg, this.quiet, store := cfg, quiet, w;
      version, statusReads, statusWrites, overtaken, statusFaults := 0, 0, 0, 0, 0;
    }

    // ---------- single calls ----------

    /** Readiness changes, and other writers touch parts of the volume object that are not modelled. */
    method OthersAct()
      modifies this`store, this`version
      ensures Drifted(old(store), store)
      ensures quiet ==> store == old(store) && version == old(version)
    {
      if quiet {
        return;
      }
      var s: map<Key, bool> := *;
      var c: map<Key, bool> := *;
      var r: map<Key, ReplicaSet> := *;
      version := *;
      if s.Keys == store.servers.Keys && c.Keys == store.claims.Keys && r.Keys == store.replicaSets.Keys &&
         forall k | k in r.Keys :: SameButReady(store.replicaSets[k], r[k]) {
        store := store.(servers := s, claims := c, replicaSets := r);
      }
    }

    method Fails() returns (failed: bool)
      ensures quiet ==> !failed
    {
      failed := *;
      failed := failed && !quiet;
    }

    method Read<K(==), V>(m: map<K, V>, key: K) returns (a: Answer<V>)
      ensures a.Found? ==> key in m && a.value == m[key]
      ensures a.NotFound? ==> key !in m
      ensures quiet ==> !a.Failed?
    {
      var failed := Fails();
      return if failed then Failed else if key in m then Found(m[key]) else NotFound;
    }

    /** Stores the spec and the finalizers of the volume, if the validating webhook lets it. */
    method UpdateVolume(newSpec: VolumeSpec, newFinalizers: seq<string>) returns (ok: bool)
      modifies this`store, this`version
      ensures ok ==> UpdateAccepted(old(store).spec, newSpec, cfg.parse)
      ensures store == if ok then old(store).(spec := newSpec, finalizers := newFinalizers,
                                              writes := old(store).writes + 1)
                       else old(store)
      ensures quiet ==> (ok <==> UpdateAccepted(old(store).spec, newSpec, cfg.parse))
    {
      var failed := Fails();
      if failed {
        return false;
      }
      var errs := ValidateVolumeObjectUpdate(store.spec, newSpec, cfg.parse);
      if errs != [] {
        return false;
      }
      store := store.(spec := newSpec, finalizers := newFinalizers, writes := store.writes + 1);
      version := version + 1;
      return true;
    }

    // ---------- finalizer and server ----------

    method EnsureControllerNamespace() returns (ok: bool)
      modifies this`store
      ensures store == WithNamespace(old(store)) || (!ok && store == old(store))
      ensures quiet ==> ok
    {
      var failed := Fails();
      if failed {
        return false;
      }
      if store.hasNamespace {
        return true;
      }
      failed := Fails();
      if failed {
        return false;
      }
      store := store.(hasNamespace := true, writes := store.writes + 1);
      return true;
    }

    method EnsureFinalizer() returns (shouldContinue: bool)
      modifies this`store, this`version
      ensures store == VolumeReconcile.WithFinalizer(cfg, old(store)).0 || (!shouldContinue && store == old(store))
      ensures shouldContinue ==> cfg.finalizer in store.finalizers && store.spec == old(store).spec
      ensures quiet ==> (store, shouldContinue) == VolumeReconcile.WithFinalizer(cfg, old(store))
    {
      if cfg.finalizer in store.finalizers {
        return true;
      }
      shouldContinue := UpdateVolume(store.spec, store.finalizers + [cfg.finalizer]);
    }

    /** A missing managed server is created unready; an external one never, whatever fails. */
    method CreateAndOwnNfsServer(server: NfsServerSpec) returns (ok: bool)
      modifies this`store, this`version
      ensures Drifted(if ok then WithServer(cfg, old(store), server) else old(store), store)
      ensures IsExternal(Some(server)) ==> ok && store == old(store)
      ensures quiet ==> ok && store == WithServer(cfg, old(store), server)
    {
      if IsExternal(Some(server)) {
        return true;
      }
      var key := (cfg.Namespace(), server.name);
      OthersAct();
      var existing := Read(store.servers, key);
      if existing.Found? {
        return true;
      }
      if existing.Failed? {
        return false;
      }
      var failed := Fails();
      if failed {
        return false;
      }
      store := store.(servers := store.servers[key := false], writes := store.writes + 1);
      return true;
    }

    /**
     Stores the generated spec first, then creates the server; `suffix` is the random part. A failure
     leaves nothing done, or the spec stored and its server not created.
     */
    method GenerateAndCreateNfsServer(v: VolumeObject, suffix: string) returns (outcome: Outcome)
      modifies this, v`spec
      ensures var before, generated := old(store), Generated(old(v.spec), suffix, cfg.Namespace());
        var stored := StoreSpec(cfg, before, generated).0;
        match outcome
        case Failure =>
          || store == before
          || (UpdateAccepted(before.spec, generated, cfg.parse) && Drifted(stored, store))
        case Requeue(seconds) =>
          && seconds == 2 && UpdateAccepted(before.spec, generated, cfg.parse)
          && Drifted(WithServer(cfg, stored, generated.nfsServer.value), store)
        case Done => false
      ensures store.servers.Keys != old(store).servers.Keys ==>
        store.spec == Generated(old(v.spec), suffix, cfg.Namespace())
      ensures quiet ==> (store, outcome) == WithGenerated(cfg, old(store), old(v.spec), suffix)
    {
      v.GenerateNfsServer(suffix, cfg.Namespace());
      var ok := UpdateVolume(v.spec, store.finalizers);
      if !ok {
        return Failure;
      }
      ok := CreateAndOwnNfsServer(v.spec.nfsServer.value);
      if !ok {
        return Failure;
      }
      return Requeue(2);
    }

    method CheckNfsServerStatus(v: VolumeObject) returns (ok: bool, ready: bool, phase: string, message: string)
      requires v.spec.nfsServer.Some?
      modifies this`store, this`version
      ensures Drifted(old(store), store)
      ensures ok ==> (ready <==> ServerReady(cfg, store, v.spec.nfsServer.value))
      ensures ok ==> phase == if ready then "" else "Pending"
      ensures quiet ==> ok && store == old(store)
    {
      var server := v.spec.nfsServer.value;
      if IsExternal(Some(server)) {
        return true, true, "", "External NFS server configured";
      }
      var namespace := cfg.Namespace();
      if server.namespace != "" {
        namespace := server.namespace;
      }
      OthersAct();
      var found := Read(store.servers, (namespace, server.name));
      match found {
        case Failed => return false, false, "Error", "Failed to get NfsServer";
        case NotFound => return true, false, "Pending", "NfsServer not found, waiting for creation";
        case Found(isReady) =>
          if !isReady {
            return true, false, "Pending", "NfsServer exists but is not ready yet";
          }
          return true, true, "", "NfsServer is ready";
      }
    }

    predicate Holds(v: VolumeObject)
      reads this, v
    {
      v.kind == cfg.kind && v.namespace == cfg.volumeNamespace && v.phase == store.status.phase
    }

    /** Nothing to report when the reconcile can go on; the new status stays in memory. */
    method ReconcileNfsServer(v: VolumeObject, generateNfsServer: bool) returns (outcome: Option<Outcome>)
      requires Holds(v) && v.address == store.status.address
      modifies this`store, this`version, v
      ensures Drifted(old(store), store)
      ensures generateNfsServer ==> outcome == Some(Failure) && store == old(store)
      ensures outcome.None? ==>
        && Holds(v) && (v.address, v.spec) == Resolved(cfg, store, old(v.spec))
        && (Looked(old(v.spec).nfsServer) ==> ServerReady(cfg, store, old(v.spec).nfsServer.value))
      ensures outcome.Some? && !generateNfsServer ==>
        Looked(old(v.spec).nfsServer) && outcome.value in {Failure, Requeue(5)}
      ensures outcome == Some(Requeue(5)) ==>
        !generateNfsServer && !ServerReady(cfg, store, old(v.spec).nfsServer.value)
      ensures quiet ==> store == old(store) && (outcome == Some(Failure) ==> generateNfsServer)
    {
      if generateNfsServer {
        return Some(Failure);
      }
      if v.spec.nfsServer.None? || IsExternal(v.spec.nfsServer) {
        return None;
      }
      if v.spec.nfsServer.value.name != "" {
        var ok, ready, phase, message := CheckNfsServerStatus(v);
        if !ok {
          return Some(Failure);
        }
        var _ := v.UpdateVolumeStatus(ready, phase, message);
        if !ready {
          return Some(Requeue(5));
        }
      }
      return None;
    }

    // ---------- resources ----------

    method ReconcilePersistentVolume(newSpec: VolumeSpec) returns (ok: bool)
      requires newSpec.nfsServer.Some? && newSpec.storage.Some?
      modifies this`store
      ensures store == if ok then WithVolume(cfg, old(store), newSpec).0 else old(store)
      ensures ok ==> VolumeMade(store, newSpec)
      ensures quiet ==> (store, ok) == WithVolume(cfg, old(store), newSpec)
    {
      var name := "pv-" + newSpec.referenceValue;
      var existing := Read(store.volumes, name);
      if existing.Found? {
        return true;
      }
      if !cfg.isQuantity(newSpec.storage.value.capacity) {
        return false;
      }
      existing := Read(store.volumes, name);
      if existing.Found? {
        return true;
      }
      var server := newSpec.nfsServer.value;
      var address := server.url;
      if !IsExternal(Some(server)) {
        address := ManagedAddress(cfg.kind, cfg.volumeNamespace, server);
        if address == "" {
          return false;
        }
      }
      var failed := Fails();
      if failed || name in store.volumes {
        return false;
      }
      store := store.(volumes := store.volumes[name := address], writes := store.writes + 1);
      return true;
    }

    method ReconcilePersistentVolumeClaim(newSpec: VolumeSpec) returns (ok: bool)
      requires newSpec.storage.Some?
      modifies this`store, this`version
      ensures Drifted(if ok then WithClaim(cfg, old(store), newSpec).0 else old(store), store)
      ensures ok ==> (cfg.Namespace(), newSpec.referenceValue) in store.claims
      ensures quiet ==> (store, ok) == WithClaim(cfg, old(store), newSpec)
    {
      var key := (cfg.Namespace(), newSpec.referenceValue);
      OthersAct();
      var existing := Read(store.claims, key);
      if existing.Found? {
        return true;
      }
      if !cfg.isQuantity(newSpec.storage.value.capacity) {
        return false;
      }
      var failed := Fails();
      if failed || key in store.claims {
        return false;
      }
      store := store.(claims := store.claims[key := false], writes := store.writes + 1);
      return true;
    }

    /** Between the deletion of a ReplicaSet with a wrong port and the new one there may be none. */
    method ReconcileReplicaSet(newSpec: VolumeSpec) returns (ok: bool)
      modifies this`store, this`version
      ensures var before, key := old(store), (cfg.Namespace(), newSpec.referenceValue);
        || (ok && Drifted(WithReplicaSet(cfg, before, newSpec), store))
        || (!ok && Drifted(before, store))
        || (!ok && key in before.replicaSets && !PortOk(before.replicaSets[key].port)
            && Drifted(before.(replicaSets := before.replicaSets - {key}, writes := before.writes + 1), store))
      ensures quiet ==> ok && store == WithReplicaSet(cfg, old(store), newSpec)
    {
      var key := (cfg.Namespace(), newSpec.referenceValue);
      OthersAct();
      ghost var was := store.replicaSets;
      var existing := Read(store.replicaSets, key);
      if existing.Found? {
        var needsUpdate := false;
        if existing.value.port.Some? {
          if existing.value.port.value != PORT {
            needsUpdate := true;
          }
        }
        if !needsUpdate {
          return true;
        }
        var failed := Fails();
        if failed {
          return false;
        }
        store := store.(replicaSets := store.replicaSets - {key}, writes := store.writes + 1);
      }
      var failed := Fails();
      if failed || key in store.replicaSets {
        return false;
      }
      assert store.replicaSets[key := NEW_REPLICA_SET] == was[key := NEW_REPLICA_SET];
      store := store.(replicaSets := store.replicaSets[key := NEW_REPLICA_SET], writes := store.writes + 1);
      return true;
    }

    method ReconcileService(newSpec: VolumeSpec) returns (ok: bool)
      modifies this`store
      ensures var before, key := old(store), (cfg.Namespace(), newSpec.referenceValue);
        || (ok && store == WithService(cfg, before, newSpec))
        || (!ok && store == before)
        || (!ok && key in before.services && !PortOk(before.services[key])
            && store == before.(services := before.services - {key}, writes := before.writes + 1))
      ensures quiet ==> ok && store == WithService(cfg, old(store), newSpec)
    {
      var key := (cfg.Namespace(), newSpec.referenceValue);
      ghost var was := store.services;
      var existing := Read(store.services, key);
      if existing.Found? {
        var needsUpdate := false;
        if existing.value.Some? {
          if existing.value.value != PORT {
            needsUpdate := true;
          }
        }
        if !needsUpdate {
          return true;
        }
        var failed := Fails();
        if failed {
          return false;
        }
        store := store.(services := store.services - {key}, writes := store.writes + 1);
      }
      var failed := Fails();
      if failed || key in store.services {
        return false;
      }
      assert store.services[key := Some(PORT)] == was[key := Some(PORT)];
      store := store.(services := store.services[key := Some(PORT)], writes := store.writes + 1);
      return true;
    }

    /** Everything but the volume's own resources and readiness is as before. */
    ghost predicate OnlyResources(reference: string, before: World)
      reads this
    {
      && ResourcesKept(cfg, reference, before, store)
      && store == before.(servers := store.servers, volumes := store.volumes, claims := store.claims,
                          replicaSets := store.replicaSets,
                            services := store.services, writes := store.writes)
      && store.servers.Keys == before.servers.Keys
    }

    method ReconcileStorage(newSpec: VolumeSpec) returns (ok: bool)
      requires newSpec.nfsServer.Some? && newSpec.storage.Some?
      modifies this`store, this`version
      ensures OnlyResources(newSpec.referenceValue, old(store))
      ensures ok ==> VolumeMade(store, newSpec) && (cfg.Namespace(), newSpec.referenceValue) in store.claims
      ensures quiet ==>
        var (w, volumeOk) := WithVolume(cfg, old(store), newSpec);
        (store, ok) == if volumeOk then WithClaim(cfg, w, newSpec) else (w, false)
    {
      ghost var before := store;
      ok := ReconcilePersistentVolume(newSpec);
      VolumeStep(cfg, newSpec, before, store, ok);
      if !ok {
        return false;
      }
      ghost var mid := store;
      ok := ReconcilePersistentVolumeClaim(newSpec);
      ClaimStep(cfg, newSpec, mid, store, ok);
      ResourcesKeptCompose(cfg, newSpec.referenceValue, before, mid, store);
    }

    method ReconcileSyncer(newSpec: VolumeSpec) returns (ok: bool)
      modifies this`store, this`version
      ensures OnlyResources(newSpec.referenceValue, old(store))
      ensures ok ==> ServiceMade(cfg, store, newSpec)
      ensures ok ==> (cfg.Namespace(), newSpec.referenceValue) in store.replicaSets
      ensures ok ==> PortOk(store.replicaSets[(cfg.Namespace(), newSpec.referenceValue)].port)
      ensures quiet ==> ok && store == WithService(cfg, WithReplicaSet(cfg, old(store), newSpec), newSpec)
    {
      ghost var before := store;
      ok := ReconcileReplicaSet(newSpec);
      ReplicaSetStep(cfg, newSpec, before, store, ok);
      if !ok {
        return false;
      }
      ghost var mid := store;
      ok := ReconcileService(newSpec);
      ServiceStep(cfg, newSpec, mid, store, ok);
      ResourcesKeptCompose(cfg, newSpec.referenceValue, before, mid, store);
    }

    /** All four resources are there on success; what was there before is kept in any case. */
    method ReconcileRequiredResources(newSpec: VolumeSpec) returns (ok: bool)
      requires newSpec.nfsServer.Some? && newSpec.storage.Some?
      modifies this`store, this`version
      ensures newSpec.referenceValue == "" ==> !ok && store == old(store)
      ensures OnlyResources(newSpec.referenceValue, old(store))
      ensures ok ==>
        var key := (cfg.Namespace(), newSpec.referenceValue);
        && VolumeMade(store, newSpec) && ServiceMade(cfg, store, newSpec)
        && key in store.claims && key in store.replicaSets && PortOk(store.replicaSets[key].port)
      ensures quiet && newSpec.referenceValue != "" ==> (store, ok) == WithResources(cfg, old(store), newSpec)
    {
      if newSpec.referenceValue == "" {
        return false;
      }
      ghost var before := store;
      ok := ReconcileStorage(newSpec);
      if !ok {
        return false;
      }
      ghost var mid := store;
      ok := ReconcileSyncer(newSpec);
      ResourcesKeptCompose(cfg, newSpec.referenceValue, before, mid, store);
    }

    // ---------- readiness ----------

    method IsPVCReady(newSpec: VolumeSpec) returns (ok: bool, ready: bool)
      modifies this`store, this`version
      ensures Drifted(old(store), store)
      ensures ok ==> (ready <==> ClaimBound(cfg, store, newSpec))
      ensures quiet ==> ok && store == old(store)
    {
      OthersAct();
      var found := Read(store.claims, (cfg.Namespace(), newSpec.referenceValue));
      match found {
        case Failed => return false, false;
        case NotFound => return true, false;
        case Found(bound) => return true, bound;
      }
    }

    method IsReplicaSetReady(newSpec: VolumeSpec) returns (ok: bool, ready: bool)
      modifies this`store, this`version
      ensures Drifted(old(store), store)
      ensures ok ==> (ready <==> ReplicasReady(cfg, store, newSpec))
      ensures quiet ==> ok && store == old(store)
    {
      OthersAct();
      var found := Read(store.replicaSets, (cfg.Namespace(), newSpec.referenceValue));
      match found {
        case Failed => return false, false;
        case NotFound => return true, false;
        case Found(rs) =>
          if rs.desired.None? {
            return true, false;
          }
          return true, rs.ready == rs.desired.value;
      }
    }

    /** The status to write: phase, message, and the address unless there is one already. */
    method AppliedStatus(newSpec: VolumeSpec, phase: string) returns (latest: Status)
      requires newSpec.nfsServer.Some?
      ensures latest == NewStatus(cfg, store.status, newSpec, phase)
    {
      latest := store.status.(phase := phase);
      match phase {
        case "Ready" => latest := latest.(message := "Volume is ready for use");
        case "Preparing" => latest := latest.(message := "NFS server is ready, waiting for ReplicaSet to be ready");
        case _ => latest := latest.(message := "Waiting for NFS server to be ready");
      }
      if phase != "Pending" && latest.address == "" {
        if IsExternal(newSpec.nfsServer) {
          if newSpec.nfsServer.value.url != "" {
            latest := latest.(address := newSpec.nfsServer.value.url);
          }
        } else if newSpec.nfsServer.value.name != "" {
          var managed := ManagedAddress(cfg.kind, cfg.volumeNamespace, newSpec.nfsServer.value);
          if managed != "" {
            latest := latest.(address := managed);
          }
        }
      }
    }

    /** One read, and one write that conflicts when another writer got in between. */
    method TryStatusUpdate(newSpec: VolumeSpec, phase: string) returns (ok: bool, conflict: bool)
      requires newSpec.nfsServer.Some?
      modifies this`store, this`version, this`statusReads, this`statusWrites, this`overtaken, this`statusFaults
      ensures var before := old(store);
        Drifted(if ok then before.(status := NewStatus(cfg, before.status, newSpec, phase), writes := before.writes + 1)
                else before, store)
      ensures statusReads == old(statusReads) + 1 && statusWrites <= old(statusWrites) + 1
      ensures !ok || !conflict
      ensures overtaken == old(overtaken) + if conflict then 1 else 0
      ensures statusFaults == old(statusFaults) + if !ok && !conflict then 1 else 0
      ensures quiet ==> ok
      ensures quiet ==>
        store == old(store).(status := NewStatus(cfg, old(store).status, newSpec, phase),
                             writes := old(store).writes + 1)
    {
      statusReads := statusReads + 1;
      var failed := Fails();
      if failed {
        statusFaults := statusFaults + 1;
        return false, false;
      }
      var read := version;
      var latest := AppliedStatus(newSpec, phase);
      OthersAct();
      statusWrites := statusWrites + 1;
      if version != read {
        overtaken := overtaken + 1;
        return false, true;
      }
      failed := Fails();
      if failed {
        statusFaults := statusFaults + 1;
        return false, false;
      }
      store, version := store.(status := latest, writes := store.writes + 1), version + 1;
      return true, false;
    }

    /**
     Retries while other writers get in between the read and the write: at most four reads and four
     writes, and only the last write is applied. A failure leaves the stored status alone; without a
     fault it takes four writers who each got in.
     */
    method UpdateStatusWithRetry(newSpec: VolumeSpec, phase: string) returns (ok: bool)
      requires newSpec.nfsServer.Some?
      modifies this`store, this`version, this`statusReads, this`statusWrites, this`overtaken, this`statusFaults
      ensures var before := old(store);
        Drifted(if ok then before.(status := NewStatus(cfg, before.status, newSpec, phase), writes := before.writes + 1)
                else before, store)
      ensures statusReads <= old(statusReads) + 4 && statusWrites <= old(statusWrites) + 4
      ensures !ok ==> statusFaults > old(statusFaults) || overtaken == old(overtaken) + 4
      ensures quiet ==> ok
      ensures quiet ==>
        store == old(store).(status := NewStatus(cfg, old(store).status, newSpec, phase),
                             writes := old(store).writes + 1)
    {
      var maxRetries := 3;
      var retryCount := 0;
      ghost var before := store;
      while true
        invariant 0 <= retryCount <= maxRetries
        invariant Drifted(before, store) && (quiet ==> retryCount == 0 && store == before)
        invariant statusReads == old(statusReads) + retryCount && statusWrites <= old(statusWrites) + retryCount
        invariant overtaken == old(overtaken) + retryCount && statusFaults == old(statusFaults)
        decreases maxRetries - retryCount
      {
        ghost var met := store;
        var conflict;
        ok, conflict := TryStatusUpdate(newSpec, phase);
        if ok {
          DriftBesideStatus(before, met, store, NewStatus(cfg, before.status, newSpec, phase), before.writes + 1);
          return true;
        }
        DriftsCompose(before, met, store);
        if !conflict || retryCount >= maxRetries {
          return false;
        }
        retryCount := retryCount + 1;
      }
    }

    /** Writes the status, then reads it back into memory; that read may fail after the write. */
    method UpdateReadinessStatus(v: VolumeObject, phase: string) returns (ok: bool)
      requires v.spec.nfsServer.Some? && Holds(v)
      modifies this`store, this`version, this`statusReads, this`statusWrites, this`overtaken, this`statusFaults
      modifies v`phase, v`message
      ensures var before := old(store);
        var written := before.(status := NewStatus(cfg, before.status, v.spec, phase), writes := before.writes + 1);
        Drifted(written, store) || (!ok && Drifted(before, store))
      ensures ok ==> Holds(v)
      ensures quiet ==> ok
      ensures quiet ==>
        store == old(store).(status := NewStatus(cfg, old(store).status, v.spec, phase),
                             writes := old(store).writes + 1)
    {
      ok := UpdateStatusWithRetry(v.spec, phase);
      if !ok {
        return false;
      }
      var failed := Fails();
      if failed {
        return false;
      }
      v.phase, v.message := store.status.phase, store.status.message;
    }

    /** The status is written only when it differs from what is expected. */
    method StoreExpectedStatus(v: VolumeObject, expected: string) returns (ok: bool)
      requires v.spec.nfsServer.Some? && Holds(v)
      modifies this`store, this`version, this`statusReads, this`statusWrites, this`overtaken, this`statusFaults
      modifies v`phase, v`message
      ensures ok ==> store.status.phase == expected && Holds(v)
      ensures store.status == old(store).status || store.status.phase == expected
      ensures Drifted(old(store).(status := store.status, writes := store.writes), store)
      ensures quiet ==> ok
      ensures quiet ==>
        if ShouldUpdate(cfg, old(store).status.phase, v.address, v.spec, expected)
        then store == old(store).(status := NewStatus(cfg, old(store).status, v.spec, expected),
                                  writes := old(store).writes + 1)
        else store == old(store)
    {
      if ShouldUpdate(cfg, v.phase, v.address, v.spec, expected) {
        ok := UpdateReadinessStatus(v, expected);
      } else {
        ok := true;
      }
    }

    /** Looks at server, claim and ReplicaSet one after the other, as far as it needs to. */
    method Look(v: VolumeObject) returns (ok: bool, expected: string, ghost seen: Sight)
      requires v.spec.nfsServer.Some?
      modifies this`store, this`version
      ensures Drifted(old(store), seen.nfs) && Drifted(seen.nfs, seen.claim)
      ensures Drifted(seen.claim, seen.replicas) && seen.replicas == store
      ensures ok ==> expected == PhaseSeen(cfg, seen, v.spec)
      ensures quiet ==> ok && store == old(store) && expected == PhaseNow(cfg, store, v.spec)
    {
      var nfsReady, phase, message;
      ok, nfsReady, phase, message := CheckNfsServerStatus(v);
      seen := Sight(store, store, store);
      if !ok {
        return false, "", seen;
      }
      if !nfsReady {
        return true, DeterminePhase(false, false), seen;
      }
      var pvcReady;
      ok, pvcReady := IsPVCReady(v.spec);
      seen := seen.(claim := store, replicas := store);
      if !ok {
        return false, "", seen;
      }
      if !pvcReady {
        return true, DeterminePhase(nfsReady, false), seen;
      }
      var replicaSetReady;
      ok, replicaSetReady := IsReplicaSetReady(v.spec);
      seen := seen.(replicas := store);
      return ok, DeterminePhase(nfsReady, replicaSetReady), seen;
    }

    /**
     On success the stored phase is the one that the three looks call for, each at its own moment; on
     failure it is that one, or the status is as before.
     */
    method CheckResourceReadiness(v: VolumeObject) returns (ok: bool, ghost seen: Sight)
      requires v.spec.nfsServer.Some? && Holds(v)
      modifies this`store, this`version, this`statusReads, this`statusWrites, this`overtaken, this`statusFaults
      modifies v`phase, v`message
      ensures v.spec.referenceValue == "" ==> ok && store == old(store)
      ensures Drifted(old(store), seen.nfs) && Drifted(seen.nfs, seen.claim) && Drifted(seen.claim, seen.replicas)
      ensures Drifted(seen.replicas.(status := store.status, writes := store.writes), store)
      ensures ok ==> Holds(v)
      ensures ok && v.spec.referenceValue != "" ==> store.status.phase == PhaseSeen(cfg, seen, v.spec)
      ensures store.status == old(store).status || store.status.phase == PhaseSeen(cfg, seen, v.spec)
      ensures quiet ==> ok
      ensures quiet && v.spec.referenceValue != "" ==> store == WithPhase(cfg, old(store), v.spec, v.address)
    {
      if v.spec.referenceValue == "" {
        return true, Sight(store, store, store);
      }
      var expected;
      ok, expected, seen := Look(v);
      if !ok {
        return false, seen;
      }
      ok := StoreExpectedStatus(v, expected);
    }

    // ---------- the whole reconcile ----------

    /** The resources and the phase of a volume that has a reference. */
    method CompleteResources(v: VolumeObject) returns (outcome: Outcome, ghost seen: Sight)
      requires v.spec.nfsServer.Some? && v.spec.storage.Some? && Holds(v) && v.spec.referenceValue != ""
      modifies this, v
      ensures store.spec == old(store).spec && store.finalizers == old(store).finalizers &&
        store.hasNamespace == old(store).hasNamespace
      ensures Later(cfg, old(v.spec).referenceValue, old(store), seen.nfs)
      ensures InOrder(cfg, old(v.spec).referenceValue, seen, store)
      ensures store.status == old(store).status || store.status.phase == PhaseSeen(cfg, seen, old(v.spec))
      ensures outcome.Done? ==> store.status.phase == "Ready"
      ensures outcome.Requeue? ==> AsksAgain(outcome)
      ensures quiet ==> (store, outcome) == Complete(cfg, old(store), old(v.spec), old(v.address), "")
    {
      ghost var reference := v.spec.referenceValue;
      var ok := ReconcileRequiredResources(v.spec);
      ghost var made := store;
      if !ok {
        DriftIsLater(cfg, reference, made, made);
        return Failure, Sight(made, made, made);
      }
      ok, seen := CheckResourceReadiness(v);
      DriftIsLater(cfg, reference, made, seen.nfs);
      LaterComposes(cfg, reference, old(store), made, seen.nfs);
      DriftIsLater(cfg, reference, seen.nfs, seen.claim);
      DriftIsLater(cfg, reference, seen.claim, seen.replicas);
      DriftIsLater(cfg, reference, seen.replicas.(status := store.status, writes := store.writes), store);
      if !ok {
        return Failure, seen;
      }
      return if v.phase != "Ready" then Requeue(30) else Done, seen;
    }

    /** From a ready server on: reference, resources, phase. */
    method CompleteReconcile(v: VolumeObject, suffix: string) returns (outcome: Outcome, ghost seen: Sight)
      requires v.spec.nfsServer.Some? && v.spec.storage.Some? && Holds(v)
      modifies this, v
      ensures store.servers.Keys == old(store).servers.Keys
      ensures old(v.spec).referenceValue == "" ==>
        store == old(store) || store == StoreSpec(cfg, old(store), WithReference(old(v.spec), suffix)).0
      ensures old(v.spec).referenceValue != "" ==>
        && store.spec == old(store).spec && Later(cfg, old(v.spec).referenceValue, old(store), seen.nfs)
        && InOrder(cfg, old(v.spec).referenceValue, seen, store)
        && (store.status == old(store).status || store.status.phase == PhaseSeen(cfg, seen, old(v.spec)))
      ensures outcome.Done? ==> store.status.phase == "Ready"
      ensures outcome.Requeue? ==> AsksAgain(outcome)
      ensures quiet ==> (store, outcome) == Complete(cfg, old(store), old(v.spec), old(v.address), suffix)
    {
      if v.spec.referenceValue == "" {
        v.spec := v.spec.(referenceValue := "sv-" + suffix);
        var ok := UpdateVolume(v.spec, store.finalizers);
        return if ok then Requeue(1) else Failure, Sight(store, store, store);
      }
      outcome, seen := CompleteResources(v);
      LaterComposes(cfg, old(v.spec).referenceValue, old(store), seen.nfs, seen.claim);
      LaterComposes(cfg, old(v.spec).referenceValue, old(store), seen.claim, seen.replicas);
      LaterComposes(cfg, old(v.spec).referenceValue, old(store), seen.replicas, store);
    }

    /** With the server found ready, or with none to look at; `filled` is the spec before that look. */
    method ContinueWithServer(v: VolumeObject, suffix: string, ghost filled: VolumeSpec)
      returns (outcome: Outcome, ghost seen: Sight)
      requires store.spec.nfsServer.Some? && FilledFrom(store.spec, filled) && Holds(v)
      requires (v.address, v.spec) == Resolved(cfg, store, filled)
      requires Looked(filled.nfsServer) ==> ServerReady(cfg, store, filled.nfsServer.value)
      modifies this, v
      ensures WrittenFrom(cfg, old(store), seen, store)
      ensures store.servers.Keys == old(store).servers.Keys
      ensures ResourcesKept(cfg, old(store).spec.referenceValue, old(store), store)
      ensures outcome.Done? ==> store.status.phase == "Ready"
      ensures outcome.Requeue? ==> AsksAgain(outcome)
      ensures quiet ==> (store, outcome) == Complete(cfg, old(store), old(v.spec), old(v.address), suffix)
    {
      ghost var checked, resolved, reference := store, v.spec, store.spec.referenceValue;
      ResolvedServer(cfg, checked, filled);
      outcome, seen := CompleteReconcile(v, suffix);
      if reference != "" {
        WrittenSinceChecked(cfg, checked, seen, store, filled, resolved);
        seen := LastLook(seen, checked, filled, resolved);
      } else {
        ReferenceKeeps(cfg, reference, checked, WithReference(resolved, suffix), store);
      }
    }

    /**
     Everything after defaulting: generate a server, or go on with the one there is. Servers are
     created for a generated spec only, after it is stored.
     */
    method ReconcileNfsServerComplete(v: VolumeObject, generateNfsServer: bool, suffix: string)
      returns (outcome: Outcome, ghost seen: Sight)
      requires v.spec.storage.Some? && Holds(v) && v.address == store.status.address
      requires FilledFrom(store.spec, v.spec) && (generateNfsServer <==> store.spec.nfsServer.None?)
      modifies this, v
      ensures WrittenFrom(cfg, old(store), seen, store)
      ensures store.servers.Keys != old(store).servers.Keys ==>
        generateNfsServer && store.spec == Generated(old(v.spec), suffix, cfg.Namespace())
      ensures ResourcesKept(cfg, old(store).spec.referenceValue, old(store), store)
      ensures outcome.Done? ==> store.status.phase == "Ready"
      ensures outcome.Requeue? ==> AsksAgain(outcome)
      ensures quiet ==> (store, outcome) == AfterFill(cfg, old(store), old(v.spec), suffix)
    {
      ghost var before, reference := store, store.spec.referenceValue;
      seen := Sight(before, before, before);
      if generateNfsServer {
        ghost var generated := Generated(v.spec, suffix, cfg.Namespace());
        outcome := GenerateAndCreateNfsServer(v, suffix);
        GenerationKeeps(cfg, reference, before, generated, store);
        return;
      }
      ghost var filled := v.spec;
      var early := ReconcileNfsServer(v, false);
      ghost var checked := store;
      DriftKeepsResources(cfg, reference, before, checked);
      if early.Some? {
        return early.value, seen;
      }
      outcome, seen := ContinueWithServer(v, suffix, filled);
      ResourcesKeptCompose(cfg, reference, before, checked, store);
    }

    method Prepare() returns (ok: bool)
      modifies this`store, this`version
      ensures store == old(store).(hasNamespace := store.hasNamespace, finalizers := store.finalizers,
                                   writes := store.writes)
      ensures quiet ==> (store, ok) == VolumeReconcile.WithFinalizer(cfg, WithNamespace(old(store)))
    {
      ok := EnsureControllerNamespace();
      if !ok {
        return false;
      }
      ok := EnsureFinalizer();
    }

    /**
     One reconcile of a volume that is not being deleted. Whatever fails and whatever others do in
     between: it stores no phase but the one that its own looks at server, claim and ReplicaSet call
     for, creates a server for a generated spec only, and keeps all resources there are.
     */
    method ReconcileVolume(suffix: string) returns (outcome: Outcome, ghost seen: Sight)
      modifies this
      ensures WrittenFrom(cfg, old(store), seen, store)
      ensures store.servers.Keys != old(store).servers.Keys ==>
        old(store).spec.nfsServer.None? &&
          store.spec == Generated(Fill(old(store).spec, true, cfg.Namespace()).0, suffix, cfg.Namespace())
      ensures ResourcesKept(cfg, old(store).spec.referenceValue, old(store), store)
      ensures outcome.Done? ==> store.status.phase == "Ready"
      ensures outcome.Requeue? ==> AsksAgain(outcome)
      ensures quiet ==> (store, outcome) == Reconciled(cfg, old(store), suffix)
    {
      seen := Sight(store, store, store);
      var ok := Prepare();
      if !ok {
        return Failure, seen;
      }
      var v := new VolumeObject(cfg.kind, cfg.volumeNamespace, store.spec, store.status.phase, store.status.message,
                                store.status.address);
      var generateNfsServer := store.spec.nfsServer.None?;
      ok := v.FillAndValidateSpec(generateNfsServer, cfg.Namespace());
      if !ok {
        return Failure, seen;
      }
      FillCompletes(store.spec, generateNfsServer, cfg.Namespace());
      outcome, seen := ReconcileNfsServerComplete(v, generateNfsServer, suffix);
    }
  }

  // ---------- the phase over runs ----------

  /**
   A run alternates reconciles with whatever leaves the status of the volume alone. With a reconcile
   goes everything that was stored from its first look to its last.
   */
  datatype RunStep = Reconciling(seen: Sight, moments: seq<World>) | Elsewhere

  /** The moments begin with the first look, end with the last, and the look at the claim is among them. */
  ghost predicate Passes(seen: Sight, moments: seq<World>) {
    moments != [] && moments[0] == seen.nfs && moments[|moments| - 1] == seen.replicas && seen.claim in moments
  }

  ghost predicate StepOf(cfg: Config, step: RunStep, before: World, after: World) {
    match step
    case Reconciling(seen, moments) => WrittenFrom(cfg, before, seen, after) && Passes(seen, moments)
    case Elsewhere => after.status == before.status
  }

  ghost predicate IsRun(cfg: Config, worlds: seq<World>, steps: seq<RunStep>) {
    |worlds| == |steps| + 1 && forall i :: 0 <= i < |steps| ==> StepOf(cfg, steps[i], worlds[i], worlds[i + 1])
  }

  /** The reconcile saw the server ready, then the claim bound, then all wanted replicas ready. */
  ghost predicate SawAllReady(cfg: Config, step: RunStep, after: World) {
    && step.Reconciling? && InOrder(cfg, after.spec.referenceValue, step.seen, after)
    && NfsReady(cfg, step.seen.nfs, after.spec) && ClaimBound(cfg, step.seen.claim, after.spec)
    && ReplicasReady(cfg, step.seen.replicas, after.spec)
  }

  ghost predicate ReadyFrom(worlds: seq<World>, i: int, k: int)
    requires k < |worlds|
  {
    forall j :: 0 <= i <= j <= k ==> worlds[j].status.phase == "Ready"
  }

  /** The i-th step made the volume Ready, from its own looks, and it stayed so up to moment k. */
  ghost predicate MadeReady(cfg: Config, worlds: seq<World>, steps: seq<RunStep>, i: nat, k: nat) {
    && i < k <= |steps| && |worlds| == |steps| + 1 && worlds[i].status.phase != "Ready"
    && SawAllReady(cfg, steps[i], worlds[i + 1]) && ReadyFrom(worlds, i + 1, k)
  }

  /** A step after which the volume is Ready, and was not before, saw all three ready. */
  lemma ReadyIsMade(cfg: Config, worlds: seq<World>, steps: seq<RunStep>, i: nat)
    requires IsRun(cfg, worlds, steps) && i < |steps|
    requires worlds[i].status.phase != "Ready" && worlds[i + 1].status.phase == "Ready"
    ensures MadeReady(cfg, worlds, steps, i, i + 1)
  {
    assert StepOf(cfg, steps[i], worlds[i], worlds[i + 1]);
    assert SawAllReady(cfg, steps[i], worlds[i + 1]);
  }

  lemma MadeReadyStays(cfg: Config, worlds: seq<World>, steps: seq<RunStep>, i: nat, k: nat)
    requires k < |steps| && MadeReady(cfg, worlds, steps, i, k) && worlds[k + 1].status.phase == "Ready"
    ensures MadeReady(cfg, worlds, steps, i, k + 1)
  {
    assert ReadyFrom(worlds, i + 1, k + 1);
  }

  lemma StillReady(cfg: Config, worlds: seq<World>, steps: seq<RunStep>, j: nat, k: nat)
    requires j + 1 == k <= |steps| && |worlds| == |steps| + 1 && worlds[k].status.phase == "Ready"
    requires ReadyFrom(worlds, 0, j) || exists i: nat :: MadeReady(cfg, worlds, steps, i, j)
    ensures ReadyFrom(worlds, 0, k) || exists i: nat :: MadeReady(cfg, worlds, steps, i, k)
  {
    if !ReadyFrom(worlds, 0, j) {
      var i: nat :| MadeReady(cfg, worlds, steps, i, j);
      MadeReadyStays(cfg, worlds, steps, i, j);
    }
  }

  /**
   Over all runs, a volume that is Ready at some moment has been so from the start, or since a
   reconcile whose own three looks saw the server ready, the claim bound and all wanted replicas
   ready.
   */
  lemma {:induction false} ReadyWasSeen(cfg: Config, worlds: seq<World>, steps: seq<RunStep>, k: nat)
    requires IsRun(cfg, worlds, steps) && k <= |steps| && worlds[k].status.phase == "Ready"
    ensures ReadyFrom(worlds, 0, k) || exists i: nat :: MadeReady(cfg, worlds, steps, i, k)
  {
    if k == 0 {
      assert ReadyFrom(worlds, 0, 0);
    } else if worlds[k - 1].status.phase != "Ready" {
      ReadyIsMade(cfg, worlds, steps, k - 1);
    } else {
      ReadyWasSeen(cfg, worlds, steps, k - 1);
      StillReady(cfg, worlds, steps, k - 1, k);
    }
  }

  // ---------- when a volume that became Ready was ready at one moment ----------

  /** What may be lost while a reconcile looks: readiness of the server, the binding of the claim, replicas. */
  datatype Policy = Policy(losesServer: bool, losesClaim: bool, losesReplicas: bool)

  ghost predicate Allows(cfg: Config, p: Policy, spec: VolumeSpec, a: World, b: World) {
    && (NfsReady(cfg, a, spec) && !NfsReady(cfg, b, spec) ==> p.losesServer)
    && (ClaimBound(cfg, a, spec) && !ClaimBound(cfg, b, spec) ==> p.losesClaim)
    && (ReplicasReady(cfg, a, spec) && !ReplicasReady(cfg, b, spec) ==> p.losesReplicas)
  }

  ghost predicate Obeys(cfg: Config, p: Policy, spec: VolumeSpec, moments: seq<World>) {
    forall i :: 0 <= i < |moments| - 1 ==> Allows(cfg, p, spec, moments[i], moments[i + 1])
  }

  /** A run in which nothing is lost while a reconcile looks but what the policy lets go. */
  ghost predicate RunUnder(cfg: Config, p: Policy, worlds: seq<World>, steps: seq<RunStep>) {
    && IsRun(cfg, worlds, steps)
    && forall i :: 0 <= i < |steps| && steps[i].Reconciling? ==> Obeys(cfg, p, worlds[i + 1].spec, steps[i].moments)
  }

  ghost predicate BecomesReady(worlds: seq<World>, i: nat) {
    i + 1 < |worlds| && worlds[i].status.phase != "Ready" && worlds[i + 1].status.phase == "Ready"
  }

  /** At some moment from the first look to the last, server, claim and replicas were all ready. */
  ghost predicate HadMoment(cfg: Config, step: RunStep, spec: VolumeSpec) {
    step.Reconciling? && exists m :: m in step.moments && PhaseNow(cfg, m, spec) == "Ready"
  }

  ghost predicate EveryReadyHadMoment(cfg: Config, p: Policy) {
    forall worlds: seq<World>, steps: seq<RunStep>, i: nat ::
      RunUnder(cfg, p, worlds, steps) && BecomesReady(worlds, i) ==> HadMoment(cfg, steps[i], worlds[i + 1].spec)
  }

  lemma {:induction false} ServerStays(cfg: Config, p: Policy, spec: VolumeSpec, moments: seq<World>, i: nat)
    requires Obeys(cfg, p, spec, moments) && !p.losesServer && i < |moments| && NfsReady(cfg, moments[0], spec)
    ensures NfsReady(cfg, moments[i], spec)
  {
    if i > 0 {
      ServerStays(cfg, p, spec, moments, i - 1);
      assert Allows(cfg, p, spec, moments[i - 1], moments[i]);
    }
  }

  lemma {:induction false} ClaimStays(cfg: Config, p: Policy, spec: VolumeSpec, moments: seq<World>, c: nat, i: nat)
    requires Obeys(cfg, p, spec, moments) && !p.losesClaim && c <= i < |moments| && ClaimBound(cfg, moments[c], spec)
    ensures ClaimBound(cfg, moments[i], spec)
  {
    if i > c {
      ClaimStays(cfg, p, spec, moments, c, i - 1);
      assert Allows(cfg, p, spec, moments[i - 1], moments[i]);
    }
  }

  /** Where neither server nor claim is lost meanwhile, all three were ready at the last look. */
  lemma ReadyHeldAtLastLook(cfg: Config, p: Policy, worlds: seq<World>, steps: seq<RunStep>, i: nat)
    requires RunUnder(cfg, p, worlds, steps) && BecomesReady(worlds, i) && !p.losesServer && !p.losesClaim
    ensures steps[i].Reconciling? && PhaseNow(cfg, steps[i].seen.replicas, worlds[i + 1].spec) == "Ready"
    ensures HadMoment(cfg, steps[i], worlds[i + 1].spec)
  {
    ReadyIsMade(cfg, worlds, steps, i);
    var spec, moments := worlds[i + 1].spec, steps[i].moments;
    assert StepOf(cfg, steps[i], worlds[i], worlds[i + 1]) && Obeys(cfg, p, spec, moments);
    var c :| 0 <= c < |moments| && moments[c] == steps[i].seen.claim;
    ServerStays(cfg, p, spec, moments, |moments| - 1);
    ClaimStays(cfg, p, spec, moments, c, |moments| - 1);
    assert moments[|moments| - 1] in moments;
  }

  /** A volume of the namespace "team" with the server nfs-0, and its three resources in some condition. */
  function Example(cfg: Config, server: bool, claim: bool, ready: int): World {
    var own := (cfg.Namespace(), "sv-0");
    var spec := VolumeSpec(Some(NfsServerSpec("nfs-0", "team", "", "", "/")), "/data", "", "",
                           Some(StorageSpec("1Gi", "ReadOnly")), None, "", "team", "sv-0");
    World(true, [], spec, Status("Preparing", "", ""), map[("team", "nfs-0") := server], map[], map[own := claim],
          map[own := ReplicaSet(Some(PORT), Some(1), ready)], map[], 0)
  }

  lemma ExampleIs(cfg: Config, server: bool, claim: bool, ready: int)
    ensures var w := Example(cfg, server, claim, ready);
      && (NfsReady(cfg, w, w.spec) <==> server) && (ClaimBound(cfg, w, w.spec) <==> claim)
      && (ReplicasReady(cfg, w, w.spec) <==> ready == 1)
  {
  }

  /** The same moment with Ready stored. */
  function StoredReady(w: World): World {
    w.(status := Status("Ready", "Volume is ready for use", ""), writes := w.writes + 1)
  }

  lemma ExamplesInOrder(cfg: Config, server: bool, claim: bool, ready: int, server': bool, claim': bool, ready': int)
    ensures var a, b := Example(cfg, server, claim, ready), Example(cfg, server', claim', ready');
      Later(cfg, "sv-0", a, b) && Later(cfg, "sv-0", b, StoredReady(b)) && Drifted(a, b)
  {
  }

  /** From each moment to the next, only the readiness of one object has changed. */
  ghost predicate ChangesOneByOne(moments: seq<World>) {
    forall i :: 0 <= i < |moments| - 1 ==>
      && Drifted(moments[i], moments[i + 1])
      && (|| moments[i + 1] == moments[i].(servers := moments[i + 1].servers)
          || moments[i + 1] == moments[i].(claims := moments[i + 1].claims)
          || moments[i + 1] == moments[i].(replicaSets := moments[i + 1].replicaSets))
      && |moments[i].servers| <= 1 && |moments[i].claims| <= 1 && |moments[i].replicaSets| <= 1
  }

  /** The failing input where the server may be lost: ready, then lost, and the replicas come up after. */
  lemma LostServerRun(cfg: Config, p: Policy) returns (worlds: seq<World>, steps: seq<RunStep>)
    requires p.losesServer
    ensures RunUnder(cfg, p, worlds, steps) && BecomesReady(worlds, 0) && |steps| == 1
    ensures !HadMoment(cfg, steps[0], worlds[1].spec)
    ensures steps[0].Reconciling? && ChangesOneByOne(steps[0].moments)
  {
    var a, b, c := Example(cfg, true, true, 0), Example(cfg, false, true, 0), Example(cfg, false, true, 1);
    ExampleIs(cfg, true, true, 0);
    ExampleIs(cfg, false, true, 0);
    ExampleIs(cfg, false, true, 1);
    ExamplesInOrder(cfg, true, true, 0, false, true, 0);
    ExamplesInOrder(cfg, false, true, 0, false, true, 1);
    steps := [Reconciling(Sight(a, b, c), [a, b, c])];
    worlds := [a, StoredReady(c)];
    assert WrittenFrom(cfg, a, steps[0].seen, StoredReady(c));
    assert Obeys(cfg, p, a.spec, [a, b, c]);
  }

  /** The failing input where the claim may be lost: bound, then lost, and the replicas come up after. */
  lemma LostClaimRun(cfg: Config, p: Policy) returns (worlds: seq<World>, steps: seq<RunStep>)
    requires p.losesClaim
    ensures RunUnder(cfg, p, worlds, steps) && BecomesReady(worlds, 0) && |steps| == 1
    ensures !HadMoment(cfg, steps[0], worlds[1].spec)
    ensures steps[0].Reconciling? && ChangesOneByOne(steps[0].moments)
  {
    var a, b, c := Example(cfg, true, true, 0), Example(cfg, true, false, 0), Example(cfg, true, false, 1);
    ExampleIs(cfg, true, true, 0);
    ExampleIs(cfg, true, false, 0);
    ExampleIs(cfg, true, false, 1);
    ExamplesInOrder(cfg, true, true, 0, true, true, 0);
    ExamplesInOrder(cfg, true, true, 0, true, false, 1);
    steps := [Reconciling(Sight(a, a, c), [a, b, c])];
    worlds := [a, StoredReady(c)];
    assert WrittenFrom(cfg, a, steps[0].seen, StoredReady(c));
    assert Obeys(cfg, p, a.spec, [a, b, c]);
  }

  /**
   Every volume that becomes Ready, in every run, had server, claim and replicas all ready at some
   moment from the first look to the last, exactly where neither a ready server nor a bound claim can
   be lost meanwhile; whether replicas can does not matter.
   */
  lemma EveryReadyHadMomentIff(cfg: Config, p: Policy)
    ensures EveryReadyHadMoment(cfg, p) <==> !p.losesServer && !p.losesClaim
  {
    if p.losesServer {
      var worlds, steps := LostServerRun(cfg, p);
    } else if p.losesClaim {
      var worlds, steps := LostClaimRun(cfg, p);
    } else {
      forall worlds: seq<World>, steps: seq<RunStep>, i: nat |
        RunUnder(cfg, p, worlds, steps) && BecomesReady(worlds, i)
        ensures HadMoment(cfg, steps[i], worlds[i + 1].spec)
      {
        ReadyHeldAtLastLook(cfg, p, worlds, steps, i);
      }
    }
  }

  /** What a reconcile promises makes it a step of a run, with its three looks as the moments it knows. */
  lemma ReconcileIsStep(cfg: Config, before: World, seen: Sight, after: World)
    requires WrittenFrom(cfg, before, seen, after)
    ensures StepOf(cfg, Reconciling(seen, [seen.nfs, seen.claim, seen.replicas]), before, after)
  {
  }
}
