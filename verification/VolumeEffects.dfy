/** What one reconcile leaves behind, in literal terms: what is new, what is replaced, what never changes. */
module VolumeEffects {
  import opened Common
  import opened VolumeTypes
  import opened VolumeDefaults
  import opened UpdateAdmission
  import opened VolumeReconcile

  /** Another first port than 8080; an object without a port is left alone. */
  predicate WrongPort(port: Option<int>) {
    port.Some? && port.value != 8080
  }

  predicate ReadableCapacity(cfg: Config, spec: VolumeSpec) {
    spec.storage.Some? && cfg.isQuantity(spec.storage.value.capacity)
  }

  /** Servers stay as they are; a new one is the generated one, neither ready nor external. */
  ghost predicate CreatesServers(cfg: Config, a: World, b: World) {
    && (forall k :: k in a.servers ==> k in b.servers && b.servers[k] == a.servers[k])
    && (forall k :: k in b.servers && k !in a.servers ==>
          && !b.servers[k] && a.spec.nfsServer.None? && b.spec.nfsServer.Some? && !IsExternal(b.spec.nfsServer)
          && k == (cfg.Namespace(), b.spec.nfsServer.value.name))
  }

  /** Volumes and claims stay as they are; new ones need a readable capacity, and a new claim is unbound. */
  ghost predicate CreatesStorage(cfg: Config, a: World, b: World) {
    && (forall n :: n in a.volumes ==> n in b.volumes && b.volumes[n] == a.volumes[n])
    && (forall k :: k in a.claims ==> k in b.claims && b.claims[k] == a.claims[k])
    && (forall n :: n in b.volumes && n !in a.volumes ==>
          n == "pv-" + a.spec.referenceValue && b.volumes[n] != "" && ReadableCapacity(cfg, a.spec))
    && (forall k :: k in b.claims && k !in a.claims ==>
          k == (cfg.Namespace(), a.spec.referenceValue) && !b.claims[k] && ReadableCapacity(cfg, a.spec))
  }

  /** A new ReplicaSet wants one replica and has none; only one with a wrong port is replaced. */
  ghost predicate CreatesReplicaSet(cfg: Config, a: World, b: World) {
    var own := (cfg.Namespace(), a.spec.referenceValue);
    && (forall k :: k in a.replicaSets ==> k in b.replicaSets)
    && (forall k :: k in b.replicaSets && (k in a.replicaSets ==> b.replicaSets[k] != a.replicaSets[k]) ==>
          && k == own && b.replicaSets[k] == ReplicaSet(Some(8080), Some(1), 0)
          && (k in a.replicaSets ==> WrongPort(a.replicaSets[k].port)))
  }

  ghost predicate CreatesService(cfg: Config, a: World, b: World) {
    var own := (cfg.Namespace(), a.spec.referenceValue);
    && (forall k :: k in a.services ==> k in b.services)
    && (forall k :: k in b.services && (k in a.services ==> b.services[k] != a.services[k]) ==>
          && k == own && b.services[k] == Some(8080) && (k in a.services ==> WrongPort(a.services[k])))
  }

  ghost predicate Creates(cfg: Config, a: World, b: World) {
    CreatesServers(cfg, a, b) && CreatesStorage(cfg, a, b) && CreatesReplicaSet(cfg, a, b) && CreatesService(cfg, a, b)
  }

  /** The status address is set once, and never for a volume that is Pending. */
  ghost predicate AddressSetOnce(a: World, b: World) {
    b.status.address == a.status.address ||
    (a.status.address == "" && b.status.phase in {"Preparing", "Ready"})
  }

  // ---------- the parts ----------

  lemma VolumeCreated(cfg: Config, w: World, spec: VolumeSpec)
    requires spec.nfsServer.Some? && spec.storage.Some? && spec.referenceValue == w.spec.referenceValue
    requires ReadableCapacity(cfg, spec) ==> ReadableCapacity(cfg, w.spec)
    ensures var r := WithVolume(cfg, w, spec).0; r == w.(volumes := r.volumes, writes := r.writes) && Creates(cfg, w, r)
  {
  }

  lemma ClaimCreated(cfg: Config, w: World, spec: VolumeSpec)
    requires spec.storage.Some? && spec.referenceValue == w.spec.referenceValue
    requires ReadableCapacity(cfg, spec) ==> ReadableCapacity(cfg, w.spec)
    ensures var r := WithClaim(cfg, w, spec).0; r == w.(claims := r.claims, writes := r.writes) && Creates(cfg, w, r)
  {
  }

  /** A change of status, spec, namespace, finalizers and counter creates nothing. */
  lemma NothingCreated(cfg: Config, a: World, b: World)
    requires b.servers == a.servers && b.volumes == a.volumes && b.claims == a.claims
    requires b.replicaSets == a.replicaSets && b.services == a.services
    ensures Creates(cfg, a, b)
  {
  }

  lemma ReplicaSetCreated(cfg: Config, w: World, spec: VolumeSpec)
    requires spec.referenceValue == w.spec.referenceValue
    ensures var r := WithReplicaSet(cfg, w, spec);
      r == w.(replicaSets := r.replicaSets, writes := r.writes) && CreatesReplicaSet(cfg, w, r)
  {
  }

  lemma ServiceCreated(cfg: Config, w: World, spec: VolumeSpec)
    requires spec.referenceValue == w.spec.referenceValue
    ensures var r := WithService(cfg, w, spec);
      r == w.(services := r.services, writes := r.writes) && CreatesService(cfg, w, r)
  {
  }

  /** The four resources are created one after the other, each beside the others. */
  lemma ResourcesCreated(cfg: Config, w: World, spec: VolumeSpec)
    requires spec.nfsServer.Some? && spec.storage.Some? && spec.referenceValue == w.spec.referenceValue
    requires ReadableCapacity(cfg, spec) ==> ReadableCapacity(cfg, w.spec)
    ensures var r := WithResources(cfg, w, spec).0;
      && Creates(cfg, w, r)
      && r == w.(volumes := r.volumes, claims := r.claims, replicaSets := r.replicaSets, services := r.services,
                 writes := r.writes)
  {
    VolumeCreated(cfg, w, spec);
    var w1 := WithVolume(cfg, w, spec).0;
    ClaimCreated(cfg, w1, spec);
    var w2 := WithClaim(cfg, w1, spec).0;
    ReplicaSetCreated(cfg, w2, spec);
    ServiceCreated(cfg, WithReplicaSet(cfg, w2, spec), spec);
  }

  lemma ServerCreatedUnready(cfg: Config, w: World, spec: VolumeSpec, server: NfsServerSpec)
    requires w.spec.nfsServer == None && spec.nfsServer == Some(server)
    ensures var r := WithServer(cfg, w.(spec := spec, writes := w.writes + 1), server);
      r == w.(spec := spec, servers := r.servers, writes := r.writes) && CreatesServers(cfg, w, r)
  {
  }

  lemma OnlyServersCreated(cfg: Config, a: World, b: World)
    requires CreatesServers(cfg, a, b)
    requires b.volumes == a.volumes && b.claims == a.claims && b.replicaSets == a.replicaSets
    requires b.services == a.services
    ensures Creates(cfg, a, b)
  {
  }

  lemma StoredServerCreated(cfg: Config, w: World, stored: World, spec: VolumeSpec, server: NfsServerSpec)
    requires w.spec.nfsServer == None && spec.nfsServer == Some(server)
    requires stored == w.(spec := spec, writes := w.writes + 1)
    ensures var r := WithServer(cfg, stored, server);
      Creates(cfg, w, r) && r == w.(spec := r.spec, servers := r.servers, writes := r.writes)
  {
    ServerCreatedUnready(cfg, w, spec, server);
    OnlyServersCreated(cfg, w, WithServer(cfg, stored, server));
  }

  lemma GenerationCreated(cfg: Config, w: World, filled: VolumeSpec, suffix: string)
    requires w.spec.nfsServer.None?
    ensures var r := WithGenerated(cfg, w, filled, suffix).0;
      Creates(cfg, w, r) && r == w.(spec := r.spec, servers := r.servers, writes := r.writes)
  {
    var spec := Generated(filled, suffix, cfg.Namespace());
    var (stored, ok) := StoreSpec(cfg, w, spec);
    if ok {
      StoredServerCreated(cfg, w, stored, spec, spec.nfsServer.value);
    } else {
      NothingCreated(cfg, w, w);
    }
  }

  lemma PhaseSetsAddressOnce(cfg: Config, w: World, spec: VolumeSpec, address: string)
    requires spec.nfsServer.Some?
    ensures var r := WithPhase(cfg, w, spec, address);
      AddressSetOnce(w, r) && r == w.(status := r.status, writes := r.writes)
  {
  }

  lemma ReferenceCreatesNothing(cfg: Config, w: World, spec: VolumeSpec)
    ensures var r := StoreSpec(cfg, w, spec).0; Creates(cfg, w, r) && r == w.(spec := r.spec, writes := r.writes)
  {
    NothingCreated(cfg, w, StoreSpec(cfg, w, spec).0);
  }

  /** The same creations, whatever else changes. */
  lemma CreatesBeside(cfg: Config, a: World, b: World, c: World)
    requires Creates(cfg, a, b) && c == b.(status := c.status, writes := c.writes)
    ensures Creates(cfg, a, c)
  {
  }

  ghost predicate Leaves(cfg: Config, a: World, b: World) {
    Creates(cfg, a, b) && AddressSetOnce(a, b) && b.finalizers == a.finalizers
  }

  lemma CompleteCreates(cfg: Config, w: World, spec: VolumeSpec, address: string, suffix: string)
    requires spec.nfsServer.Some? && spec.storage.Some? && spec.referenceValue == w.spec.referenceValue
    requires ReadableCapacity(cfg, spec) ==> ReadableCapacity(cfg, w.spec)
    ensures Leaves(cfg, w, Complete(cfg, w, spec, address, suffix).0)
  {
    if spec.referenceValue == "" {
      ReferenceCreatesNothing(cfg, w, WithReference(spec, suffix));
    } else {
      ResourcesCreated(cfg, w, spec);
      var made := WithResources(cfg, w, spec).0;
      PhaseSetsAddressOnce(cfg, made, spec, address);
      CreatesBeside(cfg, w, made, WithPhase(cfg, made, spec, address));
    }
  }

  lemma AfterFillCreates(cfg: Config, w: World, filled: VolumeSpec, suffix: string)
    requires FilledFrom(w.spec, filled)
    ensures Leaves(cfg, w, AfterFill(cfg, w, filled, suffix).0)
  {
    if w.spec.nfsServer.None? {
      GenerationCreated(cfg, w, filled, suffix);
    } else {
      ResolvedServer(cfg, w, filled);
      var (address, spec) := Resolved(cfg, w, filled);
      CompleteCreates(cfg, w, spec, address, suffix);
      if !IsExternal(filled.nfsServer) && filled.nfsServer.value.name != "" &&
         !ServerReady(cfg, w, filled.nfsServer.value) {
        NothingCreated(cfg, w, w);
      }
    }
  }

  lemma PreparationCreatesNothing(cfg: Config, w: World)
    ensures var p := WithFinalizer(cfg, WithNamespace(w)).0;
      && p == w.(hasNamespace := true, finalizers := p.finalizers, writes := p.writes)
      && p.finalizers in {w.finalizers, w.finalizers + [cfg.finalizer]}
      && (cfg.finalizer in w.finalizers ==> p.finalizers == w.finalizers)
  {
  }

  lemma CreatesAfterPreparation(cfg: Config, w: World, p: World, r: World)
    requires p == w.(hasNamespace := true, finalizers := p.finalizers, writes := p.writes) && Leaves(cfg, p, r)
    ensures Creates(cfg, w, r) && AddressSetOnce(w, r)
  {
  }

  /**
   Whatever the volume: a reconcile leaves every server, volume and claim as it is, replaces a ReplicaSet
   or Service only for a wrong port, creates nothing that is ready, nothing external and nothing for an
   unreadable capacity, adds at most its own finalizer after the others, and sets the address once.
   */
  lemma ReconcileCreates(cfg: Config, w: World, suffix: string)
    ensures var r := Reconciled(cfg, w, suffix).0;
      && Creates(cfg, w, r) && AddressSetOnce(w, r)
      && r.finalizers in {w.finalizers, w.finalizers + [cfg.finalizer]}
      && (cfg.finalizer in w.finalizers ==> r.finalizers == w.finalizers)
  {
    var (p, ok) := WithFinalizer(cfg, WithNamespace(w));
    PreparationCreatesNothing(cfg, w);
    var (filled, valid) := Fill(p.spec, p.spec.nfsServer.None?, cfg.Namespace());
    if ok && valid {
      FillCompletes(p.spec, p.spec.nfsServer.None?, cfg.Namespace());
      AfterFillCreates(cfg, p, filled, suffix);
      CreatesAfterPreparation(cfg, w, p, AfterFill(cfg, p, filled, suffix).0);
    } else {
      NothingCreated(cfg, w, p);
    }
  }

  // ---------- the order of the resources ----------

  /** A claim is made only beside its volume, and ReplicaSet and Service only beside both. */
  ghost predicate InOrder(cfg: Config, a: World, b: World) {
    && (forall k :: k in b.claims && k !in a.claims ==> "pv-" + k.1 in b.volumes)
    && (b.replicaSets != a.replicaSets || b.services != a.services ==>
          "pv-" + a.spec.referenceValue in b.volumes && (cfg.Namespace(), a.spec.referenceValue) in b.claims)
  }

  lemma VolumeComesFirst(cfg: Config, w: World, spec: VolumeSpec)
    requires spec.nfsServer.Some? && spec.storage.Some?
    ensures var (r, ok) := WithVolume(cfg, w, spec);
      && r == w.(volumes := r.volumes, writes := r.writes)
      && (if ok then "pv-" + spec.referenceValue in r.volumes else r == w)
  {
  }

  lemma ClaimComesSecond(cfg: Config, w: World, spec: VolumeSpec)
    requires spec.storage.Some?
    ensures var (r, ok), own := WithClaim(cfg, w, spec), (cfg.Namespace(), spec.referenceValue);
      && r == w.(claims := r.claims, writes := r.writes)
      && (forall k :: k in r.claims && k !in w.claims ==> k == own)
      && (if ok then own in r.claims else r == w)
  {
  }

  lemma OthersComeLast(cfg: Config, w: World, spec: VolumeSpec)
    ensures var r := WithService(cfg, WithReplicaSet(cfg, w, spec), spec);
      r == w.(replicaSets := r.replicaSets, services := r.services, writes := r.writes)
  {
  }

  lemma ResourcesInOrder(cfg: Config, w: World, spec: VolumeSpec)
    requires spec.nfsServer.Some? && spec.storage.Some? && spec.referenceValue == w.spec.referenceValue
    ensures InOrder(cfg, w, WithResources(cfg, w, spec).0)
  {
    VolumeComesFirst(cfg, w, spec);
    var (w1, volumeOk) := WithVolume(cfg, w, spec);
    if volumeOk {
      ClaimComesSecond(cfg, w1, spec);
      var (w2, claimOk) := WithClaim(cfg, w1, spec);
      if claimOk {
        OthersComeLast(cfg, w2, spec);
      }
    }
  }

  lemma CompleteInOrder(cfg: Config, w: World, spec: VolumeSpec, address: string, suffix: string)
    requires spec.nfsServer.Some? && spec.storage.Some? && spec.referenceValue == w.spec.referenceValue
    ensures InOrder(cfg, w, Complete(cfg, w, spec, address, suffix).0)
  {
    if spec.referenceValue != "" {
      ResourcesInOrder(cfg, w, spec);
      PhaseSetsAddressOnce(cfg, WithResources(cfg, w, spec).0, spec, address);
    }
  }

  lemma GenerationMakesServers(cfg: Config, w: World, filled: VolumeSpec, suffix: string)
    ensures var r := WithGenerated(cfg, w, filled, suffix).0;
      r == w.(spec := r.spec, servers := r.servers, writes := r.writes)
  {
  }

  lemma AfterFillInOrder(cfg: Config, w: World, filled: VolumeSpec, suffix: string)
    requires filled.storage.Some? && filled.referenceValue == w.spec.referenceValue
    ensures InOrder(cfg, w, AfterFill(cfg, w, filled, suffix).0)
  {
    if filled.nfsServer.None? {
      GenerationMakesServers(cfg, w, filled, suffix);
    } else {
      ResolvedServer(cfg, w, filled);
      var (address, spec) := Resolved(cfg, w, filled);
      CompleteInOrder(cfg, w, spec, address, suffix);
    }
  }

  /** So whatever makes a reconcile end early, no claim is new without its volume, and nothing else without both. */
  lemma ReconcileInOrder(cfg: Config, w: World, suffix: string)
    ensures InOrder(cfg, w, Reconciled(cfg, w, suffix).0)
  {
    var (p, ok) := WithFinalizer(cfg, WithNamespace(w));
    PreparationCreatesNothing(cfg, w);
    var (filled, valid) := Fill(p.spec, p.spec.nfsServer.None?, cfg.Namespace());
    if ok && valid {
      FillCompletes(p.spec, p.spec.nfsServer.None?, cfg.Namespace());
      AfterFillInOrder(cfg, p, filled, suffix);
    }
  }

  // ---------- a stored address that is not the managed one ----------

  /**
   A Ready volume at rest whose stored address is not that of its managed server is written again by
   every reconcile, and the address stays wrong: it is only ever set when it is missing.
   */
  lemma StaleAddressIsNeverMended(cfg: Config, w: World, filled: VolumeSpec, suffix: string)
    requires WithFinalizer(cfg, WithNamespace(w)) == (w, true)
    requires w.spec.nfsServer.Some? && Fill(w.spec, false, cfg.Namespace()) == (filled, true)
    requires !IsExternal(filled.nfsServer) && filled.nfsServer.value.name != "" && filled.referenceValue != ""
    requires ServerReady(cfg, w, filled.nfsServer.value) && PhaseNow(cfg, w, filled) == "Ready" == w.status.phase
    requires WithResources(cfg, w, filled) == (w, true)
    requires var managed := ManagedAddress(cfg.kind, cfg.volumeNamespace, filled.nfsServer.value);
      managed != "" && w.status.address !in {"", managed}
    ensures var r := Reconciled(cfg, w, suffix).0;
      r.writes == w.writes + 1 && r.status.phase == "Ready" && r.status.address == w.status.address
  {
    assert AfterFill(cfg, w, filled, suffix) == Complete(cfg, w, filled, w.status.address, suffix);
  }
}
