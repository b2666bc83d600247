/**
 One volume and the resources that its reconcile creates: defaulting, server generation, resource
 creation and the readiness phase. Volumes that are being deleted are the business of Teardown.
 */
module VolumeReconcile {
  import opened Common
  import opened VolumeTypes
  import opened VolumeDefaults
  import opened UpdateAdmission

  type Key = (string, string)

  /** The port of the first container and the wanted number of replicas can both be missing. */
  datatype ReplicaSet = ReplicaSet(port: Option<int>, desired: Option<int>, ready: int)

  datatype Status = Status(phase: string, message: string, address: string)

  /** What stays the same for one volume, and the parsers of durations and of storage quantities. */
  datatype Config = Config(kind: VolumeKind, volumeNamespace: string, finalizer: string,
                           parse: DurationParser, isQuantity: string -> bool)
  {
    function Namespace(): string {
      ReconcileNamespace(kind, volumeNamespace)
    }
  }

  /** The stored volume, and every stored object that could be one of its resources. */
  datatype World = World(
    hasNamespace: bool,
    finalizers: seq<string>,
    spec: VolumeSpec,
    status: Status,
    servers: map<Key, bool>,
    volumes: map<string, string>,
    claims: map<Key, bool>,
    replicaSets: map<Key, ReplicaSet>,
    services: map<Key, Option<int>>,
    writes: nat)

  datatype Outcome = Failure | Requeue(seconds: nat) | Done

  const PORT := 8080

  // ---------- the effect of each part of a reconcile when no call fails ----------

  function WithNamespace(w: World): World {
    if w.hasNamespace then w else w.(hasNamespace := true, writes := w.writes + 1)
  }

  /** An update of the volume goes through the validating webhook. */
  function StoreSpec(cfg: Config, w: World, spec: VolumeSpec): (World, bool) {
    if UpdateAccepted(w.spec, spec, cfg.parse) then (w.(spec := spec, writes := w.writes + 1), true) else (w, false)
  }

  function WithFinalizer(cfg: Config, w: World): (World, bool) {
    if cfg.finalizer in w.finalizers then (w, true)
    else
      var (stored, ok) := StoreSpec(cfg, w, w.spec);
      if ok then (stored.(finalizers := w.finalizers + [cfg.finalizer]), true) else (w, false)
  }

  function ServerKey(cfg: Config, server: NfsServerSpec): Key {
    (if server.namespace != "" then server.namespace else cfg.Namespace(), server.name)
  }

  function WithServer(cfg: Config, w: World, server: NfsServerSpec): World {
    var key := (cfg.Namespace(), server.name);
    if IsExternal(Some(server)) || key in w.servers then w
    else w.(servers := w.servers[key := false], writes := w.writes + 1)
  }

  function WithGenerated(cfg: Config, w: World, filled: VolumeSpec, suffix: string): (World, Outcome) {
    var spec := Generated(filled, suffix, cfg.Namespace());
    var (stored, ok) := StoreSpec(cfg, w, spec);
    if ok then (WithServer(cfg, stored, spec.nfsServer.value), Requeue(2)) else (w, Failure)
  }

  predicate ServerReady(cfg: Config, w: World, server: NfsServerSpec) {
    IsExternal(Some(server)) || (ServerKey(cfg, server) in w.servers && w.servers[ServerKey(cfg, server)])
  }

  function WithVolume(cfg: Config, w: World, spec: VolumeSpec): (World, bool)
    requires spec.nfsServer.Some? && spec.storage.Some?
  {
    var name := "pv-" + spec.referenceValue;
    var address := ControllerServer(cfg.kind, cfg.volumeNamespace, spec.nfsServer.value);
    if name in w.volumes then (w, true)
    else if !cfg.isQuantity(spec.storage.value.capacity) || address == "" then (w, false)
    else (w.(volumes := w.volumes[name := address], writes := w.writes + 1), true)
  }

  function WithClaim(cfg: Config, w: World, spec: VolumeSpec): (World, bool)
    requires spec.storage.Some?
  {
    var key := (cfg.Namespace(), spec.referenceValue);
    if key in w.claims then (w, true)
    else if !cfg.isQuantity(spec.storage.value.capacity) then (w, false)
    else (w.(claims := w.claims[key := false], writes := w.writes + 1), true)
  }

  predicate PortOk(port: Option<int>) {
    port.None? || port.value == PORT
  }

  const NEW_REPLICA_SET := ReplicaSet(Some(PORT), Some(1), 0)

  /** One with a wrong port is deleted and created again: two writes. */
  function WithReplicaSet(cfg: Config, w: World, spec: VolumeSpec): World {
    var key := (cfg.Namespace(), spec.referenceValue);
    if key in w.replicaSets && PortOk(w.replicaSets[key].port) then w
    else w.(replicaSets := w.replicaSets[key := NEW_REPLICA_SET],
            writes := w.writes + if key in w.replicaSets then 2 else 1)
  }

  function WithService(cfg: Config, w: World, spec: VolumeSpec): World {
    var key := (cfg.Namespace(), spec.referenceValue);
    if key in w.services && PortOk(w.services[key]) then w
    else w.(services := w.services[key := Some(PORT)], writes := w.writes + if key in w.services then 2 else 1)
  }

  function WithResources(cfg: Config, w: World, spec: VolumeSpec): (World, bool)
    requires spec.nfsServer.Some? && spec.storage.Some?
  {
    var (w1, volumeOk) := WithVolume(cfg, w, spec);
    if !volumeOk then (w1, false)
    else
      var (w2, claimOk) := WithClaim(cfg, w1, spec);
      if !claimOk then (w2, false)
      else (WithService(cfg, WithReplicaSet(cfg, w2, spec), spec), true)
  }

  function DeterminePhase(nfsReady: bool, replicaSetReady: bool): string {
    if nfsReady && replicaSetReady then "Ready" else if nfsReady then "Preparing" else "Pending"
  }

  function MessageFor(phase: string): string {
    if phase == "Ready" then "Volume is ready for use"
    else if phase == "Preparing" then "NFS server is ready, waiting for ReplicaSet to be ready"
    else "Waiting for NFS server to be ready"
  }

  predicate ClaimBound(cfg: Config, w: World, spec: VolumeSpec) {
    var key := (cfg.Namespace(), spec.referenceValue);
    key in w.claims && w.claims[key]
  }

  predicate ReplicasReady(cfg: Config, w: World, spec: VolumeSpec) {
    var key := (cfg.Namespace(), spec.referenceValue);
    key in w.replicaSets && w.replicaSets[key].desired == Some(w.replicaSets[key].ready)
  }

  predicate NfsReady(cfg: Config, w: World, spec: VolumeSpec) {
    spec.nfsServer.Some? && ServerReady(cfg, w, spec.nfsServer.value)
  }

  /** The phase that the stored objects call for. */
  function PhaseNow(cfg: Config, w: World, spec: VolumeSpec): string {
    if !NfsReady(cfg, w, spec) then "Pending"
    else if ClaimBound(cfg, w, spec) && ReplicasReady(cfg, w, spec) then "Ready"
    else "Preparing"
  }

  /** Decided on the volume in memory: its phase, its address, its spec. */
  predicate ShouldUpdate(cfg: Config, phase: string, address: string, spec: VolumeSpec, expected: string)
    requires spec.nfsServer.Some?
  {
    var managed := ManagedAddress(cfg.kind, cfg.volumeNamespace, spec.nfsServer.value);
    || phase != expected
    || (expected != "Pending" && address == "")
    || (expected != "Pending" && !IsExternal(spec.nfsServer) && managed != "" && address != managed)
  }

  function NewStatus(cfg: Config, status: Status, spec: VolumeSpec, phase: string): Status
    requires spec.nfsServer.Some?
  {
    Status(phase, MessageFor(phase),
           if phase != "Pending" && status.address == ""
           then ControllerServer(cfg.kind, cfg.volumeNamespace, spec.nfsServer.value) else status.address)
  }

  function WithPhase(cfg: Config, w: World, spec: VolumeSpec, address: string): World
    requires spec.nfsServer.Some?
  {
    var expected := PhaseNow(cfg, w, spec);
    if ShouldUpdate(cfg, w.status.phase, address, spec, expected)
    then w.(status := NewStatus(cfg, w.status, spec, expected), writes := w.writes + 1) else w
  }

  /** The rest of a reconcile once the server is ready: the reference, the resources, the phase. */
  function Complete(cfg: Config, w: World, spec: VolumeSpec, address: string, suffix: string): (World, Outcome)
    requires spec.nfsServer.Some? && spec.storage.Some?
  {
    if spec.referenceValue == "" then
      var (stored, ok) := StoreSpec(cfg, w, WithReference(spec, suffix));
      (stored, if ok then Requeue(1) else Failure)
    else
      var (made, ok) := WithResources(cfg, w, spec);
      if !ok then (made, Failure)
      else
        var out := WithPhase(cfg, made, spec, address);
        (out, if out.status.phase == "Ready" then Done else Requeue(30))
  }

  function AfterFill(cfg: Config, w: World, spec: VolumeSpec, suffix: string): (World, Outcome)
    requires spec.storage.Some?
  {
    match spec.nfsServer
    case None => WithGenerated(cfg, w, spec, suffix)
    case Some(server) =>
      if IsExternal(Some(server)) || server.name == "" then Complete(cfg, w, spec, w.status.address, suffix)
      else if !ServerReady(cfg, w, server) then (w, Requeue(5))
      else
        var (address, resolved) := SetAddress(cfg.kind, cfg.volumeNamespace, w.status.address, spec, true);
        Complete(cfg, w, resolved, address, suffix)
  }

  function Reconciled(cfg: Config, w: World, suffix: string): (World, Outcome) {
    var (w1, ok) := WithFinalizer(cfg, WithNamespace(w));
    if !ok then (w1, Failure)
    else
      var (filled, valid) := Fill(w1.spec, w1.spec.nfsServer.None?, cfg.Namespace());
      if !valid then (w1, Failure) else AfterFill(cfg, w1, filled, suffix)
  }

  // ---------- convergence ----------

  function AllReady(r: ReplicaSet): ReplicaSet {
    var desired := if r.desired.None? then 1 else r.desired.value;
    r.(desired := Some(desired), ready := desired)
  }

  /** Every existing server, claim and ReplicaSet becomes ready; a missing replica count becomes 1. */
  function Settled(w: World): World {
    w.(servers := map k | k in w.servers :: true,
       claims := map k | k in w.claims :: true,
       replicaSets := map k | k in w.replicaSets :: AllReady(w.replicaSets[k]))
  }

  /** The environment catches up, then the volume is reconciled once. */
  function Round(cfg: Config, w: World, suffix: string): World {
    Reconciled(cfg, Settled(w), suffix).0
  }

  function Rounds(cfg: Config, w: World, suffixes: seq<string>): World {
    if suffixes == [] then w
    else Round(cfg, Rounds(cfg, w, suffixes[..|suffixes| - 1]), suffixes[|suffixes| - 1])
  }

  /** A stored address of a managed server is the one that the operator would compute. */
  predicate AddressOk(cfg: Config, spec: VolumeSpec, address: string) {
    address == "" ||
    (spec.nfsServer.Some? &&
     (IsExternal(spec.nfsServer) || address == ManagedAddress(cfg.kind, cfg.volumeNamespace, spec.nfsServer.value)))
  }

  /** An admitted volume that defaulting accepts, with a readable capacity; stored objects have names. */
  ghost predicate Valid(cfg: Config, w: World) {
    && (cfg.kind.Namespaced? <==> cfg.volumeNamespace != "")
    && Admitted(w.spec, cfg.parse) && Fill(w.spec, w.spec.nfsServer.None?, cfg.Namespace()).1
    && cfg.isQuantity(w.spec.storage.value.capacity)
    && AddressOk(cfg, w.spec, w.status.address)
    && (forall k :: k in w.servers ==> k.1 != "")
  }

  /** The durations that the controller would store pass the webhook. */
  predicate SyncAccepted(cfg: Config, w: World) {
    w.spec.source.None? || TimeoutBelowInterval(Fill(w.spec, w.spec.nfsServer.None?, cfg.Namespace()).0, cfg.parse)
  }

  /** The managed address may be written into the URL of the spec. */
  predicate UrlAccepted(cfg: Config, w: World, server: NfsServerSpec) {
    || IsExternal(Some(server)) || w.status.address != ""
    || server.url in {"", ManagedAddress(cfg.kind, cfg.volumeNamespace, server)}
  }

  predicate ServerUsable(cfg: Config, w: World, server: NfsServerSpec) {
    IsExternal(Some(server)) || (server.name != "" && ServerKey(cfg, server) in w.servers)
  }

  /** The server is generated, external, or named and existing; a spec write that is due is admitted. */
  predicate Serviceable(cfg: Config, w: World) {
    match w.spec.nfsServer
    case None => SyncAccepted(cfg, w)
    case Some(server) =>
      && ServerUsable(cfg, w, server)
      && (w.spec.referenceValue == "" ==> SyncAccepted(cfg, w) && UrlAccepted(cfg, w, server))
  }

  predicate ResourcesMade(cfg: Config, w: World) {
    var key := (cfg.Namespace(), w.spec.referenceValue);
    key in w.claims && key in w.replicaSets && PortOk(w.replicaSets[key].port)
  }

  predicate AtRest(cfg: Config, w: World) {
    var key := (cfg.Namespace(), w.spec.referenceValue);
    && w.hasNamespace && cfg.finalizer in w.finalizers
    && "pv-" + w.spec.referenceValue in w.volumes && key in w.services && PortOk(w.services[key])
    && w.status.phase == "Ready" && w.spec.nfsServer.Some?
    && ServerUsable(cfg, w, w.spec.nfsServer.value) && (IsExternal(w.spec.nfsServer) ==> w.status.address != "")
  }

  /** What is missing: the server or the reference, then the resources, then the phase. */
  function Stage(cfg: Config, w: World): nat {
    if w.spec.nfsServer.None? || w.spec.referenceValue == "" then 3
    else if !ResourcesMade(cfg, w) then 2
    else if !AtRest(cfg, w) then 1
    else 0
  }

  lemma SettledStands(cfg: Config, w: World)
    ensures var s := Settled(w);
      && s == w.(servers := s.servers, claims := s.claims, replicaSets := s.replicaSets)
      && s.servers.Keys == w.servers.Keys && s.claims.Keys == w.claims.Keys && s.replicaSets.Keys == w.replicaSets.Keys
      && (Valid(cfg, w) ==> Valid(cfg, s)) && Serviceable(cfg, s) == Serviceable(cfg, w) &&
           Stage(cfg, s) == Stage(cfg, w)
  {
  }

  ghost predicate AllSettled(w: World) {
    && (forall k :: k in w.servers ==> w.servers[k])
    && (forall k :: k in w.claims ==> w.claims[k])
    && (forall k :: k in w.replicaSets ==> w.replicaSets[k].desired == Some(w.replicaSets[k].ready))
  }

  /** The namespace and the finalizer: everything else stays. */
  lemma PreparedStands(cfg: Config, w: World)
    requires Valid(cfg, w)
    ensures var (p, ok) := WithFinalizer(cfg, WithNamespace(w));
      && ok && p == w.(hasNamespace := true, finalizers := p.finalizers, writes := p.writes)
      && cfg.finalizer in p.finalizers && (w.hasNamespace && cfg.finalizer in w.finalizers ==> p == w)
      && Valid(cfg, p) && Serviceable(cfg, p) == Serviceable(cfg, w)
  {
    CompletesReflexive(FrozenOf(w.spec));
  }

  ghost predicate Fillable(spec: VolumeSpec, generate: bool) {
    && spec.mountPath != "" && spec.storage.Some? && spec.storage.value.capacity != ""
    && spec.storage.value.accessMode in {"", "ReadWrite", "ReadOnly"} && (generate ==> spec.storageClassName != "")
  }

  lemma FillSucceedsIff(spec: VolumeSpec, generate: bool, namespace: string)
    ensures Fill(spec, generate, namespace).1 <==> Fillable(spec, generate)
  {
  }

  /** Changing the server and the reference of a defaulted spec keeps it acceptable. */
  lemma RefilledStands(spec: VolumeSpec, generate: bool, filled: VolumeSpec, namespace: string, out: VolumeSpec)
    requires FilledFrom(spec, filled) && Fillable(spec, generate)
    requires out == filled.(referenceValue := out.referenceValue, nfsServer := out.nfsServer)
    ensures Fill(out, false, namespace).1 && out.storage.Some? &&
      out.storage.value.capacity == spec.storage.value.capacity
  {
    FillSucceedsIff(out, false, namespace);
  }

  /** An accepted write of a spec with a server and a reference leaves a valid volume. */
  lemma StoredStands(cfg: Config, w: World, out: VolumeSpec)
    requires Valid(cfg, w) && UpdateAccepted(w.spec, out, cfg.parse) && out.nfsServer.Some?
    requires Fill(out, false, cfg.Namespace()).1 && out.storage.value.capacity == w.spec.storage.value.capacity
    requires AddressOk(cfg, out, w.status.address)
    ensures Valid(cfg, StoreSpec(cfg, w, out).0)
  {
  }

  lemma GenerationAccepted(cfg: Config, w: World, suffix: string)
    requires Valid(cfg, w) && w.spec.nfsServer.None?
    ensures var out := Generated(Fill(w.spec, true, cfg.Namespace()).0, suffix, cfg.Namespace());
      && (UpdateAccepted(w.spec, out, cfg.parse) <==> Serviceable(cfg, w))
      && (Serviceable(cfg, w) ==> Valid(cfg, StoreSpec(cfg, w, out).0))
  {
    var ns := cfg.Namespace();
    var filled := Fill(w.spec, true, ns).0;
    var out := Generated(filled, suffix, ns);
    FillCompletes(w.spec, true, ns);
    WriteAccepted(w.spec, filled, out, cfg.parse);
    FillSucceedsIff(w.spec, true, ns);
    RefilledStands(w.spec, true, filled, ns, out);
    if Serviceable(cfg, w) {
      StoredStands(cfg, w, out);
    }
  }

  lemma ServerCreated(cfg: Config, w: World, server: NfsServerSpec)
    requires server.name != "" && server.namespace in {"", cfg.Namespace()}
    ensures var r := WithServer(cfg, w, server);
      && ServerUsable(cfg, r, server) && r == w.(servers := r.servers, writes := r.writes)
      && (Valid(cfg, w) ==> Valid(cfg, r))
  {
  }

  /** Without a server: one is generated, stored and created. */
  lemma GenerationDescends(cfg: Config, w: World, filled: VolumeSpec, suffix: string)
    requires Valid(cfg, w) && w.spec.nfsServer.None? && Serviceable(cfg, w) &&
      filled == Fill(w.spec, true, cfg.Namespace()).0
    ensures var r := WithGenerated(cfg, w, filled, suffix).0;
      Valid(cfg, r) && Serviceable(cfg, r) && Stage(cfg, r) <= 2
  {
    GenerationAccepted(cfg, w, suffix);
    var out := Generated(filled, suffix, cfg.Namespace());
    ServerCreated(cfg, StoreSpec(cfg, w, out).0, out.nfsServer.value);
  }

  /** The spec in memory once the server is found ready. */
  function Resolved(cfg: Config, w: World, filled: VolumeSpec): (string, VolumeSpec) {
    if filled.nfsServer.None? || IsExternal(filled.nfsServer) || filled.nfsServer.value.name == ""
    then (w.status.address, filled)
    else SetAddress(cfg.kind, cfg.volumeNamespace, w.status.address, filled, true)
  }

  /** The server in memory may replace the stored one exactly when its URL may. */
  lemma ResolvedServerKept(cfg: Config, w: World, filled: VolumeSpec)
    requires w.spec.nfsServer.Some? && FilledFrom(w.spec, filled) && AddressOk(cfg, w.spec, w.status.address)
    requires cfg.kind.Namespaced? <==> cfg.volumeNamespace != ""
    requires w.spec.nfsServer.value.name != "" || IsExternal(w.spec.nfsServer)
    ensures ServerKept(w.spec.nfsServer, Resolved(cfg, w, filled).1.nfsServer) <==>
      UrlAccepted(cfg, w, w.spec.nfsServer.value)
  {
  }

  lemma ReferenceAccepted(cfg: Config, w: World, suffix: string)
    requires Valid(cfg, w) && w.spec.nfsServer.Some? && w.spec.referenceValue == ""
    ensures var resolved := Resolved(cfg, w, Fill(w.spec, false, cfg.Namespace()).0).1;
      var accepted := UpdateAccepted(w.spec, WithReference(resolved, suffix), cfg.parse);
      var server := w.spec.nfsServer.value;
      && (accepted ==> SyncAccepted(cfg, w))
      && (server.name != "" || IsExternal(Some(server)) ==>
          (accepted <==> SyncAccepted(cfg, w) && UrlAccepted(cfg, w, server)))
  {
    var ns := cfg.Namespace();
    var filled := Fill(w.spec, false, ns).0;
    FillCompletes(w.spec, false, ns);
    var out := WithReference(Resolved(cfg, w, filled).1, suffix);
    WriteAccepted(w.spec, filled, out, cfg.parse);
    if w.spec.nfsServer.value.name != "" || IsExternal(w.spec.nfsServer) {
      ResolvedServerKept(cfg, w, filled);
    }
  }

  /** The identity and the resolved address of a server, whatever its URL and path have become. */
  ghost predicate SameServer(cfg: Config, a: NfsServerSpec, b: NfsServerSpec) {
    && a.name == b.name && a.namespace == b.namespace
    && ControllerServer(cfg.kind, cfg.volumeNamespace, a) == ControllerServer(cfg.kind, cfg.volumeNamespace, b)
  }

  /** The volume in memory when a usable server has been found ready. */
  ghost predicate InMemory(cfg: Config, w: World, spec: VolumeSpec, address: string) {
    && w.spec.nfsServer.Some? && spec.nfsServer.Some? && w.spec.storage.Some? && spec.storage.Some?
    && spec.referenceValue == w.spec.referenceValue
    && spec.storage.value.capacity == w.spec.storage.value.capacity
    && SameServer(cfg, w.spec.nfsServer.value, spec.nfsServer.value)
    && ControllerServer(cfg.kind, cfg.volumeNamespace, spec.nfsServer.value) != ""
    && (if IsExternal(w.spec.nfsServer) then IsExternal(spec.nfsServer) && address == w.status.address
        else address == ManagedAddress(cfg.kind, cfg.volumeNamespace, spec.nfsServer.value) != "")
  }

  lemma ResolvedExternal(cfg: Config, w: World, filled: VolumeSpec)
    requires w.spec.nfsServer.Some? && FilledFrom(w.spec, filled) && IsExternal(w.spec.nfsServer)
    ensures Resolved(cfg, w, filled) == (w.status.address, filled) && InMemory(cfg, w, filled, w.status.address)
  {
  }

  lemma ResolvedManaged(cfg: Config, w: World, filled: VolumeSpec)
    requires cfg.kind.Namespaced? <==> cfg.volumeNamespace != ""
    requires w.spec.nfsServer.Some? && FilledFrom(w.spec, filled) && AddressOk(cfg, w.spec, w.status.address)
    requires !IsExternal(w.spec.nfsServer) && w.spec.nfsServer.value.name != ""
    ensures var (address, resolved) := Resolved(cfg, w, filled);
      InMemory(cfg, w, resolved, address) && resolved == filled.(nfsServer := resolved.nfsServer)
  {
    var server := filled.nfsServer.value;
    var managed := ManagedAddress(cfg.kind, cfg.volumeNamespace, server);
    assert !IsExternal(filled.nfsServer) && managed != "";
    if w.status.address == "" {
      WriteBackKeepsAddress(cfg.kind, cfg.volumeNamespace, server);
      assert Resolved(cfg, w, filled) == (managed, filled.(nfsServer := Some(server.(url := managed))));
    } else {
      assert Resolved(cfg, w, filled) == (w.status.address, filled);
    }
  }

  lemma ResolvedInMemory(cfg: Config, w: World, filled: VolumeSpec)
    requires Valid(cfg, w) && w.spec.nfsServer.Some? && FilledFrom(w.spec, filled)
    requires ServerUsable(cfg, w, w.spec.nfsServer.value)
    ensures var (address, resolved) := Resolved(cfg, w, filled);
      InMemory(cfg, w, resolved, address) && resolved == filled.(nfsServer := resolved.nfsServer)
  {
    if IsExternal(w.spec.nfsServer) {
      ResolvedExternal(cfg, w, filled);
    } else {
      ResolvedManaged(cfg, w, filled);
    }
  }

  lemma ResolvedStaysUsable(cfg: Config, w: World, filled: VolumeSpec)
    requires Valid(cfg, w) && w.spec.nfsServer.Some? && FilledFrom(w.spec, filled)
    requires ServerUsable(cfg, w, w.spec.nfsServer.value)
    ensures var resolved := Resolved(cfg, w, filled).1;
      && resolved.nfsServer.Some?
      && ServerUsable(cfg, w, resolved.nfsServer.value) && AddressOk(cfg, resolved, w.status.address)
      && (AllSettled(w) ==> NfsReady(cfg, w, resolved))
  {
  }

  /** With a ready server a reconcile goes on to the reference and the resources. */
  lemma GoesOn(cfg: Config, w: World, filled: VolumeSpec, suffix: string)
    requires Valid(cfg, w) && w.spec.nfsServer.Some? && FilledFrom(w.spec, filled)
    requires ServerUsable(cfg, w, w.spec.nfsServer.value) && ServerReady(cfg, w, w.spec.nfsServer.value)
    ensures var (address, resolved) := Resolved(cfg, w, filled);
      resolved.nfsServer.Some? && resolved.storage.Some? &&
      AfterFill(cfg, w, filled, suffix) == Complete(cfg, w, resolved, address, suffix)
  {
  }

  lemma ReferenceFillable(cfg: Config, w: World, filled: VolumeSpec, suffix: string)
    requires Valid(cfg, w) && w.spec.nfsServer.Some? && ServerUsable(cfg, w, w.spec.nfsServer.value)
    requires FilledFrom(w.spec, filled)
    ensures var out := WithReference(Resolved(cfg, w, filled).1, suffix);
      Fill(out, false, cfg.Namespace()).1 && out.storage.value.capacity == w.spec.storage.value.capacity
  {
    ResolvedInMemory(cfg, w, filled);
    FillSucceedsIff(w.spec, false, cfg.Namespace());
    RefilledStands(w.spec, false, filled, cfg.Namespace(), WithReference(Resolved(cfg, w, filled).1, suffix));
  }

  /** Without a reference a reconcile stores a new one, and with it the server it has in memory. */
  lemma StoresReference(cfg: Config, w: World, filled: VolumeSpec, suffix: string)
    requires Valid(cfg, w) && w.spec.nfsServer.Some? && w.spec.referenceValue == ""
    requires ServerUsable(cfg, w, w.spec.nfsServer.value) && ServerReady(cfg, w, w.spec.nfsServer.value)
    requires FilledFrom(w.spec, filled)
    ensures AfterFill(cfg, w, filled, suffix).0 ==
      StoreSpec(cfg, w, WithReference(Resolved(cfg, w, filled).1, suffix)).0
  {
    GoesOn(cfg, w, filled, suffix);
    ResolvedInMemory(cfg, w, filled);
  }

  lemma ReferenceDescends(cfg: Config, w: World, filled: VolumeSpec, suffix: string)
    requires Valid(cfg, w) && w.spec.nfsServer.Some? && w.spec.referenceValue == "" && Serviceable(cfg, w)
    requires AllSettled(w) && filled == Fill(w.spec, false, cfg.Namespace()).0
    ensures var r := AfterFill(cfg, w, filled, suffix).0;
      Valid(cfg, r) && Serviceable(cfg, r) && Stage(cfg, r) <= 2
  {
    FillCompletes(w.spec, false, cfg.Namespace());
    StoresReference(cfg, w, filled, suffix);
    ResolvedStaysUsable(cfg, w, filled);
    ReferenceAccepted(cfg, w, suffix);
    var out := WithReference(Resolved(cfg, w, filled).1, suffix);
    ReferenceFillable(cfg, w, filled, suffix);
    StoredStands(cfg, w, out);
  }

  ghost predicate VolumeMade(w: World, spec: VolumeSpec) {
    "pv-" + spec.referenceValue in w.volumes
  }

  ghost predicate ServiceMade(cfg: Config, w: World, spec: VolumeSpec) {
    var key := (cfg.Namespace(), spec.referenceValue);
    key in w.services && PortOk(w.services[key])
  }

  lemma VolumeAndClaimMade(cfg: Config, w: World, spec: VolumeSpec)
    requires spec.nfsServer.Some? && spec.storage.Some? && cfg.isQuantity(spec.storage.value.capacity)
    requires ControllerServer(cfg.kind, cfg.volumeNamespace, spec.nfsServer.value) != ""
    ensures var (w1, ok1) := WithVolume(cfg, w, spec);
      var (w2, ok2) := WithClaim(cfg, w1, spec);
      var key := (cfg.Namespace(), spec.referenceValue);
      && ok1 && ok2 && VolumeMade(w2, spec) && key in w2.claims
      && w2 == w.(volumes := w2.volumes, claims := w2.claims, writes := w2.writes)
      && (key in w.claims ==> w2.claims == w.claims)
      && (key in w.claims && VolumeMade(w, spec) ==> w2 == w)
  {
  }

  lemma ReplicaSetAndServiceMade(cfg: Config, w: World, spec: VolumeSpec)
    ensures var r := WithService(cfg, WithReplicaSet(cfg, w, spec), spec);
      var key := (cfg.Namespace(), spec.referenceValue);
      var had := key in w.replicaSets && PortOk(w.replicaSets[key].port);
      && key in r.replicaSets && PortOk(r.replicaSets[key].port) && ServiceMade(cfg, r, spec)
      && r == w.(replicaSets := r.replicaSets, services := r.services, writes := r.writes)
      && (had ==> r.replicaSets == w.replicaSets)
      && (had && ServiceMade(cfg, w, spec) ==> r == w)
  {
  }

  /** Resource creation succeeds, and leaves what exists alone. */
  lemma ResourcesAreMade(cfg: Config, w: World, spec: VolumeSpec, address: string)
    requires InMemory(cfg, w, spec, address) && cfg.isQuantity(spec.storage.value.capacity)
    ensures var (made, ok) := WithResources(cfg, w, spec);
      && ok && ResourcesMade(cfg, made) && VolumeMade(made, spec) && ServiceMade(cfg, made, spec)
      && made == w.(volumes := made.volumes, claims := made.claims, replicaSets := made.replicaSets,
                    services := made.services, writes := made.writes)
      && (ResourcesMade(cfg, w) ==> made.claims == w.claims && made.replicaSets == w.replicaSets)
      && (ResourcesMade(cfg, w) && VolumeMade(w, spec) && ServiceMade(cfg, w, spec) ==> made == w)
  {
    VolumeAndClaimMade(cfg, w, spec);
    ReplicaSetAndServiceMade(cfg, WithClaim(cfg, WithVolume(cfg, w, spec).0, spec).0, spec);
  }

  /** With all resources there and settled, the phase becomes Ready, or everything stays. */
  lemma PhaseBecomesReady(cfg: Config, w: World, spec: VolumeSpec, address: string)
    requires InMemory(cfg, w, spec, address) && NfsReady(cfg, w, spec) && ResourcesMade(cfg, w)
    requires AddressOk(cfg, w.spec, w.status.address)
    ensures var r := WithPhase(cfg, w, spec, address);
      && r == w.(status := r.status, writes := r.writes) && AddressOk(cfg, w.spec, r.status.address)
      && (ClaimBound(cfg, w, spec) && ReplicasReady(cfg, w, spec) ==>
            && r.status.phase == "Ready" && (IsExternal(w.spec.nfsServer) ==> r.status.address != "")
            && (w.status.phase == "Ready" && (IsExternal(w.spec.nfsServer) ==> w.status.address != "") ==> r == w))
  {
  }

  lemma ResourcesDescend(cfg: Config, w: World, filled: VolumeSpec, suffix: string)
    requires Valid(cfg, w) && w.spec.nfsServer.Some? && w.spec.referenceValue != "" && Serviceable(cfg, w)
    requires w.hasNamespace && cfg.finalizer in w.finalizers
    requires AllSettled(w) && filled == Fill(w.spec, false, cfg.Namespace()).0
    ensures var r := AfterFill(cfg, w, filled, suffix).0;
      && Valid(cfg, r) && Serviceable(cfg, r)
      && Stage(cfg, r) <= (if ResourcesMade(cfg, w) then 0 else 1) && (Stage(cfg, w) == 0 ==> r == w)
  {
    FillCompletes(w.spec, false, cfg.Namespace());
    GoesOn(cfg, w, filled, suffix);
    ResolvedInMemory(cfg, w, filled);
    ResolvedStaysUsable(cfg, w, filled);
    var (address, spec) := Resolved(cfg, w, filled);
    ResourcesAreMade(cfg, w, spec, address);
    var made := WithResources(cfg, w, spec).0;
    assert InMemory(cfg, made, spec, address);
    PhaseBecomesReady(cfg, made, spec, address);
  }

  /** One round: a smaller stage, or nothing at all is written. */
  lemma RoundDescends(cfg: Config, w: World, suffix: string)
    requires Valid(cfg, w) && Serviceable(cfg, w)
    ensures var r := Round(cfg, w, suffix);
      && Valid(cfg, r) && Serviceable(cfg, r)
      && (if Stage(cfg, w) == 0 then r == Settled(w) && Stage(cfg, r) == 0 else Stage(cfg, r) < Stage(cfg, w))
  {
    SettledStands(cfg, w);
    var s := Settled(w);
    PreparedStands(cfg, s);
    var p := WithFinalizer(cfg, WithNamespace(s)).0;
    assert AllSettled(p);
    var filled := Fill(p.spec, p.spec.nfsServer.None?, cfg.Namespace()).0;
    FillCompletes(p.spec, p.spec.nfsServer.None?, cfg.Namespace());
    if p.spec.nfsServer.None? {
      GenerationDescends(cfg, p, filled, suffix);
    } else if p.spec.referenceValue == "" {
      ReferenceDescends(cfg, p, filled, suffix);
    } else {
      ResourcesDescend(cfg, p, filled, suffix);
    }
  }

  lemma VolumeAndClaimFrame(cfg: Config, w: World, spec: VolumeSpec)
    requires spec.nfsServer.Some? && spec.storage.Some?
    ensures var w1 := WithVolume(cfg, w, spec).0;
      var w2 := WithClaim(cfg, w1, spec).0;
      && w1 == w.(volumes := w1.volumes, writes := w1.writes)
      && w2 == w.(volumes := w1.volumes, claims := w2.claims, writes := w2.writes)
  {
  }

  lemma VolumesAfterResources(cfg: Config, w: World, spec: VolumeSpec)
    requires spec.nfsServer.Some? && spec.storage.Some?
    ensures var name := "pv-" + spec.referenceValue;
      WithResources(cfg, w, spec).0.volumes in
        {w.volumes, w.volumes[name := ControllerServer(cfg.kind, cfg.volumeNamespace, spec.nfsServer.value)]}
  {
    VolumeAndClaimFrame(cfg, w, spec);
    ReplicaSetAndServiceMade(cfg, WithClaim(cfg, WithVolume(cfg, w, spec).0, spec).0, spec);
  }

  lemma VolumesAfterFill(cfg: Config, w: World, filled: VolumeSpec, suffix: string)
    requires Valid(cfg, w) && w.spec.nfsServer.Some? && w.spec.referenceValue != "" && Serviceable(cfg, w)
    requires AllSettled(w) && filled == Fill(w.spec, false, cfg.Namespace()).0
    ensures var address := ControllerServer(cfg.kind, cfg.volumeNamespace, w.spec.nfsServer.value);
      AfterFill(cfg, w, filled, suffix).0.volumes in {w.volumes, w.volumes["pv-" + w.spec.referenceValue := address]}
  {
    FillCompletes(w.spec, false, cfg.Namespace());
    GoesOn(cfg, w, filled, suffix);
    ResolvedInMemory(cfg, w, filled);
    ResolvedStaysUsable(cfg, w, filled);
    VolumesAfterResources(cfg, w, Resolved(cfg, w, filled).1);
  }

  /**
   A persistent volume that a round creates carries the reference and mounts the address that the
   stored server resolves to, also when the spec in memory already has that address as its URL.
   */
  lemma NewVolumeMountsServer(cfg: Config, w: World, suffix: string, name: string)
    requires Valid(cfg, w) && Serviceable(cfg, w) && w.spec.nfsServer.Some? && w.spec.referenceValue != ""
    requires name in Round(cfg, w, suffix).volumes && name !in w.volumes
    ensures name == "pv-" + w.spec.referenceValue
    ensures Round(cfg, w, suffix).volumes[name] == ControllerServer(cfg.kind, cfg.volumeNamespace,
                                                                    w.spec.nfsServer.value)
  {
    SettledStands(cfg, w);
    PreparedStands(cfg, Settled(w));
    var p := WithFinalizer(cfg, WithNamespace(Settled(w))).0;
    assert AllSettled(p);
    VolumesAfterFill(cfg, p, Fill(p.spec, false, cfg.Namespace()).0, suffix);
  }

  lemma {:induction false} StageFallsWithRounds(cfg: Config, w: World, suffixes: seq<string>)
    requires Valid(cfg, w) && Serviceable(cfg, w)
    ensures var r := Rounds(cfg, w, suffixes);
      Valid(cfg, r) && Serviceable(cfg, r) && (Stage(cfg, r) == 0 || Stage(cfg, r) + |suffixes| <= 3)
  {
    if suffixes != [] {
      var front := suffixes[..|suffixes| - 1];
      StageFallsWithRounds(cfg, w, front);
      RoundDescends(cfg, Rounds(cfg, w, front), suffixes[|suffixes| - 1]);
    }
  }

  /** Convergence: whatever is drawn at random, Ready within three rounds and no write after that. */
  lemma ReadyWithinThree(cfg: Config, w: World, suffixes: seq<string>, suffix: string)
    requires Valid(cfg, w) && Serviceable(cfg, w) && |suffixes| >= 3
    ensures var r := Rounds(cfg, w, suffixes);
      && r.status.phase == "Ready" && r.spec.nfsServer.Some? && r.spec.referenceValue != ""
      && Rounds(cfg, w, suffixes + [suffix]) == Settled(r)
      && Rounds(cfg, w, suffixes + [suffix]).writes == r.writes
  {
    StageFallsWithRounds(cfg, w, suffixes);
    assert (suffixes + [suffix])[..|suffixes|] == suffixes;
    RoundDescends(cfg, Rounds(cfg, w, suffixes), suffix);
  }

  // ---------- the rounds that the outcomes ask for ----------

  /** The controller asks for another call; a delay of zero would ask for none. */
  predicate AsksAgain(outcome: Outcome) {
    outcome.Requeue? && outcome.seconds > 0
  }

  lemma DoneAfterFill(cfg: Config, w: World, filled: VolumeSpec, suffix: string)
    requires filled.nfsServer.Some? && filled.storage.Some?
    ensures var (r, outcome) := AfterFill(cfg, w, filled, suffix);
      && (outcome.Done? ==> r.status.phase == "Ready") && (outcome.Requeue? ==> AsksAgain(outcome))
  {
    var resolved := Resolved(cfg, w, filled).1;
    assert resolved.nfsServer.Some? && resolved.storage.Some?;
  }

  /** A reconcile that asks for nothing more leaves the volume Ready. */
  lemma DoneMeansReady(cfg: Config, w: World, suffix: string)
    ensures var (r, outcome) := Reconciled(cfg, w, suffix);
      && (outcome.Done? ==> r.status.phase == "Ready") && (outcome.Requeue? ==> AsksAgain(outcome))
  {
    var (p, ok) := WithFinalizer(cfg, WithNamespace(w));
    if ok {
      var (filled, valid) := Fill(p.spec, p.spec.nfsServer.None?, cfg.Namespace());
      if valid && filled.nfsServer.Some? {
        DoneAfterFill(cfg, p, filled, suffix);
      }
    }
  }

  lemma GenerationAsks(cfg: Config, w: World, filled: VolumeSpec, suffix: string)
    requires Valid(cfg, w) && w.spec.nfsServer.None? && Serviceable(cfg, w)
    requires filled == Fill(w.spec, true, cfg.Namespace()).0 && filled.storage.Some?
    ensures AfterFill(cfg, w, filled, suffix).1 == Requeue(2)
  {
    GenerationAccepted(cfg, w, suffix);
    FillCompletes(w.spec, true, cfg.Namespace());
  }

  lemma ReferenceAsks(cfg: Config, w: World, filled: VolumeSpec, suffix: string)
    requires Valid(cfg, w) && w.spec.nfsServer.Some? && w.spec.referenceValue == "" && Serviceable(cfg, w)
    requires AllSettled(w) && filled == Fill(w.spec, false, cfg.Namespace()).0 && filled.storage.Some?
    ensures AfterFill(cfg, w, filled, suffix).1 == Requeue(1)
  {
    FillCompletes(w.spec, false, cfg.Namespace());
    GoesOn(cfg, w, filled, suffix);
    ResolvedInMemory(cfg, w, filled);
    ReferenceAccepted(cfg, w, suffix);
  }

  lemma ResourcesAsk(cfg: Config, w: World, filled: VolumeSpec, suffix: string)
    requires Valid(cfg, w) && w.spec.nfsServer.Some? && w.spec.referenceValue != "" && Serviceable(cfg, w)
    requires AllSettled(w) && filled == Fill(w.spec, false, cfg.Namespace()).0 && filled.storage.Some?
    ensures var (r, outcome) := AfterFill(cfg, w, filled, suffix);
      outcome == if r.status.phase == "Ready" then Done else Requeue(30)
  {
    FillCompletes(w.spec, false, cfg.Namespace());
    GoesOn(cfg, w, filled, suffix);
    ResolvedInMemory(cfg, w, filled);
    var (address, spec) := Resolved(cfg, w, filled);
    ResourcesAreMade(cfg, w, spec, address);
  }

  /** What a round of a volume that can be served asks for: it never fails, and ends only in Ready. */
  lemma RoundAsks(cfg: Config, w: World, suffix: string)
    requires Valid(cfg, w) && Serviceable(cfg, w)
    ensures Reconciled(cfg, Settled(w), suffix).1 ==
      if w.spec.nfsServer.None? then Requeue(2)
      else if w.spec.referenceValue == "" then Requeue(1)
      else if Round(cfg, w, suffix).status.phase == "Ready" then Done else Requeue(30)
  {
    SettledStands(cfg, w);
    PreparedStands(cfg, Settled(w));
    var p := WithFinalizer(cfg, WithNamespace(Settled(w))).0;
    assert AllSettled(p);
    var filled := Fill(p.spec, p.spec.nfsServer.None?, cfg.Namespace()).0;
    FillCompletes(p.spec, p.spec.nfsServer.None?, cfg.Namespace());
    if p.spec.nfsServer.None? {
      GenerationAsks(cfg, p, filled, suffix);
    } else if p.spec.referenceValue == "" {
      ReferenceAsks(cfg, p, filled, suffix);
    } else {
      ResourcesAsk(cfg, p, filled, suffix);
    }
  }

  /** The rounds that take place: after the first, each only if the one before has asked for it. */
  function AskedRounds(cfg: Config, w: World, suffixes: seq<string>): (World, bool) {
    if suffixes == [] then (w, true)
    else
      var (before, asked) := AskedRounds(cfg, w, suffixes[..|suffixes| - 1]);
      if !asked then (before, false)
      else
        var (r, outcome) := Reconciled(cfg, Settled(before), suffixes[|suffixes| - 1]);
        (r, AsksAgain(outcome))
  }

  lemma {:induction false} AskedUntilReady(cfg: Config, w: World, suffixes: seq<string>)
    requires Valid(cfg, w) && Serviceable(cfg, w)
    ensures var (r, asked) := AskedRounds(cfg, w, suffixes);
      (asked ==> r == Rounds(cfg, w, suffixes)) && (!asked ==> r.status.phase == "Ready")
  {
    if suffixes != [] {
      var front, last := suffixes[..|suffixes| - 1], suffixes[|suffixes| - 1];
      AskedUntilReady(cfg, w, front);
      StageFallsWithRounds(cfg, w, front);
      RoundAsks(cfg, Rounds(cfg, w, front), last);
    }
  }

  /** So the rounds that convergence needs are asked for: those that take place lead to Ready. */
  lemma ReadyByAskedRounds(cfg: Config, w: World, suffixes: seq<string>)
    requires Valid(cfg, w) && Serviceable(cfg, w) && |suffixes| >= 3
    ensures AskedRounds(cfg, w, suffixes).0.status.phase == "Ready"
  {
    AskedUntilReady(cfg, w, suffixes);
    ReadyWithinThree(cfg, w, suffixes, "");
  }

  /** Resource creation touches the resources only. */
  lemma ResourcesFrame(cfg: Config, w: World, spec: VolumeSpec)
    requires spec.nfsServer.Some? && spec.storage.Some?
    ensures var made := WithResources(cfg, w, spec).0;
      made == w.(volumes := made.volumes, claims := made.claims, replicaSets := made.replicaSets,
                 services := made.services, writes := made.writes)
  {
    VolumeAndClaimFrame(cfg, w, spec);
    ReplicaSetAndServiceMade(cfg, WithClaim(cfg, WithVolume(cfg, w, spec).0, spec).0, spec);
  }

  lemma StuckResources(cfg: Config, w: World, spec: VolumeSpec, address: string)
    requires spec.nfsServer.Some? && spec.storage.Some?
    requires spec.nfsServer.value.name == "" && !IsExternal(spec.nfsServer) &&
      (forall k :: k in w.servers ==> k.1 != "")
    ensures var (made, ok) := WithResources(cfg, w, spec);
      var r := if ok then WithPhase(cfg, made, spec, address) else made;
      && made == w.(volumes := made.volumes, claims := made.claims, replicaSets := made.replicaSets,
                    services := made.services, writes := made.writes)
      && r == made.(status := r.status, writes := r.writes) && r.status.address == w.status.address
      && (r.status.phase == "Ready" ==> w.status.phase == "Ready")
  {
    ResourcesFrame(cfg, w, spec);
    assert !NfsReady(cfg, WithResources(cfg, w, spec).0, spec);
  }

  /** No server can be found for the volume, or a spec write that is due is rejected: nothing helps. */
  lemma StuckWithoutServer(cfg: Config, w: World, filled: VolumeSpec, suffix: string)
    requires Valid(cfg, w) && w.spec.nfsServer.Some? && !ServerUsable(cfg, w, w.spec.nfsServer.value)
    requires filled == Fill(w.spec, false, cfg.Namespace()).0
    ensures var r := AfterFill(cfg, w, filled, suffix).0;
      Valid(cfg, r) && !Serviceable(cfg, r) && (r.status.phase == "Ready" ==> w.status.phase == "Ready")
  {
    var ns := cfg.Namespace();
    FillCompletes(w.spec, false, ns);
    var server := w.spec.nfsServer.value;
    if server.name == "" {
      assert AfterFill(cfg, w, filled, suffix) == Complete(cfg, w, filled, w.status.address, suffix);
      assert AddressOk(cfg, filled, w.status.address);
      if filled.referenceValue == "" {
        var out := WithReference(filled, suffix);
        FillSucceedsIff(w.spec, false, ns);
        RefilledStands(w.spec, false, filled, ns, out);
        if UpdateAccepted(w.spec, out, cfg.parse) {
          StoredStands(cfg, w, out);
        }
      } else {
        StuckResources(cfg, w, filled, w.status.address);
      }
    }
  }

  lemma StuckByRejection(cfg: Config, w: World, filled: VolumeSpec, suffix: string)
    requires Valid(cfg, w) && w.spec.nfsServer.Some? && ServerUsable(cfg, w, w.spec.nfsServer.value)
    requires w.spec.referenceValue == "" && !Serviceable(cfg, w) && AllSettled(w)
    requires filled == Fill(w.spec, false, cfg.Namespace()).0
    ensures AfterFill(cfg, w, filled, suffix).0 == w
  {
    FillCompletes(w.spec, false, cfg.Namespace());
    GoesOn(cfg, w, filled, suffix);
    ReferenceAccepted(cfg, w, suffix);
  }

  lemma RoundStuck(cfg: Config, w: World, suffix: string)
    requires Valid(cfg, w) && !Serviceable(cfg, w)
    ensures var r := Round(cfg, w, suffix);
      && Valid(cfg, r) && !Serviceable(cfg, r) && Stage(cfg, r) != 0
      && (r.status.phase == "Ready" ==> w.status.phase == "Ready")
  {
    SettledStands(cfg, w);
    var s := Settled(w);
    PreparedStands(cfg, s);
    var p := WithFinalizer(cfg, WithNamespace(s)).0;
    assert AllSettled(p);
    var filled := Fill(p.spec, p.spec.nfsServer.None?, cfg.Namespace()).0;
    if p.spec.nfsServer.None? {
      GenerationAccepted(cfg, p, suffix);
    } else if !ServerUsable(cfg, p, p.spec.nfsServer.value) {
      StuckWithoutServer(cfg, p, filled, suffix);
    } else {
      StuckByRejection(cfg, p, filled, suffix);
    }
  }

  lemma {:induction false} RoundsStuck(cfg: Config, w: World, suffixes: seq<string>)
    requires Valid(cfg, w) && !Serviceable(cfg, w)
    ensures var r := Rounds(cfg, w, suffixes);
      Valid(cfg, r) && !Serviceable(cfg, r) && (r.status.phase == "Ready" ==> w.status.phase == "Ready")
  {
    if suffixes != [] {
      var front := suffixes[..|suffixes| - 1];
      RoundsStuck(cfg, w, front);
      RoundStuck(cfg, Rounds(cfg, w, front), suffixes[|suffixes| - 1]);
    }
  }

  /**
   A valid volume that is not Ready can become Ready exactly when its server is to be generated, is
   external, or is named and exists, and the spec write that is due passes the webhook.
   */
  lemma BecomesReadyIff(cfg: Config, w: World)
    requires Valid(cfg, w) && w.status.phase != "Ready"
    ensures (exists suffixes :: Rounds(cfg, w, suffixes).status.phase == "Ready") <==> Serviceable(cfg, w)
  {
    if Serviceable(cfg, w) {
      ReadyWithinThree(cfg, w, ["", "", ""], "");
    } else {
      forall suffixes
        ensures Rounds(cfg, w, suffixes).status.phase != "Ready"
      {
        RoundsStuck(cfg, w, suffixes);
      }
    }
  }

  // ---------- where the phase lags behind ----------

  /** The spec in memory calls for the same phase as the stored one. */
  lemma SamePhase(cfg: Config, w: World, filled: VolumeSpec, resolved: VolumeSpec)
    requires w.spec.nfsServer.Some? && FilledFrom(w.spec, filled) && resolved.nfsServer.Some?
    requires resolved == filled.(nfsServer := resolved.nfsServer)
    requires resolved.nfsServer == filled.nfsServer ||
      (!IsExternal(filled.nfsServer) && ServerReady(cfg, w, filled.nfsServer.value) &&
       resolved.nfsServer.value == filled.nfsServer.value.(url := resolved.nfsServer.value.url))
    ensures PhaseNow(cfg, w, resolved) == PhaseNow(cfg, w, w.spec)
  {
  }

  lemma PhaseIsStored(cfg: Config, w: World, spec: VolumeSpec, address: string)
    requires spec.nfsServer.Some?
    ensures var r := WithPhase(cfg, w, spec, address);
      && r == w.(status := r.status, writes := r.writes) && r.status.phase == PhaseNow(cfg, w, spec)
      && PhaseNow(cfg, r, spec) == PhaseNow(cfg, w, spec)
  {
  }

  lemma ResolvedServer(cfg: Config, w: World, filled: VolumeSpec)
    requires filled.nfsServer.Some?
    ensures var spec := Resolved(cfg, w, filled).1;
      && spec == filled.(nfsServer := spec.nfsServer) && spec.nfsServer.Some?
      && (spec.nfsServer == filled.nfsServer ||
          (!IsExternal(filled.nfsServer) &&
           spec.nfsServer.value == filled.nfsServer.value.(url := spec.nfsServer.value.url)))
  {
  }

  /** Once the server is ready, the phase that the reconcile leaves is the one that is called for. */
  lemma ReadyServerTracksPhase(cfg: Config, w: World, filled: VolumeSpec, suffix: string)
    requires Valid(cfg, w) && w.spec.nfsServer.Some? && w.spec.referenceValue != "" && FilledFrom(w.spec, filled)
    requires ServerUsable(cfg, w, w.spec.nfsServer.value) && ServerReady(cfg, w, w.spec.nfsServer.value)
    ensures var r := AfterFill(cfg, w, filled, suffix).0;
      r.spec == w.spec && r.status.phase == PhaseNow(cfg, r, r.spec)
  {
    GoesOn(cfg, w, filled, suffix);
    ResolvedInMemory(cfg, w, filled);
    var (address, spec) := Resolved(cfg, w, filled);
    ResourcesAreMade(cfg, w, spec, address);
    var made := WithResources(cfg, w, spec).0;
    PhaseIsStored(cfg, made, spec, address);
    var r := WithPhase(cfg, made, spec, address);
    ResolvedServer(cfg, w, filled);
    SamePhase(cfg, r, filled, spec);
  }

  lemma UnreadyServerStops(cfg: Config, w: World, filled: VolumeSpec, suffix: string)
    requires w.spec.nfsServer.Some? && FilledFrom(w.spec, filled)
    requires w.spec.nfsServer.value.name != "" && !ServerReady(cfg, w, w.spec.nfsServer.value)
    ensures filled.storage.Some? && AfterFill(cfg, w, filled, suffix) == (w, Requeue(5))
  {
  }

  /**
   A reconcile of a volume with a reference and an external or named server leaves the phase that the
   stored objects call for exactly when the server is ready or the phase was Pending before.
   */
  lemma PhaseTrackedIff(cfg: Config, w: World, suffix: string)
    requires Valid(cfg, w) && w.spec.nfsServer.Some? && w.spec.referenceValue != ""
    requires IsExternal(w.spec.nfsServer) || w.spec.nfsServer.value.name != ""
    ensures var r := Reconciled(cfg, w, suffix).0;
      r.status.phase == PhaseNow(cfg, r, r.spec) <==>
      ServerReady(cfg, w, w.spec.nfsServer.value) || w.status.phase == "Pending"
  {
    PreparedStands(cfg, w);
    var p := WithFinalizer(cfg, WithNamespace(w)).0;
    var filled := Fill(p.spec, false, cfg.Namespace()).0;
    FillCompletes(p.spec, false, cfg.Namespace());
    if ServerReady(cfg, p, p.spec.nfsServer.value) {
      ReadyServerTracksPhase(cfg, p, filled, suffix);
    } else {
      UnreadyServerStops(cfg, p, filled, suffix);
    }
  }

  /** The failing input: a server that is not ready ends the reconcile early, so Ready is not withdrawn. */
  lemma UnreadyServerKeepsStatus(cfg: Config, w: World, suffix: string)
    requires Valid(cfg, w) && w.spec.nfsServer.Some? && w.spec.nfsServer.value.name != ""
    requires !ServerReady(cfg, w, w.spec.nfsServer.value)
    ensures var (r, outcome) := Reconciled(cfg, w, suffix);
      r.status == w.status && outcome == Requeue(5) && PhaseNow(cfg, r, r.spec) == "Pending"
  {
    PreparedStands(cfg, w);
    var p := WithFinalizer(cfg, WithNamespace(w)).0;
    FillCompletes(p.spec, false, cfg.Namespace());
    UnreadyServerStops(cfg, p, Fill(p.spec, false, cfg.Namespace()).0, suffix);
  }

  /** Such a volume exists: SharedVolume "team/data" was Ready, and its server nfs-0 is not any more. */
  lemma UnreadyServerExample(cfg: Config) returns (w: World)
    requires cfg.kind.Namespaced? && cfg.volumeNamespace == "team" && cfg.isQuantity("1Gi")
    ensures Valid(cfg, w) && w.spec.nfsServer.Some? && w.spec.nfsServer.value.name != ""
    ensures !ServerReady(cfg, w, w.spec.nfsServer.value) && w.status.phase == "Ready"
  {
    var server := NfsServerSpec("nfs-0", "team", "", "", "/");
    var spec := VolumeSpec(Some(server), "/data", "", "", Some(StorageSpec("1Gi", "ReadOnly")), None, "", "team",
                           "sv-0");
    var address := ManagedAddress(Namespaced, "team", server);
    w := World(true, [], spec, Status("Ready", "", address), map[("team", "nfs-0") := false], map[], map[], map[],
               map[], 0);
    assert !IsExternal(Some(server));
    ServiceAddressHasDot("nfs-0", "team");
  }

  /**
   A generated server is created once, right after the spec that names it is stored. If that creation
   fails, the volume never becomes Ready on its own.
   */
  lemma LostServerIsNotRetried(cfg: Config, w: World, first: string, suffixes: seq<string>)
    requires Valid(cfg, w) && w.spec.nfsServer.None? && Serviceable(cfg, w) && w.status.phase != "Ready"
    requires var spec := Generated(Fill(w.spec, true, cfg.Namespace()).0, first, cfg.Namespace());
      '.' !in spec.referenceValue && (cfg.Namespace(), spec.nfsServer.value.name) !in w.servers
    ensures var spec := Generated(Fill(w.spec, true, cfg.Namespace()).0, first, cfg.Namespace());
      Rounds(cfg, StoreSpec(cfg, w, spec).0, suffixes).status.phase != "Ready"
  {
    var spec := Generated(Fill(w.spec, true, cfg.Namespace()).0, first, cfg.Namespace());
    GenerationAccepted(cfg, w, first);
    GeneratedIsManaged(spec.referenceValue, cfg.Namespace());
    RoundsStuck(cfg, StoreSpec(cfg, w, spec).0, suffixes);
  }

  // ---------- which server the two persistent volumes mount ----------

  ghost predicate AddressesAgree(cfg: Config, spec: VolumeSpec) {
    spec.nfsServer.Some? &&
    ControllerServer(cfg.kind, cfg.volumeNamespace, spec.nfsServer.value) == WebhookServer(spec.nfsServer.value)
  }

  /**
   The server is to be generated, is external or has its address as URL; or the reference is still
   to be written and the status has no address yet, so that the URL is written with it.
   */
  predicate WillAgree(cfg: Config, w: World) {
    match w.spec.nfsServer
    case None => true
    case Some(server) =>
      || IsExternal(Some(server)) || server.url == ManagedAddress(cfg.kind, cfg.volumeNamespace, server)
      || (w.spec.referenceValue == "" && w.status.address == "")
  }

  lemma GenerationAgrees(cfg: Config, w: World, filled: VolumeSpec, suffix: string)
    requires Valid(cfg, w) && w.spec.nfsServer.None? && Serviceable(cfg, w) &&
      filled == Fill(w.spec, true, cfg.Namespace()).0
    ensures WillAgree(cfg, WithGenerated(cfg, w, filled, suffix).0)
  {
    GenerationAccepted(cfg, w, suffix);
    var out := Generated(filled, suffix, cfg.Namespace());
    GeneratedAddressesAgree(cfg.kind, cfg.volumeNamespace, out.referenceValue, cfg.Namespace());
    ServerCreated(cfg, StoreSpec(cfg, w, out).0, out.nfsServer.value);
  }

  lemma ResolvedAgrees(cfg: Config, w: World, filled: VolumeSpec)
    requires Valid(cfg, w) && w.spec.nfsServer.Some? && FilledFrom(w.spec, filled) && w.spec.referenceValue == ""
    requires ServerUsable(cfg, w, w.spec.nfsServer.value)
    ensures var resolved := Resolved(cfg, w, filled).1;
      resolved.nfsServer.Some? && (WillAgree(cfg, w) <==>
        IsExternal(resolved.nfsServer) ||
        resolved.nfsServer.value.url == ManagedAddress(cfg.kind, cfg.volumeNamespace, resolved.nfsServer.value))
  {
    var server := filled.nfsServer.value;
    if !IsExternal(filled.nfsServer) && w.status.address == "" {
      WriteBackKeepsAddress(cfg.kind, cfg.volumeNamespace, server);
    }
  }

  lemma ReferenceAgrees(cfg: Config, w: World, filled: VolumeSpec, suffix: string)
    requires Valid(cfg, w) && w.spec.nfsServer.Some? && w.spec.referenceValue == "" && Serviceable(cfg, w)
    requires AllSettled(w) && filled == Fill(w.spec, false, cfg.Namespace()).0
    ensures WillAgree(cfg, AfterFill(cfg, w, filled, suffix).0) == WillAgree(cfg, w)
  {
    FillCompletes(w.spec, false, cfg.Namespace());
    GoesOn(cfg, w, filled, suffix);
    ResolvedInMemory(cfg, w, filled);
    ReferenceAccepted(cfg, w, suffix);
    ResolvedAgrees(cfg, w, filled);
  }

  lemma ResourcesAgree(cfg: Config, w: World, filled: VolumeSpec, suffix: string)
    requires Valid(cfg, w) && w.spec.nfsServer.Some? && w.spec.referenceValue != "" && Serviceable(cfg, w)
    requires AllSettled(w) && filled == Fill(w.spec, false, cfg.Namespace()).0
    ensures AfterFill(cfg, w, filled, suffix).0.spec == w.spec
  {
    FillCompletes(w.spec, false, cfg.Namespace());
    ReadyServerTracksPhase(cfg, w, filled, suffix);
  }

  lemma RoundAgrees(cfg: Config, w: World, suffix: string)
    requires Valid(cfg, w) && Serviceable(cfg, w)
    ensures WillAgree(cfg, Round(cfg, w, suffix)) == WillAgree(cfg, w)
    ensures w.spec.nfsServer.Some? && w.spec.referenceValue != "" ==> Round(cfg, w, suffix).spec == w.spec
  {
    SettledStands(cfg, w);
    PreparedStands(cfg, Settled(w));
    var p := WithFinalizer(cfg, WithNamespace(Settled(w))).0;
    assert AllSettled(p) && WillAgree(cfg, p) == WillAgree(cfg, w);
    var filled := Fill(p.spec, p.spec.nfsServer.None?, cfg.Namespace()).0;
    FillCompletes(p.spec, p.spec.nfsServer.None?, cfg.Namespace());
    if p.spec.nfsServer.None? {
      GenerationAgrees(cfg, p, filled, suffix);
    } else if p.spec.referenceValue == "" {
      ReferenceAgrees(cfg, p, filled, suffix);
    } else {
      ResourcesAgree(cfg, p, filled, suffix);
    }
  }

  lemma {:induction false} RoundsAgree(cfg: Config, w: World, suffixes: seq<string>)
    requires Valid(cfg, w) && Serviceable(cfg, w)
    ensures WillAgree(cfg, Rounds(cfg, w, suffixes)) == WillAgree(cfg, w)
    ensures w.spec.nfsServer.Some? && w.spec.referenceValue != "" ==> Rounds(cfg, w, suffixes).spec == w.spec
  {
    if suffixes != [] {
      var front := suffixes[..|suffixes| - 1];
      RoundsAgree(cfg, w, front);
      StageFallsWithRounds(cfg, w, front);
      RoundAgrees(cfg, Rounds(cfg, w, front), suffixes[|suffixes| - 1]);
    }
  }

  /**
   Once a volume has become Ready, its pods and the controller mount the same server exactly when, at
   the start, the server was to be generated, was external or had its managed address as URL, or
   neither a reference nor a status address was there.
   */
  lemma AddressesAgreeIff(cfg: Config, w: World, suffixes: seq<string>)
    requires Valid(cfg, w) && Serviceable(cfg, w) && |suffixes| >= 3
    ensures AddressesAgree(cfg, Rounds(cfg, w, suffixes).spec) <==> WillAgree(cfg, w)
  {
    ReadyWithinThree(cfg, w, suffixes, "");
    RoundsAgree(cfg, w, suffixes);
  }

  /**
   The failing input: an existing managed server named without a URL in a volume that already has a
   reference. It becomes Ready, yet its pods mount the server of the empty name.
   */
  lemma NamedServerIsNotWritten(cfg: Config, w: World, suffixes: seq<string>)
    requires Valid(cfg, w) && |suffixes| >= 3 && w.spec.referenceValue != "" && w.spec.nfsServer.Some?
    requires w.spec.nfsServer.value.url == "" && w.spec.nfsServer.value.name != ""
    requires ServerKey(cfg, w.spec.nfsServer.value) in w.servers
    ensures var r := Rounds(cfg, w, suffixes);
      && r.status.phase == "Ready" && r.spec == w.spec && WebhookServer(r.spec.nfsServer.value) == ""
      && ControllerServer(cfg.kind, cfg.volumeNamespace, r.spec.nfsServer.value) ==
           ManagedAddress(cfg.kind, cfg.volumeNamespace, w.spec.nfsServer.value) != ""
  {
    ReadyWithinThree(cfg, w, suffixes, "");
    RoundsAgree(cfg, w, suffixes);
  }

  /** Such a volume exists: SharedVolume "team/data" with the reference sv-0 and the server nfs-0. */
  lemma NamedServerExample(cfg: Config) returns (w: World)
    requires cfg.kind.Namespaced? && cfg.volumeNamespace == "team" && cfg.isQuantity("1Gi")
    ensures Valid(cfg, w) && Serviceable(cfg, w) && !WillAgree(cfg, w)
  {
    var server := NfsServerSpec("nfs-0", "team", "", "", "/");
    var spec := VolumeSpec(Some(server), "/data", "", "", Some(StorageSpec("1Gi", "ReadOnly")), None, "", "team",
                           "sv-0");
    w := World(true, [], spec, Status("", "", ""), map[("team", "nfs-0") := true], map[], map[], map[], map[], 0);
    assert !IsExternal(Some(server));
    ServiceAddressHasDot("nfs-0", "team");
  }
}
