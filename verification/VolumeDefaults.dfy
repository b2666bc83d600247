/** How the controller fills in a volume: defaults, a generated NFS server, addresses. */
module VolumeDefaults {
  import opened Common
  import opened VolumeTypes

  const DOMAIN := ".svc.cluster.local"

  // ---------- addresses ----------

  predicate HasPrefix(s: string, prefix: string) {
    |prefix| <= |s| && s[..|prefix|] == prefix
  }

  /** Whether the spec names a server outside the cluster's NfsServer resources. */
  predicate IsExternal(server: Option<NfsServerSpec>) {
    if server.None? then false
    else
      var n := server.value;
      if n.url != "" && n.name == "" then true
      else if n.url != "" && n.name != "" && ('.' in n.name || n.name == n.url) then true
      else n.url != "" && '.' in n.url && (n.name == "" || !HasPrefix(n.name, "nfs-"))
  }

  /** The namespace of a cluster-scoped volume is empty: the operation namespace stands in. */
  function ServerNamespace(kind: VolumeKind, volumeNamespace: string, server: NfsServerSpec): string {
    var namespace := if server.namespace != "" then server.namespace else volumeNamespace;
    if namespace == "" && kind.Cluster? then OPERATION_NAMESPACE else namespace
  }

  function ServiceAddress(name: string, namespace: string): string {
    name + "." + namespace + DOMAIN
  }

  /** Empty when name or namespace is missing. */
  function ManagedAddress(kind: VolumeKind, volumeNamespace: string, server: NfsServerSpec): string {
    var namespace := ServerNamespace(kind, volumeNamespace, server);
    if server.name != "" && namespace != "" then ServiceAddress(server.name, namespace) else ""
  }

  /** The server that the controller's own PersistentVolume mounts. */
  function ControllerServer(kind: VolumeKind, volumeNamespace: string, server: NfsServerSpec): string {
    if IsExternal(Some(server)) then server.url else ManagedAddress(kind, volumeNamespace, server)
  }

  /** The server that the PersistentVolume of a pod mounts. */
  function WebhookServer(server: NfsServerSpec): string {
    server.url
  }

  function GeneratedServer(reference: string, namespace: string): NfsServerSpec {
    NfsServerSpec("nfs-" + reference, namespace, ServiceAddress("nfs-" + reference, namespace), "", "/")
  }

  /** A service address ends in the cluster domain, so it has a dot and no volume name equals it. */
  lemma ServiceAddressHasDot(name: string, namespace: string)
    ensures '.' in ServiceAddress(name, namespace) && |ServiceAddress(name, namespace)| > |name|
  {
    assert ServiceAddress(name, namespace)[|name|] == '.';
  }

  /** A server with a URL is external without a name, or with one that is a host or no nfs- name of a host. */
  lemma ExternalIff(n: NfsServerSpec)
    ensures IsExternal(Some(n)) <==>
      n.url != "" && (n.name == "" || '.' in n.name || n.name == n.url || ('.' in n.url && !HasPrefix(n.name, "nfs-")))
    ensures !IsExternal(None)
  {
  }

  /** A generated server is named after the reference, exports its root, and has its own service as URL. */
  lemma GeneratedServerIs(reference: string, namespace: string)
    ensures GeneratedServer(reference, namespace) ==
      NfsServerSpec("nfs-" + reference, namespace, "nfs-" + reference + "." + namespace + ".svc.cluster.local", "", "/")
  {
  }

  /** In whatever namespaces, two servers with dot-free names have one address only if they are the same. */
  lemma AddressNamesServer(name: string, namespace: string, other: string, elsewhere: string)
    requires Free('.', name) && Free('.', other)
    ensures ServiceAddress(name, namespace) == ServiceAddress(other, elsewhere) <==>
      name == other && namespace == elsewhere
    ensures ServiceAddress("nfs-0", "team") == "nfs-0.team.svc.cluster.local"
  {
    var a, b := ServiceAddress(name, namespace), ServiceAddress(other, elsewhere);
    assert a == name + ['.'] + (namespace + DOMAIN) && b == other + ['.'] + (elsewhere + DOMAIN);
    if a == b {
      SplitUnique(name, namespace + DOMAIN, '.', other, elsewhere + DOMAIN);
      CancelRight(namespace, elsewhere, DOMAIN);
    }
  }

  /** A generated server is managed by the operator exactly when its reference has no dot. */
  lemma GeneratedIsManaged(reference: string, namespace: string)
    ensures IsExternal(Some(GeneratedServer(reference, namespace))) <==> '.' in reference
  {
    var server := GeneratedServer(reference, namespace);
    ServiceAddressHasDot(server.name, namespace);
    assert HasPrefix(server.name, "nfs-");
    assert '.' in server.name <==> '.' in reference by {
      assert server.name[4..] == reference;
      assert forall i :: 0 <= i < 4 ==> server.name[i] == "nfs-"[i];
      if '.' in reference {
        var j :| 0 <= j < |reference| && reference[j] == '.';
        assert server.name[j + 4] == '.';
      }
    }
  }

  /** Both PersistentVolumes of a generated server mount the same address. */
  lemma GeneratedAddressesAgree(kind: VolumeKind, volumeNamespace: string, reference: string, namespace: string)
    requires namespace != ""
    ensures var server := GeneratedServer(reference, namespace);
      ControllerServer(kind, volumeNamespace, server) == WebhookServer(server) == ServiceAddress("nfs-" + reference,
                                                                                                 namespace)
  {
    assert ("nfs-" + reference)[0] == 'n';
  }

  /**
   Writing the managed address into the URL of the spec keeps the resolved address and makes the two
   PersistentVolumes agree, also when the written URL makes the server look external; it does so
   exactly when the name is not an "nfs-" name.
   */
  lemma WriteBackKeepsAddress(kind: VolumeKind, volumeNamespace: string, server: NfsServerSpec)
    requires !IsExternal(Some(server)) && ManagedAddress(kind, volumeNamespace, server) != ""
    ensures var address := ManagedAddress(kind, volumeNamespace, server);
      var written := server.(url := address);
      && ControllerServer(kind, volumeNamespace, written) == ControllerServer(kind, volumeNamespace, server)
      && WebhookServer(written) == ControllerServer(kind, volumeNamespace, written)
      && (IsExternal(Some(written)) <==> '.' in server.name || !HasPrefix(server.name, "nfs-"))
      && ManagedAddress(kind, volumeNamespace, written) == address
  {
    ServiceAddressHasDot(server.name, ServerNamespace(kind, volumeNamespace, server));
  }

  // ---------- folders ----------

  function Folder(name: string, namespace: string): string {
    name + "-" + namespace
  }

  /** The folder that the init container of the volume's ReplicaSet creates. */
  function InitFolder(name: string, reconcileNamespace: string): string {
    "/nfs/" + Folder(name, reconcileNamespace)
  }

  /** The folder that a sync writes to: keyed by the volume's namespace, or its resource namespace. */
  function SyncTarget(kind: VolumeKind, name: string, volumeNamespace: string, spec: VolumeSpec): string {
    "/nfs/" + Folder(name, if kind.Namespaced? then volumeNamespace else spec.resourceNamespace)
  }

  /** The share that a pod mounts, below the path of the server. */
  function WebhookShare(kind: VolumeKind, path: string, name: string, podNamespace: string): string {
    path + "/" + Folder(name, if kind.Namespaced? then podNamespace else OPERATION_NAMESPACE)
  }

  /** Where the controller works for a volume. */
  function ReconcileNamespace(kind: VolumeKind, volumeNamespace: string): string {
    if kind.Namespaced? then volumeNamespace else OPERATION_NAMESPACE
  }

  /** All three name one folder exactly when a cluster volume's resource namespace is the default. */
  lemma FoldersAgree(kind: VolumeKind, name: string, volumeNamespace: string, spec: VolumeSpec, path: string)
    ensures
      var init := InitFolder(name, ReconcileNamespace(kind, volumeNamespace));
      var sync := SyncTarget(kind, name, volumeNamespace, spec);
      var share := WebhookShare(kind, path, name, volumeNamespace);
      && init == "/nfs/" + Folder(name, ReconcileNamespace(kind, volumeNamespace))
      && share == path + "/" + Folder(name, ReconcileNamespace(kind, volumeNamespace))
      && (sync == init <==> kind.Namespaced? || spec.resourceNamespace == OPERATION_NAMESPACE)
  {
    var init := InitFolder(name, ReconcileNamespace(kind, volumeNamespace));
    if SyncTarget(kind, name, volumeNamespace, spec) == init && kind.Cluster? {
      CancelLeft("/nfs/", Folder(name, spec.resourceNamespace), Folder(name, OPERATION_NAMESPACE));
      CancelLeft(name + "-", spec.resourceNamespace, OPERATION_NAMESPACE);
    }
  }

  // ---------- defaulting ----------

  /** The defaulted spec, and whether it is acceptable; a rejected spec keeps its early defaults. */
  function Fill(spec: VolumeSpec, generate: bool, namespace: string): (VolumeSpec, bool) {
    var s1 := if spec.resourceNamespace == "" then spec.(resourceNamespace := namespace) else spec;
    if s1.mountPath == "" then (s1, false)
    else
      var s2 :=
        if s1.source.None? then s1
        else s1.(syncInterval := if s1.syncInterval == "" then "60s" else s1.syncInterval,
                 syncTimeout := if s1.syncTimeout == "" then "120s" else s1.syncTimeout);
      if s2.storage.None? || s2.storage.value.capacity == "" then (s2, false)
      else if s2.storage.value.accessMode !in {"", "ReadWrite", "ReadOnly"} then (s2, false)
      else
        var s3 := if s2.storage.value.accessMode == ""
                  then s2.(storage := Some(s2.storage.value.(accessMode := "ReadOnly"))) else s2;
        if generate && s3.storageClassName == "" then (s3, false)
        else if !generate && s3.nfsServer.Some? && s3.nfsServer.value.path == ""
        then (s3.(nfsServer := Some(s3.nfsServer.value.(path := "/"))), true)
        else (s3, true)
  }

  /** An empty text stands for a missing one. */
  function Or(given: string, otherwise: string): string {
    if given == "" then otherwise else given
  }

  lemma FillKeepsStorage(spec: VolumeSpec, generate: bool, namespace: string)
    requires Fill(spec, generate, namespace).1
    ensures var f := Fill(spec, generate, namespace).0;
      && spec.storage.Some? && f.storage.Some? && f.storage.value.capacity == spec.storage.value.capacity != ""
      && f.storage.value.accessMode == Or(spec.storage.value.accessMode, "ReadOnly")
      && f.storage.value.accessMode in {"ReadOnly", "ReadWrite"}
  {
  }

  /** Defaulting keeps whatever is given and supplies only what is missing, field by field. */
  lemma FillKeepsTheGiven(spec: VolumeSpec, generate: bool, namespace: string)
    requires Fill(spec, generate, namespace).1
    ensures var f := Fill(spec, generate, namespace).0;
      && f.resourceNamespace == Or(spec.resourceNamespace, namespace)
      && (spec.source.Some? ==>
            f.syncInterval == Or(spec.syncInterval, "60s") && f.syncTimeout == Or(spec.syncTimeout, "120s"))
      && (spec.source.None? ==> f.syncInterval == spec.syncInterval && f.syncTimeout == spec.syncTimeout)
      && spec.storage.Some? && f.storage.Some? && f.storage.value.capacity == spec.storage.value.capacity != ""
      && f.storage.value.accessMode == Or(spec.storage.value.accessMode, "ReadOnly")
      && f.storage.value.accessMode in {"ReadOnly", "ReadWrite"}
      && (generate || spec.nfsServer.None? ==> f.nfsServer == spec.nfsServer)
      && (!generate && spec.nfsServer.Some? ==>
            f.nfsServer == Some(spec.nfsServer.value.(path := Or(spec.nfsServer.value.path, "/"))))
      && f.mountPath == spec.mountPath != "" && f.source == spec.source && f.referenceValue == spec.referenceValue
      && f.storageClassName == spec.storageClassName && (generate ==> f.storageClassName != "")
  {
    FillKeepsStorage(spec, generate, namespace);
  }

  /** A rejected spec keeps what is given, too, with the defaults of the fields before the failing one. */
  lemma RejectedKeepsTheGiven(spec: VolumeSpec, generate: bool, namespace: string)
    requires !Fill(spec, generate, namespace).1
    ensures var f := Fill(spec, generate, namespace).0;
      && f.resourceNamespace == Or(spec.resourceNamespace, namespace) && f.nfsServer == spec.nfsServer
      && (spec.mountPath == "" ==> f == spec.(resourceNamespace := f.resourceNamespace))
      && (spec.mountPath != "" && spec.source.Some? ==>
            f.syncInterval == Or(spec.syncInterval, "60s") && f.syncTimeout == Or(spec.syncTimeout, "120s"))
      && (f.storage != spec.storage ==> generate && spec.storageClassName == "")
  {
  }

  function WithReference(spec: VolumeSpec, suffix: string): VolumeSpec {
    if spec.referenceValue == "" then spec.(referenceValue := "sv-" + suffix) else spec
  }

  function Generated(spec: VolumeSpec, suffix: string, namespace: string): VolumeSpec {
    var s := WithReference(spec, suffix);
    s.(nfsServer := Some(GeneratedServer(s.referenceValue, namespace)))
  }

  /** Defaulting settles in one pass: a second pass changes nothing. */
  lemma FillIsIdempotent(spec: VolumeSpec, generate: bool, namespace: string)
    requires Fill(spec, generate, namespace).1
    ensures Fill(Fill(spec, generate, namespace).0, generate, namespace) == (Fill(spec, generate, namespace).0, true)
  {
  }

  /** The address and the spec after a look at a ready server. */
  function SetAddress(kind: VolumeKind, namespace: string, address: string, spec: VolumeSpec, nfsReady: bool)
    : (string, VolumeSpec)
  {
    if !nfsReady || address != "" || spec.nfsServer.None? then (address, spec)
    else
      var resolved := ControllerServer(kind, namespace, spec.nfsServer.value);
      if IsExternal(spec.nfsServer) || resolved == "" then (resolved, spec)
      else (resolved, spec.(nfsServer := Some(spec.nfsServer.value.(url := resolved))))
  }

  /** The volume as the controller holds it in memory during one reconcile. */
  class VolumeObject {
    const kind: VolumeKind
    const namespace: string
    var spec: VolumeSpec
    var phase: string
    var message: string
    var address: string

    constructor (kind: VolumeKind, namespace: string, spec: VolumeSpec, phase: string, message: string, address: string)
      ensures this.kind == kind && this.namespace == namespace && this.spec == spec
      ensures this.phase == phase && this.message == message && this.address == address
    {
      this.kind, this.namespace, this.spec := kind, namespace, spec;
      this.phase, this.message, this.address := phase, message, address;
    }

    method FillAndValidateSpec(generateNfsServer: bool, ns: string) returns (ok: bool)
      modifies this`spec
      ensures (spec, ok) == Fill(old(spec), generateNfsServer, ns)
    {
      if spec.resourceNamespace == "" {
        spec := spec.(resourceNamespace := ns);
      }
      if spec.mountPath == "" {
        return false;
      }
      if spec.source.Some? {
        if spec.syncInterval == "" {
          spec := spec.(syncInterval := "60s");
        }
        if spec.syncTimeout == "" {
          spec := spec.(syncTimeout := "120s");
        }
      }
      if spec.storage.None? {
        return false;
      }
      if spec.storage.value.capacity == "" {
        return false;
      }
      if spec.storage.value.accessMode == "" {
        spec := spec.(storage := Some(spec.storage.value.(accessMode := "ReadOnly")));
      } else if spec.storage.value.accessMode != "ReadWrite" && spec.storage.value.accessMode != "ReadOnly" {
        return false;
      }
      if generateNfsServer && spec.storageClassName == "" {
        return false;
      }
      if !generateNfsServer && spec.nfsServer.Some? {
        if spec.nfsServer.value.path == "" {
          spec := spec.(nfsServer := Some(spec.nfsServer.value.(path := "/")));
        }
      }
      return true;
    }

    /** The in-memory half of server generation; `suffix` is what the random source gave. */
    method GenerateNfsServer(suffix: string, ns: string)
      modifies this`spec
      ensures spec == Generated(old(spec), suffix, ns)
    {
      if spec.referenceValue == "" {
        spec := spec.(referenceValue := "sv-" + suffix);
      }
      var name := "nfs-" + spec.referenceValue;
      spec := spec.(nfsServer := Some(NfsServerSpec(name, ns, name + "." + ns + DOMAIN, "", "/")));
    }

    /**
     Takes over what the server check saw; an empty phase means "leave the phase". The address is
     set once, and a managed one is also written into the spec.
     */
    method UpdateVolumeStatus(nfsReady: bool, newPhase: string, newMessage: string) returns (changed: bool)
      modifies this`spec, this`phase, this`message, this`address
      ensures phase == (if newPhase != "" then newPhase else old(phase)) && message == newMessage
      ensures (address, spec) == SetAddress(kind, namespace, old(address), old(spec), nfsReady)
      ensures changed <==> phase != old(phase) || message != old(message) || address != old(address)
    {
      changed := false;
      if newPhase != "" && phase != newPhase {
        phase := newPhase;
        changed := true;
      }
      if message != newMessage {
        message := newMessage;
        changed := true;
      }
      if nfsReady && address == "" && spec.nfsServer.Some? {
        if IsExternal(spec.nfsServer) {
          if spec.nfsServer.value.url != "" {
            address := spec.nfsServer.value.url;
            changed := true;
          }
        } else if spec.nfsServer.value.name != "" {
          var managed := ManagedAddress(kind, namespace, spec.nfsServer.value);
          if managed != "" {
            address := managed;
            spec := spec.(nfsServer := Some(spec.nfsServer.value.(url := managed)));
            changed := true;
          }
        }
      }
    }
  }
}
