/** Which claims and persistent volumes the cleanup of one volume picks out, by name and by label. */
module CleanupNames {
  import opened Common
  import opened VolumeTypes
  import opened VolumeDefaults

  const REFERENCE_LABEL := "shared-volume.io/reference"
  const OWNER_LABEL := "shared-volume.io/owner"

  datatype Volume = Volume(kind: VolumeKind, namespace: string, name: string, reference: string) {
    function OperationalNamespace(): string {
      ReconcileNamespace(kind, namespace)
    }
  }

  datatype Claim = Claim(namespace: string, name: string)
  datatype PersistentVolume = PersistentVolume(name: string, labels: map<string, string>)

  // ---------- references ----------

  predicate IsLetter(c: char) {
    'a' <= c <= 'z' || '0' <= c <= '9'
  }

  predicate GeneratedReference(r: string) {
    |r| == 15 && r[..3] == "sv-" && forall i :: 3 <= i < 15 ==> IsLetter(r[i])
  }

  method RandString(n: nat) returns (s: string)
    ensures |s| == n && forall i :: 0 <= i < n ==> IsLetter(s[i])
  {
    s := "";
    for i := 0 to n
      invariant |s| == i && forall j :: 0 <= j < i ==> IsLetter(s[j])
    {
      var c: char := *;
      if !IsLetter(c) {
        c := 'a';
      }
      s := s + [c];
    }
  }

  method NewReference() returns (r: string)
    ensures GeneratedReference(r)
  {
    var suffix := RandString(12);
    r := "sv-" + suffix;
  }

  /** The reference that the controller writes for twelve drawn letters is such a one. */
  lemma WrittenReferenceIsGenerated(spec: VolumeSpec, suffix: string)
    requires spec.referenceValue == "" && |suffix| == 12 && forall i :: 0 <= i < 12 ==> IsLetter(suffix[i])
    ensures GeneratedReference(WithReference(spec, suffix).referenceValue)
    ensures WithReference(spec, suffix).referenceValue[3..] == suffix
  {
    var r := "sv-" + suffix;
    assert forall i :: 3 <= i < 15 ==> r[i] == suffix[i - 3];
  }

  // ---------- what the operator creates for a volume ----------

  function OwnerText(name: string, namespace: string): string {
    name + "." + namespace
  }

  function MainClaim(v: Volume): Claim {
    Claim(v.OperationalNamespace(), v.reference)
  }

  function MainVolume(v: Volume): PersistentVolume {
    PersistentVolume("pv-" + v.reference,
                     map[REFERENCE_LABEL := v.reference, OWNER_LABEL := OwnerText(v.name, v.OperationalNamespace())])
  }

  function PodClaim(v: Volume, podNamespace: string): Claim {
    Claim(podNamespace, Joined(v.reference, podNamespace))
  }

  function PodVolume(v: Volume, podNamespace: string): PersistentVolume {
    PersistentVolume(Joined(v.reference, podNamespace), map[])
  }

  ghost predicate OwnsClaim(v: Volume, c: Claim) {
    c == MainClaim(v) || c == PodClaim(v, c.namespace)
  }

  ghost predicate OwnsVolume(v: Volume, p: PersistentVolume) {
    p == MainVolume(v) || exists namespace :: p == PodVolume(v, namespace)
  }

  // ---------- what the cleanup of a volume selects ----------

  predicate SelectsClaim(v: Volume, c: Claim) {
    (c.name == v.reference && c.namespace == v.OperationalNamespace()) || HasPrefix(c.name, v.reference + "-")
  }

  /** The tests on a listed volume; the owner label is built from the volume's own namespace. */
  predicate ShouldDelete(v: Volume, p: PersistentVolume) {
    || (REFERENCE_LABEL in p.labels && p.labels[REFERENCE_LABEL] == v.reference)
    || (OWNER_LABEL in p.labels && p.labels[OWNER_LABEL] == OwnerText(v.name, v.namespace))
    || HasPrefix(p.name, v.reference + "-")
    || HasPrefix(p.name, "pv-" + v.reference + "-")
  }

  predicate SelectsVolume(v: Volume, p: PersistentVolume) {
    p.name == "pv-" + v.reference || ShouldDelete(v, p)
  }

  ghost predicate DistinctNames(stored: seq<PersistentVolume>) {
    forall i, j :: 0 <= i < j < |stored| ==> stored[i].name != stored[j].name
  }

  // A cleanup gets the main object by name and then lists all, at two moments; either read may fail,
  // and what it would have found is then left alone.

  /** Deletes the main claim, then every listed claim whose name continues the reference. */
  method CleanupAllPVCs(v: Volume, main: Answer<Claim>, list: Option<seq<Claim>>) returns (deleted: seq<Claim>)
    requires main.Found? ==> main.value == MainClaim(v)
    requires list.Some? ==> Distinct(list.value)
    ensures forall c :: c in deleted <==>
      main == Found(c) || (list.Some? && c in list.value && HasPrefix(c.name, v.reference + "-"))
    ensures forall c :: c in deleted ==> SelectsClaim(v, c)
    ensures list.Some? && !main.Failed? && (main.Found? <==> MainClaim(v) in list.value) ==>
      forall c :: c in deleted <==> c in list.value && SelectsClaim(v, c)
    ensures Distinct(deleted)
  {
    deleted := if main.Found? then [main.value] else [];
    assert !HasPrefix(MainClaim(v).name, v.reference + "-");
    if list.Some? {
      var stored := list.value;
      for i := 0 to |stored|
        invariant forall c :: c in deleted <==>
          main == Found(c) || (c in stored[..i] && HasPrefix(c.name, v.reference + "-"))
        invariant Distinct(deleted)
      {
        if HasPrefix(stored[i].name, v.reference + "-") {
          assert stored[i] !in stored[..i];
          deleted := deleted + [stored[i]];
        }
      }
      assert stored[..|stored|] == stored;
    }
  }

  /** Deletes the main volume by name, then every other listed one that a test picks out. */
  method CleanupAllPVs(v: Volume, main: Answer<PersistentVolume>, list: Option<seq<PersistentVolume>>)
    returns (deleted: seq<PersistentVolume>)
    requires main.Found? ==> main.value.name == "pv-" + v.reference
    requires list.Some? ==> DistinctNames(list.value)
    ensures forall p :: p in deleted <==>
      main == Found(p) || (list.Some? && p in list.value && p.name != "pv-" + v.reference && ShouldDelete(v, p))
    ensures forall p :: p in deleted ==> SelectsVolume(v, p)
    ensures (&& list.Some? && !main.Failed?
             && forall p :: p in list.value && p.name == "pv-" + v.reference <==> main == Found(p))
            ==> forall p :: p in deleted <==> p in list.value && SelectsVolume(v, p)
    ensures Distinct(deleted)
  {
    deleted := if main.Found? then [main.value] else [];
    var mainName := "pv-" + v.reference;
    if list.Some? {
      var stored := list.value;
      for i := 0 to |stored|
        invariant forall p :: p in deleted <==>
          main == Found(p) || (p in stored[..i] && p.name != mainName && ShouldDelete(v, p))
        invariant Distinct(deleted)
      {
        var p := stored[i];
        assert p !in stored[..i];
        var shouldDelete := false;
        if REFERENCE_LABEL in p.labels && p.labels[REFERENCE_LABEL] == v.reference {
          shouldDelete := true;
        }
        if OWNER_LABEL in p.labels && p.labels[OWNER_LABEL] == OwnerText(v.name, v.namespace) {
          shouldDelete := true;
        }
        if HasPrefix(p.name, v.reference + "-") || HasPrefix(p.name, "pv-" + v.reference + "-") {
          shouldDelete := true;
        }
        if shouldDelete && p.name != mainName {
          deleted := deleted + [p];
        }
      }
      assert stored[..|stored|] == stored;
    }
  }

  // ---------- exactness ----------

  /** Distinct volumes have distinct identities and references; namespaces are dot-free labels. */
  ghost predicate WellFormed(world: set<Volume>) {
    && (forall v :: v in world ==>
          GeneratedReference(v.reference) &&
          (v.kind.Namespaced? ==> v.namespace != "" && Free('.', v.namespace)) &&
          (v.kind.Cluster? ==> v.namespace == ""))
    && (forall v, u :: v in world && u in world && v.reference == u.reference ==> v == u)
    && (forall v, u :: v in world && u in world && (v.kind, v.namespace, v.name) == (u.kind, u.namespace, u.name) ==>
        v == u)
  }

  ghost predicate MadeClaim(world: set<Volume>, c: Claim) {
    exists u :: u in world && OwnsClaim(u, c)
  }

  ghost predicate MadeVolume(world: set<Volume>, p: PersistentVolume) {
    exists u :: u in world && OwnsVolume(u, p)
  }

  /** References have one length, so none of them continues another. */
  lemma ReferencePrefix(r: string, s: string, namespace: string)
    requires GeneratedReference(r) && GeneratedReference(s)
    ensures HasPrefix(Joined(s, namespace), r + "-") <==> r == s
    ensures !HasPrefix(s, r + "-")
    ensures !HasPrefix(Joined(s, namespace), "pv-" + r + "-")
    ensures !HasPrefix("pv-" + s, r + "-") && !HasPrefix("pv-" + s, "pv-" + r + "-")
    ensures Joined(s, namespace) != "pv-" + r && Joined(s, namespace) != r
  {
    var joined := Joined(s, namespace);
    assert joined[..15] == s && joined[15] == '-';
    assert joined[0] == s[..3][0] == 's' && r[0] == r[..3][0] == 's';
    assert ("pv-" + s)[0] == 'p' && ("pv-" + r + "-")[0] == 'p' && (r + "-")[0] == 's';
    assert (r + "-")[..15] == r && (r + "-")[15] == '-';
    if HasPrefix(joined, r + "-") {
      assert joined[..16][..15] == s;
    }
    if r == s {
      assert joined[..16] == r + "-";
    }
  }

  /** The cleanup of a volume selects, among all operator-made claims, exactly the volume's own. */
  lemma ClaimCleanupIsExact(world: set<Volume>, v: Volume, c: Claim)
    requires WellFormed(world) && v in world && MadeClaim(world, c)
    ensures SelectsClaim(v, c) <==> OwnsClaim(v, c)
  {
    var u :| u in world && OwnsClaim(u, c);
    ReferencePrefix(v.reference, u.reference, c.namespace);
    ReferencePrefix(v.reference, v.reference, c.namespace);
    if OwnsClaim(v, c) && c == MainClaim(u) && c != MainClaim(v) {
      ReferencePrefix(u.reference, v.reference, c.namespace);
    }
  }

  /** Owner labels name one volume: the last dot splits them. */
  lemma OwnerLabelMatches(v: Volume, u: Volume)
    requires Free('.', v.namespace) && Free('.', u.OperationalNamespace())
    ensures OwnerText(v.name, v.namespace) == OwnerText(u.name, u.OperationalNamespace()) <==>
      v.name == u.name && v.namespace == u.OperationalNamespace()
  {
    if OwnerText(v.name, v.namespace) == OwnerText(u.name, u.OperationalNamespace()) {
      SplitUniqueRight(v.name, v.namespace, '.', u.name, u.OperationalNamespace());
    }
  }

  /** A SharedVolume in the operation namespace and a ClusterSharedVolume of its name. */
  ghost predicate Clashes(v: Volume, u: Volume) {
    v.kind.Namespaced? && u.kind.Cluster? && v.namespace == OPERATION_NAMESPACE && v.name == u.name
  }

  lemma MainVolumeSelected(world: set<Volume>, v: Volume, u: Volume)
    requires WellFormed(world) && v in world && u in world
    ensures SelectsVolume(v, MainVolume(u)) <==> u == v || Clashes(v, u)
    ensures OwnsVolume(v, MainVolume(u)) <==> u == v
  {
    ReferencePrefix(v.reference, u.reference, "");
    assert Free('.', OPERATION_NAMESPACE);
    OwnerLabelMatches(v, u);
    if "pv-" + u.reference == "pv-" + v.reference {
      CancelLeft("pv-", u.reference, v.reference);
    }
    forall namespace
      ensures MainVolume(u) != PodVolume(v, namespace)
    {
      ReferencePrefix(u.reference, v.reference, namespace);
    }
  }

  lemma PodVolumeSelected(world: set<Volume>, v: Volume, u: Volume, namespace: string)
    requires WellFormed(world) && v in world && u in world
    ensures SelectsVolume(v, PodVolume(u, namespace)) <==> u == v
    ensures OwnsVolume(v, PodVolume(u, namespace)) <==> u == v
  {
    ReferencePrefix(v.reference, u.reference, namespace);
    if OwnsVolume(v, PodVolume(u, namespace)) {
      var other :| PodVolume(u, namespace) == PodVolume(v, other);
      ReferencePrefix(v.reference, v.reference, other);
    }
  }

  /**
   Among all operator-made volumes the cleanup selects exactly the volume's own, unless it cleans up
   a SharedVolume of the operation namespace while a ClusterSharedVolume of the same name exists.
   */
  lemma VolumeCleanupExactIff(world: set<Volume>, v: Volume)
    requires WellFormed(world) && v in world
    ensures (forall p :: MadeVolume(world, p) ==> (SelectsVolume(v, p) <==> OwnsVolume(v, p))) <==>
      !exists u :: u in world && Clashes(v, u)
  {
    if u :| u in world && Clashes(v, u) {
      MainVolumeSelected(world, v, u);
      assert OwnsVolume(u, MainVolume(u));
      assert MadeVolume(world, MainVolume(u));
    } else {
      forall p | MadeVolume(world, p)
        ensures SelectsVolume(v, p) <==> OwnsVolume(v, p)
      {
        var u :| u in world && OwnsVolume(u, p);
        if p == MainVolume(u) {
          MainVolumeSelected(world, v, u);
        } else {
          var namespace :| p == PodVolume(u, namespace);
          PodVolumeSelected(world, v, u, namespace);
        }
      }
    }
  }
}
