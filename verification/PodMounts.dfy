/**
 What admission is for: every container of a pod mounts each volume that the pod names, at the path
 and with the access mode of the volume, through a claim that exists and is not being deleted.
 */
module PodMounts {
  import opened Common
  import opened VolumeTypes
  import opened PodAnnotations
  import opened PodMutation
  import opened PodProtocol
  import opened PodAdmission
  import PodLeaks

  ghost predicate LiveClaim(cl: Store, key: Key) {
    key in cl.claims && cl.claims[key].Live?
  }

  /** The mount is at the volume's path, and cannot be written to exactly if the volume is read-only. */
  predicate Fits(m: VolumeMount, spec: VolumeSpec) {
    && m.mountPath == spec.mountPath
    && (m.readOnly <==> spec.storage.Some? && spec.storage.value.accessMode == "ReadOnly")
  }

  /** The pod has a volume of this name, and every one of that name uses the claim. */
  ghost predicate Claims(pod: Pod, name: string, claim: string) {
    HasVolume(pod.volumes, name) && forall v :: v in pod.volumes && v.name == name ==> v.claimName == claim
  }

  ghost predicate MountedBy(pod: Pod, c: Container, spec: VolumeSpec, claim: string) {
    exists m :: m in c.mounts && Fits(m, spec) && Claims(pod, m.name, claim)
  }

  /** Every container mounts the volume through one claim. */
  ghost predicate MountedThrough(pod: Pod, spec: VolumeSpec, claim: string) {
    forall c :: c in pod.containers ==> MountedBy(pod, c, spec, claim)
  }

  /** Every container mounts the volume through a live claim of the pod's namespace. */
  ghost predicate Mounted(cl: Store, pod: Pod, spec: VolumeSpec) {
    exists claim :: MountedThrough(pod, spec, claim) && LiveClaim(cl, (pod.namespace, claim))
  }

  ghost predicate AllMounted(cl: Store, pod: Pod) {
    forall w :: w in WebhookRefs(pod) ==> WebhookSpec(cl, w).Some? && Mounted(cl, pod, WebhookSpec(cl, w).value)
  }

  // ---------- one reference ----------

  lemma HasVolumeIff(volumes: seq<PodVolume>, name: string)
    ensures HasVolume(volumes, name) <==> exists v :: v in volumes && v.name == name
  {
  }

  lemma UseIsMounted(pod: Pod, u: VolumeUse, spec: VolumeSpec)
    requires u == UseOf(spec) && Unnamed(pod, spec.referenceValue)
    ensures MountedThrough(WithVolume(pod, u), spec, Joined(spec.referenceValue, pod.namespace))
    ensures |WithVolume(pod, u).volumes| == |pod.volumes| + 1
    ensures WithVolume(pod, u).volumes[..|pod.volumes|] == pod.volumes
    ensures WithVolume(pod, u).volumes[|pod.volumes|].claimName == Joined(spec.referenceValue, pod.namespace)
  {
    var p := WithVolume(pod, u);
    var v := VolumeFor(u, pod.namespace);
    assert p.volumes == pod.volumes + [v] && p.volumes[|pod.volumes|] == v;
    assert Claims(p, u.reference, v.claimName);
    forall c | c in p.containers
      ensures MountedBy(p, c, spec, v.claimName)
    {
      var i :| 0 <= i < |p.containers| && p.containers[i] == c;
      assert c == WithMount(pod.containers[i], u) && pod.containers[i] in pod.containers;
      assert c.mounts[|c.mounts| - 1] == MountFor(u) && MountFor(u) in c.mounts;
      assert Fits(MountFor(u), spec);
    }
  }

  /** A pod without a volume of that name gets one whose claim is there and live. */
  lemma ProcessMountsLiveClaim(cl: Store, pod: Pod, ref: WebhookRef)
    requires WebhookSpec(cl, ref).Some? && Unnamed(pod, WebhookSpec(cl, ref).value.referenceValue)
    requires Process(cl, pod, ref).2
    ensures var (c, p, _) := Process(cl, pod, ref);
      && |p.volumes| == |pod.volumes| + 1 && p.volumes[..|pod.volumes|] == pod.volumes
      && LiveClaim(c, (p.namespace, p.volumes[|pod.volumes|].claimName))
      && Mounted(c, p, WebhookSpec(cl, ref).value)
  {
    ProcessClaims(cl, pod, ref);
    ProcessMounts(cl, pod, ref);
    var (c, p, _) := Process(cl, pod, ref);
    var spec := WebhookSpec(cl, ref).value;
    assert Claimed(c, pod, ref);
    UseIsMounted(pod, UseOf(spec), spec);
    assert MountedThrough(p, spec, Joined(spec.referenceValue, pod.namespace));
  }

  // ---------- further references leave it mounted ----------

  lemma ClaimsStay(pod: Pod, u: VolumeUse, name: string, claim: string)
    requires Claims(pod, name, claim)
    ensures Claims(WithVolume(pod, u), name, claim)
  {
    var p := WithVolume(pod, u);
    HasVolumeIff(pod.volumes, name);
    HasVolumeIff(p.volumes, name);
    var v :| v in pod.volumes && v.name == name;
    assert v in p.volumes;
    HasVolumeIff(pod.volumes, u.reference);
  }

  lemma MountedStays(pod: Pod, u: VolumeUse, spec: VolumeSpec, claim: string)
    requires MountedThrough(pod, spec, claim)
    ensures MountedThrough(WithVolume(pod, u), spec, claim)
  {
    var p := WithVolume(pod, u);
    forall c | c in p.containers
      ensures MountedBy(p, c, spec, claim)
    {
      var i :| 0 <= i < |p.containers| && p.containers[i] == c;
      assert pod.containers[i] in pod.containers && c == WithMount(pod.containers[i], u);
      var m :| m in pod.containers[i].mounts && Fits(m, spec) && Claims(pod, m.name, claim);
      ClaimsStay(pod, u, m.name, claim);
      assert m in c.mounts;
    }
  }

  lemma {:induction false} MountedStaysThroughAll(pod: Pod, uses: seq<VolumeUse>, spec: VolumeSpec, claim: string)
    requires MountedThrough(pod, spec, claim)
    ensures MountedThrough(WithVolumes(pod, uses), spec, claim)
  {
    if uses != [] {
      MountedStaysThroughAll(pod, uses[..|uses| - 1], spec, claim);
      MountedStays(WithVolumes(pod, uses[..|uses| - 1]), uses[|uses| - 1], spec, claim);
    }
  }

  /** Only the names of the volumes that are used are taken. */
  lemma {:induction false} UnnamedStays(pod: Pod, uses: seq<VolumeUse>, name: string)
    requires Unnamed(pod, name) && forall u :: u in uses ==> u.reference != name
    ensures Unnamed(WithVolumes(pod, uses), name) && WithVolumes(pod, uses).namespace == pod.namespace
  {
    if uses != [] {
      var front, u := uses[..|uses| - 1], uses[|uses| - 1];
      UnnamedStays(pod, front, name);
      var p := WithVolumes(pod, front);
      assert u in uses && forall c :: c in p.containers ==> !HasMount(WithMount(c, u).mounts, name);
      forall c | c in WithVolume(p, u).containers
        ensures !HasMount(c.mounts, name)
      {
        var i :| 0 <= i < |p.containers| && c == WithVolume(p, u).containers[i];
        assert p.containers[i] in p.containers;
      }
    }
  }

  /** Each volume that is used is mounted in the end, through its own claim. */
  lemma {:induction false} UsesAreMounted(pod: Pod, uses: seq<VolumeUse>, i: nat, spec: VolumeSpec)
    requires DistinctReferences(uses) && i < |uses| && uses[i] == UseOf(spec) && Unnamed(pod, spec.referenceValue)
    ensures MountedThrough(WithVolumes(pod, uses), spec, Joined(spec.referenceValue, pod.namespace))
    decreases |uses|
  {
    var front, u := uses[..|uses| - 1], uses[|uses| - 1];
    if i == |front| {
      UnnamedStays(pod, front, spec.referenceValue);
      UseIsMounted(WithVolumes(pod, front), u, spec);
    } else {
      UsesAreMounted(pod, front, i, spec);
      MountedStays(WithVolumes(pod, front), u, spec, Joined(spec.referenceValue, pod.namespace));
    }
  }

  // ---------- a whole admission ----------

  /** The request brings no mount or volume of the name that the webhook uses for a volume it names. */
  ghost predicate BringsNone(cl: Store, pod: Pod) {
    forall w :: w in WebhookRefs(pod) && WebhookSpec(cl, w).Some? ==>
      Unnamed(pod, WebhookSpec(cl, w).value.referenceValue)
  }

  ghost predicate ThroughOwnClaim(cl: Store, pod: Pod, w: WebhookRef) {
    WebhookSpec(cl, w).Some? && var spec := WebhookSpec(cl, w).value;
                                MountedThrough(pod, spec, Joined(spec.referenceValue, pod.namespace))
  }

  ghost predicate AllThrough(cl: Store, pod: Pod) {
    forall w :: w in WebhookRefs(pod) ==> ThroughOwnClaim(cl, pod, w)
  }

  lemma SameMounts(pod: Pod, twin: Pod, spec: VolumeSpec, claim: string)
    requires twin.containers == pod.containers && twin.volumes == pod.volumes && MountedThrough(pod, spec, claim)
    ensures MountedThrough(twin, spec, claim)
  {
    forall c | c in twin.containers
      ensures MountedBy(twin, c, spec, claim)
    {
      var m :| m in c.mounts && Fits(m, spec) && Claims(pod, m.name, claim);
      assert Claims(twin, m.name, claim);
    }
  }

  /** Neither finalizers nor the deletion mark matter, and volumes only have to be found as before. */
  lemma SameThrough(a: Store, b: Store, pod: Pod, twin: Pod)
    requires PodLeaks.KeepsSpecs(a, b) && AllThrough(a, pod)
    requires twin == pod.(finalizers := twin.finalizers, terminating := twin.terminating, name := twin.name)
    ensures AllThrough(b, twin)
  {
    assert WebhookRefs(twin) == WebhookRefs(pod);
    forall w | w in WebhookRefs(twin)
      ensures ThroughOwnClaim(b, twin, w)
    {
      assert ThroughOwnClaim(a, pod, w);
      var spec := WebhookSpec(a, w).value;
      SameMounts(pod, twin, spec, Joined(spec.referenceValue, pod.namespace));
    }
  }

  lemma {:induction false} KeepsAnnotations(pod: Pod, uses: seq<VolumeUse>)
    ensures var p := WithVolumes(pod, uses); p == pod.(containers := p.containers, volumes := p.volumes)
  {
    if uses != [] {
      KeepsAnnotations(pod, uses[..|uses| - 1]);
    }
  }

  lemma MutatedThrough(cl: Store, pod: Pod, refs: seq<WebhookRef>)
    requires ReferencesDistinct(cl.shared, cl.cluster) && PathsUnique(cl, refs) && refs == WebhookRefs(pod)
    requires BringsNone(cl, pod)
    ensures AllThrough(cl, WithVolumes(pod, UsesOf(cl, refs)))
  {
    var uses := UsesOf(cl, refs);
    var p := WithVolumes(pod, uses);
    UniquePathsDistinctReferences(cl, refs, pod);
    VolumesBesideFinalizers(pod, uses, []);
    forall w | w in refs
      ensures ThroughOwnClaim(cl, p, w)
    {
      var i :| 0 <= i < |refs| && refs[i] == w;
      UsesAreMounted(pod, uses, i, WebhookSpec(cl, w).value);
      WithVolumesKeeps(pod, uses);
    }
    KeepsAnnotations(pod, uses);
  }

  lemma ServedIsMounted(cl: Store, pod: Pod)
    requires AllThrough(cl, pod) && Served(cl, pod)
    ensures AllMounted(cl, pod)
  {
    forall w | w in WebhookRefs(pod)
      ensures WebhookSpec(cl, w).Some? && Mounted(cl, pod, WebhookSpec(cl, w).value)
    {
      assert ThroughOwnClaim(cl, pod, w) && Claimed(cl, pod, w);
      var spec := WebhookSpec(cl, w).value;
      assert LiveClaim(cl, (pod.namespace, Joined(spec.referenceValue, pod.namespace)));
    }
  }

  /** What an admission lets through is served; a created pod is mounted then if it brings nothing of its own. */
  lemma PatchedIsMounted(cl: Store, pod: Pod, isUpdate: bool)
    requires ReferencesDistinct(cl.shared, cl.cluster) && Handled(cl, pod, isUpdate).1.Patched? && BringsNone(cl, pod)
    ensures var (c, response) := Handled(cl, pod, isUpdate);
      AllThrough(c, response.pod) && AllMounted(c, response.pod)
  {
    var refs := WebhookRefs(pod);
    var (c, response) := Handled(cl, pod, isUpdate);
    MutatedThrough(cl, pod, refs);
    ProcessAllMounts(cl, pod, refs);
    ProcessAllClaims(cl, pod, refs);
    SameThrough(cl, c, WithVolumes(pod, UsesOf(cl, refs)), response.pod);
    forall w | w in WebhookRefs(response.pod)
      ensures Claimed(c, response.pod, w)
    {
      assert WebhookRefs(response.pod) == refs && Claimed(c, pod, w);
    }
    ServedIsMounted(c, response.pod);
  }

  // ---------- over all runs ----------

  /** Every live pod mounts what it names through claims of its own namespace. */
  ghost predicate LivePodsThrough(cl: Store) {
    forall k :: k in cl.pods && !cl.pods[k].terminating ==> AllThrough(cl, cl.pods[k])
  }

  /** A pod that is created brings nothing of its own; an update leaves mounts and volumes as they are. */
  ghost predicate OwnNames(cl: Store, step: Step) {
    step.Admit? && Enabled(cl, step) ==>
      if step.isUpdate
      then var stored := cl.pods[KeyOfPod(step.pod)];
           step.pod.containers == stored.containers && step.pod.volumes == stored.volumes
      else BringsNone(cl, step.pod)
  }

  ghost predicate OwnNamesRun(steps: seq<Step>) {
    forall i :: 0 <= i < |steps| ==> OwnNames(Run(steps[..i]), steps[i])
  }

  ghost predicate KeepsLivePods(a: Store, b: Store) {
    && PodLeaks.KeepsSpecs(a, b)
    && (forall k :: k in b.pods && !b.pods[k].terminating ==> k in a.pods && b.pods[k] == a.pods[k])
  }

  lemma KeptPodsThrough(a: Store, b: Store)
    requires LivePodsThrough(a) && KeepsLivePods(a, b)
    ensures LivePodsThrough(b)
  {
    forall k | k in b.pods && !b.pods[k].terminating
      ensures AllThrough(b, b.pods[k])
    {
      SameThrough(a, b, a.pods[k], b.pods[k]);
    }
  }

  lemma ReconciledKeepsLivePods(cl: Store, key: Key, lingers: bool)
    requires key in cl.pods && cl.pods[key].terminating
    ensures KeepsLivePods(cl, Reconciled(cl, key, lingers))
  {
    PodLeaks.CleanedAllExactly(WithFinalizers(cl, key, [], lingers), ControllerRefs(cl.pods[key]),
                               cl.pods[key].namespace, "");
  }

  lemma ExitedKeepsLivePods(cl: Store, key: Key, lingers: bool)
    requires key in cl.pods && cl.pods[key].terminating
    ensures KeepsLivePods(cl, Exited(cl, key, lingers))
  {
    PodLeaks.ExitSweepsExactly(cl, WebhookRefs(cl.pods[key]), cl.pods[key], "");
  }

  lemma PartlyAdmittedKeepsLivePods(cl: Store, pod: Pod, n: nat, half: bool)
    requires n <= |WebhookRefs(pod)|
    ensures KeepsLivePods(cl, PartlyProcessed(cl, pod, WebhookRefs(pod), n, half))
  {
    ProcessAllClaims(cl, pod, WebhookRefs(pod)[..n]);
  }

  lemma StepKeepsLivePods(cl: Store, step: Step)
    requires Enabled(cl, step) && !step.Admit?
    ensures KeepsLivePods(cl, Next(cl, step))
  {
    match step
    case AdmitPartly(pod, n, half) => PartlyAdmittedKeepsLivePods(cl, pod, n, half);
    case Reconcile(key, lingers) => ReconciledKeepsLivePods(cl, key, lingers);
    case WebhookExit(key, lingers) => ExitedKeepsLivePods(cl, key, lingers);
    case WebhookCleanup(key, ref, claimFails, volumeFails) =>
      PodLeaks.WebhookFades(cl, ref, cl.pods[key], claimFails, volumeFails);
    case ControllerCleanup(ref, namespace, claim, volume) =>
      assert CleanedByController(cl, ref, namespace, claim, volume).pods == cl.pods;
    case _ =>
  }

  lemma UpdatedThrough(cl: Store, pod: Pod, isUpdate: bool)
    requires AllThrough(cl, pod) && Handled(cl, pod, isUpdate).1.Patched?
    ensures var (c, response) := Handled(cl, pod, isUpdate); AllThrough(c, response.pod)
  {
    var refs := WebhookRefs(pod);
    var (c, response) := Handled(cl, pod, isUpdate);
    var uses := UsesOf(cl, refs);
    ProcessAllMounts(cl, pod, refs);
    ProcessAllClaims(cl, pod, refs);
    KeepsAnnotations(pod, uses);
    var p := WithVolumes(pod, uses);
    forall w | w in WebhookRefs(p)
      ensures ThroughOwnClaim(cl, p, w)
    {
      assert ThroughOwnClaim(cl, pod, w);
      var spec := WebhookSpec(cl, w).value;
      MountedStaysThroughAll(pod, uses, spec, Joined(spec.referenceValue, pod.namespace));
    }
    SameThrough(cl, c, p, response.pod);
  }

  /** The pod that an admission stores. */
  lemma AdmittedThrough(cl: Store, pod: Pod, isUpdate: bool)
    requires Safe(cl) && LivePodsThrough(cl) && Enabled(cl, Admit(pod, isUpdate)) && OwnNames(cl, Admit(pod, isUpdate))
    ensures var (c, response) := Handled(cl, pod, isUpdate);
      && (response.AllowedAsIs? ==> AllThrough(c, pod)) && (response.Patched? ==> AllThrough(c, response.pod))
  {
    var (c, response) := Handled(cl, pod, isUpdate);
    if isUpdate {
      SameThrough(cl, cl, cl.pods[KeyOfPod(pod)], pod);
      if response.Patched? {
        UpdatedThrough(cl, pod, isUpdate);
      }
    } else if response.Patched? {
      PatchedIsMounted(cl, pod, isUpdate);
    }
  }

  lemma StoredThrough(c: Store, key: Key, p: Pod)
    requires LivePodsThrough(c) && AllThrough(c, p)
    ensures LivePodsThrough(c.(pods := c.pods[key := p]))
  {
    var out := c.(pods := c.pods[key := p]);
    forall k | k in out.pods && !out.pods[k].terminating
      ensures AllThrough(out, out.pods[k])
    {
      SameThrough(c, out, out.pods[k], out.pods[k]);
    }
  }

  lemma HandledKeepsPods(cl: Store, pod: Pod, isUpdate: bool)
    requires LivePodsThrough(cl)
    ensures LivePodsThrough(Handled(cl, pod, isUpdate).0)
  {
    ProcessAllClaims(cl, pod, WebhookRefs(pod));
    KeptPodsThrough(cl, Handled(cl, pod, isUpdate).0);
  }

  lemma AdmitIsThrough(cl: Store, pod: Pod, isUpdate: bool)
    requires Safe(cl) && LivePodsThrough(cl) && Enabled(cl, Admit(pod, isUpdate)) && OwnNames(cl, Admit(pod, isUpdate))
    ensures LivePodsThrough(Admitted(cl, pod, isUpdate))
  {
    HandledKeepsPods(cl, pod, isUpdate);
    AdmittedThrough(cl, pod, isUpdate);
    match Handled(cl, pod, isUpdate)
    case (c, AllowedAsIs) => StoredThrough(c, KeyOfPod(pod), pod);
    case (c, Patched(p)) => StoredThrough(c, KeyOfPod(pod), p);
    case (c, _) =>
  }

  lemma StepIsThrough(cl: Store, step: Step)
    requires Safe(cl) && LivePodsThrough(cl) && OwnNames(cl, step)
    ensures LivePodsThrough(Next(cl, step))
  {
    if Enabled(cl, step) {
      if step.Admit? {
        AdmitIsThrough(cl, step.pod, step.isUpdate);
      } else {
        StepKeepsLivePods(cl, step);
        KeptPodsThrough(cl, Next(cl, step));
      }
    }
  }

  lemma {:induction false} RunIsThrough(steps: seq<Step>)
    requires OwnNamesRun(steps)
    ensures LivePodsThrough(Run(steps))
  {
    if steps != [] {
      var n := |steps| - 1;
      assert OwnNamesRun(steps[..n]) by {
        forall i | 0 <= i < n
          ensures OwnNames(Run(steps[..n][..i]), steps[..n][i])
        {
          assert steps[..n][..i] == steps[..i];
        }
      }
      RunIsThrough(steps[..n]);
      LivePodsKeepTheirClaims(steps[..n]);
      StepIsThrough(Run(steps[..n]), steps[n]);
    }
  }

  /**
   Over all runs in which pods bring no mounts or volumes of the webhook's names: every stored pod that
   is not being deleted mounts each volume it names in every container, at the volume's path and with
   its access mode, through a claim of its namespace that exists and is not terminating.
   */
  lemma LivePodsMountLiveClaims(steps: seq<Step>)
    requires OwnNamesRun(steps)
    ensures forall k :: k in Run(steps).pods && !Run(steps).pods[k].terminating ==>
      AllMounted(Run(steps), Run(steps).pods[k])
  {
    RunIsThrough(steps);
    LivePodsKeepTheirClaims(steps);
    forall k | k in Run(steps).pods && !Run(steps).pods[k].terminating
      ensures AllMounted(Run(steps), Run(steps).pods[k])
    {
      ServedIsMounted(Run(steps), Run(steps).pods[k]);
    }
  }
}
