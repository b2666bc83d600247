/**
 Distributed reference counting by annotation scan: admission creates a claim and a persistent
 volume per (volume, namespace), cleanup deletes them once no live pod names the volume.

 Admitting and storing a pod is one step, and so is one scan with its deletions.
 */
module PodProtocol {
  import opened Common
  import opened VolumeTypes
  import opened PodAnnotations
  import opened PodMutation
  import CleanupNames
  import FinalizerRemoval

  type Key = (string, string)

  /** A claim or persistent volume that is stored; `held` while it carries a finalizer. */
  datatype Condition = Live(held: bool) | Terminating

  datatype Store = Store(
    shared: map<Key, VolumeSpec>,
    cluster: map<string, VolumeSpec>,
    pods: map<Key, Pod>,
    claims: map<Key, Condition>,
    volumes: map<string, Condition>)

  const EMPTY := Store(map[], map[], map[], map[], map[])

  /** What is stored although it is being deleted carries a finalizer. */
  predicate HasFinalizers(c: Condition) {
    c.Terminating? || c.held
  }

  // ---------- admission ----------

  function WebhookSpec(cl: Store, ref: WebhookRef): Option<VolumeSpec> {
    if ref.isCluster then if ref.name in cl.cluster then Some(cl.cluster[ref.name]) else None
    else if (ref.namespace, ref.name) in cl.shared then Some(cl.shared[(ref.namespace, ref.name)]) else None
  }

  function UseOf(spec: VolumeSpec): VolumeUse {
    VolumeUse(spec.referenceValue, spec.mountPath, spec.storage.Some? && spec.storage.value.accessMode == "ReadOnly")
  }

  function EnsureVolume(cl: Store, spec: VolumeSpec, namespace: string): (Store, bool) {
    var name := Joined(spec.referenceValue, namespace);
    if name in cl.volumes then (cl, true)
    else if spec.storage.None? || spec.nfsServer.None? then (cl, false)
    else (cl.(volumes := cl.volumes[name := Live(false)]), true)
  }

  function EnsureClaim(cl: Store, spec: VolumeSpec, namespace: string): (Store, bool) {
    var key := (namespace, Joined(spec.referenceValue, namespace));
    if key in cl.claims then (cl, cl.claims[key].Live?)
    else if spec.storage.None? then (cl, false)
    else (cl.(claims := cl.claims[key := Live(false)]), true)
  }

  /** The cluster and the pod after one reference, and whether it succeeded. */
  function Process(cl: Store, pod: Pod, ref: WebhookRef): (Store, Pod, bool) {
    match WebhookSpec(cl, ref)
    case None => (cl, pod, false)
    case Some(spec) =>
      var (c1, volumeOk) := EnsureVolume(cl, spec, pod.namespace);
      if !volumeOk then (c1, pod, false)
      else
        var (c2, claimOk) := EnsureClaim(c1, spec, pod.namespace);
        if !claimOk then (c2, pod, false) else (c2, WithVolume(pod, UseOf(spec)), true)
  }

  /** What a reference leaves that fails half-way: the volume at most. */
  function HalfProcessed(cl: Store, namespace: string, ref: WebhookRef): Store {
    match WebhookSpec(cl, ref)
    case None => cl
    case Some(spec) => EnsureVolume(cl, spec, namespace).0
  }

  function ProcessAll(cl: Store, pod: Pod, refs: seq<WebhookRef>): (Store, Pod, bool) {
    if refs == [] then (cl, pod, true)
    else
      var (c, p, ok) := ProcessAll(cl, pod, refs[..|refs| - 1]);
      if !ok then (c, p, false) else Process(c, p, refs[|refs| - 1])
  }

  /** What an admission leaves that fails after n references, or half-way through the next. */
  function PartlyProcessed(cl: Store, pod: Pod, refs: seq<WebhookRef>, n: nat, half: bool): Store
    requires n <= |refs|
  {
    var c := ProcessAll(cl, pod, refs[..n]).0;
    if half && n < |refs| then HalfProcessed(c, pod.namespace, refs[n]) else c
  }

  predicate AllFound(cl: Store, refs: seq<WebhookRef>) {
    forall j :: 0 <= j < |refs| ==> WebhookSpec(cl, refs[j]).Some?
  }

  /** Every reference names a stored volume, and no two of them mount the same path. */
  ghost predicate PathsUnique(cl: Store, refs: seq<WebhookRef>) {
    && AllFound(cl, refs)
    && (forall i, j :: 0 <= i < j < |refs| ==>
          WebhookSpec(cl, refs[i]).value.mountPath != WebhookSpec(cl, refs[j]).value.mountPath)
  }

  datatype Response = AllowedAsIs | Denied | Errored | Patched(pod: Pod)

  /** The answer to the creation or update of a pod that is not being deleted. */
  ghost function Handled(cl: Store, pod: Pod, isUpdate: bool): (Store, Response) {
    var refs := WebhookRefs(pod);
    if isUpdate && POD_FINALIZER in pod.finalizers && |pod.volumes| > 0 then (cl, AllowedAsIs)
    else if refs == [] then (cl, AllowedAsIs)
    else if !PathsUnique(cl, refs) then (cl, Denied)
    else
      var (c, p, ok) := ProcessAll(cl, pod, refs);
      if ok then (c, Patched(WithFinalizer(p))) else (c, Errored)
  }

  // ---------- cleanup ----------

  function ControllerSpec(cl: Store, ref: ControllerRef): Option<VolumeSpec> {
    if ref.namespace == OPERATION_NAMESPACE then
      if ref.name in cl.cluster then Some(cl.cluster[ref.name]) else None
    else if (ref.namespace, ref.name) in cl.shared then Some(cl.shared[(ref.namespace, ref.name)]) else None
  }

  ghost predicate NamedByLivePod(cl: Store, ref: ControllerRef) {
    exists k :: k in cl.pods && Uses(cl.pods[k], ref)
  }

  ghost predicate NamedByOtherPod(cl: Store, ref: WebhookRef, deleting: Pod) {
    exists k :: k in cl.pods && !IsPod(cl.pods[k], deleting) && !cl.pods[k].terminating && NamedBy(cl.pods[k], ref)
  }

  /** How a deletion can end: the object is gone, it is left terminating, or the call failed. */
  datatype Deletion = Gone | Stuck | Untouched

  function Deleted<K>(m: map<K, Condition>, key: K, d: Deletion): map<K, Condition> {
    if key !in m || d.Untouched? then m else if d.Gone? then m - {key} else m[key := Terminating]
  }

  /** The claim first; the volume only if the deletion of the claim went well enough. */
  function DeletePair(cl: Store, spec: VolumeSpec, namespace: string, claim: Deletion, volume: Deletion,
                      goOn: bool): Store {
    var name := Joined(spec.referenceValue, namespace);
    cl.(claims := Deleted(cl.claims, (namespace, name), claim),
        volumes := if goOn then Deleted(cl.volumes, name, volume) else cl.volumes)
  }

  /** Forces the deletion: goes on to the volume when the claim is gone. */
  ghost function CleanedByController(cl: Store, ref: ControllerRef, namespace: string, claim: Deletion,
                                     volume: Deletion): Store {
    match ControllerSpec(cl, ref)
    case None => cl
    case Some(spec) => if NamedByLivePod(cl, ref) then cl
      else DeletePair(cl, spec, namespace, claim, volume, claim.Gone?)
  }

  /** How a plain deletion ends: unless the call fails, the finalizers of the object decide. */
  function PlainDeletion<K>(m: map<K, Condition>, key: K, fails: bool): Deletion {
    if fails then Untouched else if key in m && HasFinalizers(m[key]) then Stuck else Gone
  }

  /** Deletes plainly: goes on to the volume unless the call failed. */
  ghost function CleanedByWebhook(cl: Store, ref: WebhookRef, deleting: Pod, claimFails: bool,
                                  volumeFails: bool): (c: Store)
    ensures c.pods == cl.pods
  {
    match WebhookSpec(cl, ref)
    case None => cl
    case Some(spec) =>
      if NamedByOtherPod(cl, ref, deleting) then cl
      else
        var name := Joined(spec.referenceValue, deleting.namespace);
        DeletePair(cl, spec, deleting.namespace, PlainDeletion(cl.claims, (deleting.namespace, name), claimFails),
                   PlainDeletion(cl.volumes, name, volumeFails), !claimFails)
  }

  /** The whole cleanup by the webhook when no call fails, volume by volume. */
  ghost function CleanedAllByWebhook(cl: Store, refs: seq<WebhookRef>, deleting: Pod): (c: Store)
    ensures c.pods == cl.pods
  {
    if refs == [] then cl
    else
      var n := |refs| - 1;
      CleanedByWebhook(CleanedAllByWebhook(cl, refs[..n], deleting), refs[n], deleting, false, false)
  }

  /** The pod with other finalizers; a terminating one without any is gone, or lingers until its grace period ends. */
  function WithFinalizers(cl: Store, key: Key, finalizers: seq<string>, lingers: bool): Store
    requires key in cl.pods
  {
    cl.(pods := if finalizers == [] && cl.pods[key].terminating && !lingers then cl.pods - {key}
                else cl.pods[key := cl.pods[key].(finalizers := finalizers)])
  }

  /** The cleanup finalizer of a pod is taken off. */
  function Released(cl: Store, key: Key, lingers: bool): Store
    requires key in cl.pods
  {
    WithFinalizers(cl, key, FinalizerRemoval.Removed(cl.pods[key].finalizers, POD_FINALIZER), lingers)
  }

  /** A terminating pod that the webhook cleans up after and lets go. */
  ghost function Exited(cl: Store, key: Key, lingers: bool): Store
    requires key in cl.pods
  {
    Released(CleanedAllByWebhook(cl, WebhookRefs(cl.pods[key]), cl.pods[key]), key, lingers)
  }

  /** The whole cleanup of a pod when nothing fails. */
  ghost function CleanedAll(cl: Store, refs: seq<ControllerRef>, namespace: string): Store {
    if refs == [] then cl
    else CleanedByController(CleanedAll(cl, refs[..|refs| - 1], namespace), refs[|refs| - 1], namespace, Gone, Gone)
  }

  /** Reconcile of a terminating pod when nothing fails: strip its finalizers, then clean up. */
  ghost function Reconciled(cl: Store, key: Key, lingers: bool): Store
    requires key in cl.pods
  {
    CleanedAll(WithFinalizers(cl, key, [], lingers), ControllerRefs(cl.pods[key]), cl.pods[key].namespace)
  }

  /** The finalizers of an object come or go; one that is being deleted goes with its last finalizer. */
  function Held<K>(m: map<K, Condition>, key: K, held: bool): map<K, Condition> {
    if key !in m then m
    else if m[key].Live? then m[key := Live(held)]
    else if held then m else m - {key}
  }

  // ---------- what keeps a pod working ----------

  ghost predicate Claimed(cl: Store, pod: Pod, ref: WebhookRef) {
    && WebhookSpec(cl, ref).Some?
    && var key := (pod.namespace, Joined(WebhookSpec(cl, ref).value.referenceValue, pod.namespace));
       key in cl.claims && cl.claims[key].Live?
  }

  ghost predicate Served(cl: Store, pod: Pod) {
    forall ref :: ref in WebhookRefs(pod) ==> Claimed(cl, pod, ref)
  }

  /** Two stored volumes never share a reference. */
  ghost predicate ReferencesDistinct(shared: map<Key, VolumeSpec>, cluster: map<string, VolumeSpec>) {
    && (forall a, b :: a in shared && b in shared && shared[a].referenceValue == shared[b].referenceValue ==> a == b)
    && (forall a, b :: a in cluster && b in cluster && cluster[a].referenceValue == cluster[b].referenceValue ==>
        a == b)
    && (forall a, b :: a in shared && b in cluster ==> shared[a].referenceValue != cluster[b].referenceValue)
  }

  ghost predicate PodsKeyed(cl: Store) {
    forall k :: k in cl.pods ==> k == (cl.pods[k].namespace, cl.pods[k].name)
  }

  /** Every live pod has a live claim in its namespace for every volume that it names. */
  ghost predicate Safe(cl: Store) {
    && ReferencesDistinct(cl.shared, cl.cluster) && PodsKeyed(cl)
    && (forall k :: k in cl.pods && !cl.pods[k].terminating ==> Served(cl, cl.pods[k]))
  }

  // ---------- steps and runs ----------

  datatype Step =
    | Admit(pod: Pod, isUpdate: bool)
    | AdmitPartly(pod: Pod, n: nat, half: bool)
    | MarkTerminating(key: Key)
    | Vanish(key: Key)
    | Reconcile(key: Key, lingers: bool)
    | ControllerCleanup(ref: ControllerRef, namespace: string, claim: Deletion, volume: Deletion)
    | WebhookCleanup(key: Key, named: WebhookRef, claimFails: bool, volumeFails: bool)
    | WebhookExit(key: Key, lingers: bool)
    | HoldClaim(at: Key, held: bool)
    | HoldVolume(name: string, held: bool)
    | CreateShared(at: Key, spec: VolumeSpec)
    | CreateCluster(name: string, spec: VolumeSpec)

  function KeyOfPod(pod: Pod): Key {
    (pod.namespace, pod.name)
  }

  /** A reference that no stored volume, claim or persistent volume carries. */
  ghost predicate Fresh(cl: Store, reference: string) {
    && CleanupNames.GeneratedReference(reference)
    && (forall a :: a in cl.shared ==> cl.shared[a].referenceValue != reference)
    && (forall a :: a in cl.cluster ==> cl.cluster[a].referenceValue != reference)
    && (forall k :: k in cl.claims ==> k.1 != Joined(reference, k.0))
    && (forall namespace :: Joined(reference, namespace) !in cl.volumes)
  }

  /** A whole webhook cleanup finds every volume. */
  ghost predicate ExitEnabled(cl: Store, key: Key) {
    && key in cl.pods && cl.pods[key].terminating && POD_FINALIZER in cl.pods[key].finalizers
    && AllFound(cl, WebhookRefs(cl.pods[key]))
  }

  /** The controller cleans up after terminating pods that have its finalizer or name volumes. */
  predicate CleanupDue(pod: Pod) {
    pod.terminating && (POD_FINALIZER in pod.finalizers || ControllerRefs(pod) != [])
  }

  /** An update keeps annotations and finalizers; volumes get new references and are never deleted. */
  ghost predicate Enabled(cl: Store, step: Step) {
    match step
    case Admit(pod, isUpdate) =>
      && !pod.terminating
      && (isUpdate <==> KeyOfPod(pod) in cl.pods)
      && (isUpdate ==>
            var stored := cl.pods[KeyOfPod(pod)];
            !stored.terminating && pod.annotations == stored.annotations && pod.finalizers == stored.finalizers)
    case AdmitPartly(pod, n, _) => n <= |WebhookRefs(pod)|
    case MarkTerminating(key) => key in cl.pods
    case Vanish(key) => key in cl.pods
    case Reconcile(key, _) => key in cl.pods && CleanupDue(cl.pods[key])
    case ControllerCleanup(ref, namespace, claim, volume) => true
    case WebhookCleanup(key, ref, _, _) =>
      key in cl.pods && cl.pods[key].terminating && ref in WebhookRefs(cl.pods[key])
    case WebhookExit(key, _) => ExitEnabled(cl, key)
    case HoldClaim(_, _) => true
    case HoldVolume(_, _) => true
    case CreateShared(at, spec) => at !in cl.shared && Fresh(cl, spec.referenceValue)
    case CreateCluster(name, spec) => name !in cl.cluster && Fresh(cl, spec.referenceValue)
  }

  ghost function Admitted(cl: Store, pod: Pod, isUpdate: bool): Store {
    match Handled(cl, pod, isUpdate)
    case (c, AllowedAsIs) => c.(pods := c.pods[KeyOfPod(pod) := pod])
    case (c, Patched(p)) => c.(pods := c.pods[KeyOfPod(pod) := p])
    case (c, _) => c
  }

  /** A step that is not enabled changes nothing. */
  ghost function Next(cl: Store, step: Step): Store {
    if !Enabled(cl, step) then cl
    else match step
      case Admit(pod, isUpdate) => Admitted(cl, pod, isUpdate)
      case AdmitPartly(pod, n, half) => PartlyProcessed(cl, pod, WebhookRefs(pod), n, half)
      case MarkTerminating(key) => cl.(pods := cl.pods[key := cl.pods[key].(terminating := true)])
      case Vanish(key) => cl.(pods := cl.pods - {key})
      case Reconcile(key, lingers) => Reconciled(cl, key, lingers)
      case ControllerCleanup(ref, namespace, claim, volume) => CleanedByController(cl, ref, namespace, claim, volume)
      case WebhookCleanup(key, ref, claimFails, volumeFails) =>
        CleanedByWebhook(cl, ref, cl.pods[key], claimFails, volumeFails)
      case WebhookExit(key, lingers) => Exited(cl, key, lingers)
      case HoldClaim(at, held) => cl.(claims := Held(cl.claims, at, held))
      case HoldVolume(name, held) => cl.(volumes := Held(cl.volumes, name, held))
      case CreateShared(at, spec) => cl.(shared := cl.shared[at := spec])
      case CreateCluster(name, spec) => cl.(cluster := cl.cluster[name := spec])
  }

  ghost function Run(steps: seq<Step>): Store {
    if steps == [] then EMPTY else Next(Run(steps[..|steps| - 1]), steps[|steps| - 1])
  }

  // ---------- safety ----------

  /** One cluster has at least the live claims of another, and the same volumes and pods. */
  ghost predicate Extends(a: Store, b: Store) {
    && b.shared == a.shared && b.cluster == a.cluster && b.pods == a.pods
    && (forall k :: k in a.claims ==> k in b.claims && b.claims[k] == a.claims[k])
  }

  lemma ServedInExtension(a: Store, b: Store, pod: Pod)
    requires Extends(a, b) && Served(a, pod)
    ensures Served(b, pod)
  {
    forall ref | ref in WebhookRefs(pod)
      ensures Claimed(b, pod, ref)
    {
      assert Claimed(a, pod, ref);
    }
  }

  lemma SafeInExtension(a: Store, b: Store)
    requires Extends(a, b) && Safe(a)
    ensures Safe(b)
  {
    forall k | k in b.pods && !b.pods[k].terminating
      ensures Served(b, b.pods[k])
    {
      ServedInExtension(a, b, b.pods[k]);
    }
  }

  lemma EnsureVolumeExtends(cl: Store, spec: VolumeSpec, namespace: string)
    ensures Extends(cl, EnsureVolume(cl, spec, namespace).0) && EnsureVolume(cl, spec, namespace).0.claims == cl.claims
  {
  }

  lemma EnsureClaimExtends(cl: Store, spec: VolumeSpec, namespace: string)
    ensures var (c, ok) := EnsureClaim(cl, spec, namespace);
      var key := (namespace, Joined(spec.referenceValue, namespace));
      Extends(cl, c) && (ok ==> key in c.claims && c.claims[key].Live?)
  {
  }

  lemma ProcessClaims(cl: Store, pod: Pod, ref: WebhookRef)
    ensures var (c, p, ok) := Process(cl, pod, ref);
      && Extends(cl, c) && p.(containers := pod.containers, volumes := pod.volumes) == pod
      && (ok ==> Claimed(c, pod, ref))
  {
    match WebhookSpec(cl, ref)
    case None =>
    case Some(spec) =>
      EnsureVolumeExtends(cl, spec, pod.namespace);
      EnsureClaimExtends(EnsureVolume(cl, spec, pod.namespace).0, spec, pod.namespace);
  }

  lemma {:induction false} ProcessAllClaims(cl: Store, pod: Pod, refs: seq<WebhookRef>)
    ensures var (c, p, ok) := ProcessAll(cl, pod, refs);
      && Extends(cl, c) && p.(containers := pod.containers, volumes := pod.volumes) == pod
      && (ok ==> forall ref :: ref in refs ==> Claimed(c, pod, ref))
  {
    if refs != [] {
      var front, last := refs[..|refs| - 1], refs[|refs| - 1];
      ProcessAllClaims(cl, pod, front);
      var (c, p, ok) := ProcessAll(cl, pod, front);
      if ok {
        ProcessClaims(c, p, last);
        forall ref | ref in refs && Process(c, p, last).2
          ensures Claimed(Process(c, p, last).0, pod, ref)
        {
          assert ref in front || ref == last;
        }
      }
    }
  }

  /** What serves a pod depends on its namespace, its annotations, the volumes and the claims. */
  lemma SameClaims(a: Store, b: Store, pod: Pod, twin: Pod)
    requires b.shared == a.shared && b.cluster == a.cluster && b.claims == a.claims
    requires twin.namespace == pod.namespace && twin.annotations == pod.annotations
    ensures Served(a, pod) ==> Served(b, twin)
  {
    if Served(a, pod) {
      forall ref | ref in WebhookRefs(twin)
        ensures Claimed(b, twin, ref)
      {
        assert Claimed(a, pod, ref);
      }
    }
  }

  /** Storing a pod that is served, in place of one with its name or none. */
  lemma StoredPodIsSafe(cl: Store, pod: Pod)
    requires Safe(cl) && Served(cl, pod)
    ensures Safe(cl.(pods := cl.pods[KeyOfPod(pod) := pod]))
  {
    var a := cl.(pods := cl.pods[KeyOfPod(pod) := pod]);
    forall k | k in a.pods && !a.pods[k].terminating
      ensures Served(a, a.pods[k])
    {
      SameClaims(cl, a, a.pods[k], a.pods[k]);
    }
  }

  lemma AdmittedIsSafe(cl: Store, pod: Pod, isUpdate: bool)
    requires Safe(cl) && Enabled(cl, Admit(pod, isUpdate))
    ensures Safe(Admitted(cl, pod, isUpdate))
  {
    var refs := WebhookRefs(pod);
    ProcessAllClaims(cl, pod, refs);
    var (c, p, ok) := ProcessAll(cl, pod, refs);
    SafeInExtension(cl, c);
    if Handled(cl, pod, isUpdate).1.AllowedAsIs? {
      if isUpdate {
        SameClaims(cl, cl, cl.pods[KeyOfPod(pod)], pod);
      }
      StoredPodIsSafe(cl, pod);
    } else if Handled(cl, pod, isUpdate).1.Patched? {
      assert Served(c, pod);
      SameClaims(c, c, pod, WithFinalizer(p));
      StoredPodIsSafe(c, WithFinalizer(p));
    }
  }

  lemma RefListed(pod: Pod, w: WebhookRef)
    requires w in WebhookRefs(pod)
    ensures if w.isCluster then w.namespace == "" && w.name in Listed(pod, CLUSTER_KEY)
            else w.namespace == pod.namespace && w.name in Listed(pod, SHARED_KEY)
  {
  }

  /** One reference value, one volume: whoever names it is seen by both scans. */
  lemma SameReferenceIsSeen(cl: Store, pod: Pod, w: WebhookRef, c: ControllerRef, r: WebhookRef)
    requires ReferencesDistinct(cl.shared, cl.cluster) && !pod.terminating && w in WebhookRefs(pod) &&
      WebhookSpec(cl, w).Some?
    ensures ControllerSpec(cl, c).Some? &&
      ControllerSpec(cl, c).value.referenceValue == WebhookSpec(cl, w).value.referenceValue
      ==> Uses(pod, c)
    ensures WebhookSpec(cl, r).Some? &&
      WebhookSpec(cl, r).value.referenceValue == WebhookSpec(cl, w).value.referenceValue
      ==> NamedBy(pod, r)
  {
    RefListed(pod, w);
    UsesByName(pod, c);
    if WebhookSpec(cl, r).Some? && WebhookSpec(cl, r).value.referenceValue == WebhookSpec(cl, w).value.referenceValue {
      assert SameVolume(w, r);
    }
  }

  predicate Carries(spec: Option<VolumeSpec>, reference: string) {
    spec.Some? && spec.value.referenceValue == reference
  }

  lemma ClaimNamesUnique(r: string, s: string, namespace: string)
    ensures Joined(r, namespace) == Joined(s, namespace) <==> r == s
  {
    assert r + "-" + namespace == r + ("-" + namespace) && s + "-" + namespace == s + ("-" + namespace);
    if Joined(r, namespace) == Joined(s, namespace) {
      CancelRight(r, s, "-" + namespace);
    }
  }

  /** Deleting the pair of a reference that no live pod of the namespace names harms nobody. */
  lemma DeletePairIsSafe(cl: Store, spec: VolumeSpec, namespace: string, claim: Deletion, volume: Deletion, goOn: bool)
    requires Safe(cl)
    requires forall k, w :: k in cl.pods && !cl.pods[k].terminating && w in WebhookRefs(cl.pods[k]) ==>
      !Carries(WebhookSpec(cl, w), spec.referenceValue)
    ensures Safe(DeletePair(cl, spec, namespace, claim, volume, goOn))
  {
    var d := DeletePair(cl, spec, namespace, claim, volume, goOn);
    forall k | k in d.pods && !d.pods[k].terminating
      ensures Served(d, d.pods[k])
    {
      forall w | w in WebhookRefs(d.pods[k])
        ensures Claimed(d, d.pods[k], w)
      {
        assert Claimed(cl, cl.pods[k], w);
        ClaimNamesUnique(WebhookSpec(cl, w).value.referenceValue, spec.referenceValue, namespace);
      }
    }
  }

  lemma ControllerCleanupIsSafe(cl: Store, ref: ControllerRef, namespace: string, claim: Deletion, volume: Deletion)
    requires Safe(cl)
    ensures Safe(CleanedByController(cl, ref, namespace, claim, volume))
  {
    if ControllerSpec(cl, ref).Some? && !NamedByLivePod(cl, ref) {
      forall k, w | k in cl.pods && !cl.pods[k].terminating && w in WebhookRefs(cl.pods[k])
        ensures !Carries(WebhookSpec(cl, w), ControllerSpec(cl, ref).value.referenceValue)
      {
        if WebhookSpec(cl, w).Some? {
          SameReferenceIsSeen(cl, cl.pods[k], w, ref, w);
        }
      }
      DeletePairIsSafe(cl, ControllerSpec(cl, ref).value, namespace, claim, volume, claim.Gone?);
    }
  }

  /** The pod of the request may be gone, but a pod of its name that lives must not be skipped. */
  lemma WebhookCleanupIsSafe(cl: Store, ref: WebhookRef, deleting: Pod, claimFails: bool, volumeFails: bool)
    requires Safe(cl) && (KeyOfPod(deleting) in cl.pods ==> cl.pods[KeyOfPod(deleting)].terminating)
    ensures Safe(CleanedByWebhook(cl, ref, deleting, claimFails, volumeFails))
  {
    if WebhookSpec(cl, ref).Some? && !NamedByOtherPod(cl, ref, deleting) {
      forall k, w | k in cl.pods && !cl.pods[k].terminating && w in WebhookRefs(cl.pods[k])
        ensures !Carries(WebhookSpec(cl, w), WebhookSpec(cl, ref).value.referenceValue)
      {
        if WebhookSpec(cl, w).Some? {
          SameReferenceIsSeen(cl, cl.pods[k], w, ControllerRef("", ""), ref);
        }
      }
      var spec := WebhookSpec(cl, ref).value;
      var name := Joined(spec.referenceValue, deleting.namespace);
      DeletePairIsSafe(cl, spec, deleting.namespace, PlainDeletion(cl.claims, (deleting.namespace, name), claimFails),
                       PlainDeletion(cl.volumes, name, volumeFails), !claimFails);
    }
  }

  lemma CleanedAllStep(cl: Store, refs: seq<ControllerRef>, ref: ControllerRef, namespace: string)
    ensures CleanedAll(cl, refs + [ref], namespace) ==
      CleanedByController(CleanedAll(cl, refs, namespace), ref, namespace, Gone, Gone)
  {
    assert (refs + [ref])[..|refs|] == refs;
  }

  lemma {:induction false} CleanedAllIsSafe(cl: Store, refs: seq<ControllerRef>, namespace: string)
    requires Safe(cl)
    ensures Safe(CleanedAll(cl, refs, namespace))
  {
    if refs != [] {
      CleanedAllIsSafe(cl, refs[..|refs| - 1], namespace);
      ControllerCleanupIsSafe(CleanedAll(cl, refs[..|refs| - 1], namespace), refs[|refs| - 1], namespace, Gone, Gone);
    }
  }

  /** Fewer live pods, same claims. */
  lemma FewerPodsSafe(a: Store, b: Store)
    requires Safe(a) && b.shared == a.shared && b.cluster == a.cluster && b.claims == a.claims
    requires forall k :: k in b.pods ==>
      k in a.pods && (b.pods[k] == a.pods[k] || (b.pods[k].terminating && KeyOfPod(b.pods[k]) == k))
    ensures Safe(b)
  {
    forall k | k in b.pods && !b.pods[k].terminating
      ensures Served(b, b.pods[k])
    {
      SameClaims(a, b, a.pods[k], b.pods[k]);
    }
  }

  /** New volumes do not disturb the pods that are already served. */
  lemma NewVolumeSafe(a: Store, b: Store)
    requires Safe(a) && ReferencesDistinct(b.shared, b.cluster) && b.pods == a.pods && b.claims == a.claims
    requires forall k :: k in a.shared ==> k in b.shared && b.shared[k] == a.shared[k]
    requires forall k :: k in a.cluster ==> k in b.cluster && b.cluster[k] == a.cluster[k]
    ensures Safe(b)
  {
    forall k | k in b.pods && !b.pods[k].terminating
      ensures Served(b, b.pods[k])
    {
      forall w | w in WebhookRefs(b.pods[k])
        ensures Claimed(b, b.pods[k], w)
      {
        assert Claimed(a, a.pods[k], w);
      }
    }
  }

  lemma WithFinalizersIsSafe(cl: Store, key: Key, finalizers: seq<string>, lingers: bool)
    requires Safe(cl) && key in cl.pods && cl.pods[key].terminating
    ensures Safe(WithFinalizers(cl, key, finalizers, lingers))
  {
    FewerPodsSafe(cl, WithFinalizers(cl, key, finalizers, lingers));
  }

  lemma ReconciledIsSafe(cl: Store, key: Key, lingers: bool)
    requires Safe(cl) && key in cl.pods && cl.pods[key].terminating
    ensures Safe(Reconciled(cl, key, lingers))
  {
    WithFinalizersIsSafe(cl, key, [], lingers);
    CleanedAllIsSafe(WithFinalizers(cl, key, [], lingers), ControllerRefs(cl.pods[key]), cl.pods[key].namespace);
  }

  /** Finalizers come and go without making a live claim anything else. */
  lemma HeldIsSafe(cl: Store, at: Key, name: string, held: bool)
    requires Safe(cl)
    ensures Safe(cl.(claims := Held(cl.claims, at, held))) && Safe(cl.(volumes := Held(cl.volumes, name, held)))
  {
    var a, b := cl.(claims := Held(cl.claims, at, held)), cl.(volumes := Held(cl.volumes, name, held));
    forall k | k in cl.pods && !cl.pods[k].terminating
      ensures Served(a, cl.pods[k]) && Served(b, cl.pods[k])
    {
      forall w | w in WebhookRefs(cl.pods[k])
        ensures Claimed(a, cl.pods[k], w) && Claimed(b, cl.pods[k], w)
      {
        assert Claimed(cl, cl.pods[k], w);
      }
    }
  }

  lemma CreatedAreSafe(cl: Store, at: Key, name: string, spec: VolumeSpec)
    requires Safe(cl) && Fresh(cl, spec.referenceValue)
    ensures at !in cl.shared ==> Safe(cl.(shared := cl.shared[at := spec]))
    ensures name !in cl.cluster ==> Safe(cl.(cluster := cl.cluster[name := spec]))
  {
    if at !in cl.shared {
      NewVolumeSafe(cl, cl.(shared := cl.shared[at := spec]));
    }
    if name !in cl.cluster {
      NewVolumeSafe(cl, cl.(cluster := cl.cluster[name := spec]));
    }
  }

  lemma PartlyAdmittedIsSafe(cl: Store, pod: Pod, refs: seq<WebhookRef>, n: nat, half: bool)
    requires Safe(cl) && n <= |refs|
    ensures Safe(PartlyProcessed(cl, pod, refs, n, half))
  {
    ProcessAllClaims(cl, pod, refs[..n]);
    var c := ProcessAll(cl, pod, refs[..n]).0;
    SafeInExtension(cl, c);
    if half && n < |refs| && WebhookSpec(c, refs[n]).Some? {
      EnsureVolumeExtends(c, WebhookSpec(c, refs[n]).value, pod.namespace);
      SafeInExtension(c, HalfProcessed(c, pod.namespace, refs[n]));
    }
  }

  lemma {:induction false} CleanedAllByWebhookIsSafe(cl: Store, refs: seq<WebhookRef>, deleting: Pod)
    requires Safe(cl) && (KeyOfPod(deleting) in cl.pods ==> cl.pods[KeyOfPod(deleting)].terminating)
    ensures Safe(CleanedAllByWebhook(cl, refs, deleting))
  {
    if refs != [] {
      var n := |refs| - 1;
      CleanedAllByWebhookIsSafe(cl, refs[..n], deleting);
      WebhookCleanupIsSafe(CleanedAllByWebhook(cl, refs[..n], deleting), refs[n], deleting, false, false);
    }
  }

  lemma ExitedIsSafe(cl: Store, key: Key, lingers: bool)
    requires Safe(cl) && ExitEnabled(cl, key)
    ensures Safe(Exited(cl, key, lingers))
  {
    var cleaned := CleanedAllByWebhook(cl, WebhookRefs(cl.pods[key]), cl.pods[key]);
    CleanedAllByWebhookIsSafe(cl, WebhookRefs(cl.pods[key]), cl.pods[key]);
    WithFinalizersIsSafe(cleaned, key, FinalizerRemoval.Removed(cl.pods[key].finalizers, POD_FINALIZER), lingers);
  }

  lemma PodStepIsSafe(cl: Store, step: Step)
    requires Safe(cl) && Enabled(cl, step)
    requires step.Admit? || step.AdmitPartly? || step.MarkTerminating? || step.Vanish? || step.Reconcile?
    ensures Safe(Next(cl, step))
  {
    match step
    case Admit(pod, isUpdate) => AdmittedIsSafe(cl, pod, isUpdate);
    case AdmitPartly(pod, n, half) => PartlyAdmittedIsSafe(cl, pod, WebhookRefs(pod), n, half);
    case MarkTerminating(key) => FewerPodsSafe(cl, Next(cl, step));
    case Vanish(key) => FewerPodsSafe(cl, cl.(pods := cl.pods - {key}));
    case Reconcile(key, lingers) => ReconciledIsSafe(cl, key, lingers);
  }

  lemma StepIsSafe(cl: Store, step: Step)
    requires Safe(cl)
    ensures Safe(Next(cl, step))
  {
    if Enabled(cl, step) {
      match step
      case ControllerCleanup(ref, namespace, claim, volume) => ControllerCleanupIsSafe(cl, ref, namespace, claim,
                                                                                       volume);
      case WebhookCleanup(key, ref, claimFails, volumeFails) =>
        WebhookCleanupIsSafe(cl, ref, cl.pods[key], claimFails, volumeFails);
      case WebhookExit(key, lingers) => ExitedIsSafe(cl, key, lingers);
      case HoldClaim(at, held) => HeldIsSafe(cl, at, "", held);
      case HoldVolume(name, held) => HeldIsSafe(cl, ("", ""), name, held);
      case CreateShared(at, spec) => CreatedAreSafe(cl, at, "", spec);
      case CreateCluster(name, spec) => CreatedAreSafe(cl, ("", ""), name, spec);
      case _ => PodStepIsSafe(cl, step);
    }
  }

  /**
   Reference safety over all runs, faults and partial admissions included: every stored pod that is
   not being deleted has, for each volume it names, an existing claim that is not terminating.
   */
  lemma {:induction false} LivePodsKeepTheirClaims(steps: seq<Step>)
    ensures Safe(Run(steps))
  {
    if steps != [] {
      LivePodsKeepTheirClaims(steps[..|steps| - 1]);
      StepIsSafe(Run(steps[..|steps| - 1]), steps[|steps| - 1]);
    }
  }
}
