/**
 No leak: what the webhook creates for a namespaced volume goes when no stored pod holds it any more.

 Everything is stated twice at once. Strictly, nothing is left at all; otherwise, whatever is left is
 being deleted: the webhook's plain deletion of a claim or volume that has finalizers ends there.
 */
module PodLeaks {
  import opened Common
  import opened VolumeTypes
  import opened PodAnnotations
  import opened PodMutation
  import opened PodProtocol
  import CleanupNames
  import FinalizerRemoval

  predicate Present<K>(m: map<K, Condition>, k: K, strict: bool) {
    k in m && (strict || m[k].Live?)
  }

  /** Something of the pair of a volume and its namespace is present. */
  ghost predicate PairExists(cl: Store, at: Key, strict: bool)
    requires at in cl.shared
  {
    var name := Joined(cl.shared[at].referenceValue, at.0);
    Present(cl.claims, (at.0, name), strict) || Present(cl.volumes, name, strict)
  }

  ghost predicate Holds(key: Key, pod: Pod, at: Key) {
    key.0 == at.0 && at.1 in Listed(pod, SHARED_KEY) && POD_FINALIZER in pod.finalizers
  }

  /** A stored pod of the volume's namespace names it and still has the cleanup finalizer. */
  ghost predicate HeldByStoredPod(cl: Store, at: Key) {
    exists k :: k in cl.pods && Holds(k, cl.pods[k], at)
  }

  ghost predicate GeneratedReferences(shared: map<Key, VolumeSpec>, cluster: map<string, VolumeSpec>) {
    && (forall a :: a in shared ==> CleanupNames.GeneratedReference(shared[a].referenceValue))
    && (forall a :: a in cluster ==> CleanupNames.GeneratedReference(cluster[a].referenceValue))
  }

  /** Pods stay out of the operation namespace; a live one that names volumes has the cleanup finalizer. */
  ghost predicate OrderlyPod(key: Key, pod: Pod) {
    && key == KeyOfPod(pod) && key.0 != OPERATION_NAMESPACE
    && (!pod.terminating && Listed(pod, SHARED_KEY) != [] ==> POD_FINALIZER in pod.finalizers)
  }

  ghost predicate OrderlyPods(pods: map<Key, Pod>) {
    forall k :: k in pods ==> OrderlyPod(k, pods[k])
  }

  ghost predicate PairsHeld(cl: Store, strict: bool) {
    forall at :: at in cl.shared && PairExists(cl, at, strict) ==> HeldByStoredPod(cl, at)
  }

  /** A claim or persistent volume of a namespaced volume is present only while a stored pod holds it. */
  ghost predicate Tidy(cl: Store, strict: bool) {
    && ReferencesDistinct(cl.shared, cl.cluster) && GeneratedReferences(cl.shared, cl.cluster)
    && OrderlyPods(cl.pods) && PairsHeld(cl, strict)
  }

  /**
   No admission ends in an error or happens in the operation namespace, and a pod vanishes by itself
   only after the cleanup finalizer is off.
   */
  ghost predicate Orderly(cl: Store, step: Step) {
    match step
    case Admit(pod, isUpdate) =>
      pod.namespace != OPERATION_NAMESPACE && !Handled(cl, pod, isUpdate).1.Errored?
    case AdmitPartly(_, _, _) => false
    case Vanish(key) => key in cl.pods ==> POD_FINALIZER !in cl.pods[key].finalizers
    case _ => true
  }

  ghost predicate OrderlyRun(steps: seq<Step>) {
    forall i :: 0 <= i < |steps| ==> Orderly(Run(steps[..i]), steps[i])
  }

  // ---------- what a cleanup removes ----------

  /** Nothing becomes present that was not. */
  ghost predicate Fades<K(!new)>(a: map<K, Condition>, b: map<K, Condition>) {
    forall k :: k in b ==> k in a && (b[k].Live? ==> a[k].Live?)
  }

  ghost predicate SweptBy(cl: Store, r: ControllerRef, reference: string) {
    Carries(ControllerSpec(cl, r), reference) && !NamedByLivePod(cl, r)
  }

  /** A cleanup of these references removes the pair of this reference value. */
  ghost predicate Swept(cl: Store, refs: seq<ControllerRef>, reference: string) {
    exists r :: r in refs && SweptBy(cl, r, reference)
  }

  ghost predicate SameBesideObjects(a: Store, b: Store) {
    b.shared == a.shared && b.cluster == a.cluster && b.pods == a.pods
  }

  ghost predicate CleansExactly(cl: Store, out: Store, namespace: string, reference: string, swept: bool) {
    var name := Joined(reference, namespace);
    && SameBesideObjects(cl, out) && Fades(cl.claims, out.claims) && Fades(cl.volumes, out.volumes)
    && ((namespace, name) in out.claims <==> (namespace, name) in cl.claims && !swept)
    && (name in out.volumes <==> name in cl.volumes && !swept)
  }

  lemma CleanedOneExactly(cl: Store, r: ControllerRef, namespace: string, reference: string)
    ensures CleansExactly(cl, CleanedByController(cl, r, namespace, Gone, Gone), namespace, reference,
                          SweptBy(cl, r, reference))
  {
    if ControllerSpec(cl, r).Some? {
      ClaimNamesUnique(ControllerSpec(cl, r).value.referenceValue, reference, namespace);
    }
  }

  lemma SweptOfLonger(cl: Store, mid: Store, front: seq<ControllerRef>, r: ControllerRef, reference: string)
    requires SameBesideObjects(cl, mid)
    ensures Swept(cl, front + [r], reference) <==> Swept(cl, front, reference) || SweptBy(mid, r, reference)
  {
    assert forall x :: x in front + [r] <==> x in front || x == r;
    assert NamedByLivePod(mid, r) <==> NamedByLivePod(cl, r);
    assert SweptBy(mid, r, reference) <==> SweptBy(cl, r, reference);
  }

  /** The fault-free cleanup of a pod removes exactly the swept pairs of its namespace. */
  lemma {:induction false} CleanedAllExactly(cl: Store, refs: seq<ControllerRef>, namespace: string, reference: string)
    ensures CleansExactly(cl, CleanedAll(cl, refs, namespace), namespace, reference, Swept(cl, refs, reference))
  {
    if refs != [] {
      var front, r := refs[..|refs| - 1], refs[|refs| - 1];
      assert refs == front + [r];
      CleanedAllExactly(cl, front, namespace, reference);
      var mid := CleanedAll(cl, front, namespace);
      SweptOfLonger(cl, mid, front, r, reference);
      CleanedOneExactly(mid, r, namespace, reference);
    }
  }

  /** A plain deletion would leave this object terminating. */
  predicate Left<K>(m: map<K, Condition>, k: K) {
    k in m && HasFinalizers(m[k])
  }

  ghost predicate SweptByWebhook(cl: Store, r: WebhookRef, deleting: Pod, reference: string) {
    Carries(WebhookSpec(cl, r), reference) && !NamedByOtherPod(cl, r, deleting)
  }

  lemma WebhookFades(cl: Store, r: WebhookRef, deleting: Pod, claimFails: bool, volumeFails: bool)
    ensures var out := CleanedByWebhook(cl, r, deleting, claimFails, volumeFails);
      SameBesideObjects(cl, out) && Fades(cl.claims, out.claims) && Fades(cl.volumes, out.volumes)
  {
  }

  /** A swept object is there afterwards only strictly, and only if it has finalizers. */
  ghost predicate Sweeps<K(!new)>(a: map<K, Condition>, b: map<K, Condition>, k: K, swept: bool) {
    && (Left(b, k) <==> Left(a, k))
    && (forall strict :: Present(b, k, strict) <==> if swept then strict && Left(a, k) else Present(a, k, strict))
  }

  /** What a cleanup by the webhook does to the pair of a reference value. */
  ghost predicate SweepsPair(cl: Store, out: Store, namespace: string, reference: string, swept: bool) {
    var name := Joined(reference, namespace);
    && SameBesideObjects(cl, out) && Fades(cl.claims, out.claims) && Fades(cl.volumes, out.volumes)
    && Sweeps(cl.claims, out.claims, (namespace, name), swept) && Sweeps(cl.volumes, out.volumes, name, swept)
  }

  lemma WebhookSweeps(cl: Store, r: WebhookRef, deleting: Pod, reference: string)
    ensures SweepsPair(cl, CleanedByWebhook(cl, r, deleting, false, false), deleting.namespace, reference,
                       SweptByWebhook(cl, r, deleting, reference))
  {
    if WebhookSpec(cl, r).Some? {
      ClaimNamesUnique(WebhookSpec(cl, r).value.referenceValue, reference, deleting.namespace);
    }
  }

  ghost predicate SweptByExit(cl: Store, refs: seq<WebhookRef>, deleting: Pod, reference: string) {
    exists r :: r in refs && SweptByWebhook(cl, r, deleting, reference)
  }

  lemma SweptByLongerExit(cl: Store, mid: Store, front: seq<WebhookRef>, r: WebhookRef, deleting: Pod,
                          reference: string)
    requires SameBesideObjects(cl, mid)
    ensures SweptByExit(cl, front + [r], deleting, reference) <==>
      SweptByExit(cl, front, deleting, reference) || SweptByWebhook(mid, r, deleting, reference)
  {
    assert forall x :: x in front + [r] <==> x in front || x == r;
    assert NamedByOtherPod(mid, r, deleting) <==> NamedByOtherPod(cl, r, deleting);
    assert SweptByWebhook(mid, r, deleting, reference) <==> SweptByWebhook(cl, r, deleting, reference);
  }

  /** The fault-free cleanup by the webhook sweeps exactly the pairs that no other live pod names. */
  lemma {:induction false} ExitSweepsExactly(cl: Store, refs: seq<WebhookRef>, deleting: Pod, reference: string)
    ensures SweepsPair(cl, CleanedAllByWebhook(cl, refs, deleting), deleting.namespace, reference,
                       SweptByExit(cl, refs, deleting, reference))
  {
    if refs != [] {
      var front, r := refs[..|refs| - 1], refs[|refs| - 1];
      assert refs == front + [r];
      var mid := CleanedAllByWebhook(cl, front, deleting);
      ExitSweepsExactly(cl, front, deleting, reference);
      SweptByLongerExit(cl, mid, front, r, deleting, reference);
      WebhookSweeps(mid, r, deleting, reference);
    }
  }

  lemma RemovedAll(s: seq<string>, x: string)
    requires FinalizerRemoval.Removed(s, x) == []
    ensures forall f :: f in s ==> f == x
  {
    FinalizerRemoval.RemovedKeepsOthers(s, x);
    forall f | f in s
      ensures f == x
    {
      assert multiset(s)[f] > 0;
    }
  }

  /** The cleanup finalizer goes alone: finalizers of others stay, and with one of them the pod. */
  ghost predicate LosesOnly(before: Pod, pods: map<Key, Pod>, key: Key) {
    && (key !in pods ==> forall f :: f in before.finalizers ==> f == "sharedvolume.sv/pod-cleanup")
    && (key in pods ==>
          && pods[key].(finalizers := before.finalizers) == before
          && "sharedvolume.sv/pod-cleanup" !in pods[key].finalizers
          && forall f :: f != "sharedvolume.sv/pod-cleanup" ==>
               multiset(pods[key].finalizers)[f] == multiset(before.finalizers)[f])
  }

  lemma ReleaseLosesOnly(cl: Store, key: Key, lingers: bool)
    requires key in cl.pods
    ensures LosesOnly(cl.pods[key], Released(cl, key, lingers).pods, key)
    ensures forall k :: k != key ==>
      (k in Released(cl, key, lingers).pods <==> k in cl.pods) &&
        (k in cl.pods ==> Released(cl, key, lingers).pods[k] == cl.pods[k])
  {
    var finalizers := cl.pods[key].finalizers;
    FinalizerRemoval.RemovedKeepsOthers(finalizers, POD_FINALIZER);
    if FinalizerRemoval.Removed(finalizers, POD_FINALIZER) == [] {
      RemovedAll(finalizers, POD_FINALIZER);
    }
  }

  /** The exit through the webhook: the pod loses the cleanup finalizer alone, and no other pod changes. */
  lemma ExitReleasesOnly(cl: Store, key: Key, lingers: bool)
    requires key in cl.pods
    ensures var out := Exited(cl, key, lingers);
      && LosesOnly(cl.pods[key], out.pods, key)
      && (forall k :: k != key ==>
            (k in out.pods <==> k in cl.pods) && (k in cl.pods ==> out.pods[k] == cl.pods[k]))
  {
    ReleaseLosesOnly(CleanedAllByWebhook(cl, WebhookRefs(cl.pods[key]), cl.pods[key]), key, lingers);
  }

  // ---------- what an admission adds ----------

  /** Generated references have one length: joined names determine reference and namespace. */
  lemma JoinedNamesUnique(r: string, a: string, s: string, b: string)
    requires CleanupNames.GeneratedReference(r) && CleanupNames.GeneratedReference(s)
    requires Joined(r, a) == Joined(s, b)
    ensures r == s && a == b
  {
    assert r == Joined(r, a)[..15] && s == Joined(s, b)[..15];
    CancelLeft(r + "-", a, b);
  }

  ghost predicate NamesPair(a: Store, refs: seq<WebhookRef>, namespace: string, name: string) {
    exists w :: w in refs && WebhookSpec(a, w).Some? &&
      name == Joined(WebhookSpec(a, w).value.referenceValue, namespace)
  }

  ghost predicate Grows<K(!new)>(a: map<K, Condition>, b: map<K, Condition>) {
    forall k :: k in a ==> k in b && b[k] == a[k]
  }

  /** What admission adds: claims and volumes of the references it processes, in the pod's namespace. */
  ghost predicate AddsOnlyNamed(a: Store, b: Store, namespace: string, refs: seq<WebhookRef>) {
    && Grows(a.claims, b.claims) && Grows(a.volumes, b.volumes)
    && (forall k :: k in b.claims && k !in a.claims ==> k.0 == namespace && NamesPair(a, refs, namespace, k.1))
    && (forall v :: v in b.volumes && v !in a.volumes ==> NamesPair(a, refs, namespace, v))
  }

  lemma EnsuresAdd(cl: Store, spec: VolumeSpec, namespace: string)
    ensures var c := EnsureVolume(cl, spec, namespace).0;
      && c.claims == cl.claims && Grows(cl.volumes, c.volumes)
      && forall v :: v in c.volumes && v !in cl.volumes ==> v == Joined(spec.referenceValue, namespace)
    ensures var c := EnsureClaim(cl, spec, namespace).0;
      && c.volumes == cl.volumes && Grows(cl.claims, c.claims)
      && forall k :: k in c.claims && k !in cl.claims ==> k == (namespace, Joined(spec.referenceValue, namespace))
  {
  }

  lemma NamesItsPair(cl: Store, ref: WebhookRef, spec: VolumeSpec, namespace: string)
    requires WebhookSpec(cl, ref) == Some(spec)
    ensures NamesPair(cl, [ref], namespace, Joined(spec.referenceValue, namespace))
  {
    assert ref in [ref];
  }

  lemma ProcessAddsOnlyNamed(cl: Store, pod: Pod, ref: WebhookRef)
    ensures AddsOnlyNamed(cl, Process(cl, pod, ref).0, pod.namespace, [ref])
  {
    if WebhookSpec(cl, ref).Some? {
      var spec := WebhookSpec(cl, ref).value;
      NamesItsPair(cl, ref, spec, pod.namespace);
      EnsuresAdd(cl, spec, pod.namespace);
      var made := EnsureVolume(cl, spec, pod.namespace).0;
      EnsuresAdd(made, spec, pod.namespace);
      var claimed := EnsureClaim(made, spec, pod.namespace).0;
      assert AddsOnlyNamed(cl, made, pod.namespace, [ref]);
      assert AddsOnlyNamed(cl, claimed, pod.namespace, [ref]);
      assert Process(cl, pod, ref).0 in {made, claimed};
    }
  }

  lemma NamesPairOfLonger(a: Store, b: Store, front: seq<WebhookRef>, last: WebhookRef, namespace: string, name: string)
    requires b.shared == a.shared && b.cluster == a.cluster
    ensures NamesPair(a, front, namespace, name) ==> NamesPair(a, front + [last], namespace, name)
    ensures NamesPair(b, [last], namespace, name) ==> NamesPair(a, front + [last], namespace, name)
  {
    assert forall w :: w in front + [last] <==> w in front || w == last;
    assert WebhookSpec(a, last) == WebhookSpec(b, last);
  }

  lemma AddsCompose(a: Store, b: Store, c: Store, namespace: string, front: seq<WebhookRef>, last: WebhookRef)
    requires b.shared == a.shared && b.cluster == a.cluster
    requires AddsOnlyNamed(a, b, namespace, front) && AddsOnlyNamed(b, c, namespace, [last])
    ensures AddsOnlyNamed(a, c, namespace, front + [last])
  {
    forall name
      ensures NamesPair(a, front, namespace, name) ==> NamesPair(a, front + [last], namespace, name)
      ensures NamesPair(b, [last], namespace, name) ==> NamesPair(a, front + [last], namespace, name)
    {
      NamesPairOfLonger(a, b, front, last, namespace, name);
    }
  }

  lemma {:induction false} ProcessAllAddsOnlyNamed(cl: Store, pod: Pod, refs: seq<WebhookRef>)
    ensures AddsOnlyNamed(cl, ProcessAll(cl, pod, refs).0, pod.namespace, refs)
  {
    if refs != [] {
      var front, last := refs[..|refs| - 1], refs[|refs| - 1];
      assert refs == front + [last];
      ProcessAllAddsOnlyNamed(cl, pod, front);
      ProcessAllClaims(cl, pod, front);
      var (c, p, ok) := ProcessAll(cl, pod, front);
      if ok {
        ProcessAddsOnlyNamed(c, p, last);
        AddsCompose(cl, c, Process(c, p, last).0, pod.namespace, front, last);
      } else {
        AddsCompose(cl, c, c, pod.namespace, front, last);
      }
    }
  }

  /** Claims and volumes of a namespaced volume that admission adds are named by the pod. */
  lemma NewPairIsNamed(cl: Store, c: Store, pod: Pod, at: Key, strict: bool)
    requires ReferencesDistinct(cl.shared, cl.cluster) && GeneratedReferences(cl.shared, cl.cluster) && at in cl.shared
    requires AddsOnlyNamed(cl, c, pod.namespace, WebhookRefs(pod)) && c.shared == cl.shared
    requires PairExists(c, at, strict) && !PairExists(cl, at, strict)
    ensures at.0 == pod.namespace && at.1 in Listed(pod, SHARED_KEY)
  {
    var name := Joined(cl.shared[at].referenceValue, at.0);
    assert NamesPair(cl, WebhookRefs(pod), pod.namespace, name);
    var w :| w in WebhookRefs(pod) && WebhookSpec(cl, w).Some? &&
      name == Joined(WebhookSpec(cl, w).value.referenceValue, pod.namespace);
    JoinedNamesUnique(cl.shared[at].referenceValue, at.0, WebhookSpec(cl, w).value.referenceValue, pod.namespace);
    RefListed(pod, w);
  }

  /** Storing a pod after admission has created only pairs that the pod names. */
  lemma StoredPodIsTidy(cl: Store, c: Store, pod: Pod, stored: Pod, strict: bool)
    requires Tidy(cl, strict) && c.shared == cl.shared && c.cluster == cl.cluster
    requires AddsOnlyNamed(cl, c, pod.namespace, WebhookRefs(pod))
    requires OrderlyPod(KeyOfPod(pod), stored) && !stored.terminating
    requires Listed(stored, SHARED_KEY) == Listed(pod, SHARED_KEY)
    requires KeyOfPod(pod) in cl.pods ==> Listed(cl.pods[KeyOfPod(pod)], SHARED_KEY) == Listed(pod, SHARED_KEY)
    ensures Tidy(c.(pods := cl.pods[KeyOfPod(pod) := stored]), strict)
  {
    var key := KeyOfPod(pod);
    var a := c.(pods := cl.pods[key := stored]);
    forall at | at in a.shared && PairExists(a, at, strict)
      ensures HeldByStoredPod(a, at)
    {
      assert PairExists(c, at, strict);
      if PairExists(cl, at, strict) {
        var k :| k in cl.pods && Holds(k, cl.pods[k], at);
        assert k in a.pods && Holds(k, a.pods[k], at);
      } else {
        NewPairIsNamed(cl, c, pod, at, strict);
        assert key in a.pods && Holds(key, a.pods[key], at);
      }
    }
  }

  lemma HandledAddsOnlyNamed(cl: Store, pod: Pod, isUpdate: bool)
    ensures var c := Handled(cl, pod, isUpdate).0;
      SameBesideObjects(cl, c) && AddsOnlyNamed(cl, c, pod.namespace, WebhookRefs(pod))
  {
    ProcessAllClaims(cl, pod, WebhookRefs(pod));
    ProcessAllAddsOnlyNamed(cl, pod, WebhookRefs(pod));
  }

  /** An update lists what the stored pod lists. */
  lemma UpdateKeepsList(cl: Store, pod: Pod, isUpdate: bool)
    requires Enabled(cl, Admit(pod, isUpdate))
    ensures KeyOfPod(pod) in cl.pods ==> Listed(cl.pods[KeyOfPod(pod)], SHARED_KEY) == Listed(pod, SHARED_KEY)
  {
  }

  lemma ListingPodsHaveRefs(pod: Pod)
    requires Listed(pod, SHARED_KEY) != []
    ensures WebhookRefs(pod) != []
  {
  }

  /** A pod that passes untouched names nothing, or has the cleanup finalizer. */
  lemma AllowedIsTidy(cl: Store, pod: Pod, isUpdate: bool, strict: bool)
    requires Tidy(cl, strict) && Enabled(cl, Admit(pod, isUpdate)) && pod.namespace != OPERATION_NAMESPACE
    requires Handled(cl, pod, isUpdate).1.AllowedAsIs?
    ensures Tidy(cl.(pods := cl.pods[KeyOfPod(pod) := pod]), strict)
  {
    if Listed(pod, SHARED_KEY) != [] {
      ListingPodsHaveRefs(pod);
    }
    UpdateKeepsList(cl, pod, isUpdate);
    StoredPodIsTidy(cl, cl, pod, pod, strict);
  }

  lemma PatchedKeepsNames(cl: Store, pod: Pod, isUpdate: bool)
    requires Handled(cl, pod, isUpdate).1.Patched?
    ensures var p := Handled(cl, pod, isUpdate).1.pod;
      && KeyOfPod(p) == KeyOfPod(pod) && p.annotations == pod.annotations && p.terminating == pod.terminating
      && POD_FINALIZER in p.finalizers
  {
    ProcessAllClaims(cl, pod, WebhookRefs(pod));
  }

  lemma PatchedIsTidy(cl: Store, pod: Pod, isUpdate: bool, strict: bool)
    requires Tidy(cl, strict) && Enabled(cl, Admit(pod, isUpdate)) && pod.namespace != OPERATION_NAMESPACE
    requires Handled(cl, pod, isUpdate).1.Patched?
    ensures var (c, response) := Handled(cl, pod, isUpdate);
      Tidy(c.(pods := cl.pods[KeyOfPod(pod) := response.pod]), strict)
  {
    HandledAddsOnlyNamed(cl, pod, isUpdate);
    PatchedKeepsNames(cl, pod, isUpdate);
    UpdateKeepsList(cl, pod, isUpdate);
    StoredPodIsTidy(cl, Handled(cl, pod, isUpdate).0, pod, Handled(cl, pod, isUpdate).1.pod, strict);
  }

  lemma AdmittedIsTidy(cl: Store, pod: Pod, isUpdate: bool, strict: bool)
    requires Tidy(cl, strict) && Enabled(cl, Admit(pod, isUpdate)) && Orderly(cl, Admit(pod, isUpdate))
    ensures Tidy(Admitted(cl, pod, isUpdate), strict)
  {
    HandledAddsOnlyNamed(cl, pod, isUpdate);
    match Handled(cl, pod, isUpdate).1
    case AllowedAsIs => AllowedIsTidy(cl, pod, isUpdate, strict);
    case Patched(_) => PatchedIsTidy(cl, pod, isUpdate, strict);
    case Denied =>
  }

  // ---------- the two ways a pod leaves ----------

  /** A live pod that lists a volume holds it. */
  lemma LivePodHolds(cl: Store, k: Key, at: Key)
    requires OrderlyPods(cl.pods) && k in cl.pods && !cl.pods[k].terminating
    requires k.0 == at.0 && at.1 in Listed(cl.pods[k], SHARED_KEY)
    ensures HeldByStoredPod(cl, at)
  {
    assert OrderlyPod(k, cl.pods[k]) && Holds(k, cl.pods[k], at);
  }

  /** A pair that survives the controller's cleanup of a pod that names it is held by a live pod. */
  lemma SurvivesController(cl: Store, pod: Pod, at: Key, strict: bool)
    requires at in cl.shared && at.0 == pod.namespace != OPERATION_NAMESPACE && at.1 in Listed(pod, SHARED_KEY)
    requires OrderlyPods(cl.pods)
    requires CleanedAll(cl, ControllerRefs(pod), pod.namespace).shared == cl.shared
    requires PairExists(CleanedAll(cl, ControllerRefs(pod), pod.namespace), at, strict)
    ensures HeldByStoredPod(cl, at)
  {
    var refs, reference := ControllerRefs(pod), cl.shared[at].referenceValue;
    var ref := ControllerRef(pod.namespace, at.1);
    CleanedAllExactly(cl, refs, pod.namespace, reference);
    var listed := Listed(pod, SHARED_KEY);
    var i :| 0 <= i < |listed| && listed[i] == at.1;
    assert refs[i] == ref;
    assert Carries(ControllerSpec(cl, ref), reference);
    assert !SweptBy(cl, ref, reference);
    var other :| other in cl.pods && Uses(cl.pods[other], ref);
    UsesByName(cl.pods[other], ref);
    assert OrderlyPod(other, cl.pods[other]);
    LivePodHolds(cl, other, at);
  }

  /** A pod that leaves, or lingers without finalizers. */
  lemma OthersStay(cl: Store, key: Key, finalizers: seq<string>, lingers: bool)
    requires OrderlyPods(cl.pods) && key in cl.pods && cl.pods[key].terminating && POD_FINALIZER !in finalizers
    ensures var b := WithFinalizers(cl, key, finalizers, lingers);
      && OrderlyPods(b.pods) && b == cl.(pods := b.pods)
      && (forall k, at :: (k in b.pods && Holds(k, b.pods[k], at)) <==>
            (k != key && k in cl.pods && Holds(k, cl.pods[k], at)))
  {
    var b := WithFinalizers(cl, key, finalizers, lingers);
    forall k | k in b.pods
      ensures OrderlyPod(k, b.pods[k])
    {
      assert OrderlyPod(k, cl.pods[k]);
    }
  }

  lemma ReconciledIsTidy(cl: Store, key: Key, lingers: bool, strict: bool)
    requires Tidy(cl, strict) && key in cl.pods && cl.pods[key].terminating
    ensures Tidy(Reconciled(cl, key, lingers), strict)
  {
    var pod := cl.pods[key];
    var left := WithFinalizers(cl, key, [], lingers);
    var out := Reconciled(cl, key, lingers);
    assert OrderlyPod(key, pod);
    OthersStay(cl, key, [], lingers);
    CleanedAllExactly(left, ControllerRefs(pod), pod.namespace, "");
    forall at | at in out.shared && PairExists(out, at, strict)
      ensures HeldByStoredPod(out, at)
    {
      assert PairExists(cl, at, strict);
      var k :| k in cl.pods && Holds(k, cl.pods[k], at);
      if k == key {
        SurvivesController(left, pod, at, strict);
        var o :| o in left.pods && Holds(o, left.pods[o], at);
        assert o in out.pods && Holds(o, out.pods[o], at);
      } else {
        assert k in out.pods && Holds(k, out.pods[k], at);
      }
    }
  }

  /** A listed volume is among the references of the pod, and is found by its own name. */
  lemma ListedRef(cl: Store, pod: Pod, at: Key)
    requires at in cl.shared && at.0 == pod.namespace && at.1 in Listed(pod, SHARED_KEY)
    ensures WebhookRef(at.0, at.1, false) in WebhookRefs(pod)
    ensures Carries(WebhookSpec(cl, WebhookRef(at.0, at.1, false)), cl.shared[at].referenceValue)
  {
    var listed := Listed(pod, SHARED_KEY);
    var i :| 0 <= i < |listed| && listed[i] == at.1;
    assert WebhookRefs(pod)[i] == WebhookRef(at.0, at.1, false);
  }

  /** Another live pod that names the volume holds it. */
  lemma OtherPodHolds(cl: Store, key: Key, at: Key)
    requires OrderlyPods(cl.pods) && key in cl.pods
    requires NamedByOtherPod(cl, WebhookRef(at.0, at.1, false), cl.pods[key])
    ensures exists o :: o != key && o in cl.pods && Holds(o, cl.pods[o], at)
  {
    var pod, r := cl.pods[key], WebhookRef(at.0, at.1, false);
    var o :| o in cl.pods && !IsPod(cl.pods[o], pod) && !cl.pods[o].terminating && NamedBy(cl.pods[o], r);
    assert OrderlyPod(o, cl.pods[o]);
    NamedByName(cl.pods[o], r);
    assert Holds(o, cl.pods[o], at);
  }

  /** The last pod that holds a volume leaves through the webhook. */
  ghost predicate LastHolderExits(cl: Store, key: Key, at: Key) {
    && ExitEnabled(cl, key) && at in cl.shared && Holds(key, cl.pods[key], at)
    && forall k :: k in cl.pods && k != key ==> !Holds(k, cl.pods[k], at)
  }

  /** The claim or the persistent volume of the pair has finalizers. */
  ghost predicate PairHasFinalizers(cl: Store, at: Key)
    requires at in cl.shared
  {
    var name := Joined(cl.shared[at].referenceValue, at.0);
    Left(cl.claims, (at.0, name)) || Left(cl.volumes, name)
  }

  /** The webhook deletes what has finalizers, for the last pod that holds it. */
  ghost predicate LeavesBehind(cl: Store, step: Step) {
    step.WebhookExit? && exists at :: LastHolderExits(cl, step.key, at) && PairHasFinalizers(cl, at)
  }

  /** The pair of a volume that only the leaving pod holds is swept. */
  lemma LastPairIsSwept(cl: Store, key: Key, at: Key)
    requires OrderlyPods(cl.pods) && LastHolderExits(cl, key, at)
    ensures SweptByExit(cl, WebhookRefs(cl.pods[key]), cl.pods[key], cl.shared[at].referenceValue)
  {
    var pod, r := cl.pods[key], WebhookRef(at.0, at.1, false);
    assert OrderlyPod(key, pod);
    ListedRef(cl, pod, at);
    if NamedByOtherPod(cl, r, pod) {
      OtherPodHolds(cl, key, at);
    }
    assert SweptByWebhook(cl, r, pod, cl.shared[at].referenceValue);
  }

  lemma ExitedPods(cl: Store, key: Key, lingers: bool)
    requires OrderlyPods(cl.pods) && ExitEnabled(cl, key)
    ensures
      var cleaned := CleanedAllByWebhook(cl, WebhookRefs(cl.pods[key]), cl.pods[key]);
      var out := Exited(cl, key, lingers);
      && OrderlyPods(out.pods) && out == cleaned.(pods := out.pods)
      && out.shared == cl.shared && out.cluster == cl.cluster
      && (forall k, at :: (k in out.pods && Holds(k, out.pods[k], at)) <==>
            (k != key && k in cl.pods && Holds(k, cl.pods[k], at)))
  {
    var cleaned := CleanedAllByWebhook(cl, WebhookRefs(cl.pods[key]), cl.pods[key]);
    ExitSweepsExactly(cl, WebhookRefs(cl.pods[key]), cl.pods[key], "");
    FinalizerRemoval.RemovedKeepsOthers(cl.pods[key].finalizers, POD_FINALIZER);
    OthersStay(cleaned, key, FinalizerRemoval.Removed(cl.pods[key].finalizers, POD_FINALIZER), lingers);
  }

  /** The pair of a volume that nobody else holds is there after an exit exactly if it has finalizers. */
  lemma ExitedPairIff(cl: Store, key: Key, lingers: bool, at: Key)
    requires OrderlyPods(cl.pods) && LastHolderExits(cl, key, at)
    ensures var out := Exited(cl, key, lingers);
      && out.shared == cl.shared && !PairExists(out, at, false)
      && (PairExists(out, at, true) <==> PairHasFinalizers(cl, at))
  {
    ExitedPods(cl, key, lingers);
    LastPairIsSwept(cl, key, at);
    assert OrderlyPod(key, cl.pods[key]);
    ExitSweepsExactly(cl, WebhookRefs(cl.pods[key]), cl.pods[key], cl.shared[at].referenceValue);
  }

  lemma ExitedPairIsOlder(cl: Store, key: Key, lingers: bool, at: Key, strict: bool)
    requires OrderlyPods(cl.pods) && ExitEnabled(cl, key) && at in cl.shared
    requires Exited(cl, key, lingers).shared == cl.shared && PairExists(Exited(cl, key, lingers), at, strict)
    ensures PairExists(cl, at, strict)
  {
    ExitSweepsExactly(cl, WebhookRefs(cl.pods[key]), cl.pods[key], "");
    ExitedPods(cl, key, lingers);
  }

  lemma ExitedIsTidy(cl: Store, key: Key, lingers: bool, strict: bool)
    requires Tidy(cl, strict) && ExitEnabled(cl, key)
    requires strict ==> !LeavesBehind(cl, WebhookExit(key, lingers))
    ensures Tidy(Exited(cl, key, lingers), strict)
  {
    var out := Exited(cl, key, lingers);
    ExitedPods(cl, key, lingers);
    forall at | at in out.shared && PairExists(out, at, strict)
      ensures HeldByStoredPod(out, at)
    {
      ExitedPairIsOlder(cl, key, lingers, at, strict);
      assert HeldByStoredPod(cl, at);
      if LastHolderExits(cl, key, at) {
        ExitedPairIff(cl, key, lingers, at);
      } else {
        var o :| o in cl.pods && o != key && Holds(o, cl.pods[o], at);
        assert o in out.pods && Holds(o, out.pods[o], at);
      }
    }
  }

  lemma LeftBehindIsNotTidy(cl: Store, step: Step)
    requires Tidy(cl, true) && Enabled(cl, step) && LeavesBehind(cl, step)
    ensures !Tidy(Next(cl, step), true)
  {
    var at :| LastHolderExits(cl, step.key, at) && PairHasFinalizers(cl, at);
    ExitedPods(cl, step.key, step.lingers);
    ExitedPairIff(cl, step.key, step.lingers, at);
    var out := Exited(cl, step.key, step.lingers);
    assert at in out.shared && PairExists(out, at, true) && !HeldByStoredPod(out, at);
  }

  // ---------- the other steps ----------

  /** Steps that make nothing present and remove no pod that has the cleanup finalizer. */
  lemma ShrinkIsTidy(a: Store, b: Store, strict: bool)
    requires Tidy(a, strict) && b.shared == a.shared && b.cluster == a.cluster
    requires Fades(a.claims, b.claims) && Fades(a.volumes, b.volumes)
    requires forall k :: k in b.pods ==> k in a.pods && b.pods[k] in {a.pods[k], a.pods[k].(terminating := true)}
    requires forall k :: k in a.pods && k !in b.pods ==> POD_FINALIZER !in a.pods[k].finalizers
    ensures Tidy(b, strict)
  {
    forall at | at in b.shared && PairExists(b, at, strict)
      ensures HeldByStoredPod(b, at)
    {
      assert PairExists(a, at, strict);
      var k :| k in a.pods && Holds(k, a.pods[k], at);
      assert k in b.pods && Holds(k, b.pods[k], at);
    }
    forall k | k in b.pods
      ensures OrderlyPod(k, b.pods[k])
    {
      assert OrderlyPod(k, a.pods[k]);
      assert Listed(b.pods[k], SHARED_KEY) == Listed(a.pods[k], SHARED_KEY);
    }
  }

  lemma NewVolumeIsTidy(a: Store, b: Store, at: Option<Key>, strict: bool)
    requires Tidy(a, strict) && ReferencesDistinct(b.shared, b.cluster) && GeneratedReferences(b.shared, b.cluster)
    requires b.pods == a.pods && b.claims == a.claims && b.volumes == a.volumes
    requires forall k :: k in b.shared ==> at == Some(k) || (k in a.shared && b.shared[k] == a.shared[k])
    requires at.Some? && at.value in b.shared ==> Fresh(a, b.shared[at.value].referenceValue)
    ensures Tidy(b, strict)
  {
    forall k | k in b.shared && PairExists(b, k, strict)
      ensures HeldByStoredPod(b, k)
    {
      if at != Some(k) {
        assert PairExists(a, k, strict);
        var p :| p in a.pods && Holds(p, a.pods[p], k);
        assert p in b.pods && Holds(p, b.pods[p], k);
      }
    }
  }

  lemma CleanedByControllerIsTidy(cl: Store, ref: ControllerRef, namespace: string, claim: Deletion, volume: Deletion,
                                  strict: bool)
    requires Tidy(cl, strict)
    ensures Tidy(CleanedByController(cl, ref, namespace, claim, volume), strict)
  {
    assert CleanedByController(cl, ref, namespace, claim, volume).pods == cl.pods;
    ShrinkIsTidy(cl, CleanedByController(cl, ref, namespace, claim, volume), strict);
  }

  lemma CleanedByWebhookIsTidy(cl: Store, ref: WebhookRef, deleting: Pod, claimFails: bool, volumeFails: bool,
                               strict: bool)
    requires Tidy(cl, strict)
    ensures Tidy(CleanedByWebhook(cl, ref, deleting, claimFails, volumeFails), strict)
  {
    WebhookFades(cl, ref, deleting, claimFails, volumeFails);
    ShrinkIsTidy(cl, CleanedByWebhook(cl, ref, deleting, claimFails, volumeFails), strict);
  }

  lemma CreatedAreTidy(cl: Store, at: Key, name: string, spec: VolumeSpec, strict: bool)
    requires Tidy(cl, strict) && Fresh(cl, spec.referenceValue)
    ensures at !in cl.shared ==> Tidy(cl.(shared := cl.shared[at := spec]), strict)
    ensures name !in cl.cluster ==> Tidy(cl.(cluster := cl.cluster[name := spec]), strict)
  {
    if at !in cl.shared {
      NewVolumeIsTidy(cl, cl.(shared := cl.shared[at := spec]), Some(at), strict);
    }
    if name !in cl.cluster {
      NewVolumeIsTidy(cl, cl.(cluster := cl.cluster[name := spec]), None, strict);
    }
  }

  lemma MarkedIsTidy(cl: Store, key: Key, strict: bool)
    requires Tidy(cl, strict) && key in cl.pods
    ensures Tidy(cl.(pods := cl.pods[key := cl.pods[key].(terminating := true)]), strict)
  {
    ShrinkIsTidy(cl, cl.(pods := cl.pods[key := cl.pods[key].(terminating := true)]), strict);
  }

  lemma HeldIsTidy(cl: Store, at: Key, name: string, held: bool, strict: bool)
    requires Tidy(cl, strict)
    ensures Tidy(cl.(claims := Held(cl.claims, at, held)), strict)
    ensures Tidy(cl.(volumes := Held(cl.volumes, name, held)), strict)
  {
    ShrinkIsTidy(cl, cl.(claims := Held(cl.claims, at, held)), strict);
    ShrinkIsTidy(cl, cl.(volumes := Held(cl.volumes, name, held)), strict);
  }

  lemma VanishedIsTidy(cl: Store, key: Key, strict: bool)
    requires Tidy(cl, strict) && key in cl.pods && POD_FINALIZER !in cl.pods[key].finalizers
    ensures Tidy(cl.(pods := cl.pods - {key}), strict)
  {
    ShrinkIsTidy(cl, cl.(pods := cl.pods - {key}), strict);
  }

  lemma PodStepIsTidy(cl: Store, step: Step, strict: bool)
    requires Tidy(cl, strict) && Orderly(cl, step) && Enabled(cl, step) && (strict ==> !LeavesBehind(cl, step))
    requires step.Admit? || step.MarkTerminating? || step.Vanish? || step.Reconcile? || step.WebhookExit?
    ensures Tidy(Next(cl, step), strict)
  {
    match step
    case Admit(pod, isUpdate) => AdmittedIsTidy(cl, pod, isUpdate, strict);
    case MarkTerminating(key) => MarkedIsTidy(cl, key, strict);
    case Vanish(key) => VanishedIsTidy(cl, key, strict);
    case Reconcile(key, lingers) => ReconciledIsTidy(cl, key, lingers, strict);
    case WebhookExit(key, lingers) => ExitedIsTidy(cl, key, lingers, strict);
  }

  lemma ObjectStepIsTidy(cl: Store, step: Step, strict: bool)
    requires Tidy(cl, strict) && Enabled(cl, step)
    requires step.HoldClaim? || step.HoldVolume? || step.CreateShared? || step.CreateCluster?
    ensures Tidy(Next(cl, step), strict)
  {
    match step
    case HoldClaim(at, held) => HeldIsTidy(cl, at, "", held, strict);
    case HoldVolume(name, held) => HeldIsTidy(cl, ("", ""), name, held, strict);
    case CreateShared(at, spec) => CreatedAreTidy(cl, at, "", spec, strict);
    case CreateCluster(name, spec) => CreatedAreTidy(cl, ("", ""), name, spec, strict);
  }

  lemma StepIsTidy(cl: Store, step: Step, strict: bool)
    requires Tidy(cl, strict) && Orderly(cl, step) && (strict && Enabled(cl, step) ==> !LeavesBehind(cl, step))
    ensures Tidy(Next(cl, step), strict)
  {
    if Enabled(cl, step) {
      match step
      case ControllerCleanup(ref, namespace, claim, volume) =>
        CleanedByControllerIsTidy(cl, ref, namespace, claim, volume, strict);
      case WebhookCleanup(key, ref, claimFails, volumeFails) =>
        CleanedByWebhookIsTidy(cl, ref, cl.pods[key], claimFails, volumeFails, strict);
      case HoldClaim(_, _) => ObjectStepIsTidy(cl, step, strict);
      case HoldVolume(_, _) => ObjectStepIsTidy(cl, step, strict);
      case CreateShared(_, _) => ObjectStepIsTidy(cl, step, strict);
      case CreateCluster(_, _) => ObjectStepIsTidy(cl, step, strict);
      case _ => PodStepIsTidy(cl, step, strict);
    }
  }

  /**
   No leak over all orderly runs, whichever way pods leave: a claim or volume of a namespaced volume
   that is not being deleted exists only while a stored pod holds it.
   */
  lemma {:induction false} NamespacedPairsDoNotLeak(steps: seq<Step>)
    requires OrderlyRun(steps)
    ensures Tidy(Run(steps), false)
  {
    if steps != [] {
      var front := steps[..|steps| - 1];
      assert OrderlyRun(front) by {
        forall i | 0 <= i < |front|
          ensures Orderly(Run(front[..i]), front[i])
        {
          assert front[..i] == steps[..i];
          assert Orderly(Run(steps[..i]), steps[i]);
        }
      }
      NamespacedPairsDoNotLeak(front);
      assert Orderly(Run(steps[..|steps| - 1]), steps[|steps| - 1]);
      StepIsTidy(Run(front), steps[|steps| - 1], false);
    }
  }

  // ---------- exactly when nothing at all is left ----------

  ghost predicate TidyAt(steps: seq<Step>, i: nat)
    requires i <= |steps|
  {
    Tidy(Run(steps[..i]), true)
  }

  ghost predicate LeavesBehindAt(steps: seq<Step>, i: nat)
    requires i < |steps|
  {
    Enabled(Run(steps[..i]), steps[i]) && LeavesBehind(Run(steps[..i]), steps[i])
  }

  lemma NextIsTidyIff(steps: seq<Step>, i: nat)
    requires OrderlyRun(steps) && i < |steps| && TidyAt(steps, i)
    ensures TidyAt(steps, i + 1) <==> !LeavesBehindAt(steps, i)
  {
    var cl := Run(steps[..i]);
    assert steps[..i + 1][..i] == steps[..i];
    assert Orderly(cl, steps[i]);
    if LeavesBehindAt(steps, i) {
      LeftBehindIsNotTidy(cl, steps[i]);
    } else {
      StepIsTidy(cl, steps[i], true);
    }
  }

  lemma {:induction false} TidyUpTo(steps: seq<Step>, i: nat)
    requires OrderlyRun(steps) && i <= |steps| && forall j :: 0 <= j < i ==> !LeavesBehindAt(steps, j)
    ensures TidyAt(steps, i)
  {
    if i > 0 {
      TidyUpTo(steps, i - 1);
      NextIsTidyIff(steps, i - 1);
    }
  }

  /**
   In an orderly run a claim or volume of a namespaced volume, being deleted or not, is stored only
   while a stored pod holds it, throughout, exactly when the webhook never lets the last pod that
   holds a volume go whose claim or persistent volume has finalizers.
   */
  lemma NothingIsLeftIff(steps: seq<Step>)
    requires OrderlyRun(steps)
    ensures (forall i :: 0 <= i <= |steps| ==> TidyAt(steps, i)) <==>
      (forall i :: 0 <= i < |steps| ==> !LeavesBehindAt(steps, i))
  {
    if forall i :: 0 <= i <= |steps| ==> TidyAt(steps, i) {
      forall i | 0 <= i < |steps|
        ensures !LeavesBehindAt(steps, i)
      {
        assert TidyAt(steps, i) && TidyAt(steps, i + 1);
        NextIsTidyIff(steps, i);
      }
    } else if forall i :: 0 <= i < |steps| ==> !LeavesBehindAt(steps, i) {
      forall i | 0 <= i <= |steps|
        ensures TidyAt(steps, i)
      {
        TidyUpTo(steps, i);
      }
    }
  }

  // ---------- stored pods have passed the path check ----------

  ghost predicate PodsPassed(cl: Store) {
    PodsKeyed(cl) && forall k :: k in cl.pods ==> PathsUnique(cl, WebhookRefs(cl.pods[k]))
  }

  ghost predicate KeepsSpecs(a: Store, b: Store) {
    && (forall at :: at in a.shared ==> at in b.shared && b.shared[at] == a.shared[at])
    && (forall n :: n in a.cluster ==> n in b.cluster && b.cluster[n] == a.cluster[n])
  }

  predicate SameNames(a: Pod, b: Pod) {
    KeyOfPod(b) == KeyOfPod(a) && b.annotations == a.annotations
  }

  /** Volumes stay as they are, and so do the names and annotations of the pods that stay. */
  ghost predicate KeepsRefs(a: Store, b: Store) {
    && KeepsSpecs(a, b)
    && (forall k :: k in b.pods ==> k in a.pods && SameNames(a.pods[k], b.pods[k]))
  }

  lemma PathsStand(a: Store, b: Store, refs: seq<WebhookRef>)
    requires KeepsSpecs(a, b) && PathsUnique(a, refs)
    ensures PathsUnique(b, refs)
  {
    assert forall j :: 0 <= j < |refs| ==> WebhookSpec(b, refs[j]) == WebhookSpec(a, refs[j]);
  }

  lemma RefsKept(a: Store, b: Store)
    requires PodsPassed(a) && KeepsRefs(a, b)
    ensures PodsPassed(b)
  {
    forall k | k in b.pods
      ensures PathsUnique(b, WebhookRefs(b.pods[k]))
    {
      assert SameNames(a.pods[k], b.pods[k]);
      PathsStand(a, b, WebhookRefs(a.pods[k]));
    }
  }

  lemma StoredPodPassed(cl: Store, c: Store, pod: Pod, stored: Pod)
    requires PodsPassed(cl) && SameBesideObjects(cl, c) && PathsUnique(cl, WebhookRefs(pod))
    requires SameNames(pod, stored)
    ensures PodsPassed(c.(pods := c.pods[KeyOfPod(pod) := stored]))
  {
    var all := c.(pods := c.pods[KeyOfPod(pod) := stored]);
    forall k | k in all.pods
      ensures PathsUnique(all, WebhookRefs(all.pods[k]))
    {
      if k == KeyOfPod(pod) {
        assert WebhookRefs(stored) == WebhookRefs(pod);
      }
      PathsStand(cl, all, WebhookRefs(all.pods[k]));
    }
  }

  /** A pod that is admitted has passed the path check, now or when it was stored first. */
  lemma AllowedPassed(cl: Store, pod: Pod, isUpdate: bool)
    requires PodsPassed(cl) && Enabled(cl, Admit(pod, isUpdate))
    requires Handled(cl, pod, isUpdate).1.AllowedAsIs? || Handled(cl, pod, isUpdate).1.Patched?
    ensures PathsUnique(cl, WebhookRefs(pod))
  {
    if isUpdate {
      assert WebhookRefs(pod) == WebhookRefs(cl.pods[KeyOfPod(pod)]);
    }
  }

  lemma HandledKeepsRefs(cl: Store, pod: Pod, isUpdate: bool)
    ensures var (c, response) := Handled(cl, pod, isUpdate);
      SameBesideObjects(cl, c) && KeepsRefs(cl, c) && (response.Patched? ==> SameNames(pod, response.pod))
  {
    HandledAddsOnlyNamed(cl, pod, isUpdate);
    if Handled(cl, pod, isUpdate).1.Patched? {
      PatchedKeepsNames(cl, pod, isUpdate);
    }
  }

  lemma AdmittedPassed(cl: Store, pod: Pod, isUpdate: bool)
    requires PodsPassed(cl) && Enabled(cl, Admit(pod, isUpdate))
    ensures PodsPassed(Admitted(cl, pod, isUpdate))
  {
    var (c, response) := Handled(cl, pod, isUpdate);
    HandledKeepsRefs(cl, pod, isUpdate);
    if response.Denied? || response.Errored? {
      RefsKept(cl, c);
    } else {
      AllowedPassed(cl, pod, isUpdate);
      StoredPodPassed(cl, c, pod, if response.Patched? then response.pod else pod);
    }
  }

  lemma WithFinalizersKeepsRefs(cl: Store, key: Key, finalizers: seq<string>, lingers: bool)
    requires key in cl.pods
    ensures KeepsRefs(cl, WithFinalizers(cl, key, finalizers, lingers))
  {
  }

  lemma ReconciledKeepsRefs(cl: Store, key: Key, lingers: bool)
    requires key in cl.pods
    ensures KeepsRefs(cl, Reconciled(cl, key, lingers))
  {
    WithFinalizersKeepsRefs(cl, key, [], lingers);
    CleanedAllExactly(WithFinalizers(cl, key, [], lingers), ControllerRefs(cl.pods[key]), cl.pods[key].namespace, "");
  }

  lemma ExitedKeepsRefs(cl: Store, key: Key, lingers: bool)
    requires key in cl.pods
    ensures KeepsRefs(cl, Exited(cl, key, lingers))
  {
    var refs, pod := WebhookRefs(cl.pods[key]), cl.pods[key];
    ExitSweepsExactly(cl, refs, pod, "");
    WithFinalizersKeepsRefs(CleanedAllByWebhook(cl, refs, pod), key,
                            FinalizerRemoval.Removed(pod.finalizers, POD_FINALIZER), lingers);
  }

  lemma PartlyAdmittedKeepsRefs(cl: Store, pod: Pod, n: nat, half: bool)
    requires n <= |WebhookRefs(pod)|
    ensures KeepsRefs(cl, PartlyProcessed(cl, pod, WebhookRefs(pod), n, half))
  {
    ProcessAllClaims(cl, pod, WebhookRefs(pod)[..n]);
  }

  lemma VolumeOrPodStepKeepsRefs(cl: Store, step: Step)
    requires Enabled(cl, step)
    requires step.MarkTerminating? || step.Vanish? || step.HoldClaim? || step.HoldVolume? || step.CreateShared? ||
      step.CreateCluster?
    ensures KeepsRefs(cl, Next(cl, step))
  {
  }

  lemma StepKeepsRefs(cl: Store, step: Step)
    requires Enabled(cl, step) && !step.Admit?
    ensures KeepsRefs(cl, Next(cl, step))
  {
    match step
    case AdmitPartly(pod, n, half) => PartlyAdmittedKeepsRefs(cl, pod, n, half);
    case Reconcile(key, lingers) => ReconciledKeepsRefs(cl, key, lingers);
    case WebhookExit(key, lingers) => ExitedKeepsRefs(cl, key, lingers);
    case ControllerCleanup(ref, namespace, claim, volume) =>
      assert SameBesideObjects(cl, CleanedByController(cl, ref, namespace, claim, volume));
    case WebhookCleanup(key, ref, claimFails, volumeFails) =>
      WebhookFades(cl, ref, cl.pods[key], claimFails, volumeFails);
    case _ => VolumeOrPodStepKeepsRefs(cl, step);
  }

  lemma StepPassed(cl: Store, step: Step)
    requires PodsPassed(cl)
    ensures PodsPassed(Next(cl, step))
  {
    if Enabled(cl, step) {
      if step.Admit? {
        AdmittedPassed(cl, step.pod, step.isUpdate);
      } else {
        StepKeepsRefs(cl, step);
        RefsKept(cl, Next(cl, step));
      }
    }
  }

  /** Over all runs, every stored pod names stored volumes with pairwise different mount paths. */
  lemma {:induction false} StoredPodsPassedPathCheck(steps: seq<Step>)
    ensures PodsPassed(Run(steps))
  {
    if steps != [] {
      StoredPodsPassedPathCheck(steps[..|steps| - 1]);
      StepPassed(Run(steps[..|steps| - 1]), steps[|steps| - 1]);
    }
  }

  // ---------- cluster volumes ----------

  lemma ClusterReferenceSwept(cl: Store, pod: Pod, name: string)
    requires ReferencesDistinct(cl.shared, cl.cluster) && name in Listed(pod, CLUSTER_KEY) && name in cl.cluster
    ensures Swept(cl, ControllerRefs(pod), cl.cluster[name].referenceValue) <==>
      !NamedByLivePod(cl, ControllerRef(OPERATION_NAMESPACE, name))
  {
    var refs, reference := ControllerRefs(pod), cl.cluster[name].referenceValue;
    var ref := ControllerRef(OPERATION_NAMESPACE, name);
    var listed := Listed(pod, CLUSTER_KEY);
    var i :| 0 <= i < |listed| && listed[i] == name;
    assert refs[|Listed(pod, SHARED_KEY)| + i] == ref;
    assert ControllerSpec(cl, ref) == Some(cl.cluster[name]);
    if r :| r in refs && SweptBy(cl, r, reference) {
      assert r == ref;
    }
    assert SweptBy(cl, ref, reference) <==> !NamedByLivePod(cl, ref);
  }

  /** A pod that is being deleted is no live user, stored or not. */
  lemma LiveUsersStay(cl: Store, key: Key, finalizers: seq<string>, lingers: bool, ref: ControllerRef)
    requires key in cl.pods && cl.pods[key].terminating
    ensures NamedByLivePod(WithFinalizers(cl, key, finalizers, lingers), ref) <==> NamedByLivePod(cl, ref)
  {
    var b := WithFinalizers(cl, key, finalizers, lingers);
    forall k | k in cl.pods && Uses(cl.pods[k], ref)
      ensures k in b.pods && Uses(b.pods[k], ref)
    {
    }
  }

  /**
   After the cleanup of a pod that names a cluster volume, the claim in its namespace remains exactly
   when a live pod in whatever namespace names the volume to the controller.
   */
  lemma ClusterClaimStaysIff(cl: Store, key: Key, lingers: bool, name: string)
    requires ReferencesDistinct(cl.shared, cl.cluster) && key in cl.pods && cl.pods[key].terminating
    requires name in Listed(cl.pods[key], CLUSTER_KEY) && name in cl.cluster
    ensures var pod := cl.pods[key];
      var claim := (pod.namespace, Joined(cl.cluster[name].referenceValue, pod.namespace));
      claim in Reconciled(cl, key, lingers).claims <==>
      claim in cl.claims && NamedByLivePod(cl, ControllerRef(OPERATION_NAMESPACE, name))
  {
    var pod, left := cl.pods[key], WithFinalizers(cl, key, [], lingers);
    CleanedAllExactly(left, ControllerRefs(pod), pod.namespace, cl.cluster[name].referenceValue);
    ClusterReferenceSwept(left, pod, name);
    LiveUsersStay(cl, key, [], lingers, ControllerRef(OPERATION_NAMESPACE, name));
  }

  /** So the last pod of a namespace leaves its claim behind while another namespace uses the volume. */
  lemma ClusterClaimLeaks(cl: Store, key: Key, lingers: bool, other: Key, name: string)
    requires Safe(cl) && key in cl.pods && cl.pods[key].terminating && name in cl.cluster
    requires forall k :: k in cl.pods && k.0 == key.0 ==> k == key
    requires name in Listed(cl.pods[key], CLUSTER_KEY)
    requires (key.0, Joined(cl.cluster[name].referenceValue, key.0)) in cl.claims
    requires other in cl.pods && !cl.pods[other].terminating && name in Listed(cl.pods[other], CLUSTER_KEY)
    ensures (key.0, Joined(cl.cluster[name].referenceValue, key.0)) in Reconciled(cl, key, lingers).claims
    ensures forall k :: k in Reconciled(cl, key, lingers).pods && k.0 == key.0 ==> k == key && lingers
  {
    ClusterClaimStaysIff(cl, key, lingers, name);
    UsesByName(cl.pods[other], ControllerRef(OPERATION_NAMESPACE, name));
    assert Uses(cl.pods[other], ControllerRef(OPERATION_NAMESPACE, name));
    CleanedAllExactly(WithFinalizers(cl, key, [], lingers), ControllerRefs(cl.pods[key]), cl.pods[key].namespace, "");
  }
}
