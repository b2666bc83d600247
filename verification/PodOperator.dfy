/**
 The admission webhook and the pod cleanup controller, call by call. Unless the operator is quiet, any
 call to the API server may fail without being applied, and a forced deletion may leave its object
 behind. A pod that loses its last finalizer is gone, or lingers until its grace period ends.
 */
module PodOperator {
  import opened Common
  import opened VolumeTypes
  import opened PodAnnotations
  import opened PodMutation
  import opened PodProtocol
  import opened PodAdmission
  import FinalizerRemoval

  /** A reference that fails stops the processing there. */
  lemma {:induction false} ProcessStops(cl: Store, pod: Pod, refs: seq<WebhookRef>, i: nat)
    requires i < |refs| && !ProcessAll(cl, pod, refs[..i + 1]).2
    ensures ProcessAll(cl, pod, refs) == ProcessAll(cl, pod, refs[..i + 1])
    decreases |refs|
  {
    if i + 1 == |refs| {
      assert refs[..i + 1] == refs;
    } else {
      var front := refs[..|refs| - 1];
      assert front[..i + 1] == refs[..i + 1];
      ProcessStops(cl, pod, front, i);
    }
  }

  /** How far a failed admission got: n references, and perhaps the volume of the next. */
  datatype Progress = Progress(n: nat, half: bool)

  /** How far a cleanup by the webhook got that failed: n volumes, and perhaps the claim of the next. */
  ghost function PartlyCleaned(cl: Store, refs: seq<WebhookRef>, deleting: Pod, n: nat, half: bool): Store
    requires n <= |refs|
  {
    var c := CleanedAllByWebhook(cl, refs[..n], deleting);
    if half && n < |refs| then CleanedByWebhook(c, refs[n], deleting, false, true) else c
  }

  lemma {:induction false} SameVolumesAfterCleanup(cl: Store, refs: seq<WebhookRef>, pod: Pod)
    ensures var c := CleanedAllByWebhook(cl, refs, pod); c.shared == cl.shared && c.cluster == cl.cluster
  {
    if refs != [] {
      SameVolumesAfterCleanup(cl, refs[..|refs| - 1], pod);
    }
  }

  lemma CleanedByWebhookStep(cl: Store, front: seq<WebhookRef>, last: WebhookRef, pod: Pod)
    ensures CleanedAllByWebhook(cl, front + [last], pod) ==
      CleanedByWebhook(CleanedAllByWebhook(cl, front, pod), last, pod, false, false)
  {
    assert (front + [last])[..|front|] == front;
  }

  /** Creating claims and volumes harms no pod that is stored. */
  lemma HandledIsSafe(cl: Store, pod: Pod, isUpdate: bool)
    requires Safe(cl)
    ensures Safe(Handled(cl, pod, isUpdate).0)
  {
    ProcessAllClaims(cl, pod, WebhookRefs(pod));
    SafeInExtension(cl, ProcessAll(cl, pod, WebhookRefs(pod)).0);
  }

  class Operator {
    /** No call fails, and every forced deletion takes its object away. */
    const quiet: bool
    /** What the API server stores. */
    var store: Store

    constructor (quiet: bool)
      ensures store == EMPTY && this.quiet == quiet
    {
      this.quiet, store := quiet, EMPTY;
    }

    // ---------- single calls ----------

    method Fails() returns (failed: bool)
      ensures quiet ==> !failed
    {
      failed := *;
      failed := failed && !quiet;
    }

    method GetForWebhook(ref: WebhookRef) returns (a: Answer<VolumeSpec>)
      ensures a.Found? ==> WebhookSpec(store, ref) == Some(a.value)
      ensures a.NotFound? ==> WebhookSpec(store, ref) == None
      ensures quiet ==> !a.Failed?
    {
      var failed := Fails();
      if failed {
        return Failed;
      }
      if ref.isCluster {
        return if ref.name in store.cluster then Found(store.cluster[ref.name]) else NotFound;
      }
      var key := (ref.namespace, ref.name);
      return if key in store.shared then Found(store.shared[key]) else NotFound;
    }

    method ListPods() returns (list: Option<seq<Pod>>)
      ensures list.Some? ==> forall p :: p in list.value <==> exists k :: k in store.pods && store.pods[k] == p
      ensures quiet ==> list.Some?
    {
      var failed := Fails();
      if failed {
        return None;
      }
      var found: seq<Pod> := [];
      var rest := store.pods.Keys;
      while rest != {}
        invariant rest <= store.pods.Keys
        invariant forall p :: p in found <==> exists k :: k in store.pods.Keys - rest && store.pods[k] == p
        decreases rest
      {
        var k :| k in rest;
        ghost var before := found;
        found := found + [store.pods[k]];
        rest := rest - {k};
        forall p
          ensures p in found <==> exists j :: j in store.pods.Keys - rest && store.pods[j] == p
        {
          if p == store.pods[k] {
            assert k in store.pods.Keys - rest;
          } else if p in before {
            var j :| j in store.pods.Keys - (rest + {k}) && store.pods[j] == p;
            assert j in store.pods.Keys - rest;
          }
        }
      }
      return Some(found);
    }

    /** How far a forced deletion gets depends on failures and on those who put finalizers back. */
    method DeleteClaim(key: Key) returns (d: Deletion)
      modifies this`store
      ensures store == old(store).(claims := Deleted(old(store).claims, key, d)) && (quiet ==> d == Gone)
    {
      d := *;
      if quiet {
        d := Gone;
      }
      store := store.(claims := Deleted(store.claims, key, d));
    }

    method DeleteVolume(name: string) returns (d: Deletion)
      modifies this`store
      ensures store == old(store).(volumes := Deleted(old(store).volumes, name, d)) && (quiet ==> d == Gone)
    {
      d := *;
      if quiet {
        d := Gone;
      }
      store := store.(volumes := Deleted(store.volumes, name, d));
    }

    // ---------- admission ----------

    method EnsurePersistentVolume(spec: VolumeSpec, namespace: string) returns (ok: bool)
      modifies this`store
      ensures (store, ok) == EnsureVolume(old(store), spec, namespace) || (!ok && store == old(store))
      ensures quiet ==> (store, ok) == EnsureVolume(old(store), spec, namespace)
    {
      var name := Joined(spec.referenceValue, namespace);
      var failed := Fails();
      if failed {
        return false;
      }
      if name in store.volumes {
        return true;
      }
      if spec.storage.None? {
        return false;
      }
      if spec.nfsServer.None? {
        return false;
      }
      failed := Fails();
      if failed {
        return false;
      }
      store := store.(volumes := store.volumes[name := Live(false)]);
      return true;
    }

    method EnsurePersistentVolumeClaim(spec: VolumeSpec, namespace: string) returns (ok: bool)
      modifies this`store
      ensures (store, ok) == EnsureClaim(old(store), spec, namespace) || (!ok && store == old(store))
      ensures quiet ==> (store, ok) == EnsureClaim(old(store), spec, namespace)
    {
      var key := (namespace, Joined(spec.referenceValue, namespace));
      var failed := Fails();
      if failed {
        return false;
      }
      if key in store.claims {
        if store.claims[key].Terminating? {
          return false;
        }
        return true;
      }
      if spec.storage.None? {
        return false;
      }
      failed := Fails();
      if failed {
        return false;
      }
      store := store.(claims := store.claims[key := Live(false)]);
      return true;
    }

    /** A failure leaves nothing done, or the volume created and its claim not. */
    method ProcessSharedVolume(o: PodObject, ref: WebhookRef) returns (ok: bool)
      modifies this`store, o
      ensures ok ==> (store, o.pod, true) == Process(old(store), old(o.pod), ref)
      ensures !ok ==> o.pod == old(o.pod) && store in {old(store), HalfProcessed(old(store), old(o.pod).namespace, ref)}
      ensures quiet ==> (store, o.pod, ok) == Process(old(store), old(o.pod), ref)
    {
      var answer := GetForWebhook(ref);
      if !answer.Found? {
        return false;
      }
      var spec := answer.value;
      ok := EnsurePersistentVolume(spec, o.pod.namespace);
      if !ok {
        return false;
      }
      ok := EnsurePersistentVolumeClaim(spec, o.pod.namespace);
      if !ok {
        return false;
      }
      var readOnly := false;
      if spec.storage.Some? {
        readOnly := spec.storage.value.accessMode == "ReadOnly";
      }
      o.AddVolumeToPod(VolumeUse(spec.referenceValue, spec.mountPath, readOnly));
      return true;
    }

    /** Groups the references by mount path, then looks for a path with more than one. */
    method ValidateUniqueMountPaths(refs: seq<WebhookRef>) returns (ok: bool)
      ensures ok ==> PathsUnique(store, refs)
      ensures quiet ==> (ok <==> PathsUnique(store, refs))
    {
      var mountPaths: map<string, seq<nat>> := map[];
      for i := 0 to |refs|
        invariant forall j :: 0 <= j < i ==> WebhookSpec(store, refs[j]).Some?
        invariant AllGrouped(store, refs[..i], mountPaths)
      {
        var answer := GetForWebhook(refs[i]);
        if !answer.Found? {
          return false;
        }
        var path := answer.value.mountPath;
        GroupGrows(store, refs[..i], refs[i], mountPaths);
        assert refs[..i + 1] == refs[..i] + [refs[i]];
        mountPaths := mountPaths[path := (if path in mountPaths then mountPaths[path] else []) + [i]];
      }
      assert refs[..|refs|] == refs;
      var duplicates := CountDuplicates(mountPaths);
      GroupsTellDuplicates(store, refs, mountPaths);
      return duplicates == 0;
    }

    method CountDuplicates(mountPaths: map<string, seq<nat>>) returns (duplicates: nat)
      ensures duplicates == 0 <==> forall p :: p in mountPaths ==> |mountPaths[p]| <= 1
    {
      duplicates := 0;
      var rest := mountPaths.Keys;
      while rest != {}
        invariant rest <= mountPaths.Keys
        invariant duplicates == 0 <==> forall p :: p in mountPaths.Keys - rest ==> |mountPaths[p]| <= 1
        decreases rest
      {
        var path :| path in rest;
        rest := rest - {path};
        if |mountPaths[path]| > 1 {
          duplicates := duplicates + 1;
        }
      }
    }

    /** One reference after the other; the first that fails ends it, and the progress says where. */
    method ProcessSharedVolumes(o: PodObject, refs: seq<WebhookRef>) returns (ok: bool, ghost progress: Progress)
      modifies this`store, o
      ensures ok ==> (store, o.pod, true) == ProcessAll(old(store), old(o.pod), refs)
      ensures progress.n <= |refs|
      ensures !ok ==> store == PartlyProcessed(old(store), old(o.pod), refs, progress.n, progress.half)
      ensures quiet ==> (store, o.pod, ok) == ProcessAll(old(store), old(o.pod), refs)
    {
      ghost var start, pod := store, o.pod;
      progress := Progress(0, false);
      for i := 0 to |refs|
        invariant (store, o.pod, true) == ProcessAll(start, pod, refs[..i])
        invariant o.pod.namespace == pod.namespace
      {
        assert refs[..i + 1] == refs[..i] + [refs[i]];
        ProcessAllStep(start, pod, refs[..i], refs[i]);
        ProcessClaims(store, o.pod, refs[i]);
        ghost var before := store;
        ok := ProcessSharedVolume(o, refs[i]);
        if !ok {
          progress := Progress(i, store != before);
          if quiet {
            ProcessStops(start, pod, refs, i);
          }
          return;
        }
      }
      assert refs[..|refs|] == refs;
      return true, progress;
    }

    /** Creation or update of a pod that is not being deleted. */
    method HandleLivePod(pod: Pod, isUpdate: bool) returns (response: Response, ghost progress: Progress)
      modifies this`store
      ensures progress.n <= |WebhookRefs(pod)|
      ensures (store, response) == Handled(old(store), pod, isUpdate) ||
        ((response.Denied? || response.Errored?)
         && store == PartlyProcessed(old(store), pod, WebhookRefs(pod), progress.n, progress.half))
      ensures quiet ==> (store, response) == Handled(old(store), pod, isUpdate)
    {
      progress := Progress(0, false);
      if isUpdate && POD_FINALIZER in pod.finalizers && |pod.volumes| > 0 {
        return AllowedAsIs, progress;
      }
      var refs := ExtractForWebhook(pod);
      if |refs| == 0 {
        return AllowedAsIs, progress;
      }
      var unique := ValidateUniqueMountPaths(refs);
      if !unique {
        assert refs[..0] == [];
        return Denied, progress;
      }
      var o := new PodObject(pod);
      var ok;
      ok, progress := ProcessSharedVolumes(o, refs);
      if !ok {
        return Errored, progress;
      }
      o.AddSharedVolumeFinalizer();
      return Patched(o.pod), progress;
    }

    // ---------- cleanup by the controller ----------

    /** A failed list, like any failure before the claim is gone, leaves the volume alone. */
    method CleanupPodSpecificResourcesByRef(ref: ControllerRef, spec: VolumeSpec, namespace: string)
      returns (ok: bool, ghost claim: Deletion, ghost volume: Deletion)
      modifies this`store
      ensures store == if NamedByLivePod(old(store), ref) then old(store)
                       else DeletePair(old(store), spec, namespace, claim, volume, claim.Gone?)
      ensures ok ==> NamedByLivePod(old(store), ref) || (claim.Gone? && volume.Gone?)
      ensures (namespace, Joined(spec.referenceValue, namespace)) in store.claims ==>
        store.volumes == old(store).volumes
      ensures quiet ==> claim == volume == Gone && ok
    {
      claim, volume := Gone, Gone;
      var name := Joined(spec.referenceValue, namespace);
      var list := ListPods();
      var stillInUse := IsVolumeStillInUseByRef(list, ref);
      if stillInUse.None? {
        return false, Untouched, Untouched;
      }
      assert stillInUse.value <==> NamedByLivePod(store, ref);
      if stillInUse.value {
        return true, claim, volume;
      }
      var d := DeleteClaim((namespace, name));
      claim := d;
      if !d.Gone? {
        return false, claim, volume;
      }
      d := DeleteVolume(name);
      volume := d;
      return d.Gone?, claim, volume;
    }

    /** A volume that is gone has no spec, and a failed read tells nothing. */
    method GetForController(ref: ControllerRef) returns (a: Answer<VolumeSpec>)
      ensures a.Found? ==> ControllerSpec(store, ref) == Some(a.value)
      ensures a.NotFound? ==> ControllerSpec(store, ref) == None
      ensures quiet ==> !a.Failed?
    {
      var failed := Fails();
      if failed {
        return Failed;
      }
      if ref.namespace == OPERATION_NAMESPACE {
        return if ref.name in store.cluster then Found(store.cluster[ref.name]) else NotFound;
      }
      var key := (ref.namespace, ref.name);
      return if key in store.shared then Found(store.shared[key]) else NotFound;
    }

    /** One reference of a terminating pod; a volume that is gone is skipped. */
    method CleanupReference(ref: ControllerRef, namespace: string) returns (ok: bool)
      modifies this`store
      ensures store.pods == old(store).pods
      ensures Safe(old(store)) ==> Safe(store)
      ensures quiet ==> ok && store == CleanedByController(old(store), ref, namespace, Gone, Gone)
    {
      var answer := GetForController(ref);
      match answer {
        case Failed => return false;
        case NotFound => return true;
        case Found(spec) =>
          ghost var before := store;
          ghost var claim, volume;
          ok, claim, volume := CleanupPodSpecificResourcesByRef(ref, spec, namespace);
          assert store == CleanedByController(before, ref, namespace, claim, volume);
          if Safe(before) {
            ControllerCleanupIsSafe(before, ref, namespace, claim, volume);
          }
      }
    }

    /** Where a cleanup that started from a given state stands after i references. */
    ghost predicate CleanedSoFar(start: Store, refs: seq<ControllerRef>, i: nat, namespace: string)
      requires i <= |refs|
      reads this
    {
      && store.pods == start.pods && (Safe(start) ==> Safe(store))
      && (quiet ==> store == CleanedAll(start, refs[..i], namespace))
    }

    method CleanupNextReference(refs: seq<ControllerRef>, i: nat, namespace: string, ghost start: Store)
      returns (ok: bool)
      requires i < |refs| && CleanedSoFar(start, refs, i, namespace)
      modifies this`store
      ensures ok ==> CleanedSoFar(start, refs, i + 1, namespace)
      ensures store.pods == start.pods && (Safe(start) ==> Safe(store))
      ensures quiet ==> ok
    {
      assert refs[..i + 1] == refs[..i] + [refs[i]];
      CleanedAllStep(start, refs[..i], refs[i], namespace);
      ok := CleanupReference(refs[i], namespace);
    }

    /** Keeps every live pod served whatever fails; without failures it is the complete cleanup. */
    method CleanupSharedVolumeResources(pod: Pod) returns (ok: bool)
      modifies this`store
      ensures store.pods == old(store).pods && (Safe(old(store)) ==> Safe(store))
      ensures quiet ==> ok && store == CleanedAll(old(store), ControllerRefs(pod), pod.namespace)
    {
      var refs := ExtractForController(pod);
      ghost var start := store;
      var i := 0;
      while i < |refs|
        invariant 0 <= i <= |refs| && CleanedSoFar(start, refs, i, pod.namespace)
      {
        ok := CleanupNextReference(refs, i, pod.namespace, start);
        if !ok {
          return false;
        }
        i := i + 1;
      }
      assert refs[..i] == refs;
      return true;
    }

    /** A terminating pod without finalizers disappears, at once or after its grace period. */
    method StoreFinalizers(key: Key, finalizers: seq<string>) returns (lingers: bool)
      requires key in store.pods
      modifies this`store
      ensures store == WithFinalizers(old(store), key, finalizers, lingers)
    {
      lingers := *;
      if finalizers == [] && store.pods[key].terminating && !lingers {
        store := store.(pods := store.pods - {key});
      } else {
        store := store.(pods := store.pods[key := store.pods[key].(finalizers := finalizers)]);
      }
    }

    /** The latest version loses the cleanup finalizer; a pod that is gone is an error. */
    method RemoveFinalizer(key: Key) returns (ok: bool, ghost lingers: bool)
      modifies this`store
      ensures ok ==> key in old(store).pods
      ensures store == if ok && POD_FINALIZER in old(store).pods[key].finalizers
        then Released(old(store), key, lingers) else old(store)
      ensures quiet ==> (ok <==> key in old(store).pods)
    {
      lingers := false;
      var failed := Fails();
      if failed || key !in store.pods {
        return false, lingers;
      }
      if POD_FINALIZER !in store.pods[key].finalizers {
        return true, lingers;
      }
      var finalizers := FinalizerRemoval.RemoveString(store.pods[key].finalizers, POD_FINALIZER);
      failed := Fails();
      if failed {
        return false, lingers;
      }
      var l := StoreFinalizers(key, finalizers);
      return true, l;
    }

    /** Strips a terminating pod of all its finalizers, so that it is not stuck. */
    method ForceDeletePod(key: Key) returns (ok: bool, ghost lingers: bool)
      requires key in store.pods && store.pods[key].terminating
      modifies this`store
      ensures store == if ok then WithFinalizers(old(store), key, [], lingers) else old(store)
      ensures quiet ==> ok
    {
      lingers := true;
      if |store.pods[key].finalizers| == 0 {
        assert store == WithFinalizers(store, key, [], true);
        return true, lingers;
      }
      var failed := Fails();
      if failed {
        return false, lingers;
      }
      var l := StoreFinalizers(key, []);
      return true, l;
    }

    /**
     A terminating pod: strip all its finalizers first, whether or not that works clean up what it
     named, then take the cleanup finalizer off. That last part fails for a pod that is gone by then:
     without any fault the reconcile has done everything, and it ends in success exactly if the pod
     lingers.
     */
    method ReconcileTerminating(key: Key) returns (ok: bool, ghost lingers: bool)
      requires key in store.pods && CleanupDue(store.pods[key])
      modifies this`store
      ensures Safe(old(store)) ==> Safe(store)
      ensures ok ==> key in store.pods ==> POD_FINALIZER !in store.pods[key].finalizers
      ensures quiet ==> store == Reconciled(old(store), key, lingers) && (ok <==> key in store.pods)
    {
      var pod := store.pods[key];
      ghost var start := store;
      ok, lingers := ForceDeletePod(key);
      if ok && Safe(start) {
        WithFinalizersIsSafe(start, key, [], lingers);
      }
      ok := CleanupSharedVolumeResources(pod);
      if !ok {
        return false, lingers;
      }
      ghost var cleaned := store;
      ghost var l;
      ok, l := RemoveFinalizer(key);
      if ok && POD_FINALIZER in cleaned.pods[key].finalizers {
        ghost var rest := FinalizerRemoval.Removed(cleaned.pods[key].finalizers, POD_FINALIZER);
        FinalizerRemoval.RemovedKeepsOthers(cleaned.pods[key].finalizers, POD_FINALIZER);
        if Safe(cleaned) {
          WithFinalizersIsSafe(cleaned, key, rest, l);
        }
      }
    }

    // ---------- cleanup by the webhook ----------

    /** A plain deletion; an object with finalizers is left terminating. */
    method DeletePVC(key: Key) returns (ok: bool)
      modifies this`store
      ensures store == old(store).(claims := Deleted(old(store).claims, key,
                                                     PlainDeletion(old(store).claims, key, !ok)))
      ensures quiet ==> ok
    {
      var failed := Fails();
      if failed {
        return false;
      }
      if key in store.claims {
        if HasFinalizers(store.claims[key]) {
          store := store.(claims := store.claims[key := Terminating]);
        } else {
          store := store.(claims := store.claims - {key});
        }
      }
      return true;
    }

    method DeletePV(name: string) returns (ok: bool)
      modifies this`store
      ensures store == old(store).(volumes := Deleted(old(store).volumes, name,
                                                      PlainDeletion(old(store).volumes, name, !ok)))
      ensures quiet ==> ok
    {
      var failed := Fails();
      if failed {
        return false;
      }
      if name in store.volumes {
        if HasFinalizers(store.volumes[name]) {
          store := store.(volumes := store.volumes[name := Terminating]);
        } else {
          store := store.(volumes := store.volumes - {name});
        }
      }
      return true;
    }

    /**
     Fails when the volume or the pods cannot be read, or a deletion call fails; then nothing has
     changed, or the claim is deleted and the volume is not.
     */
    method CleanupSharedVolumeIfUnused(ref: WebhookRef, deleting: Pod) returns (ok: bool, ghost half: bool)
      modifies this`store
      ensures ok ==> WebhookSpec(old(store), ref).Some?
      ensures store == if ok || half then CleanedByWebhook(old(store), ref, deleting, false, !ok) else old(store)
      ensures quiet ==> (ok <==> WebhookSpec(old(store), ref).Some?) && !half
    {
      half := false;
      var answer := GetForWebhook(ref);
      if !answer.Found? {
        return false, half;
      }
      var name := Joined(answer.value.referenceValue, deleting.namespace);
      var list := ListPods();
      var stillInUse := IsVolumeStillInUseByOtherPods(list, ref, deleting);
      if stillInUse.None? {
        return false, half;
      }
      assert stillInUse.value <==> NamedByOtherPod(store, ref, deleting);
      if stillInUse.value {
        return true, half;
      }
      ok := DeletePVC((deleting.namespace, name));
      if !ok {
        return false, half;
      }
      ok := DeletePV(name);
      return ok, !ok;
    }

    /** An update of the pod as the request has it: any other version, or none, is an error. */
    method RemovePodFinalizer(pod: Pod) returns (ok: bool, ghost lingers: bool)
      modifies this`store
      ensures ok ==> KeyOfPod(pod) in old(store).pods && old(store).pods[KeyOfPod(pod)] == pod
      ensures store == if ok then Released(old(store), KeyOfPod(pod), lingers) else old(store)
      ensures quiet && KeyOfPod(pod) in old(store).pods && old(store).pods[KeyOfPod(pod)] == pod ==> ok
    {
      lingers := false;
      var finalizers := FinalizerRemoval.RemoveString(pod.finalizers, POD_FINALIZER);
      var failed := Fails();
      if failed || KeyOfPod(pod) !in store.pods || store.pods[KeyOfPod(pod)] != pod {
        return false, lingers;
      }
      var l := StoreFinalizers(KeyOfPod(pod), finalizers);
      return true, l;
    }

    /** The part of an exit up to i references. */
    ghost predicate ExitedSoFar(start: Store, pod: Pod, refs: seq<WebhookRef>, i: nat)
      requires i <= |refs|
      reads this
    {
      && store == CleanedAllByWebhook(start, refs[..i], pod) && AllFound(start, refs[..i])
      && (Safe(start) ==> Safe(store))
    }

    method CleanupNextVolume(pod: Pod, refs: seq<WebhookRef>, i: nat, ghost start: Store)
      returns (ok: bool, ghost half: bool)
      requires i < |refs| && ExitedSoFar(start, pod, refs, i)
      requires KeyOfPod(pod) in start.pods ==> start.pods[KeyOfPod(pod)].terminating
      modifies this`store
      ensures ok ==> ExitedSoFar(start, pod, refs, i + 1)
      ensures !ok ==> store == PartlyCleaned(start, refs, pod, i, half) && (Safe(start) ==> Safe(store))
      ensures quiet && AllFound(start, refs) ==> ok
    {
      ghost var met := store;
      ok, half := CleanupSharedVolumeIfUnused(refs[i], pod);
      if Safe(met) {
        WebhookCleanupIsSafe(met, refs[i], pod, false, !ok);
      }
      SameVolumesAfterCleanup(start, refs[..i], pod);
      assert WebhookSpec(met, refs[i]) == WebhookSpec(start, refs[i]);
      CleanedByWebhookStep(start, refs[..i], refs[i], pod);
      assert refs[..i + 1] == refs[..i] + [refs[i]];
    }

    /**
     Cleans up after a terminating pod, volume by volume, then takes the finalizer off: on success it
     is a whole exit; on failure no pod has changed and a prefix of the volumes is cleaned up, perhaps
     with the claim of the next. Every live pod stays served.
     */
    method HandlePodDeletion(pod: Pod) returns (ok: bool, ghost lingers: bool, ghost progress: Progress)
      requires pod.terminating && POD_FINALIZER in pod.finalizers
      requires KeyOfPod(pod) in store.pods ==> store.pods[KeyOfPod(pod)].terminating
      modifies this`store
      ensures Safe(old(store)) ==> Safe(store)
      ensures progress.n <= |WebhookRefs(pod)|
      ensures ok ==> ExitEnabled(old(store), KeyOfPod(pod)) && store == Exited(old(store), KeyOfPod(pod), lingers)
      ensures !ok ==> store == PartlyCleaned(old(store), WebhookRefs(pod), pod, progress.n, progress.half)
      ensures quiet && ExitEnabled(old(store), KeyOfPod(pod)) && old(store).pods[KeyOfPod(pod)] == pod ==> ok
    {
      ghost var start := store;
      lingers := false;
      progress := Progress(0, false);
      var refs := ExtractForWebhook(pod);
      var i := 0;
      while i < |refs|
        invariant 0 <= i <= |refs| && ExitedSoFar(start, pod, refs, i)
      {
        ghost var half;
        ok, half := CleanupNextVolume(pod, refs, i, start);
        if !ok {
          progress := Progress(i, half);
          return;
        }
        i := i + 1;
      }
      assert refs[..i] == refs;
      ghost var cleaned := store;
      ok, lingers := RemovePodFinalizer(pod);
      progress := Progress(|refs|, false);
      if ok && Safe(cleaned) {
        WithFinalizersIsSafe(cleaned, KeyOfPod(pod), FinalizerRemoval.Removed(pod.finalizers, POD_FINALIZER), lingers);
      }
    }

    /** Any admission request for a pod; a deletion mark never goes away. */
    method Handle(pod: Pod, isUpdate: bool) returns (response: Response, ghost lingers: bool, ghost progress: Progress)
      requires pod.terminating && KeyOfPod(pod) in store.pods ==> store.pods[KeyOfPod(pod)].terminating
      modifies this`store
      ensures progress.n <= |WebhookRefs(pod)|
      ensures !pod.terminating ==>
        (store, response) == Handled(old(store), pod, isUpdate) ||
        ((response.Denied? || response.Errored?)
         && store == PartlyProcessed(old(store), pod, WebhookRefs(pod), progress.n, progress.half))
      ensures !pod.terminating && quiet ==> (store, response) == Handled(old(store), pod, isUpdate)
      ensures pod.terminating ==> response.AllowedAsIs? || response.Errored?
      ensures pod.terminating && POD_FINALIZER !in pod.finalizers ==> response.AllowedAsIs? && store == old(store)
      ensures pod.terminating && POD_FINALIZER in pod.finalizers ==>
        if response.AllowedAsIs?
        then ExitEnabled(old(store), KeyOfPod(pod)) && store == Exited(old(store), KeyOfPod(pod), lingers)
        else store == PartlyCleaned(old(store), WebhookRefs(pod), pod, progress.n, progress.half)
      ensures quiet && ExitEnabled(old(store), KeyOfPod(pod)) && old(store).pods[KeyOfPod(pod)] == pod ==>
        response.AllowedAsIs?
      ensures Safe(old(store)) ==> Safe(store)
    {
      ghost var start := store;
      lingers := false;
      progress := Progress(0, false);
      if pod.terminating {
        if POD_FINALIZER in pod.finalizers {
          var ok;
          ok, lingers, progress := HandlePodDeletion(pod);
          if !ok {
            return Errored, lingers, progress;
          }
        }
        return AllowedAsIs, lingers, progress;
      }
      response, progress := HandleLivePod(pod, isUpdate);
      if Safe(start) {
        HandledIsSafe(start, pod, isUpdate);
        PartlyAdmittedIsSafe(start, pod, WebhookRefs(pod), progress.n, progress.half);
      }
    }
  }
}
