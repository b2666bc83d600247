/** What an allowed admission does to the pod, and when the mount path check allows it. */
module PodAdmission {
  import opened Common
  import opened VolumeTypes
  import opened PodAnnotations
  import opened PodMutation
  import opened PodProtocol

  function UsesOf(cl: Store, refs: seq<WebhookRef>): (uses: seq<VolumeUse>)
    requires AllFound(cl, refs)
    ensures |uses| == |refs|
    ensures forall i :: 0 <= i < |refs| ==> uses[i] == UseOf(WebhookSpec(cl, refs[i]).value)
  {
    seq(|refs|, i requires 0 <= i < |refs| => UseOf(WebhookSpec(cl, refs[i]).value))
  }

  lemma ProcessMounts(cl: Store, pod: Pod, ref: WebhookRef)
    requires Process(cl, pod, ref).2
    ensures WebhookSpec(cl, ref).Some? && Process(cl, pod, ref).1 == WithVolume(pod, UseOf(WebhookSpec(cl, ref).value))
  {
  }

  lemma ProcessAllStep(cl: Store, pod: Pod, front: seq<WebhookRef>, last: WebhookRef)
    ensures var (c, p, ok) := ProcessAll(cl, pod, front);
      ProcessAll(cl, pod, front + [last]) == if ok then Process(c, p, last) else (c, p, false)
  {
    assert (front + [last])[..|front|] == front;
  }

  lemma UsesOfLonger(cl: Store, refs: seq<WebhookRef>, ref: WebhookRef)
    requires AllFound(cl, refs) && WebhookSpec(cl, ref).Some?
    ensures AllFound(cl, refs + [ref])
    ensures UsesOf(cl, refs + [ref]) == UsesOf(cl, refs) + [UseOf(WebhookSpec(cl, ref).value)]
  {
  }

  lemma {:induction false} ProcessAllMounts(cl: Store, pod: Pod, refs: seq<WebhookRef>)
    requires AllFound(cl, refs) && ProcessAll(cl, pod, refs).2
    ensures ProcessAll(cl, pod, refs).1 == WithVolumes(pod, UsesOf(cl, refs))
  {
    if refs == [] {
      assert UsesOf(cl, refs) == [];
    } else {
      var front, last := refs[..|refs| - 1], refs[|refs| - 1];
      assert refs == front + [last];
      ProcessAllStep(cl, pod, front, last);
      ProcessAllMounts(cl, pod, front);
      ProcessAllClaims(cl, pod, front);
      var (c, p, _) := ProcessAll(cl, pod, front);
      ProcessMounts(c, p, last);
      UsesOfLonger(cl, front, last);
      WithVolumesOfLonger(pod, UsesOf(cl, front), UseOf(WebhookSpec(cl, last).value));
    }
  }

  /** Distinct mount paths mean distinct volumes, and distinct volumes have distinct references. */
  lemma UniquePathsDistinctReferences(cl: Store, refs: seq<WebhookRef>, pod: Pod)
    requires ReferencesDistinct(cl.shared, cl.cluster) && PathsUnique(cl, refs)
    ensures DistinctReferences(UsesOf(cl, refs))
    ensures forall i, j :: 0 <= i < j < |refs| ==> UsesOf(cl, refs)[i].mountPath != UsesOf(cl, refs)[j].mountPath
  {
  }

  ghost predicate VolumeThere(cl: Store, namespace: string, ref: WebhookRef) {
    WebhookSpec(cl, ref).Some? && Joined(WebhookSpec(cl, ref).value.referenceValue, namespace) in cl.volumes
  }

  lemma ProcessMakesVolume(cl: Store, pod: Pod, ref: WebhookRef)
    ensures var (c, _, ok) := Process(cl, pod, ref);
      cl.volumes.Keys <= c.volumes.Keys && (ok ==> VolumeThere(c, pod.namespace, ref))
  {
  }

  lemma {:induction false} ProcessAllMakesVolumes(cl: Store, pod: Pod, refs: seq<WebhookRef>)
    ensures var (c, _, ok) := ProcessAll(cl, pod, refs);
      ok ==> forall ref :: ref in refs ==> VolumeThere(c, pod.namespace, ref)
  {
    if refs != [] {
      var front, last := refs[..|refs| - 1], refs[|refs| - 1];
      assert refs == front + [last];
      ProcessAllMakesVolumes(cl, pod, front);
      ProcessAllClaims(cl, pod, front);
      var (c, p, ok) := ProcessAll(cl, pod, front);
      if ok {
        ProcessMakesVolume(c, p, last);
        ProcessClaims(c, p, last);
        forall ref | ref in refs && Process(c, p, last).2
          ensures VolumeThere(Process(c, p, last).0, pod.namespace, ref)
        {
          assert ref in front || ref == last;
        }
      }
    }
  }

  lemma ProcessAgain(cl: Store, pod: Pod, ref: WebhookRef)
    requires VolumeThere(cl, pod.namespace, ref) && Claimed(cl, pod, ref)
    ensures Process(cl, pod, ref) == (cl, WithVolume(pod, UseOf(WebhookSpec(cl, ref).value)), true)
  {
  }

  lemma WithVolumesKeeps(pod: Pod, uses: seq<VolumeUse>)
    ensures WithVolumes(pod, uses).namespace == pod.namespace
  {
    VolumesBesideFinalizers(pod, uses, []);
    if uses != [] {
      WithVolumesKeeps(pod, uses[..|uses| - 1]);
    }
  }

  /** With all claims and volumes there, processing again creates nothing and only mutates the pod. */
  lemma {:induction false} ProcessAllAgain(cl: Store, pod: Pod, refs: seq<WebhookRef>)
    requires AllFound(cl, refs)
    requires forall ref :: ref in refs ==> VolumeThere(cl, pod.namespace, ref) && Claimed(cl, pod, ref)
    ensures ProcessAll(cl, pod, refs) == (cl, WithVolumes(pod, UsesOf(cl, refs)), true)
  {
    if refs == [] {
      assert UsesOf(cl, refs) == [];
    } else {
      var front, last := refs[..|refs| - 1], refs[|refs| - 1];
      assert refs == front + [last] && last in refs;
      ProcessAllStep(cl, pod, front, last);
      ProcessAllAgain(cl, pod, front);
      var p := WithVolumes(pod, UsesOf(cl, front));
      WithVolumesKeeps(pod, UsesOf(cl, front));
      assert Claimed(cl, pod, last) && Claimed(cl, p, last);
      ProcessAgain(cl, p, last);
      UsesOfLonger(cl, front, last);
      WithVolumesOfLonger(pod, UsesOf(cl, front), UseOf(WebhookSpec(cl, last).value));
    }
  }

  /**
   An allowed admission adds to every container exactly one mount per named volume, in annotation
   order and with distinct names and paths, after what was there; volumes likewise.
   */
  lemma AdmissionMutatesExactly(cl: Store, pod: Pod, isUpdate: bool)
    requires ReferencesDistinct(cl.shared, cl.cluster) && Handled(cl, pod, isUpdate).1.Patched?
    requires PathsUnique(cl, WebhookRefs(pod)) ==>
      forall u :: u in UsesOf(cl, WebhookRefs(pod)) ==> Unnamed(pod, u.reference)
    ensures var refs, p := WebhookRefs(pod), Handled(cl, pod, isUpdate).1.pod;
      && PathsUnique(cl, refs)
      && var uses := UsesOf(cl, refs);
      && p == Mutated(pod, uses)
      && |p.containers| == |pod.containers|
      && (forall i :: 0 <= i < |pod.containers| ==>
            p.containers[i] == pod.containers[i].(mounts := pod.containers[i].mounts + MountsFor(uses)))
      && p.volumes == pod.volumes + VolumesFor(uses, pod.namespace)
      && (forall i, j :: 0 <= i < j < |uses| ==>
            MountsFor(uses)[i].name != MountsFor(uses)[j].name &&
              MountsFor(uses)[i].mountPath != MountsFor(uses)[j].mountPath)
  {
    var refs := WebhookRefs(pod);
    var uses := UsesOf(cl, refs);
    UniquePathsDistinctReferences(cl, refs, pod);
    ProcessAllMounts(cl, pod, refs);
    MutationIsExact(pod, uses);
    forall i, j | 0 <= i < j < |uses|
      ensures MountsFor(uses)[i].name != MountsFor(uses)[j].name &&
        MountsFor(uses)[i].mountPath != MountsFor(uses)[j].mountPath
    {
      AddedMountsDistinct(uses, i, j);
    }
  }

  lemma {:induction false} MutatedHasVolumes(pod: Pod, uses: seq<VolumeUse>)
    requires uses != []
    ensures WithVolumes(pod, uses).volumes != []
  {
    WithVolumesSaturates(pod, uses);
    assert uses[0] in uses;
  }

  lemma SameFound(a: Store, b: Store, refs: seq<WebhookRef>)
    requires b.shared == a.shared && b.cluster == a.cluster && AllFound(a, refs)
    ensures AllFound(b, refs) && UsesOf(b, refs) == UsesOf(a, refs) && (PathsUnique(a, refs) ==> PathsUnique(b, refs))
  {
    forall i | 0 <= i < |refs|
      ensures WebhookSpec(b, refs[i]) == WebhookSpec(a, refs[i])
    {
    }
    assert forall i :: 0 <= i < |refs| ==> UsesOf(b, refs)[i] == UsesOf(a, refs)[i];
  }

  /**
   Admitting the result once more changes neither the pod nor the cluster: an update is waved through,
   a creation is patched to the same pod.
   */
  lemma AdmittedAgain(cl: Store, pod: Pod, isUpdate: bool)
    requires Handled(cl, pod, isUpdate).1.Patched?
    ensures var (c, response) := Handled(cl, pod, isUpdate);
      Handled(c, response.pod, true) == (c, AllowedAsIs) &&
        Handled(c, response.pod, false) == (c, Patched(response.pod))
  {
    var refs := WebhookRefs(pod);
    var uses := UsesOf(cl, refs);
    var (c, response) := Handled(cl, pod, isUpdate);
    var p := response.pod;
    ProcessAllMounts(cl, pod, refs);
    ProcessAllClaims(cl, pod, refs);
    ProcessAllMakesVolumes(cl, pod, refs);
    assert p == Mutated(pod, uses) && WebhookRefs(p) == refs;
    MutatedHasVolumes(pod, uses);
    MutationIsIdempotent(pod, uses);
    SameFound(cl, c, refs);
    forall ref | ref in refs
      ensures VolumeThere(c, p.namespace, ref) && Claimed(c, p, ref)
    {
      assert VolumeThere(c, pod.namespace, ref) && Claimed(c, pod, ref);
    }
    ProcessAllAgain(c, p, refs);
  }

  // ---------- which pods are admitted, and what for ----------

  /**
   A persistent volume that is stored, or a spec to make it from; a claim that is stored and live, or a
   spec to make it from.
   */
  predicate Servable(cl: Store, namespace: string, ref: WebhookRef)
    requires WebhookSpec(cl, ref).Some?
  {
    var spec := WebhookSpec(cl, ref).value;
    var name := spec.referenceValue + "-" + namespace;
    && (name in cl.volumes || (spec.storage.Some? && spec.nfsServer.Some?))
    && (if (namespace, name) in cl.claims then cl.claims[(namespace, name)].Live? else spec.storage.Some?)
  }

  /** The name of the claim and the volume of a reference. */
  function NameFor(cl: Store, namespace: string, ref: WebhookRef): string
    requires WebhookSpec(cl, ref).Some?
  {
    WebhookSpec(cl, ref).value.referenceValue + "-" + namespace
  }

  ghost function NamesFor(cl: Store, namespace: string, refs: seq<WebhookRef>): set<string>
    requires AllFound(cl, refs)
  {
    set i | 0 <= i < |refs| :: NameFor(cl, namespace, refs[i])
  }

  ghost predicate DistinctNames(cl: Store, namespace: string, refs: seq<WebhookRef>)
    requires AllFound(cl, refs)
  {
    forall i, j :: 0 <= i < j < |refs| ==> NameFor(cl, namespace, refs[i]) != NameFor(cl, namespace, refs[j])
  }

  lemma UniquePathsDistinctNames(cl: Store, namespace: string, refs: seq<WebhookRef>)
    requires ReferencesDistinct(cl.shared, cl.cluster) && PathsUnique(cl, refs)
    ensures DistinctNames(cl, namespace, refs)
  {
    forall i, j | 0 <= i < j < |refs|
      ensures NameFor(cl, namespace, refs[i]) != NameFor(cl, namespace, refs[j])
    {
      ClaimNamesUnique(WebhookSpec(cl, refs[i]).value.referenceValue, WebhookSpec(cl, refs[j]).value.referenceValue,
                       namespace);
    }
  }

  /** What was there stays as it was, and these are there besides, live and without finalizers. */
  ghost predicate Made<K>(before: map<K, Condition>, names: set<K>, after: map<K, Condition>) {
    && after.Keys == before.Keys + names
    && forall k :: k in after ==> after[k] == if k in before then before[k] else Live(false)
  }

  ghost predicate MadeFor(cl: Store, namespace: string, names: set<string>, c: Store) {
    && c == cl.(claims := c.claims, volumes := c.volumes)
    && Made(cl.volumes, names, c.volumes) && Made(cl.claims, set n | n in names :: (namespace, n), c.claims)
  }

  function WithLive<K>(stored: map<K, Condition>, k: K): map<K, Condition> {
    if k in stored then stored else stored[k := Live(false)]
  }

  lemma ProcessMakes(c: Store, pod: Pod, ref: WebhookRef)
    requires WebhookSpec(c, ref).Some?
    ensures Process(c, pod, ref).2 <==> Servable(c, pod.namespace, ref)
    ensures Process(c, pod, ref).2 ==> var name := NameFor(c, pod.namespace, ref);
      Process(c, pod, ref).0 ==
        c.(volumes := WithLive(c.volumes, name), claims := WithLive(c.claims, (pod.namespace, name)))
  {
  }

  lemma MadeOneMore<K>(before: map<K, Condition>, names: set<K>, after: map<K, Condition>, k: K)
    requires Made(before, names, after) && k !in names
    ensures (k in after <==> k in before) && (k in after ==> after[k] == before[k])
    ensures Made(before, names + {k}, WithLive(after, k))
  {
  }

  lemma MadeForOneMore(cl: Store, c: Store, namespace: string, names: set<string>, name: string, made: Store)
    requires MadeFor(cl, namespace, names, c) && name !in names
    requires made == c.(volumes := WithLive(c.volumes, name), claims := WithLive(c.claims, (namespace, name)))
    ensures MadeFor(cl, namespace, names + {name}, made)
  {
    var keys := set n | n in names :: (namespace, n);
    MadeOneMore(cl.volumes, names, c.volumes, name);
    MadeOneMore(cl.claims, keys, c.claims, (namespace, name));
    assert (set n | n in names + {name} :: (namespace, n)) == keys + {(namespace, name)};
  }

  lemma ServableStays(cl: Store, c: Store, namespace: string, names: set<string>, ref: WebhookRef)
    requires WebhookSpec(cl, ref).Some? && MadeFor(cl, namespace, names, c) && NameFor(cl, namespace, ref) !in names
    ensures WebhookSpec(c, ref) == WebhookSpec(cl, ref)
    ensures Servable(c, namespace, ref) <==> Servable(cl, namespace, ref)
  {
    var name := NameFor(cl, namespace, ref);
    MadeOneMore(cl.volumes, names, c.volumes, name);
    MadeOneMore(cl.claims, set n | n in names :: (namespace, n), c.claims, (namespace, name));
  }

  lemma {:induction false} ProcessAllIff(cl: Store, pod: Pod, refs: seq<WebhookRef>)
    requires AllFound(cl, refs) && DistinctNames(cl, pod.namespace, refs)
    ensures var (c, _, ok) := ProcessAll(cl, pod, refs);
      && (ok <==> forall ref :: ref in refs ==> Servable(cl, pod.namespace, ref))
      && (ok ==> MadeFor(cl, pod.namespace, NamesFor(cl, pod.namespace, refs), c))
  {
    if refs == [] {
      assert NamesFor(cl, pod.namespace, refs) == {};
    } else {
      var n := |refs| - 1;
      var front, last := refs[..n], refs[n];
      assert refs == front + [last];
      ProcessAllStep(cl, pod, front, last);
      ProcessAllIff(cl, pod, front);
      ProcessAllClaims(cl, pod, front);
      var (c, p, ok) := ProcessAll(cl, pod, front);
      var names := NamesFor(cl, pod.namespace, front);
      if ok {
        assert NameFor(cl, pod.namespace, last) !in names;
        assert NamesFor(cl, pod.namespace, refs) == names + {NameFor(cl, pod.namespace, last)};
        ServableStays(cl, c, pod.namespace, names, last);
        ProcessMakes(c, p, last);
        if Process(c, p, last).2 {
          MadeForOneMore(cl, c, pod.namespace, names, NameFor(cl, pod.namespace, last), Process(c, p, last).0);
        }
      }
    }
  }

  /**
   Which answer a pod gets, and what it makes of the cluster: only an update of a pod that has the
   cleanup finalizer and volumes, or a pod that names no volume, goes through untouched; a pod is denied
   for its mount paths alone; it is patched exactly if each of its volumes can be served, and then
   each has a claim and a volume, made where missing.
   */
  lemma AnsweredIff(cl: Store, pod: Pod, isUpdate: bool)
    requires ReferencesDistinct(cl.shared, cl.cluster)
    ensures var refs, (c, answer) := WebhookRefs(pod), Handled(cl, pod, isUpdate);
      var untouched := refs == [] || (isUpdate && "sharedvolume.sv/pod-cleanup" in pod.finalizers && pod.volumes != []);
      && (answer.AllowedAsIs? <==> untouched)
      && (answer.Denied? <==> !untouched && !PathsUnique(cl, refs))
      && (answer.Patched? <==>
            !untouched && PathsUnique(cl, refs) && forall ref :: ref in refs ==> Servable(cl, pod.namespace, ref))
      && (answer.AllowedAsIs? || answer.Denied? ==> c == cl)
      && (answer.Patched? ==> MadeFor(cl, pod.namespace, NamesFor(cl, pod.namespace, refs), c))
  {
    var refs := WebhookRefs(pod);
    if PathsUnique(cl, refs) {
      UniquePathsDistinctNames(cl, pod.namespace, refs);
      ProcessAllIff(cl, pod, refs);
    }
  }

  // ---------- the mount path check ----------

  /** The group holds, in order, the indices of the references that mount the path. */
  ghost predicate Grouped(cl: Store, refs: seq<WebhookRef>, path: string, group: seq<nat>)
    requires AllFound(cl, refs)
  {
    && (forall j :: 0 <= j < |refs| ==> (j in group <==> WebhookSpec(cl, refs[j]).value.mountPath == path))
    && (forall k :: 0 <= k < |group| ==> group[k] < |refs|)
    && (forall k, l :: 0 <= k < l < |group| ==> group[k] < group[l])
  }

  ghost predicate AllGrouped(cl: Store, refs: seq<WebhookRef>, groups: map<string, seq<nat>>)
    requires AllFound(cl, refs)
  {
    && (forall p :: p in groups ==> Grouped(cl, refs, p, groups[p]))
    && (forall j :: 0 <= j < |refs| ==> WebhookSpec(cl, refs[j]).value.mountPath in groups)
  }

  lemma GroupGrows(cl: Store, refs: seq<WebhookRef>, ref: WebhookRef, groups: map<string, seq<nat>>)
    requires AllFound(cl, refs) && WebhookSpec(cl, ref).Some? && AllGrouped(cl, refs, groups)
    ensures var path := WebhookSpec(cl, ref).value.mountPath;
      && AllFound(cl, refs + [ref])
      && AllGrouped(cl, refs + [ref], groups[path := (if path in groups then groups[path] else []) + [|refs|]])
  {
    var path, longer := WebhookSpec(cl, ref).value.mountPath, refs + [ref];
    var group := if path in groups then groups[path] else [];
    assert Grouped(cl, refs, path, group);
    assert Grouped(cl, longer, path, group + [|refs|]);
    forall p | p in groups && p != path
      ensures Grouped(cl, longer, p, groups[p])
    {
      assert Grouped(cl, refs, p, groups[p]);
    }
  }

  lemma GroupsTellDuplicates(cl: Store, refs: seq<WebhookRef>, groups: map<string, seq<nat>>)
    requires AllFound(cl, refs) && AllGrouped(cl, refs, groups)
    ensures (forall p :: p in groups ==> |groups[p]| <= 1) <==> PathsUnique(cl, refs)
  {
    if p :| p in groups && |groups[p]| > 1 {
      assert Grouped(cl, refs, p, groups[p]);
      var i, j := groups[p][0], groups[p][1];
      assert i in groups[p] && j in groups[p] && i < j;
    } else {
      forall i, j | 0 <= i < j < |refs|
        ensures WebhookSpec(cl, refs[i]).value.mountPath != WebhookSpec(cl, refs[j]).value.mountPath
      {
        var p := WebhookSpec(cl, refs[i]).value.mountPath;
        assert Grouped(cl, refs, p, groups[p]);
      }
    }
  }
}
