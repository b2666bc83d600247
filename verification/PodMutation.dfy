/** What admission does to a pod: mounts, volumes and the cleanup finalizer. */
module PodMutation {
  import opened Common
  import opened PodAnnotations

  const POD_FINALIZER := "sharedvolume.sv/pod-cleanup"

  /** What a pod needs to know of one volume that it names. */
  datatype VolumeUse = VolumeUse(reference: string, mountPath: string, readOnly: bool)

  function MountFor(u: VolumeUse): VolumeMount {
    VolumeMount(u.reference, u.mountPath, u.readOnly)
  }

  function VolumeFor(u: VolumeUse, namespace: string): PodVolume {
    PodVolume(u.reference, Joined(u.reference, namespace))
  }

  predicate HasMount(mounts: seq<VolumeMount>, name: string) {
    exists i :: 0 <= i < |mounts| && mounts[i].name == name
  }

  predicate HasVolume(volumes: seq<PodVolume>, name: string) {
    exists i :: 0 <= i < |volumes| && volumes[i].name == name
  }

  function WithMount(c: Container, u: VolumeUse): Container {
    if HasMount(c.mounts, u.reference) then c else c.(mounts := c.mounts + [MountFor(u)])
  }

  function WithMounts(cs: seq<Container>, u: VolumeUse): (r: seq<Container>)
    ensures |r| == |cs| && forall i :: 0 <= i < |cs| ==> r[i] == WithMount(cs[i], u)
  {
    seq(|cs|, i requires 0 <= i < |cs| => WithMount(cs[i], u))
  }

  function WithVolume(pod: Pod, u: VolumeUse): Pod {
    pod.(containers := WithMounts(pod.containers, u),
         volumes := if HasVolume(pod.volumes, u.reference) then pod.volumes
                    else pod.volumes + [VolumeFor(u, pod.namespace)])
  }

  function WithVolumes(pod: Pod, uses: seq<VolumeUse>): Pod {
    if uses == [] then pod else WithVolume(WithVolumes(pod, uses[..|uses| - 1]), uses[|uses| - 1])
  }

  lemma WithVolumesOfLonger(pod: Pod, uses: seq<VolumeUse>, u: VolumeUse)
    ensures WithVolumes(pod, uses + [u]) == WithVolume(WithVolumes(pod, uses), u)
  {
    assert (uses + [u])[..|uses|] == uses;
  }

  function WithFinalizer(pod: Pod): Pod {
    if POD_FINALIZER in pod.finalizers then pod else pod.(finalizers := pod.finalizers + [POD_FINALIZER])
  }

  function Mutated(pod: Pod, uses: seq<VolumeUse>): Pod {
    WithFinalizer(WithVolumes(pod, uses))
  }

  /** The pod as the webhook edits it. */
  class PodObject {
    var pod: Pod

    constructor (pod: Pod)
      ensures this.pod == pod
    {
      this.pod := pod;
    }

    method AddVolumeToPod(u: VolumeUse)
      modifies this
      ensures pod == WithVolume(old(pod), u)
    {
      for i := 0 to |pod.containers|
        invariant |pod.containers| == |old(pod).containers|
        invariant pod.(containers := []) == old(pod).(containers := [])
        invariant forall j :: 0 <= j < i ==> pod.containers[j] == WithMount(old(pod).containers[j], u)
        invariant forall j :: i <= j < |pod.containers| ==> pod.containers[j] == old(pod).containers[j]
      {
        var container := pod.containers[i];
        var volumeMountExists := false;
        for j := 0 to |container.mounts|
          invariant !volumeMountExists && forall k :: 0 <= k < j ==> container.mounts[k].name != u.reference
        {
          if container.mounts[j].name == u.reference {
            volumeMountExists := true;
            break;
          }
        }
        if !volumeMountExists {
          container := container.(mounts := container.mounts + [VolumeMount(u.reference, u.mountPath, u.readOnly)]);
          pod := pod.(containers := pod.containers[i := container]);
        }
      }
      var volumeExists := false;
      for j := 0 to |pod.volumes|
        invariant !volumeExists && forall k :: 0 <= k < j ==> pod.volumes[k].name != u.reference
      {
        if pod.volumes[j].name == u.reference {
          volumeExists := true;
          break;
        }
      }
      if !volumeExists {
        pod := pod.(volumes := pod.volumes + [PodVolume(u.reference, Joined(u.reference, pod.namespace))]);
      }
    }

    method AddSharedVolumeFinalizer()
      modifies this
      ensures pod == WithFinalizer(old(pod))
    {
      for i := 0 to |pod.finalizers|
        invariant POD_FINALIZER !in pod.finalizers[..i]
      {
        if pod.finalizers[i] == POD_FINALIZER {
          return;
        }
      }
      assert pod.finalizers[..|pod.finalizers|] == pod.finalizers;
      pod := pod.(finalizers := pod.finalizers + [POD_FINALIZER]);
    }
  }

  // ---------- what the mutation amounts to ----------

  function MountsFor(uses: seq<VolumeUse>): (r: seq<VolumeMount>)
    ensures |r| == |uses| && forall i :: 0 <= i < |uses| ==> r[i] == MountFor(uses[i])
  {
    seq(|uses|, i requires 0 <= i < |uses| => MountFor(uses[i]))
  }

  function VolumesFor(uses: seq<VolumeUse>, namespace: string): (r: seq<PodVolume>)
    ensures |r| == |uses| && forall i :: 0 <= i < |uses| ==> r[i] == VolumeFor(uses[i], namespace)
  {
    seq(|uses|, i requires 0 <= i < |uses| => VolumeFor(uses[i], namespace))
  }

  ghost predicate DistinctReferences(uses: seq<VolumeUse>) {
    forall i, j :: 0 <= i < j < |uses| ==> uses[i].reference != uses[j].reference
  }

  /** The pod has no mount and no volume of the given name yet. */
  ghost predicate Unnamed(pod: Pod, name: string) {
    && (forall c :: c in pod.containers ==> !HasMount(c.mounts, name))
    && !HasVolume(pod.volumes, name)
  }

  lemma OneMoreMount(c: Container, front: seq<VolumeUse>, u: VolumeUse)
    requires !HasMount(c.mounts, u.reference) && forall v :: v in front ==> v.reference != u.reference
    ensures WithMount(c.(mounts := c.mounts + MountsFor(front)), u) == c.(mounts := c.mounts + MountsFor(front + [u]))
  {
    var mounts := c.mounts + MountsFor(front);
    assert !HasMount(mounts, u.reference);
    assert MountsFor(front + [u]) == MountsFor(front) + [MountFor(u)];
    assert mounts + [MountFor(u)] == c.mounts + MountsFor(front + [u]);
  }

  /** Every container has exactly one mount more per volume, in order, after the mounts it had. */
  ghost predicate ExactlyMounted(pod: Pod, uses: seq<VolumeUse>, m: Pod) {
    && |m.containers| == |pod.containers|
    && (forall i :: 0 <= i < |pod.containers| ==>
          m.containers[i] == pod.containers[i].(mounts := pod.containers[i].mounts + MountsFor(uses)))
    && m == pod.(containers := m.containers, volumes := pod.volumes + VolumesFor(uses, pod.namespace))
  }

  lemma OneMoreVolume(pod: Pod, front: seq<VolumeUse>, m: Pod, u: VolumeUse)
    requires ExactlyMounted(pod, front, m) && Unnamed(pod, u.reference)
    requires forall v :: v in front ==> v.reference != u.reference
    ensures ExactlyMounted(pod, front + [u], WithVolume(m, u))
  {
    assert VolumesFor(front + [u], pod.namespace) == VolumesFor(front, pod.namespace) + [VolumeFor(u, pod.namespace)];
    assert !HasVolume(pod.volumes + VolumesFor(front, pod.namespace), u.reference);
    forall i | 0 <= i < |pod.containers|
      ensures WithVolume(m, u).containers[i] ==
        pod.containers[i].(mounts := pod.containers[i].mounts + MountsFor(front + [u]))
    {
      assert pod.containers[i] in pod.containers;
      OneMoreMount(pod.containers[i], front, u);
      assert WithVolume(m, u).containers[i] == WithMount(m.containers[i], u);
    }
  }

  lemma {:induction false} MutationIsExact(pod: Pod, uses: seq<VolumeUse>)
    requires DistinctReferences(uses)
    requires forall i :: 0 <= i < |uses| ==> Unnamed(pod, uses[i].reference)
    ensures ExactlyMounted(pod, uses, WithVolumes(pod, uses))
  {
    if uses != [] {
      var front, u := uses[..|uses| - 1], uses[|uses| - 1];
      assert uses == front + [u];
      MutationIsExact(pod, front);
      WithVolumesOfLonger(pod, front, u);
      OneMoreVolume(pod, front, WithVolumes(pod, front), u);
    } else {
      assert MountsFor([]) == [] && VolumesFor([], pod.namespace) == [];
      assert forall i :: 0 <= i < |pod.containers| ==> pod.containers[i].mounts + [] == pod.containers[i].mounts;
      assert pod.volumes + [] == pod.volumes;
    }
  }

  /** The mounts that are added have pairwise distinct names, and distinct paths if the uses have. */
  lemma AddedMountsDistinct(uses: seq<VolumeUse>, i: nat, j: nat)
    requires i < j < |uses| && DistinctReferences(uses)
    requires forall k, l :: 0 <= k < l < |uses| ==> uses[k].mountPath != uses[l].mountPath
    ensures MountsFor(uses)[i].name != MountsFor(uses)[j].name
    ensures MountsFor(uses)[i].mountPath != MountsFor(uses)[j].mountPath
  {
    assert MountsFor(uses)[i] == MountFor(uses[i]) && MountsFor(uses)[j] == MountFor(uses[j]);
  }

  /** The pod has everything that the uses ask for. */
  ghost predicate Saturated(pod: Pod, u: VolumeUse) {
    && (forall c :: c in pod.containers ==> HasMount(c.mounts, u.reference))
    && HasVolume(pod.volumes, u.reference)
  }

  lemma SaturatedUnchanged(pod: Pod, u: VolumeUse)
    requires Saturated(pod, u)
    ensures WithVolume(pod, u) == pod
  {
    assert WithMounts(pod.containers, u) == pod.containers;
  }

  lemma WithVolumeSaturates(pod: Pod, u: VolumeUse, v: VolumeUse)
    ensures Saturated(WithVolume(pod, u), u)
    ensures Saturated(pod, v) ==> Saturated(WithVolume(pod, u), v)
  {
    var m := WithVolume(pod, u);
    forall c | c in m.containers
      ensures HasMount(c.mounts, u.reference)
      ensures Saturated(pod, v) ==> HasMount(c.mounts, v.reference)
    {
      var i :| 0 <= i < |m.containers| && m.containers[i] == c;
      var was := pod.containers[i];
      if !HasMount(was.mounts, u.reference) {
        assert c.mounts[|was.mounts|] == MountFor(u);
      }
      if Saturated(pod, v) {
        assert was in pod.containers;
        var k :| 0 <= k < |was.mounts| && was.mounts[k].name == v.reference;
        assert c.mounts[k] == was.mounts[k];
      }
    }
    if !HasVolume(pod.volumes, u.reference) {
      assert m.volumes[|pod.volumes|] == VolumeFor(u, pod.namespace);
    }
    if Saturated(pod, v) {
      var k :| 0 <= k < |pod.volumes| && pod.volumes[k].name == v.reference;
      assert m.volumes[k] == pod.volumes[k];
    }
  }

  lemma {:induction false} WithVolumesSaturates(pod: Pod, uses: seq<VolumeUse>)
    ensures forall u :: u in uses ==> Saturated(WithVolumes(pod, uses), u)
  {
    if uses != [] {
      var n := |uses| - 1;
      WithVolumesSaturates(pod, uses[..n]);
      forall u | u in uses
        ensures Saturated(WithVolumes(pod, uses), u)
      {
        assert u in uses[..n] || u == uses[n];
        WithVolumeSaturates(WithVolumes(pod, uses[..n]), uses[n], u);
      }
    }
  }

  lemma {:induction false} SaturatedStays(pod: Pod, uses: seq<VolumeUse>)
    requires forall u :: u in uses ==> Saturated(pod, u)
    ensures WithVolumes(pod, uses) == pod
  {
    if uses != [] {
      SaturatedStays(pod, uses[..|uses| - 1]);
      SaturatedUnchanged(pod, uses[|uses| - 1]);
    }
  }

  lemma {:induction false} VolumesBesideFinalizers(pod: Pod, uses: seq<VolumeUse>, finalizers: seq<string>)
    ensures WithVolumes(pod.(finalizers := finalizers), uses) == WithVolumes(pod, uses).(finalizers := finalizers)
    ensures WithVolumes(pod, uses).finalizers == pod.finalizers
  {
    if uses != [] {
      VolumesBesideFinalizers(pod, uses[..|uses| - 1], finalizers);
    }
  }

  /** Whatever the pod and the uses, applying the mutation again changes nothing. */
  lemma MutationIsIdempotent(pod: Pod, uses: seq<VolumeUse>)
    ensures Mutated(Mutated(pod, uses), uses) == Mutated(pod, uses)
  {
    var once := Mutated(pod, uses);
    var m := WithVolumes(pod, uses);
    WithVolumesSaturates(pod, uses);
    SaturatedStays(m, uses);
    VolumesBesideFinalizers(m, uses, once.finalizers);
  }

  /** A pod with at most one cleanup finalizer ends up with exactly one, and keeps all others. */
  lemma FinalizerIsUnique(pod: Pod, uses: seq<VolumeUse>)
    requires multiset(pod.finalizers)[POD_FINALIZER] <= 1
    ensures multiset(Mutated(pod, uses).finalizers)[POD_FINALIZER] == 1
    ensures pod.finalizers <= Mutated(pod, uses).finalizers
    ensures forall f :: f != POD_FINALIZER ==>
      multiset(Mutated(pod, uses).finalizers)[f] == multiset(pod.finalizers)[f]
  {
    VolumesBesideFinalizers(pod, uses, []);
  }
}
