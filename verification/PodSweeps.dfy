/**
 Which pods a volume's deletion takes with it: those that an annotation key marks as users of the
 volume, and those that carry the label of its ReplicaSet.
 */
module PodSweeps {
  import opened Common
  import opened VolumeTypes
  import opened VolumeDefaults
  import opened CleanupNames
  import PodAnnotations

  type Key = (string, string)

  datatype StoredPod = StoredPod(pod: PodAnnotations.Pod, labels: map<string, string>)

  /** Three sweeps: users of the volume, pods of its ReplicaSet, what remains of these. */
  datatype Sweep = Users | Replicas | Remaining

  const KEY_PREFIX := "sharedvolume.sv/"

  /** The text before and after the first double underscore. */
  function SplitMarker(s: string): Option<(string, string)> {
    if |s| < 2 then None
    else if s[0] == '_' && s[1] == '_' then Some(("", s[2..]))
    else match SplitMarker(s[1..])
      case None => None
      case Some(p) => Some(([s[0]] + p.0, p.1))
  }

  /** The namespace and name that the rest of a key gives; without a marker it is the pod's namespace. */
  function MarkedVolume(namespace: string, rest: string): Key {
    match SplitMarker(rest)
    case None => (namespace, rest)
    case Some(p) => p
  }

  predicate Marks(v: Volume, pod: PodAnnotations.Pod, key: string)
    requires key in pod.annotations
  {
    && HasPrefix(key, KEY_PREFIX) && pod.annotations[key] == "true"
    && MarkedVolume(pod.namespace, key[|KEY_PREFIX|..]) == (v.OperationalNamespace(), v.name)
  }

  predicate MarkedUser(v: Volume, pod: PodAnnotations.Pod) {
    exists key :: key in pod.annotations && Marks(v, pod, key)
  }

  predicate Labelled(v: Volume, p: StoredPod) {
    p.pod.namespace == v.OperationalNamespace() && "app" in p.labels && p.labels["app"] == v.reference
  }

  predicate Swept(v: Volume, sweep: Sweep, p: StoredPod) {
    match sweep
    case Users => MarkedUser(v, p.pod)
    case Replicas | Remaining => Labelled(v, p)
  }

  function KeyOfPod(p: StoredPod): Key {
    (p.pod.namespace, p.pod.name)
  }

  /** The keys of the pods that a sweep takes from a list, in order. */
  function Chosen(v: Volume, sweep: Sweep, pods: seq<StoredPod>): seq<Key> {
    if pods == [] then []
    else
      var n := |pods| - 1;
      Chosen(v, sweep, pods[..n]) + if Swept(v, sweep, pods[n]) then [KeyOfPod(pods[n])] else []
  }

  lemma {:induction false} ChosenIff(v: Volume, sweep: Sweep, pods: seq<StoredPod>, k: Key)
    ensures k in Chosen(v, sweep, pods) <==>
      exists p :: p in pods && Swept(v, sweep, p) && k == (p.pod.namespace, p.pod.name)
  {
    if pods != [] {
      var n := |pods| - 1;
      var front, last := pods[..n], pods[n];
      ChosenIff(v, sweep, front, k);
      assert pods == front + [last];
      if k in Chosen(v, sweep, front) {
        var p :| p in front && Swept(v, sweep, p) && k == (p.pod.namespace, p.pod.name);
        assert p in pods;
      }
      if p :| p in pods && Swept(v, sweep, p) && k == (p.pod.namespace, p.pod.name) {
        assert p in front || p == last;
      }
    }
  }

  method Choose(v: Volume, sweep: Sweep, pods: seq<StoredPod>) returns (chosen: seq<Key>)
    ensures chosen == Chosen(v, sweep, pods)
  {
    chosen := [];
    for i := 0 to |pods|
      invariant chosen == Chosen(v, sweep, pods[..i])
    {
      assert pods[..i + 1][..i] == pods[..i];
      if Swept(v, sweep, pods[i]) {
        chosen := chosen + [KeyOfPod(pods[i])];
      }
    }
    assert pods[..|pods|] == pods;
  }

  // ---------- what the users' sweep finds ----------

  lemma {:induction false} MarkerFound(namespace: string, name: string)
    requires Free('_', namespace)
    ensures SplitMarker(namespace + "__" + name) == Some((namespace, name))
  {
    var s := namespace + "__" + name;
    if namespace == "" {
      assert s == "__" + name && s[2..] == name;
    } else {
      MarkerFound(namespace[1..], name);
      assert s[1..] == namespace[1..] + "__" + name && s[0] == namespace[0];
      assert namespace[0] in namespace && namespace == [namespace[0]] + namespace[1..];
    }
  }

  lemma {:induction false} MarkerMissing(s: string)
    requires Free('_', s)
    ensures SplitMarker(s) == None
  {
    if |s| >= 2 {
      assert s[0] in s;
      MarkerMissing(s[1..]);
    }
  }

  lemma {:induction false} MarkerTells(s: string)
    ensures SplitMarker(s).Some? ==> s == SplitMarker(s).value.0 + "__" + SplitMarker(s).value.1
  {
    if |s| >= 2 {
      if s[0] == '_' && s[1] == '_' {
        assert s == "__" + s[2..];
      } else {
        MarkerTells(s[1..]);
        assert s == [s[0]] + s[1..];
      }
    }
  }

  predicate HasKey(pod: PodAnnotations.Pod, key: string) {
    key in pod.annotations && pod.annotations[key] == "true"
  }

  /**
   The sweep takes exactly the pods that one of two keys marks as true: the key with the volume's
   namespace and name, or, in that namespace, the key with the name alone.
   */
  lemma MarkedIff(v: Volume, pod: PodAnnotations.Pod)
    requires Free('_', v.OperationalNamespace()) && Free('_', v.name)
    ensures MarkedUser(v, pod) <==>
      || HasKey(pod, "sharedvolume.sv/" + (v.OperationalNamespace() + "__" + v.name))
      || (pod.namespace == v.OperationalNamespace() && HasKey(pod, "sharedvolume.sv/" + v.name))
  {
    var namespace := v.OperationalNamespace();
    var long, short := KEY_PREFIX + (namespace + "__" + v.name), KEY_PREFIX + v.name;
    MarkerFound(namespace, v.name);
    MarkerMissing(v.name);
    assert long[|KEY_PREFIX|..] == namespace + "__" + v.name && short[|KEY_PREFIX|..] == v.name;
    assert long in pod.annotations ==> (Marks(v, pod, long) <==> pod.annotations[long] == "true");
    assert short in pod.annotations && pod.namespace == namespace ==>
        (Marks(v, pod, short) <==> pod.annotations[short] == "true");
    if MarkedUser(v, pod) {
      var key :| key in pod.annotations && Marks(v, pod, key);
      MarkerTells(key[|KEY_PREFIX|..]);
      assert key == KEY_PREFIX + key[|KEY_PREFIX|..];
    }
  }

  /**
   A pod that names the volume the way the webhook reads it, by the one annotation that lists names, is
   admitted as a user of the volume, and no sweep of users ever takes it.
   */
  lemma ListedUserIsMissed(v: Volume, pod: PodAnnotations.Pod)
    requires v.kind.Namespaced? && PodAnnotations.PlainName(v.name)
    requires pod.namespace == v.namespace && pod.annotations == map["sharedvolume.sv" := v.name]
    ensures PodAnnotations.WebhookRefs(pod) == [PodAnnotations.WebhookRef(v.namespace, v.name, false)]
    ensures !MarkedUser(v, pod)
  {
    PodAnnotations.PlainPadsItself(v.name);
    PodAnnotations.NamesOfJoin([v.name], [v.name]);
    assert PodAnnotations.Listed(pod, PodAnnotations.SHARED_KEY) == [v.name];
    assert PodAnnotations.Listed(pod, PodAnnotations.CLUSTER_KEY) == [];
  }

  /** The label that the ReplicaSet of a volume gives to its pods. */
  predicate ReplicaPod(u: Volume, p: StoredPod) {
    p.pod.namespace == u.OperationalNamespace() && "app" in p.labels && p.labels["app"] == u.reference
  }

  /** The sweeps by label take, among all pods of ReplicaSets, exactly those of their own volume. */
  lemma ReplicaSweepIsExact(world: set<Volume>, u: Volume, v: Volume, p: StoredPod)
    requires WellFormed(world) && u in world && v in world && ReplicaPod(u, p)
    ensures Swept(v, Replicas, p) <==> u == v
    ensures Swept(v, Remaining, p) <==> u == v
  {
  }

  /** Whatever its labels, a pod of another namespace is left alone. */
  lemma OtherNamespacesAreSafe(v: Volume, p: StoredPod)
    requires p.pod.namespace != v.OperationalNamespace()
    ensures !Swept(v, Replicas, p) && !Swept(v, Remaining, p)
  {
  }
}
