/** Pods, the volumes their annotations name, and the two scans that ask whether a volume is in use. */
module PodAnnotations {
  import opened Common

  const SHARED_KEY := "sharedvolume.sv"
  const CLUSTER_KEY := "sharedvolume.csv"

  datatype VolumeMount = VolumeMount(name: string, mountPath: string, readOnly: bool)
  datatype Container = Container(name: string, mounts: seq<VolumeMount>)
  datatype PodVolume = PodVolume(name: string, claimName: string)

  datatype Pod = Pod(
    namespace: string,
    name: string,
    annotations: map<string, string>,
    terminating: bool,
    finalizers: seq<string>,
    containers: seq<Container>,
    volumes: seq<PodVolume>)

  // ---------- comma-separated names ----------

  function Split(s: string): (parts: seq<string>)
    ensures parts != []
  {
    if s == "" then [""]
    else
      var rest := Split(s[1..]);
      if s[0] == ',' then [""] + rest else [[s[0]] + rest[0]] + rest[1..]
  }

  /** The space characters that Go's strings.TrimSpace removes. */
  predicate IsSpace(c: char) {
    c in "\t\n\U{B}\U{C}\r \U{85}\U{A0}\U{1680}\U{2028}\U{2029}\U{202F}\U{205F}\U{3000}" ||
      '\U{2000}' <= c <= '\U{200A}'
  }

  function TrimLeft(s: string): string {
    if s != "" && IsSpace(s[0]) then TrimLeft(s[1..]) else s
  }

  function TrimRight(s: string): string {
    if s != "" && IsSpace(s[|s| - 1]) then TrimRight(s[..|s| - 1]) else s
  }

  function TrimSpace(s: string): string {
    TrimRight(TrimLeft(s))
  }

  ghost predicate AllSpace(s: string) {
    forall c :: c in s ==> IsSpace(c)
  }

  /** What lies between the first and the last character that is no space. */
  ghost predicate Trimmed(s: string, t: string) {
    && (exists a, b :: s == a + t + b && AllSpace(a) && AllSpace(b))
    && (t != "" ==> !IsSpace(t[0]) && !IsSpace(t[|t| - 1]))
  }

  lemma {:induction false} TrimLeftPadded(a: string, t: string)
    requires AllSpace(a) && (t != "" ==> !IsSpace(t[0]))
    ensures TrimLeft(a + t) == t
  {
    if a == "" {
      assert a + t == t;
    } else {
      TrimLeftPadded(a[1..], t);
      assert (a + t)[1..] == a[1..] + t;
      assert a[0] in a;
    }
  }

  lemma {:induction false} TrimRightPadded(t: string, b: string)
    requires AllSpace(b) && (t != "" ==> !IsSpace(t[|t| - 1]))
    ensures TrimRight(t + b) == t
  {
    if b == "" {
      assert t + b == t;
    } else {
      var n := |b| - 1;
      TrimRightPadded(t, b[..n]);
      assert (t + b)[..|t + b| - 1] == t + b[..n];
      assert b[n] in b;
    }
  }

  lemma TrimIsExact(s: string, t: string)
    requires Trimmed(s, t)
    ensures TrimSpace(s) == t
  {
    var a, b :| s == a + t + b && AllSpace(a) && AllSpace(b);
    if t == "" {
      assert s == (a + b) + "";
      TrimLeftPadded(a + b, "");
    } else {
      assert s == a + (t + b);
      TrimLeftPadded(a, t + b);
      TrimRightPadded(t, b);
    }
  }

  function Kept(parts: seq<string>): seq<string> {
    if parts == [] then []
    else (if TrimSpace(parts[0]) != "" then [TrimSpace(parts[0])] else []) + Kept(parts[1..])
  }

  /** The volume names that an annotation value lists, in order. */
  function Names(list: string): seq<string> {
    Kept(Split(list))
  }

  function Join(names: seq<string>): string {
    if names == [] then "" else if |names| == 1 then names[0] else names[0] + "," + Join(names[1..])
  }

  ghost predicate PlainName(n: string) {
    n != "" && Free(',', n) && !IsSpace(n[0]) && !IsSpace(n[|n| - 1])
  }

  lemma {:induction false} SplitJoined(n: string, rest: string)
    requires Free(',', n)
    ensures Split(n + "," + rest) == [n] + Split(rest)
  {
    if n == "" {
      assert n + "," + rest == "," + rest;
      assert ("," + rest)[1..] == rest;
    } else {
      SplitJoined(n[1..], rest);
      assert (n + "," + rest)[1..] == n[1..] + "," + rest;
      assert [n[0]] + n[1..] == n;
    }
  }

  lemma {:induction false} SplitSingle(n: string)
    requires Free(',', n)
    ensures Split(n) == [n]
  {
    if n != "" {
      SplitSingle(n[1..]);
      assert [n[0]] + n[1..] == n;
    }
  }

  /** The part is a plain name, perhaps with spaces around it. */
  ghost predicate Pads(part: string, n: string) {
    PlainName(n) && Free(',', part) && Trimmed(part, n)
  }

  lemma PlainPadsItself(n: string)
    requires PlainName(n)
    ensures Pads(n, n)
  {
    assert n == "" + n + "" && AllSpace("");
  }

  lemma KeptOfPadded(part: string, n: string, parts: seq<string>)
    requires Pads(part, n)
    ensures Kept([part] + parts) == [n] + Kept(parts)
  {
    TrimIsExact(part, n);
    assert ([part] + parts)[1..] == parts;
  }

  /** Reading an annotation gives back exactly the names joined into it, whatever spaces surround them. */
  lemma {:induction false} NamesOfJoin(parts: seq<string>, names: seq<string>)
    requires |parts| == |names| && forall i :: 0 <= i < |parts| ==> Pads(parts[i], names[i])
    ensures Names(Join(parts)) == names
  {
    if parts == [] {
      assert Split("") == [""];
    } else {
      assert Pads(parts[0], names[0]) && names == [names[0]] + names[1..];
      if |parts| == 1 {
        SplitSingle(parts[0]);
        KeptOfPadded(parts[0], names[0], []);
        assert [parts[0]] + [] == [parts[0]];
      } else {
        var rest := Split(Join(parts[1..]));
        SplitJoined(parts[0], Join(parts[1..]));
        NamesOfJoin(parts[1..], names[1..]);
        KeptOfPadded(parts[0], names[0], rest);
      }
    }
  }

  lemma {:induction false} KeptOfLonger(parts: seq<string>, part: string)
    ensures Kept(parts + [part]) == Kept(parts) + (if TrimSpace(part) != "" then [TrimSpace(part)] else [])
  {
    if parts == [] {
      assert parts + [part] == [part];
      assert Kept([part][1..]) == [];
    } else {
      KeptOfLonger(parts[1..], part);
      assert (parts + [part])[1..] == parts[1..] + [part];
    }
  }

  function Listed(pod: Pod, key: string): seq<string> {
    if key in pod.annotations then Names(pod.annotations[key]) else []
  }

  // ---------- references ----------

  /** The controller marks a cluster volume by the operation namespace. */
  datatype ControllerRef = ControllerRef(namespace: string, name: string)

  /** The webhook has a flag for it. */
  datatype WebhookRef = WebhookRef(namespace: string, name: string, isCluster: bool)

  function ControllerRefsIn(namespace: string, names: seq<string>): (refs: seq<ControllerRef>)
    ensures |refs| == |names| && forall i :: 0 <= i < |refs| ==> refs[i] == ControllerRef(namespace, names[i])
  {
    seq(|names|, i requires 0 <= i < |names| => ControllerRef(namespace, names[i]))
  }

  function WebhookRefsIn(namespace: string, names: seq<string>, isCluster: bool): (refs: seq<WebhookRef>)
    ensures |refs| == |names| && forall i :: 0 <= i < |refs| ==> refs[i] == WebhookRef(namespace, names[i], isCluster)
  {
    seq(|names|, i requires 0 <= i < |names| => WebhookRef(namespace, names[i], isCluster))
  }

  function ControllerRefs(pod: Pod): seq<ControllerRef> {
    ControllerRefsIn(pod.namespace, Listed(pod, SHARED_KEY)) +
    ControllerRefsIn(OPERATION_NAMESPACE, Listed(pod, CLUSTER_KEY))
  }

  function WebhookRefs(pod: Pod): seq<WebhookRef> {
    WebhookRefsIn(pod.namespace, Listed(pod, SHARED_KEY), false) + WebhookRefsIn("", Listed(pod, CLUSTER_KEY), true)
  }

  method ListNames(pod: Pod, key: string) returns (names: seq<string>)
    ensures names == Listed(pod, key)
  {
    names := [];
    if key in pod.annotations && pod.annotations[key] != "" {
      var parts := Split(pod.annotations[key]);
      for i := 0 to |parts|
        invariant names == Kept(parts[..i])
      {
        assert parts[..i + 1] == parts[..i] + [parts[i]];
        KeptOfLonger(parts[..i], parts[i]);
        var name := TrimSpace(parts[i]);
        if name != "" {
          names := names + [name];
        }
      }
      assert parts[..|parts|] == parts;
    }
  }

  method ControllerRefsFor(namespace: string, names: seq<string>) returns (refs: seq<ControllerRef>)
    ensures refs == ControllerRefsIn(namespace, names)
  {
    refs := [];
    for i := 0 to |names|
      invariant |refs| == i && forall j :: 0 <= j < i ==> refs[j] == ControllerRef(namespace, names[j])
    {
      refs := refs + [ControllerRef(namespace, names[i])];
    }
  }

  method WebhookRefsFor(namespace: string, names: seq<string>, isCluster: bool) returns (refs: seq<WebhookRef>)
    ensures refs == WebhookRefsIn(namespace, names, isCluster)
  {
    refs := [];
    for i := 0 to |names|
      invariant |refs| == i && forall j :: 0 <= j < i ==> refs[j] == WebhookRef(namespace, names[j], isCluster)
    {
      refs := refs + [WebhookRef(namespace, names[i], isCluster)];
    }
  }

  method ExtractForController(pod: Pod) returns (refs: seq<ControllerRef>)
    ensures refs == ControllerRefs(pod)
  {
    var names := ListNames(pod, SHARED_KEY);
    refs := ControllerRefsFor(pod.namespace, names);
    names := ListNames(pod, CLUSTER_KEY);
    var cluster := ControllerRefsFor(OPERATION_NAMESPACE, names);
    refs := refs + cluster;
  }

  method ExtractForWebhook(pod: Pod) returns (refs: seq<WebhookRef>)
    ensures refs == WebhookRefs(pod)
  {
    var names := ListNames(pod, SHARED_KEY);
    refs := WebhookRefsFor(pod.namespace, names, false);
    names := ListNames(pod, CLUSTER_KEY);
    var cluster := WebhookRefsFor("", names, true);
    refs := refs + cluster;
  }

  // ---------- is a volume in use? ----------

  /** A live pod uses what its annotations name. */
  predicate Uses(pod: Pod, ref: ControllerRef) {
    !pod.terminating && ref in ControllerRefs(pod)
  }

  predicate UsesName(pod: Pod, ref: ControllerRef) {
    && !pod.terminating
    && ((pod.namespace == ref.namespace && ref.name in Listed(pod, SHARED_KEY)) ||
        (ref.namespace == OPERATION_NAMESPACE && ref.name in Listed(pod, CLUSTER_KEY)))
  }

  lemma RefListedIff(namespace: string, names: seq<string>, ref: ControllerRef)
    ensures ref in ControllerRefsIn(namespace, names) <==> ref.namespace == namespace && ref.name in names
  {
    if ref.namespace == namespace && ref.name in names {
      var i :| 0 <= i < |names| && names[i] == ref.name;
      assert ControllerRefsIn(namespace, names)[i] == ref;
    }
  }

  lemma UsesByName(pod: Pod, ref: ControllerRef)
    ensures Uses(pod, ref) <==> UsesName(pod, ref)
  {
    RefListedIff(pod.namespace, Listed(pod, SHARED_KEY), ref);
    RefListedIff(OPERATION_NAMESPACE, Listed(pod, CLUSTER_KEY), ref);
  }

  /** One annotation: the name counts only if the namespaces fit. */
  method ScanNames(names: seq<string>, sameNamespace: bool, name: string) returns (found: bool)
    ensures found <==> sameNamespace && name in names
  {
    for i := 0 to |names|
      invariant forall j :: 0 <= j < i ==> !(sameNamespace && names[j] == name)
    {
      if sameNamespace && names[i] == name {
        return true;
      }
    }
    return false;
  }

  method ScanPod(pod: Pod, ref: ControllerRef) returns (using: bool)
    ensures using <==> UsesName(pod, ref)
  {
    if pod.terminating {
      return false;
    }
    var shared := ListNames(pod, SHARED_KEY);
    using := ScanNames(shared, pod.namespace == ref.namespace, ref.name);
    if !using {
      var cluster := ListNames(pod, CLUSTER_KEY);
      using := ScanNames(cluster, ref.namespace == OPERATION_NAMESPACE, ref.name);
    }
  }

  method IsPodUsingVolumeByRef(pod: Pod, ref: ControllerRef) returns (using: bool)
    ensures using <==> Uses(pod, ref)
  {
    using := ScanPod(pod, ref);
    UsesByName(pod, ref);
  }

  ghost predicate InUse(pods: seq<Pod>, ref: ControllerRef) {
    exists p :: p in pods && Uses(p, ref)
  }

  lemma InUseOneMore(pods: seq<Pod>, i: nat, ref: ControllerRef)
    requires i < |pods|
    ensures InUse(pods[..i + 1], ref) <==> InUse(pods[..i], ref) || Uses(pods[i], ref)
    ensures InUse(pods[..i + 1], ref) ==> InUse(pods, ref)
  {
    assert pods[..i + 1] == pods[..i] + [pods[i]];
  }

  /** A pod outside the namespace of a reference cannot use it, unless it names a cluster volume. */
  lemma UnusedElsewhere(pod: Pod, ref: ControllerRef)
    requires ref.namespace != OPERATION_NAMESPACE && pod.namespace != ref.namespace
    ensures !Uses(pod, ref)
  {
    UsesByName(pod, ref);
  }

  /** Whether the pod is listed at all for this reference, and uses it. */
  method IsListedPodUsing(pod: Pod, ref: ControllerRef) returns (using: bool)
    ensures using <==> Uses(pod, ref)
  {
    if ref.namespace != OPERATION_NAMESPACE && pod.namespace != ref.namespace {
      UnusedElsewhere(pod, ref);
      return false;
    }
    using := IsPodUsingVolumeByRef(pod, ref);
  }

  /**
   Lists the namespace of the reference only, or every namespace for a cluster volume; a list that
   fails gives no answer.
   */
  method IsVolumeStillInUseByRef(pods: Option<seq<Pod>>, ref: ControllerRef) returns (inUse: Option<bool>)
    ensures inUse == if pods.None? then None else Some(InUse(pods.value, ref))
  {
    if pods.None? {
      return None;
    }
    for i := 0 to |pods.value|
      invariant !InUse(pods.value[..i], ref)
    {
      InUseOneMore(pods.value, i, ref);
      var using := IsListedPodUsing(pods.value[i], ref);
      if using {
        return Some(true);
      }
    }
    assert pods.value[..|pods.value|] == pods.value;
    return Some(false);
  }

  predicate SameVolume(a: WebhookRef, b: WebhookRef) {
    a.isCluster == b.isCluster && a.name == b.name && (b.isCluster || a.namespace == b.namespace)
  }

  predicate IsPod(p: Pod, other: Pod) {
    p.name == other.name && p.namespace == other.namespace
  }

  ghost predicate NamedBy(p: Pod, ref: WebhookRef) {
    exists r :: r in WebhookRefs(p) && SameVolume(r, ref)
  }

  ghost predicate InUseByOthers(pods: seq<Pod>, ref: WebhookRef, deleting: Pod) {
    exists p :: p in pods && !IsPod(p, deleting) && !p.terminating && NamedBy(p, ref)
  }

  method NamesVolume(pod: Pod, ref: WebhookRef) returns (names: bool)
    ensures names <==> NamedBy(pod, ref)
  {
    var refs := ExtractForWebhook(pod);
    for j := 0 to |refs|
      invariant forall k :: 0 <= k < j ==> !SameVolume(refs[k], ref)
    {
      if refs[j].isCluster == ref.isCluster && refs[j].name == ref.name {
        if !ref.isCluster && refs[j].namespace != ref.namespace {
          continue;
        }
        assert SameVolume(refs[j], ref);
        return true;
      }
    }
    return false;
  }

  method IsVolumeStillInUseByOtherPods(pods: Option<seq<Pod>>, ref: WebhookRef, deleting: Pod)
    returns (inUse: Option<bool>)
    ensures inUse == if pods.None? then None else Some(InUseByOthers(pods.value, ref, deleting))
  {
    if pods.None? {
      return None;
    }
    for i := 0 to |pods.value|
      invariant forall p :: p in pods.value[..i] ==> IsPod(p, deleting) || p.terminating || !NamedBy(p, ref)
    {
      if IsPod(pods.value[i], deleting) || pods.value[i].terminating {
        continue;
      }
      var names := NamesVolume(pods.value[i], ref);
      if names {
        return Some(true);
      }
    }
    assert pods.value[..|pods.value|] == pods.value;
    return Some(false);
  }

  predicate ListsName(p: Pod, ref: WebhookRef) {
    if ref.isCluster then ref.name in Listed(p, CLUSTER_KEY)
    else p.namespace == ref.namespace && ref.name in Listed(p, SHARED_KEY)
  }

  lemma NamedByName(p: Pod, ref: WebhookRef)
    requires ref.isCluster ==> ref.namespace == ""
    ensures NamedBy(p, ref) <==> ListsName(p, ref)
  {
    var shared, cluster := Listed(p, SHARED_KEY), Listed(p, CLUSTER_KEY);
    var a, b := WebhookRefsIn(p.namespace, shared, false), WebhookRefsIn("", cluster, true);
    if ref.isCluster && ref.name in cluster {
      var i :| 0 <= i < |cluster| && cluster[i] == ref.name;
      assert b[i] == ref && (a + b)[|a| + i] == ref;
      assert ref in WebhookRefs(p) && SameVolume(ref, ref);
    }
    if !ref.isCluster && p.namespace == ref.namespace && ref.name in shared {
      var i :| 0 <= i < |shared| && shared[i] == ref.name;
      assert a[i] == ref && (a + b)[i] == ref;
      assert ref in WebhookRefs(p) && SameVolume(ref, ref);
    }
  }

  ghost predicate LivePodLists(pods: seq<Pod>, key: string, name: string, inOperationNamespace: bool) {
    exists p :: p in pods && !p.terminating && name in Listed(p, key) &&
      (inOperationNamespace ==> p.namespace == OPERATION_NAMESPACE)
  }

  /**
   Where the controller's scan says "in use" and the webhook's does not: in the operation namespace a
   SharedVolume and a ClusterSharedVolume of one name are the same thing to the controller.
   */
  ghost predicate KindsConfused(pods: seq<Pod>, ref: WebhookRef) {
    if ref.isCluster then
      LivePodLists(pods, SHARED_KEY, ref.name, true) && !LivePodLists(pods, CLUSTER_KEY, ref.name, false)
    else
      ref.namespace == OPERATION_NAMESPACE &&
      LivePodLists(pods, CLUSTER_KEY, ref.name, false) && !LivePodLists(pods, SHARED_KEY, ref.name, true)
  }

  /** The i-th reference of a terminating pod: both scans agree unless the kinds are confused. */
  lemma ScansAgreeIff(pods: seq<Pod>, deleting: Pod, i: nat)
    requires forall p :: p in pods && IsPod(p, deleting) ==> p.terminating
    requires i < |WebhookRefs(deleting)|
    ensures |ControllerRefs(deleting)| == |WebhookRefs(deleting)|
    ensures (InUse(pods, ControllerRefs(deleting)[i]) <==> InUseByOthers(pods, WebhookRefs(deleting)[i], deleting)) <==>
      !KindsConfused(pods, WebhookRefs(deleting)[i])
    ensures InUseByOthers(pods, WebhookRefs(deleting)[i], deleting) ==> InUse(pods, ControllerRefs(deleting)[i])
  {
    var c, w := ControllerRefs(deleting)[i], WebhookRefs(deleting)[i];
    forall p: Pod
      ensures Uses(p, c) <==> UsesName(p, c)
      ensures NamedBy(p, w) <==> ListsName(p, w)
    {
      UsesByName(p, c);
      NamedByName(p, w);
    }
    var confusable := if w.isCluster then LivePodLists(pods, SHARED_KEY, w.name, true)
                      else w.namespace == OPERATION_NAMESPACE && LivePodLists(pods, CLUSTER_KEY, w.name, false);
    assert InUseByOthers(pods, w, deleting) <==> exists p :: p in pods && !p.terminating && NamedBy(p, w);
    assert InUse(pods, c) <==> InUseByOthers(pods, w, deleting) || confusable;
  }

  /** With no pod in the operation namespace the two scans always agree. */
  lemma ScansAgree(pods: seq<Pod>, deleting: Pod, i: nat)
    requires forall p :: p in pods && IsPod(p, deleting) ==> p.terminating
    requires deleting.namespace != OPERATION_NAMESPACE
    requires forall p :: p in pods ==> p.namespace != OPERATION_NAMESPACE
    requires i < |WebhookRefs(deleting)|
    ensures |ControllerRefs(deleting)| == |WebhookRefs(deleting)|
    ensures InUse(pods, ControllerRefs(deleting)[i]) <==> InUseByOthers(pods, WebhookRefs(deleting)[i], deleting)
  {
    ScansAgreeIff(pods, deleting, i);
  }
}
