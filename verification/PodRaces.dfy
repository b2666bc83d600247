/**
 The pod volume protocol without the two steps that PodProtocol takes at once: a deletion is carried
 out some time after the scan that decided it, and an admitted pod is stored some time after the
 answer. Both are remembered in between, with what has happened since that can matter to them.
 */
module PodRaces {
  import opened Common
  import opened VolumeTypes
  import opened PodAnnotations
  import opened PodMutation
  import opened PodProtocol

  /** A pair that a scan has decided to delete, and the keys of the pods that were stored since. */
  datatype Decision = Decision(reference: string, namespace: string, stored: set<Key>)

  /**
   A pod whose admission is answered, what was stored in its place then, and the claims that were
   deleted since and have not been made anew.
   */
  datatype Answered = Answered(pod: Pod, was: Option<Pod>, taken: set<Key>)

  datatype Race = Race(cl: Store, decided: map<nat, Decision>, answered: map<nat, Answered>)

  const REST := Race(EMPTY, map[], map[])

  datatype Event =
    | ControllerScans(id: nat, ref: ControllerRef, namespace: string)
    | WebhookScans(id: nat, named: WebhookRef, key: Key)
    | Deletes(id: nat, claim: Deletion, volume: Option<Deletion>)
    | Answers(id: nat, pod: Pod, isUpdate: bool)
    | AnswersPartly(pod: Pod, n: nat, half: bool)
    | Stores(id: nat)
    | Other(step: Step)

  function StoredUnder(cl: Store, key: Key): Option<Pod> {
    if key in cl.pods then Some(cl.pods[key]) else None
  }

  /** Neither admission nor cleanup. */
  predicate IsOther(step: Step) {
    step.MarkTerminating? || step.Vanish? || step.HoldClaim? || step.HoldVolume? || step.CreateShared? ||
    step.CreateCluster?
  }

  /** A scan decides only if it finds no live user; a pod is stored only over what its request was about. */
  ghost predicate Possible(y: Race, e: Event) {
    match e
    case ControllerScans(id, ref, _) =>
      id !in y.decided && ControllerSpec(y.cl, ref).Some? && !NamedByLivePod(y.cl, ref)
    case WebhookScans(id, ref, key) =>
      && id !in y.decided && key in y.cl.pods && y.cl.pods[key].terminating && ref in WebhookRefs(y.cl.pods[key])
      && WebhookSpec(y.cl, ref).Some? && !NamedByOtherPod(y.cl, ref, y.cl.pods[key])
    case Deletes(id, _, _) => id in y.decided
    case Answers(id, pod, isUpdate) => id !in y.answered && Enabled(y.cl, Admit(pod, isUpdate))
    case AnswersPartly(pod, n, half) => Enabled(y.cl, AdmitPartly(pod, n, half))
    case Stores(id) => id in y.answered && StoredUnder(y.cl, KeyOfPod(y.answered[id].pod)) == y.answered[id].was
    case Other(step) => IsOther(step) && Enabled(y.cl, step)
  }

  /** Claims that were made anew are there again. */
  function Remade(answered: map<nat, Answered>, a: Store, b: Store): map<nat, Answered> {
    map id | id in answered :: answered[id].(taken := answered[id].taken - (b.claims.Keys - a.claims.Keys))
  }

  ghost function AnswerStored(y: Race, id: nat, pod: Pod, isUpdate: bool): Race {
    var (c, response) := Handled(y.cl, pod, isUpdate);
    var rest := Remade(y.answered, y.cl, c);
    var was := StoredUnder(y.cl, KeyOfPod(pod));
    match response
    case AllowedAsIs => Race(c, y.decided, rest[id := Answered(pod, was, {})])
    case Patched(p) => Race(c, y.decided, rest[id := Answered(p, was, {})])
    case _ => Race(c, y.decided, rest)
  }

  /** The claim goes, or is left terminating, or the call fails; then the volume, if it comes to that. */
  function PairDeleted(y: Race, id: nat, claim: Deletion, volume: Option<Deletion>): Race
    requires id in y.decided
  {
    var d := y.decided[id];
    var name := Joined(d.reference, d.namespace);
    Race(y.cl.(claims := Deleted(y.cl.claims, (d.namespace, name), claim),
               volumes := if volume.None? then y.cl.volumes else Deleted(y.cl.volumes, name, volume.value)),
         y.decided - {id},
         if claim.Untouched? then y.answered
         else map i | i in y.answered :: y.answered[i].(taken := y.answered[i].taken + {(d.namespace, name)}))
  }

  function PodStored(y: Race, id: nat): Race
    requires id in y.answered
  {
    var key := KeyOfPod(y.answered[id].pod);
    Race(y.cl.(pods := y.cl.pods[key := y.answered[id].pod]),
         map i | i in y.decided :: y.decided[i].(stored := y.decided[i].stored + {key}),
         y.answered - {id})
  }

  ghost function Happened(y: Race, e: Event): Race
    requires Possible(y, e)
  {
    match e
    case ControllerScans(id, ref, namespace) =>
      y.(decided := y.decided[id := Decision(ControllerSpec(y.cl, ref).value.referenceValue, namespace, {})])
    case WebhookScans(id, ref, key) =>
      var reference := WebhookSpec(y.cl, ref).value.referenceValue;
      y.(decided := y.decided[id := Decision(reference, y.cl.pods[key].namespace, {})])
    case Deletes(id, claim, volume) => PairDeleted(y, id, claim, volume)
    case Answers(id, pod, isUpdate) => AnswerStored(y, id, pod, isUpdate)
    case AnswersPartly(pod, n, half) =>
      var c := PartlyProcessed(y.cl, pod, WebhookRefs(pod), n, half);
      Race(c, y.decided, Remade(y.answered, y.cl, c))
    case Stores(id) => PodStored(y, id)
    case Other(step) => y.(cl := Next(y.cl, step))
  }

  /** An event that is not possible changes nothing. */
  ghost function After(events: seq<Event>): Race {
    if events == [] then REST
    else
      var y, e := After(events[..|events| - 1]), events[|events| - 1];
      if Possible(y, e) then Happened(y, e) else y
  }

  // ---------- what harms ----------

  /** A live pod of the namespace names the volume of this reference. */
  ghost predicate Needs(cl: Store, pod: Pod, reference: string, namespace: string) {
    !pod.terminating && pod.namespace == namespace &&
    exists w :: w in WebhookRefs(pod) && Carries(WebhookSpec(cl, w), reference)
  }

  /** A pod that was stored since the scan is live and needs what the scan decided to delete. */
  ghost predicate StoredSince(cl: Store, d: Decision) {
    exists k :: k in d.stored && k in cl.pods && Needs(cl, cl.pods[k], d.reference, d.namespace)
  }

  /** A claim that the pod names was deleted since its admission, and nobody has made it anew. */
  ghost predicate TakenSince(cl: Store, a: Answered) {
    exists w :: w in WebhookRefs(a.pod) && WebhookSpec(cl, w).Some? &&
      (a.pod.namespace, Joined(WebhookSpec(cl, w).value.referenceValue, a.pod.namespace)) in a.taken
  }

  ghost predicate Harms(y: Race, e: Event) {
    match e
    case Deletes(id, claim, _) => id in y.decided && !claim.Untouched? && StoredSince(y.cl, y.decided[id])
    case Stores(id) => id in y.answered && TakenSince(y.cl, y.answered[id])
    case _ => false
  }

  // ---------- what is remembered is right ----------

  /** Some stored volume has this reference. */
  ghost predicate Referenced(cl: Store, reference: string) {
    (exists at :: at in cl.shared && cl.shared[at].referenceValue == reference) ||
    (exists n :: n in cl.cluster && cl.cluster[n].referenceValue == reference)
  }

  /** Whoever needs the pair was stored after the scan. */
  ghost predicate Remembers(cl: Store, d: Decision) {
    && Referenced(cl, d.reference)
    && (forall k :: k in cl.pods && Needs(cl, cl.pods[k], d.reference, d.namespace) ==> k in d.stored)
  }

  ghost predicate LiveClaim(cl: Store, key: Key) {
    key in cl.claims && cl.claims[key].Live?
  }

  ghost predicate Accounted(cl: Store, a: Answered, w: WebhookRef) {
    && WebhookSpec(cl, w).Some?
    && var key := (a.pod.namespace, Joined(WebhookSpec(cl, w).value.referenceValue, a.pod.namespace));
       LiveClaim(cl, key) || key in a.taken
  }

  /** Every claim that the admitted pod names is there, or was taken; what was taken is not there. */
  ghost predicate Accounts(cl: Store, a: Answered) {
    && !a.pod.terminating
    && (forall w :: w in WebhookRefs(a.pod) ==> Accounted(cl, a, w))
    && (forall key :: key in a.taken ==> !LiveClaim(cl, key))
  }

  ghost predicate Good(y: Race) {
    && Safe(y.cl)
    && (forall id :: id in y.decided ==> Remembers(y.cl, y.decided[id]))
    && (forall id :: id in y.answered ==> Accounts(y.cl, y.answered[id]))
  }

  ghost predicate SpecsStay(a: Store, b: Store) {
    && (forall at :: at in a.shared ==> at in b.shared && b.shared[at] == a.shared[at])
    && (forall n :: n in a.cluster ==> n in b.cluster && b.cluster[n] == a.cluster[n])
  }

  /** No pod of the second state needs more than it did, and nothing else can matter. */
  lemma RemembersStays(a: Store, b: Store, d: Decision)
    requires Remembers(a, d) && SpecsStay(a, b)
    requires forall k :: k in b.pods && Needs(b, b.pods[k], d.reference, d.namespace) ==>
      k in a.pods && Needs(a, a.pods[k], d.reference, d.namespace)
    ensures Remembers(b, d)
  {
    if at :| at in a.shared && a.shared[at].referenceValue == d.reference {
      assert at in b.shared && b.shared[at].referenceValue == d.reference;
    } else {
      var n :| n in a.cluster && a.cluster[n].referenceValue == d.reference;
      assert n in b.cluster && b.cluster[n].referenceValue == d.reference;
    }
  }

  lemma SamePodsNeedTheSame(a: Store, b: Store, d: Decision)
    requires Remembers(a, d) && b.shared == a.shared && b.cluster == a.cluster && b.pods == a.pods
    ensures Remembers(b, d)
  {
    forall k | k in b.pods && Needs(b, b.pods[k], d.reference, d.namespace)
      ensures Needs(a, a.pods[k], d.reference, d.namespace)
    {
      var w :| w in WebhookRefs(b.pods[k]) && Carries(WebhookSpec(b, w), d.reference);
      assert Carries(WebhookSpec(a, w), d.reference);
    }
    RemembersStays(a, b, d);
  }

  lemma AccountsStays(a: Store, b: Store, x: Answered)
    requires Accounts(a, x) && SpecsStay(a, b)
    requires forall key :: LiveClaim(b, key) <==> LiveClaim(a, key)
    ensures Accounts(b, x)
  {
    forall w | w in WebhookRefs(x.pod)
      ensures Accounted(b, x, w)
    {
      assert Accounted(a, x, w);
    }
  }

  // ---------- scans ----------

  /** A scan that finds no live user: nobody needs what it decides to delete. */
  lemma ControllerScanRemembers(cl: Store, ref: ControllerRef, namespace: string)
    requires Safe(cl) && ControllerSpec(cl, ref).Some? && !NamedByLivePod(cl, ref)
    ensures Remembers(cl, Decision(ControllerSpec(cl, ref).value.referenceValue, namespace, {}))
  {
    var reference := ControllerSpec(cl, ref).value.referenceValue;
    forall k | k in cl.pods && Needs(cl, cl.pods[k], reference, namespace)
      ensures false
    {
      var w :| w in WebhookRefs(cl.pods[k]) && Carries(WebhookSpec(cl, w), reference);
      SameReferenceIsSeen(cl, cl.pods[k], w, ref, w);
    }
  }

  lemma WebhookScanRemembers(cl: Store, ref: WebhookRef, key: Key)
    requires Safe(cl) && key in cl.pods && cl.pods[key].terminating
    requires WebhookSpec(cl, ref).Some? && !NamedByOtherPod(cl, ref, cl.pods[key])
    ensures Remembers(cl, Decision(WebhookSpec(cl, ref).value.referenceValue, cl.pods[key].namespace, {}))
  {
    var reference := WebhookSpec(cl, ref).value.referenceValue;
    forall k | k in cl.pods && Needs(cl, cl.pods[k], reference, cl.pods[key].namespace)
      ensures false
    {
      var w :| w in WebhookRefs(cl.pods[k]) && Carries(WebhookSpec(cl, w), reference);
      SameReferenceIsSeen(cl, cl.pods[k], w, ControllerRef("", ""), ref);
    }
  }

  // ---------- deletions ----------

  lemma DeletedIsServed(y: Race, id: nat, claim: Deletion, volume: Option<Deletion>, pod: Pod)
    requires id in y.decided && Served(y.cl, pod) && !pod.terminating
    requires claim.Untouched? || !Needs(y.cl, pod, y.decided[id].reference, y.decided[id].namespace)
    ensures Served(PairDeleted(y, id, claim, volume).cl, pod)
  {
    forall w | w in WebhookRefs(pod)
      ensures Claimed(PairDeleted(y, id, claim, volume).cl, pod, w)
    {
      assert Claimed(y.cl, pod, w);
      ClaimNamesUnique(WebhookSpec(y.cl, w).value.referenceValue, y.decided[id].reference, pod.namespace);
    }
  }

  lemma DeletedIsNotServed(y: Race, id: nat, claim: Deletion, volume: Option<Deletion>, pod: Pod)
    requires id in y.decided && !claim.Untouched?
    requires Needs(y.cl, pod, y.decided[id].reference, y.decided[id].namespace)
    ensures !Served(PairDeleted(y, id, claim, volume).cl, pod)
  {
    var w :| w in WebhookRefs(pod) && Carries(WebhookSpec(y.cl, w), y.decided[id].reference);
    assert !Claimed(PairDeleted(y, id, claim, volume).cl, pod, w);
  }

  /** A deletion leaves every live pod served exactly when no pod stored since its scan needs the claim. */
  lemma DeletionIff(y: Race, id: nat, claim: Deletion, volume: Option<Deletion>)
    requires Good(y) && id in y.decided
    ensures Safe(PairDeleted(y, id, claim, volume).cl) <==> claim.Untouched? || !StoredSince(y.cl, y.decided[id])
  {
    var d, out := y.decided[id], PairDeleted(y, id, claim, volume).cl;
    if !claim.Untouched? && StoredSince(y.cl, d) {
      var k :| k in d.stored && k in y.cl.pods && Needs(y.cl, y.cl.pods[k], d.reference, d.namespace);
      DeletedIsNotServed(y, id, claim, volume, y.cl.pods[k]);
      assert k in out.pods;
    } else {
      assert Remembers(y.cl, d);
      forall k | k in out.pods && !out.pods[k].terminating
        ensures Served(out, out.pods[k])
      {
        DeletedIsServed(y, id, claim, volume, y.cl.pods[k]);
      }
    }
  }

  lemma DeletedAccounts(y: Race, id: nat, claim: Deletion, volume: Option<Deletion>, i: nat)
    requires id in y.decided && i in y.answered && Accounts(y.cl, y.answered[i])
    ensures var y' := PairDeleted(y, id, claim, volume); i in y'.answered && Accounts(y'.cl, y'.answered[i])
  {
    var y' := PairDeleted(y, id, claim, volume);
    forall w | w in WebhookRefs(y.answered[i].pod)
      ensures Accounted(y'.cl, y'.answered[i], w)
    {
      assert Accounted(y.cl, y.answered[i], w);
    }
  }

  lemma DeletedIsGood(y: Race, id: nat, claim: Deletion, volume: Option<Deletion>)
    requires Good(y) && id in y.decided && (claim.Untouched? || !StoredSince(y.cl, y.decided[id]))
    ensures Good(PairDeleted(y, id, claim, volume))
  {
    var y' := PairDeleted(y, id, claim, volume);
    DeletionIff(y, id, claim, volume);
    forall i | i in y'.decided
      ensures Remembers(y'.cl, y'.decided[i])
    {
      SamePodsNeedTheSame(y.cl, y'.cl, y.decided[i]);
    }
    forall i | i in y'.answered
      ensures Accounts(y'.cl, y'.answered[i])
    {
      DeletedAccounts(y, id, claim, volume, i);
    }
  }

  // ---------- admissions ----------

  /** What an admission makes: the claims there were stay, and new ones are live. */
  ghost predicate Makes(a: Store, b: Store) {
    && b.shared == a.shared && b.cluster == a.cluster && b.pods == a.pods
    && (forall k :: k in a.claims ==> k in b.claims && b.claims[k] == a.claims[k])
    && (forall k :: k in b.claims && k !in a.claims ==> b.claims[k].Live?)
  }

  lemma EnsuresMake(cl: Store, spec: VolumeSpec, namespace: string)
    ensures Makes(cl, EnsureVolume(cl, spec, namespace).0) && Makes(cl, EnsureClaim(cl, spec, namespace).0)
  {
  }

  lemma ProcessMakes(cl: Store, pod: Pod, ref: WebhookRef)
    ensures Makes(cl, Process(cl, pod, ref).0)
  {
    match WebhookSpec(cl, ref)
    case None =>
    case Some(spec) =>
      var made := EnsureVolume(cl, spec, pod.namespace).0;
      EnsuresMake(cl, spec, pod.namespace);
      EnsuresMake(made, spec, pod.namespace);
      assert Process(cl, pod, ref).0 in {made, EnsureClaim(made, spec, pod.namespace).0};
  }

  lemma {:induction false} ProcessAllMakes(cl: Store, pod: Pod, refs: seq<WebhookRef>)
    ensures Makes(cl, ProcessAll(cl, pod, refs).0)
  {
    if refs != [] {
      var front, last := refs[..|refs| - 1], refs[|refs| - 1];
      ProcessAllMakes(cl, pod, front);
      var (c, p, ok) := ProcessAll(cl, pod, front);
      if ok {
        ProcessMakes(c, p, last);
      }
    }
  }

  lemma PartlyMakes(cl: Store, pod: Pod, refs: seq<WebhookRef>, n: nat, half: bool)
    requires n <= |refs|
    ensures Makes(cl, PartlyProcessed(cl, pod, refs, n, half))
  {
    ProcessAllMakes(cl, pod, refs[..n]);
  }

  lemma RemadeAccounts(a: Store, b: Store, x: Answered)
    requires Makes(a, b) && Accounts(a, x)
    ensures Accounts(b, x.(taken := x.taken - (b.claims.Keys - a.claims.Keys)))
  {
    var x' := x.(taken := x.taken - (b.claims.Keys - a.claims.Keys));
    forall w | w in WebhookRefs(x'.pod)
      ensures Accounted(b, x', w)
    {
      assert Accounted(a, x, w);
    }
  }

  /** What an admission leaves beside the answer. */
  lemma MadeIsGood(y: Race, c: Store)
    requires Good(y) && Makes(y.cl, c)
    ensures Good(Race(c, y.decided, Remade(y.answered, y.cl, c)))
  {
    SafeInExtension(y.cl, c);
    forall i | i in y.decided
      ensures Remembers(c, y.decided[i])
    {
      SamePodsNeedTheSame(y.cl, c, y.decided[i]);
    }
    forall i | i in y.answered
      ensures Accounts(c, Remade(y.answered, y.cl, c)[i])
    {
      RemadeAccounts(y.cl, c, y.answered[i]);
    }
  }

  lemma ServedAccounts(cl: Store, pod: Pod, was: Option<Pod>)
    requires Served(cl, pod) && !pod.terminating
    ensures Accounts(cl, Answered(pod, was, {}))
  {
    forall w | w in WebhookRefs(pod)
      ensures Accounted(cl, Answered(pod, was, {}), w)
    {
      assert Claimed(cl, pod, w);
    }
  }

  /** An admission that is not turned down has seen to every claim. */
  lemma AdmittedIsServed(cl: Store, pod: Pod, isUpdate: bool)
    requires Safe(cl) && Enabled(cl, Admit(pod, isUpdate))
    ensures var (c, response) := Handled(cl, pod, isUpdate);
      && (response.AllowedAsIs? ==> Served(c, pod) && !pod.terminating)
      && (response.Patched? ==>
            Served(c, response.pod) && !response.pod.terminating && KeyOfPod(response.pod) == KeyOfPod(pod))
  {
    var refs := WebhookRefs(pod);
    var (c, response) := Handled(cl, pod, isUpdate);
    if response.AllowedAsIs? && isUpdate {
      SameClaims(cl, cl, cl.pods[KeyOfPod(pod)], pod);
    } else if response.Patched? {
      ProcessAllClaims(cl, pod, refs);
      SameClaims(c, c, pod, response.pod);
    }
  }

  lemma HandledMakes(cl: Store, pod: Pod, isUpdate: bool)
    ensures Makes(cl, Handled(cl, pod, isUpdate).0)
  {
    ProcessAllMakes(cl, pod, WebhookRefs(pod));
  }

  lemma AnsweredIsGood(y: Race, id: nat, pod: Pod, isUpdate: bool)
    requires Good(y) && Possible(y, Answers(id, pod, isUpdate))
    ensures Good(AnswerStored(y, id, pod, isUpdate))
  {
    var (c, response) := Handled(y.cl, pod, isUpdate);
    HandledMakes(y.cl, pod, isUpdate);
    MadeIsGood(y, c);
    AdmittedIsServed(y.cl, pod, isUpdate);
    var was := StoredUnder(y.cl, KeyOfPod(pod));
    if response.AllowedAsIs? {
      ServedAccounts(c, pod, was);
    } else if response.Patched? {
      ServedAccounts(c, response.pod, was);
    }
  }

  // ---------- storing ----------

  lemma StoredRemembers(y: Race, id: nat, i: nat)
    requires id in y.answered && i in y.decided && Remembers(y.cl, y.decided[i])
    ensures var y' := PodStored(y, id); i in y'.decided && Remembers(y'.cl, y'.decided[i])
  {
    var y', key := PodStored(y, id), KeyOfPod(y.answered[id].pod);
    var d := y.decided[i];
    forall k | k in y'.cl.pods && k != key && Needs(y'.cl, y'.cl.pods[k], d.reference, d.namespace)
      ensures k in d.stored
    {
      var w :| w in WebhookRefs(y'.cl.pods[k]) && Carries(WebhookSpec(y'.cl, w), d.reference);
      assert Carries(WebhookSpec(y.cl, w), d.reference);
      assert Needs(y.cl, y.cl.pods[k], d.reference, d.namespace);
    }
  }

  /** An admitted pod finds its claims exactly when none was taken since its admission. */
  lemma ServedIff(cl: Store, a: Answered)
    requires Accounts(cl, a)
    ensures Served(cl, a.pod) <==> !TakenSince(cl, a)
  {
    if TakenSince(cl, a) {
      var w :| w in WebhookRefs(a.pod) && WebhookSpec(cl, w).Some? &&
        (a.pod.namespace, Joined(WebhookSpec(cl, w).value.referenceValue, a.pod.namespace)) in a.taken;
      assert !Claimed(cl, a.pod, w);
    } else {
      forall w | w in WebhookRefs(a.pod)
        ensures Claimed(cl, a.pod, w)
      {
        assert Accounted(cl, a, w);
      }
    }
  }

  lemma StoringIff(y: Race, id: nat)
    requires Good(y) && id in y.answered
    ensures Safe(PodStored(y, id).cl) <==> !TakenSince(y.cl, y.answered[id])
  {
    var a, out := y.answered[id], PodStored(y, id).cl;
    assert Accounts(y.cl, a);
    ServedIff(y.cl, a);
    if Served(y.cl, a.pod) {
      StoredPodIsSafe(y.cl, a.pod);
    } else {
      SameClaims(out, y.cl, a.pod, a.pod);
      assert KeyOfPod(a.pod) in out.pods;
    }
  }

  lemma StoredIsGood(y: Race, id: nat)
    requires Good(y) && id in y.answered && !TakenSince(y.cl, y.answered[id])
    ensures Good(PodStored(y, id))
  {
    var y' := PodStored(y, id);
    StoringIff(y, id);
    forall i | i in y'.decided
      ensures Remembers(y'.cl, y'.decided[i])
    {
      StoredRemembers(y, id, i);
    }
    forall i | i in y'.answered
      ensures Accounts(y'.cl, y'.answered[i])
    {
      AccountsStays(y.cl, y'.cl, y.answered[i]);
    }
  }

  // ---------- everything else ----------

  ghost predicate SameNeeds(a: Store, b: Store, reference: string) {
    forall k, namespace :: k in b.pods && Needs(b, b.pods[k], reference, namespace) ==>
      k in a.pods && Needs(a, a.pods[k], reference, namespace)
  }

  lemma FewerNeed(a: Store, b: Store, reference: string)
    requires b.shared == a.shared && b.cluster == a.cluster
    requires forall k :: k in b.pods && !b.pods[k].terminating ==> k in a.pods && b.pods[k] == a.pods[k]
    ensures SameNeeds(a, b, reference)
  {
    forall k, namespace | k in b.pods && Needs(b, b.pods[k], reference, namespace)
      ensures k in a.pods && Needs(a, a.pods[k], reference, namespace)
    {
      var w :| w in WebhookRefs(b.pods[k]) && Carries(WebhookSpec(b, w), reference);
      assert Carries(WebhookSpec(a, w), reference);
    }
  }

  lemma NewReferenceIsOther(a: Store, b: Store, made: string, reference: string, w: WebhookRef)
    requires SpecsStay(a, b) && Referenced(a, reference) && Fresh(a, made)
    requires forall at :: at in b.shared && at !in a.shared ==> b.shared[at].referenceValue == made
    requires forall n :: n in b.cluster && n !in a.cluster ==> b.cluster[n].referenceValue == made
    ensures Carries(WebhookSpec(b, w), reference) ==> Carries(WebhookSpec(a, w), reference)
  {
  }

  /** A new volume has a reference that nobody has decided to delete. */
  lemma NewVolumeNeeds(a: Store, b: Store, made: string, reference: string)
    requires SpecsStay(a, b) && b.pods == a.pods && Referenced(a, reference) && Fresh(a, made)
    requires forall at :: at in b.shared && at !in a.shared ==> b.shared[at].referenceValue == made
    requires forall n :: n in b.cluster && n !in a.cluster ==> b.cluster[n].referenceValue == made
    ensures SameNeeds(a, b, reference)
  {
    forall k, namespace | k in b.pods && Needs(b, b.pods[k], reference, namespace)
      ensures Needs(a, a.pods[k], reference, namespace)
    {
      var w :| w in WebhookRefs(b.pods[k]) && Carries(WebhookSpec(b, w), reference);
      NewReferenceIsOther(a, b, made, reference, w);
    }
  }

  lemma CreatedNeeds(cl: Store, at: Key, name: string, spec: VolumeSpec, reference: string)
    requires Referenced(cl, reference) && Fresh(cl, spec.referenceValue)
    ensures at !in cl.shared ==>
      var b := cl.(shared := cl.shared[at := spec]); SpecsStay(cl, b) && SameNeeds(cl, b, reference)
    ensures name !in cl.cluster ==>
      var b := cl.(cluster := cl.cluster[name := spec]); SpecsStay(cl, b) && SameNeeds(cl, b, reference)
  {
    if at !in cl.shared {
      NewVolumeNeeds(cl, cl.(shared := cl.shared[at := spec]), spec.referenceValue, reference);
    }
    if name !in cl.cluster {
      NewVolumeNeeds(cl, cl.(cluster := cl.cluster[name := spec]), spec.referenceValue, reference);
    }
  }

  lemma OtherNeeds(cl: Store, step: Step, reference: string)
    requires IsOther(step) && Enabled(cl, step) && Referenced(cl, reference)
    ensures SpecsStay(cl, Next(cl, step)) && SameNeeds(cl, Next(cl, step), reference)
  {
    match step
    case CreateShared(at, spec) => CreatedNeeds(cl, at, "", spec, reference);
    case CreateCluster(name, spec) => CreatedNeeds(cl, ("", ""), name, spec, reference);
    case _ => FewerNeed(cl, Next(cl, step), reference);
  }

  lemma OtherClaims(cl: Store, step: Step)
    requires IsOther(step) && Enabled(cl, step)
    ensures SpecsStay(cl, Next(cl, step)) && forall key :: LiveClaim(Next(cl, step), key) <==> LiveClaim(cl, key)
  {
  }

  lemma OtherIsGood(y: Race, step: Step)
    requires Good(y) && IsOther(step) && Enabled(y.cl, step)
    ensures Good(y.(cl := Next(y.cl, step)))
  {
    StepIsSafe(y.cl, step);
    OtherClaims(y.cl, step);
    forall i | i in y.decided
      ensures Remembers(Next(y.cl, step), y.decided[i])
    {
      OtherNeeds(y.cl, step, y.decided[i].reference);
      RemembersStays(y.cl, Next(y.cl, step), y.decided[i]);
    }
    forall i | i in y.answered
      ensures Accounts(Next(y.cl, step), y.answered[i])
    {
      AccountsStays(y.cl, Next(y.cl, step), y.answered[i]);
    }
  }

  // ---------- over all runs ----------

  lemma HarmlessIsGood(y: Race, e: Event)
    requires Good(y) && Possible(y, e) && !Harms(y, e)
    ensures Good(Happened(y, e))
  {
    match e
    case ControllerScans(_, ref, namespace) => ControllerScanRemembers(y.cl, ref, namespace);
    case WebhookScans(_, ref, key) => WebhookScanRemembers(y.cl, ref, key);
    case Deletes(id, claim, volume) => DeletedIsGood(y, id, claim, volume);
    case Answers(id, pod, isUpdate) => AnsweredIsGood(y, id, pod, isUpdate);
    case AnswersPartly(pod, n, half) =>
      PartlyMakes(y.cl, pod, WebhookRefs(pod), n, half);
      MadeIsGood(y, PartlyProcessed(y.cl, pod, WebhookRefs(pod), n, half));
    case Stores(id) => StoredIsGood(y, id);
    case Other(step) => OtherIsGood(y, step);
  }

  lemma HarmIsUnsafe(y: Race, e: Event)
    requires Good(y) && Possible(y, e) && Harms(y, e)
    ensures !Safe(Happened(y, e).cl)
  {
    if e.Deletes? {
      DeletionIff(y, e.id, e.claim, e.volume);
    } else {
      StoringIff(y, e.id);
    }
  }

  ghost predicate SafeAt(events: seq<Event>, i: nat)
    requires i <= |events|
  {
    Safe(After(events[..i]).cl)
  }

  ghost predicate HarmsAt(events: seq<Event>, i: nat)
    requires i < |events|
  {
    Possible(After(events[..i]), events[i]) && Harms(After(events[..i]), events[i])
  }

  lemma NextIsSafeIff(events: seq<Event>, i: nat)
    requires i < |events| && Good(After(events[..i]))
    ensures SafeAt(events, i + 1) <==> !HarmsAt(events, i)
    ensures !HarmsAt(events, i) ==> Good(After(events[..i + 1]))
  {
    var y := After(events[..i]);
    assert events[..i + 1][..i] == events[..i];
    if HarmsAt(events, i) {
      HarmIsUnsafe(y, events[i]);
    } else if Possible(y, events[i]) {
      HarmlessIsGood(y, events[i]);
    }
  }

  lemma {:induction false} GoodUpTo(events: seq<Event>, i: nat)
    requires i <= |events|
    requires (forall j :: 0 <= j < i ==> !HarmsAt(events, j)) || (forall j :: 0 <= j <= i ==> SafeAt(events, j))
    ensures Good(After(events[..i]))
  {
    if i > 0 {
      GoodUpTo(events, i - 1);
      NextIsSafeIff(events, i - 1);
    }
  }

  /**
   Without the two atomic steps, every live pod keeps its claims throughout a run exactly when no
   deletion is carried out while a pod that was stored since its scan needs the claim, and no pod is
   stored of which a claim was deleted since its admission and not made anew.
   */
  lemma SafeThroughoutIff(events: seq<Event>)
    ensures (forall i :: 0 <= i <= |events| ==> SafeAt(events, i)) <==>
      (forall i :: 0 <= i < |events| ==> !HarmsAt(events, i))
  {
    if forall i :: 0 <= i <= |events| ==> SafeAt(events, i) {
      forall i | 0 <= i < |events|
        ensures !HarmsAt(events, i)
      {
        GoodUpTo(events, i);
        NextIsSafeIff(events, i);
        assert SafeAt(events, i + 1);
      }
    } else if forall i :: 0 <= i < |events| ==> !HarmsAt(events, i) {
      forall i | 0 <= i <= |events|
        ensures SafeAt(events, i)
      {
        GoodUpTo(events, i);
      }
    }
  }

  // ---------- what nothing interrupts ----------

  /** A scan and the deletion it decided, with nothing in between, are one cleanup of PodProtocol. */
  lemma ScanAndDeletionAreOneStep(y: Race, id: nat, ref: ControllerRef, namespace: string, claim: Deletion,
                                  volume: Deletion)
    requires Possible(y, ControllerScans(id, ref, namespace))
    ensures var scanned := Happened(y, ControllerScans(id, ref, namespace));
      var second := if claim.Gone? then Some(volume) else None;
      Possible(scanned, Deletes(id, claim, second)) &&
      Happened(scanned, Deletes(id, claim, second)).cl == Next(y.cl, ControllerCleanup(ref, namespace, claim, volume))
  {
  }

  lemma DeletionIsPair(y: Race, id: nat, spec: VolumeSpec, claim: Deletion, volume: Deletion, goOn: bool)
    requires id in y.decided && y.decided[id].reference == spec.referenceValue
    ensures PairDeleted(y, id, claim, if goOn then Some(volume) else None).cl ==
      DeletePair(y.cl, spec, y.decided[id].namespace, claim, volume, goOn)
  {
  }

  lemma WebhookScanAndDeletionAreOneStep(y: Race, id: nat, named: WebhookRef, key: Key, claimFails: bool,
                                         volumeFails: bool)
    requires Possible(y, WebhookScans(id, named, key))
    ensures var scanned := Happened(y, WebhookScans(id, named, key));
      var name := Joined(WebhookSpec(y.cl, named).value.referenceValue, y.cl.pods[key].namespace);
      var claim := PlainDeletion(y.cl.claims, (y.cl.pods[key].namespace, name), claimFails);
      var volume := PlainDeletion(y.cl.volumes, name, volumeFails);
      && Possible(scanned, Deletes(id, claim, if !claimFails then Some(volume) else None))
      && Happened(scanned, Deletes(id, claim, if !claimFails then Some(volume) else None)).cl ==
           CleanedByWebhook(y.cl, named, y.cl.pods[key], claimFails, volumeFails)
  {
    var spec, namespace := WebhookSpec(y.cl, named).value, y.cl.pods[key].namespace;
    var name := Joined(spec.referenceValue, namespace);
    DeletionIsPair(Happened(y, WebhookScans(id, named, key)), id, spec,
                   PlainDeletion(y.cl.claims, (namespace, name), claimFails),
                   PlainDeletion(y.cl.volumes, name, volumeFails), !claimFails);
  }

  /** So are an admission and the storing of the pod. */
  lemma AdmissionAndStoringAreOneStep(y: Race, id: nat, pod: Pod, isUpdate: bool)
    requires Possible(y, Answers(id, pod, isUpdate)) && !Handled(y.cl, pod, isUpdate).1.Denied?
    requires !Handled(y.cl, pod, isUpdate).1.Errored?
    ensures var answered := Happened(y, Answers(id, pod, isUpdate));
      Possible(answered, Stores(id)) && Happened(answered, Stores(id)).cl == Next(y.cl, Admit(pod, isUpdate))
  {
    HandledMakes(y.cl, pod, isUpdate);
    ProcessAllClaims(y.cl, pod, WebhookRefs(pod));
  }

  // ---------- both harms, for all inputs ----------

  /** A deletion and a pod that needs the claim are both still to come. */
  ghost predicate BothToCome(y: Race, id: nat, at: nat) {
    && id in y.decided && Possible(y, Stores(at))
    && Needs(y.cl, y.answered[at].pod, y.decided[id].reference, y.decided[id].namespace)
    && !StoredSince(y.cl, y.decided[id]) && !TakenSince(y.cl, y.answered[at])
  }

  lemma StoringNeeds(y: Race, id: nat, at: nat)
    requires id in y.decided && at in y.answered
    requires Needs(y.cl, y.answered[at].pod, y.decided[id].reference, y.decided[id].namespace)
    ensures var stored := PodStored(y, at); id in stored.decided && StoredSince(stored.cl, stored.decided[id])
  {
    var stored, key := PodStored(y, at), KeyOfPod(y.answered[at].pod);
    var d := stored.decided[id];
    var w :| w in WebhookRefs(y.answered[at].pod) && Carries(WebhookSpec(y.cl, w), d.reference);
    assert Carries(WebhookSpec(stored.cl, w), d.reference);
    assert key in d.stored && Needs(stored.cl, stored.cl.pods[key], d.reference, d.namespace);
  }

  lemma StoredThenDeleted(y: Race, id: nat, at: nat, claim: Deletion, volume: Option<Deletion>)
    requires Good(y) && BothToCome(y, id, at) && !claim.Untouched?
    ensures var stored := PodStored(y, at);
      Safe(stored.cl) && id in stored.decided && !Safe(PairDeleted(stored, id, claim, volume).cl)
  {
    StoredIsGood(y, at);
    StoringNeeds(y, id, at);
    DeletionIff(PodStored(y, at), id, claim, volume);
  }

  lemma DeletionTakes(y: Race, id: nat, at: nat, claim: Deletion, volume: Option<Deletion>)
    requires id in y.decided && at in y.answered && !claim.Untouched?
    requires Needs(y.cl, y.answered[at].pod, y.decided[id].reference, y.decided[id].namespace)
    ensures var deleted := PairDeleted(y, id, claim, volume);
      at in deleted.answered && TakenSince(deleted.cl, deleted.answered[at])
  {
    var deleted, d := PairDeleted(y, id, claim, volume), y.decided[id];
    var a := deleted.answered[at];
    var w :| w in WebhookRefs(a.pod) && Carries(WebhookSpec(y.cl, w), d.reference);
    assert WebhookSpec(deleted.cl, w) == WebhookSpec(y.cl, w);
    assert (d.namespace, Joined(d.reference, d.namespace)) in a.taken;
  }

  lemma DeletedThenStored(y: Race, id: nat, at: nat, claim: Deletion, volume: Option<Deletion>)
    requires Good(y) && BothToCome(y, id, at) && !claim.Untouched?
    ensures var deleted := PairDeleted(y, id, claim, volume);
      Safe(deleted.cl) && Possible(deleted, Stores(at)) && !Safe(PodStored(deleted, at).cl)
  {
    DeletedIsGood(y, id, claim, volume);
    DeletionTakes(y, id, at, claim, volume);
    StoringIff(PairDeleted(y, id, claim, volume), at);
  }

  /** The failing inputs: whichever of the two comes first, the second harms. */
  lemma SecondOneHarms(y: Race, id: nat, at: nat, claim: Deletion, volume: Option<Deletion>)
    requires Good(y) && BothToCome(y, id, at) && !claim.Untouched?
    ensures var stored := Happened(y, Stores(at));
      Safe(stored.cl) && Possible(stored, Deletes(id, claim, volume)) &&
      !Safe(Happened(stored, Deletes(id, claim, volume)).cl)
    ensures Possible(y, Deletes(id, claim, volume))
    ensures var deleted := Happened(y, Deletes(id, claim, volume));
      Safe(deleted.cl) && Possible(deleted, Stores(at)) && !Safe(Happened(deleted, Stores(at)).cl)
  {
    StoredThenDeleted(y, id, at, claim, volume);
    DeletedThenStored(y, id, at, claim, volume);
  }

  lemma AnswerNeeds(y: Race, at: nat, pod: Pod, w: WebhookRef, reference: string)
    requires Handled(y.cl, pod, false).1.Patched? && !pod.terminating
    requires w in WebhookRefs(pod) && Carries(WebhookSpec(y.cl, w), reference)
    ensures var a := AnswerStored(y, at, pod, false);
      && at in a.answered && a.decided == y.decided && a.cl.pods == y.cl.pods && a.answered[at].taken == {}
      && a.answered[at].was == StoredUnder(y.cl, KeyOfPod(a.answered[at].pod))
      && Needs(a.cl, a.answered[at].pod, reference, pod.namespace)
  {
    var a := AnswerStored(y, at, pod, false);
    ProcessAllClaims(y.cl, pod, WebhookRefs(pod));
    assert WebhookRefs(a.answered[at].pod) == WebhookRefs(pod);
    assert WebhookSpec(a.cl, w) == WebhookSpec(y.cl, w);
  }

  /** Such a state arises when a pod is admitted after the scan that finds no user of its volume. */
  lemma AdmittedAfterScan(y: Race, id: nat, at: nat, pod: Pod, w: WebhookRef)
    requires Good(y) && id in y.decided && y.decided[id].stored == {}
    requires Possible(y, Answers(at, pod, false)) && Handled(y.cl, pod, false).1.Patched?
    requires w in WebhookRefs(pod) && y.decided[id].namespace == pod.namespace
    requires Carries(WebhookSpec(y.cl, w), y.decided[id].reference)
    ensures Good(Happened(y, Answers(at, pod, false))) && BothToCome(Happened(y, Answers(at, pod, false)), id, at)
  {
    AnsweredIsGood(y, at, pod, false);
    AnswerNeeds(y, at, pod, w, y.decided[id].reference);
  }
}
