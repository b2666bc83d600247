/** Concrete runs of the pod volume protocol: SharedVolume "team/data" and the pod "team/web" that names it. */
module PodExamples {
  import opened Common
  import opened VolumeTypes
  import opened PodAnnotations
  import opened PodMutation
  import opened PodProtocol
  import FinalizerRemoval
  import PodLeaks
  import PodRaces

  const REFERENCE := "sv-abcdefghijkl"
  const AT: Key := ("team", "data")
  const NAME := Joined(REFERENCE, "team")
  const CLAIM: Key := ("team", NAME)
  const SPEC := VolumeSpec(Some(NfsServerSpec("nfs-" + REFERENCE, "team", "", "", "/")), "/data", "", "",
                           Some(StorageSpec("1Gi", "ReadWrite")), None, "", "team", REFERENCE)
  const POD := Pod("team", "web", map[SHARED_KEY := "data"], false, [], [], [])
  const NAMED := WebhookRef("team", "data", false)

  lemma DataIsListed()
    ensures Names("data") == ["data"]
  {
    PlainPadsItself("data");
    NamesOfJoin(["data"], ["data"]);
  }

  /** What a pod that lists this one name refers to. */
  lemma RefsOfOneName(pod: Pod)
    requires pod.namespace == "team" && Listed(pod, SHARED_KEY) == ["data"] && Listed(pod, CLUSTER_KEY) == []
    ensures WebhookRefs(pod) == [NAMED] && ControllerRefs(pod) == [ControllerRef("team", "data")]
  {
  }

  lemma PodNamesVolume()
    ensures Listed(POD, SHARED_KEY) == ["data"] && Listed(POD, CLUSTER_KEY) == []
    ensures WebhookRefs(POD) == [NAMED] && ControllerRefs(POD) == [ControllerRef("team", "data")]
  {
    DataIsListed();
    assert SHARED_KEY in POD.annotations && POD.annotations[SHARED_KEY] == "data";
    assert CLUSTER_KEY !in POD.annotations;
    RefsOfOneName(POD);
  }

  lemma FreshAtFirst()
    ensures Fresh(EMPTY, REFERENCE)
  {
  }

  /** The volume alone. */
  function Begun(): Store {
    EMPTY.(shared := map[AT := SPEC])
  }

  /** The pod as it is admitted. */
  function AdmittedPod(): Pod {
    WithFinalizer(WithVolume(POD, UseOf(SPEC)))
  }

  /** The volume with the pair that admission makes for the pod. */
  function Made(): Store {
    Begun().(claims := map[CLAIM := Live(false)], volumes := map[NAME := Live(false)])
  }

  lemma FirstAdmission()
    ensures Handled(Begun(), POD, false) == (Made(), Patched(AdmittedPod()))
  {
    PodNamesVolume();
    var cl := Begun();
    assert WebhookSpec(cl, NAMED) == Some(SPEC);
    assert PathsUnique(cl, [NAMED]);
    assert ProcessAll(cl, POD, [NAMED][..0]) == (cl, POD, true);
    assert EnsureVolume(cl, SPEC, "team").0.volumes == map[NAME := Live(false)];
    assert Process(cl, POD, NAMED) == (Made(), WithVolume(POD, UseOf(SPEC)), true);
  }

  lemma VolumeCreated()
    ensures Enabled(EMPTY, CreateShared(AT, SPEC)) && Next(EMPTY, CreateShared(AT, SPEC)) == Begun()
  {
    FreshAtFirst();
  }

  // ---------- a claim is left behind ----------

  const KEY: Key := ("team", "web")

  function WithPod(): Store {
    Made().(pods := map[KEY := AdmittedPod()])
  }

  function WithHeldClaim(): Store {
    WithPod().(claims := map[CLAIM := Live(true)])
  }

  function Leaving(): Store {
    WithHeldClaim().(pods := map[KEY := AdmittedPod().(terminating := true)])
  }

  /** What remains: the claim, being deleted, and nobody who names it. */
  function LeftBehind(): Store {
    Begun().(claims := map[CLAIM := Terminating])
  }

  lemma PodAdmitted()
    ensures Enabled(Begun(), Admit(POD, false)) && Next(Begun(), Admit(POD, false)) == WithPod()
  {
    FirstAdmission();
  }

  lemma PodMarked()
    ensures Next(WithPod(), HoldClaim(CLAIM, true)) == WithHeldClaim()
    ensures Next(WithHeldClaim(), MarkTerminating(KEY)) == Leaving()
  {
  }

  lemma LeavingPodNames()
    ensures WebhookRefs(Leaving().pods[KEY]) == [NAMED] && Listed(Leaving().pods[KEY], SHARED_KEY) == ["data"]
  {
    PodNamesVolume();
    assert Listed(Leaving().pods[KEY], SHARED_KEY) == Listed(POD, SHARED_KEY);
    assert Listed(Leaving().pods[KEY], CLUSTER_KEY) == Listed(POD, CLUSTER_KEY);
  }

  lemma PodLeaves()
    ensures Enabled(Leaving(), WebhookExit(KEY, false)) && Next(Leaving(), WebhookExit(KEY, false)) == LeftBehind()
  {
    LeavingPodNames();
    var pod := Leaving().pods[KEY];
    assert WebhookSpec(Leaving(), NAMED) == Some(SPEC);
    assert !NamedByOtherPod(Leaving(), NAMED, pod);
    assert CleanedAllByWebhook(Leaving(), [NAMED][..0], pod) == Leaving();
    var cleaned := LeftBehind().(pods := map[KEY := pod]);
    assert CleanedByWebhook(Leaving(), NAMED, pod, false, false) == cleaned;
    assert pod.finalizers == [POD_FINALIZER];
    assert FinalizerRemoval.Removed([POD_FINALIZER], POD_FINALIZER) == [];
  }

  lemma RunOne(steps: seq<Step>, step: Step)
    ensures Run(steps + [step]) == Next(Run(steps), step)
  {
    assert (steps + [step])[..|steps|] == steps;
  }

  lemma LeakBegins()
    ensures Run([CreateShared(AT, SPEC)]) == Begun()
    ensures Run([CreateShared(AT, SPEC)] + [Admit(POD, false)]) == WithPod()
  {
    assert [CreateShared(AT, SPEC)] == [] + [CreateShared(AT, SPEC)];
    RunOne([], CreateShared(AT, SPEC));
    VolumeCreated();
    RunOne([CreateShared(AT, SPEC)], Admit(POD, false));
    PodAdmitted();
  }

  lemma LeakGoesOn(b: seq<Step>)
    requires Run(b) == WithPod()
    ensures var d := b + [HoldClaim(CLAIM, true)] + [MarkTerminating(KEY)];
      Run(d) == Leaving() && Enabled(Run(d), WebhookExit(KEY, false)) &&
      Run(d + [WebhookExit(KEY, false)]) == LeftBehind()
  {
    var c := b + [HoldClaim(CLAIM, true)];
    RunOne(b, HoldClaim(CLAIM, true));
    RunOne(c, MarkTerminating(KEY));
    RunOne(c + [MarkTerminating(KEY)], WebhookExit(KEY, false));
    PodMarked();
    PodLeaves();
  }

  /** The pod is the last to hold the volume, and its claim has a finalizer. */
  lemma LeavingLeavesBehind()
    ensures PodLeaks.LeavesBehind(Leaving(), WebhookExit(KEY, false))
  {
    LeavingPodNames();
    PodLeaves();
    assert PodLeaks.LastHolderExits(Leaving(), KEY, AT) && PodLeaks.PairHasFinalizers(Leaving(), AT);
  }

  lemma LeftBehindIsUntidy()
    ensures !PodLeaks.Tidy(LeftBehind(), true)
  {
    assert PodLeaks.PairExists(LeftBehind(), AT, true) && !PodLeaks.HeldByStoredPod(LeftBehind(), AT);
  }

  lemma OrderlyOneMore(steps: seq<Step>, step: Step)
    requires PodLeaks.OrderlyRun(steps) && PodLeaks.Orderly(Run(steps), step)
    ensures PodLeaks.OrderlyRun(steps + [step])
  {
    var longer := steps + [step];
    forall i | 0 <= i < |longer|
      ensures PodLeaks.Orderly(Run(longer[..i]), longer[i])
    {
      assert longer[..i] == steps[..i];
      assert steps[..|steps|] == steps;
      assert i < |steps| ==> PodLeaks.Orderly(Run(steps[..i]), steps[i]);
    }
  }

  lemma PlainStepsAreOrderly(steps: seq<Step>, step: Step)
    requires PodLeaks.OrderlyRun(steps) && !step.Admit? && !step.AdmitPartly? && !step.Vanish?
    ensures PodLeaks.OrderlyRun(steps + [step])
  {
    OrderlyOneMore(steps, step);
  }

  lemma FirstStepsAreOrderly()
    ensures PodLeaks.OrderlyRun([CreateShared(AT, SPEC)] + [Admit(POD, false)])
  {
    assert [CreateShared(AT, SPEC)] == [] + [CreateShared(AT, SPEC)];
    PlainStepsAreOrderly([], CreateShared(AT, SPEC));
    LeakBegins();
    FirstAdmission();
    OrderlyOneMore([CreateShared(AT, SPEC)], Admit(POD, false));
  }

  lemma LeakIsOrderly(b: seq<Step>)
    requires PodLeaks.OrderlyRun(b)
    ensures PodLeaks.OrderlyRun(b + [HoldClaim(CLAIM, true)] + [MarkTerminating(KEY)] + [WebhookExit(KEY, false)])
  {
    PlainStepsAreOrderly(b, HoldClaim(CLAIM, true));
    PlainStepsAreOrderly(b + [HoldClaim(CLAIM, true)], MarkTerminating(KEY));
    PlainStepsAreOrderly(b + [HoldClaim(CLAIM, true)] + [MarkTerminating(KEY)], WebhookExit(KEY, false));
  }

  /**
   The failing input of strict tidiness: an orderly run in which the claim of the pod has a finalizer
   when the webhook deletes it.
   */
  lemma ClaimIsLeftBehind() returns (steps: seq<Step>)
    ensures PodLeaks.OrderlyRun(steps) && Run(steps) == LeftBehind() && !PodLeaks.Tidy(Run(steps), true)
    ensures |steps| == 5 && PodLeaks.LeavesBehindAt(steps, 4)
  {
    var a := [CreateShared(AT, SPEC)];
    var b := a + [Admit(POD, false)];
    var d := b + [HoldClaim(CLAIM, true)] + [MarkTerminating(KEY)];
    steps := d + [WebhookExit(KEY, false)];
    LeakBegins();
    LeakGoesOn(b);
    FirstStepsAreOrderly();
    LeakIsOrderly(b);
    LeavingLeavesBehind();
    LeftBehindIsUntidy();
    assert steps[..4] == d;
  }

  // ---------- a deletion and a pod that needs the claim are both to come ----------

  lemma AfterOne(events: seq<PodRaces.Event>, e: PodRaces.Event)
    requires PodRaces.Possible(PodRaces.After(events), e)
    ensures PodRaces.After(events + [e]) == PodRaces.Happened(PodRaces.After(events), e)
  {
    assert (events + [e])[..|events|] == events;
  }

  /** The state with the volume and a scan that has found it unused. */
  function Scanned(): PodRaces.Race {
    PodRaces.Race(Begun(), map[0 := PodRaces.Decision(REFERENCE, "team", {})], map[])
  }

  const CREATED := PodRaces.Other(CreateShared(AT, SPEC))
  const SCANNED := PodRaces.ControllerScans(0, ControllerRef("team", "data"), "team")
  const ANSWERED := PodRaces.Answers(1, POD, false)

  lemma ScanRuns()
    ensures PodRaces.After([CREATED]) == PodRaces.Race(Begun(), map[], map[])
    ensures PodRaces.After([CREATED] + [SCANNED]) == Scanned()
  {
    assert [CREATED] == [] + [CREATED];
    VolumeCreated();
    AfterOne([], CREATED);
    assert !NamedByLivePod(Begun(), ControllerRef("team", "data"));
    AfterOne([CREATED], SCANNED);
  }

  lemma ScannedIsGood()
    ensures PodRaces.Good(Scanned())
  {
    assert EMPTY.claims == map[];
    PodRaces.HarmlessIsGood(PodRaces.REST, CREATED);
    VolumeCreated();
    assert !NamedByLivePod(Begun(), ControllerRef("team", "data"));
    PodRaces.HarmlessIsGood(PodRaces.Race(Begun(), map[], map[]), SCANNED);
  }

  /** The run that leads to it, from the empty cluster: whichever comes second then harms. */
  lemma BothAreToCome()
    ensures var y := PodRaces.After([CREATED] + [SCANNED] + [ANSWERED]);
      PodRaces.Good(y) && PodRaces.BothToCome(y, 0, 1)
  {
    ScanRuns();
    ScannedIsGood();
    FirstAdmission();
    PodNamesVolume();
    AfterOne([CREATED] + [SCANNED], ANSWERED);
    assert WebhookSpec(Begun(), NAMED) == Some(SPEC);
    PodRaces.AdmittedAfterScan(Scanned(), 0, 1, POD, NAMED);
  }
}
