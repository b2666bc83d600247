/** What the validating webhook lets a volume's spec become. */
module UpdateAdmission {
  import opened Common
  import opened VolumeTypes
  import opened VolumeDefaults

  datatype FieldError = Required(field: string) | Invalid(field: string)

  function SourceCount(source: SourceSpec): nat {
    (if source.ssh then 1 else 0) + (if source.http then 1 else 0) +
    (if source.git then 1 else 0) + (if source.s3 then 1 else 0)
  }

  predicate SourceOk(source: Option<SourceSpec>) {
    source.None? || SourceCount(source.value) == 0 || (SourceCount(source.value) == 1 && source.value.fieldsValid)
  }

  predicate TimeoutBelowInterval(spec: VolumeSpec, parse: DurationParser) {
    && parse(spec.syncInterval).Some? && parse(spec.syncTimeout).Some?
    && parse(spec.syncTimeout).value < parse(spec.syncInterval).value
  }

  predicate SyncOk(spec: VolumeSpec, parse: DurationParser) {
    if spec.source.None? then spec.syncInterval == "" && spec.syncTimeout == ""
    else spec.syncInterval == "" || spec.syncTimeout == "" || TimeoutBelowInterval(spec, parse)
  }

  /** What a create must satisfy; every spec an update lets through satisfies it too. */
  predicate Admitted(spec: VolumeSpec, parse: DurationParser) {
    spec.mountPath != "" && SourceOk(spec.source) && SyncOk(spec, parse)
  }

  predicate StorageKept(before: Option<StorageSpec>, after: Option<StorageSpec>) {
    if before.None? && after.None? then true
    else if before.None? || after.None? then false
    else
      var accessModeEqual := before.value.accessMode == after.value.accessMode ||
                             (before.value.accessMode == "" && after.value.accessMode == "ReadOnly");
      before.value.capacity == after.value.capacity && accessModeEqual
  }

  predicate ServerKept(before: Option<NfsServerSpec>, after: Option<NfsServerSpec>) {
    if before.None? then true
    else if after.None? then false
    else
      var o, n := before.value, after.value;
      var urlEqual := o.url == n.url || (o.url == "" && n.url != "");
      var pathEqual := o.path == n.path || (o.path == "" && n.path == "/");
      o.name == n.name && o.namespace == n.namespace && urlEqual && o.image == n.image && pathEqual
  }

  predicate TextKept(before: string, after: string) {
    before == after || before == ""
  }

  /** The part of a spec that an update may only complete, never change. */
  datatype Frozen = Frozen(mountPath: string, storageClassName: string, resourceNamespace: string,
                           referenceValue: string, storage: Option<StorageSpec>, nfsServer: Option<NfsServerSpec>)

  function FrozenOf(spec: VolumeSpec): Frozen {
    Frozen(spec.mountPath, spec.storageClassName, spec.resourceNamespace, spec.referenceValue, spec.storage,
           spec.nfsServer)
  }

  predicate Completes(before: Frozen, after: Frozen) {
    && TextKept(before.mountPath, after.mountPath)
    && TextKept(before.storageClassName, after.storageClassName)
    && TextKept(before.resourceNamespace, after.resourceNamespace)
    && TextKept(before.referenceValue, after.referenceValue)
    && StorageKept(before.storage, after.storage)
    && ServerKept(before.nfsServer, after.nfsServer)
  }

  predicate UpdateAccepted(before: VolumeSpec, after: VolumeSpec, parse: DurationParser) {
    Admitted(after, parse) && Completes(FrozenOf(before), FrozenOf(after))
  }

  // ---------- the validators ----------

  method ValidateMandatoryFields(spec: VolumeSpec) returns (errs: seq<FieldError>)
    ensures errs == if spec.mountPath == "" then [Required("mountPath")] else []
  {
    errs := [];
    if spec.mountPath == "" {
      errs := errs + [Required("mountPath")];
    }
  }

  method ValidateSourceSpec(source: Option<SourceSpec>) returns (errs: seq<FieldError>)
    ensures errs == [] <==> SourceOk(source)
    ensures forall e :: e in errs ==> e == Invalid("source")
  {
    errs := [];
    if source.None? {
      return;
    }
    var sourceCount := 0;
    if source.value.ssh {
      sourceCount := sourceCount + 1;
    }
    if source.value.http {
      sourceCount := sourceCount + 1;
    }
    if source.value.git {
      sourceCount := sourceCount + 1;
    }
    if source.value.s3 {
      sourceCount := sourceCount + 1;
    }
    if sourceCount > 1 {
      errs := errs + [Invalid("source")];
      return;
    }
    if sourceCount > 0 && !source.value.fieldsValid {
      errs := errs + [Invalid("source")];
    }
  }

  method ValidateSyncConfig(spec: VolumeSpec, parse: DurationParser) returns (errs: seq<FieldError>)
    ensures errs == [] <==> SyncOk(spec, parse)
    ensures forall e :: e in errs ==> e == Invalid("syncInterval") || e == Invalid("syncTimeout")
  {
    errs := [];
    if spec.source.None? && (spec.syncInterval != "" || spec.syncTimeout != "") {
      if spec.syncInterval != "" {
        errs := errs + [Invalid("syncInterval")];
      }
      if spec.syncTimeout != "" {
        errs := errs + [Invalid("syncTimeout")];
      }
      return;
    }
    if spec.syncInterval == "" || spec.syncTimeout == "" {
      return;
    }
    var interval := parse(spec.syncInterval);
    if interval.None? {
      return [Invalid("syncInterval")];
    }
    var timeout := parse(spec.syncTimeout);
    if timeout.None? {
      return [Invalid("syncTimeout")];
    }
    if timeout.value >= interval.value {
      errs := errs + [Invalid("syncTimeout")];
    }
  }

  method ValidateVolumeSpec(spec: VolumeSpec, parse: DurationParser) returns (errs: seq<FieldError>)
    ensures errs == [] <==> Admitted(spec, parse)
    ensures Required("mountPath") in errs <==> spec.mountPath == ""
    ensures Invalid("source") in errs <==> !SourceOk(spec.source)
    ensures (Invalid("syncInterval") in errs || Invalid("syncTimeout") in errs) <==> !SyncOk(spec, parse)
    ensures forall e :: e in errs ==>
      e in {Required("mountPath"), Invalid("source"), Invalid("syncInterval"), Invalid("syncTimeout")}
  {
    var mandatory := ValidateMandatoryFields(spec);
    var source := ValidateSourceSpec(spec.source);
    errs := mandatory + source;
    if spec.source.Some? || spec.syncInterval != "" || spec.syncTimeout != "" {
      var sync := ValidateSyncConfig(spec, parse);
      if sync != [] {
        assert sync[0] in sync && sync[0] in errs + sync;
      }
      errs := errs + sync;
    }
    if source != [] {
      assert source[0] in source && source[0] in errs;
    }
  }

  method ValidateImmutableTexts(before: VolumeSpec, after: VolumeSpec) returns (errs: seq<FieldError>)
    ensures Invalid("mountPath") in errs <==> !TextKept(before.mountPath, after.mountPath)
    ensures Invalid("storageClassName") in errs <==> !TextKept(before.storageClassName, after.storageClassName)
    ensures Invalid("resourceNamespace") in errs <==> !TextKept(before.resourceNamespace, after.resourceNamespace)
    ensures Invalid("referenceValue") in errs <==> !TextKept(before.referenceValue, after.referenceValue)
    ensures forall e :: e in errs ==>
      e in {Invalid("mountPath"), Invalid("storageClassName"), Invalid("resourceNamespace"), Invalid("referenceValue")}
  {
    errs := [];
    if before.mountPath != after.mountPath && before.mountPath != "" {
      errs := errs + [Invalid("mountPath")];
    }
    if before.storageClassName != after.storageClassName && before.storageClassName != "" {
      errs := errs + [Invalid("storageClassName")];
    }
    if before.resourceNamespace != after.resourceNamespace && before.resourceNamespace != "" {
      errs := errs + [Invalid("resourceNamespace")];
    }
    if before.referenceValue != after.referenceValue && before.referenceValue != "" {
      errs := errs + [Invalid("referenceValue")];
    }
  }

  method ValidateImmutableFields(before: VolumeSpec, after: VolumeSpec) returns (errs: seq<FieldError>)
    ensures errs == [] <==> Completes(FrozenOf(before), FrozenOf(after))
    ensures Invalid("mountPath") in errs <==> !TextKept(before.mountPath, after.mountPath)
    ensures Invalid("storageClassName") in errs <==> !TextKept(before.storageClassName, after.storageClassName)
    ensures Invalid("resourceNamespace") in errs <==> !TextKept(before.resourceNamespace, after.resourceNamespace)
    ensures Invalid("referenceValue") in errs <==> !TextKept(before.referenceValue, after.referenceValue)
    ensures Invalid("storage") in errs <==> !StorageKept(before.storage, after.storage)
    ensures Invalid("nfsServer") in errs <==> !ServerKept(before.nfsServer, after.nfsServer)
    ensures forall e :: e in errs ==>
      e in {Invalid("mountPath"), Invalid("storageClassName"), Invalid("resourceNamespace"), Invalid("referenceValue"),
            Invalid("storage"), Invalid("nfsServer")}
  {
    errs := ValidateImmutableTexts(before, after);
    assert errs != [] ==> errs[0] in errs;
    if !StorageKept(before.storage, after.storage) {
      errs := errs + [Invalid("storage")];
    }
    if !ServerKept(before.nfsServer, after.nfsServer) {
      errs := errs + [Invalid("nfsServer")];
    }
  }

  /** Every frozen field that changes against the rules is reported, and nothing else is. */
  method ValidateVolumeObjectUpdate(before: VolumeSpec, after: VolumeSpec, parse: DurationParser)
    returns (errs: seq<FieldError>)
    ensures errs == [] <==> UpdateAccepted(before, after, parse)
    ensures Required("mountPath") in errs <==> after.mountPath == ""
    ensures Invalid("mountPath") in errs <==> !TextKept(before.mountPath, after.mountPath)
    ensures Invalid("storageClassName") in errs <==> !TextKept(before.storageClassName, after.storageClassName)
    ensures Invalid("resourceNamespace") in errs <==> !TextKept(before.resourceNamespace, after.resourceNamespace)
    ensures Invalid("referenceValue") in errs <==> !TextKept(before.referenceValue, after.referenceValue)
    ensures Invalid("storage") in errs <==> !StorageKept(before.storage, after.storage)
    ensures Invalid("nfsServer") in errs <==> !ServerKept(before.nfsServer, after.nfsServer)
    ensures Invalid("source") in errs <==> !SourceOk(after.source)
    ensures (Invalid("syncInterval") in errs || Invalid("syncTimeout") in errs) <==> !SyncOk(after, parse)
  {
    var admission := ValidateVolumeSpec(after, parse);
    var immutable := ValidateImmutableFields(before, after);
    errs := admission + immutable;
  }

  // ---------- the tests in plain terms ----------

  /** At most one kind of source, and a given one with valid fields; durations only with a source. */
  lemma AdmittedIff(spec: VolumeSpec, parse: DurationParser, ssh: bool, http: bool, git: bool, s3: bool, valid: bool)
    requires spec.mountPath != "" && (spec.source.Some? ==> spec.source.value == SourceSpec(ssh, http, git, s3, valid))
    ensures spec.source.None? ==> (Admitted(spec, parse) <==> spec.syncInterval == "" && spec.syncTimeout == "")
    ensures spec.source.Some? && (spec.syncInterval == "" || spec.syncTimeout == "") ==>
      (Admitted(spec, parse) <==>
       && !(ssh && http) && !(ssh && git) && !(ssh && s3) && !(http && git) && !(http && s3) && !(git && s3)
       && (ssh || http || git || s3 ==> valid))
  {
  }

  /** What an admitted update may change of a stored server: a missing URL to any, a missing path to "/". */
  lemma ServerChangesOnlyWhatIsMissing(a: Frozen, b: Frozen)
    requires a.nfsServer.Some? && Completes(a, b)
    ensures b.nfsServer.Some?
    ensures
      var o, n := a.nfsServer.value, b.nfsServer.value;
      && n == o.(url := n.url, path := n.path) && (o.url != "" ==> n.url == o.url)
      && n.path in {o.path, "/"} && (o.path != "" ==> n.path == o.path)
  {
  }

  /** Of the storage only a missing access mode changes, and only to ReadOnly. */
  lemma StorageChangesOnlyItsMode(a: Frozen, b: Frozen)
    ensures Completes(a, b) ==>
      b.storage == a.storage || (a.storage.Some? && a.storage.value.accessMode == "" &&
        b.storage == Some(a.storage.value.(accessMode := "ReadOnly")))
  {
  }

  // ---------- acceptance is a partial order of bounded height ----------

  lemma CompletesReflexive(a: Frozen)
    ensures Completes(a, a)
  {
  }

  lemma CompletesAntisymmetric(a: Frozen, b: Frozen)
    requires Completes(a, b) && Completes(b, a)
    ensures a == b
  {
  }

  lemma CompletesTransitive(a: Frozen, b: Frozen, c: Frozen)
    requires Completes(a, b) && Completes(b, c)
    ensures Completes(a, c)
  {
  }

  function Set(text: string): nat {
    if text == "" then 0 else 1
  }

  /** How much of the frozen part is fixed. */
  function Rank(f: Frozen): nat {
    Set(f.mountPath) + Set(f.storageClassName) + Set(f.resourceNamespace) + Set(f.referenceValue) +
    (if f.storage.None? then 0 else Set(f.storage.value.accessMode)) +
    (if f.nfsServer.None? then 0 else 1 + Set(f.nfsServer.value.url) + Set(f.nfsServer.value.path))
  }

  lemma RankGrows(a: Frozen, b: Frozen)
    requires Completes(a, b)
    ensures Rank(a) <= Rank(b) <= 8 && (a != b ==> Rank(a) < Rank(b))
  {
  }

  ghost predicate AdmittedRun(run: seq<VolumeSpec>, parse: DurationParser) {
    forall i :: 0 <= i < |run| - 1 ==> UpdateAccepted(run[i], run[i + 1], parse)
  }

  /** How many updates of the run change the frozen part. */
  ghost function Changes(run: seq<VolumeSpec>): nat {
    if |run| <= 1 then 0
    else
      var n := |run| - 1;
      Changes(run[..n]) + if FrozenOf(run[n - 1]) != FrozenOf(run[n]) then 1 else 0
  }

  lemma {:induction false} ChangesFollowRank(run: seq<VolumeSpec>, parse: DurationParser)
    requires run != [] && AdmittedRun(run, parse)
    ensures Changes(run) + Rank(FrozenOf(run[0])) <= Rank(FrozenOf(run[|run| - 1]))
  {
    if |run| > 1 {
      var n := |run| - 1;
      var front := run[..n];
      assert front[0] == run[0] && front[|front| - 1] == run[n - 1];
      assert AdmittedRun(front, parse) by {
        forall i | 0 <= i < |front| - 1
          ensures UpdateAccepted(front[i], front[i + 1], parse)
        {
          assert UpdateAccepted(run[i], run[i + 1], parse);
        }
      }
      ChangesFollowRank(front, parse);
      assert UpdateAccepted(run[n - 1], run[n - 1 + 1], parse);
      RankGrows(FrozenOf(run[n - 1]), FrozenOf(run[n]));
    }
  }

  lemma {:induction false} FirstCompletesLast(run: seq<VolumeSpec>, parse: DurationParser)
    requires run != [] && AdmittedRun(run, parse)
    ensures Completes(FrozenOf(run[0]), FrozenOf(run[|run| - 1]))
    ensures Changes(run) == 0 ==> FrozenOf(run[0]) == FrozenOf(run[|run| - 1])
  {
    if |run| > 1 {
      var n := |run| - 1;
      var front := run[..n];
      assert front[0] == run[0] && front[|front| - 1] == run[n - 1];
      assert AdmittedRun(front, parse) by {
        forall i | 0 <= i < |front| - 1
          ensures UpdateAccepted(front[i], front[i + 1], parse)
        {
          assert UpdateAccepted(run[i], run[i + 1], parse);
        }
      }
      FirstCompletesLast(front, parse);
      assert UpdateAccepted(run[n - 1], run[n - 1 + 1], parse);
      CompletesTransitive(FrozenOf(run[0]), FrozenOf(run[n - 1]), FrozenOf(run[n]));
    } else {
      CompletesReflexive(FrozenOf(run[0]));
    }
  }

  /** Any run of admitted updates changes the frozen part at most 8 times, 7 after an admitted create. */
  lemma FrozenChangesBounded(run: seq<VolumeSpec>, parse: DurationParser)
    requires run != [] && AdmittedRun(run, parse)
    ensures Changes(run) <= 8
    ensures Admitted(run[0], parse) ==> Changes(run) <= 7
    ensures Changes(run) == 0 <==> FrozenOf(run[0]) == FrozenOf(run[|run| - 1])
  {
    ChangesFollowRank(run, parse);
    FirstCompletesLast(run, parse);
    RankGrows(FrozenOf(run[0]), FrozenOf(run[|run| - 1]));
  }

  /** A spec with the first i completable fields set. */
  function Example(i: nat): VolumeSpec {
    var server := NfsServerSpec("nfs-0", "team", if i < 7 then "" else "nfs", "", if i < 8 then "" else "/");
    VolumeSpec(if i < 6 then None else Some(server), if i < 1 then "" else "/data", "", "",
               Some(StorageSpec("1Gi", if i < 5 then "" else "ReadOnly")), None,
               if i < 2 then "" else "fast", if i < 3 then "" else "team", if i < 4 then "" else "sv-0")
  }

  lemma ExampleStep(i: nat, parse: DurationParser)
    requires i < 8
    ensures UpdateAccepted(Example(i), Example(i + 1), parse) && FrozenOf(Example(i)) != FrozenOf(Example(i + 1))
  {
  }

  lemma GrowRun(run: seq<VolumeSpec>, next: VolumeSpec, parse: DurationParser) returns (longer: seq<VolumeSpec>)
    requires run != [] && AdmittedRun(run, parse) && UpdateAccepted(run[|run| - 1], next, parse)
    requires FrozenOf(run[|run| - 1]) != FrozenOf(next)
    ensures longer == run + [next] && longer[0] == run[0] && longer[|longer| - 1] == next
    ensures AdmittedRun(longer, parse) && Changes(longer) == Changes(run) + 1
  {
    longer := run + [next];
    assert longer[..|run|] == run;
    forall i | 0 <= i < |longer| - 1
      ensures UpdateAccepted(longer[i], longer[i + 1], parse)
    {
      assert i < |run| - 1 ==> UpdateAccepted(run[i], run[i + 1], parse);
    }
  }

  lemma {:induction false} ExampleRun(from: nat, to: nat, parse: DurationParser) returns (run: seq<VolumeSpec>)
    requires from <= to <= 8
    ensures |run| == to - from + 1 && run[0] == Example(from) && run[|run| - 1] == Example(to)
    ensures AdmittedRun(run, parse) && Changes(run) == to - from
  {
    if from == to {
      run := [Example(from)];
    } else {
      var shorter := ExampleRun(from, to - 1, parse);
      ExampleStep(to - 1, parse);
      run := GrowRun(shorter, Example(to), parse);
    }
  }

  /** Both bounds are reached: one field at a time. */
  lemma BoundsAreReached(parse: DurationParser)
    ensures exists run :: run != [] && AdmittedRun(run, parse) && Changes(run) == 8
    ensures exists run :: run != [] && Admitted(run[0], parse) && AdmittedRun(run, parse) && Changes(run) == 7
  {
    var longest := ExampleRun(0, 8, parse);
    var afterCreate := ExampleRun(1, 8, parse);
  }

  // ---------- the controller's own writes ----------

  ghost predicate FilledServer(before: Option<NfsServerSpec>, after: Option<NfsServerSpec>) {
    if before.None? || after.None? then before == after
    else after.value == before.value.(path := after.value.path) && ServerKept(before, after)
  }

  /** What defaulting does, as a relation: it only completes. */
  ghost predicate FilledFrom(spec: VolumeSpec, filled: VolumeSpec) {
    && filled == spec.(resourceNamespace := filled.resourceNamespace, syncInterval := filled.syncInterval,
                       syncTimeout := filled.syncTimeout, storage := filled.storage, nfsServer := filled.nfsServer)
    && TextKept(spec.resourceNamespace, filled.resourceNamespace) && spec.mountPath != ""
    && spec.storage.Some? && StorageKept(spec.storage, filled.storage)
    && (spec.source.None? ==> filled.syncInterval == spec.syncInterval && filled.syncTimeout == spec.syncTimeout)
    && (spec.source.Some? ==> filled.syncInterval != "" && filled.syncTimeout != "")
    && FilledServer(spec.nfsServer, filled.nfsServer)
  }

  lemma FillCompletes(spec: VolumeSpec, generate: bool, namespace: string)
    requires Fill(spec, generate, namespace).1
    ensures FilledFrom(spec, Fill(spec, generate, namespace).0)
  {
  }

  /** The webhook's verdict on a defaulted spec that differs in its reference and server only. */
  lemma WriteAccepted(spec: VolumeSpec, filled: VolumeSpec, out: VolumeSpec, parse: DurationParser)
    requires Admitted(spec, parse) && FilledFrom(spec, filled)
    requires out == filled.(referenceValue := out.referenceValue, nfsServer := out.nfsServer)
    requires TextKept(spec.referenceValue, out.referenceValue)
    ensures UpdateAccepted(spec, out, parse) <==>
      (spec.source.None? || TimeoutBelowInterval(filled, parse)) && ServerKept(spec.nfsServer, out.nfsServer)
  {
    assert Admitted(out, parse) <==> spec.source.None? || TimeoutBelowInterval(filled, parse);
  }

  /** What a reconcile stores next: a generated server, or a missing reference, with the defaults. */
  function ControllerWrite(filled: VolumeSpec, suffix: string, namespace: string): VolumeSpec {
    if filled.nfsServer.None? then Generated(filled, suffix, namespace) else WithReference(filled, suffix)
  }

  /**
   The webhook lets the controller's write of an admitted spec through exactly when there is no
   source, or both defaulted durations can be read and the timeout is below the interval.
   */
  lemma ControllerWriteAccepted(spec: VolumeSpec, suffix: string, namespace: string, parse: DurationParser)
    requires Admitted(spec, parse) && Fill(spec, spec.nfsServer.None?, namespace).1
    ensures var filled := Fill(spec, spec.nfsServer.None?, namespace).0;
      UpdateAccepted(spec, ControllerWrite(filled, suffix, namespace), parse) <==>
      spec.source.None? || TimeoutBelowInterval(filled, parse)
  {
    var filled := Fill(spec, spec.nfsServer.None?, namespace).0;
    FillCompletes(spec, spec.nfsServer.None?, namespace);
    WriteAccepted(spec, filled, ControllerWrite(filled, suffix, namespace), parse);
  }

  /**
   In terms of the stored durations: with a source the write passes exactly when the given timeout, or
   120s, is strictly below the given interval, or 60s.
   */
  lemma StoredDurationsDecide(spec: VolumeSpec, suffix: string, namespace: string, parse: DurationParser,
                              interval: int, timeout: int)
    requires Admitted(spec, parse) && Fill(spec, spec.nfsServer.None?, namespace).1 && spec.source.Some?
    requires parse(Or(spec.syncInterval, "60s")) == Some(interval)
    requires parse(Or(spec.syncTimeout, "120s")) == Some(timeout)
    ensures var write := ControllerWrite(Fill(spec, spec.nfsServer.None?, namespace).0, suffix, namespace);
      UpdateAccepted(spec, write, parse) <==> timeout < interval
  {
    ControllerWriteAccepted(spec, suffix, namespace, parse);
    FillKeepsTheGiven(spec, spec.nfsServer.None?, namespace);
  }

  /** Two given durations are admitted exactly when the timeout is strictly below the interval. */
  lemma GivenDurationsAdmittedIff(spec: VolumeSpec, parse: DurationParser, interval: int, timeout: int)
    requires spec.mountPath != "" && SourceOk(spec.source) && spec.source.Some?
    requires spec.syncInterval != "" && parse(spec.syncInterval) == Some(interval)
    requires spec.syncTimeout != "" && parse(spec.syncTimeout) == Some(timeout)
    ensures Admitted(spec, parse) <==> timeout < interval
  {
  }

  /** So a source with no durations of its own is always rejected: 120s is not below 60s. */
  lemma DefaultDurationsRejected(spec: VolumeSpec, suffix: string, namespace: string, parse: DurationParser)
    requires Admitted(spec, parse) && Fill(spec, spec.nfsServer.None?, namespace).1
    requires spec.source.Some? && spec.syncInterval == "" && spec.syncTimeout == ""
    requires parse("60s") == Some(60) && parse("120s") == Some(120)
    ensures !UpdateAccepted(spec, ControllerWrite(Fill(spec, spec.nfsServer.None?, namespace).0, suffix, namespace),
                            parse)
  {
    ControllerWriteAccepted(spec, suffix, namespace, parse);
  }
}
