/**
 Stored objects with versions and finalizers, and the retry loops that strip finalizers while
 other clients keep writing.

 Other clients act before every call. A call may also fail without being applied.
 */
module FinalizerRemoval {
  import opened Common

  type Key = (string, string)

  /** `payload` stands for everything else in the object. */
  datatype Object = Object(version: nat, finalizers: seq<string>, terminating: bool, payload: string)

  datatype World = World(objects: map<Key, Object>, next: nat)

  datatype ApiError = ErrNotFound | ErrConflict | ErrOther

  // ---------- the API server ----------

  predicate ValidObject(o: Object, next: nat) {
    o.version < next && (o.terminating ==> o.finalizers != [])
  }

  /** Versions are handed out in order; a terminating object without finalizers is gone. */
  ghost predicate Valid(w: World) {
    forall k :: k in w.objects ==> ValidObject(w.objects[k], w.next)
  }

  /** What other clients may have done to one key; recreation can be ruled out. */
  predicate ChangedByOthers(b: World, a: World, k: Key, recreation: bool) {
    && (k in a.objects && k in b.objects ==>
          || a.objects[k] == b.objects[k]
          || (a.objects[k].version >= b.next && (!recreation && b.objects[k].terminating ==> a.objects[k].terminating)))
    && (k in a.objects && k !in b.objects ==> recreation && a.objects[k].version >= b.next)
  }

  ghost predicate ByOthers(b: World, a: World, recreation: bool) {
    b.next <= a.next && forall k :: ChangedByOthers(b, a, k, recreation)
  }

  lemma OthersCompose(a: World, b: World, c: World, recreation: bool)
    requires Valid(a) && ByOthers(a, b, recreation) && ByOthers(b, c, recreation)
    ensures ByOthers(a, c, recreation)
  {
    forall k
      ensures ChangedByOthers(a, c, k, recreation)
    {
      assert ChangedByOthers(a, b, k, recreation) && ChangedByOthers(b, c, k, recreation);
    }
  }

  /** Stores an object under a new version; one that is done terminating disappears. */
  function Stored(w: World, k: Key, o: Object): World {
    World(if o.terminating && o.finalizers == [] then w.objects - {k}
          else w.objects[k := o.(version := w.next)], w.next + 1)
  }

  function Removed<T(==)>(s: seq<T>, x: T): seq<T> {
    if s == [] then [] else (if s[0] == x then [] else [s[0]]) + Removed(s[1..], x)
  }

  /** The one atomic effect of removing a finalizer: nothing when there is nothing to remove. */
  function WithoutFinalizer(w: World, k: Key, finalizer: string): World {
    if k !in w.objects || finalizer !in w.objects[k].finalizers then w
    else Stored(w, k, w.objects[k].(finalizers := Removed(w.objects[k].finalizers, finalizer)))
  }

  /** The one atomic effect of removing all finalizers. */
  function WithoutFinalizers(w: World, k: Key): World {
    if k !in w.objects || w.objects[k].finalizers == [] then w
    else Stored(w, k, w.objects[k].(finalizers := []))
  }

  /** Exactly the other finalizers remain, each as often as before and in order. */
  lemma {:induction false} RemovedKeepsOthers<T>(s: seq<T>, x: T)
    ensures x !in Removed(s, x)
    ensures forall y :: y != x ==> multiset(Removed(s, x))[y] == multiset(s)[y]
    ensures x !in s ==> Removed(s, x) == s
  {
    if s != [] {
      RemovedKeepsOthers(s[1..], x);
      assert s == [s[0]] + s[1..];
    }
  }

  lemma {:induction false} RemovedInOrder<T>(s: seq<T>, t: seq<T>, x: T)
    ensures Removed(s + t, x) == Removed(s, x) + Removed(t, x)
  {
    if s == [] {
      assert s + t == t && Removed(s, x) + Removed(t, x) == Removed(t, x);
    } else {
      var first := if s[0] == x then [] else [s[0]];
      assert Removed(s + t, x) == first + Removed(s[1..] + t, x) by {
        assert (s + t)[1..] == s[1..] + t;
      }
      RemovedInOrder(s[1..], t, x);
      ConcatAssociates(first, Removed(s[1..], x), Removed(t, x));
    }
  }

  /** No key other than the given one was touched by us. */
  ghost predicate OthersOnlyBeside(b: World, a: World, key: Key, recreation: bool) {
    b.next <= a.next && forall k :: k != key ==> ChangedByOthers(b, a, k, recreation)
  }

  lemma BesideCompose(a: World, b: World, c: World, key: Key, recreation: bool)
    requires Valid(a) && OthersOnlyBeside(a, b, key, recreation) && OthersOnlyBeside(b, c, key, recreation)
    ensures OthersOnlyBeside(a, c, key, recreation)
  {
    forall k | k != key
      ensures ChangedByOthers(a, c, k, recreation)
    {
      assert ChangedByOthers(a, b, k, recreation) && ChangedByOthers(b, c, k, recreation);
    }
  }

  /** A write of ours to the key, after others moved the world from a to b. */
  lemma OwnWriteBeside(a: World, b: World, key: Key, o: Object, recreation: bool)
    requires ByOthers(a, b, recreation)
    ensures OthersOnlyBeside(a, b, key, recreation) && OthersOnlyBeside(a, Stored(b, key, o), key, recreation)
  {
    forall k | k != key
      ensures ChangedByOthers(a, b, k, recreation) && ChangedByOthers(a, Stored(b, key, o), k, recreation)
    {
      assert ChangedByOthers(a, b, k, recreation);
    }
  }

  lemma {:induction false} RemovedIsEmptyIff<T(!new)>(s: seq<T>, x: T)
    ensures Removed(s, x) == [] <==> forall y :: y in s ==> y == x
  {
    if s != [] {
      RemovedIsEmptyIff(s[1..], x);
      assert forall y :: y in s <==> y == s[0] || y in s[1..];
      if s[0] == x {
        assert Removed(s, x) == Removed(s[1..], x);
      } else {
        assert s[0] in s && Removed(s, x)[0] == s[0];
      }
    }
  }

  /** Removing a finalizer loses no other change: only that finalizer, or a finished object, goes. */
  lemma RemovalLosesNothing(w: World, k: Key, finalizer: string)
    requires Valid(w)
    ensures var a := WithoutFinalizer(w, k, finalizer);
      && Valid(a) && a.objects - {k} == w.objects - {k}
      && (k in a.objects ==>
            && k in w.objects && finalizer !in a.objects[k].finalizers
            && a.objects[k].(version := 0, finalizers := []) == w.objects[k].(version := 0, finalizers := [])
            && a.objects[k].finalizers == Removed(w.objects[k].finalizers, finalizer))
      && (k in w.objects && k !in a.objects ==>
            w.objects[k].terminating && forall f :: f in w.objects[k].finalizers ==> f == finalizer)
  {
    if k in w.objects {
      RemovedKeepsOthers(w.objects[k].finalizers, finalizer);
      RemovedIsEmptyIff(w.objects[k].finalizers, finalizer);
    }
  }

  class ApiServer {
    /** No faults and no other writers. */
    const quiet: bool
    const recreation: bool
    var objects: map<Key, Object>
    var next: nat
    ghost var gets: nat
    ghost var updates: nat
    ghost var patches: nat
    ghost var deletes: nat
    // Calls that failed for no reason in the state: all of them, and the reads and patches among them.
    ghost var faults: nat
    ghost var getFaults: nat
    ghost var patchFaults: nat
    // How often others got in before a call.
    ghost var rivals: nat
    // Deletions that left their object terminating.
    ghost var marks: nat

    function State(): World
      reads this
    {
      World(objects, next)
    }

    constructor (quiet: bool, recreation: bool)
      ensures this.quiet == quiet && this.recreation == recreation && Valid(State())
      ensures gets == updates == patches == deletes == 0
      ensures faults == getFaults == patchFaults == rivals == marks == 0
    {
      this.quiet, this.recreation := quiet, recreation;
      objects, next := map[], 0;
      gets, updates, patches, deletes := 0, 0, 0, 0;
      faults, getFaults, patchFaults, rivals, marks := 0, 0, 0, 0, 0;
    }

    method OtherWriters()
      requires Valid(State())
      modifies this`objects, this`next, this`rivals
      ensures Valid(State()) && ByOthers(old(State()), State(), recreation)
      ensures rivals == old(rivals) + if State() == old(State()) then 0 else 1
      ensures quiet ==> State() == old(State())
    {
      var o: map<Key, Object> := *;
      var n: nat := *;
      var before, after := World(objects, next), World(o, n);
      if !quiet && next <= n && (forall k | k in o :: ValidObject(o[k], n)) &&
         (forall k | k in objects.Keys + o.Keys :: ChangedByOthers(before, after, k, recreation)) {
        objects, next := o, n;
        assert forall k :: k !in before.objects.Keys + o.Keys ==> ChangedByOthers(before, after, k, recreation);
        if after != before {
          rivals := rivals + 1;
        }
      }
    }

    method Faulty() returns (fault: bool)
      modifies this`faults
      ensures faults == old(faults) + if fault then 1 else 0
      ensures quiet ==> !fault
    {
      fault := *;
      fault := fault && !quiet;
      if fault {
        faults := faults + 1;
      }
    }

    method Get(key: Key) returns (obj: Option<Object>, err: Option<ApiError>)
      requires Valid(State())
      modifies this`objects, this`next, this`gets, this`faults, this`getFaults, this`rivals
      ensures gets == old(gets) + 1 && old(rivals) <= rivals <= old(rivals) + 1
      ensures Valid(State()) && ByOthers(old(State()), State(), recreation)
      ensures err.None? || err == Some(ErrNotFound) || err == Some(ErrOther)
      ensures if err == Some(ErrOther) then faults == old(faults) + 1 && getFaults == old(getFaults) + 1
        else faults == old(faults) && getFaults == old(getFaults)
      ensures quiet ==> rivals == old(rivals)
      ensures quiet ==> State() == old(State()) && (err.None? || err == Some(ErrNotFound))
      ensures err.None? <==> obj.Some?
      ensures err.None? ==> key in objects && obj == Some(objects[key])
      ensures err == Some(ErrNotFound) ==> key !in objects
    {
      gets := gets + 1;
      OtherWriters();
      var fault := Faulty();
      if fault {
        getFaults := getFaults + 1;
        return None, Some(ErrOther);
      }
      if key !in objects {
        return None, Some(ErrNotFound);
      }
      return Some(objects[key]), None;
    }

    /** Writes the finalizers of an object read earlier; `mid` is the state the write met. */
    method Update(key: Key, obj: Object) returns (err: Option<ApiError>, ghost mid: World)
      requires Valid(State())
      modifies this`objects, this`next, this`updates, this`faults, this`rivals
      ensures updates == old(updates) + 1 && faults >= old(faults) && rivals >= old(rivals)
      ensures Valid(mid) && ByOthers(old(State()), mid, recreation) && Valid(State())
      ensures mid != old(State()) ==> rivals > old(rivals)
      ensures err.None? || err == Some(ErrNotFound) || err == Some(ErrConflict) || err == Some(ErrOther)
      ensures err == Some(ErrOther) ==> faults > old(faults)
      ensures err == Some(ErrConflict) && faults == old(faults) ==>
        key in mid.objects && mid.objects[key].version != obj.version
      ensures quiet ==> faults == old(faults) && rivals == old(rivals)
      ensures quiet ==> mid == old(State())
      ensures quiet && key in mid.objects && mid.objects[key].version == obj.version ==> err.None?
      ensures err.Some? ==> State() == mid
      ensures err == Some(ErrNotFound) ==> key !in mid.objects
      ensures err.None? ==>
        && key in mid.objects && mid.objects[key].version == obj.version
        && State() == Stored(mid, key, mid.objects[key].(finalizers := obj.finalizers, payload := obj.payload))
    {
      updates := updates + 1;
      OtherWriters();
      mid := State();
      var fault := Faulty();
      if fault {
        var conflict: bool := *;
        return Some(if conflict then ErrConflict else ErrOther), mid;
      }
      if key !in objects {
        return Some(ErrNotFound), mid;
      }
      var current := objects[key];
      if current.version != obj.version {
        return Some(ErrConflict), mid;
      }
      Store(key, current.(finalizers := obj.finalizers, payload := obj.payload));
      return None, mid;
    }

    method Store(key: Key, o: Object)
      requires Valid(State())
      modifies this`objects, this`next
      ensures State() == Stored(old(State()), key, o) && Valid(State())
    {
      if o.terminating && o.finalizers == [] {
        objects := objects - {key};
      } else {
        objects := objects[key := o.(version := next)];
      }
      next := next + 1;
    }

    /** The merge patch that sets the finalizers to null; it carries no version. */
    method PatchFinalizersNull(key: Key) returns (err: Option<ApiError>, ghost mid: World)
      requires Valid(State())
      modifies this`objects, this`next, this`patches, this`faults, this`patchFaults, this`rivals
      ensures patches == old(patches) + 1 && faults >= old(faults) && rivals >= old(rivals)
      ensures err.None? || err == Some(ErrNotFound) || (err == Some(ErrOther) && faults > old(faults))
      ensures patchFaults == old(patchFaults) + if err == Some(ErrOther) then 1 else 0
      ensures quiet ==> faults == old(faults) && rivals == old(rivals)
      ensures Valid(mid) && ByOthers(old(State()), mid, recreation) && Valid(State())
      ensures quiet ==> mid == old(State())
      ensures err.Some? ==> State() == mid
      ensures err == Some(ErrNotFound) ==> key !in mid.objects
      ensures err.None? ==> key in mid.objects && State() == WithoutFinalizers(mid, key)
    {
      patches := patches + 1;
      OtherWriters();
      mid := State();
      var fault := Faulty();
      if fault {
        patchFaults := patchFaults + 1;
        return Some(ErrOther), mid;
      }
      if key !in objects {
        return Some(ErrNotFound), mid;
      }
      if objects[key].finalizers != [] {
        Store(key, objects[key].(finalizers := []));
      }
      return None, mid;
    }

    /** An object with finalizers is only marked. */
    method Delete(key: Key) returns (err: Option<ApiError>, ghost mid: World)
      requires Valid(State())
      modifies this`objects, this`next, this`deletes, this`faults, this`rivals, this`marks
      ensures deletes == old(deletes) + 1 && faults >= old(faults) && rivals >= old(rivals)
      ensures err.None? || err == Some(ErrNotFound) || (err == Some(ErrOther) && faults > old(faults))
      ensures quiet ==> faults == old(faults) && rivals == old(rivals)
      ensures Valid(mid) && ByOthers(old(State()), mid, recreation) && Valid(State())
      ensures quiet ==> mid == old(State()) && (err.None? || err == Some(ErrNotFound))
      ensures err.Some? ==> State() == mid
      ensures err == Some(ErrNotFound) ==> key !in mid.objects
      ensures err.None? ==> key in mid.objects && State() == Stored(mid, key, mid.objects[key].(terminating := true))
      ensures marks == old(marks) + if err.None? && mid.objects[key].finalizers != [] then 1 else 0
      ensures OthersOnlyBeside(old(State()), State(), key, recreation)
    {
      deletes := deletes + 1;
      OtherWriters();
      mid := State();
      OwnWriteBeside(old(State()), mid, key, Object(0, [], true, ""), recreation);
      var fault := Faulty();
      if fault {
        return Some(ErrOther), mid;
      }
      if key !in objects {
        return Some(ErrNotFound), mid;
      }
      OwnWriteBeside(old(State()), mid, key, objects[key].(terminating := true), recreation);
      if objects[key].finalizers != [] {
        marks := marks + 1;
      }
      Store(key, objects[key].(terminating := true));
      return None, mid;
    }
  }

  // ---------- removing one finalizer ----------

  method RemoveString(slice: seq<string>, x: string) returns (result: seq<string>)
    ensures result == Removed(slice, x)
  {
    result := [];
    for i := 0 to |slice|
      invariant result == Removed(slice[..i], x)
    {
      assert slice[..i + 1] == slice[..i] + [slice[i]];
      RemovedInOrder(slice[..i], [slice[i]], x);
      if slice[i] != x {
        result := result + [slice[i]];
      }
    }
    assert slice[..|slice|] == slice;
  }

  /**
   Against arbitrary writers, at most four reads and four writes. On success the whole effect is one
   atomic removal from a state that only others produced; on failure there is no effect. A conflict
   is given up on only after all four, so three rivals cannot stop it: it fails for a fault, or for
   four writes that were overtaken.
   */
  method RemoveFinalizerWithRetry(api: ApiServer, key: Key, finalizer: string)
    returns (err: Option<ApiError>, ghost mid: World)
    requires Valid(api.State())
    modifies api`objects, api`next, api`gets, api`updates, api`faults, api`getFaults, api`rivals
    ensures api.gets <= old(api.gets) + 4 && api.updates <= old(api.updates) + 4
    ensures api.faults >= old(api.faults) && api.rivals >= old(api.rivals)
    ensures err == Some(ErrConflict) ==> api.gets == old(api.gets) + 4 && api.updates == old(api.updates) + 4
    ensures err != Some(ErrNotFound) && (err == Some(ErrOther) ==> api.faults > old(api.faults))
    ensures api.faults == old(api.faults) && api.rivals <= old(api.rivals) + 3 ==> err.None?
    ensures Valid(mid) && ByOthers(old(api.State()), mid, api.recreation) && Valid(api.State())
    ensures api.State() == if err.None? then WithoutFinalizer(mid, key, finalizer) else mid
    ensures err.None? ==> key !in api.objects || finalizer !in api.objects[key].finalizers
    ensures api.quiet ==> err.None? && mid == old(api.State())
  {
    var maxRetries := 3;
    var retryCount := 0;
    ghost var start := api.State();
    mid := start;
    while true
      invariant 0 <= retryCount <= maxRetries
      invariant api.gets == old(api.gets) + retryCount && api.updates == old(api.updates) + retryCount
      invariant api.faults >= old(api.faults) && api.rivals >= old(api.rivals)
      invariant api.faults == old(api.faults) ==> api.rivals >= old(api.rivals) + retryCount
      invariant mid == api.State() && Valid(mid) && ByOthers(start, mid, api.recreation)
      invariant api.quiet ==> retryCount == 0 && mid == start
      decreases maxRetries - retryCount
    {
      var latest, getErr := api.Get(key);
      OthersCompose(start, mid, api.State(), api.recreation);
      mid := api.State();
      if getErr.Some? {
        if getErr == Some(ErrNotFound) {
          return None, mid;
        }
        return getErr, mid;
      }
      if finalizer !in latest.value.finalizers {
        return None, mid;
      }
      var finalizers := RemoveString(latest.value.finalizers, finalizer);
      ghost var read := mid;
      var updateErr, met := api.Update(key, latest.value.(finalizers := finalizers));
      OthersCompose(start, mid, met, api.recreation);
      mid := met;
      if updateErr.Some? {
        if updateErr == Some(ErrConflict) && retryCount < maxRetries {
          retryCount := retryCount + 1;
          continue;
        }
        if updateErr == Some(ErrNotFound) {
          return None, mid;
        }
        return updateErr, mid;
      }
      // The version still matched, so the object met is the object read.
      assert ChangedByOthers(read, met, key, api.recreation);
      RemovedKeepsOthers(latest.value.finalizers, finalizer);
      return None, mid;
    }
  }

  // ---------- stripping all finalizers, and deleting by force ----------

  /**
   Six reads, six writes and five patches at most; one atomic clearing, or nothing. Only a failed read
   ends it early: otherwise it fails after five writes at least, six if the last was overtaken, and
   without faults five rivals cannot stop it. A conflict is not answered by a patch, which would
   overwrite what the rival wrote: without faults only an object that is gone leads to one.
   */
  method RemoveAllFinalizersWithRetry(api: ApiServer, key: Key) returns (err: Option<ApiError>, ghost mid: World)
    requires Valid(api.State())
    modifies api`objects, api`next, api`gets, api`updates, api`patches
    modifies api`faults, api`getFaults, api`patchFaults, api`rivals
    ensures api.gets <= old(api.gets) + 6 && api.updates <= old(api.updates) + 6 && api.patches <= old(api.patches) + 5
    ensures api.faults >= old(api.faults) && api.rivals >= old(api.rivals)
    ensures err == Some(ErrConflict) ==> api.gets == old(api.gets) + 6 && api.updates == old(api.updates) + 6
    ensures err.Some? && api.getFaults == old(api.getFaults) ==> api.updates >= old(api.updates) + 5
    ensures api.getFaults >= old(api.getFaults) && api.patchFaults >= old(api.patchFaults)
    ensures api.getFaults == old(api.getFaults) && api.patchFaults == old(api.patchFaults) && err.Some? ==>
      api.updates == old(api.updates) + 6
    ensures api.faults == old(api.faults) && api.rivals <= old(api.rivals) + 5 ==> err.None?
    ensures api.faults == old(api.faults) && api.patches > old(api.patches) && !api.recreation ==> key !in api.objects
    ensures Valid(mid) && ByOthers(old(api.State()), mid, api.recreation) && Valid(api.State())
    ensures api.State() == if err.None? then WithoutFinalizers(mid, key) else mid
    ensures api.quiet ==> err.None? && mid == old(api.State())
  {
    var maxRetries := 5;
    var retryCount := 0;
    ghost var start := api.State();
    mid := start;
    while true
      invariant 0 <= retryCount <= maxRetries
      invariant api.gets == old(api.gets) + retryCount && api.updates == old(api.updates) + retryCount
      invariant api.patches <= old(api.patches) + retryCount
      invariant api.faults >= old(api.faults) && api.rivals >= old(api.rivals)
      invariant api.getFaults == old(api.getFaults) && api.patchFaults >= old(api.patchFaults)
      invariant api.faults == old(api.faults) ==>
        api.rivals >= old(api.rivals) + retryCount && api.patches == old(api.patches)
      invariant mid == api.State() && Valid(mid) && ByOthers(start, mid, api.recreation)
      invariant api.quiet ==> retryCount == 0 && mid == start
      decreases maxRetries - retryCount
    {
      var latest, getErr := api.Get(key);
      OthersCompose(start, mid, api.State(), api.recreation);
      mid := api.State();
      if getErr.Some? {
        if getErr == Some(ErrNotFound) {
          return None, mid;
        }
        return getErr, mid;
      }
      if |latest.value.finalizers| == 0 {
        return None, mid;
      }
      ghost var read := mid;
      var updateErr, met := api.Update(key, latest.value.(finalizers := []));
      OthersCompose(start, mid, met, api.recreation);
      mid := met;
      if updateErr.Some? {
        if updateErr == Some(ErrConflict) && retryCount < maxRetries {
          retryCount := retryCount + 1;
          continue;
        }
        if retryCount < maxRetries {
          retryCount := retryCount + 1;
          var patchErr, patched := api.PatchFinalizersNull(key);
          OthersCompose(start, mid, patched, api.recreation);
          assert ChangedByOthers(mid, patched, key, api.recreation);
          mid := patched;
          if patchErr.Some? && patchErr != Some(ErrNotFound) {
            if retryCount >= maxRetries {
              return patchErr, mid;
            }
            continue;
          }
          return None, mid;
        }
        return updateErr, mid;
      }
      assert ChangedByOthers(read, met, key, api.recreation);
      return None, mid;
    }
  }

  /** The same, seen from the other keys. */
  method StripFinalizers(api: ApiServer, key: Key) returns (err: Option<ApiError>, ghost mid: World)
    requires Valid(api.State())
    modifies api`objects, api`next, api`gets, api`updates, api`patches
    modifies api`faults, api`getFaults, api`patchFaults, api`rivals
    ensures api.gets <= old(api.gets) + 6 && api.updates <= old(api.updates) + 6 && api.patches <= old(api.patches) + 5
    ensures Valid(mid) && ByOthers(old(api.State()), mid, api.recreation) && Valid(api.State())
    ensures api.State() == if err.None? then WithoutFinalizers(mid, key) else mid
    ensures api.quiet ==> err.None? && mid == old(api.State())
    ensures OthersOnlyBeside(old(api.State()), api.State(), key, api.recreation)
  {
    ghost var before := api.State();
    err, mid := RemoveAllFinalizersWithRetry(api, key);
    OwnWriteBeside(before, mid, key,
                   if key in mid.objects then mid.objects[key].(finalizers := [])
                     else Object(0, [], true, ""), api.recreation);
  }

  /** The second half of a forced deletion: an object that lingers is terminating. */
  method CheckDeleted(api: ApiServer, key: Key, ghost start: World) returns (err: Option<ApiError>)
    requires Valid(start) && Valid(api.State()) && OthersOnlyBeside(start, api.State(), key, api.recreation)
    requires key in api.objects ==> api.objects[key].terminating
    modifies api`objects, api`next, api`gets, api`updates, api`patches
    modifies api`faults, api`getFaults, api`patchFaults, api`rivals
    ensures Valid(api.State())
    ensures err.None? && !api.recreation ==> key !in api.objects
    ensures api.quiet ==> err.None? && key !in api.objects
    ensures OthersOnlyBeside(start, api.State(), key, api.recreation)
    ensures api.gets <= old(api.gets) + 7 && api.updates <= old(api.updates) + 6 && api.patches <= old(api.patches) + 5
  {
    ghost var deleted := api.State();
    var updated, checkErr := api.Get(key);
    assert ChangedByOthers(deleted, api.State(), key, api.recreation);
    BesideCompose(start, deleted, api.State(), key, api.recreation);
    if checkErr.Some? {
      if checkErr == Some(ErrNotFound) {
        return None;
      }
      return checkErr;
    }
    if updated.value.terminating && |updated.value.finalizers| > 0 {
      ghost var stuck := api.State();
      var removalErr, cleared := StripFinalizers(api, key);
      assert ChangedByOthers(stuck, cleared, key, api.recreation);
      BesideCompose(start, stuck, api.State(), key, api.recreation);
      if removalErr.Some? {
        return removalErr;
      }
    }
    return None;
  }

  /**
   Deletes a claim or a persistent volume and strips what holds it back. Success means that the
   object is absent, provided nobody recreates it; without faults and rivals it always succeeds, and
   never leaves the object terminating on the way. Only a failed first read keeps it from trying the
   deletion.
   */
  method ForceDelete(api: ApiServer, key: Key) returns (err: Option<ApiError>)
    requires Valid(api.State())
    modifies api`objects, api`next, api`gets, api`updates, api`patches, api`deletes
    modifies api`faults, api`getFaults, api`patchFaults, api`rivals, api`marks
    ensures Valid(api.State())
    ensures err.None? && !api.recreation ==> key !in api.objects
    ensures api.quiet ==> err.None? && key !in api.objects
    ensures OthersOnlyBeside(old(api.State()), api.State(), key, api.recreation)
    ensures api.gets <= old(api.gets) + 14 && api.updates <= old(api.updates) + 12
    ensures api.patches <= old(api.patches) + 10 && api.deletes <= old(api.deletes) + 1
    ensures api.quiet ==> api.marks == old(api.marks)
    ensures err.Some? ==> api.deletes == old(api.deletes) + 1 || api.gets == old(api.gets) + 1
  {
    ghost var start := api.State();
    var first, getErr := api.Get(key);
    if getErr.Some? {
      if getErr == Some(ErrNotFound) {
        return None;
      }
      return getErr;
    }
    if |first.value.finalizers| > 0 {
      ghost var before := api.State();
      var _, _ := StripFinalizers(api, key);
      BesideCompose(start, before, api.State(), key, api.recreation);
    }
    ghost var before := api.State();
    var deleteErr, _ := api.Delete(key);
    BesideCompose(start, before, api.State(), key, api.recreation);
    if deleteErr.Some? {
      if deleteErr == Some(ErrNotFound) {
        return None;
      }
      return deleteErr;
    }
    err := CheckDeleted(api, key, start);
  }
}
