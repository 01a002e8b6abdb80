/**
 * `MainRunloopObserver`: the process-wide registry that tells its listeners,
 * in registration order, that the main run loop is about to wait.
 *
 * The registry keeps a list of wrapper objects, each holding a weak reference
 * to its listener. Whether a listener is still alive is not something the
 * model can observe, so every operation receives `alive`, the set of objects
 * not yet deallocated when the call happens; a wrapper whose target is not in
 * it reads as `nil`.
 */
module Runloop {
  import opened Wrappers

  /** `MainRunloopEventHandler`: a wrapper with a weak `target`. */
  class MainRunloopEventHandler {
    const target: object?

    constructor (target: object?)
      ensures this.target == target
    {
      this.target := target;
    }

    /** The weak reference reads as `nil`: there never was a target, or it has been deallocated. */
    predicate IsNil(alive: set<object>): (dead: bool)
      ensures target == null ==> dead
      ensures !dead ==> target in alive
    {
      target == null || target !in alive
    }

    /** Forwards the run-loop event: the listener reached, if its target is still alive. */
    function MainRunloopWillWait(alive: set<object>): (reached: Option<object>)
      ensures reached.Some? <==> target != null && target in alive
      ensures reached.Some? ==> reached.value == target
    {
      if IsNil(alive) then None else var t: object := target; Some(t)
    }
  }

  predicate Distinct(list: seq<MainRunloopEventHandler>)
  {
    forall i, j :: 0 <= i < j < |list| ==> list[i] != list[j]
  }

  predicate NoDead(list: seq<MainRunloopEventHandler>, alive: set<object>)
  {
    forall i :: 0 <= i < |list| ==> !list[i].IsNil(alive)
  }

  /** `filterNilObserver` on values: the list without the wrappers whose target is gone. */
  function Compact(list: seq<MainRunloopEventHandler>, alive: set<object>): (r: seq<MainRunloopEventHandler>)
    ensures |r| <= |list|
    ensures NoDead(r, alive)
  {
    if list == [] then []
    else
      var last := list[|list| - 1];
      Compact(list[..|list| - 1], alive) + if last.IsNil(alive) then [] else [last]
  }

  /** Compaction keeps exactly the wrappers whose target is alive. */
  lemma {:induction false} CompactMembership(list: seq<MainRunloopEventHandler>, alive: set<object>)
    ensures forall w :: w in Compact(list, alive) <==> w in list && !w.IsNil(alive)
    ensures NoDead(Compact(list, alive), alive)
    ensures |Compact(list, alive)| <= |list|
  {
    if list != [] {
      var prefix := list[..|list| - 1];
      CompactMembership(prefix, alive);
      assert list == prefix + [list[|list| - 1]];
    }
  }

  /** Compaction keeps the survivors in their relative order: it distributes over concatenation. */
  lemma {:induction false} CompactConcat(a: seq<MainRunloopEventHandler>, b: seq<MainRunloopEventHandler>, alive: set<object>)
    ensures Compact(a + b, alive) == Compact(a, alive) + Compact(b, alive)
  {
    if b == [] {
      assert a + b == a;
    } else {
      var n := |b| - 1;
      assert (a + b)[..|a + b| - 1] == a + b[..n];
      assert (a + b)[|a + b| - 1] == b[n];
      CompactConcat(a, b[..n], alive);
    }
  }

  /** A list with no dead entry is left as it is, so compacting twice is compacting once. */
  lemma {:induction false} CompactIdempotent(list: seq<MainRunloopEventHandler>, alive: set<object>)
    ensures NoDead(list, alive) ==> Compact(list, alive) == list
    ensures Compact(Compact(list, alive), alive) == Compact(list, alive)
  {
    if NoDead(list, alive) {
      NoDeadIsFixed(list, alive);
    }
    CompactMembership(list, alive);
    NoDeadIsFixed(Compact(list, alive), alive);
  }

  lemma {:induction false} NoDeadIsFixed(list: seq<MainRunloopEventHandler>, alive: set<object>)
    requires NoDead(list, alive)
    ensures Compact(list, alive) == list
  {
    if list != [] {
      var n := |list| - 1;
      assert NoDead(list[..n], alive) by {
        forall i | 0 <= i < n ensures !list[..n][i].IsNil(alive) {
          assert list[..n][i] == list[i];
        }
      }
      NoDeadIsFixed(list[..n], alive);
      assert !list[n].IsNil(alive);
      assert list == list[..n] + [list[n]];
    }
  }

  lemma {:induction false} CompactDistinct(list: seq<MainRunloopEventHandler>, alive: set<object>)
    requires Distinct(list)
    ensures Distinct(Compact(list, alive))
  {
    if list != [] {
      var prefix := list[..|list| - 1];
      CompactDistinct(prefix, alive);
      CompactMembership(prefix, alive);
      assert list[|list| - 1] !in prefix;
    }
  }

  /** `firstIndex(where: { $0 === observer })`: the first position holding the object itself. */
  function FirstIndex(list: seq<MainRunloopEventHandler>, observer: object): (r: Option<nat>)
    ensures r.None? <==> forall i :: 0 <= i < |list| ==> list[i] != observer
    ensures r.Some? ==>
      r.value < |list| && list[r.value] == observer && forall i :: 0 <= i < r.value ==> list[i] != observer
  {
    if list == [] then None
    else if list[0] == observer then Some(0)
    else match FirstIndex(list[1..], observer)
      case None => None
      case Some(i) => Some(i + 1)
  }

  /** The first position whose wrapper targets the observer. */
  function FirstTargetIndex(list: seq<MainRunloopEventHandler>, observer: object): (r: Option<nat>)
    ensures r.None? <==> forall i :: 0 <= i < |list| ==> list[i].target != observer
    ensures r.Some? ==>
      r.value < |list| && list[r.value].target == observer && forall i :: 0 <= i < r.value ==> list[i].target != observer
  {
    if list == [] then None
    else if list[0].target == observer then Some(0)
    else match FirstTargetIndex(list[1..], observer)
      case None => None
      case Some(i) => Some(i + 1)
  }

  /** `remove(at:)` when an index was found: later entries move down by one. */
  function RemoveAt(list: seq<MainRunloopEventHandler>, index: Option<nat>): (r: seq<MainRunloopEventHandler>)
    requires index.Some? ==> index.value < |list|
    ensures index.None? ==> r == list
    ensures index.Some? ==> |r| == |list| - 1
    ensures index.Some? ==> forall i :: 0 <= i < |r| ==> r[i] == if i < index.value then list[i] else list[i + 1]
  {
    if index.None? then list else list[..index.value] + list[index.value + 1..]
  }

  /**
   * Removing the first entry that targets an observer registered at most once
   * leaves no entry targeting it, and keeps every other entry, in order.
   */
  lemma RemoveByTargetDeregisters(list: seq<MainRunloopEventHandler>, observer: object)
    requires forall i, j :: 0 <= i < j < |list| && list[i].target == observer ==> list[j].target != observer
    ensures forall w :: w in RemoveAt(list, FirstTargetIndex(list, observer)) ==> w.target != observer
    ensures forall w :: w in list && w.target != observer ==> w in RemoveAt(list, FirstTargetIndex(list, observer))
  {
    var r := FirstTargetIndex(list, observer);
    var rest := RemoveAt(list, r);
    if r.Some? {
      var k := r.value;
      forall i | 0 <= i < |rest| ensures rest[i].target != observer {
        if i >= k {
          assert rest[i] == list[i + 1] && list[k].target == observer;
        }
      }
      forall w | w in list && w.target != observer ensures w in rest {
        var i :| 0 <= i < |list| && list[i] == w;
        if i < k { assert rest[i] == w; } else { assert rest[i - 1] == w; }
      }
    }
  }

  /** A wrapper listed once is gone after its one entry is removed. */
  lemma RemoveAtDistinct(list: seq<MainRunloopEventHandler>, k: nat)
    requires Distinct(list) && k < |list|
    ensures list[k] !in list[..k] + list[k + 1..]
  {
    var rest := list[..k] + list[k + 1..];
    forall i | 0 <= i < |rest| ensures rest[i] != list[k] {
      if i < k { assert rest[i] == list[i]; } else { assert rest[i] == list[i + 1]; }
    }
  }

  /**
   * What registering `target` leaves in the registry: the list as it was,
   * compacted against `alive` with the new listener counted alive, then one
   * wrapper around `target`.
   */
  ghost predicate Appended(runloop: MainRunloopObserver, before: seq<MainRunloopEventHandler>, alive: set<object>, target: object)
    reads runloop
  {
    && |runloop.observerList| == |Compact(before, alive + {target})| + 1
    && runloop.observerList[..|runloop.observerList| - 1] == Compact(before, alive + {target})
    && runloop.observerList[|runloop.observerList| - 1].target == target
  }

  /** The registry. */
  class MainRunloopObserver {
    var observerList: seq<MainRunloopEventHandler>

    /** Every wrapper is created by `AddObserver`, so no wrapper is listed twice. */
    ghost predicate Valid()
      reads this
    {
      Distinct(observerList)
    }

    constructor ()
      ensures Valid() && observerList == []
    {
      observerList := [];
    }

    method FilterNilObserver(alive: set<object>)
      requires Valid()
      modifies this
      ensures Valid()
      ensures observerList == Compact(old(observerList), alive)
      ensures NoDead(observerList, alive)
    {
      var kept: seq<MainRunloopEventHandler> := [];
      for i := 0 to |observerList|
        invariant kept == Compact(observerList[..i], alive)
      {
        assert observerList[..i + 1][..i] == observerList[..i];
        if !observerList[i].IsNil(alive) {
          kept := kept + [observerList[i]];
        }
      }
      assert observerList[..|observerList|] == observerList;
      CompactDistinct(observerList, alive);
      CompactMembership(observerList, alive);
      observerList := kept;
    }

    /** Compacts, then appends one new wrapper around the observer. */
    method AddObserver(observer: object, alive: set<object>)
      requires Valid()
      requires observer in alive
      modifies this
      ensures Valid()
      ensures NoDead(observerList, alive)
      ensures |observerList| == |Compact(old(observerList), alive)| + 1
      ensures observerList[..|observerList| - 1] == Compact(old(observerList), alive)
      ensures fresh(observerList[|observerList| - 1])
      ensures observerList[|observerList| - 1].target == observer
    {
      FilterNilObserver(alive);
      var handler := new MainRunloopEventHandler(observer);
      observerList := observerList + [handler];
      assert observerList[..|observerList| - 1] == old(Compact(observerList, alive));
    }

    /**
     * As written: compacts, then removes the first entry that IS the observer.
     * The entries are wrappers, so for any observer that is not itself one of
     * the registry's wrappers nothing is removed beyond the compaction.
     */
    method RemoveObserver(observer: object, alive: set<object>)
      requires Valid()
      modifies this
      ensures Valid()
      ensures NoDead(observerList, alive)
      ensures observerList == RemoveAt(Compact(old(observerList), alive), FirstIndex(Compact(old(observerList), alive), observer))
      ensures observer !in old(observerList) ==> observerList == Compact(old(observerList), alive)
      ensures observer in Compact(old(observerList), alive) ==> observer !in observerList
    {
      FilterNilObserver(alive);
      CompactMembership(old(observerList), alive);
      var index := FirstIndex(observerList, observer);
      if index.Some? {
        RemoveAtKeeps(observerList, index.value, alive);
        RemoveAtDistinct(observerList, index.value);
        observerList := observerList[..index.value] + observerList[index.value + 1..];
      }
    }

    /** Corrected: compacts, then removes the first entry whose target is the observer. */
    method RemoveObserverByTarget(observer: object, alive: set<object>)
      requires Valid()
      modifies this
      ensures Valid()
      ensures NoDead(observerList, alive)
      ensures observerList ==
        RemoveAt(Compact(old(observerList), alive), FirstTargetIndex(Compact(old(observerList), alive), observer))
    {
      FilterNilObserver(alive);
      var index := FirstTargetIndex(observerList, observer);
      if index.Some? {
        RemoveAtKeeps(observerList, index.value, alive);
        observerList := observerList[..index.value] + observerList[index.value + 1..];
      }
    }

    /** `_runloopCallout`: compacts, then forwards the event through every wrapper, in list order. */
    method RunloopCallout(alive: set<object>) returns (reached: seq<object>)
      requires Valid()
      modifies this
      ensures Valid()
      ensures observerList == Compact(old(observerList), alive)
      ensures NoDead(observerList, alive)
      ensures |reached| == |observerList|
      ensures forall i :: 0 <= i < |observerList| ==> reached[i] == observerList[i].target
    {
      FilterNilObserver(alive);
      reached := [];
      for i := 0 to |observerList|
        invariant |reached| == i
        invariant forall k :: 0 <= k < i ==> reached[k] == observerList[k].target
      {
        var r := observerList[i].MainRunloopWillWait(alive);
        if r.Some? {
          reached := reached + [r.value];
        }
      }
    }
  }

  /** Removing one entry keeps a list distinct and free of dead entries. */
  lemma RemoveAtKeeps(list: seq<MainRunloopEventHandler>, k: nat, alive: set<object>)
    requires k < |list| && Distinct(list) && NoDead(list, alive)
    ensures Distinct(list[..k] + list[k + 1..]) && NoDead(list[..k] + list[k + 1..], alive)
  {
    var rest := list[..k] + list[k + 1..];
    assert forall i :: 0 <= i < |rest| ==> rest[i] == list[if i < k then i else i + 1];
  }

  /**
   * As written, unregistering a live observer that was just registered leaves
   * its wrapper in the list: the wrapper is compared with the observer itself.
   */
  method RemoveObserverKeepsListener(observer: object, alive: set<object>) returns (stillListed: bool)
    requires observer in alive
    ensures stillListed
  {
    var registry := new MainRunloopObserver();
    registry.AddObserver(observer, alive);
    registry.RemoveObserver(observer, alive);
    stillListed := |registry.observerList| == 1 && registry.observerList[0].target == observer;
  }

  /** With the corrected removal, the same sequence leaves nothing that targets the observer. */
  method RemoveObserverByTargetDeregisters(observer: object, alive: set<object>) returns (remaining: nat)
    requires observer in alive
    ensures remaining == 0
  {
    var registry := new MainRunloopObserver();
    registry.AddObserver(observer, alive);
    registry.RemoveObserverByTarget(observer, alive);
    remaining := |registry.observerList|;
  }
}
