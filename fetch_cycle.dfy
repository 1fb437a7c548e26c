/**
 * The acquisition part of one FetchAsync cycle, once fanart.xml is loaded:
 * the five category steps in the order Logo, Backdrop, Art, Banner,
 * Primary, the cancellation checks before each of them, and the final
 * Success status with the `true` return value.
 */
module FetchCycle {
  import opened FanArtTypes
  import opened AcquisitionPolicy
  import Eligibility

  const ORDER: seq<ImageType> := [Logo, Backdrop, Art, Banner, Primary]

  /**
   * Checkpoint k is the k-th ThrowIfCancellationRequested after the document
   * is loaded: 0 before the HasChildNodes test, 1 to 4 before Backdrop, Art,
   * Banner and Primary. `cancel` is the first checkpoint at which the token
   * is cancelled; a cancelled token stays cancelled.
   */
  predicate Observed(cancel: Option<nat>, checkpoint: nat) {
    cancel.Some? && cancel.value <= checkpoint
  }

  /** Completed carries the status passed to SetLastRefreshed and the value returned. */
  datatype Outcome = Completed(status: RefreshStatus, workPerformed: bool) | Cancelled

  datatype CycleResult = CycleResult(state: ItemState, tasks: seq<AcquisitionTask>, outcome: Outcome)

  const DONE: Outcome := Completed(Success, true)

  /** Steps ORDER[i..], step i having been reached. */
  function RunFrom(i: nat, cfg: Config, doc: Manifest, st: ItemState, store: AcquisitionTask -> string,
                   cancel: Option<nat>): CycleResult
    requires i < |ORDER|
    decreases |ORDER| - i
  {
    var r := Step(ORDER[i], cfg, doc, st, store);
    if i + 1 == |ORDER| then CycleResult(r.state, r.tasks, DONE)
    else if Observed(cancel, i + 1) then CycleResult(r.state, r.tasks, Cancelled)
    else
      var rest := RunFrom(i + 1, cfg, doc, r.state, store, cancel);
      CycleResult(rest.state, r.tasks + rest.tasks, rest.outcome)
  }

  /** Downloads already issued, followed by the rest of a run. */
  function Prefixed(issued: seq<AcquisitionTask>, rest: CycleResult): CycleResult {
    CycleResult(rest.state, issued + rest.tasks, rest.outcome)
  }

  /** The acquisition section of FetchAsync, from the first cancellation check to the return. */
  function Cycle(cfg: Config, doc: Manifest, st: ItemState, store: AcquisitionTask -> string,
                 cancel: Option<nat>): CycleResult
  {
    if Observed(cancel, 0) then CycleResult(st, [], Cancelled)
    else if !doc.hasChildNodes then CycleResult(st, [], DONE)
    else RunFrom(0, cfg, doc, st, store, cancel)
  }

  /** Running step i, passing checkpoint i + 1 and going on with step i + 1. */
  lemma RunFromContinues(i: nat, issued: seq<AcquisitionTask>, cfg: Config, doc: Manifest, st: ItemState,
                         store: AcquisitionTask -> string, cancel: Option<nat>,
                         tasks: seq<AcquisitionTask>, next: ItemState)
    requires i + 1 < |ORDER| && !Observed(cancel, i + 1)
    requires Step(ORDER[i], cfg, doc, st, store) == StepResult(next, tasks)
    ensures Prefixed(issued, RunFrom(i, cfg, doc, st, store, cancel))
         == Prefixed(issued + tasks, RunFrom(i + 1, cfg, doc, next, store, cancel))
  {
    var rest := RunFrom(i + 1, cfg, doc, next, store, cancel);
    assert issued + (tasks + rest.tasks) == issued + tasks + rest.tasks;
  }

  /** Running step i and stopping at checkpoint i + 1, or after the last step. */
  lemma RunFromStops(i: nat, issued: seq<AcquisitionTask>, cfg: Config, doc: Manifest, st: ItemState,
                     store: AcquisitionTask -> string, cancel: Option<nat>,
                     tasks: seq<AcquisitionTask>, next: ItemState)
    requires i < |ORDER| && (i + 1 == |ORDER| || Observed(cancel, i + 1))
    requires Step(ORDER[i], cfg, doc, st, store) == StepResult(next, tasks)
    ensures Prefixed(issued, RunFrom(i, cfg, doc, st, store, cancel))
         == CycleResult(next, issued + tasks, if i + 1 == |ORDER| then DONE else Cancelled)
  {
  }

  // ---------------------------------------------------------------------
  // Reference: the steps evaluated independently on the initial state

  /** The number of steps that run when the document has children and checkpoint 0 passes. */
  function StepsRun(cancel: Option<nat>): (n: nat)
    ensures n <= |ORDER|
  {
    if cancel.Some? && cancel.value < |ORDER| then cancel.value else |ORDER|
  }

  /** The downloads of steps i until j, each evaluated on the same state. */
  function IndependentTasks(i: nat, j: nat, cfg: Config, doc: Manifest, st: ItemState,
                            store: AcquisitionTask -> string): seq<AcquisitionTask>
    requires j <= |ORDER|
    decreases j - i
  {
    if i >= j then [] else Step(ORDER[i], cfg, doc, st, store).tasks + IndependentTasks(i + 1, j, cfg, doc, st, store)
  }

  predicate SlotsAgreeFrom(i: nat, st: ItemState, st': ItemState) {
    forall m :: i <= m < |ORDER| ==> SlotOf(st, ORDER[m]) == SlotOf(st', ORDER[m])
  }

  lemma OrderDistinct(m: nat, n: nat)
    requires m < |ORDER| && n < |ORDER| && m != n
    ensures ORDER[m] != ORDER[n]
  {
  }

  /** RunFrom(i) leaves the slots of the earlier steps alone. */
  lemma {:induction false} RunFromFrame(i: nat, cfg: Config, doc: Manifest, st: ItemState,
                                        store: AcquisitionTask -> string, cancel: Option<nat>, m: nat)
    requires i < |ORDER| && m < i
    ensures SlotOf(RunFrom(i, cfg, doc, st, store, cancel).state, ORDER[m]) == SlotOf(st, ORDER[m])
    decreases |ORDER| - i
  {
    var r := Step(ORDER[i], cfg, doc, st, store);
    OrderDistinct(i, m);
    StepFrame(ORDER[i], ORDER[m], cfg, doc, st, store);
    if i + 1 < |ORDER| && !Observed(cancel, i + 1) {
      RunFromFrame(i + 1, cfg, doc, r.state, store, cancel, m);
    }
  }

  /**
   * Running the steps in sequence gives the same downloads and the same
   * final slots as evaluating each step on the initial state: no step's
   * outcome affects another's eligibility.
   */
  lemma {:induction false} RunFromIndependent(i: nat, cfg: Config, doc: Manifest, st: ItemState, st': ItemState,
                                              store: AcquisitionTask -> string, cancel: Option<nat>)
    requires i < |ORDER| && !Observed(cancel, i)
    requires SlotsAgreeFrom(i, st, st')
    ensures var res := RunFrom(i, cfg, doc, st, store, cancel);
      && StepsRun(cancel) > i
      && res.tasks == IndependentTasks(i, StepsRun(cancel), cfg, doc, st', store)
      && res.outcome == (if StepsRun(cancel) == |ORDER| then DONE else Cancelled)
      && (forall m :: i <= m < |ORDER| ==>
            SlotOf(res.state, ORDER[m])
            == (if m < StepsRun(cancel) then SlotOf(Step(ORDER[m], cfg, doc, st', store).state, ORDER[m])
                else SlotOf(st', ORDER[m])))
    decreases |ORDER| - i
  {
    var t := ORDER[i];
    var r := Step(t, cfg, doc, st, store);
    var r' := Step(t, cfg, doc, st', store);
    var res := RunFrom(i, cfg, doc, st, store, cancel);
    var n := StepsRun(cancel);
    StepLocal(t, cfg, doc, st, st', store);
    forall m | i < m < |ORDER| ensures SlotOf(r.state, ORDER[m]) == SlotOf(st', ORDER[m]) {
      OrderDistinct(i, m);
      StepFrame(t, ORDER[m], cfg, doc, st, store);
    }
    if i + 1 == |ORDER| || Observed(cancel, i + 1) {
      assert n == i + 1;
      assert IndependentTasks(i + 1, n, cfg, doc, st', store) == [];
      assert r.tasks + [] == r.tasks;
    } else {
      assert SlotsAgreeFrom(i + 1, r.state, st');
      RunFromIndependent(i + 1, cfg, doc, r.state, st', store, cancel);
      RunFromFrame(i + 1, cfg, doc, r.state, store, cancel, i);
    }
  }

  /** Evaluating the steps independently is the concatenation of the five steps in order. */
  lemma IndependentTasksInOrder(cfg: Config, doc: Manifest, st: ItemState, store: AcquisitionTask -> string)
    ensures IndependentTasks(0, |ORDER|, cfg, doc, st, store)
         == SingleStep(Logo, cfg, doc, st, store).tasks
          + BackdropStep(cfg, doc, st, store).tasks
          + SingleStep(Art, cfg, doc, st, store).tasks
          + SingleStep(Banner, cfg, doc, st, store).tasks
          + SingleStep(Primary, cfg, doc, st, store).tasks
  {
    var s := IndependentTasks(5, 5, cfg, doc, st, store);
    assert s == [];
  }

  // ---------------------------------------------------------------------
  // Properties of a cycle

  /**
   * A cycle is cancelled exactly when the token is observed at a checkpoint
   * that is reached; otherwise it records Success and returns true, whatever
   * was or was not downloaded.
   */
  lemma CycleOutcome(cfg: Config, doc: Manifest, st: ItemState, store: AcquisitionTask -> string, cancel: Option<nat>)
    ensures Cycle(cfg, doc, st, store, cancel).outcome
         == if Observed(cancel, 0) || (doc.hasChildNodes && StepsRun(cancel) < |ORDER|) then Cancelled else DONE
  {
    if !Observed(cancel, 0) && doc.hasChildNodes {
      RunFromIndependent(0, cfg, doc, st, st, store, cancel);
    }
  }

  /** A manifest without child nodes downloads nothing, changes nothing, and still completes. */
  lemma NoChildNodesCompletes(cfg: Config, doc: Manifest, st: ItemState, store: AcquisitionTask -> string,
                              cancel: Option<nat>)
    requires !doc.hasChildNodes && !Observed(cancel, 0)
    ensures Cycle(cfg, doc, st, store, cancel) == CycleResult(st, [], Completed(Success, true))
  {
  }

  /**
   * An uncancelled cycle issues the downloads of Logo, Backdrop, Art,
   * Banner and Primary in that order, each decided on the item as it was
   * before the cycle; each category's slot ends as its own step left it.
   */
  lemma CycleIsIndependentSteps(cfg: Config, doc: Manifest, st: ItemState, store: AcquisitionTask -> string,
                                cancel: Option<nat>)
    requires doc.hasChildNodes && StepsRun(cancel) == |ORDER|
    ensures var res := Cycle(cfg, doc, st, store, cancel);
      && res.outcome == Completed(Success, true)
      && res.tasks == SingleStep(Logo, cfg, doc, st, store).tasks
                    + BackdropStep(cfg, doc, st, store).tasks
                    + SingleStep(Art, cfg, doc, st, store).tasks
                    + SingleStep(Banner, cfg, doc, st, store).tasks
                    + SingleStep(Primary, cfg, doc, st, store).tasks
      && (forall t :: SlotOf(res.state, t) == SlotOf(Step(t, cfg, doc, st, store).state, t))
  {
    RunFromIndependent(0, cfg, doc, st, st, store, cancel);
    IndependentTasksInOrder(cfg, doc, st, store);
    var res := Cycle(cfg, doc, st, store, cancel);
    forall t ensures SlotOf(res.state, t) == SlotOf(Step(t, cfg, doc, st, store).state, t) {
      var m :| 0 <= m < |ORDER| && ORDER[m] == t;
    }
  }

  predicate HasKind(ts: seq<AcquisitionTask>, t: ImageType) {
    exists k :: 0 <= k < |ts| && ts[k].kind == t
  }

  lemma HasKindAppend(a: seq<AcquisitionTask>, b: seq<AcquisitionTask>, t: ImageType)
    ensures HasKind(a + b, t) <==> HasKind(a, t) || HasKind(b, t)
  {
    if HasKind(a + b, t) {
      var k :| 0 <= k < |a + b| && (a + b)[k].kind == t;
      if k >= |a| {
        assert b[k - |a|].kind == t;
      }
    }
    if HasKind(b, t) {
      var k :| 0 <= k < |b| && b[k].kind == t;
      assert (a + b)[|a| + k].kind == t;
    }
    if HasKind(a, t) {
      var k :| 0 <= k < |a| && a[k].kind == t;
      assert (a + b)[k].kind == t;
    }
  }

  /** Step m of the order issues at least one download. */
  predicate Issues(m: nat, cfg: Config, doc: Manifest, st: ItemState, store: AcquisitionTask -> string)
    requires m < |ORDER|
  {
    Step(ORDER[m], cfg, doc, st, store).tasks != []
  }

  /** A category has a download among steps i until j exactly when one of those steps is it and issues one. */
  lemma {:induction false} KindOccurs(i: nat, j: nat, t: ImageType, cfg: Config, doc: Manifest, st: ItemState,
                                      store: AcquisitionTask -> string)
    requires j <= |ORDER|
    ensures HasKind(IndependentTasks(i, j, cfg, doc, st, store), t)
      <==> (exists m :: i <= m < j && ORDER[m] == t && Issues(m, cfg, doc, st, store))
    decreases j - i
  {
    if i < j {
      var head := Step(ORDER[i], cfg, doc, st, store).tasks;
      var rest := IndependentTasks(i + 1, j, cfg, doc, st, store);
      StepTaskKinds(ORDER[i], cfg, doc, st, store);
      HasKindAppend(head, rest, t);
      assert HasKind(head, t) <==> ORDER[i] == t && head != [] by {
        if head != [] { assert head[0].kind == ORDER[i]; }
      }
      KindOccurs(i + 1, j, t, cfg, doc, st, store);
    }
  }

  /**
   * A single-valued image in an uncancelled cycle: it is downloaded exactly
   * when its toggle is on, the item lacked it and its node has a url.
   */
  lemma CycleSingleImageIssued(t: SingleImageType, cfg: Config, doc: Manifest, st: ItemState,
                               store: AcquisitionTask -> string, cancel: Option<nat>)
    requires doc.hasChildNodes && StepsRun(cancel) == |ORDER|
    ensures HasKind(Cycle(cfg, doc, st, store, cancel).tasks, t) <==> Wants(t, cfg, st) && HasUrl(NodeFor(t, cfg, doc))
  {
    RunFromIndependent(0, cfg, doc, st, st, store, cancel);
    KindOccurs(0, |ORDER|, t, cfg, doc, st, store);
    var m :| 0 <= m < |ORDER| && ORDER[m] == t;
    forall m' | 0 <= m' < |ORDER| && ORDER[m'] == t ensures m' == m {
      if m' != m { OrderDistinct(m, m'); }
    }
  }

  /**
   * After an uncancelled cycle the item holds the downloaded image of a
   * single-valued category when that category was downloaded, and its old
   * image (or none) otherwise.
   */
  lemma CycleSingleImageStored(t: SingleImageType, cfg: Config, doc: Manifest, st: ItemState,
                               store: AcquisitionTask -> string, cancel: Option<nat>)
    requires doc.hasChildNodes && StepsRun(cancel) == |ORDER|
    ensures SlotOf(Cycle(cfg, doc, st, store, cancel).state, t)
         == if Wants(t, cfg, st) && HasUrl(NodeFor(t, cfg, doc))
            then ImageSlot(Some(store(AcquisitionTask(t, NodeFor(t, cfg, doc).value, FixedFile(t)))))
            else SlotOf(st, t)
  {
    CycleIsIndependentSteps(cfg, doc, st, store, cancel);
  }

  /**
   * Backdrops in an uncancelled cycle: attempted only when the toggle is on
   * and the item had none; the list then holds one stored path per download
   * of BackdropTasks, otherwise it is unchanged.
   */
  lemma CycleBackdrops(cfg: Config, doc: Manifest, st: ItemState, store: AcquisitionTask -> string,
                       cancel: Option<nat>)
    requires doc.hasChildNodes && StepsRun(cancel) == |ORDER|
    ensures var res := Cycle(cfg, doc, st, store, cancel);
      res.state.backdrops
        == if cfg.images.backdrops && st.backdrops == []
           then StoredPaths(BackdropTasks(doc.backgrounds, cfg.maxBackdrops), store)
           else st.backdrops
  {
    CycleIsIndependentSteps(cfg, doc, st, store, cancel);
    var res := Cycle(cfg, doc, st, store, cancel);
    assert SlotOf(res.state, Backdrop) == SlotOf(BackdropStep(cfg, doc, st, store).state, Backdrop);
  }

  /**
   * A cancelled cycle issues no download for the steps at or after the
   * checkpoint that observed the token, and records no status.
   */
  lemma CancelledCycleStopsIssuing(cfg: Config, doc: Manifest, st: ItemState, store: AcquisitionTask -> string,
                                   k: nat)
    requires k < |ORDER| && (k == 0 || doc.hasChildNodes)
    ensures var res := Cycle(cfg, doc, st, store, Some(k));
      && res.outcome == Cancelled
      && (forall n :: 0 <= n < |res.tasks| ==> res.tasks[n].kind in ORDER[..k])
  {
    var cancel := Some(k);
    if k > 0 && doc.hasChildNodes {
      RunFromIndependent(0, cfg, doc, st, st, store, cancel);
      IndependentKinds(0, k, cfg, doc, st, store);
    }
  }

  lemma {:induction false} IndependentKinds(i: nat, j: nat, cfg: Config, doc: Manifest, st: ItemState,
                                            store: AcquisitionTask -> string)
    requires j <= |ORDER|
    ensures forall n :: 0 <= n < |IndependentTasks(i, j, cfg, doc, st, store)| ==>
              IndependentTasks(i, j, cfg, doc, st, store)[n].kind in ORDER[i..j]
    decreases j - i
  {
    if i < j {
      var head: seq<AcquisitionTask> := Step(ORDER[i], cfg, doc, st, store).tasks;
      var rest: seq<AcquisitionTask> := IndependentTasks(i + 1, j, cfg, doc, st, store);
      StepTaskKinds(ORDER[i], cfg, doc, st, store);
      IndependentKinds(i + 1, j, cfg, doc, st, store);
      forall n | 0 <= n < |head + rest| ensures (head + rest)[n].kind in ORDER[i..j] {
        if n < |head| {
          assert ORDER[i..j][0] == ORDER[i];
        } else {
          var x := rest[n - |head|].kind;
          assert x in ORDER[i + 1..j];
          var p :| 0 <= p < |ORDER[i + 1..j]| && ORDER[i + 1..j][p] == x;
          assert ORDER[i..j][p + 1] == x;
        }
      }
    }
  }

  /**
   * With every image toggle off, a cycle downloads nothing and leaves the
   * item as it was, which is why NeedsRefresh reports no work in that case.
   */
  lemma AllTogglesOffNothingToDo(cfg: Config, doc: Manifest, st: ItemState, store: AcquisitionTask -> string,
                                 cancel: Option<nat>)
    requires !Eligibility.AnyImageEnabled(cfg.images)
    ensures Cycle(cfg, doc, st, store, cancel).tasks == []
    ensures Cycle(cfg, doc, st, store, cancel).state == st
  {
    if !Observed(cancel, 0) && doc.hasChildNodes {
      NothingEnabledRunFrom(0, cfg, doc, st, store, cancel);
    }
  }

  lemma {:induction false} NothingEnabledRunFrom(i: nat, cfg: Config, doc: Manifest, st: ItemState,
                                                 store: AcquisitionTask -> string, cancel: Option<nat>)
    requires i < |ORDER| && !Eligibility.AnyImageEnabled(cfg.images)
    ensures RunFrom(i, cfg, doc, st, store, cancel).tasks == []
    ensures RunFrom(i, cfg, doc, st, store, cancel).state == st
    decreases |ORDER| - i
  {
    var r := Step(ORDER[i], cfg, doc, st, store);
    assert r == StepResult(st, []);
    if i + 1 < |ORDER| && !Observed(cancel, i + 1) {
      NothingEnabledRunFrom(i + 1, cfg, doc, st, store, cancel);
    }
  }
}
