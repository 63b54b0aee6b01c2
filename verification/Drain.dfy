/**
 Draining before scale-down. A pass that is about to lower a replica count first has the highest pod drained, keeping
 the progress of the drain in the cluster's status. The worker reconciler and the indexer reconciler (outside
 node-pool mode) run the same protocol; this is the protocol of one of them.
 */
module Drain {
  import opened Prelude

  datatype Phase = Unset | Idle | Pending | Draining | Verifying | Complete | Failed | RollingBack

  /** ComponentDrainStatus, without its message and load figures. */
  datatype Status = Status(phase: Phase, targetPod: Option<int>, previousReplicas: Option<int>,
                           targetReplicas: Option<int>, progress: int, startTime: Option<Time>, attemptCount: int,
                           nextRetryTime: Option<Time>, lastTransition: Option<Time>)

  const IDLE := Status(Idle, None, None, None, 0, None, 0, None, None)

  predicate ValidTransition(from: Phase, to: Phase) {
    match from
    case Unset => false
    case Idle => to == Pending
    case Pending => to in {Draining, Idle}
    case Draining => to in {Verifying, Failed}
    case Verifying => to in {Complete, Failed}
    case Complete => to == Idle
    case Failed => to in {RollingBack, Idle}
    case RollingBack => to in {Pending, Failed, Idle}
  }

  /** TransitionTo: the status after a transition, unchanged when it is not allowed. An unset phase counts as idle. */
  function Moved(s: Status, to: Phase, now: Time): (r: Status)
    ensures ValidTransition(if s.phase == Unset then Idle else s.phase, to) ==> r.phase == to
  {
    if !ValidTransition(if s.phase == Unset then Idle else s.phase, to) then s
    else match to
      case Idle => IDLE.(lastTransition := Some(now))
      case Pending => s.(phase := to, lastTransition := Some(now), startTime := Some(now), progress := 0)
      case Complete => s.(phase := to, lastTransition := Some(now), progress := 100)
      case _ => s.(phase := to, lastTransition := Some(now))
  }

  function Started(s: Status, replicas: int, desired: int, now: Time): Status {
    if s.phase != Idle then s
    else Status(Pending, Some(replicas - 1), Some(replicas), Some(desired), 0, Some(now), 1, s.nextRetryTime, Some(now))
  }

  function Clamp(percent: int): int { if percent < 0 then 0 else if percent > 100 then 100 else percent }

  /** What a drain monitor reports. */
  datatype Progress = Progress(percent: int, complete: bool)

  /** Everything outside the operator that a scale-down check meets. An absent answer is an error. */
  datatype Answers = Answers(now: Time, workload: Option<Option<int>>, clientReady: bool, startAccepted: bool,
                             progress: Option<Progress>, empty: Option<bool>)

  /** What a scale-down check tells the controller. */
  datatype Verdict = Errored | Proceed | Wait | Drained

  /** The status, whether a drainer object is held in memory, and the verdict after a check. */
  datatype Checked = Checked(status: Status, drainer: bool, verdict: Verdict)

  /** A scale-down: the workload exists with more replicas than desired. */
  predicate ScalesDown(a: Answers, desired: int) {
    a.workload.Some? && a.workload.value.Some? && desired < a.workload.value.value
  }

  /** CheckScaleDownDrain. */
  function Check(s: Status, drainer: bool, a: Answers, desired: int, enabled: bool): Checked {
    if a.workload.None? then Checked(s, drainer, Errored)
    else if !ScalesDown(a, desired) || !enabled then Checked(s, drainer, Proceed)
    else match s.phase
      case Unset | Idle => CheckIdle(s, drainer, a, a.workload.value.value, desired)
      case Pending | Draining => Checked(if drainer then Monitored(s, a) else s, drainer, Wait)
      case Verifying =>
        if !drainer || a.empty.None? then Checked(s, drainer, Proceed)
        else if a.empty.value then Checked(Moved(s, Complete, a.now), drainer, Drained)
        else Checked(s, drainer, Wait)
      case Complete => Checked(s, drainer, Drained)
      case Failed | RollingBack => Checked(s, drainer, Proceed)
  }

  function CheckIdle(s: Status, drainer: bool, a: Answers, replicas: int, desired: int): Checked {
    if !a.clientReady then Checked(s, drainer, Errored)
    else if s.phase == Unset then Checked(s, true, Errored)
    else
      var started := Started(s, replicas, desired, a.now);
      if a.startAccepted then Checked(Moved(started, Draining, a.now), true, Wait)
      else Checked(Moved(started, Failed, a.now), true, Errored)
  }

  function Monitored(s: Status, a: Answers): Status {
    if a.progress.None? then s
    else
      var t := s.(progress := Clamp(a.progress.value.percent));
      if a.progress.value.complete then Moved(t, Verifying, a.now) else t
  }

  /** The reconciler of one component: its drain status and the drainer it holds in memory. */
  class DrainReconciler {
    var status: Status
    var drainer: bool

    constructor ()
      ensures status == IDLE && !drainer
    {
      status, drainer := IDLE, false;
    }

    method TransitionTo(to: Phase, now: Time) returns (ok: bool)
      modifies this`status
      ensures status == Moved(old(status), to, now)
      ensures ok <==> ValidTransition(if old(status).phase == Unset then Idle else old(status).phase, to)
    {
      var current := status.phase;
      if current == Unset { current := Idle; }
      if !ValidTransition(current, to) { return false; }
      status := status.(phase := to, lastTransition := Some(now));
      if to == Idle {
        status := status.(targetPod := None, previousReplicas := None, targetReplicas := None, progress := 0,
          startTime := None, attemptCount := 0, nextRetryTime := None);
      } else if to == Pending {
        status := status.(startTime := Some(now), progress := 0);
      } else if to == Complete {
        status := status.(progress := 100);
      }
      return true;
    }

    method StartDrain(a: Answers, replicas: int, desired: int) returns (ok: bool)
      requires status.phase in {Unset, Idle}
      modifies this
      ensures Checked(status, drainer, if ok then Wait else Errored)
           == CheckIdle(old(status), old(drainer), a, replicas, desired)
    {
      if !a.clientReady { return false; }
      drainer := true;
      if status.phase != Idle { return false; }
      status := status.(phase := Pending, targetPod := Some(replicas - 1), previousReplicas := Some(replicas),
        targetReplicas := Some(desired), startTime := Some(a.now), lastTransition := Some(a.now), progress := 0,
        attemptCount := 1);
      if !a.startAccepted {
        var _ := TransitionTo(Failed, a.now);
        return false;
      }
      var _ := TransitionTo(Draining, a.now);
      return true;
    }

    method MonitorDrainProgress(a: Answers)
      modifies this`status
      ensures status == if drainer then Monitored(old(status), a) else old(status)
    {
      if !drainer || a.progress.None? { return; }
      var percent := a.progress.value.percent;
      if percent < 0 { percent := 0; }
      if percent > 100 { percent := 100; }
      status := status.(progress := percent);
      if a.progress.value.complete {
        var _ := TransitionTo(Verifying, a.now);
      }
    }

    method CheckScaleDownDrain(a: Answers, desired: int, enabled: bool) returns (verdict: Verdict)
      modifies this
      ensures Checked(status, drainer, verdict) == Check(old(status), old(drainer), a, desired, enabled)
    {
      if a.workload.None? { return Errored; }
      if a.workload.value.None? { return Proceed; }
      var replicas := a.workload.value.value;
      if desired >= replicas || !enabled { return Proceed; }
      match status.phase {
        case Unset | Idle =>
          var ok := StartDrain(a, replicas, desired);
          return if ok then Wait else Errored;
        case Pending | Draining =>
          MonitorDrainProgress(a);
          return Wait;
        case Verifying =>
          if !drainer || a.empty.None? { return Proceed; }
          if !a.empty.value { return Wait; }
          var _ := TransitionTo(Complete, a.now);
          return Drained;
        case Complete => return Drained;
        case Failed | RollingBack => return Proceed;
      }
    }
  }

  // ----- What the table and the check mean -----

  /** The allowed transitions. */
  lemma TransitionTable(from: Phase, to: Phase)
    ensures ValidTransition(from, to) <==>
      (from, to) in {(Idle, Pending), (Pending, Draining), (Pending, Idle), (Draining, Verifying), (Draining, Failed),
                     (Verifying, Complete), (Verifying, Failed), (Complete, Idle), (Failed, RollingBack),
                     (Failed, Idle), (RollingBack, Pending), (RollingBack, Failed), (RollingBack, Idle)}
  {}

  /** However a status moves from idle, it is complete only right after pending, draining and verifying. */
  lemma CompleteIsVerified(phases: seq<Phase>, i: nat)
    requires i < |phases| && phases[0] == Idle && phases[i] == Complete
    requires forall j :: 0 <= j < i ==> ValidTransition(phases[j], phases[j + 1])
    ensures i >= 4 && phases[i - 4] in {Idle, RollingBack} && phases[i - 3..i] == [Pending, Draining, Verifying]
  {
    assert ValidTransition(phases[i - 1], phases[i]);
    assert phases[i - 1] == Verifying && ValidTransition(phases[i - 2], phases[i - 1]);
    assert phases[i - 2] == Draining && ValidTransition(phases[i - 3], phases[i - 2]);
    assert phases[i - 3] == Pending && ValidTransition(phases[i - 4], phases[i - 3]);
    assert phases[i - 3..i] == [phases[i - 3], phases[i - 2], phases[i - 1]];
  }

  /** An allowed transition sets its time; entering pending restarts the clock and the progress, completing fills it. */
  lemma TransitionEffect(s: Status, to: Phase, now: Time)
    requires ValidTransition(if s.phase == Unset then Idle else s.phase, to)
    ensures var r := Moved(s, to, now);
      && r.phase == to && r.lastTransition == Some(now)
      && (to == Idle ==> r == Status(Idle, None, None, None, 0, None, 0, None, Some(now)))
      && (to != Idle ==>
            && SameCounts(r, s) && r.nextRetryTime == s.nextRetryTime
            && r.startTime == (if to == Pending then Some(now) else s.startTime)
            && r.progress == if to == Pending then 0 else if to == Complete then 100 else s.progress)
  {}

  predicate SameCounts(s: Status, t: Status) {
    && s.targetPod == t.targetPod && s.previousReplicas == t.previousReplicas && s.targetReplicas == t.targetReplicas
    && s.attemptCount == t.attemptCount
  }

  function Distance(a: int, b: int): int { if a < b then b - a else a - b }

  /** Progress is the percentage nearest to what is reported. */
  lemma ClampNearest(percent: int, q: int)
    ensures 0 <= Clamp(percent) <= 100
    ensures 0 <= q <= 100 ==> Distance(percent, Clamp(percent)) <= Distance(percent, q)
  {}

  /** A scale-down with drain enabled. */
  predicate Wanted(a: Answers, desired: int, enabled: bool) {
    enabled && a.workload.Some? && a.workload.value.Some? && desired < a.workload.value.value
  }

  /** When the check lets a finished drain through, and when it reports an error; see WaitsIff for when it waits. */
  lemma VerdictIff(s: Status, drainer: bool, a: Answers, desired: int, enabled: bool)
    ensures var v := Check(s, drainer, a, desired, enabled).verdict;
      && (v == Drained <==>
            Wanted(a, desired, enabled)
            && (s.phase == Complete || (s.phase == Verifying && drainer && a.empty == Some(true))))
      && (v == Errored <==>
            || a.workload.None?
            || (Wanted(a, desired, enabled)
                && (s.phase == Unset || (s.phase == Idle && !(a.clientReady && a.startAccepted)))))
  {}

  /** A drainer appears with the first attempt to start a drain that finds its client. */
  lemma DrainerIff(s: Status, drainer: bool, a: Answers, desired: int, enabled: bool)
    ensures Check(s, drainer, a, desired, enabled).drainer <==>
      drainer || (Wanted(a, desired, enabled) && s.phase in {Unset, Idle} && a.clientReady)
  {}

  // ----- Runs -----

  /** The persisted status, the drainer in memory and the replica count of the workload, if it exists. */
  datatype World = World(status: Status, drainer: bool, replicas: Option<int>)

  /**
   One pass as this component meets it. `arrives`: no earlier stage ends the pass. `rollbackDone`: the answer of the
   rollback check. `lookup`: the workload can be read. `applied`: the component's reconcile sets the replica count; if
   it fails before that, the pass ends without a status write. `saved`: a write of the drain status lands. `stale`: the
   older status the pass starts from when the cache is behind.
   */
  datatype Pass = Pass(stale: Option<Status>, desired: int, enabled: bool, arrives: bool, rollbackDone: bool,
                       lookup: bool, answers: Answers, applied: bool, saved: bool)

  /** A pass, a manual reset of the status, or the drainer object coming or going with another cluster or a restart. */
  datatype Event = Reconcile(pass: Pass) | ManualReset(now: Time) | DrainerIs(held: bool)

  function AfterRollbackCheck(s: Status, done: bool): Status {
    if s.phase == RollingBack && done then s.(phase := Failed) else s
  }

  predicate RetryDue(s: Status, now: Time) {
    s.phase in {Failed, RollingBack} && s.nextRetryTime.Some? && now > s.nextRetryTime.value
  }

  predicate RetryWaits(s: Status, now: Time) {
    s.phase in {Failed, RollingBack} && s.nextRetryTime.Some? && now < s.nextRetryTime.value
  }

  /** The status the pass starts from. */
  function Start(w: World, p: Pass): Status { if p.stale.Some? then p.stale.value else w.status }

  function Seen(w: World, p: Pass): Answers {
    p.answers.(workload := if p.lookup then Some(w.replicas) else None)
  }

  /** The check a pass makes, if it gets that far. */
  function CheckOf(w: World, p: Pass): Option<Checked> {
    var s := AfterRollbackCheck(Start(w, p), p.rollbackDone);
    if RetryDue(s, p.answers.now) || RetryWaits(s, p.answers.now) || !p.arrives then None
    else Some(Check(s, w.drainer, Seen(w, p), p.desired, p.enabled))
  }

  function Saved(w: World, p: Pass, s: Status): Status { if p.saved then s else w.status }

  /**
   A pass over one component. The reset that follows a finished drain is deferred past the status write, so it clears
   the drainer but never reaches the stored status.
   */
  function AfterPass(w: World, p: Pass): World {
    var s := AfterRollbackCheck(Start(w, p), p.rollbackDone);
    if RetryDue(s, p.answers.now) then w.(status := Saved(w, p, s.(phase := Pending)))
    else match CheckOf(w, p)
      case None => w.(status := if RetryWaits(s, p.answers.now) then w.status else Saved(w, p, s))
      case Some(c) =>
        World(if c.verdict == Wait || p.applied then Saved(w, p, c.status) else w.status,
              c.drainer && c.verdict != Drained,
              if c.verdict != Wait && p.applied then Some(p.desired) else w.replicas)
  }

  function Step(w: World, e: Event): World {
    match e
    case Reconcile(p) => AfterPass(w, p)
    case ManualReset(now) => w.(status := IDLE.(lastTransition := Some(now)))
    case DrainerIs(held) => w.(drainer := held)
  }

  ghost predicate IsRun(states: seq<World>, events: seq<Event>) {
    && |states| == |events| + 1
    && states[0].status == IDLE
    && forall i :: 0 <= i < |events| ==> Cached(states, events[i], i) && states[i + 1] == Step(states[i], events[i])
  }

  /** An older status that a pass starts from has been stored before. */
  ghost predicate Cached(states: seq<World>, e: Event, i: nat)
    requires i < |states|
  {
    e.Reconcile? && e.pass.stale.Some? ==> exists j :: 0 <= j <= i && states[j].status == e.pass.stale.value
  }

  /** No pass of the step starts from an older status. */
  predicate IsFresh(e: Event) { e.Reconcile? ==> e.pass.stale.None? }

  /** The step takes pods away from a component whose drain is enabled. */
  predicate Lowers(w: World, e: Event) {
    e.Reconcile? && e.pass.enabled && w.replicas.Some? && Step(w, e).replicas.Some?
    && Step(w, e).replicas.value < w.replicas.value
  }

  /**
   The pass found the drained pod `pod` empty: its check moves the drain that was started on it from verifying to
   complete, and `pod` is the topmost one, which is the pod the check asks about.
   */
  predicate FindsEmpty(w: World, e: Event, pod: int) {
    && e.Reconcile? && CheckOf(w, e.pass).Some?
    && AfterRollbackCheck(Start(w, e.pass), e.pass.rollbackDone).phase == Verifying
    && CheckOf(w, e.pass).value.status.phase == Complete
    && w.replicas.Some? && pod == w.replicas.value - 1
    && CheckOf(w, e.pass).value.status.targetPod == Some(pod)
  }

  /** The drain is being verified, the drainer is at hand and answers empty, and the workload can be read. */
  predicate Verified(w: World, p: Pass) {
    p.arrives && p.lookup && Start(w, p).phase == Verifying && w.drainer && p.answers.empty == Some(true)
  }

  /** A pod is found empty exactly when a verified drain of it meets an enabled scale-down and it is topmost. */
  lemma FindsEmptyIff(w: World, p: Pass, pod: int)
    ensures FindsEmpty(w, Reconcile(p), pod) <==>
      && Verified(w, p) && p.enabled
      && w.replicas.Some? && p.desired < w.replicas.value && pod == w.replicas.value - 1
      && Start(w, p).targetPod == Some(pod)
  {}

  /** Every pod the step removes was found empty in it. */
  predicate Safe(w: World, e: Event)
    requires Lowers(w, e)
  {
    forall pod :: Step(w, e).replicas.value <= pod < w.replicas.value ==> FindsEmpty(w, e, pod)
  }

  /** What the operator itself can have stored: no failed or rolled-back drain, no retry time, and a percentage. */
  predicate OperatorMade(s: Status) {
    && s.phase !in {Unset, Failed, RollingBack} && s.nextRetryTime.None?
    && 0 <= s.progress <= 100 && (s.phase == Complete ==> s.progress == 100)
  }

  // ----- One pass -----

  lemma OperatorMadeStep(w: World, e: Event)
    requires OperatorMade(w.status) && (e.Reconcile? ==> OperatorMade(Start(w, e.pass)))
    ensures OperatorMade(Step(w, e).status)
  {}

  /**
   The exact condition for a safe scale-down: the removed pods were all found empty iff the drain was being verified by
   a live drainer that answers empty, a single pod is removed, and it is the one that was drained.
   */
  lemma SafeIff(w: World, e: Event)
    requires Lowers(w, e)
    ensures Safe(w, e) <==>
      && Verified(w, e.pass) && e.pass.desired == w.replicas.value - 1
      && Start(w, e.pass).targetPod == Some(e.pass.desired)
  {
    FindsEmptyIff(w, e.pass, w.replicas.value - 1);
    FindsEmptyIff(w, e.pass, e.pass.desired);
    assert Safe(w, e) ==> FindsEmpty(w, e, w.replicas.value - 1);
    assert Safe(w, e) ==> FindsEmpty(w, e, e.pass.desired);
  }

  /** A drain under way blocks the scale-down, whatever the drainer answers. */
  lemma DrainBlocks(w: World, e: Event)
    requires e.Reconcile? && e.pass.lookup && Start(w, e.pass).phase in {Pending, Draining}
    ensures !Lowers(w, e)
  {}

  /** A start that fails lowers the count undrained in the same pass, and stores a drain that can only wait. */
  lemma FailedStartScalesDown(w: World, p: Pass)
    requires Start(w, p) == IDLE && w.replicas.Some? && p.desired < w.replicas.value
    requires p.enabled && p.arrives && p.lookup
    requires p.answers.clientReady && !p.answers.startAccepted && p.applied && p.saved
    ensures Lowers(w, Reconcile(p)) && !Safe(w, Reconcile(p))
    ensures AfterPass(w, p).status.phase == Pending
  {
    SafeIff(w, Reconcile(p));
  }

  /** A reconcile that fails after a finished drain costs the drain: the next pass scales down without verifying. */
  lemma FailedReconcileForgetsDrain(w: World, p: Pass, q: Pass)
    requires w.status.phase == Verifying && w.drainer && w.replicas.Some? && w.status.nextRetryTime.None?
    requires p.stale.None? && q.stale.None?
    requires forall r :: r in {p, q} ==> r.enabled && r.arrives && r.lookup && r.desired < w.replicas.value
    requires p.answers.empty == Some(true) && !p.applied && q.applied
    ensures var v := AfterPass(w, p);
      v.replicas == w.replicas && Lowers(v, Reconcile(q)) && !Safe(v, Reconcile(q))
  {
    SafeIff(AfterPass(w, p), Reconcile(q));
  }

  // ----- Whole runs -----

  lemma {:induction false} RunOperatorMade(states: seq<World>, events: seq<Event>, i: nat)
    requires IsRun(states, events) && i < |states|
    ensures OperatorMade(states[i].status)
    decreases i, 0
  {
    if i > 0 {
      RunOperatorMade(states, events, i - 1);
      StartOperatorMade(states, events, i - 1);
      OperatorMadeStep(states[i - 1], events[i - 1]);
    }
  }

  lemma StartOperatorMade(states: seq<World>, events: seq<Event>, i: nat)
    requires IsRun(states, events) && i < |events|
    ensures events[i].Reconcile? ==> OperatorMade(Start(states[i], events[i].pass))
    decreases i, 1
  {
    RunOperatorMade(states, events, i);
    if events[i].Reconcile? && events[i].pass.stale.Some? {
      assert Cached(states, events[i], i);
      var j :| 0 <= j <= i && states[j].status == events[i].pass.stale.value;
      RunOperatorMade(states, events, j);
    }
  }

  // ----- Which pod is drained -----

  predicate UnderWay(phase: Phase) { phase in {Pending, Draining, Verifying, Complete} }

  /** Pass j, which found an idle status and a wanted scale-down, started this drain on the pod then topmost. */
  ghost predicate StartedBy(states: seq<World>, events: seq<Event>, s: Status, j: nat) {
    && j < |states| && j < |events| && events[j].Reconcile? && states[j].replicas.Some?
    && var p, replicas := events[j].pass, states[j].replicas.value;
       && p.arrives && p.lookup && p.enabled && Start(states[j], p).phase == Idle && p.desired < replicas
       && s.targetPod == Some(replicas - 1)
       && s.previousReplicas == Some(replicas) && s.targetReplicas == Some(p.desired)
       && s.startTime == Some(p.answers.now) && s.attemptCount == 1
  }

  ghost predicate HasOrigin(states: seq<World>, events: seq<Event>, s: Status, i: nat) {
    UnderWay(s.phase) ==> exists j: nat :: j < i && StartedBy(states, events, s, j)
  }

  predicate SameDrain(s: Status, t: Status) {
    && s.targetPod == t.targetPod && s.previousReplicas == t.previousReplicas && s.targetReplicas == t.targetReplicas
    && s.startTime == t.startTime && s.attemptCount == t.attemptCount
  }

  /** A pass leaves the stored drain, goes on with the one it starts from, or starts one. */
  lemma OriginStep(states: seq<World>, events: seq<Event>, i: nat)
    requires i < |states| && i < |events| && events[i].Reconcile?
    requires OperatorMade(states[i].status) && OperatorMade(Start(states[i], events[i].pass))
    ensures var s, t := Step(states[i], events[i]).status, Start(states[i], events[i].pass);
      UnderWay(s.phase) ==>
        || s == states[i].status || (UnderWay(t.phase) && SameDrain(s, t)) || StartedBy(states, events, s, i)
  {}

  /**
   Over every run, cached starts included, a drain under way is one that some earlier pass started on the topmost pod,
   and it carries the replica counts of that pass.
   */
  lemma {:induction false} DrainHasOrigin(states: seq<World>, events: seq<Event>, i: nat)
    requires IsRun(states, events) && i < |states|
    ensures HasOrigin(states, events, states[i].status, i)
    decreases i, 0
  {
    if i > 0 && UnderWay(states[i].status.phase) && events[i - 1].Reconcile? {
      var w, p, s := states[i - 1], events[i - 1].pass, states[i].status;
      RunOperatorMade(states, events, i - 1);
      StartOperatorMade(states, events, i - 1);
      OriginStep(states, events, i - 1);
      DrainHasOrigin(states, events, i - 1);
      StartHasOrigin(states, events, i - 1);
      if UnderWay(Start(w, p).phase) && SameDrain(s, Start(w, p)) {
        var j: nat :| j < i - 1 && StartedBy(states, events, Start(w, p), j);
        assert StartedBy(states, events, s, j);
      }
    } else if i > 0 {
      DrainHasOrigin(states, events, i - 1);
    }
  }

  lemma StartHasOrigin(states: seq<World>, events: seq<Event>, i: nat)
    requires IsRun(states, events) && i < |events| && events[i].Reconcile?
    ensures HasOrigin(states, events, Start(states[i], events[i].pass), i)
    decreases i, 1
  {
    DrainHasOrigin(states, events, i);
    var s := Start(states[i], events[i].pass);
    if events[i].pass.stale.Some? {
      assert Cached(states, events[i], i);
      var k :| 0 <= k <= i && states[k].status == s;
      DrainHasOrigin(states, events, k);
      if UnderWay(s.phase) {
        var j: nat :| j < k && StartedBy(states, events, s, j);
      }
    }
  }

  /** The retry and rollback branches never act: over every run, cached starts included, no pass ends in them. */
  lemma RetryNeverActs(states: seq<World>, events: seq<Event>, i: nat)
    requires IsRun(states, events) && i < |events| && events[i].Reconcile?
    ensures var p := events[i].pass; var s := Start(states[i], p);
      AfterRollbackCheck(s, p.rollbackDone) == s && !RetryDue(s, p.answers.now) && !RetryWaits(s, p.answers.now)
  {
    StartOperatorMade(states, events, i);
  }

  /** The stored progress is always a percentage, and full when the drain is complete. */
  lemma ProgressIsPercentage(states: seq<World>, events: seq<Event>, i: nat)
    requires IsRun(states, events) && i < |states|
    ensures 0 <= states[i].status.progress <= 100
    ensures states[i].status.phase == Complete ==> states[i].status.progress == 100
  {
    RunOperatorMade(states, events, i);
  }

  /**
   What they would do on a status the operator does not make itself: a retry that is due makes the drain pending and
   ends the pass, one that is ahead ends it without a write, and one that is due this very instant does neither.
   */
  lemma RetryBranches(w: World, p: Pass, t: Time)
    requires Start(w, p).phase in {Failed, RollingBack} && Start(w, p).nextRetryTime == Some(t)
    ensures p.answers.now > t ==>
      AfterPass(w, p) == if p.saved then w.(status := Start(w, p).(phase := Pending)) else w
    ensures p.answers.now < t ==> AfterPass(w, p) == w
    ensures p.answers.now == t ==> (CheckOf(w, p).Some? <==> p.arrives)
  {}

  /** A finished rollback counts as a failed drain, an unfinished one is left. */
  lemma RollbackCheck(s: Status, done: bool)
    ensures AfterRollbackCheck(s, done) == s.(phase := if s.phase == RollingBack && done then Failed else s.phase)
    ensures s.phase == RollingBack ==> (AfterRollbackCheck(s, done).phase == Failed <==> done)
  {}

  /** No manual reset and no cached start from an older status in steps i to j - 1. */
  ghost predicate Undisturbed(events: seq<Event>, i: nat, j: nat) {
    forall k :: i <= k < j && k < |events| ==> !events[k].ManualReset? && IsFresh(events[k])
  }

  /** Pending and complete drains: the operator itself never moves either of them on. */
  predicate Stuck(phase: Phase) { phase in {Pending, Complete} }

  lemma StuckStep(w: World, e: Event)
    requires Stuck(w.status.phase) && !e.ManualReset?
    ensures IsFresh(e) || !e.pass.saved || Start(w, e.pass).phase == w.status.phase ==>
      Step(w, e).status.phase == w.status.phase
    ensures IsFresh(e) && Lowers(w, e) ==> !Safe(w, e)
  {
    if Lowers(w, e) { SafeIff(w, e); }
  }

  /** A cached start does unstick it: a saved pass that starts from a drain still running puts that drain back. */
  lemma StaleStartUnsticks(w: World, p: Pass)
    requires Stuck(w.status.phase) && p.stale.Some? && p.stale.value.phase == Draining && p.saved
    requires p.arrives && p.lookup && p.enabled && w.replicas.Some? && p.desired < w.replicas.value
    ensures Step(w, Reconcile(p)).status.phase in {Draining, Verifying}
  {}

  /** A stored phase that is stuck stays until a manual reset or a cached start from an older status. */
  lemma {:induction false} StuckForever(states: seq<World>, events: seq<Event>, i: nat, j: nat)
    requires IsRun(states, events) && i <= j < |states| && Stuck(states[i].status.phase)
    requires Undisturbed(events, i, j)
    ensures states[j].status.phase == states[i].status.phase
  {
    if i < j {
      StuckForever(states, events, i, j - 1);
      StuckStep(states[j - 1], events[j - 1]);
    }
  }

  /** A safe scale-down whose status is saved leaves the stored phase at complete. */
  lemma SafeStoresComplete(w: World, e: Event)
    requires Lowers(w, e) && Safe(w, e) && e.pass.saved
    ensures Step(w, e).status.phase == Complete
  {
    SafeIff(w, e);
  }

  /**
   One drain per status: after a safe scale-down whose status is saved, every later scale-down up to a manual reset or a
   cached start from an older status removes pods nobody drained.
   */
  lemma OnlyOneSafeScaleDown(states: seq<World>, events: seq<Event>, i: nat, j: nat)
    requires IsRun(states, events) && i < j < |events| && Undisturbed(events, i + 1, j + 1)
    requires Lowers(states[i], events[i]) && Safe(states[i], events[i]) && events[i].pass.saved
    requires Lowers(states[j], events[j])
    ensures !Safe(states[j], events[j])
  {
    SafeStoresComplete(states[i], events[i]);
    StuckForever(states, events, i + 1, j);
    StuckStep(states[j], events[j]);
  }

  /** A pending drain with a scale-down still wanted waits in every pass that gets to it while it is undisturbed. */
  lemma PendingWaitsForever(states: seq<World>, events: seq<Event>, i: nat, j: nat)
    requires IsRun(states, events) && i <= j < |events| && Undisturbed(events, i, j + 1)
    requires states[i].status.phase == Pending
    requires events[j].Reconcile? && events[j].pass.arrives && events[j].pass.lookup && events[j].pass.enabled
    requires states[j].replicas.Some? && events[j].pass.desired < states[j].replicas.value
    ensures Step(states[j], events[j]).replicas == states[j].replicas
    ensures Step(states[j], events[j]).status.phase == Pending
  {
    StuckForever(states, events, i, j);
    StuckStep(states[j], events[j]);
  }

  // ----- Without faults -----

  /**
   A step without faults: the status is current, the workload is readable, starts and answers succeed, a reconcile that
   follows a finished drain goes through, and the drainer is kept. Such a reconcile that fails is a fault: the reset
   drops the drainer all the same. Reconciles that finish no drain may fail.
   */
  predicate Faultless(w: World, e: Event) {
    match e
    case Reconcile(p) =>
      && p.stale.None? && p.lookup && p.enabled
      && p.answers.clientReady && p.answers.startAccepted && p.answers.empty.Some?
      && (CheckOf(w, p).Some? && CheckOf(w, p).value.verdict == Drained ==> p.applied)
    case ManualReset(_) => true
    case DrainerIs(held) => held
  }

  ghost predicate FaultlessUpTo(states: seq<World>, events: seq<Event>, i: nat) {
    forall k :: 0 <= k < i && k < |events| && k < |states| ==> Faultless(states[k], events[k])
  }

  /** Before the first scale-down: never pending, never complete, and a drain under way has its drainer. */
  predicate Fresh(w: World) {
    w.status.phase in {Idle, Draining, Verifying} && (w.status.phase != Idle ==> w.drainer)
  }

  lemma FreshStep(w: World, e: Event)
    requires Fresh(w) && OperatorMade(w.status) && Faultless(w, e) && !Lowers(w, e)
    ensures Fresh(Step(w, e))
  {}

  /** Without faults, the state stays fresh until something is scaled down. */
  lemma {:induction false} FreshRun(states: seq<World>, events: seq<Event>, i: nat)
    requires IsRun(states, events) && i < |states| && FaultlessUpTo(states, events, i)
    requires forall k :: 0 <= k < i ==> !Lowers(states[k], events[k])
    ensures Fresh(states[i])
  {
    if i > 0 {
      FreshRun(states, events, i - 1);
      RunOperatorMade(states, events, i - 1);
      FreshStep(states[i - 1], events[i - 1]);
    }
  }

  /**
   Without faults the first scale-down waits for its drain and for its topmost pod to be empty. It is safe iff one pod
   goes and the replica count is still what it was when the drain was started.
   */
  lemma FirstScaleDownDrained(states: seq<World>, events: seq<Event>, i: nat)
    requires IsRun(states, events) && i < |events|
    requires FaultlessUpTo(states, events, i + 1) && Lowers(states[i], events[i])
    requires forall k :: 0 <= k < i ==> !Lowers(states[k], events[k])
    ensures Verified(states[i], events[i].pass)
    ensures Safe(states[i], events[i]) <==>
      && events[i].pass.desired == states[i].replicas.value - 1
      && states[i].status.previousReplicas == states[i].replicas
  {
    FreshRun(states, events, i);
    RunOperatorMade(states, events, i);
    SafeIff(states[i], events[i]);
    DrainHasOrigin(states, events, i);
    var j: nat :| j < i && StartedBy(states, events, states[i].status, j);
  }

  /** So while nobody asks for more replicas, the pod it removes first is the one that was drained and found empty. */
  lemma SteadyScaleDownDrained(states: seq<World>, events: seq<Event>, i: nat)
    requires IsRun(states, events) && i < |events|
    requires FaultlessUpTo(states, events, i + 1) && Lowers(states[i], events[i])
    requires forall k :: 0 <= k < i ==> states[k].replicas == states[i].replicas
    ensures FindsEmpty(states[i], events[i], states[i].replicas.value - 1)
    ensures Safe(states[i], events[i]) <==> events[i].pass.desired == states[i].replicas.value - 1
  {
    forall k | 0 <= k < i ensures !Lowers(states[k], events[k]) {
      assert states[k + 1] == Step(states[k], events[k]);
    }
    FirstScaleDownDrained(states, events, i);
    DrainHasOrigin(states, events, i);
    var j: nat :| j < i && StartedBy(states, events, states[i].status, j);
    FindsEmptyIff(states[i], events[i].pass, states[i].replicas.value - 1);
  }

  /** A pass of a run without faults, whose drain reports it is done. */
  function Calm(desired: int): Event {
    Reconcile(Pass(None, desired, true, true, false, true,
                   Answers(0, None, true, true, Some(Progress(100, true)), Some(true)), true, true))
  }

  /** A drain of the third pod under way, with its drainer at hand. */
  function ThirdPodDrained(phase: Phase, progress: int, replicas: int): World {
    World(Status(phase, Some(2), Some(3), Some(2), progress, Some(0), 1, None, Some(0)), true, Some(replicas))
  }

  lemma CalmSteps()
    ensures Step(World(IDLE, false, Some(3)), Calm(2)) == ThirdPodDrained(Draining, 0, 3)
    ensures Step(ThirdPodDrained(Draining, 0, 3), Calm(5)) == ThirdPodDrained(Draining, 0, 5)
    ensures Step(ThirdPodDrained(Draining, 0, 5), Calm(4)) == ThirdPodDrained(Verifying, 100, 5)
  {}

  lemma CalmScaleDown()
    ensures var w := ThirdPodDrained(Verifying, 100, 5);
      Lowers(w, Calm(4)) && Verified(w, Calm(4).pass) && Faultless(w, Calm(4)) && !Safe(w, Calm(4))
  {
    SafeIff(ThirdPodDrained(Verifying, 100, 5), Calm(4));
  }

  /**
   The drained pod need not be the removed one: a drain of the third pod, started for a scale-down from three, is taken
   for that of the fifth when the count is raised to five meanwhile.
   */
  lemma RaisedCountMovesTop() returns (states: seq<World>, events: seq<Event>)
    ensures IsRun(states, events) && |events| == 4 && FaultlessUpTo(states, events, 4)
    ensures forall k :: 0 <= k < 3 ==> !Lowers(states[k], events[k])
    ensures Lowers(states[3], events[3]) && events[3].pass.desired == states[3].replicas.value - 1
    ensures Verified(states[3], events[3].pass) && !Safe(states[3], events[3])
    ensures states[3].status.targetPod == Some(2) && states[3].replicas == Some(5)
  {
    CalmSteps();
    CalmScaleDown();
    hide Step, Safe, Verified, AfterRollbackCheck, RetryDue, RetryWaits, Check;
    events := [Calm(2), Calm(5), Calm(4), Calm(4)];
    var d := ThirdPodDrained(Verifying, 100, 5);
    states := [World(IDLE, false, Some(3)), ThirdPodDrained(Draining, 0, 3), ThirdPodDrained(Draining, 0, 5), d,
               Step(d, Calm(4))];
  }
}
