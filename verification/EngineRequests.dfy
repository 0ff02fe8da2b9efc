/** What each task of a run was started for, and that a finished schedule or probe hands back the
    handles it was asked for (nestor/src/fetch.rs:108-176, 212-310). */
module EngineRequests {
  import opened Common
  import opened Blocks
  import opened Origin
  import opened Engine
  import opened EngineOwnership

  /** What a task was started for: blocks `lo..hi` of a context, the first group `lo..hi` of an object
      nothing is known about, or to fetch for one of those. */
  datatype Request =
    | ForBlocks(ctx: ReadCtx, lo: nat, hi: nat)
    | ForProbe(obj: ObjectKey, lo: nat, hi: nat)
    | ForFetch

  function RequestOf(a: Action): Request {
    match a
    case Plan(StartSchedule(ctx, lo, hi)) => ForBlocks(ctx, lo, hi)
    case Probe(StartProbe(o, lo, hi, _)) => ForProbe(o, lo, hi)
    case _ => ForFetch
  }

  /** One request per task of the run. */
  ghost function Requests(w: World, run: seq<Action>): seq<Request>
    requires Exec(w, run).Some?
  {
    if run == [] then []
    else
      var n := |run| - 1;
      var earlier := Requests(w, run[..n]);
      if |Exec(w, run).value.tasks| == |Exec(w, run[..n]).value.tasks| then earlier else earlier + [RequestOf(run[n])]
  }

  /** A schedule is done when there is a handle for every block; a probe's handles start at its group
      and stay inside the group and the object. */
  ghost predicate Fits(w: World, r: Request, task: Task) {
    match task
    case Done => true
    case Scheduling(ctx, lo, hi, stage) =>
      && r == ForBlocks(ctx, lo, hi)
      && (stage.Rechecking? || stage.Spawning? ==> lo + |stage.handles| == hi)
    case Scheduled(ctx, lo, handles) =>
      || (r.ForBlocks? && r.ctx == ctx && r.lo == lo && r.hi == lo + |handles|)
      || (r.ForProbe? && r.lo == lo && ProbeFits(w, r, ctx, |handles|))
    case Probing(o, lo, hi, _, _) => r == ForProbe(o, lo, hi)
    case Adopting(ctx, lo, cursor, end, held, _) =>
      && r.ForProbe? && r.lo == lo && ProbeFits(w, r, ctx, |held|) && cursor == lo + |held|
      && (cursor < end ==> end <= Min(r.hi, Count(w.BlockSize(r.obj), ctx.meta.value.size)))
    case Fetching(_, _, _, _, _, _) => r.ForFetch?
  }

  predicate ProbeFits(w: World, r: Request, ctx: ReadCtx, count: nat)
    requires r.ForProbe?
  {
    && ctx.obj == r.obj && ctx.meta.Some?
    && (count > 0 ==> r.lo + count <= Min(r.hi, Count(w.BlockSize(r.obj), ctx.meta.value.size)))
  }

  ghost predicate AllFit(w: World, rs: seq<Request>, tasks: seq<Task>) {
    |rs| == |tasks| && forall t :: 0 <= t < |tasks| ==> Fits(w, rs[t], tasks[t])
  }

  /** The requests after a step: one more if it started a task. */
  function After(rs: seq<Request>, s: State, s': State, a: Action): seq<Request> {
    if |s'.tasks| == |s.tasks| then rs else rs + [RequestOf(a)]
  }

  lemma Kept(w: World, rs: seq<Request>, s: State, s': State, t: nat)
    requires AllFit(w, rs, s.tasks) && OthersKept(s, s', t) && Fits(w, rs[t], s'.tasks[t])
    ensures AllFit(w, rs, s'.tasks)
  {
  }

  lemma Joined(w: World, rs: seq<Request>, s: State, s': State, t: nat, r: Request)
    requires AllFit(w, rs, s.tasks) && |s'.tasks| == |s.tasks| + 1
    requires forall u :: 0 <= u < |s.tasks| && u != t ==> s'.tasks[u] == s.tasks[u]
    requires t < |s.tasks| ==> Fits(w, rs[t], s'.tasks[t])
    requires Fits(w, r, s'.tasks[|s.tasks|])
    ensures AllFit(w, rs + [r], s'.tasks)
  {
  }

  lemma PlanFits(w: World, rs: seq<Request>, s: State, a: PlanAction)
    requires AllFit(w, rs, s.tasks) && PlanEnabled(w, s, a)
    ensures AllFit(w, After(rs, s, PlanApply(w, s, a), Plan(a)), PlanApply(w, s, a).tasks)
  {
    match a
    case StartSchedule(ctx, lo, hi) => Joined(w, rs, s, PlanApply(w, s, a), |s.tasks|, ForBlocks(ctx, lo, hi));
    case SpawnGroup(t) =>
      assert Fits(w, rs[t], s.tasks[t]);
      Joined(w, rs, s, SpawnStep(w, s, t), t, ForFetch);
    case _ => StageFits(w, rs, s, a, a.t);
  }

  lemma StageFits(w: World, rs: seq<Request>, s: State, a: PlanAction, t: nat)
    requires AllFit(w, rs, s.tasks) && PlanEnabled(w, s, a) && !a.StartSchedule? && !a.SpawnGroup? && a.t == t
    ensures |PlanApply(w, s, a).tasks| == |s.tasks| && AllFit(w, rs, PlanApply(w, s, a).tasks)
  {
    assert Fits(w, rs[t], s.tasks[t]);
    Kept(w, rs, s, PlanApply(w, s, a), t);
  }

  lemma FinishAdoptFits(w: World, rs: seq<Request>, s: State, t: nat)
    requires AllFit(w, rs, s.tasks) && ProbeEnabled(w, s, FinishAdopt(t))
    ensures AllFit(w, After(rs, s, FinishAdoptStep(s, t), Probe(FinishAdopt(t))), FinishAdoptStep(s, t).tasks)
  {
    assert Fits(w, rs[t], s.tasks[t]);
    if s.tasks[t].held == [] {
      Kept(w, rs, s, FinishAdoptStep(s, t), t);
    } else {
      Joined(w, rs, s, FinishAdoptStep(s, t), t, ForFetch);
    }
  }

  lemma ProbeFitsStep(w: World, rs: seq<Request>, s: State, a: ProbeAction, t: nat)
    requires AllFit(w, rs, s.tasks) && ProbeEnabled(w, s, a) && !a.StartProbe? && !a.FinishAdopt? && a.t == t
    ensures |ProbeApply(w, s, a).tasks| == |s.tasks| && AllFit(w, rs, ProbeApply(w, s, a).tasks)
  {
    assert Fits(w, rs[t], s.tasks[t]);
    Kept(w, rs, s, ProbeApply(w, s, a), t);
  }

  lemma ProbesFit(w: World, rs: seq<Request>, s: State, a: ProbeAction)
    requires AllFit(w, rs, s.tasks) && ProbeEnabled(w, s, a)
    ensures AllFit(w, After(rs, s, ProbeApply(w, s, a), Probe(a)), ProbeApply(w, s, a).tasks)
  {
    match a
    case StartProbe(o, lo, hi, _) => Joined(w, rs, s, ProbeApply(w, s, a), |s.tasks|, ForProbe(o, lo, hi));
    case FinishAdopt(t) => FinishAdoptFits(w, rs, s, t);
    case _ => ProbeFitsStep(w, rs, s, a, a.t);
  }

  lemma AttemptFits(w: World, rs: seq<Request>, s: State, a: AttemptAction, t: nat)
    requires AllFit(w, rs, s.tasks) && AttemptEnabled(w, s, a) && a.t == t
    ensures |AttemptApply(w, s, a).tasks| == |s.tasks| && AllFit(w, rs, AttemptApply(w, s, a).tasks)
  {
    assert Fits(w, rs[t], s.tasks[t]);
    Kept(w, rs, s, AttemptApply(w, s, a), t);
  }

  lemma StreamFits(w: World, rs: seq<Request>, s: State, a: StreamAction, t: nat)
    requires AllFit(w, rs, s.tasks) && StreamEnabled(w, s, a) && a.t == t
    ensures |StreamApply(w, s, a).tasks| == |s.tasks| && AllFit(w, rs, StreamApply(w, s, a).tasks)
  {
    assert Fits(w, rs[t], s.tasks[t]);
    if a.TakeLead? || a.Serve? || a.TakeTrailing? {
      StoreFits(w, rs, s, a, t);
    } else {
      Kept(w, rs, s, StreamApply(w, s, a), t);
    }
  }

  lemma StoreFits(w: World, rs: seq<Request>, s: State, a: StreamAction, t: nat)
    requires AllFit(w, rs, s.tasks) && StreamEnabled(w, s, a) && a.t == t
             && (a.TakeLead? || a.Serve? || a.TakeTrailing?)
    ensures |StreamApply(w, s, a).tasks| == |s.tasks| && AllFit(w, rs, StreamApply(w, s, a).tasks)
  {
    assert Fits(w, rs[t], s.tasks[t]);
    Kept(w, rs, s, StreamApply(w, s, a), t);
  }

  lemma SettleFits(w: World, rs: seq<Request>, s: State, a: SettleAction)
    requires AllFit(w, rs, s.tasks) && SettleEnabled(w, s, a)
    ensures |SettleApply(w, s, a).tasks| == |s.tasks| && AllFit(w, rs, SettleApply(w, s, a).tasks)
  {
    if a.DropTask? {
      Kept(w, rs, s, SettleApply(w, s, a), a.t);
    }
  }

  lemma StepFits(w: World, rs: seq<Request>, s: State, a: Action)
    requires AllFit(w, rs, s.tasks) && Enabled(w, s, a)
    ensures AllFit(w, After(rs, s, Apply(w, s, a), a), Apply(w, s, a).tasks)
  {
    match a
    case Env(x) =>
    case Settle(x) => SettleFits(w, rs, s, x);
    case Plan(x) => PlanFits(w, rs, s, x);
    case Probe(x) => ProbesFit(w, rs, s, x);
    case Attempt(x) => AttemptFits(w, rs, s, x, x.t);
    case Stream(x) => StreamFits(w, rs, s, x, x.t);
  }

  /** Over every run every task is what its request asked for. */
  lemma {:induction false} RunFits(w: World, run: seq<Action>)
    requires Exec(w, run).Some?
    ensures AllFit(w, Requests(w, run), Exec(w, run).value.tasks)
  {
    if run != [] {
      var n := |run| - 1;
      RunFits(w, run[..n]);
      StepFits(w, Requests(w, run[..n]), Exec(w, run[..n]).value, run[n]);
    }
  }
}
