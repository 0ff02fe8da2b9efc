/** The engine is the environment its readers rely on: whatever a reader asks of a run of the engine, and
    whenever, it gets what `Readers.Serves` promises. */
module EngineReads {
  import opened Common
  import opened Blocks
  import opened Origin
  import opened Errors
  import opened Engine
  import opened EngineOwnership
  import opened EngineAgreement
  import opened EngineRequests
  import opened Readers

  // ---- Handles ----

  /** What waiting on a handle yields once its slot has been settled. */
  function Outcome(s: State, handle: Handle): Option<BlockResult> {
    match handle
    case Ready(block) => Some(Ok(block))
    case Pending(id) => if id < |s.slots| && s.slots[id].phase.Sent? then Some(s.slots[id].phase.result) else None
  }

  /** Task `t` has handed its handles out and waiting on each of them is over. */
  predicate Finished(s: State, t: nat) {
    && t < |s.tasks| && s.tasks[t].Scheduled?
    && forall j :: 0 <= j < |s.tasks[t].handles| ==> Outcome(s, s.tasks[t].handles[j]).Some?
  }

  function Results(s: State, t: nat): (r: seq<BlockResult>)
    requires Finished(s, t)
    ensures |r| == |s.tasks[t].handles|
  {
    seq(|s.tasks[t].handles|, j requires 0 <= j < |s.tasks[t].handles| => Outcome(s, s.tasks[t].handles[j]).value)
  }

  /** Whatever a sound handle yields is the block it stands for, now and after any later writes. */
  lemma OutcomeGood(w: World, s: State, h: History, key: BlockKey, handle: Handle)
    requires SlotsSound(w, s) && HandleSound(w, s.writes, s.slots, key, handle) && s.writes <= h
    requires Outcome(s, handle).Some?
    ensures GoodResult(w, h, key, Outcome(s, handle).value)
  {
    var result := Outcome(s, handle).value;
    assert handle.Pending? ==> SlotSound(w, s.writes, s.slots[handle.id]);
    if result.Ok? {
      GoodGrows(w, s.writes, h, key, result.value);
    }
  }

  lemma MetaGrows(w: World, h: History, later: History, o: ObjectKey, m: ObjectMeta)
    requires h <= later && KnownMeta(w, h, o, m)
    ensures KnownMeta(w, later, o, m)
  {
    ContentGrows(w, h, later, o, BlockTag(w, o, m));
  }

  lemma CtxGrows(w: World, s: State, h: History, t: nat)
    requires TasksSound(w, s) && s.writes <= h && t < |s.tasks| && s.tasks[t].Scheduled?
    ensures KnownCtx(w, h, s.tasks[t].ctx)
  {
    TaskAt(w, s, t);
    var ctx := s.tasks[t].ctx;
    if ctx.meta.Some? {
      MetaGrows(w, s.writes, h, ctx.obj, ctx.meta.value);
    }
  }

  lemma ResultsGood(w: World, s: State, h: History, t: nat)
    requires Sound(w, s) && s.writes <= h && Finished(s, t)
    ensures HandlesFor(w, h, s.tasks[t].ctx, s.tasks[t].lo, Results(s, t))
  {
    forall j | 0 <= j < |Results(s, t)|
      ensures GoodResult(w, h, s.tasks[t].ctx.Key(s.tasks[t].lo + j), Results(s, t)[j])
    {
      HandleAt(w, s, t, j);
      OutcomeGood(w, s, h, s.tasks[t].ctx.Key(s.tasks[t].lo + j), s.tasks[t].handles[j]);
    }
  }

  // ---- Answers ----

  /** A schedule of `lo..hi` hands back one handle for each of those blocks, and each yields that block
      of the context's version or an error. */
  lemma ScheduleBooks(w: World, run: seq<Action>, s: State, h: History, t: nat)
    requires Exec(w, run) == Some(s) && Sound(w, s) && s.writes <= h && Finished(s, t)
    requires t < |Requests(w, run)| && Requests(w, run)[t].ForBlocks?
    ensures var r := Requests(w, run)[t];
            Booked(w, h, r.ctx, r.lo, r.hi, Results(s, t))
  {
    RunFits(w, run);
    assert Fits(w, Requests(w, run)[t], s.tasks[t]);
    ResultsGood(w, s, h, t);
  }

  /** A probe for the first group of a request resolves it: its handles are for the first blocks of the
      group, inside the object its context describes. */
  lemma ProbeResolves(w: World, run: seq<Action>, s: State, h: History, t: nat, request: ReadRange)
    requires Exec(w, run) == Some(s) && Sound(w, s) && s.writes <= h && Finished(s, t)
    requires t < |Requests(w, run)| && Requests(w, run)[t].ForProbe?
    requires Probes(w, Requests(w, run)[t], request)
    ensures Resolved(w, h, Requests(w, run)[t].obj, request, s.tasks[t].ctx, Results(s, t))
  {
    RunFits(w, run);
    assert Fits(w, Requests(w, run)[t], s.tasks[t]);
    ResultsGood(w, s, h, t);
    CtxGrows(w, s, h, t);
  }

  /** `r` is the probe `resolve_ctx` makes for a request. */
  predicate Probes(w: World, r: Request, request: ReadRange)
    requires r.ForProbe?
  {
    FirstGroup(w.BlockSize(r.obj), request, w.Config(r.obj).fetchWindow) == Some((r.lo, r.hi))
  }

  /** What the metadata map held after the first `n` steps. */
  ghost function MetaAt(w: World, run: seq<Action>, n: nat, o: ObjectKey): Option<ObjectMeta>
    requires Exec(w, run).Some?
  {
    if n > |run| || o !in StateAt(w, run, n).meta then None else Some(StateAt(w, run, n).meta[o].meta)
  }

  lemma {:induction false} WritesGrow(w: World, run: seq<Action>, n: nat)
    requires Exec(w, run).Some? && n <= |run|
    ensures StateAt(w, run, n).writes <= Exec(w, run).value.writes
    decreases |run|
  {
    if n < |run| {
      var m := |run| - 1;
      StateAtPrefix(w, run, n);
      WritesGrow(w, run[..m], n);
      StepWrites(w, Exec(w, run[..m]).value, run[m]);
    } else {
      assert run[..n] == run;
    }
  }

  lemma MetaKnown(w: World, run: seq<Action>, s: State, h: History, n: nat, o: ObjectKey)
    requires Exec(w, run) == Some(s) && s.writes <= h && Faithful(w, h) && MetaAt(w, run, n, o).Some?
    ensures KnownMeta(w, h, o, MetaAt(w, run, n, o).value)
  {
    var early := StateAt(w, run, n);
    PrefixRuns(w, run, n);
    WritesGrow(w, run, n);
    HistoryGrows(w, early.writes, h);
    RunSound(w, run[..n]);
    assert MetaSound(w, early);
    MetaGrows(w, early.writes, h, o, early.meta[o].meta);
  }

  // ---- The environment ----

  /** How `resolve_ctx` came to its answer: from the metadata map at some moment, from a probe, without
      any metadata, or not at all. */
  datatype Resolution =
    | FromMeta(n: nat, attempts: nat)
    | FromProbe(t: nat)
    | Unsized(attempts: nat)
    | Failed(error: NestorError)

  /** Which task of the run, or which moment of it, answered each question of a reader. A schedule that
      was not made, or did not finish, yields nothing but errors. */
  datatype Calls = Calls(
    schedule: (nat, ReadCtx, nat, nat) -> Option<nat>,
    anyMeta: nat -> nat,
    resolve: nat -> Resolution)

  ghost predicate ServedBy(w: World, run: seq<Action>, s: State, r: Request, t: Option<nat>)
    requires Exec(w, run) == Some(s)
  {
    t.Some? && t.value < |Requests(w, run)| && Requests(w, run)[t.value] == r && Finished(s, t.value)
  }

  ghost predicate ProbedBy(w: World, run: seq<Action>, s: State, o: ObjectKey, request: ReadRange, t: nat)
    requires Exec(w, run) == Some(s)
  {
    && t < |Requests(w, run)| && Finished(s, t)
    && var r := Requests(w, run)[t]; r.ForProbe? && r.obj == o && Probes(w, r, request)
  }

  function NoBlocks(n: nat): seq<BlockResult> { seq(n, _ => Err(Cancelled)) }

  ghost function Handles(w: World, run: seq<Action>, s: State, r: Request, t: Option<nat>): seq<BlockResult>
    requires Exec(w, run) == Some(s) && r.ForBlocks?
  {
    if ServedBy(w, run, s, r, t) then Results(s, t.value) else if r.lo <= r.hi then NoBlocks(r.hi - r.lo) else []
  }

  ghost function AnswerOf(w: World, run: seq<Action>, s: State, o: ObjectKey, request: ReadRange, a: Resolution):
    Result<(ReadCtx, seq<BlockResult>), NestorError>
    requires Exec(w, run) == Some(s)
  {
    match a
    case FromMeta(n, attempts) =>
      var meta := MetaAt(w, run, n, o);
      if meta.Some? then Ok((NewCtx(w, o, meta, attempts), [])) else Err(Cancelled)
    case FromProbe(t) =>
      if ProbedBy(w, run, s, o, request, t) then Ok((s.tasks[t].ctx, Results(s, t))) else Err(Cancelled)
    case Unsized(attempts) =>
      if w.Config(o).immutable && request.Bounded? then Ok((NewCtx(w, o, None, attempts), [])) else Err(Cancelled)
    case Failed(error) => Err(error)
  }

  ghost function EnvironmentOf(w: World, run: seq<Action>, s: State, o: ObjectKey, request: ReadRange,
                               calls: Calls): Environment
    requires Exec(w, run) == Some(s)
  {
    Environment((tick: nat, ctx: ReadCtx, lo: nat, hi: nat) =>
                  Handles(w, run, s, ForBlocks(ctx, lo, hi), calls.schedule(tick, ctx, lo, hi)),
                (tick: nat) => MetaAt(w, run, calls.anyMeta(tick), o),
                (tick: nat) => AnswerOf(w, run, s, o, request, calls.resolve(tick)))
  }

  lemma HandlesBooked(w: World, run: seq<Action>, s: State, h: History, r: Request, t: Option<nat>)
    requires Exec(w, run) == Some(s) && Sound(w, s) && s.writes <= h && r.ForBlocks? && r.lo <= r.hi
    ensures Booked(w, h, r.ctx, r.lo, r.hi, Handles(w, run, s, r, t))
  {
    if ServedBy(w, run, s, r, t) {
      ScheduleBooks(w, run, s, h, t.value);
    }
  }

  lemma AnswerResolves(w: World, run: seq<Action>, s: State, h: History, o: ObjectKey, request: ReadRange,
                       a: Resolution)
    requires Exec(w, run) == Some(s) && Sound(w, s) && s.writes <= h && Faithful(w, h)
    requires AnswerOf(w, run, s, o, request, a).Ok?
    ensures var (ctx, fetched) := AnswerOf(w, run, s, o, request, a).value;
            Resolved(w, h, o, request, ctx, fetched)
  {
    match a
    case FromMeta(n, attempts) => MetaKnown(w, run, s, h, n, o);
    case FromProbe(t) => ProbeResolves(w, run, s, h, t, request);
    case Unsized(_) =>
    case Failed(_) =>
  }

  /** Every run of the engine, whichever tasks and moments of it answer a reader's questions, is an
      environment as `Serves` asks for, now and after any later writes. So everything proved of readers
      holds of readers over the engine. */
  lemma EngineServes(w: World, run: seq<Action>, s: State, h: History, o: ObjectKey, request: ReadRange, calls: Calls)
    requires Exec(w, run) == Some(s) && s.writes <= h && Faithful(w, h)
    ensures Serves(w, h, o, request, EnvironmentOf(w, run, s, o, request, calls))
  {
    HistoryGrows(w, s.writes, h);
    RunSound(w, run);
    var env := EnvironmentOf(w, run, s, o, request, calls);
    forall tick, ctx: ReadCtx, lo, hi | ctx.obj == o && lo <= hi
      ensures Booked(w, h, ctx, lo, hi, env.schedule(tick, ctx, lo, hi))
    {
      HandlesBooked(w, run, s, h, ForBlocks(ctx, lo, hi), calls.schedule(tick, ctx, lo, hi));
    }
    forall tick | env.anyMeta(tick).Some? ensures KnownMeta(w, h, o, env.anyMeta(tick).value) {
      MetaKnown(w, run, s, h, calls.anyMeta(tick), o);
    }
    forall tick | env.resolve(tick).Ok?
      ensures Resolved(w, h, o, request, env.resolve(tick).value.0, env.resolve(tick).value.1)
    {
      AnswerResolves(w, run, s, h, o, request, calls.resolve(tick));
    }
  }
}
