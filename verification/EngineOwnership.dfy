/** In-flight ownership: over every run the table holds exactly the unsettled slots, each of them
    is held by exactly one task, and a settled slot keeps its result for ever. */
module EngineOwnership {
  import opened Common
  import opened Blocks
  import opened Origin
  import opened Errors
  import opened Engine

  predicate Open(phase: Phase) { phase.Live? || phase.Resolving? }

  ghost predicate Owned(s: State) {
    && TableOk(s)
    && SlotsOk(s)
    && HoldersOk(s)
  }

  ghost predicate TableOk(s: State) {
    forall k :: k in s.table ==>
      s.table[k] < |s.slots| && s.slots[s.table[k]].key == k && Open(s.slots[s.table[k]].phase)
  }

  ghost predicate SlotsOk(s: State) {
    forall id :: 0 <= id < |s.slots| && Open(s.slots[id].phase) ==>
      s.slots[id].key in s.table && s.table[s.slots[id].key] == id
  }

  ghost predicate HoldersOk(s: State) {
    && (forall t, id :: 0 <= t < |s.tasks| ==> (id in Held(s.tasks[t]) <==> Holds(s, t, id)))
    && (forall id :: 0 <= id < |s.slots| && s.slots[id].phase.Live? ==> s.slots[id].phase.holder < |s.tasks|)
  }

  predicate Holds(s: State, t: nat, id: nat) { id < |s.slots| && s.slots[id].phase == Live(t) }

  /** Slots held together have different keys, so a list of them has no repeats. */
  ghost predicate Distinct(ids: seq<nat>) {
    forall i, j :: 0 <= i < j < |ids| ==> ids[i] != ids[j]
  }

  /** The lists inside a task never name a slot twice. */
  ghost predicate Listed(task: Task) {
    match task
    case Scheduling(_, _, _, stage) => stage.Looking? || Distinct(stage.owners)
    case Adopting(_, _, _, _, held, _) => Distinct(held)
    case Fetching(_, _, held, _, _, pc) =>
      && Distinct(held)
      && (pc.Leading? && pc.claim.Claimed? ==> pc.claim.id !in held)
      && (pc.Gathering? ==> held == [] && Distinct(pc.extra))
      && (pc.Trailing? ==> held == [] && Distinct(pc.extra))
    case _ => true
  }

  ghost predicate AllListed(s: State) { forall t :: 0 <= t < |s.tasks| ==> Listed(s.tasks[t]) }

  ghost predicate Owns(s: State) { Owned(s) && AllListed(s) }

  function Rank(phase: Phase): nat {
    match phase
    case Live(_) => 0
    case Resolving(_) => 1
    case Removed(_) => 2
    case Sent(_) => 3
  }

  /** Slots are never forgotten, and once settled keep their result while it is being published. */
  predicate Advances(s: State, s': State) {
    && |s.slots| <= |s'.slots|
    && (forall id :: 0 <= id < |s.slots| ==>
          s'.slots[id].key == s.slots[id].key && PhaseAdvances(s.slots[id].phase, s'.slots[id].phase))
  }

  predicate PhaseAdvances(old_: Phase, new_: Phase) {
    !old_.Live? ==> Rank(new_) >= Rank(old_) && new_.result == old_.result
  }

  // ---- The shapes a step can take ----

  predicate OthersKept(s: State, s': State, t: nat) {
    && |s'.tasks| == |s.tasks| && t < |s.tasks|
    && (forall u :: 0 <= u < |s.tasks| && u != t ==> s'.tasks[u] == s.tasks[u])
  }

  lemma OwnedSame(s: State, s': State, t: nat)
    requires Owns(s) && OthersKept(s, s', t) && Listed(s'.tasks[t])
    requires s'.slots == s.slots && s'.table == s.table && Held(s'.tasks[t]) == Held(s.tasks[t])
    ensures Owns(s') && Advances(s, s')
  {
    forall u, id | 0 <= u < |s'.tasks| ensures id in Held(s'.tasks[u]) <==> Holds(s', u, id) {
      assert id in Held(s.tasks[u]) <==> Holds(s, u, id);
    }
  }

  lemma OwnedMarked(s: State, s': State, t: nat, results: map<nat, BlockResult>)
    requires Owns(s) && OthersKept(s, s', t) && Listed(s'.tasks[t])
    requires s'.slots == Mark(s.slots, results) && s'.table == s.table
    requires results.Keys <= Held(s.tasks[t]) && Held(s'.tasks[t]) == Held(s.tasks[t]) - results.Keys
    ensures Owns(s') && Advances(s, s')
  {
    forall id | id in results ensures Holds(s, t, id) {
      assert id in Held(s.tasks[t]);
    }
    forall u, id | 0 <= u < |s'.tasks| ensures id in Held(s'.tasks[u]) <==> Holds(s', u, id) {
      assert id in Held(s.tasks[u]) <==> Holds(s, u, id);
      assert id in results ==> Holds(s, t, id);
    }
  }

  lemma OwnedRegistered(s: State, s': State, t: nat, key: BlockKey)
    requires Owns(s) && OthersKept(s, s', t) && Listed(s'.tasks[t]) && key !in s.table
    requires s'.slots == Register(s, t, key).slots && s'.table == Register(s, t, key).table
    requires Held(s'.tasks[t]) == Held(s.tasks[t]) + {|s.slots|}
    ensures Owns(s') && Advances(s, s')
  {
    forall u, id | 0 <= u < |s'.tasks| ensures id in Held(s'.tasks[u]) <==> Holds(s', u, id) {
      assert id in Held(s.tasks[u]) <==> Holds(s, u, id);
    }
  }

  lemma OwnedAdded(s: State, s': State, task: Task)
    requires Owns(s) && s'.slots == s.slots && s'.table == s.table
    requires s'.tasks == s.tasks + [task] && Held(task) == {} && Listed(task)
    ensures Owns(s') && Advances(s, s')
  {
    forall u, id | 0 <= u < |s'.tasks| ensures id in Held(s'.tasks[u]) <==> Holds(s', u, id) {
      if u < |s.tasks| {
        assert id in Held(s.tasks[u]) <==> Holds(s, u, id);
      }
    }
  }

  lemma OwnedSpawned(s: State, s': State, t: nat, ids: seq<nat>, left: Task, fetch: Task)
    requires Owns(s) && t < |s.tasks| && s' == Spawn(s, t, ids, left, fetch) && Listed(left) && Listed(fetch)
    requires Ids(ids) <= Held(s.tasks[t]) && Held(left) == Held(s.tasks[t]) - Ids(ids) && Held(fetch) == Ids(ids)
    ensures Owns(s') && Advances(s, s')
  {
    forall id | id in Ids(ids) ensures Holds(s, t, id) {
      assert id in Held(s.tasks[t]);
    }
    forall u, id | 0 <= u < |s'.tasks| ensures id in Held(s'.tasks[u]) <==> Holds(s', u, id) {
      assert id in Ids(ids) ==> Holds(s, t, id);
      if u < |s.tasks| {
        assert id in Held(s.tasks[u]) <==> Holds(s, u, id);
      }
    }
  }

  lemma OwnedUnopened(s: State, s': State, id: nat, slot: Slot)
    requires Owns(s) && id < |s.slots| && !s.slots[id].phase.Live?
    requires s'.slots == s.slots[id := slot] && slot.key == s.slots[id].key && !Open(slot.phase)
    requires PhaseAdvances(s.slots[id].phase, slot.phase)
    requires s'.table == if Open(s.slots[id].phase) then s.table - {slot.key} else s.table
    requires s'.tasks == s.tasks
    ensures Owns(s') && Advances(s, s')
  {
    forall u, x | 0 <= u < |s'.tasks| ensures x in Held(s'.tasks[u]) <==> Holds(s', u, x) {
      assert x in Held(s.tasks[u]) <==> Holds(s, u, x);
    }
  }

  // ---- Every step keeps ownership ----

  lemma IdsSplit(ids: seq<nat>, n: nat)
    requires n <= |ids|
    ensures Ids(ids) == Ids(ids[..n]) + Ids(ids[n..])
  {
    assert ids == ids[..n] + ids[n..];
  }

  lemma IdsAppend(ids: seq<nat>, id: nat)
    ensures Ids(ids + [id]) == Ids(ids) + {id}
  {
    IdsSplit(ids + [id], |ids|);
    assert (ids + [id])[..|ids|] == ids && (ids + [id])[|ids|..] == [id];
  }

  /** A slot number just handed out is not in any list yet. */
  lemma NewIsUnheld(s: State, t: nat)
    requires Owned(s) && t < |s.tasks|
    ensures |s.slots| !in Held(s.tasks[t])
  {
    assert |s.slots| in Held(s.tasks[t]) <==> Holds(s, t, |s.slots|);
  }

  lemma DistinctSplit(ids: seq<nat>, n: nat)
    requires Distinct(ids) && n <= |ids|
    ensures Distinct(ids[..n]) && Distinct(ids[n..]) && Ids(ids[..n]) !! Ids(ids[n..])
  {
  }

  lemma {:induction false} MissedDistinct(ids: seq<nat>, landed: map<nat, Option<Block>>)
    requires Distinct(ids)
    ensures Distinct(Missed(ids, landed))
  {
    if ids != [] {
      MissedDistinct(ids[..|ids| - 1], landed);
    }
  }

  lemma EnvOwns(w: World, s: State, a: EnvAction)
    requires Owns(s) && EnvEnabled(w, s, a)
    ensures Owns(EnvApply(w, s, a)) && Advances(s, EnvApply(w, s, a))
  {
    var s' := EnvApply(w, s, a);
    assert s'.slots == s.slots && s'.table == s.table && s'.tasks == s.tasks;
    forall u, id | 0 <= u < |s'.tasks| ensures id in Held(s'.tasks[u]) <==> Holds(s', u, id) {
      assert id in Held(s.tasks[u]) <==> Holds(s, u, id);
    }
  }

  lemma SettleOwns(w: World, s: State, a: SettleAction)
    requires Owns(s) && SettleEnabled(w, s, a)
    ensures Owns(SettleApply(w, s, a)) && Advances(s, SettleApply(w, s, a))
  {
    var s' := SettleApply(w, s, a);
    match a
    case RemoveEntry(id) => OwnedUnopened(s, s', id, s'.slots[id]);
    case SendResult(id) => OwnedUnopened(s, s', id, s'.slots[id]);
    case DropTask(t) => OwnedMarked(s, s', t, AllOf(Held(s.tasks[t]), Err(Cancelled)));
  }

  lemma FinishRecheckOwns(w: World, s: State, t: nat)
    requires Owns(s) && PlanEnabled(w, s, FinishRecheck(t))
    ensures Owns(FinishRecheckStep(s, t)) && Advances(s, FinishRecheckStep(s, t))
  {
    var s' := FinishRecheckStep(s, t);
    var st := s.tasks[t].stage;
    assert Listed(s.tasks[t]);
    MissedDistinct(st.owners, st.landed);
    assert Held(s'.tasks[t]) == Held(s.tasks[t]) - LandedResults(st.owners, st.landed).Keys;
    OwnedMarked(s, s', t, LandedResults(st.owners, st.landed));
  }

  /** Moving on to another stage without touching a slot. */
  lemma StageOwns(w: World, s: State, a: PlanAction, t: nat)
    requires Owns(s) && PlanEnabled(w, s, a)
    requires a == FinishLookups(t) || a == FinishRegister(t) || a == FinishSchedule(t)
             || (a.Lookup? && a.t == t) || (a.Recheck? && a.t == t)
    ensures Owns(PlanApply(w, s, a)) && Advances(s, PlanApply(w, s, a))
  {
    var s' := PlanApply(w, s, a);
    assert Listed(s.tasks[t]);
    assert Held(s'.tasks[t]) == Held(s.tasks[t]);
    OwnedSame(s, s', t);
  }

  lemma PlanOwns(w: World, s: State, a: PlanAction)
    requires Owns(s) && PlanEnabled(w, s, a)
    ensures Owns(PlanApply(w, s, a)) && Advances(s, PlanApply(w, s, a))
  {
    match a
    case StartSchedule(ctx, lo, hi) => OwnedAdded(s, PlanApply(w, s, a), Scheduling(ctx, lo, hi, Looking(map[])));
    case RegisterNext(t) => RegisterOwns(s, t);
    case FinishRecheck(t) => FinishRecheckOwns(w, s, t);
    case SpawnGroup(t) => SpawnOwns(w, s, t);
    case _ => StageOwns(w, s, a, a.t);
  }

  lemma RegisterOwns(s: State, t: nat)
    requires Owns(s) && t < |s.tasks| && s.tasks[t].Scheduling? && s.tasks[t].stage.Registering?
    requires s.tasks[t].lo + |s.tasks[t].stage.handles| in s.tasks[t].stage.looked
    ensures Owns(RegisterStep(s, t)) && Advances(s, RegisterStep(s, t))
  {
    var s' := RegisterStep(s, t);
    var st := s.tasks[t].stage;
    var key := s.tasks[t].ctx.Key(s.tasks[t].lo + |st.handles|);
    NewIsUnheld(s, t);
    if st.looked[s.tasks[t].lo + |st.handles|].None? && key !in s.table {
      IdsAppend(st.owners, |s.slots|);
      OwnedRegistered(s, s', t, key);
    } else {
      OwnedSame(s, s', t);
    }
  }

  lemma SpawnShape(w: World, s: State, t: nat) returns (n: nat)
    requires PlanEnabled(w, s, SpawnGroup(t)) && Distinct(s.tasks[t].stage.owners)
    ensures var task := s.tasks[t];
            var owners := task.stage.owners;
            && 0 < n <= |owners|
            && SpawnStep(w, s, t) == Spawn(s, t, owners[..n],
                                           WithStage(task, Spawning(task.stage.handles, owners[n..])),
                                           Fetching(task.ctx, true, owners[..n], task.ctx.meta, 0, Top(None)))
            && Distinct(owners[..n]) && Distinct(owners[n..])
            && Ids(owners[..n]) <= Ids(owners) && Ids(owners[n..]) == Ids(owners) - Ids(owners[..n])
  {
    var task := s.tasks[t];
    var owners := task.stage.owners;
    n := RunLength(Indexes(s.slots, owners), Max(w.Config(task.ctx.obj).fetchWindow, 1));
    IdsSplit(owners, n);
    DistinctSplit(owners, n);
  }

  lemma SpawnOwns(w: World, s: State, t: nat)
    requires Owns(s) && PlanEnabled(w, s, SpawnGroup(t))
    ensures Owns(SpawnStep(w, s, t)) && Advances(s, SpawnStep(w, s, t))
  {
    assert Listed(s.tasks[t]);
    var n := SpawnShape(w, s, t);
    var task := s.tasks[t];
    var owners := task.stage.owners;
    var left := WithStage(task, Spawning(task.stage.handles, owners[n..]));
    OwnedSpawned(s, SpawnStep(w, s, t), t, owners[..n], left,
                 Fetching(task.ctx, true, owners[..n], task.ctx.meta, 0, Top(None)));
  }

  lemma AdoptOwns(w: World, s: State, t: nat)
    requires Owns(s) && ProbeEnabled(w, s, AdoptNext(t))
    ensures Owns(AdoptStep(s, t)) && Advances(s, AdoptStep(s, t))
  {
    var s' := AdoptStep(s, t);
    var key := s.tasks[t].ctx.Key(s.tasks[t].cursor);
    NewIsUnheld(s, t);
    if key in s.table {
      OwnedSame(s, s', t);
    } else {
      IdsAppend(s.tasks[t].held, |s.slots|);
      OwnedRegistered(s, s', t, key);
    }
  }

  lemma FinishAdoptOwns(w: World, s: State, t: nat)
    requires Owns(s) && ProbeEnabled(w, s, FinishAdopt(t))
    ensures Owns(FinishAdoptStep(s, t)) && Advances(s, FinishAdoptStep(s, t))
  {
    var s' := FinishAdoptStep(s, t);
    var task := s.tasks[t];
    assert Listed(task);
    if task.held == [] {
      OwnedSame(s, s', t);
    } else {
      OwnedSpawned(s, s', t, task.held, Scheduled(task.ctx, task.lo, PendingAll(task.held)),
                   Fetching(task.ctx, false, task.held, task.ctx.meta, 0, Top(Some(task.response))));
    }
  }

  lemma ProbeOwns(w: World, s: State, a: ProbeAction)
    requires Owns(s) && ProbeEnabled(w, s, a)
    ensures Owns(ProbeApply(w, s, a)) && Advances(s, ProbeApply(w, s, a))
  {
    match a
    case StartProbe(o, lo, hi, attempts) => OwnedAdded(s, ProbeApply(w, s, a), ProbeApply(w, s, a).tasks[|s.tasks|]);
    case ProbeAnswer(t, r) => OwnedSame(s, ProbeApply(w, s, a), t);
    case ProbeUnchanged(t, p, answered) => OwnedSame(s, ProbeApply(w, s, a), t);
    case AdoptNext(t) => AdoptOwns(w, s, t);
    case FinishAdopt(t) => FinishAdoptOwns(w, s, t);
  }

  /** Settling all slots a task still owes, whatever phase of the attempt it is in. */
  lemma SettleAllOwns(s: State, s': State, t: nat, result: BlockResult)
    requires Owns(s) && Running(s, t) && Held(s.tasks[t]) == Ids(s.tasks[t].held)
    requires s'.slots == Mark(s.slots, AllOf(Ids(s.tasks[t].held), result)) && s'.table == s.table
    requires s'.tasks == s.tasks[t := Done]
    ensures Owns(s') && Advances(s, s')
  {
    OwnedMarked(s, s', t, AllOf(Ids(s.tasks[t].held), result));
  }

  lemma PcOwns(s: State, s': State, t: nat, task: Task)
    requires Owns(s) && Running(s, t) && Held(s.tasks[t]) == Ids(s.tasks[t].held)
    requires s'.slots == s.slots && s'.table == s.table && s'.tasks == s.tasks[t := task]
    requires task.Fetching? && task.held == s.tasks[t].held && Held(task) == Ids(task.held)
    requires !task.pc.Gathering? && !task.pc.Trailing? && (task.pc.Leading? ==> !task.pc.claim.Claimed?)
    ensures Owns(s') && Advances(s, s')
  {
    assert Listed(s.tasks[t]);
    OwnedSame(s, s', t);
  }

  lemma AcceptOwns(w: World, s: State, t: nat)
    requires Owns(s) && AttemptEnabled(w, s, Accept(t))
    ensures Owns(AcceptStep(w, s, t)) && Advances(s, AcceptStep(w, s, t))
  {
    var s' := AcceptStep(w, s, t);
    if s'.tasks[t].Done? {
      SettleAllOwns(s, s', t, Err(Stale));
    } else {
      PcOwns(s, s', t, s'.tasks[t]);
    }
  }

  lemma AttemptOwns(w: World, s: State, a: AttemptAction)
    requires Owns(s) && AttemptEnabled(w, s, a)
    ensures Owns(AttemptApply(w, s, a)) && Advances(s, AttemptApply(w, s, a))
  {
    match a
    case ServeNothing(t) => SettleAllOwns(s, AttemptApply(w, s, a), t, Ok(Block(s.tasks[t].meta.value, [])));
    case UseInitial(t) => PcOwns(s, AttemptApply(w, s, a), t, AttemptApply(w, s, a).tasks[t]);
    case Ask(t) => PcOwns(s, AttemptApply(w, s, a), t, AttemptApply(w, s, a).tasks[t]);
    case Answer(t, r) => PcOwns(s, AttemptApply(w, s, a), t, AttemptApply(w, s, a).tasks[t]);
    case Refuse(t, e) => SettleAllOwns(s, AttemptApply(w, s, a), t, Err(ToNestor(e)));
    case PastEnd(t, p, answered) => SettleAllOwns(s, AttemptApply(w, s, a), t,
                                                  Ok(Block(s.writes[p].version.value.Meta(), [])));
    case Fail(t, e, expired) => FailOwns(s, t, e, expired);
    case Accept(t) => AcceptOwns(w, s, t);
  }

  lemma FailOwns(s: State, t: nat, e: OriginError, expired: bool)
    requires Owns(s) && Running(s, t) && !s.tasks[t].pc.Gathering? && !s.tasks[t].pc.Trailing?
    ensures Owns(FailStep(s, t, e, expired)) && Advances(s, FailStep(s, t, e, expired))
  {
    var s' := FailStep(s, t, e, expired);
    var task := s.tasks[t];
    var claimed := if task.pc.Leading? && task.pc.claim.Claimed? then {task.pc.claim.id} else {};
    var dropped := AllOf(claimed, Err(Cancelled));
    assert Held(task) == Ids(task.held) + claimed;
    if s'.tasks[t].Done? {
      var cause := if e.Retryable() && task.attempt + 1 < task.ctx.attempts then Timeout else e;
      FailDoneOwns(s, s', t, AllOf(Ids(task.held), Err(ToNestor(cause))) + dropped);
    } else {
      RetryOwns(s, s', t, claimed);
    }
  }

  lemma RetryOwns(s: State, s': State, t: nat, claimed: set<nat>)
    requires Owns(s) && Running(s, t) && OthersKept(s, s', t)
    requires Held(s.tasks[t]) == Ids(s.tasks[t].held) + claimed
    requires claimed == if s.tasks[t].pc.Leading? && s.tasks[t].pc.claim.Claimed? then {s.tasks[t].pc.claim.id} else {}
    requires s'.slots == Mark(s.slots, AllOf(claimed, Err(Cancelled))) && s'.table == s.table
    requires s'.tasks[t].Fetching? && s'.tasks[t].held == s.tasks[t].held && s'.tasks[t].pc == Top(None)
    ensures Owns(s') && Advances(s, s')
  {
    assert Listed(s.tasks[t]);
    assert claimed !! Ids(s.tasks[t].held);
    OwnedMarked(s, s', t, AllOf(claimed, Err(Cancelled)));
  }

  lemma FailDoneOwns(s: State, s': State, t: nat, results: map<nat, BlockResult>)
    requires Owns(s) && t < |s.tasks| && s' == SettleAll(s, t, results)
    requires results.Keys == Held(s.tasks[t])
    ensures Owns(s') && Advances(s, s')
  {
    OwnedMarked(s, s', t, results);
  }

  lemma ClaimOwns(w: World, s: State, t: nat, cached: bool)
    requires Owns(s) && StreamEnabled(w, s, ClaimLead(t, cached))
    ensures Owns(ClaimStep(s, t, cached)) && Advances(s, ClaimStep(s, t, cached))
  {
    var s' := ClaimStep(s, t, cached);
    var key := s.tasks[t].ctx.Key(s.tasks[t].pc.next);
    NewIsUnheld(s, t);
    assert Listed(s.tasks[t]);
    if cached || key in s.table {
      OwnedSame(s, s', t);
    } else {
      OwnedRegistered(s, s', t, key);
    }
  }

  lemma TakeLeadOwns(w: World, s: State, t: nat)
    requires Owns(s) && StreamEnabled(w, s, TakeLead(t))
    ensures Owns(TakeLeadStep(w, s, t)) && Advances(s, TakeLeadStep(w, s, t))
  {
    var s' := TakeLeadStep(w, s, t);
    var claim := s.tasks[t].pc.claim;
    assert Listed(s.tasks[t]);
    if claim.Claimed? {
      OwnedMarked(s, s', t, map[claim.id := s'.slots[claim.id].phase.result]);
    } else {
      OwnedSame(s, s', t);
    }
  }

  /** A task settling the first slot of a list it holds. */
  lemma HeadOwns(s: State, s': State, t: nat, ids: seq<nat>, result: BlockResult)
    requires Owns(s) && OthersKept(s, s', t) && Listed(s'.tasks[t])
    requires ids != [] && Distinct(ids) && Held(s.tasks[t]) == Ids(ids) && Held(s'.tasks[t]) == Ids(ids[1..])
    requires s'.slots == Mark(s.slots, map[ids[0] := result]) && s'.table == s.table
    ensures Owns(s') && Advances(s, s')
  {
    IdsSplit(ids, 1);
    DistinctSplit(ids, 1);
    assert ids[..1] == [ids[0]];
    OwnedMarked(s, s', t, map[ids[0] := result]);
  }

  lemma ServeSlots(w: World, s: State, t: nat) returns (result: BlockResult)
    requires StreamEnabled(w, s, Serve(t))
    ensures ServeStep(w, s, t).table == s.table
    ensures ServeStep(w, s, t).slots == Mark(s.slots, map[s.tasks[t].held[0] := result])
  {
    var body := s.tasks[t].pc.body;
    var n := Expected(w.BlockSize(s.tasks[t].ctx.obj), s.slots[s.tasks[t].held[0]].key.index, body.meta.size);
    result := Ok(Block(body.meta, body.rest[..n]));
  }

  lemma ServeTask(w: World, s: State, t: nat)
    requires StreamEnabled(w, s, Serve(t)) && Distinct(s.tasks[t].held)
    ensures OthersKept(s, ServeStep(w, s, t), t)
    ensures Listed(ServeStep(w, s, t).tasks[t]) && Held(ServeStep(w, s, t).tasks[t]) == Ids(s.tasks[t].held[1..])
  {
    DistinctSplit(s.tasks[t].held, 1);
  }

  lemma ServeOwns(w: World, s: State, t: nat)
    requires Owns(s) && StreamEnabled(w, s, Serve(t))
    ensures Owns(ServeStep(w, s, t)) && Advances(s, ServeStep(w, s, t))
  {
    assert Listed(s.tasks[t]);
    ServeTask(w, s, t);
    var result := ServeSlots(w, s, t);
    HeadOwns(s, ServeStep(w, s, t), t, s.tasks[t].held, result);
  }

  lemma GatherTask(s: State, t: nat, cached: bool)
    requires Owns(s) && Running(s, t) && s.tasks[t].pc.Gathering?
    ensures var s' := GatherStep(s, t, cached);
            var claims := !cached && s.tasks[t].ctx.Key(s.tasks[t].pc.cursor) !in s.table;
            && OthersKept(s, s', t) && Listed(s'.tasks[t])
            && Held(s'.tasks[t]) == if claims then Held(s.tasks[t]) + {|s.slots|} else Held(s.tasks[t])
  {
    assert Listed(s.tasks[t]);
    NewIsUnheld(s, t);
    IdsAppend(s.tasks[t].pc.extra, |s.slots|);
  }

  lemma GatherOwns(w: World, s: State, t: nat, cached: bool)
    requires Owns(s) && StreamEnabled(w, s, Gather(t, cached))
    ensures Owns(GatherStep(s, t, cached)) && Advances(s, GatherStep(s, t, cached))
  {
    var s' := GatherStep(s, t, cached);
    var key := s.tasks[t].ctx.Key(s.tasks[t].pc.cursor);
    GatherTask(s, t, cached);
    if cached || key in s.table {
      OwnedSame(s, s', t);
    } else {
      OwnedRegistered(s, s', t, key);
    }
  }

  /** What taking a trailing block does to the task: a skipped one changes no list, a stored one takes
      the head off. */
  lemma TrailingTask(w: World, s: State, t: nat)
    requires AllListed(s) && StreamEnabled(w, s, TakeTrailing(t))
    ensures var s' := TrailingStep(w, s, t);
            var pc := s.tasks[t].pc;
            && OthersKept(s, s', t) && Listed(s'.tasks[t]) && Distinct(pc.extra) && Held(s.tasks[t]) == Ids(pc.extra)
            && Held(s'.tasks[t]) == Ids(if pc.next < s.slots[pc.extra[0]].key.index then pc.extra else pc.extra[1..])
  {
    var task := s.tasks[t];
    var pc := task.pc;
    assert Listed(task);
    var n := Expected(w.BlockSize(task.ctx.obj), pc.next, pc.body.meta.size);
    var body := pc.body.(rest := pc.body.rest[n..]);
    if pc.next < s.slots[pc.extra[0]].key.index {
      assert TrailingStep(w, s, t).tasks[t] == WithPc(task, Trailing(body, pc.next + 1, pc.extra));
    } else {
      DistinctSplit(pc.extra, 1);
      assert |pc.extra| > 1 ==>
               TrailingStep(w, s, t).tasks[t] == WithPc(task, Trailing(body, pc.next + 1, pc.extra[1..]));
    }
  }

  lemma TrailingOwns(w: World, s: State, t: nat)
    requires Owns(s) && StreamEnabled(w, s, TakeTrailing(t))
    ensures Owns(TrailingStep(w, s, t)) && Advances(s, TrailingStep(w, s, t))
  {
    var s' := TrailingStep(w, s, t);
    var pc := s.tasks[t].pc;
    TrailingTask(w, s, t);
    if pc.next < s.slots[pc.extra[0]].key.index {
      OwnedSame(s, s', t);
    } else {
      var n := Expected(w.BlockSize(s.tasks[t].ctx.obj), pc.next, pc.body.meta.size);
      HeadOwns(s, s', t, pc.extra, Ok(Block(pc.body.meta, pc.body.rest[..n])));
    }
  }

  lemma PhaseOwns(w: World, s: State, a: StreamAction, t: nat)
    requires Owns(s) && StreamEnabled(w, s, a)
    requires a == FinishLead(t) || (a.Hedge? && a.t == t) || a == FinishServe(t) || a == FinishGather(t)
    ensures Owns(StreamApply(w, s, a)) && Advances(s, StreamApply(w, s, a))
  {
    var s' := StreamApply(w, s, a);
    assert Listed(s.tasks[t]);
    assert Held(s'.tasks[t]) == Held(s.tasks[t]);
    OwnedSame(s, s', t);
  }

  lemma StreamOwns(w: World, s: State, a: StreamAction)
    requires Owns(s) && StreamEnabled(w, s, a)
    ensures Owns(StreamApply(w, s, a)) && Advances(s, StreamApply(w, s, a))
  {
    match a
    case ClaimLead(t, cached) => ClaimOwns(w, s, t, cached);
    case TakeLead(t) => TakeLeadOwns(w, s, t);
    case Serve(t) => ServeOwns(w, s, t);
    case Gather(t, cached) => GatherOwns(w, s, t, cached);
    case TakeTrailing(t) => TrailingOwns(w, s, t);
    case _ => PhaseOwns(w, s, a, a.t);
  }

  lemma StepOwns(w: World, s: State, a: Action)
    requires Owns(s) && Enabled(w, s, a)
    ensures Owns(Apply(w, s, a)) && Advances(s, Apply(w, s, a))
  {
    match a
    case Env(x) => EnvOwns(w, s, x);
    case Settle(x) => SettleOwns(w, s, x);
    case Plan(x) => PlanOwns(w, s, x);
    case Probe(x) => ProbeOwns(w, s, x);
    case Attempt(x) => AttemptOwns(w, s, x);
    case Stream(x) => StreamOwns(w, s, x);
  }

  /** Ownership holds in every reachable state. */
  lemma {:induction false} RunOwns(w: World, run: seq<Action>)
    requires Exec(w, run).Some?
    ensures Owns(Exec(w, run).value)
  {
    if run != [] {
      RunOwns(w, run[..|run| - 1]);
      StepOwns(w, Exec(w, run[..|run| - 1]).value, run[|run| - 1]);
    }
  }

  // ---- What that means ----

  /** A key is in the table exactly when one unsettled slot exists for it, and such a slot that is
      still live is held by exactly one task. */
  lemma InflightOwnership(w: World, run: seq<Action>, s: State)
    requires Exec(w, run) == Some(s)
    ensures forall k :: k in s.table ==>
              exists id :: 0 <= id < |s.slots| && s.slots[id].key == k && Open(s.slots[id].phase)
    ensures forall id :: 0 <= id < |s.slots| && Open(s.slots[id].phase) ==> s.slots[id].key in s.table
    ensures forall i, j :: (0 <= i < |s.slots| && 0 <= j < |s.slots| && Open(s.slots[i].phase) && Open(s.slots[j].phase)
                            && s.slots[i].key == s.slots[j].key) ==> i == j
    ensures forall id :: 0 <= id < |s.slots| && s.slots[id].phase.Live? ==>
              s.slots[id].phase.holder < |s.tasks| && id in Held(s.tasks[s.slots[id].phase.holder])
    ensures forall t, u, id ::
              0 <= t < |s.tasks| && 0 <= u < |s.tasks| && id in Held(s.tasks[t]) && id in Held(s.tasks[u]) ==> t == u
  {
    RunOwns(w, run);
    forall k | k in s.table
      ensures exists id :: 0 <= id < |s.slots| && s.slots[id].key == k && Open(s.slots[id].phase)
    {
      assert s.slots[s.table[k]].key == k;
    }
    forall id | 0 <= id < |s.slots| && s.slots[id].phase.Live?
      ensures s.slots[id].phase.holder < |s.tasks| && id in Held(s.tasks[s.slots[id].phase.holder])
    {
      assert Holds(s, s.slots[id].phase.holder, id);
    }
    forall t, u, id | 0 <= t < |s.tasks| && 0 <= u < |s.tasks| && id in Held(s.tasks[t]) && id in Held(s.tasks[u])
      ensures t == u
    {
      assert Holds(s, t, id) && Holds(s, u, id);
    }
  }

  /** A task that has ended, by return, error or cancellation, leaves none of its slots unsettled. */
  lemma EndedTasksSettle(w: World, run: seq<Action>, s: State, t: nat, id: nat)
    requires Exec(w, run) == Some(s) && t < |s.tasks| && id < |s.slots|
    requires s.tasks[t].Done? || s.tasks[t].Scheduled?
    ensures s.slots[id].phase != Live(t)
  {
    RunOwns(w, run);
    assert id in Held(s.tasks[t]) <==> Holds(s, t, id);
  }

  lemma {:induction false} PrefixRuns(w: World, run: seq<Action>, n: nat)
    requires Exec(w, run).Some? && n <= |run|
    ensures Exec(w, run[..n]).Some?
    decreases |run|
  {
    if n < |run| {
      PrefixRuns(w, run[..|run| - 1], n);
      assert run[..|run| - 1][..n] == run[..n];
    } else {
      assert run[..n] == run;
    }
  }

  /** The state after the first `n` steps of a run. */
  ghost function StateAt(w: World, run: seq<Action>, n: nat): State
    requires Exec(w, run).Some? && n <= |run|
  {
    PrefixRuns(w, run, n);
    Exec(w, run[..n]).value
  }

  lemma StateAtPrefix(w: World, run: seq<Action>, n: nat)
    requires Exec(w, run).Some? && n < |run|
    ensures Exec(w, run[..|run| - 1]).Some? && StateAt(w, run[..|run| - 1], n) == StateAt(w, run, n)
  {
    assert run[..|run| - 1][..n] == run[..n];
  }

  lemma LastStepAdvances(w: World, run: seq<Action>)
    requires Exec(w, run).Some? && run != []
    ensures Exec(w, run[..|run| - 1]).Some?
    ensures Advances(Exec(w, run[..|run| - 1]).value, Exec(w, run).value)
  {
    RunOwns(w, run[..|run| - 1]);
    StepOwns(w, Exec(w, run[..|run| - 1]).value, run[|run| - 1]);
  }

  /** Over every run a slot settles once: whatever happens after it was resolved, dropped or
      cancelled, every waiter sees that first result, and its key stays the same. */
  lemma {:induction false} SettledOnce(w: World, run: seq<Action>, n: nat, id: nat)
    requires Exec(w, run).Some? && n <= |run| && id < |StateAt(w, run, n).slots|
    ensures id < |Exec(w, run).value.slots|
    ensures var early, late := StateAt(w, run, n).slots[id], Exec(w, run).value.slots[id];
            late.key == early.key && PhaseAdvances(early.phase, late.phase)
    decreases |run|
  {
    if n < |run| {
      var m := |run| - 1;
      StateAtPrefix(w, run, n);
      LastStepAdvances(w, run);
      SettledOnce(w, run[..m], n, id);
    } else {
      assert run[..n] == run;
    }
  }
}
