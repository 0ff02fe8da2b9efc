/** At-most-once fetching: over a cache that does not evict, a scheduled group never asks the origin
    for a block that some fetch has already delivered, and no block has two fetches under way. The
    order lookup, register, look again, insert, settle is what this rests on. Groups adopted from a
    probe and blocks claimed from a wider response are not looked up again after registering, so
    their requests are not part of the claim; what they deliver is. */
module EngineOnce {
  import opened Common
  import opened Blocks
  import opened Origin
  import opened Engine
  import opened EngineOwnership

  /** No block is requested by a scheduled group after it has been fetched. */
  ghost predicate NoRefetch(log: seq<Event>) {
    forall i, j :: 0 <= i < j < |log| && log[i].Fetched? && log[j].Requested? ==> log[i].key != log[j].key
  }

  /** A run in which the cache never loses an entry. */
  predicate KeepsBlocks(run: seq<Action>) {
    forall i :: 0 <= i < |run| && run[i].Env? ==> !run[i].env.Evict?
  }

  /** Slots whose block was looked up after registering and missed. */
  function Confirmed(task: Task): set<nat> {
    match task
    case Scheduling(_, _, _, stage) =>
      (match stage
       case Rechecking(_, owners, landed) => set id | id in owners && id in landed && landed[id].None?
       case Spawning(_, owners) => Ids(owners)
       case _ => {})
    case Fetching(_, scheduled, held, _, _, _) => if scheduled then Ids(held) else {}
    case _ => {}
  }

  predicate IsConfirmed(s: State, t: int, id: nat) { 0 <= t < |s.tasks| && id in Confirmed(s.tasks[t]) }

  predicate WasFetched(s: State, key: BlockKey) { Fetched(key) in s.log }

  ghost predicate Once(s: State) {
    && (forall k :: WasFetched(s, k) ==> k in s.cache)
    && AllUnfetched(s)
    && NoRefetch(s.log)
  }

  /** No slot that was looked up after registering and missed is for a block that has been fetched. */
  ghost predicate AllUnfetched(s: State) {
    forall t, id: nat :: IsConfirmed(s, t, id) ==>
      id < |s.slots| && !WasFetched(s, s.slots[id].key)
  }

  // ---- The shapes a step can take ----

  /** Every confirmed slot was confirmed before, or has just been looked up and missed. */
  ghost predicate StaysConfirmed(s: State, s': State) {
    forall t, id: nat :: IsConfirmed(s', t, id) ==> ConfirmedBefore(s, s', id)
  }

  ghost predicate ConfirmedBefore(s: State, s': State, id: nat) {
    || (exists u :: IsConfirmed(s, u, id))
    || (id < |s.slots| && s.slots[id].key !in s.cache)
  }

  predicate SlotKeysKept(s: State, s': State) {
    |s.slots| <= |s'.slots| && forall i :: 0 <= i < |s.slots| ==> s'.slots[i].key == s.slots[i].key
  }

  /** A slot confirmed after a step was unfetched before it. */
  lemma Unfetched(s: State, s': State, id: nat)
    requires Once(s) && ConfirmedBefore(s, s', id)
    ensures id < |s.slots| && !WasFetched(s, s.slots[id].key)
  {
  }

  lemma OnceQuiet(s: State, s': State)
    requires Once(s) && StaysConfirmed(s, s') && SlotKeysKept(s, s')
    requires s'.log == s.log && (forall k :: k in s.cache ==> k in s'.cache)
    ensures Once(s')
  {
    QuietlyUnfetched(s, s');
    forall k | WasFetched(s', k) ensures k in s'.cache {
      assert WasFetched(s, k);
    }
  }

  lemma QuietlyUnfetched(s: State, s': State)
    requires Once(s) && StaysConfirmed(s, s') && SlotKeysKept(s, s') && s'.log == s.log
    ensures AllUnfetched(s')
  {
    forall t, id: nat | IsConfirmed(s', t, id)
      ensures id < |s'.slots| && !WasFetched(s', s'.slots[id].key)
    {
      assert ConfirmedBefore(s, s', id);
      Unfetched(s, s', id);
    }
  }

  lemma LogStored(s: State, s': State, key: BlockKey)
    requires NoRefetch(s.log) && s'.log == s.log + [Fetched(key)]
    ensures NoRefetch(s'.log)
    ensures forall k :: WasFetched(s', k) <==> WasFetched(s, k) || k == key
  {
    forall k ensures WasFetched(s', k) <==> WasFetched(s, k) || k == key {
      assert s'.log[|s.log|] == Fetched(key);
      if WasFetched(s, k) {
        var i :| 0 <= i < |s.log| && s.log[i] == Fetched(k);
        assert s'.log[i] == Fetched(k);
      }
    }
  }

  /** Storing the block of slot `id`: no other confirmed slot can be for the same block, because
      both would be in the table. */
  lemma OnceStored(s: State, s': State, id: nat)
    requires Once(s) && Owns(s') && StaysConfirmed(s, s') && SlotKeysKept(s, s')
    requires id < |s'.slots| && s'.slots[id].phase.Resolving?
    requires s'.log == s.log + [Fetched(s'.slots[id].key)] && s'.slots[id].key in s'.cache
    requires forall k :: k in s.cache ==> k in s'.cache
    requires forall t, x: nat :: IsConfirmed(s', t, x) ==> x in Held(s'.tasks[t])
    ensures Once(s')
  {
    LogStored(s, s', s'.slots[id].key);
    forall t, x: nat | IsConfirmed(s', t, x)
      ensures x < |s'.slots| && !WasFetched(s', s'.slots[x].key)
    {
      assert ConfirmedBefore(s, s', x);
      Unfetched(s, s', x);
      assert Holds(s', t, x);
      assert Open(s'.slots[x].phase) && Open(s'.slots[id].phase);
      assert s'.table[s'.slots[x].key] == x && s'.table[s'.slots[id].key] == id;
    }
  }

  lemma LogAsked(s: State, s': State, ids: seq<nat>)
    requires NoRefetch(s.log) && InSlots(s.slots, ids) && s'.log == s.log + Keys(s.slots, ids)
    requires forall j :: 0 <= j < |ids| ==> !WasFetched(s, s.slots[ids[j]].key)
    ensures NoRefetch(s'.log)
    ensures forall k :: WasFetched(s', k) ==> WasFetched(s, k)
  {
    var asked := Keys(s.slots, ids);
    assert forall i :: |s.log| <= i < |s'.log| ==> s'.log[i] == asked[i - |s.log|];
    forall i, j | 0 <= i < j < |s'.log| && s'.log[i].Fetched? && s'.log[j].Requested?
      ensures s'.log[i].key != s'.log[j].key
    {
      assert i < |s.log| && s.log[i] == Fetched(s.log[i].key);
      if j >= |s.log| {
        assert WasFetched(s, s.log[i].key);
      }
    }
    forall k | WasFetched(s', k) ensures WasFetched(s, k) {
      var i :| 0 <= i < |s'.log| && s'.log[i] == Fetched(k);
      assert i < |s.log| && s.log[i] == Fetched(k);
    }
  }

  lemma OnceAsked(s: State, s': State, t: nat, ids: seq<nat>)
    requires Once(s) && StaysConfirmed(s, s') && s'.slots == s.slots && s'.cache == s.cache
    requires t < |s.tasks| && Ids(ids) <= Confirmed(s.tasks[t]) && InSlots(s.slots, ids)
    requires s'.log == s.log + Keys(s.slots, ids)
    ensures Once(s')
  {
    forall j | 0 <= j < |ids| ensures !WasFetched(s, s.slots[ids[j]].key) {
      assert IsConfirmed(s, t, ids[j]);
    }
    LogAsked(s, s', ids);
    forall u, id: nat | IsConfirmed(s', u, id)
      ensures id < |s'.slots| && !WasFetched(s', s'.slots[id].key)
    {
      assert ConfirmedBefore(s, s', id);
      Unfetched(s, s', id);
    }
  }

  // ---- Every step ----

  /** Confirmed slots are held. */
  lemma ConfirmedHeld(task: Task)
    ensures Confirmed(task) <= Held(task)
  {
  }

  lemma AllConfirmedHeld(s: State)
    ensures forall t, x: nat :: IsConfirmed(s, t, x) ==> x in Held(s.tasks[t])
  {
    forall t, x: nat | IsConfirmed(s, t, x) ensures x in Held(s.tasks[t]) {
      ConfirmedHeld(s.tasks[t]);
    }
  }

  /** One task moved on without confirming anything new. */
  lemma ShrinkStays(s: State, s': State, t: nat)
    requires OthersKept(s, s', t) && Confirmed(s'.tasks[t]) <= Confirmed(s.tasks[t])
    ensures StaysConfirmed(s, s')
  {
    forall u, id: nat | IsConfirmed(s', u, id) ensures ConfirmedBefore(s, s', id) {
      assert IsConfirmed(s, u, id);
    }
  }

  lemma NewStays(s: State, s': State, task: Task)
    requires s'.tasks == s.tasks + [task] && Confirmed(task) == {}
    ensures StaysConfirmed(s, s')
  {
    forall u, id: nat | IsConfirmed(s', u, id) ensures ConfirmedBefore(s, s', id) {
      assert IsConfirmed(s, u, id);
    }
  }

  lemma SpawnStays(s: State, s': State, t: nat, ids: seq<nat>, left: Task, fetch: Task)
    requires t < |s.tasks| && s' == Spawn(s, t, ids, left, fetch)
    requires Confirmed(left) <= Confirmed(s.tasks[t]) && Confirmed(fetch) <= Confirmed(s.tasks[t])
    ensures StaysConfirmed(s, s') && SlotKeysKept(s, s')
  {
    forall u, id: nat | IsConfirmed(s', u, id) ensures ConfirmedBefore(s, s', id) {
      var v := if u == |s.tasks| then t else u;
      assert IsConfirmed(s, v, id);
    }
  }

  lemma EnvOnce(w: World, s: State, a: EnvAction)
    requires Once(s) && EnvEnabled(w, s, a) && !a.Evict?
    ensures Once(EnvApply(w, s, a))
  {
    var s' := EnvApply(w, s, a);
    assert s'.tasks == s.tasks && s'.slots == s.slots && s'.log == s.log;
    forall t, id: nat | IsConfirmed(s', t, id) ensures ConfirmedBefore(s, s', id) {
      assert IsConfirmed(s, t, id);
    }
    OnceQuiet(s, s');
  }

  lemma SettleOnce(w: World, s: State, a: SettleAction)
    requires Once(s) && SettleEnabled(w, s, a)
    ensures Once(SettleApply(w, s, a))
  {
    var s' := SettleApply(w, s, a);
    if a.DropTask? {
      ShrinkStays(s, s', a.t);
    } else {
      forall t, id: nat | IsConfirmed(s', t, id) ensures ConfirmedBefore(s, s', id) {
        assert IsConfirmed(s, t, id);
      }
    }
    OnceQuiet(s, s');
  }

  lemma RecheckOnce(w: World, s: State, t: nat, id: nat)
    requires Once(s) && PlanEnabled(w, s, Recheck(t, id))
    ensures Once(RecheckStep(s, t, id))
  {
    var s' := RecheckStep(s, t, id);
    forall u, x: nat | IsConfirmed(s', u, x) ensures ConfirmedBefore(s, s', x) {
      assert IsConfirmed(s, u, x) || (u == t && x == id);
    }
    OnceQuiet(s, s');
  }

  lemma SpawnOnce(w: World, s: State, t: nat)
    requires Once(s) && PlanEnabled(w, s, SpawnGroup(t)) && Distinct(s.tasks[t].stage.owners)
    ensures Once(SpawnStep(w, s, t))
  {
    var n := SpawnShape(w, s, t);
    var task := s.tasks[t];
    var owners := task.stage.owners;
    SpawnStays(s, SpawnStep(w, s, t), t, owners[..n],
               WithStage(task, Spawning(task.stage.handles, owners[n..])),
               Fetching(task.ctx, true, owners[..n], task.ctx.meta, 0, Top(None)));
    SpawnQuiet(s, SpawnStep(w, s, t));
  }

  lemma SpawnQuiet(s: State, s': State)
    requires Once(s) && StaysConfirmed(s, s') && SlotKeysKept(s, s') && s'.log == s.log && s'.cache == s.cache
    ensures Once(s')
  {
    OnceQuiet(s, s');
  }

  lemma PlanOnce(w: World, s: State, a: PlanAction)
    requires Once(s) && AllListed(s) && PlanEnabled(w, s, a)
    ensures Once(PlanApply(w, s, a))
  {
    match a
    case StartSchedule(ctx, lo, hi) =>
      NewStays(s, PlanApply(w, s, a), Scheduling(ctx, lo, hi, Looking(map[])));
      OnceQuiet(s, PlanApply(w, s, a));
    case Recheck(t, id) => RecheckOnce(w, s, t, id);
    case SpawnGroup(t) =>
      assert Listed(s.tasks[t]);
      SpawnOnce(w, s, t);
    case _ => StageOnce(w, s, a, a.t);
  }

  lemma StageOnce(w: World, s: State, a: PlanAction, t: nat)
    requires Once(s) && PlanEnabled(w, s, a) && !a.StartSchedule? && !a.Recheck? && !a.SpawnGroup? && a.t == t
    ensures Once(PlanApply(w, s, a))
  {
    var s' := PlanApply(w, s, a);
    assert Confirmed(s'.tasks[t]) <= Confirmed(s.tasks[t]);
    ShrinkStays(s, s', t);
    OnceQuiet(s, s');
  }

  lemma FinishAdoptOnce(w: World, s: State, t: nat)
    requires Once(s) && ProbeEnabled(w, s, FinishAdopt(t))
    ensures Once(FinishAdoptStep(s, t))
  {
    var s' := FinishAdoptStep(s, t);
    var task := s.tasks[t];
    if task.held == [] {
      ShrinkStays(s, s', t);
      OnceQuiet(s, s');
    } else {
      SpawnStays(s, s', t, task.held, Scheduled(task.ctx, task.lo, PendingAll(task.held)),
                 Fetching(task.ctx, false, task.held, task.ctx.meta, 0, Top(Some(task.response))));
      SpawnQuiet(s, s');
    }
  }

  lemma ProbeOnce(w: World, s: State, a: ProbeAction)
    requires Once(s) && ProbeEnabled(w, s, a)
    ensures Once(ProbeApply(w, s, a))
  {
    match a
    case StartProbe(o, lo, hi, attempts) =>
      NewStays(s, ProbeApply(w, s, a), ProbeApply(w, s, a).tasks[|s.tasks|]);
      OnceQuiet(s, ProbeApply(w, s, a));
    case FinishAdopt(t) => FinishAdoptOnce(w, s, t);
    case _ => ProbedOnce(w, s, a, a.t);
  }

  lemma ProbedOnce(w: World, s: State, a: ProbeAction, t: nat)
    requires Once(s) && ProbeEnabled(w, s, a) && !a.StartProbe? && !a.FinishAdopt? && a.t == t
    ensures Once(ProbeApply(w, s, a))
  {
    var s' := ProbeApply(w, s, a);
    ShrinkStays(s, s', t);
    OnceQuiet(s, s');
  }

  lemma AskOnce(w: World, s: State, t: nat)
    requires Once(s) && AttemptEnabled(w, s, Ask(t))
    ensures Once(AskStep(s, t))
  {
    var s' := AskStep(s, t);
    ShrinkStays(s, s', t);
    if s.tasks[t].scheduled {
      OnceAsked(s, s', t, s.tasks[t].held);
    } else {
      OnceQuiet(s, s');
    }
  }

  lemma AttemptOnce(w: World, s: State, a: AttemptAction)
    requires Once(s) && AttemptEnabled(w, s, a)
    ensures Once(AttemptApply(w, s, a))
  {
    match a
    case Ask(t) => AskOnce(w, s, t);
    case _ => QuietOnce(w, s, a, a.t);
  }

  lemma QuietOnce(w: World, s: State, a: AttemptAction, t: nat)
    requires Once(s) && AttemptEnabled(w, s, a) && !a.Ask? && a.t == t
    ensures Once(AttemptApply(w, s, a))
  {
    var s' := AttemptApply(w, s, a);
    assert Confirmed(s'.tasks[t]) <= Confirmed(s.tasks[t]);
    ShrinkStays(s, s', t);
    OnceQuiet(s, s');
  }

  /** The stream steps that store a block settle the slot they store it for. */
  lemma StoresOnce(s: State, s': State, t: nat, id: nat, block: Block)
    requires Once(s) && Owns(s') && OthersKept(s, s', t) && Confirmed(s'.tasks[t]) <= Confirmed(s.tasks[t])
    requires id < |s.slots| && s'.slots == Store(s, id, block).slots && s'.cache == Store(s, id, block).cache
    requires s'.log == Store(s, id, block).log
    ensures Once(s')
  {
    ShrinkStays(s, s', t);
    AllConfirmedHeld(s');
    OnceStored(s, s', id);
  }

  lemma TakeLeadOnce(w: World, s: State, t: nat)
    requires Once(s) && StreamEnabled(w, s, TakeLead(t)) && Owns(TakeLeadStep(w, s, t))
    ensures Once(TakeLeadStep(w, s, t))
  {
    var s' := TakeLeadStep(w, s, t);
    var body := s.tasks[t].pc.body;
    var n := Expected(w.BlockSize(s.tasks[t].ctx.obj), s.tasks[t].pc.next, body.meta.size);
    if s.tasks[t].pc.claim.Claimed? {
      StoresOnce(s, s', t, s.tasks[t].pc.claim.id, Block(body.meta, body.rest[..n]));
    } else {
      ShrinkStays(s, s', t);
      OnceQuiet(s, s');
    }
  }

  lemma ServeOnce(w: World, s: State, t: nat)
    requires Once(s) && StreamEnabled(w, s, Serve(t)) && Owns(ServeStep(w, s, t))
    ensures Once(ServeStep(w, s, t))
  {
    var s' := ServeStep(w, s, t);
    var body := s.tasks[t].pc.body;
    var held := s.tasks[t].held;
    var n := Expected(w.BlockSize(s.tasks[t].ctx.obj), s.slots[held[0]].key.index, body.meta.size);
    IdsSplit(held, 1);
    if n == 0 {
      ShrinkStays(s, s', t);
      OnceQuiet(s, s');
    } else {
      StoresOnce(s, s', t, held[0], Block(body.meta, body.rest[..n]));
    }
  }

  lemma TrailingOnce(w: World, s: State, t: nat)
    requires Once(s) && StreamEnabled(w, s, TakeTrailing(t)) && Owns(TrailingStep(w, s, t))
    ensures Once(TrailingStep(w, s, t))
  {
    var s' := TrailingStep(w, s, t);
    var pc := s.tasks[t].pc;
    var n := Expected(w.BlockSize(s.tasks[t].ctx.obj), pc.next, pc.body.meta.size);
    if pc.next < s.slots[pc.extra[0]].key.index {
      ShrinkStays(s, s', t);
      OnceQuiet(s, s');
    } else {
      StoresOnce(s, s', t, pc.extra[0], Block(pc.body.meta, pc.body.rest[..n]));
    }
  }

  lemma StreamOnce(w: World, s: State, a: StreamAction)
    requires Once(s) && StreamEnabled(w, s, a) && Owns(StreamApply(w, s, a))
    ensures Once(StreamApply(w, s, a))
  {
    match a
    case TakeLead(t) => TakeLeadOnce(w, s, t);
    case Serve(t) => ServeOnce(w, s, t);
    case TakeTrailing(t) => TrailingOnce(w, s, t);
    case _ => PhaseOnce(w, s, a, a.t);
  }

  lemma PhaseOnce(w: World, s: State, a: StreamAction, t: nat)
    requires Once(s) && StreamEnabled(w, s, a) && !a.TakeLead? && !a.Serve? && !a.TakeTrailing? && a.t == t
    ensures Once(StreamApply(w, s, a))
  {
    var s' := StreamApply(w, s, a);
    assert Confirmed(s'.tasks[t]) <= Confirmed(s.tasks[t]);
    ShrinkStays(s, s', t);
    OnceQuiet(s, s');
  }

  lemma StepOnce(w: World, s: State, a: Action)
    requires Once(s) && AllListed(s) && Enabled(w, s, a) && Owns(Apply(w, s, a)) && (a.Env? ==> !a.env.Evict?)
    ensures Once(Apply(w, s, a))
  {
    match a
    case Env(x) => EnvOnce(w, s, x);
    case Settle(x) => SettleOnce(w, s, x);
    case Plan(x) => PlanOnce(w, s, x);
    case Probe(x) => ProbeOnce(w, s, x);
    case Attempt(x) => AttemptOnce(w, s, x);
    case Stream(x) => StreamOnce(w, s, x);
  }

  lemma {:induction false} RunOnce(w: World, run: seq<Action>)
    requires Exec(w, run).Some? && KeepsBlocks(run)
    ensures Once(Exec(w, run).value)
  {
    if run != [] {
      RunOnce(w, run[..|run| - 1]);
      RunOwns(w, run);
      RunOwns(w, run[..|run| - 1]);
      StepOnce(w, Exec(w, run[..|run| - 1]).value, run[|run| - 1]);
    }
  }

  /** No two tasks hold slots for one block. */
  lemma OneHolder(s: State, t: nat, u: nat, x: nat, y: nat)
    requires Owns(s) && t < |s.tasks| && u < |s.tasks| && x in Held(s.tasks[t]) && y in Held(s.tasks[u])
    requires x < |s.slots| && y < |s.slots| && s.slots[x].key == s.slots[y].key
    ensures t == u && x == y
  {
    assert Holds(s, t, x) && Holds(s, u, y);
  }

  /** The blocks gathered are those all of whose bytes the answer claims. */
  lemma WholeExactly(b: Pos, body: Body, index: nat)
    requires body.end <= body.meta.size
    ensures Whole(b, body, index) <==>
              index < Count(b, body.meta.size) && Min(Offset(b, index + 1), body.meta.size) <= body.end
  {
    CountBounds(b, body.end, index);
    CountBounds(b, body.meta.size, index);
  }

  /** Once the size is known, only groups that start inside the object are asked for. */
  lemma AsksOnlyInside(w: World, s: State, t: nat)
    requires AttemptEnabled(w, s, Ask(t)) && s.tasks[t].meta.Some?
    ensures s.slots[s.tasks[t].held[0]].key.index < Count(w.BlockSize(s.tasks[t].ctx.obj), s.tasks[t].meta.value.size)
  {
    CountBounds(w.BlockSize(s.tasks[t].ctx.obj), s.tasks[t].meta.value.size, s.slots[s.tasks[t].held[0]].key.index);
  }

  /** A wider answer is not wasted: whatever whole block of it comes before or after those asked for is by
      then cached, or being fetched, if need be by the task itself. */
  lemma ExtraBlocksClaimed(w: World, s: State, t: nat, cached: bool)
    ensures StreamEnabled(w, s, ClaimLead(t, cached)) ==>
              var key, s' := s.tasks[t].ctx.Key(s.tasks[t].pc.next), ClaimStep(s, t, cached);
              && (key in s'.cache || key in s'.table)
              && (!cached && key !in s.table ==> key in s'.table && s'.table[key] in Held(s'.tasks[t]))
    ensures StreamEnabled(w, s, Gather(t, cached)) ==>
              var key, s' := s.tasks[t].ctx.Key(s.tasks[t].pc.cursor), GatherStep(s, t, cached);
              && (key in s'.cache || key in s'.table) && s'.tasks[t].pc.cursor == s.tasks[t].pc.cursor + 1
              && (!cached && key !in s.table ==> key in s'.table && s'.table[key] in Held(s'.tasks[t]))
  {
  }

  /** If the step serves a block that a scheduled group asked for, no fetch had delivered it before. */
  predicate DeliversFirst(s: State, a: Action) {
    a.Stream? && a.stream.Serve? && AtPc(s, a.stream.t, true) && s.tasks[a.stream.t].scheduled ==>
      !WasFetched(s, s.slots[s.tasks[a.stream.t].held[0]].key)
  }

  lemma ServedFirst(w: World, run: seq<Action>, n: nat)
    requires Exec(w, run).Some? && KeepsBlocks(run) && n < |run|
    ensures DeliversFirst(StateAt(w, run, n), run[n])
  {
    PrefixRuns(w, run, n);
    RunOnce(w, run[..n]);
    var s, a := StateAt(w, run, n), run[n];
    if a.Stream? && a.stream.Serve? && AtPc(s, a.stream.t, true) && s.tasks[a.stream.t].scheduled {
      assert IsConfirmed(s, a.stream.t, s.tasks[a.stream.t].held[0]);
    }
  }

  /** At-most-once fetching. In every run over a cache that keeps its blocks: once any fetch has
      delivered a block no scheduled group asks the origin for it again or delivers it again, what was
      fetched is still cached, and no two tasks ever hold a slot for the same block. Blocks past the end
      are delivered empty, are never recorded as fetched (`EngineProbes.PastEndNeverFetched`) and may be
      asked for again. */
  lemma FetchedAtMostOnce(w: World, run: seq<Action>, s: State)
    requires Exec(w, run) == Some(s) && KeepsBlocks(run)
    ensures NoRefetch(s.log)
    ensures forall n :: 0 <= n < |run| ==> DeliversFirst(StateAt(w, run, n), run[n])
    ensures forall k :: WasFetched(s, k) ==> k in s.cache
    ensures forall t, u, x, y ::
              (0 <= t < |s.tasks| && 0 <= u < |s.tasks| && x in Held(s.tasks[t]) && y in Held(s.tasks[u])
               && x < |s.slots| && y < |s.slots| && s.slots[x].key == s.slots[y].key) ==> t == u && x == y
  {
    RunOnce(w, run);
    RunOwns(w, run);
    forall n | 0 <= n < |run| ensures DeliversFirst(StateAt(w, run, n), run[n]) {
      ServedFirst(w, run, n);
    }
    forall t, u, x, y | (0 <= t < |s.tasks| && 0 <= u < |s.tasks| && x in Held(s.tasks[t]) && y in Held(s.tasks[u])
                         && x < |s.slots| && y < |s.slots| && s.slots[x].key == s.slots[y].key)
      ensures t == u && x == y
    {
      OneHolder(s, t, u, x, y);
    }
  }
}
