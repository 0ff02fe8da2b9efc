/** Cache agreement: over every run whose writes keep equal tags to equal bytes, every cached block,
    every result sent to a waiter and every byte still to come from an open stream is what the
    object has at that place. */
module EngineAgreement {
  import opened Common
  import opened Blocks
  import opened Origin
  import opened Errors
  import opened Engine
  import opened EngineOwnership

  // ---- What each part of the state promises ----

  ghost predicate Good(w: World, h: History, k: BlockKey, b: Block) {
    var c := Content(w, h, k.obj, k.tag);
    c.Some? && b.data == BlockBytes(w.BlockSize(k.obj), c.value, k.index) && b.meta.size == |c.value|
  }

  ghost predicate GoodResult(w: World, h: History, k: BlockKey, r: BlockResult) { r.Ok? ==> Good(w, h, k, r.value) }

  ghost predicate CacheSound(w: World, s: State) {
    forall k :: k in s.cache ==> Good(w, s.writes, k, s.cache[k]) && s.cache[k].data != []
  }

  ghost predicate MetaSound(w: World, s: State) {
    forall o :: o in s.meta ==> KnownMeta(w, s.writes, o, s.meta[o].meta)
  }

  ghost predicate SlotsSound(w: World, s: State) {
    forall id :: 0 <= id < |s.slots| ==> SlotSound(w, s.writes, s.slots[id])
  }

  ghost predicate SlotSound(w: World, h: History, slot: Slot) {
    !slot.phase.Live? ==> GoodResult(w, h, slot.key, slot.phase.result)
  }

  /** The stream still holds the object's bytes from block `next` on, as far as it goes. */
  ghost predicate At(b: Pos, data: Bytes, next: nat, rest: Bytes) {
    next * b <= |data| ==> rest <= data[next * b..]
  }

  ghost predicate BodySound(w: World, h: History, ctx: ReadCtx, body: Body, next: nat) {
    var c := Content(w, h, ctx.obj, ctx.tag);
    c.Some? && body.end <= body.meta.size == |c.value| && At(w.BlockSize(ctx.obj), c.value, next, body.rest)
  }

  ghost predicate SizeSound(w: World, h: History, ctx: ReadCtx, m: ObjectMeta) {
    var c := Content(w, h, ctx.obj, ctx.tag);
    c.Some? && m.size == |c.value|
  }

  predicate ResponseOf(h: History, o: ObjectKey, r: Response) {
    IsVersion(h, o, r.from) && Describes(h[r.from].version.value, r)
  }

  /** Slots for blocks of the context, in any order. */
  predicate Keyed(slots: seq<Slot>, ids: seq<nat>, ctx: ReadCtx) {
    forall j :: 0 <= j < |ids| ==> ids[j] < |slots| && slots[ids[j]].key == ctx.Key(slots[ids[j]].key.index)
  }

  /** Slots for a run of consecutive blocks starting at `first`. */
  predicate RunOf(slots: seq<Slot>, ids: seq<nat>, ctx: ReadCtx, first: nat) {
    forall j :: 0 <= j < |ids| ==> ids[j] < |slots| && slots[ids[j]].key == ctx.Key(first + j)
  }

  function Front(slots: seq<Slot>, ids: seq<nat>): nat
    requires ids != [] && ids[0] < |slots|
  {
    slots[ids[0]].key.index
  }

  /** Slots for blocks of the object at or after `next`, in increasing order. */
  predicate Ahead(w: World, slots: seq<Slot>, ids: seq<nat>, ctx: ReadCtx, next: nat, size: nat) {
    && Keyed(slots, ids, ctx)
    && (forall j :: 0 <= j < |ids| ==> next <= slots[ids[j]].key.index < Count(w.BlockSize(ctx.obj), size))
    && (forall i, j :: 0 <= i < j < |ids| ==> slots[ids[i]].key.index < slots[ids[j]].key.index)
  }

  ghost predicate HandlesSound(w: World, h: History, slots: seq<Slot>, ctx: ReadCtx, lo: nat, handles: seq<Handle>) {
    forall j :: 0 <= j < |handles| ==> HandleSound(w, h, slots, ctx.Key(lo + j), handles[j])
  }

  ghost predicate HandleSound(w: World, h: History, slots: seq<Slot>, key: BlockKey, handle: Handle) {
    match handle
    case Ready(block) => Good(w, h, key, block)
    case Pending(id) => id < |slots| && slots[id].key == key
  }

  ghost predicate LookedSound(w: World, h: History, ctx: ReadCtx, looked: map<nat, Option<Block>>) {
    forall i :: i in looked && looked[i].Some? ==> Good(w, h, ctx.Key(i), looked[i].value)
  }

  ghost predicate LandedSound(w: World, h: History, slots: seq<Slot>, landed: map<nat, Option<Block>>) {
    forall id :: id in landed && landed[id].Some? ==> id < |slots| && Good(w, h, slots[id].key, landed[id].value)
  }

  ghost predicate StageSound(w: World, h: History, slots: seq<Slot>, ctx: ReadCtx, lo: nat, stage: Stage) {
    match stage
    case Looking(looked) => LookedSound(w, h, ctx, looked)
    case Registering(looked, handles, owners) =>
      LookedSound(w, h, ctx, looked) && HandlesSound(w, h, slots, ctx, lo, handles) && Keyed(slots, owners, ctx)
    case Rechecking(handles, owners, landed) =>
      HandlesSound(w, h, slots, ctx, lo, handles) && Keyed(slots, owners, ctx) && LandedSound(w, h, slots, landed)
    case Spawning(handles, owners) => HandlesSound(w, h, slots, ctx, lo, handles) && Keyed(slots, owners, ctx)
  }

  ghost predicate PcSound(w: World, h: History, slots: seq<Slot>, ctx: ReadCtx, held: seq<nat>, pc: Pc) {
    match pc
    case Top(initial) => initial.Some? ==> ResponseOf(h, ctx.obj, initial.value)
    case Asked => true
    case Answered(r) => ResponseOf(h, ctx.obj, r)
    case Failing(_) => true
    case Leading(body, next, claim) =>
      && held != [] && held[0] < |slots| && next <= Front(slots, held)
      && BodySound(w, h, ctx, body, next)
      && (claim.Claimed? ==> claim.id < |slots| && slots[claim.id].key == ctx.Key(next))
    case Serving(body, next) =>
      BodySound(w, h, ctx, body, if held != [] && held[0] < |slots| then Front(slots, held) else next)
    case Gathering(body, next, cursor, extra) =>
      && next <= cursor && BodySound(w, h, ctx, body, next) && Ahead(w, slots, extra, ctx, next, body.meta.size)
      && (forall j :: 0 <= j < |extra| ==> slots[extra[j]].key.index < cursor)
    case Trailing(body, next, extra) =>
      BodySound(w, h, ctx, body, next) && Ahead(w, slots, extra, ctx, next, body.meta.size)
  }

  ghost predicate TaskSound(w: World, h: History, slots: seq<Slot>, task: Task) {
    match task
    case Done => true
    case Scheduling(ctx, lo, hi, stage) => KnownCtx(w, h, ctx) && StageSound(w, h, slots, ctx, lo, stage)
    case Scheduled(ctx, lo, handles) => KnownCtx(w, h, ctx) && HandlesSound(w, h, slots, ctx, lo, handles)
    case Probing(o, _, _, stale, _) => stale.Some? ==> KnownMeta(w, h, o, stale.value)
    case Adopting(ctx, lo, cursor, _, held, r) =>
      KnownCtx(w, h, ctx) && ResponseOf(h, ctx.obj, r) && cursor == lo + |held| && RunOf(slots, held, ctx, lo)
    case Fetching(ctx, _, held, meta, _, pc) =>
      && KnownCtx(w, h, ctx)
      && (held != [] ==> held[0] < |slots| && RunOf(slots, held, ctx, Front(slots, held)))
      && (meta.Some? ==> SizeSound(w, h, ctx, meta.value))
      && (meta.None? ==> ctx.meta.None?)
      && PcSound(w, h, slots, ctx, held, pc)
  }

  ghost predicate TasksSound(w: World, s: State) { AllSound(w, s.writes, s.slots, s.tasks) }

  ghost predicate AllSound(w: World, h: History, slots: seq<Slot>, tasks: seq<Task>) {
    tasks == [] || (AllSound(w, h, slots, tasks[..|tasks| - 1]) && TaskSound(w, h, slots, tasks[|tasks| - 1]))
  }

  lemma {:induction false} AllSoundAt(w: World, h: History, slots: seq<Slot>, tasks: seq<Task>, t: nat)
    requires AllSound(w, h, slots, tasks) && t < |tasks|
    ensures TaskSound(w, h, slots, tasks[t])
  {
    if t < |tasks| - 1 {
      AllSoundAt(w, h, slots, tasks[..|tasks| - 1], t);
    }
  }

  lemma {:induction false} AllSoundIf(w: World, h: History, slots: seq<Slot>, tasks: seq<Task>)
    requires forall t :: 0 <= t < |tasks| ==> TaskSound(w, h, slots, tasks[t])
    ensures AllSound(w, h, slots, tasks)
  {
    if tasks != [] {
      AllSoundIf(w, h, slots, tasks[..|tasks| - 1]);
    }
  }

  lemma TaskAt(w: World, s: State, t: nat)
    requires TasksSound(w, s) && t < |s.tasks|
    ensures TaskSound(w, s.writes, s.slots, s.tasks[t])
  {
    AllSoundAt(w, s.writes, s.slots, s.tasks, t);
  }

  ghost predicate Sound(w: World, s: State) {
    CacheSound(w, s) && MetaSound(w, s) && SlotsSound(w, s) && TasksSound(w, s)
  }

  // ---- Growth ----

  predicate Grows(slots: seq<Slot>, slots': seq<Slot>) {
    |slots| <= |slots'| && forall i :: 0 <= i < |slots| ==> slots'[i].key == slots[i].key
  }

  lemma GoodGrows(w: World, h: History, h': History, k: BlockKey, b: Block)
    requires h <= h' && Good(w, h, k, b)
    ensures Good(w, h', k, b)
  {
    ContentGrows(w, h, h', k.obj, k.tag);
  }

  lemma HandlesGrow(w: World, h: History, h': History, slots: seq<Slot>, slots': seq<Slot>, ctx: ReadCtx, lo: nat,
                    handles: seq<Handle>)
    requires h <= h' && Grows(slots, slots') && HandlesSound(w, h, slots, ctx, lo, handles)
    ensures HandlesSound(w, h', slots', ctx, lo, handles)
  {
    forall j | 0 <= j < |handles| ensures HandleSound(w, h', slots', ctx.Key(lo + j), handles[j]) {
      assert HandleSound(w, h, slots, ctx.Key(lo + j), handles[j]);
      if handles[j].Ready? {
        GoodGrows(w, h, h', ctx.Key(lo + j), handles[j].block);
      }
    }
  }

  lemma StageGrows(w: World, h: History, h': History, slots: seq<Slot>, slots': seq<Slot>, ctx: ReadCtx, lo: nat,
                   stage: Stage)
    requires h <= h' && Grows(slots, slots') && StageSound(w, h, slots, ctx, lo, stage)
    ensures StageSound(w, h', slots', ctx, lo, stage)
  {
    if !stage.Looking? {
      HandlesGrow(w, h, h', slots, slots', ctx, lo, stage.handles);
    }
    if stage.Looking? || stage.Registering? {
      forall i | i in stage.looked && stage.looked[i].Some? ensures Good(w, h', ctx.Key(i), stage.looked[i].value) {
        GoodGrows(w, h, h', ctx.Key(i), stage.looked[i].value);
      }
    }
    if stage.Rechecking? {
      forall id | id in stage.landed && stage.landed[id].Some?
        ensures id < |slots'| && Good(w, h', slots'[id].key, stage.landed[id].value)
      {
        GoodGrows(w, h, h', slots[id].key, stage.landed[id].value);
      }
    }
  }

  lemma TaskGrows(w: World, h: History, h': History, slots: seq<Slot>, slots': seq<Slot>, task: Task)
    requires h <= h' && Grows(slots, slots') && TaskSound(w, h, slots, task)
    ensures TaskSound(w, h', slots', task)
  {
    match task
    case Done =>
    case Scheduling(ctx, lo, hi, stage) =>
      KnownGrows(w, h, h', ctx);
      StageGrows(w, h, h', slots, slots', ctx, lo, stage);
    case Scheduled(ctx, lo, handles) =>
      KnownGrows(w, h, h', ctx);
      HandlesGrow(w, h, h', slots, slots', ctx, lo, handles);
    case Probing(o, _, _, stale, _) =>
      if stale.Some? {
        ContentGrows(w, h, h', o, BlockTag(w, o, stale.value));
      }
    case Adopting(ctx, _, _, _, _, _) => KnownGrows(w, h, h', ctx);
    case Fetching(ctx, _, _, _, _, _) =>
      KnownGrows(w, h, h', ctx);
      ContentGrows(w, h, h', ctx.obj, ctx.tag);
      FetchGrows(w, h, h', slots, slots', task);
  }

  lemma FetchGrows(w: World, h: History, h': History, slots: seq<Slot>, slots': seq<Slot>, task: Task)
    requires h <= h' && Grows(slots, slots') && task.Fetching? && TaskSound(w, h, slots, task)
             && KnownCtx(w, h', task.ctx)
    requires SameContent(w, h, h', task.ctx)
    ensures TaskSound(w, h', slots', task)
  {
    PcGrows(w, h, h', slots, slots', task.ctx, task.held, task.pc);
  }

  ghost predicate SameContent(w: World, h: History, h': History, ctx: ReadCtx) {
    var c := Content(w, h, ctx.obj, ctx.tag);
    c.Some? ==> Content(w, h', ctx.obj, ctx.tag) == c
  }

  lemma AheadGrows(w: World, slots: seq<Slot>, slots': seq<Slot>, ids: seq<nat>, ctx: ReadCtx, next: nat, size: nat)
    requires Grows(slots, slots') && Ahead(w, slots, ids, ctx, next, size)
    ensures Ahead(w, slots', ids, ctx, next, size)
  {
  }

  lemma PcGrows(w: World, h: History, h': History, slots: seq<Slot>, slots': seq<Slot>, ctx: ReadCtx, held: seq<nat>,
                pc: Pc)
    requires h <= h' && Grows(slots, slots') && SameContent(w, h, h', ctx)
    requires held != [] ==> held[0] < |slots|
    requires PcSound(w, h, slots, ctx, held, pc)
    ensures PcSound(w, h', slots', ctx, held, pc)
  {
    if pc.Gathering? || pc.Trailing? {
      AheadGrows(w, slots, slots', pc.extra, ctx, pc.next, pc.body.meta.size);
    }
  }

  lemma KnownGrows(w: World, h: History, h': History, ctx: ReadCtx)
    requires h <= h' && KnownCtx(w, h, ctx)
    ensures KnownCtx(w, h', ctx)
  {
    if ctx.meta.Some? {
      ContentGrows(w, h, h', ctx.obj, BlockTag(w, ctx.obj, ctx.meta.value));
    }
  }

  // ---- Assembling a step ----

  /** A step of task `t` that leaves the history alone. */
  lemma Assemble(w: World, s: State, s': State, t: nat)
    requires Sound(w, s) && s'.writes == s.writes && Grows(s.slots, s'.slots) && OthersKept(s, s', t)
    requires CacheSound(w, s') && MetaSound(w, s') && SlotsSound(w, s')
    requires TaskSound(w, s'.writes, s'.slots, s'.tasks[t])
    ensures Sound(w, s')
  {
    forall u | 0 <= u < |s'.tasks| ensures TaskSound(w, s'.writes, s'.slots, s'.tasks[u]) {
      if u != t {
        TaskAt(w, s, u);
        TaskGrows(w, s.writes, s'.writes, s.slots, s'.slots, s.tasks[u]);
      }
    }
    AllSoundIf(w, s'.writes, s'.slots, s'.tasks);
  }

  lemma TasksGrow(w: World, s: State, s': State)
    requires TasksSound(w, s) && s.writes <= s'.writes && Grows(s.slots, s'.slots) && s'.tasks == s.tasks
    ensures TasksSound(w, s')
  {
    forall t | 0 <= t < |s'.tasks| ensures TaskSound(w, s'.writes, s'.slots, s'.tasks[t]) {
      TaskAt(w, s, t);
      TaskGrows(w, s.writes, s'.writes, s.slots, s'.slots, s.tasks[t]);
    }
    AllSoundIf(w, s'.writes, s'.slots, s'.tasks);
  }

  lemma AssembleNew(w: World, s: State, s': State, task: Task)
    requires Sound(w, s) && s' == AddTask(s, task) && TaskSound(w, s.writes, s.slots, task)
    ensures Sound(w, s')
  {
    assert s'.tasks[..|s.tasks|] == s.tasks;
  }

  lemma AssembleSpawn(w: World, s: State, s': State, t: nat, ids: seq<nat>, left: Task, fetch: Task)
    requires Sound(w, s) && t < |s.tasks| && s' == Spawn(s, t, ids, left, fetch)
    requires TaskSound(w, s.writes, s.slots, left) && TaskSound(w, s.writes, s.slots, fetch)
    ensures Sound(w, s')
  {
    forall u | 0 <= u < |s'.tasks| ensures TaskSound(w, s'.writes, s'.slots, s'.tasks[u]) {
      var task := if u == t then left else if u == |s.tasks| then fetch else s.tasks[u];
      if u < |s.tasks| {
        TaskAt(w, s, u);
      }
      TaskGrows(w, s.writes, s'.writes, s.slots, s'.slots, task);
    }
    AllSoundIf(w, s'.writes, s'.slots, s'.tasks);
  }

  lemma MarkSound(w: World, s: State, s': State, results: map<nat, BlockResult>)
    requires SlotsSound(w, s) && s'.writes == s.writes && s'.slots == Mark(s.slots, results)
    requires forall id :: id in results && id < |s.slots| ==> GoodResult(w, s.writes, s.slots[id].key, results[id])
    ensures SlotsSound(w, s')
  {
  }

  // ---- The origin, the cache and the clock ----

  lemma EnvSound(w: World, s: State, a: EnvAction)
    requires Sound(w, s) && EnvEnabled(w, s, a) && Faithful(w, s.writes)
    ensures Sound(w, EnvApply(w, s, a))
  {
    var s' := EnvApply(w, s, a);
    match a
    case Tick(_) =>
    case Publish(o, v) => PublishSound(w, s, s');
    case Evict(_) =>
    case DropMeta(_) =>
    case InsertBlock(o, p, i) =>
      ContentOf(w, s.writes, o, p);
      ExpectedBounds(w.BlockSize(o), i, |s.writes[p].version.value.data|);
    case RecordMeta(o, p, answered) => ContentOf(w, s.writes, o, p);
    case CachedMeta(o, i) =>
      assert Good(w, s.writes, BlockKey(o, IMMUTABLE_TAG, i), s.cache[BlockKey(o, IMMUTABLE_TAG, i)]);
  }

  lemma PublishSound(w: World, s: State, s': State)
    requires Sound(w, s) && s.writes <= s'.writes && s' == s.(writes := s'.writes)
    ensures Sound(w, s')
  {
    forall k | k in s'.cache ensures Good(w, s'.writes, k, s'.cache[k]) && s'.cache[k].data != [] {
      GoodGrows(w, s.writes, s'.writes, k, s.cache[k]);
    }
    forall o | o in s'.meta ensures KnownMeta(w, s'.writes, o, s'.meta[o].meta) {
      ContentGrows(w, s.writes, s'.writes, o, BlockTag(w, o, s.meta[o].meta));
    }
    forall id | 0 <= id < |s'.slots| ensures SlotSound(w, s'.writes, s'.slots[id]) {
      assert SlotSound(w, s.writes, s.slots[id]);
      if !s.slots[id].phase.Live? && s.slots[id].phase.result.Ok? {
        GoodGrows(w, s.writes, s'.writes, s.slots[id].key, s.slots[id].phase.result.value);
      }
    }
    TasksGrow(w, s, s');
  }

  lemma SettleSound(w: World, s: State, a: SettleAction)
    requires Sound(w, s) && SettleEnabled(w, s, a)
    ensures Sound(w, SettleApply(w, s, a))
  {
    var s' := SettleApply(w, s, a);
    if a.DropTask? {
      TaskAt(w, s, a.t);
      MarkSound(w, s, s', AllOf(Held(s.tasks[a.t]), Err(Cancelled)));
      Assemble(w, s, s', a.t);
    } else {
      assert SlotSound(w, s.writes, s.slots[a.id]);
      PublishedSound(w, s, s', a.id);
    }
  }

  lemma PublishedSound(w: World, s: State, s': State, id: nat)
    requires Sound(w, s) && id < |s.slots| == |s'.slots| && s'.slots == s.slots[id := s'.slots[id]]
    requires s'.writes == s.writes && s'.cache == s.cache && s'.meta == s.meta && s'.tasks == s.tasks
    requires s'.slots[id].key == s.slots[id].key && SlotSound(w, s.writes, s'.slots[id])
    ensures Sound(w, s')
  {
    TasksGrow(w, s, s');
  }

  // ---- schedule ----

  lemma LookupSound(w: World, s: State, t: nat, i: nat)
    requires Sound(w, s) && PlanEnabled(w, s, Lookup(t, i))
    ensures Sound(w, LookupStep(s, t, i))
  {
    TaskAt(w, s, t);
    Assemble(w, s, LookupStep(s, t, i), t);
  }

  /** Registering, whoever ends up owning the slot, only ever adds a live slot for the key. */
  lemma RegisterSound(w: World, s: State, t: nat, key: BlockKey)
    requires SlotsSound(w, s)
    ensures var s' := Register(s, t, key); SlotsSound(w, s') && Grows(s.slots, s'.slots)
  {
  }

  lemma RegistersKey(s: State, t: nat, key: BlockKey)
    requires TableOk(s)
    ensures var (id, owner) := Registered(s, key);
            var s' := Register(s, t, key);
            id < |s'.slots| && s'.slots[id].key == key
  {
  }

  lemma HandlesAppend(w: World, h: History, slots: seq<Slot>, ctx: ReadCtx, lo: nat, handles: seq<Handle>,
                      handle: Handle)
    requires HandlesSound(w, h, slots, ctx, lo, handles) && HandleSound(w, h, slots, ctx.Key(lo + |handles|), handle)
    ensures HandlesSound(w, h, slots, ctx, lo, handles + [handle])
  {
  }

  lemma RegisteredMiss(w: World, s: State, t: nat, ctx: ReadCtx, lo: nat, hi: nat, st: Stage, key: BlockKey)
    requires TableOk(s) && st.Registering? && StageSound(w, s.writes, s.slots, ctx, lo, st)
             && KnownCtx(w, s.writes, ctx)
    requires key == ctx.Key(lo + |st.handles|)
    ensures TaskSound(w, s.writes, Register(s, t, key).slots, Scheduling(ctx, lo, hi, AfterMiss(s, key, st)))
  {
    var slots' := Register(s, t, key).slots;
    RegistersKey(s, t, key);
    HandlesGrow(w, s.writes, s.writes, s.slots, slots', ctx, lo, st.handles);
    HandlesAppend(w, s.writes, slots', ctx, lo, st.handles, Pending(Registered(s, key).0));
  }

  /** Bookkeeping for a step that registers a key and moves one task on. */
  lemma AssembleRegistered(w: World, s: State, s': State, t: nat, key: BlockKey, task: Task)
    requires Sound(w, s) && OthersKept(s, s', t) && s'.tasks[t] == task
    requires s'.writes == s.writes && s'.cache == s.cache && s'.meta == s.meta
    requires s'.slots == Register(s, t, key).slots && TaskSound(w, s.writes, Register(s, t, key).slots, task)
    ensures Sound(w, s')
  {
    RegisterSound(w, s, t, key);
    Assemble(w, s, s', t);
  }

  lemma RegisterHitSound(w: World, s: State, t: nat, block: Block)
    requires Sound(w, s) && t < |s.tasks| && s.tasks[t].Scheduling? && s.tasks[t].stage.Registering?
    requires Good(w, s.writes, s.tasks[t].ctx.Key(s.tasks[t].lo + |s.tasks[t].stage.handles|), block)
    ensures Sound(w, HitStep(s, t, block))
  {
    var task := s.tasks[t];
    TaskAt(w, s, t);
    HandlesAppend(w, s.writes, s.slots, task.ctx, task.lo, task.stage.handles, Ready(block));
    Assemble(w, s, HitStep(s, t, block), t);
  }

  lemma MissFrame(s: State, t: nat, key: BlockKey)
    requires t < |s.tasks| && s.tasks[t].Scheduling? && s.tasks[t].stage.Registering?
    ensures var s' := MissStep(s, t, key);
            && OthersKept(s, s', t) && s'.writes == s.writes && s'.cache == s.cache && s'.meta == s.meta
            && s'.slots == Register(s, t, key).slots
            && s'.tasks[t] == WithStage(s.tasks[t], AfterMiss(s, key, s.tasks[t].stage))
  {
  }

  lemma StageAt(w: World, s: State, t: nat)
    requires TasksSound(w, s) && t < |s.tasks| && s.tasks[t].Scheduling?
    ensures KnownCtx(w, s.writes, s.tasks[t].ctx)
    ensures StageSound(w, s.writes, s.slots, s.tasks[t].ctx, s.tasks[t].lo, s.tasks[t].stage)
  {
    TaskAt(w, s, t);
  }

  lemma MissedTask(w: World, s: State, t: nat, key: BlockKey)
    requires TasksSound(w, s) && TableOk(s) && t < |s.tasks| && s.tasks[t].Scheduling? && s.tasks[t].stage.Registering?
    requires key == s.tasks[t].ctx.Key(s.tasks[t].lo + |s.tasks[t].stage.handles|)
    ensures TaskSound(w, s.writes, Register(s, t, key).slots,
                      WithStage(s.tasks[t], AfterMiss(s, key, s.tasks[t].stage)))
  {
    var task := s.tasks[t];
    StageAt(w, s, t);
    RegisteredMiss(w, s, t, task.ctx, task.lo, task.hi, task.stage, key);
  }

  lemma RegisterMissSound(w: World, s: State, t: nat)
    requires Sound(w, s) && TableOk(s) && t < |s.tasks| && s.tasks[t].Scheduling? && s.tasks[t].stage.Registering?
    ensures Sound(w, MissStep(s, t, s.tasks[t].ctx.Key(s.tasks[t].lo + |s.tasks[t].stage.handles|)))
  {
    var key := s.tasks[t].ctx.Key(s.tasks[t].lo + |s.tasks[t].stage.handles|);
    MissedTask(w, s, t, key);
    MissFrame(s, t, key);
    AssembleRegistered(w, s, MissStep(s, t, key), t, key, WithStage(s.tasks[t], AfterMiss(s, key, s.tasks[t].stage)));
  }

  lemma LookedGood(w: World, s: State, t: nat)
    requires PlanEnabled(w, s, RegisterNext(t)) && TasksSound(w, s)
    ensures var i := s.tasks[t].lo + |s.tasks[t].stage.handles|;
            var found := s.tasks[t].stage.looked[i];
            found.Some? ==> Good(w, s.writes, s.tasks[t].ctx.Key(i), found.value)
  {
    TaskAt(w, s, t);
  }

  lemma RegisterNextSound(w: World, s: State, t: nat)
    requires Sound(w, s) && TableOk(s) && PlanEnabled(w, s, RegisterNext(t))
    ensures Sound(w, RegisterStep(s, t))
  {
    LookedGood(w, s, t);
    var found := s.tasks[t].stage.looked[s.tasks[t].lo + |s.tasks[t].stage.handles|];
    if found.Some? {
      RegisterHitSound(w, s, t, found.value);
    } else {
      RegisterMissSound(w, s, t);
    }
  }

  lemma RecheckSound(w: World, s: State, t: nat, id: nat)
    requires Sound(w, s) && PlanEnabled(w, s, Recheck(t, id))
    ensures Sound(w, RecheckStep(s, t, id))
  {
    TaskAt(w, s, t);
    Assemble(w, s, RecheckStep(s, t, id), t);
  }

  lemma {:induction false} MissedKeyed(slots: seq<Slot>, ids: seq<nat>, ctx: ReadCtx, landed: map<nat, Option<Block>>)
    requires Keyed(slots, ids, ctx)
    ensures Keyed(slots, Missed(ids, landed), ctx)
  {
    if ids != [] {
      MissedKeyed(slots, ids[..|ids| - 1], ctx, landed);
    }
  }

  lemma FinishRecheckSound(w: World, s: State, t: nat)
    requires Sound(w, s) && PlanEnabled(w, s, FinishRecheck(t))
    ensures Sound(w, FinishRecheckStep(s, t))
  {
    var s' := FinishRecheckStep(s, t);
    var task := s.tasks[t];
    var st := task.stage;
    TaskAt(w, s, t);
    MissedKeyed(s.slots, st.owners, task.ctx, st.landed);
    MarkSound(w, s, s', LandedResults(st.owners, st.landed));
    HandlesGrow(w, s.writes, s.writes, s.slots, s'.slots, task.ctx, task.lo, st.handles);
    Assemble(w, s, s', t);
  }

  lemma SpawnSound(w: World, s: State, t: nat)
    requires Sound(w, s) && PlanEnabled(w, s, SpawnGroup(t))
    ensures Sound(w, SpawnStep(w, s, t))
  {
    var task := s.tasks[t];
    var owners := task.stage.owners;
    var indexes := Indexes(s.slots, owners);
    var n := RunLength(indexes, Max(w.Config(task.ctx.obj).fetchWindow, 1));
    TaskAt(w, s, t);
    var fetch := Fetching(task.ctx, true, owners[..n], task.ctx.meta, 0, Top(None));
    assert RunOf(s.slots, owners[..n], task.ctx, Front(s.slots, owners[..n])) by {
      forall j | 0 <= j < n ensures s.slots[owners[j]].key == task.ctx.Key(s.slots[owners[0]].key.index + j) {
        assert indexes[j] == indexes[0] + j;
      }
    }
    AssembleSpawn(w, s, SpawnStep(w, s, t), t, owners[..n],
                  WithStage(task, Spawning(task.stage.handles, owners[n..])), fetch);
  }

  lemma PlanSound(w: World, s: State, a: PlanAction)
    requires Sound(w, s) && TableOk(s) && PlanEnabled(w, s, a)
    ensures Sound(w, PlanApply(w, s, a))
  {
    match a
    case StartSchedule(ctx, lo, hi) => AssembleNew(w, s, PlanApply(w, s, a), Scheduling(ctx, lo, hi, Looking(map[])));
    case Lookup(t, i) => LookupSound(w, s, t, i);
    case RegisterNext(t) => RegisterNextSound(w, s, t);
    case Recheck(t, id) => RecheckSound(w, s, t, id);
    case FinishRecheck(t) => FinishRecheckSound(w, s, t);
    case SpawnGroup(t) => SpawnSound(w, s, t);
    case _ =>
      TaskAt(w, s, a.t);
      Assemble(w, s, PlanApply(w, s, a), a.t);
  }

  // ---- probe and adopt ----

  /** The metadata of an answer is the metadata of a write. */
  lemma AnswerKnown(w: World, h: History, o: ObjectKey, r: Response)
    requires Faithful(w, h) && ResponseOf(h, o, r)
    ensures KnownMeta(w, h, o, r.meta)
    ensures Content(w, h, o, BlockTag(w, o, r.meta)) == Some(h[r.from].version.value.data)
  {
    ContentOf(w, h, o, r.from);
  }

  lemma AdoptedTask(w: World, s: State, t: nat, key: BlockKey)
    requires TasksSound(w, s) && ProbeEnabled(w, s, AdoptNext(t)) && key == s.tasks[t].ctx.Key(s.tasks[t].cursor)
    ensures var task := s.tasks[t];
            if key in s.table then TaskSound(w, s.writes, s.slots, AdoptStep(s, t).tasks[t])
            else TaskSound(w, s.writes, Register(s, t, key).slots,
                           Adopting(task.ctx, task.lo, task.cursor + 1, task.end, task.held + [|s.slots|],
                                    task.response))
  {
    TaskAt(w, s, t);
  }

  lemma AdoptSound(w: World, s: State, t: nat)
    requires Sound(w, s) && TableOk(s) && ProbeEnabled(w, s, AdoptNext(t))
    ensures Sound(w, AdoptStep(s, t))
  {
    var task := s.tasks[t];
    var key := task.ctx.Key(task.cursor);
    AdoptedTask(w, s, t, key);
    if key in s.table {
      Assemble(w, s, AdoptStep(s, t), t);
    } else {
      AssembleRegistered(w, s, AdoptStep(s, t), t, key,
                         Adopting(task.ctx, task.lo, task.cursor + 1, task.end, task.held + [|s.slots|],
                                  task.response));
    }
  }

  lemma FinishAdoptSound(w: World, s: State, t: nat)
    requires Sound(w, s) && ProbeEnabled(w, s, FinishAdopt(t))
    ensures Sound(w, FinishAdoptStep(s, t))
  {
    var task := s.tasks[t];
    TaskAt(w, s, t);
    var handed := Scheduled(task.ctx, task.lo, PendingAll(task.held));
    if task.held == [] {
      Assemble(w, s, FinishAdoptStep(s, t), t);
    } else {
      AssembleSpawn(w, s, FinishAdoptStep(s, t), t, task.held, handed,
                    Fetching(task.ctx, false, task.held, task.ctx.meta, 0, Top(Some(task.response))));
    }
  }

  lemma ProbeAnswerSound(w: World, s: State, t: nat, r: Response)
    requires Sound(w, s) && Faithful(w, s.writes) && ProbeEnabled(w, s, ProbeAnswer(t, r))
    ensures Sound(w, ProbeApply(w, s, ProbeAnswer(t, r)))
  {
    AnswerKnown(w, s.writes, s.tasks[t].obj, r);
    Assemble(w, s, ProbeApply(w, s, ProbeAnswer(t, r)), t);
  }

  lemma ProbeUnchangedSound(w: World, s: State, t: nat, p: nat, answered: nat)
    requires Sound(w, s) && ProbeEnabled(w, s, ProbeUnchanged(t, p, answered))
    ensures Sound(w, ProbeApply(w, s, ProbeUnchanged(t, p, answered)))
  {
    TaskAt(w, s, t);
    Assemble(w, s, ProbeApply(w, s, ProbeUnchanged(t, p, answered)), t);
  }

  lemma ProbeSound(w: World, s: State, a: ProbeAction)
    requires Sound(w, s) && TableOk(s) && Faithful(w, s.writes) && ProbeEnabled(w, s, a)
    ensures Sound(w, ProbeApply(w, s, a))
  {
    match a
    case StartProbe(o, lo, hi, attempts) =>
      AssembleNew(w, s, ProbeApply(w, s, a),
                  Probing(o, lo, hi, if o in s.meta then Some(s.meta[o].meta) else None, attempts));
    case ProbeAnswer(t, r) => ProbeAnswerSound(w, s, t, r);
    case ProbeUnchanged(t, p, answered) => ProbeUnchangedSound(w, s, t, p, answered);
    case AdoptNext(t) => AdoptSound(w, s, t);
    case FinishAdopt(t) => FinishAdoptSound(w, s, t);
  }

  // ---- fetch_group and accept ----

  /** An answer that passes the tag check is about the bytes the context's tag stands for. */
  lemma SameVersion(w: World, h: History, ctx: ReadCtx, r: Response)
    requires Faithful(w, h) && KnownCtx(w, h, ctx) && ResponseOf(h, ctx.obj, r)
    requires ctx.tag == IMMUTABLE_TAG || ContentTag(w, r.meta.etag, r.meta.size) == ctx.tag
    ensures Content(w, h, ctx.obj, ctx.tag) == Some(h[r.from].version.value.data)
  {
    AnswerKnown(w, h, ctx.obj, r);
    assert BlockTag(w, ctx.obj, r.meta) == ctx.tag;
  }

  /** The claimed range of an answer, from any point in it on. */
  lemma AnswerAt(b: Pos, v: Version, r: Response, index: nat)
    requires Describes(v, r) && r.start <= index * b
    ensures At(b, v.data, index, if index * b - r.start <= |r.content| then r.content[index * b - r.start..] else [])
  {
    var skip := index * b - r.start;
    if index * b <= |v.data| && skip <= |r.content| {
      PrefixDrop(r.content, v.data[r.start..r.end], skip);
      assert v.data[r.start..r.end][skip..] == v.data[index * b..r.end];
      assert v.data[index * b..r.end] <= v.data[index * b..];
    }
  }

  lemma Aligned(b: Pos, start: nat)
    requires start % b == 0
    ensures Index(b, start) * b == start
  {
  }

  lemma IndexOrder(b: Pos, i: nat, j: nat)
    requires i * b <= j * b
    ensures i <= j
  {
    MulMonotone(j, i, b);
  }

  /** Past the end every block is empty. */
  lemma EmptyBlock(w: World, h: History, k: BlockKey, from: nat, m: ObjectMeta)
    requires Content(w, h, k.obj, k.tag).Some? && m.size == |Content(w, h, k.obj, k.tag).value|
    requires from * w.BlockSize(k.obj) >= m.size && from <= k.index
    ensures Good(w, h, k, Block(m, []))
  {
    MulMonotone(from, k.index, w.BlockSize(k.obj));
  }

  lemma EmptyRun(w: World, s: State, t: nat, m: ObjectMeta)
    requires AtPc(s, t, true) && TaskSound(w, s.writes, s.slots, s.tasks[t])
    requires SizeSound(w, s.writes, s.tasks[t].ctx, m)
    requires Front(s.slots, s.tasks[t].held) * w.BlockSize(s.tasks[t].ctx.obj) >= m.size
    ensures forall id :: id in Ids(s.tasks[t].held) && id < |s.slots| ==>
              GoodResult(w, s.writes, s.slots[id].key, Ok(Block(m, [])))
  {
    var held := s.tasks[t].held;
    forall id | id in Ids(held) && id < |s.slots| ensures Good(w, s.writes, s.slots[id].key, Block(m, [])) {
      var j :| 0 <= j < |held| && held[j] == id;
      EmptyBlock(w, s.writes, s.slots[id].key, Front(s.slots, held), m);
    }
  }

  lemma SettleRunSound(w: World, s: State, s': State, t: nat, result: BlockResult)
    requires Sound(w, s) && Running(s, t)
    requires s'.slots == Mark(s.slots, AllOf(Ids(s.tasks[t].held), result)) && s'.tasks == s.tasks[t := Done]
    requires s'.writes == s.writes && s'.cache == s.cache && MetaSound(w, s')
    requires forall id :: id in Ids(s.tasks[t].held) && id < |s.slots| ==>
               GoodResult(w, s.writes, s.slots[id].key, result)
    ensures Sound(w, s')
  {
    MarkSound(w, s, s', AllOf(Ids(s.tasks[t].held), result));
    Assemble(w, s, s', t);
  }

  lemma NothingWanted(w: World, s: State, t: nat)
    requires AtPc(s, t, true) && s.tasks[t].meta.Some? && Nothing(Wanted(w, s, s.tasks[t]))
    ensures Front(s.slots, s.tasks[t].held) * w.BlockSize(s.tasks[t].ctx.obj) >= s.tasks[t].meta.value.size
  {
    var first := Front(s.slots, s.tasks[t].held);
    MulMonotone(first, first + |s.tasks[t].held|, w.BlockSize(s.tasks[t].ctx.obj));
  }

  lemma ServeNothingSound(w: World, s: State, t: nat)
    requires Sound(w, s) && AttemptEnabled(w, s, ServeNothing(t))
    ensures Sound(w, AttemptApply(w, s, ServeNothing(t)))
  {
    TaskAt(w, s, t);
    NothingWanted(w, s, t);
    EmptyRun(w, s, t, s.tasks[t].meta.value);
    SettleRunSound(w, s, AttemptApply(w, s, ServeNothing(t)), t, Ok(Block(s.tasks[t].meta.value, [])));
  }

  lemma PastEndSound(w: World, s: State, t: nat, p: nat, answered: nat)
    requires Sound(w, s) && Faithful(w, s.writes) && AttemptEnabled(w, s, PastEnd(t, p, answered))
    ensures Sound(w, AttemptApply(w, s, PastEnd(t, p, answered)))
  {
    var m := s.writes[p].version.value.Meta();
    TaskAt(w, s, t);
    ContentOf(w, s.writes, s.tasks[t].ctx.obj, p);
    EmptyRun(w, s, t, m);
    SettleRunSound(w, s, AttemptApply(w, s, PastEnd(t, p, answered)), t, Ok(Block(m, [])));
  }

  predicate Retries(s: State, t: nat, e: OriginError, expired: bool)
    requires Running(s, t)
  {
    e.Retryable() && s.tasks[t].attempt + 1 < s.tasks[t].ctx.attempts && !expired
  }

  /** An attempt that will be retried settles at most an extra block it had claimed. */
  lemma RetryMarks(w: World, s: State, t: nat, e: OriginError, expired: bool)
    requires SlotsSound(w, s) && Running(s, t) && Retries(s, t, e, expired)
    ensures var s' := FailStep(s, t, e, expired); SlotsSound(w, s') && Grows(s.slots, s'.slots)
  {
    var task := s.tasks[t];
    var claimed := if task.pc.Leading? && task.pc.claim.Claimed? then {task.pc.claim.id} else {};
    MarkSound(w, s, FailStep(s, t, e, expired), AllOf(claimed, Err(Cancelled)));
  }

  /** One that gives up settles its own slots as well. */
  lemma GiveUpMarks(w: World, s: State, t: nat, e: OriginError, expired: bool)
    requires SlotsSound(w, s) && Running(s, t) && !Retries(s, t, e, expired)
    ensures var s' := FailStep(s, t, e, expired); SlotsSound(w, s') && Grows(s.slots, s'.slots)
  {
    var task := s.tasks[t];
    var claimed := if task.pc.Leading? && task.pc.claim.Claimed? then {task.pc.claim.id} else {};
    var cause := if e.Retryable() && task.attempt + 1 < task.ctx.attempts then Timeout else e;
    MarkSound(w, s, FailStep(s, t, e, expired),
              AllOf(Ids(task.held), Err(ToNestor(cause))) + AllOf(claimed, Err(Cancelled)));
  }

  lemma FailFrame(s: State, t: nat, e: OriginError, expired: bool)
    requires Running(s, t)
    ensures var s' := FailStep(s, t, e, expired);
            OthersKept(s, s', t) && s'.writes == s.writes && s'.cache == s.cache && s'.meta == s.meta
  {
  }

  lemma FailTask(w: World, s: State, t: nat, e: OriginError, expired: bool)
    requires TasksSound(w, s) && Running(s, t) && Grows(s.slots, FailStep(s, t, e, expired).slots)
    ensures var s' := FailStep(s, t, e, expired); TaskSound(w, s.writes, s'.slots, s'.tasks[t])
  {
    TaskAt(w, s, t);
    RunGrows(s.slots, FailStep(s, t, e, expired).slots, s.tasks[t].held, s.tasks[t].ctx);
  }

  lemma FailSound(w: World, s: State, t: nat, e: OriginError, expired: bool)
    requires Sound(w, s) && Running(s, t)
    ensures Sound(w, FailStep(s, t, e, expired))
  {
    if Retries(s, t, e, expired) {
      RetryMarks(w, s, t, e, expired);
    } else {
      GiveUpMarks(w, s, t, e, expired);
    }
    FailFrame(s, t, e, expired);
    FailTask(w, s, t, e, expired);
    Assemble(w, s, FailStep(s, t, e, expired), t);
  }

  lemma RunGrows(slots: seq<Slot>, slots': seq<Slot>, ids: seq<nat>, ctx: ReadCtx)
    requires Grows(slots, slots') && (ids != [] ==> ids[0] < |slots| && RunOf(slots, ids, ctx, Front(slots, ids)))
    ensures ids != [] ==> ids[0] < |slots'| && RunOf(slots', ids, ctx, Front(slots', ids))
  {
  }

  /** An accepted answer is the version the context names, from its first whole block on. */
  lemma AcceptedAt(w: World, s: State, t: nat)
    requires TasksSound(w, s) && Faithful(w, s.writes) && AttemptEnabled(w, s, Accept(t))
             && AcceptStep(w, s, t).tasks[t].Fetching?
    ensures var task := s.tasks[t];
            var r := task.pc.response;
            && SizeSound(w, s.writes, task.ctx, r.meta)
            && (r.start % w.BlockSize(task.ctx.obj) == 0 ==>
                BodySound(w, s.writes, task.ctx, Body(r.content, r.meta, Min(r.end, r.meta.size)),
                          Index(w.BlockSize(task.ctx.obj), r.start)))
  {
    var task := s.tasks[t];
    var r := task.pc.response;
    var b := w.BlockSize(task.ctx.obj);
    TaskAt(w, s, t);
    SameVersion(w, s.writes, task.ctx, r);
    if r.start % b == 0 {
      Aligned(b, r.start);
      AnswerAt(b, s.writes[r.from].version.value, r, Index(b, r.start));
      assert r.content[0..] == r.content;
    }
  }

  lemma AcceptedBody(w: World, s: State, t: nat)
    requires Sound(w, s) && Faithful(w, s.writes) && AttemptEnabled(w, s, Accept(t))
    requires AcceptStep(w, s, t).tasks[t].Fetching?
    ensures TaskSound(w, s.writes, s.slots, AcceptStep(w, s, t).tasks[t])
  {
    var task := s.tasks[t];
    var b := w.BlockSize(task.ctx.obj);
    TaskAt(w, s, t);
    AcceptedAt(w, s, t);
    if AcceptStep(w, s, t).tasks[t].pc.Leading? {
      Aligned(b, task.pc.response.start);
      IndexOrder(b, Index(b, task.pc.response.start), Front(s.slots, task.held));
    }
  }

  /** Recording the metadata of an answer. */
  lemma PutSound(w: World, s: State, o: ObjectKey, r: Response)
    requires Sound(w, s) && Faithful(w, s.writes) && ResponseOf(s.writes, o, r)
    ensures Sound(w, PutMeta(s, o, r.meta, r.from, r.answered))
  {
    AnswerKnown(w, s.writes, o, r);
    var s' := PutMeta(s, o, r.meta, r.from, r.answered);
    forall t | 0 <= t < |s'.tasks| ensures TaskSound(w, s'.writes, s'.slots, s'.tasks[t]) {
      TaskAt(w, s, t);
    }
  }

  lemma AcceptSound(w: World, s: State, t: nat)
    requires Sound(w, s) && Faithful(w, s.writes) && AttemptEnabled(w, s, Accept(t))
    ensures Sound(w, AcceptStep(w, s, t))
  {
    var s' := AcceptStep(w, s, t);
    var r := s.tasks[t].pc.response;
    TaskAt(w, s, t);
    PutSound(w, s, s.tasks[t].ctx.obj, r);
    var put := PutMeta(s, s.tasks[t].ctx.obj, r.meta, r.from, r.answered);
    if s'.tasks[t].Done? {
      SettleRunSound(w, put, s', t, Err(Stale));
    } else {
      AcceptedBody(w, s, t);
      AcceptAssembles(w, put, s', t);
    }
  }

  lemma AcceptAssembles(w: World, put: State, s': State, t: nat)
    requires Sound(w, put) && t < |put.tasks| == |s'.tasks| && s' == SetTask(put, t, s'.tasks[t])
    requires TaskSound(w, put.writes, put.slots, s'.tasks[t])
    ensures Sound(w, s')
  {
    Assemble(w, put, s', t);
  }

  lemma AttemptSound(w: World, s: State, a: AttemptAction)
    requires Sound(w, s) && Faithful(w, s.writes) && AttemptEnabled(w, s, a)
    ensures Sound(w, AttemptApply(w, s, a))
  {
    match a
    case ServeNothing(t) => ServeNothingSound(w, s, t);
    case Refuse(t, e) => SettleRunSound(w, s, AttemptApply(w, s, a), t, Err(ToNestor(e)));
    case PastEnd(t, p, answered) => PastEndSound(w, s, t, p, answered);
    case Fail(t, e, expired) => FailSound(w, s, t, e, expired);
    case Accept(t) => AcceptSound(w, s, t);
    case _ => AskedSound(w, s, a);
  }

  lemma AskedSound(w: World, s: State, a: AttemptAction)
    requires Sound(w, s) && AttemptEnabled(w, s, a) && (a.UseInitial? || a.Ask? || a.Answer?)
    ensures Sound(w, AttemptApply(w, s, a))
  {
    TaskAt(w, s, a.t);
    Assemble(w, s, AttemptApply(w, s, a), a.t);
  }

  // ---- consume and fill_trailing ----

  /** Cutting the owed block off the stream yields that block and leaves the stream at the next one. */
  lemma BodyTake(w: World, h: History, ctx: ReadCtx, body: Body, index: nat)
    requires BodySound(w, h, ctx, body, index)
    requires |body.rest| >= Expected(w.BlockSize(ctx.obj), index, body.meta.size)
    ensures var n := Expected(w.BlockSize(ctx.obj), index, body.meta.size);
            && Good(w, h, ctx.Key(index), Block(body.meta, body.rest[..n]))
            && BodySound(w, h, ctx, body.(rest := body.rest[n..]), index + 1)
  {
    var b := w.BlockSize(ctx.obj);
    var data := Content(w, h, ctx.obj, ctx.tag).value;
    MulMonotone(index, index + 1, b);
    if index * b <= |data| {
      TakeBlock(b, data, index, body.rest);
    }
  }

  lemma StoreSound(w: World, s: State, id: nat, block: Block)
    requires CacheSound(w, s) && SlotsSound(w, s) && id < |s.slots|
    requires Good(w, s.writes, s.slots[id].key, block) && block.data != []
    ensures CacheSound(w, Store(s, id, block)) && SlotsSound(w, Store(s, id, block))
  {
  }

  /** A step that stores one good block and moves one task on. */
  lemma AssembleStored(w: World, s: State, s': State, t: nat, id: nat, block: Block, task: Task)
    requires Sound(w, s) && id < |s.slots| && Good(w, s.writes, s.slots[id].key, block) && block.data != []
    requires OthersKept(s, s', t) && s'.tasks[t] == task && TaskSound(w, s.writes, s.slots, task)
    requires s'.writes == s.writes && s'.meta == s.meta
    requires s'.cache == Store(s, id, block).cache && s'.slots == Store(s, id, block).slots
    ensures Sound(w, s')
  {
    StoreSound(w, s, id, block);
    TaskGrows(w, s.writes, s.writes, s.slots, s'.slots, task);
    Assemble(w, s, s', t);
  }

  lemma ClaimedTask(w: World, s: State, t: nat, cached: bool)
    requires TasksSound(w, s) && SlotsSound(w, s) && StreamEnabled(w, s, ClaimLead(t, cached))
    ensures var task := s.tasks[t];
            var key := task.ctx.Key(task.pc.next);
            if cached || key in s.table
            then TaskSound(w, s.writes, s.slots, WithPc(task, Leading(task.pc.body, task.pc.next, Skipped)))
            else TaskSound(w, s.writes, Register(s, t, key).slots,
                           WithPc(task, Leading(task.pc.body, task.pc.next, Claimed(|s.slots|))))
  {
    var task := s.tasks[t];
    var key := task.ctx.Key(task.pc.next);
    TaskAt(w, s, t);
    RegisterSound(w, s, t, key);
    TaskGrows(w, s.writes, s.writes, s.slots, Register(s, t, key).slots, task);
  }

  lemma ClaimSound(w: World, s: State, t: nat, cached: bool)
    requires Sound(w, s) && StreamEnabled(w, s, ClaimLead(t, cached))
    ensures Sound(w, ClaimStep(s, t, cached))
  {
    var task := s.tasks[t];
    var key := task.ctx.Key(task.pc.next);
    ClaimedTask(w, s, t, cached);
    if cached || key in s.table {
      Assemble(w, s, ClaimStep(s, t, cached), t);
    } else {
      AssembleRegistered(w, s, ClaimStep(s, t, cached), t, key,
                         WithPc(task, Leading(task.pc.body, task.pc.next, Claimed(|s.slots|))));
    }
  }

  lemma LeadMoves(w: World, s: State, t: nat)
    requires StreamEnabled(w, s, TakeLead(t)) && TasksSound(w, s)
    ensures var task := s.tasks[t];
            var body := task.pc.body;
            var n := Expected(w.BlockSize(task.ctx.obj), task.pc.next, body.meta.size);
            && n > 0
            && Good(w, s.writes, task.ctx.Key(task.pc.next), Block(body.meta, body.rest[..n]))
            && TaskSound(w, s.writes, s.slots,
                         WithPc(task, Leading(body.(rest := body.rest[n..]), task.pc.next + 1, Unclaimed)))
  {
    var task := s.tasks[t];
    TaskAt(w, s, t);
    BodyTake(w, s.writes, task.ctx, task.pc.body, task.pc.next);
    ExpectedBounds(w.BlockSize(task.ctx.obj), task.pc.next, task.pc.body.meta.size);
  }

  lemma TakeLeadFrame(w: World, s: State, t: nat)
    requires StreamEnabled(w, s, TakeLead(t))
    ensures var task := s.tasks[t];
            var body := task.pc.body;
            var n := Expected(w.BlockSize(task.ctx.obj), task.pc.next, body.meta.size);
            var s' := TakeLeadStep(w, s, t);
            && OthersKept(s, s', t) && s'.writes == s.writes && s'.meta == s.meta
            && s'.tasks[t] == WithPc(task, Leading(body.(rest := body.rest[n..]), task.pc.next + 1, Unclaimed))
            && (task.pc.claim.Claimed? ==>
                  var put := Store(s, task.pc.claim.id, Block(body.meta, body.rest[..n]));
                  s'.cache == put.cache && s'.slots == put.slots)
            && (!task.pc.claim.Claimed? ==> s'.cache == s.cache && s'.slots == s.slots)
  {
  }

  lemma ClaimAt(w: World, s: State, t: nat)
    requires TasksSound(w, s) && t < |s.tasks| && s.tasks[t].Fetching? && s.tasks[t].pc.Leading?
             && s.tasks[t].pc.claim.Claimed?
    ensures var pc := s.tasks[t].pc; pc.claim.id < |s.slots| && s.slots[pc.claim.id].key == s.tasks[t].ctx.Key(pc.next)
  {
    TaskAt(w, s, t);
  }

  lemma TakeLeadSound(w: World, s: State, t: nat)
    requires Sound(w, s) && StreamEnabled(w, s, TakeLead(t))
    ensures Sound(w, TakeLeadStep(w, s, t))
  {
    var task := s.tasks[t];
    if task.pc.claim.Claimed? {
      ClaimAt(w, s, t);
    }
    LeadMoves(w, s, t);
    TakeLeadFrame(w, s, t);
    var body := task.pc.body;
    var n := Expected(w.BlockSize(task.ctx.obj), task.pc.next, body.meta.size);
    AssembleTaken(w, s, TakeLeadStep(w, s, t), t, task.pc.claim.Claimed?,
                  if task.pc.claim.Claimed? then task.pc.claim.id else 0, Block(body.meta, body.rest[..n]),
                  WithPc(task, Leading(body.(rest := body.rest[n..]), task.pc.next + 1, Unclaimed)));
  }

  /** A step that takes one block off a stream, stores it if a slot was claimed for it, and moves on. */
  lemma AssembleTaken(w: World, s: State, s': State, t: nat, stored: bool, id: nat, block: Block, task: Task)
    requires Sound(w, s) && OthersKept(s, s', t) && s'.tasks[t] == task && TaskSound(w, s.writes, s.slots, task)
    requires s'.writes == s.writes && s'.meta == s.meta
    requires stored ==> id < |s.slots| && Good(w, s.writes, s.slots[id].key, block) && block.data != []
    requires stored ==> s'.cache == Store(s, id, block).cache && s'.slots == Store(s, id, block).slots
    requires !stored ==> s'.cache == s.cache && s'.slots == s.slots
    ensures Sound(w, s')
  {
    if stored {
      AssembleStored(w, s, s', t, id, block, task);
    } else {
      Assemble(w, s, s', t);
    }
  }

  /** Once the leading blocks are read the stream stands at the first requested block. */
  lemma FinishLeadSound(w: World, s: State, t: nat)
    requires Sound(w, s) && StreamEnabled(w, s, FinishLead(t))
    ensures Sound(w, StreamApply(w, s, FinishLead(t)))
  {
    var task := s.tasks[t];
    var b := w.BlockSize(task.ctx.obj);
    TaskAt(w, s, t);
    var first := Front(s.slots, task.held);
    if task.pc.next < first {
      CountBounds(b, task.pc.body.meta.size, task.pc.next);
      MulMonotone(task.pc.next, first, b);
      assert first * b > task.pc.body.meta.size;
    }
    Assemble(w, s, StreamApply(w, s, FinishLead(t)), t);
  }

  /** What an adopted backup holds after its skip is the rest of the version from the owed block on. */
  lemma HedgedAt(w: World, s: State, t: nat, r: Response)
    requires TasksSound(w, s) && Faithful(w, s.writes) && StreamEnabled(w, s, Hedge(t, r))
    ensures var task := s.tasks[t];
            var skip := Offset(w.BlockSize(task.ctx.obj), Owed(s, t).value) - r.start;
            var rest := if skip <= |r.content| then r.content[skip..] else [];
            BodySound(w, s.writes, task.ctx, task.pc.body.(rest := rest), Owed(s, t).value)
  {
    var task := s.tasks[t];
    TaskAt(w, s, t);
    SameVersion(w, s.writes, task.ctx, r);
    AnswerAt(w.BlockSize(task.ctx.obj), s.writes[r.from].version.value, r, Owed(s, t).value);
  }

  lemma HedgedTask(w: World, s: State, t: nat, r: Response)
    requires TasksSound(w, s) && Faithful(w, s.writes) && StreamEnabled(w, s, Hedge(t, r))
    ensures TaskSound(w, s.writes, s.slots, HedgeStep(w, s, t, r).tasks[t])
  {
    HedgedAt(w, s, t, r);
    TaskAt(w, s, t);
  }

  lemma HedgeSound(w: World, s: State, t: nat, r: Response)
    requires Sound(w, s) && Faithful(w, s.writes) && StreamEnabled(w, s, Hedge(t, r))
    ensures Sound(w, HedgeStep(w, s, t, r))
  {
    HedgedTask(w, s, t, r);
    Assemble(w, s, HedgeStep(w, s, t, r), t);
  }

  lemma RunTail(slots: seq<Slot>, ids: seq<nat>, ctx: ReadCtx)
    requires ids != [] && ids[0] < |slots| && RunOf(slots, ids, ctx, Front(slots, ids))
    ensures |ids| > 1 ==> ids[1] < |slots| && Front(slots, ids[1..]) == Front(slots, ids) + 1
    ensures |ids| > 1 ==> RunOf(slots, ids[1..], ctx, Front(slots, ids[1..]))
  {
    if |ids| > 1 {
      assert slots[ids[1]].key == ctx.Key(Front(slots, ids) + 1);
      forall j | 0 <= j < |ids[1..]| ensures slots[ids[1..][j]].key == ctx.Key(Front(slots, ids) + 1 + j) {
        assert ids[1..][j] == ids[j + 1];
      }
    }
  }

  lemma ServeMoves(w: World, s: State, t: nat)
    requires StreamEnabled(w, s, Serve(t)) && TasksSound(w, s)
    ensures var task := s.tasks[t];
            var body := task.pc.body;
            var index := Front(s.slots, task.held);
            var n := Expected(w.BlockSize(task.ctx.obj), index, body.meta.size);
            && Good(w, s.writes, s.slots[task.held[0]].key, Block(body.meta, body.rest[..n]))
            && TaskSound(w, s.writes, s.slots,
                         Fetching(task.ctx, task.scheduled, task.held[1..], task.meta, task.attempt,
                                                        Serving(body.(rest := body.rest[n..]), index + 1)))
  {
    var task := s.tasks[t];
    TaskAt(w, s, t);
    assert s.slots[task.held[0]].key == task.ctx.Key(Front(s.slots, task.held));
    BodyTake(w, s.writes, task.ctx, task.pc.body, Front(s.slots, task.held));
    RunTail(s.slots, task.held, task.ctx);
  }

  lemma EmptyFrame(w: World, s: State, t: nat)
    requires StreamEnabled(w, s, Serve(t))
    requires Expected(w.BlockSize(s.tasks[t].ctx.obj), Front(s.slots, s.tasks[t].held),
                      s.tasks[t].pc.body.meta.size) == 0
    ensures var task := s.tasks[t];
            var body := task.pc.body;
            var index := Front(s.slots, task.held);
            var n := Expected(w.BlockSize(task.ctx.obj), index, body.meta.size);
            var s' := ServeStep(w, s, t);
            && OthersKept(s, s', t) && s'.writes == s.writes && s'.meta == s.meta
            && s'.tasks[t] == Fetching(task.ctx, task.scheduled, task.held[1..], task.meta, task.attempt,
                                       Serving(body.(rest := body.rest[n..]), index + 1))
            && s'.cache == s.cache
            && s'.slots == Mark(s.slots, map[task.held[0] := Ok(Block(body.meta, body.rest[..n]))])
  {
  }

  lemma ServedFrame(w: World, s: State, t: nat)
    requires StreamEnabled(w, s, Serve(t))
    requires Expected(w.BlockSize(s.tasks[t].ctx.obj), Front(s.slots, s.tasks[t].held),
                      s.tasks[t].pc.body.meta.size) > 0
    ensures var task := s.tasks[t];
            var body := task.pc.body;
            var index := Front(s.slots, task.held);
            var n := Expected(w.BlockSize(task.ctx.obj), index, body.meta.size);
            var s' := ServeStep(w, s, t);
            && OthersKept(s, s', t) && s'.writes == s.writes && s'.meta == s.meta
            && s'.tasks[t] == Fetching(task.ctx, task.scheduled, task.held[1..], task.meta, task.attempt,
                                       Serving(body.(rest := body.rest[n..]), index + 1))
            && (var put := Store(s, task.held[0], Block(body.meta, body.rest[..n]));
                s'.cache == put.cache && s'.slots == put.slots)
  {
  }

  lemma ServeFrame(w: World, s: State, t: nat)
    requires StreamEnabled(w, s, Serve(t))
    ensures var task := s.tasks[t];
            var body := task.pc.body;
            var index := Front(s.slots, task.held);
            var n := Expected(w.BlockSize(task.ctx.obj), index, body.meta.size);
            var s' := ServeStep(w, s, t);
            && OthersKept(s, s', t) && s'.writes == s.writes && s'.meta == s.meta
            && s'.tasks[t] == Fetching(task.ctx, task.scheduled, task.held[1..], task.meta, task.attempt,
                                       Serving(body.(rest := body.rest[n..]), index + 1))
            && (n > 0 ==>
                  var put := Store(s, task.held[0], Block(body.meta, body.rest[..n]));
                  s'.cache == put.cache && s'.slots == put.slots)
            && (n == 0 ==>
                  s'.cache == s.cache
                  && s'.slots == Mark(s.slots, map[task.held[0] := Ok(Block(body.meta, body.rest[..n]))]))
  {
    if Expected(w.BlockSize(s.tasks[t].ctx.obj), Front(s.slots, s.tasks[t].held), s.tasks[t].pc.body.meta.size) == 0 {
      EmptyFrame(w, s, t);
    } else {
      ServedFrame(w, s, t);
    }
  }

  lemma ServeSound(w: World, s: State, t: nat)
    requires Sound(w, s) && StreamEnabled(w, s, Serve(t))
    ensures Sound(w, ServeStep(w, s, t))
  {
    var task := s.tasks[t];
    var body := task.pc.body;
    var index := Front(s.slots, task.held);
    var n := Expected(w.BlockSize(task.ctx.obj), index, body.meta.size);
    ServeMoves(w, s, t);
    ServeFrame(w, s, t);
    AssembleServed(w, s, ServeStep(w, s, t), t, n > 0, task.held[0], Block(body.meta, body.rest[..n]),
                   Fetching(task.ctx, task.scheduled, task.held[1..], task.meta, task.attempt,
                            Serving(body.(rest := body.rest[n..]), index + 1)));
  }

  lemma AssembleServed(w: World, s: State, s': State, t: nat, stored: bool, id: nat, block: Block, task: Task)
    requires Sound(w, s) && OthersKept(s, s', t) && s'.tasks[t] == task && TaskSound(w, s.writes, s.slots, task)
    requires s'.writes == s.writes && s'.meta == s.meta
    requires id < |s.slots| && Good(w, s.writes, s.slots[id].key, block) && (stored ==> block.data != [])
    requires stored ==> s'.cache == Store(s, id, block).cache && s'.slots == Store(s, id, block).slots
    requires !stored ==> s'.cache == s.cache && s'.slots == Mark(s.slots, map[id := Ok(block)])
    ensures Sound(w, s')
  {
    if stored {
      AssembleStored(w, s, s', t, id, block, task);
    } else {
      ServeEmptySound(w, s, s', t, id, block, task);
    }
  }

  lemma ServeEmptySound(w: World, s: State, s': State, t: nat, id: nat, block: Block, task: Task)
    requires Sound(w, s) && id < |s.slots| && Good(w, s.writes, s.slots[id].key, block)
    requires OthersKept(s, s', t) && s'.tasks[t] == task && TaskSound(w, s.writes, s.slots, task)
    requires s'.writes == s.writes && s'.meta == s.meta && s'.cache == s.cache
    requires s'.slots == Mark(s.slots, map[id := Ok(block)])
    ensures Sound(w, s')
  {
    MarkSound(w, s, s', map[id := Ok(block)]);
    TaskGrows(w, s.writes, s.writes, s.slots, s'.slots, task);
    Assemble(w, s, s', t);
  }

  lemma AheadAppend(w: World, slots: seq<Slot>, slot: Slot, ids: seq<nat>, ctx: ReadCtx, next: nat, cursor: nat,
                    size: nat)
    requires Ahead(w, slots, ids, ctx, next, size) && next <= cursor < Count(w.BlockSize(ctx.obj), size)
    requires slot.key == ctx.Key(cursor)
    requires forall j :: 0 <= j < |ids| ==> slots[ids[j]].key.index < cursor
    ensures Ahead(w, slots + [slot], ids + [|slots|], ctx, next, size)
    ensures forall j :: 0 <= j < |ids + [|slots|]| ==> (slots + [slot])[(ids + [|slots|])[j]].key.index < cursor + 1
  {
  }

  lemma GatheredTask(w: World, s: State, t: nat)
    requires StreamEnabled(w, s, Gather(t, false)) && TasksSound(w, s)
    requires s.tasks[t].ctx.Key(s.tasks[t].pc.cursor) !in s.table
    ensures var task := s.tasks[t];
            var pc := task.pc;
            TaskSound(w, s.writes, Register(s, t, task.ctx.Key(pc.cursor)).slots,
                      WithPc(task, Gathering(pc.body, pc.next, pc.cursor + 1, pc.extra + [|s.slots|])))
  {
    var task := s.tasks[t];
    var pc := task.pc;
    TaskAt(w, s, t);
    CountBounds(w.BlockSize(task.ctx.obj), pc.body.end, pc.cursor);
    CountBounds(w.BlockSize(task.ctx.obj), pc.body.meta.size, pc.cursor);
    AheadAppend(w, s.slots, Slot(task.ctx.Key(pc.cursor), Live(t)), pc.extra, task.ctx, pc.next, pc.cursor,
                pc.body.meta.size);
    RunGrows(s.slots, Register(s, t, task.ctx.Key(pc.cursor)).slots, task.held, task.ctx);
  }

  lemma PassedTask(w: World, s: State, t: nat, cached: bool)
    requires StreamEnabled(w, s, Gather(t, cached)) && TasksSound(w, s)
    requires cached || s.tasks[t].ctx.Key(s.tasks[t].pc.cursor) in s.table
    ensures var s' := GatherStep(s, t, cached); TaskSound(w, s'.writes, s'.slots, s'.tasks[t])
  {
    TaskAt(w, s, t);
  }

  lemma GatherSound(w: World, s: State, t: nat, cached: bool)
    requires Sound(w, s) && StreamEnabled(w, s, Gather(t, cached))
    ensures Sound(w, GatherStep(s, t, cached))
  {
    var task := s.tasks[t];
    var pc := task.pc;
    var key := task.ctx.Key(pc.cursor);
    if cached || key in s.table {
      PassedTask(w, s, t, cached);
      Assemble(w, s, GatherStep(s, t, cached), t);
    } else {
      RegisterSound(w, s, t, key);
      GatheredTask(w, s, t);
      AssembleRegistered(w, s, GatherStep(s, t, cached), t, key,
                         WithPc(task, Gathering(pc.body, pc.next, pc.cursor + 1, pc.extra + [|s.slots|])));
    }
  }

  lemma AheadTail(w: World, slots: seq<Slot>, ids: seq<nat>, ctx: ReadCtx, next: nat, size: nat)
    requires ids != [] && Ahead(w, slots, ids, ctx, next, size)
    ensures next < slots[ids[0]].key.index ==> Ahead(w, slots, ids, ctx, next + 1, size)
    ensures next == slots[ids[0]].key.index ==> Ahead(w, slots, ids[1..], ctx, next + 1, size)
  {
    assert forall j :: 0 <= j < |ids[1..]| ==> ids[1..][j] == ids[j + 1];
  }

  lemma TrailingMoves(w: World, s: State, t: nat)
    requires StreamEnabled(w, s, TakeTrailing(t)) && TasksSound(w, s)
    ensures var task := s.tasks[t];
            var pc := task.pc;
            var n := Expected(w.BlockSize(task.ctx.obj), pc.next, pc.body.meta.size);
            var body := pc.body.(rest := pc.body.rest[n..]);
            var index := s.slots[pc.extra[0]].key.index;
            && n > 0 && pc.next <= index
            && (pc.next == index ==>
                  Good(w, s.writes, s.slots[pc.extra[0]].key, Block(pc.body.meta, pc.body.rest[..n])))
            && (pc.next == index ==>
                  TaskSound(w, s.writes, s.slots, WithPc(task, Trailing(body, pc.next + 1, pc.extra[1..]))))
            && (pc.next < index ==>
                  TaskSound(w, s.writes, s.slots, WithPc(task, Trailing(body, pc.next + 1, pc.extra))))
  {
    var task := s.tasks[t];
    var pc := task.pc;
    TaskAt(w, s, t);
    AheadTail(w, s.slots, pc.extra, task.ctx, pc.next, pc.body.meta.size);
    BodyTake(w, s.writes, task.ctx, pc.body, pc.next);
    ExpectedBounds(w.BlockSize(task.ctx.obj), pc.next, pc.body.meta.size);
  }

  lemma SkipFrame(w: World, s: State, t: nat)
    requires StreamEnabled(w, s, TakeTrailing(t)) && s.tasks[t].pc.next < s.slots[s.tasks[t].pc.extra[0]].key.index
    ensures var task := s.tasks[t];
            var pc := task.pc;
            var n := Expected(w.BlockSize(task.ctx.obj), pc.next, pc.body.meta.size);
            var body := pc.body.(rest := pc.body.rest[n..]);
            var s' := TrailingStep(w, s, t);
            && OthersKept(s, s', t) && s'.writes == s.writes && s'.meta == s.meta && s'.cache == s.cache
               && s'.slots == s.slots
            && s'.tasks[t] == WithPc(task, Trailing(body, pc.next + 1, pc.extra))
  {
  }

  lemma StoreFrame(w: World, s: State, t: nat)
    requires StreamEnabled(w, s, TakeTrailing(t)) && s.tasks[t].pc.next >= s.slots[s.tasks[t].pc.extra[0]].key.index
    ensures var task := s.tasks[t];
            var pc := task.pc;
            var n := Expected(w.BlockSize(task.ctx.obj), pc.next, pc.body.meta.size);
            var body := pc.body.(rest := pc.body.rest[n..]);
            var s' := TrailingStep(w, s, t);
            var put := Store(s, pc.extra[0], Block(pc.body.meta, pc.body.rest[..n]));
            && OthersKept(s, s', t) && s'.writes == s.writes && s'.meta == s.meta && s'.cache == put.cache
               && s'.slots == put.slots
            && s'.tasks[t] == if |pc.extra| == 1 then Done else WithPc(task, Trailing(body, pc.next + 1, pc.extra[1..]))
  {
  }

  lemma TrailingFrame(w: World, s: State, t: nat)
    requires StreamEnabled(w, s, TakeTrailing(t))
    ensures var task := s.tasks[t];
            var pc := task.pc;
            var n := Expected(w.BlockSize(task.ctx.obj), pc.next, pc.body.meta.size);
            var body := pc.body.(rest := pc.body.rest[n..]);
            var s' := TrailingStep(w, s, t);
            var skipped := pc.next < s.slots[pc.extra[0]].key.index;
            && OthersKept(s, s', t) && s'.writes == s.writes && s'.meta == s.meta
            && s'.tasks[t] == AfterTrailing(task, body, skipped)
            && (!skipped ==>
                  var put := Store(s, pc.extra[0], Block(pc.body.meta, pc.body.rest[..n]));
                  s'.cache == put.cache && s'.slots == put.slots)
            && (skipped ==> s'.cache == s.cache && s'.slots == s.slots)
  {
    if s.tasks[t].pc.next < s.slots[s.tasks[t].pc.extra[0]].key.index {
      SkipFrame(w, s, t);
    } else {
      StoreFrame(w, s, t);
    }
  }

  function AfterTrailing(task: Task, body: Body, skipped: bool): Task
    requires task.Fetching? && task.pc.Trailing? && task.pc.extra != []
  {
    var pc := task.pc;
    if skipped then WithPc(task, Trailing(body, pc.next + 1, pc.extra))
    else if |pc.extra| == 1 then Done
    else WithPc(task, Trailing(body, pc.next + 1, pc.extra[1..]))
  }

  lemma TrailingSound(w: World, s: State, t: nat)
    requires Sound(w, s) && StreamEnabled(w, s, TakeTrailing(t))
    ensures Sound(w, TrailingStep(w, s, t))
  {
    var task := s.tasks[t];
    var pc := task.pc;
    TrailingMoves(w, s, t);
    TrailingFrame(w, s, t);
    var n := Expected(w.BlockSize(task.ctx.obj), pc.next, pc.body.meta.size);
    var skipped := pc.next < s.slots[pc.extra[0]].key.index;
    AssembleTaken(w, s, TrailingStep(w, s, t), t, !skipped, pc.extra[0], Block(pc.body.meta, pc.body.rest[..n]),
                  AfterTrailing(task, pc.body.(rest := pc.body.rest[n..]), skipped));
  }

  lemma StreamSound(w: World, s: State, a: StreamAction)
    requires Sound(w, s) && Faithful(w, s.writes) && StreamEnabled(w, s, a)
    ensures Sound(w, StreamApply(w, s, a))
  {
    match a
    case ClaimLead(t, cached) => ClaimSound(w, s, t, cached);
    case TakeLead(t) => TakeLeadSound(w, s, t);
    case FinishLead(t) => FinishLeadSound(w, s, t);
    case Hedge(t, r) => HedgeSound(w, s, t, r);
    case Serve(t) => ServeSound(w, s, t);
    case Gather(t, cached) => GatherSound(w, s, t, cached);
    case TakeTrailing(t) => TrailingSound(w, s, t);
    case _ => MovedOnSound(w, s, a);
  }

  lemma MovedOnSound(w: World, s: State, a: StreamAction)
    requires Sound(w, s) && StreamEnabled(w, s, a) && (a.FinishServe? || a.FinishGather?)
    ensures Sound(w, StreamApply(w, s, a))
  {
    TaskAt(w, s, a.t);
    Assemble(w, s, StreamApply(w, s, a), a.t);
  }

  // ---- Runs ----

  lemma StepSound(w: World, s: State, a: Action)
    requires Sound(w, s) && Owns(s) && Faithful(w, s.writes) && Enabled(w, s, a)
    ensures Sound(w, Apply(w, s, a))
  {
    match a
    case Env(x) => EnvSound(w, s, x);
    case Settle(x) => SettleSound(w, s, x);
    case Plan(x) => PlanSound(w, s, x);
    case Probe(x) => ProbeSound(w, s, x);
    case Attempt(x) => AttemptSound(w, s, x);
    case Stream(x) => StreamSound(w, s, x);
  }

  lemma EnvWrites(w: World, s: State, a: EnvAction)
    requires EnvEnabled(w, s, a)
    ensures s.writes <= EnvApply(w, s, a).writes
  {
  }

  lemma PlanWrites(w: World, s: State, a: PlanAction)
    requires PlanEnabled(w, s, a)
    ensures PlanApply(w, s, a).writes == s.writes
  {
  }

  lemma AttemptWrites(w: World, s: State, a: AttemptAction)
    requires AttemptEnabled(w, s, a)
    ensures AttemptApply(w, s, a).writes == s.writes
  {
  }

  lemma StreamWrites(w: World, s: State, a: StreamAction)
    requires StreamEnabled(w, s, a)
    ensures StreamApply(w, s, a).writes == s.writes
  {
  }

  /** The history of writes only grows. */
  lemma StepWrites(w: World, s: State, a: Action)
    requires Enabled(w, s, a)
    ensures s.writes <= Apply(w, s, a).writes
  {
    match a
    case Env(x) => EnvWrites(w, s, x);
    case Settle(x) =>
    case Plan(x) => PlanWrites(w, s, x);
    case Probe(x) =>
    case Attempt(x) => AttemptWrites(w, s, x);
    case Stream(x) => StreamWrites(w, s, x);
  }

  lemma {:induction false} RunSound(w: World, run: seq<Action>)
    requires Exec(w, run).Some? && Faithful(w, Exec(w, run).value.writes)
    ensures Sound(w, Exec(w, run).value)
  {
    if run != [] {
      var before := run[..|run| - 1];
      StepWrites(w, Exec(w, before).value, run[|run| - 1]);
      HistoryGrows(w, Exec(w, before).value.writes, Exec(w, run).value.writes);
      RunSound(w, before);
      RunOwns(w, before);
      StepSound(w, Exec(w, before).value, run[|run| - 1]);
    }
  }

  // ---- What that means ----

  /** The bytes block `k` of version `v` covers. */
  ghost predicate Exactly(b: Pos, v: Version, index: nat, data: Bytes) {
    && index * b < |v.data|
    && data == v.data[index * b..Min((index + 1) * b, |v.data|)]
  }

  /** `p` is a version written under the tag of `k`. */
  predicate Tagged(w: World, h: History, k: BlockKey, p: nat) {
    IsVersion(h, k.obj, p) && VersionTag(w, k.obj, h[p].version.value) == k.tag
  }

  lemma GoodExactly(w: World, h: History, k: BlockKey, b: Block, p: nat)
    requires Faithful(w, h) && Good(w, h, k, b) && Tagged(w, h, k, p)
    ensures b.data == BlockBytes(w.BlockSize(k.obj), h[p].version.value.data, k.index)
    ensures b.data != [] ==> Exactly(w.BlockSize(k.obj), h[p].version.value, k.index, b.data)
  {
    ContentOf(w, h, k.obj, p);
  }

  /** Cache agreement. In every reachable state each cached block belongs to some version written
      under its tag, and holds exactly that block of every version with the tag: a full block, or
      the object's last one. */
  lemma CacheAgreement(w: World, run: seq<Action>, s: State, k: BlockKey)
    requires Exec(w, run) == Some(s) && Faithful(w, s.writes) && k in s.cache
    ensures exists p: nat :: Tagged(w, s.writes, k, p)
    ensures forall p: nat :: Tagged(w, s.writes, k, p)
              ==> Exactly(w.BlockSize(k.obj), s.writes[p].version.value, k.index, s.cache[k].data)
  {
    RunSound(w, run);
    assert Good(w, s.writes, k, s.cache[k]);
    var source := ContentSource(w, s.writes, k.obj, k.tag);
    assert Tagged(w, s.writes, k, source);
    forall p: nat | Tagged(w, s.writes, k, p)
      ensures Exactly(w.BlockSize(k.obj), s.writes[p].version.value, k.index, s.cache[k].data)
    {
      GoodExactly(w, s.writes, k, s.cache[k], p);
    }
  }

  /** The block a handle has delivered, if it has delivered one. */
  function Delivered(s: State, handle: Handle): Option<Block> {
    match handle
    case Ready(block) => Some(block)
    case Pending(id) =>
      if id < |s.slots| && s.slots[id].phase.Sent? && s.slots[id].phase.result.Ok?
      then Some(s.slots[id].phase.result.value) else None
  }

  lemma HandleAt(w: World, s: State, t: nat, j: nat)
    requires TasksSound(w, s) && t < |s.tasks| && s.tasks[t].Scheduled? && j < |s.tasks[t].handles|
    ensures HandleSound(w, s.writes, s.slots, s.tasks[t].ctx.Key(s.tasks[t].lo + j), s.tasks[t].handles[j])
    ensures KnownCtx(w, s.writes, s.tasks[t].ctx)
  {
    TaskAt(w, s, t);
  }

  /** What a read is given for block `lo + j` of its context, from the cache, from its own fetch or
      from one it joined, is that block of every version with the context's tag, or empty when the
      block lies past the end. */
  lemma DeliveriesAgree(w: World, run: seq<Action>, s: State, t: nat, j: nat, p: nat)
    requires Exec(w, run) == Some(s) && Faithful(w, s.writes)
    requires t < |s.tasks| && s.tasks[t].Scheduled? && j < |s.tasks[t].handles|
    requires Delivered(s, s.tasks[t].handles[j]).Some?
    requires IsVersion(s.writes, s.tasks[t].ctx.obj, p)
    requires VersionTag(w, s.tasks[t].ctx.obj, s.writes[p].version.value) == s.tasks[t].ctx.tag
    ensures var block := Delivered(s, s.tasks[t].handles[j]).value;
            && block.data == BlockBytes(w.BlockSize(s.tasks[t].ctx.obj), s.writes[p].version.value.data,
                                        s.tasks[t].lo + j)
            && block.meta.size == |s.writes[p].version.value.data|
  {
    RunDelivers(w, run, s, t, j);
    ContentOf(w, s.writes, s.tasks[t].ctx.obj, p);
  }

  lemma RunDelivers(w: World, run: seq<Action>, s: State, t: nat, j: nat)
    requires Exec(w, run) == Some(s) && Faithful(w, s.writes)
    requires t < |s.tasks| && s.tasks[t].Scheduled? && j < |s.tasks[t].handles|
             && Delivered(s, s.tasks[t].handles[j]).Some?
    ensures Good(w, s.writes, s.tasks[t].ctx.Key(s.tasks[t].lo + j), Delivered(s, s.tasks[t].handles[j]).value)
  {
    RunSound(w, run);
    DeliveredGood(w, s, t, j);
  }

  lemma DeliveredGood(w: World, s: State, t: nat, j: nat)
    requires TasksSound(w, s) && SlotsSound(w, s) && t < |s.tasks| && s.tasks[t].Scheduled? && j < |s.tasks[t].handles|
    requires Delivered(s, s.tasks[t].handles[j]).Some?
    ensures Good(w, s.writes, s.tasks[t].ctx.Key(s.tasks[t].lo + j), Delivered(s, s.tasks[t].handles[j]).value)
  {
    HandleAt(w, s, t, j);
    var handle := s.tasks[t].handles[j];
    assert handle.Pending? ==> SlotSound(w, s.writes, s.slots[handle.id]);
  }

  /** Agreement as a property of one state, for a history that may not be faithful. */
  ghost predicate Agrees(w: World, s: State) {
    forall k, p: nat :: k in s.cache && Tagged(w, s.writes, k, p)
      ==> s.cache[k].data == BlockBytes(w.BlockSize(k.obj), s.writes[p].version.value.data, k.index)
  }

  /** Different byte strings differ in a block of one of them. */
  lemma DifferInABlock(b: Pos, x: Bytes, y: Bytes) returns (i: nat)
    requires x != y
    ensures BlockBytes(b, x, i) != BlockBytes(b, y, i)
    ensures i < Count(b, |x|) || i < Count(b, |y|)
  {
    var q: nat;
    if |x| != |y| {
      q := Min(|x|, |y|);
    } else {
      q :| 0 <= q < |x| && x[q] != y[q];
    }
    i := Index(b, q);
    IndexBounds(b, q);
    CountBounds(b, |x|, i);
    CountBounds(b, |y|, i);
    assert (i + 1) * b == i * b + b;
    if |x| == |y| {
      assert BlockBytes(b, x, i)[q - i * b] == x[q];
      assert BlockBytes(b, y, i)[q - i * b] == y[q];
    }
  }

  /** Faithfulness is exactly what agreement needs: from any state whose history has two versions
      with one tag and different bytes, inserting a block of one of them breaks agreement. */
  lemma UnfaithfulDisagrees(w: World, run: seq<Action>, s: State) returns (a: Action)
    requires Exec(w, run) == Some(s) && !Faithful(w, s.writes)
    ensures Enabled(w, s, a) && Apply(w, s, a).writes == s.writes && !Agrees(w, Apply(w, s, a))
  {
    var i, j :| 0 <= i < |s.writes| && 0 <= j < |s.writes| && SameTag(w, s.writes, i, j)
                && s.writes[i].version.value.data != s.writes[j].version.value.data;
    var o := s.writes[i].obj;
    var x, y := s.writes[i].version.value, s.writes[j].version.value;
    var index := DifferInABlock(w.BlockSize(o), x.data, y.data);
    var from := if index < Count(w.BlockSize(o), |x.data|) then i else j;
    a := Env(InsertBlock(o, from, index));
    var s' := Apply(w, s, a);
    var k := BlockKey(o, VersionTag(w, o, x), index);
    assert k in s'.cache;
    assert Tagged(w, s'.writes, k, i) && Tagged(w, s'.writes, k, j);
  }

  /** The same in one statement: a history is faithful exactly when no run that has it, and no run
      one step longer, leaves a cached block that disagrees with a version of its tag. */
  lemma AgreementExactly(w: World, run: seq<Action>, s: State)
    requires Exec(w, run) == Some(s)
    ensures Faithful(w, s.writes) <==>
              (forall a :: Enabled(w, s, a) && Apply(w, s, a).writes == s.writes ==> Agrees(w, Apply(w, s, a)))
  {
    if Faithful(w, s.writes) {
      forall a | Enabled(w, s, a) && Apply(w, s, a).writes == s.writes ensures Agrees(w, Apply(w, s, a)) {
        RunSound(w, run + [a]);
        assert (run + [a])[..|run|] == run;
        SoundAgrees(w, Apply(w, s, a));
      }
    } else {
      var a := UnfaithfulDisagrees(w, run, s);
    }
  }

  lemma SoundAgrees(w: World, s: State)
    requires Sound(w, s) && Faithful(w, s.writes)
    ensures Agrees(w, s)
  {
    forall k, p: nat | k in s.cache && Tagged(w, s.writes, k, p)
      ensures s.cache[k].data == BlockBytes(w.BlockSize(k.obj), s.writes[p].version.value.data, k.index)
    {
      GoodExactly(w, s.writes, k, s.cache[k], p);
    }
  }
}
