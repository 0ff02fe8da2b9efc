/** The fetch engine as a transition system (nestor/src/fetch.rs, nestor/src/inflight.rs,
    nestor/src/meta.rs and the cache operations of nestor/src/nestor.rs).

    Every await and every lock is an interleaving point: a run is any sequence of actions, each of
    which is one atomic step of one task, of a slot being settled, of the origin, of the cache
    losing an entry, or of the clock. Timeouts, `select!` and cancellation are actions that may be
    taken whenever the source could take them. Where a step here is available more often than in
    the source (a settled slot may be published later, a claim may go on to register although the
    block is cached by now), the theorems cover those extra runs too. */
module Engine {
  import opened Common
  import opened Blocks
  import opened Origin
  import opened Errors

  datatype ReadCtx = ReadCtx(obj: ObjectKey, tag: nat, ifMatch: Option<Bytes>, meta: Option<ObjectMeta>,
                             attempts: nat) {
    function Key(index: nat): BlockKey { BlockKey(obj, tag, index) }
  }

  function NewCtx(w: World, o: ObjectKey, meta: Option<ObjectMeta>, attempts: nat): ReadCtx {
    if meta.None? then ReadCtx(o, IMMUTABLE_TAG, None, None, attempts)
    else ReadCtx(o, BlockTag(w, o, meta.value), if w.Config(o).immutable then None else meta.value.etag, meta, attempts)
  }

  // ---- Slots ----

  /** A slot is a linear token. While `Live` exactly one task holds it; `settle` takes it through
      `Resolving` (flag set), `Removed` (entry out of the table) and `Sent` (waiters see it). */
  datatype Phase =
    | Live(holder: nat)
    | Resolving(result: BlockResult)
    | Removed(result: BlockResult)
    | Sent(result: BlockResult)

  datatype Slot = Slot(key: BlockKey, phase: Phase)

  /** What a reader gets for one block: a cached block, or the slot it waits on. */
  datatype Handle = Ready(block: Block) | Pending(id: nat)

  // ---- Tasks ----

  datatype Stage =
    | Looking(looked: map<nat, Option<Block>>)
    | Registering(looked: map<nat, Option<Block>>, handles: seq<Handle>, owners: seq<nat>)
    | Rechecking(handles: seq<Handle>, owners: seq<nat>, landed: map<nat, Option<Block>>)
    | Spawning(handles: seq<Handle>, owners: seq<nat>)

  datatype Body = Body(rest: Bytes, meta: ObjectMeta, end: nat)

  datatype Claim = Unclaimed | Skipped | Claimed(id: nat)

  datatype Pc =
    | Top(initial: Option<Response>)
    | Asked
    | Answered(response: Response)
    | Failing(error: OriginError)
    | Leading(body: Body, next: nat, claim: Claim)
    | Serving(body: Body, next: nat)
    | Gathering(body: Body, next: nat, cursor: nat, extra: seq<nat>)
    | Trailing(body: Body, next: nat, extra: seq<nat>)

  datatype Task =
    | Done
    | Scheduling(ctx: ReadCtx, lo: nat, hi: nat, stage: Stage)
    | Scheduled(ctx: ReadCtx, lo: nat, handles: seq<Handle>)
    | Probing(obj: ObjectKey, lo: nat, hi: nat, stale: Option<ObjectMeta>, attempts: nat)
    | Adopting(ctx: ReadCtx, lo: nat, cursor: nat, end: nat, held: seq<nat>, response: Response)
    | Fetching(ctx: ReadCtx, scheduled: bool, held: seq<nat>, meta: Option<ObjectMeta>, attempt: nat, pc: Pc)

  function Ids(ids: seq<nat>): set<nat> { set id | id in ids }

  /** The slots a task would drop if it were dropped now. */
  function Held(task: Task): set<nat> {
    match task
    case Scheduling(_, _, _, stage) => (if stage.Looking? then {} else Ids(stage.owners))
    case Adopting(_, _, _, _, held, _) => Ids(held)
    case Fetching(_, _, held, _, _, pc) =>
      (match pc
       case Leading(_, _, claim) => Ids(held) + (if claim.Claimed? then {claim.id} else {})
       case Gathering(_, _, _, extra) => Ids(held) + Ids(extra)
       case Trailing(_, _, extra) => Ids(held) + Ids(extra)
       case _ => Ids(held))
    case _ => {}
  }

  // ---- State ----

  /** `from` and `answered` record the answer the entry came from; no step reads them. */
  datatype MetaEntry = MetaEntry(meta: ObjectMeta, at: nat, from: nat, answered: nat)

  /** History variable: origin requests made by scheduled groups and blocks that were fetched. */
  datatype Event = Requested(key: BlockKey) | Fetched(key: BlockKey)

  datatype State = State(
    now: nat,
    writes: History,
    cache: map<BlockKey, Block>,
    meta: map<ObjectKey, MetaEntry>,
    table: map<BlockKey, nat>,
    slots: seq<Slot>,
    tasks: seq<Task>,
    log: seq<Event>)

  function Start(): State { State(0, [], map[], map[], map[], [], [], []) }

  function SetTask(s: State, t: nat, task: Task): State
    requires t < |s.tasks|
  {
    s.(tasks := s.tasks[t := task])
  }

  function WithStage(task: Task, stage: Stage): Task
    requires task.Scheduling?
  {
    Scheduling(task.ctx, task.lo, task.hi, stage)
  }

  function WithPc(task: Task, pc: Pc): Task
    requires task.Fetching?
  {
    Fetching(task.ctx, task.scheduled, task.held, task.meta, task.attempt, pc)
  }

  function AddTask(s: State, task: Task): State { s.(tasks := s.tasks + [task]) }

  /** `resolve`: the flag is set, the table entry and the channel follow in later steps. */
  function Mark(slots: seq<Slot>, results: map<nat, BlockResult>): (r: seq<Slot>)
    ensures |r| == |slots|
    ensures forall i :: 0 <= i < |slots| ==> r[i].key == slots[i].key
  {
    seq(|slots|, i requires 0 <= i < |slots| =>
      if i in results then slots[i].(phase := Resolving(results[i])) else slots[i])
  }

  function AllOf(ids: set<nat>, result: BlockResult): map<nat, BlockResult> { map id | id in ids :: result }

  /** Hands slots from their task to the task about to be spawned. */
  function HandOver(slots: seq<Slot>, ids: set<nat>, holder: nat): (r: seq<Slot>)
    ensures |r| == |slots|
    ensures forall i :: 0 <= i < |slots| ==> r[i].key == slots[i].key
  {
    seq(|slots|, i requires 0 <= i < |slots| =>
      if i in ids then slots[i].(phase := Live(holder)) else slots[i])
  }

  function Register(s: State, t: nat, key: BlockKey): State {
    if key in s.table then s
    else s.(table := s.table[key := |s.slots|], slots := s.slots + [Slot(key, Live(t))])
  }

  /** The slot a registration yields, and whether the caller owns it. */
  function Registered(s: State, key: BlockKey): (nat, bool) {
    if key in s.table then (s.table[key], false) else (|s.slots|, true)
  }

  function PutMeta(s: State, o: ObjectKey, meta: ObjectMeta, from: nat, answered: nat): State {
    s.(meta := s.meta[o := MetaEntry(meta, s.now, from, answered)])
  }

  predicate InSlots(slots: seq<Slot>, ids: seq<nat>) { forall j :: 0 <= j < |ids| ==> ids[j] < |slots| }

  function Indexes(slots: seq<Slot>, ids: seq<nat>): (r: seq<nat>)
    requires InSlots(slots, ids)
    ensures |r| == |ids|
  {
    seq(|ids|, j requires 0 <= j < |ids| => slots[ids[j]].key.index)
  }

  /** The range the next attempt asks for: from the first unfinished slot to the last. */
  function Wanted(w: World, s: State, task: Task): Range
    requires task.Fetching? && task.held != [] && task.held[0] < |s.slots|
  {
    Span(w.BlockSize(task.ctx.obj), s.slots[task.held[0]].key.index, |task.held|,
         if task.meta.Some? then Some(task.meta.value.size) else None)
  }

  predicate Nothing(r: Range) { r.start >= r.end }

  // ---- Actions ----

  datatype Action = Env(env: EnvAction) | Settle(settle: SettleAction) | Plan(plan: PlanAction)
                  | Probe(probe: ProbeAction) | Attempt(attempt: AttemptAction) | Stream(stream: StreamAction)

  /** The origin, the clock, the cache losing entries and whole-object inserts. */
  datatype EnvAction =
    | Tick(nanos: nat)
    | Publish(obj: ObjectKey, version: Option<Version>)
    | Evict(key: BlockKey)
    | DropMeta(obj: ObjectKey)
    | InsertBlock(obj: ObjectKey, from: nat, index: nat)
    | RecordMeta(obj: ObjectKey, from: nat, answered: nat)
    | CachedMeta(obj: ObjectKey, index: nat)

  /** Settled slots being published, and tasks being dropped. */
  datatype SettleAction =
    | RemoveEntry(id: nat)
    | SendResult(id: nat)
    | DropTask(t: nat)

  /** `schedule`: look up, register, look again, spawn one fetch per group. */
  datatype PlanAction =
    | StartSchedule(ctx: ReadCtx, lo: nat, hi: nat)
    | Lookup(t: nat, index: nat)
    | FinishLookups(t: nat)
    | RegisterNext(t: nat)
    | FinishRegister(t: nat)
    | Recheck(t: nat, id: nat)
    | FinishRecheck(t: nat)
    | SpawnGroup(t: nat)
    | FinishSchedule(t: nat)

  /** `probe` and `adopt`: the first GET of a read that knows nothing. */
  datatype ProbeAction =
    | StartProbe(obj: ObjectKey, lo: nat, hi: nat, attempts: nat)
    | ProbeAnswer(t: nat, response: Response)
    | ProbeUnchanged(t: nat, from: nat, answered: nat)
    | AdoptNext(t: nat)
    | FinishAdopt(t: nat)

  /** `fetch_group` up to and including `accept`. */
  datatype AttemptAction =
    | ServeNothing(t: nat)
    | UseInitial(t: nat)
    | Ask(t: nat)
    | Answer(t: nat, response: Response)
    | Refuse(t: nat, error: OriginError)
    | PastEnd(t: nat, from: nat, answered: nat)
    | Fail(t: nat, error: OriginError, expired: bool)
    | Accept(t: nat)

  /** `consume` and `fill_trailing`, with hedges handing over. */
  datatype StreamAction =
    | ClaimLead(t: nat, cached: bool)
    | TakeLead(t: nat)
    | FinishLead(t: nat)
    | Hedge(t: nat, response: Response)
    | Serve(t: nat)
    | FinishServe(t: nat)
    | Gather(t: nat, cached: bool)
    | FinishGather(t: nat)
    | TakeTrailing(t: nat)

  /** Contexts a read can hold: metadata some write produced, or none at all in immutable mode. */
  ghost predicate KnownMeta(w: World, h: History, o: ObjectKey, m: ObjectMeta) {
    Content(w, h, o, BlockTag(w, o, m)).Some? && |Content(w, h, o, BlockTag(w, o, m)).value| == m.size
  }

  ghost predicate KnownCtx(w: World, h: History, ctx: ReadCtx) {
    && ctx == NewCtx(w, ctx.obj, ctx.meta, ctx.attempts)
    && (ctx.meta.None? ==> w.Config(ctx.obj).immutable)
    && (ctx.meta.Some? ==> KnownMeta(w, h, ctx.obj, ctx.meta.value))
  }

  predicate Running(s: State, t: nat) { t < |s.tasks| && s.tasks[t].Fetching? && InSlots(s.slots, s.tasks[t].held) }

  predicate AtPc(s: State, t: nat, front: bool) {
    Running(s, t) && (front ==> s.tasks[t].held != [])
  }

  /** First index of the requested run, capped at the object's block count. */
  function LeadEnd(w: World, s: State, task: Task, body: Body): nat
    requires task.Fetching? && task.held != [] && task.held[0] < |s.slots|
  {
    Min(s.slots[task.held[0]].key.index, Count(w.BlockSize(task.ctx.obj), body.meta.size))
  }

  /** Whether block `index` lies wholly inside the response. */
  predicate Whole(b: Pos, body: Body, index: nat) {
    index < Count(b, body.end) && BlockRange(b, index, Some(body.meta.size)).end <= body.end
  }

  /** The block the body owes next, for the phases in which a backup may take over. */
  function Owed(s: State, t: nat): Option<nat>
    requires Running(s, t)
  {
    var task := s.tasks[t];
    if task.pc.Leading? then Some(task.pc.next)
    else if task.pc.Serving? && task.held != [] then Some(s.slots[task.held[0]].key.index)
    else None
  }

  /** `HedgedBody::adopt`: same version, aligned, and not past the owed block. */
  predicate Adoptable(w: World, ctx: ReadCtx, r: Response, start: nat) {
    && (ctx.tag == IMMUTABLE_TAG || ContentTag(w, r.meta.etag, r.meta.size) == ctx.tag)
    && r.start % w.BlockSize(ctx.obj) == 0
    && r.start <= start
  }

  ghost predicate EnvEnabled(w: World, s: State, a: EnvAction) {
    match a
    case Tick(_) => true
    case Publish(_, _) => true
    case Evict(_) => true
    case DropMeta(_) => true
    case InsertBlock(o, p, i) =>
      IsVersion(s.writes, o, p) && i < Count(w.BlockSize(o), |s.writes[p].version.value.data|)
    case RecordMeta(o, p, answered) => answered <= s.now && Current(s.writes, o, p, answered)
    case CachedMeta(o, i) => w.Config(o).immutable && BlockKey(o, IMMUTABLE_TAG, i) in s.cache
  }

  ghost predicate SettleEnabled(w: World, s: State, a: SettleAction) {
    match a
    case RemoveEntry(id) => id < |s.slots| && s.slots[id].phase.Resolving?
    case SendResult(id) => id < |s.slots| && s.slots[id].phase.Removed?
    case DropTask(t) => t < |s.tasks| && !s.tasks[t].Scheduled?
  }

  ghost predicate PlanEnabled(w: World, s: State, a: PlanAction) {
    match a
    case StartSchedule(ctx, lo, hi) => lo <= hi && KnownCtx(w, s.writes, ctx)
    case Lookup(t, i) =>
      && t < |s.tasks| && s.tasks[t].Scheduling? && s.tasks[t].stage.Looking?
      && s.tasks[t].lo <= i < s.tasks[t].hi && i !in s.tasks[t].stage.looked
    case FinishLookups(t) =>
      && t < |s.tasks| && s.tasks[t].Scheduling? && s.tasks[t].stage.Looking?
      && (forall i :: s.tasks[t].lo <= i < s.tasks[t].hi ==> i in s.tasks[t].stage.looked)
    case RegisterNext(t) =>
      && t < |s.tasks| && s.tasks[t].Scheduling? && s.tasks[t].stage.Registering?
      && s.tasks[t].lo + |s.tasks[t].stage.handles| < s.tasks[t].hi
      && s.tasks[t].lo + |s.tasks[t].stage.handles| in s.tasks[t].stage.looked
    case FinishRegister(t) =>
      && t < |s.tasks| && s.tasks[t].Scheduling? && s.tasks[t].stage.Registering?
      && s.tasks[t].lo + |s.tasks[t].stage.handles| == s.tasks[t].hi
    case Recheck(t, id) =>
      && t < |s.tasks| && s.tasks[t].Scheduling? && s.tasks[t].stage.Rechecking?
      && id in s.tasks[t].stage.owners && id !in s.tasks[t].stage.landed && id < |s.slots|
    case FinishRecheck(t) =>
      && t < |s.tasks| && s.tasks[t].Scheduling? && s.tasks[t].stage.Rechecking?
      && (forall id :: id in s.tasks[t].stage.owners ==> id in s.tasks[t].stage.landed)
    case SpawnGroup(t) =>
      && t < |s.tasks| && s.tasks[t].Scheduling? && s.tasks[t].stage.Spawning? && s.tasks[t].stage.owners != []
      && InSlots(s.slots, s.tasks[t].stage.owners)
    case FinishSchedule(t) =>
      && t < |s.tasks| && s.tasks[t].Scheduling? && s.tasks[t].stage.Spawning? && s.tasks[t].stage.owners == []
  }

  ghost predicate ProbeEnabled(w: World, s: State, a: ProbeAction) {
    match a
    case StartProbe(o, lo, hi, _) => lo <= hi
    case ProbeAnswer(t, r) =>
      && t < |s.tasks| && s.tasks[t].Probing?
      && r.answered <= s.now && Honest(s.writes, s.tasks[t].obj, r)
    case ProbeUnchanged(t, p, answered) =>
      && t < |s.tasks| && s.tasks[t].Probing? && s.tasks[t].stale.Some? && s.tasks[t].stale.value.etag.Some?
      && answered <= s.now && Current(s.writes, s.tasks[t].obj, p, answered)
      && s.writes[p].version.value.etag == s.tasks[t].stale.value.etag
    case AdoptNext(t) => t < |s.tasks| && s.tasks[t].Adopting? && s.tasks[t].cursor < s.tasks[t].end
    case FinishAdopt(t) => t < |s.tasks| && s.tasks[t].Adopting? && s.tasks[t].cursor >= s.tasks[t].end
  }

  ghost predicate AttemptEnabled(w: World, s: State, a: AttemptAction) {
    match a
    case ServeNothing(t) =>
      AtPc(s, t, true) && s.tasks[t].pc.Top? && s.tasks[t].meta.Some? && Nothing(Wanted(w, s, s.tasks[t]))
    case UseInitial(t) =>
      && AtPc(s, t, true) && s.tasks[t].pc.Top? && s.tasks[t].pc.initial.Some?
      && !(s.tasks[t].meta.Some? && Nothing(Wanted(w, s, s.tasks[t])))
    case Ask(t) =>
      && AtPc(s, t, true) && s.tasks[t].pc.Top? && s.tasks[t].pc.initial.None?
      && !(s.tasks[t].meta.Some? && Nothing(Wanted(w, s, s.tasks[t])))
    case Answer(t, r) =>
      && AtPc(s, t, true) && s.tasks[t].pc.Asked?
      && r.answered <= s.now && Honest(s.writes, s.tasks[t].ctx.obj, r)
    case Refuse(t, e) => AtPc(s, t, true) && s.tasks[t].pc.Asked? && (e.Missing? || e.PreconditionFailed?)
    case PastEnd(t, p, answered) =>
      && AtPc(s, t, true) && s.tasks[t].pc.Asked? && s.tasks[t].meta.None?
      && answered <= s.now && Current(s.writes, s.tasks[t].ctx.obj, p, answered)
      && Wanted(w, s, s.tasks[t]).start >= |s.writes[p].version.value.data|
    case Fail(t, e, _) =>
      && Running(s, t)
      && (match s.tasks[t].pc
          case Asked => !e.Missing? && !e.PreconditionFailed?
          case Failing(error) => e == error
          case Leading(_, _, _) => true
          case Serving(_, _) => true
          case _ => false)
    case Accept(t) => AtPc(s, t, true) && s.tasks[t].pc.Answered?
  }

  ghost predicate StreamEnabled(w: World, s: State, a: StreamAction) {
    match a
    case ClaimLead(t, cached) =>
      && AtPc(s, t, true) && s.tasks[t].pc.Leading? && s.tasks[t].pc.claim.Unclaimed?
      && s.tasks[t].pc.next < LeadEnd(w, s, s.tasks[t], s.tasks[t].pc.body)
      && (cached ==> s.tasks[t].ctx.Key(s.tasks[t].pc.next) in s.cache)
    case TakeLead(t) =>
      && AtPc(s, t, true) && s.tasks[t].pc.Leading? && !s.tasks[t].pc.claim.Unclaimed?
      && s.tasks[t].pc.next < LeadEnd(w, s, s.tasks[t], s.tasks[t].pc.body)
      && |s.tasks[t].pc.body.rest| >= Expected(w.BlockSize(s.tasks[t].ctx.obj), s.tasks[t].pc.next,
                                               s.tasks[t].pc.body.meta.size)
      && (s.tasks[t].pc.claim.Claimed? ==> s.tasks[t].pc.claim.id < |s.slots|)
    case FinishLead(t) =>
      && AtPc(s, t, true) && s.tasks[t].pc.Leading? && s.tasks[t].pc.claim.Unclaimed?
      && s.tasks[t].pc.next >= LeadEnd(w, s, s.tasks[t], s.tasks[t].pc.body)
    case Hedge(t, r) =>
      && Running(s, t) && Owed(s, t).Some?
      && r.answered <= s.now && Honest(s.writes, s.tasks[t].ctx.obj, r)
      && Adoptable(w, s.tasks[t].ctx, r, Offset(w.BlockSize(s.tasks[t].ctx.obj), Owed(s, t).value))
    case Serve(t) =>
      && AtPc(s, t, true) && s.tasks[t].pc.Serving?
      && |s.tasks[t].pc.body.rest| >= Expected(w.BlockSize(s.tasks[t].ctx.obj), s.slots[s.tasks[t].held[0]].key.index,
                                               s.tasks[t].pc.body.meta.size)
    case FinishServe(t) => Running(s, t) && s.tasks[t].pc.Serving? && s.tasks[t].held == []
    case Gather(t, cached) =>
      && Running(s, t) && s.tasks[t].pc.Gathering?
      && Whole(w.BlockSize(s.tasks[t].ctx.obj), s.tasks[t].pc.body, s.tasks[t].pc.cursor)
      && (cached ==> s.tasks[t].ctx.Key(s.tasks[t].pc.cursor) in s.cache)
    case FinishGather(t) =>
      && Running(s, t) && s.tasks[t].pc.Gathering?
      && !Whole(w.BlockSize(s.tasks[t].ctx.obj), s.tasks[t].pc.body, s.tasks[t].pc.cursor)
    case TakeTrailing(t) =>
      && Running(s, t) && s.tasks[t].pc.Trailing? && s.tasks[t].pc.extra != [] && s.tasks[t].pc.extra[0] < |s.slots|
      && |s.tasks[t].pc.body.rest| >= Expected(w.BlockSize(s.tasks[t].ctx.obj), s.tasks[t].pc.next,
                                               s.tasks[t].pc.body.meta.size)
  }

  ghost predicate Enabled(w: World, s: State, a: Action) {
    match a
    case Env(x) => EnvEnabled(w, s, x)
    case Settle(x) => SettleEnabled(w, s, x)
    case Plan(x) => PlanEnabled(w, s, x)
    case Probe(x) => ProbeEnabled(w, s, x)
    case Attempt(x) => AttemptEnabled(w, s, x)
    case Stream(x) => StreamEnabled(w, s, x)
  }

  // ---- Effects ----

  function LookupStep(s: State, t: nat, i: nat): State
    requires t < |s.tasks| && s.tasks[t].Scheduling? && s.tasks[t].stage.Looking?
  {
    var task := s.tasks[t];
    var key := task.ctx.Key(i);
    var found := if key in s.cache then Some(s.cache[key]) else None;
    SetTask(s, t, WithStage(task, Looking(task.stage.looked[i := found])))
  }

  /** The registering stage after the next block missed. */
  function AfterMiss(s: State, key: BlockKey, st: Stage): Stage
    requires st.Registering?
  {
    var (id, owner) := Registered(s, key);
    Registering(st.looked, st.handles + [Pending(id)], if owner then st.owners + [id] else st.owners)
  }

  function HitStep(s: State, t: nat, block: Block): State
    requires t < |s.tasks| && s.tasks[t].Scheduling? && s.tasks[t].stage.Registering?
  {
    var st := s.tasks[t].stage;
    SetTask(s, t, WithStage(s.tasks[t], Registering(st.looked, st.handles + [Ready(block)], st.owners)))
  }

  function MissStep(s: State, t: nat, key: BlockKey): State
    requires t < |s.tasks| && s.tasks[t].Scheduling? && s.tasks[t].stage.Registering?
  {
    SetTask(Register(s, t, key), t, WithStage(s.tasks[t], AfterMiss(s, key, s.tasks[t].stage)))
  }

  function RegisterStep(s: State, t: nat): State
    requires t < |s.tasks| && s.tasks[t].Scheduling? && s.tasks[t].stage.Registering?
    requires s.tasks[t].lo + |s.tasks[t].stage.handles| in s.tasks[t].stage.looked
  {
    var i := s.tasks[t].lo + |s.tasks[t].stage.handles|;
    match s.tasks[t].stage.looked[i]
    case Some(block) => HitStep(s, t, block)
    case None => MissStep(s, t, s.tasks[t].ctx.Key(i))
  }

  function RecheckStep(s: State, t: nat, id: nat): State
    requires t < |s.tasks| && s.tasks[t].Scheduling? && s.tasks[t].stage.Rechecking? && id < |s.slots|
  {
    var task := s.tasks[t];
    var key := s.slots[id].key;
    var found := if key in s.cache then Some(s.cache[key]) else None;
    SetTask(s, t, WithStage(task, Rechecking(task.stage.handles, task.stage.owners, task.stage.landed[id := found])))
  }

  function Missed(ids: seq<nat>, landed: map<nat, Option<Block>>): (r: seq<nat>)
    ensures forall id :: id in r <==> id in ids && !(id in landed && landed[id].Some?)
  {
    if ids == [] then []
    else
      var n := |ids| - 1;
      Missed(ids[..n], landed) + (if ids[n] in landed && landed[ids[n]].Some? then [] else [ids[n]])
  }

  function LandedResults(ids: seq<nat>, landed: map<nat, Option<Block>>): map<nat, BlockResult> {
    map id | id in ids && id in landed && landed[id].Some? :: Ok(landed[id].value)
  }

  function FinishRecheckStep(s: State, t: nat): State
    requires t < |s.tasks| && s.tasks[t].Scheduling? && s.tasks[t].stage.Rechecking?
  {
    var task := s.tasks[t];
    var st := task.stage;
    SetTask(s.(slots := Mark(s.slots, LandedResults(st.owners, st.landed))), t,
            WithStage(task, Spawning(st.handles, Missed(st.owners, st.landed))))
  }

  /** Moves `ids` from task `t`, which continues as `left`, to a new task `fetch`. */
  function Spawn(s: State, t: nat, ids: seq<nat>, left: Task, fetch: Task): State
    requires t < |s.tasks|
  {
    AddTask(SetTask(s.(slots := HandOver(s.slots, Ids(ids), |s.tasks|)), t, left), fetch)
  }

  function SpawnStep(w: World, s: State, t: nat): State
    requires t < |s.tasks| && s.tasks[t].Scheduling? && s.tasks[t].stage.Spawning?
    requires InSlots(s.slots, s.tasks[t].stage.owners)
  {
    var task := s.tasks[t];
    var owners := task.stage.owners;
    var n := RunLength(Indexes(s.slots, owners), Max(w.Config(task.ctx.obj).fetchWindow, 1));
    Spawn(s, t, owners[..n],
          WithStage(task, Spawning(task.stage.handles, owners[n..])),
          Fetching(task.ctx, true, owners[..n], task.ctx.meta, 0, Top(None)))
  }

  function AdoptStep(s: State, t: nat): State
    requires t < |s.tasks| && s.tasks[t].Adopting?
  {
    var task := s.tasks[t];
    var key := task.ctx.Key(task.cursor);
    var (id, owner) := Registered(s, key);
    if owner
    then SetTask(Register(s, t, key), t,
                 Adopting(task.ctx, task.lo, task.cursor + 1, task.end, task.held + [id], task.response))
    else SetTask(s, t, Adopting(task.ctx, task.lo, task.cursor, task.cursor, task.held, task.response))
  }

  function PendingAll(ids: seq<nat>): (r: seq<Handle>)
    ensures |r| == |ids|
  {
    seq(|ids|, j requires 0 <= j < |ids| => Pending(ids[j]))
  }

  function FinishAdoptStep(s: State, t: nat): State
    requires t < |s.tasks| && s.tasks[t].Adopting?
  {
    var task := s.tasks[t];
    var handed := Scheduled(task.ctx, task.lo, PendingAll(task.held));
    if task.held == [] then SetTask(s, t, handed)
    else Spawn(s, t, task.held, handed,
               Fetching(task.ctx, false, task.held, task.ctx.meta, 0, Top(Some(task.response))))
  }

  /** Settles every slot of the task and ends it. */
  function SettleAll(s: State, t: nat, results: map<nat, BlockResult>): State
    requires t < |s.tasks|
  {
    SetTask(s.(slots := Mark(s.slots, results)), t, Done)
  }

  function Keys(slots: seq<Slot>, ids: seq<nat>): (r: seq<Event>)
    requires InSlots(slots, ids)
    ensures |r| == |ids|
  {
    seq(|ids|, j requires 0 <= j < |ids| => Requested(slots[ids[j]].key))
  }

  function AskStep(s: State, t: nat): State
    requires Running(s, t)
  {
    var task := s.tasks[t];
    var log := if task.scheduled then s.log + Keys(s.slots, task.held) else s.log;
    SetTask(s.(log := log), t, WithPc(task, Asked))
  }

  function FailStep(s: State, t: nat, e: OriginError, expired: bool): State
    requires Running(s, t)
  {
    var task := s.tasks[t];
    var claimed := if task.pc.Leading? && task.pc.claim.Claimed? then {task.pc.claim.id} else {};
    var dropped := AllOf(claimed, Err(Cancelled));
    if e.Retryable() && task.attempt + 1 < task.ctx.attempts && !expired
    then SetTask(s.(slots := Mark(s.slots, dropped)), t,
                 Fetching(task.ctx, task.scheduled, task.held, task.meta, task.attempt + 1, Top(None)))
    else
      var cause := if e.Retryable() && task.attempt + 1 < task.ctx.attempts then Timeout else e;
      SettleAll(s, t, AllOf(Ids(task.held), Err(ToNestor(cause))) + dropped)
  }

  function AcceptStep(w: World, s: State, t: nat): State
    requires AtPc(s, t, true) && s.tasks[t].pc.Answered?
  {
    var task := s.tasks[t];
    var r := task.pc.response;
    var b := w.BlockSize(task.ctx.obj);
    var put := PutMeta(s, task.ctx.obj, r.meta, r.from, r.answered);
    if task.ctx.tag != IMMUTABLE_TAG && ContentTag(w, r.meta.etag, r.meta.size) != task.ctx.tag then
      SettleAll(put, t, AllOf(Ids(task.held), Err(Stale)))
    else if r.start > Wanted(w, s, task).start || r.start % b != 0 then
      SetTask(put, t, Fetching(task.ctx, task.scheduled, task.held, Some(r.meta), task.attempt, Failing(ShortRead)))
    else
      var body := Body(r.content, r.meta, Min(r.end, r.meta.size));
      SetTask(put, t, Fetching(task.ctx, task.scheduled, task.held, Some(r.meta), task.attempt,
                               Leading(body, Index(b, r.start), Unclaimed)))
  }

  function ClaimStep(s: State, t: nat, cached: bool): State
    requires Running(s, t) && s.tasks[t].pc.Leading?
  {
    var task := s.tasks[t];
    var key := task.ctx.Key(task.pc.next);
    var (id, owner) := Registered(s, key);
    if cached || !owner then SetTask(s, t, WithPc(task, Leading(task.pc.body, task.pc.next, Skipped)))
    else SetTask(Register(s, t, key), t, WithPc(task, Leading(task.pc.body, task.pc.next, Claimed(id))))
  }

  /** `blocks.insert` then `resolve`, in that order. */
  function Store(s: State, id: nat, block: Block): State
    requires id < |s.slots|
  {
    var key := s.slots[id].key;
    s.(cache := s.cache[key := block], slots := Mark(s.slots, map[id := Ok(block)]), log := s.log + [Fetched(key)])
  }

  function TakeLeadStep(w: World, s: State, t: nat): State
    requires Running(s, t) && s.tasks[t].pc.Leading?
    requires |s.tasks[t].pc.body.rest| >= Expected(w.BlockSize(s.tasks[t].ctx.obj), s.tasks[t].pc.next,
                                                   s.tasks[t].pc.body.meta.size)
    requires s.tasks[t].pc.claim.Claimed? ==> s.tasks[t].pc.claim.id < |s.slots|
  {
    var task := s.tasks[t];
    var body := task.pc.body;
    var n := Expected(w.BlockSize(task.ctx.obj), task.pc.next, body.meta.size);
    var moved := WithPc(task, Leading(body.(rest := body.rest[n..]), task.pc.next + 1, Unclaimed));
    if task.pc.claim.Claimed?
    then SetTask(Store(s, task.pc.claim.id, Block(body.meta, body.rest[..n])), t, moved)
    else SetTask(s, t, moved)
  }

  function HedgeStep(w: World, s: State, t: nat, r: Response): State
    requires Running(s, t) && Owed(s, t).Some?
    requires r.start <= Offset(w.BlockSize(s.tasks[t].ctx.obj), Owed(s, t).value)
  {
    var task := s.tasks[t];
    var skip := Offset(w.BlockSize(task.ctx.obj), Owed(s, t).value) - r.start;
    var rest := if skip <= |r.content| then r.content[skip..] else [];
    var body := task.pc.body.(rest := rest);
    SetTask(s, t, WithPc(task, if task.pc.Leading? then Leading(body, task.pc.next, task.pc.claim)
                               else Serving(body, task.pc.next)))
  }

  function ServeStep(w: World, s: State, t: nat): State
    requires AtPc(s, t, true) && s.tasks[t].pc.Serving?
    requires |s.tasks[t].pc.body.rest| >= Expected(w.BlockSize(s.tasks[t].ctx.obj),
                                                   s.slots[s.tasks[t].held[0]].key.index, s.tasks[t].pc.body.meta.size)
  {
    var task := s.tasks[t];
    var body := task.pc.body;
    var id := task.held[0];
    var index := s.slots[id].key.index;
    var n := Expected(w.BlockSize(task.ctx.obj), index, body.meta.size);
    var moved := Fetching(task.ctx, task.scheduled, task.held[1..], task.meta, task.attempt,
                          Serving(body.(rest := body.rest[n..]), index + 1));
    var block := Block(body.meta, body.rest[..n]);
    if n == 0
    then SetTask(s.(slots := Mark(s.slots, map[id := Ok(block)])), t, moved)
    else SetTask(Store(s, id, block), t, moved)
  }

  function GatherStep(s: State, t: nat, cached: bool): State
    requires Running(s, t) && s.tasks[t].pc.Gathering?
  {
    var task := s.tasks[t];
    var pc := task.pc;
    var key := task.ctx.Key(pc.cursor);
    var (id, owner) := Registered(s, key);
    if cached || !owner then SetTask(s, t, WithPc(task, Gathering(pc.body, pc.next, pc.cursor + 1, pc.extra)))
    else SetTask(Register(s, t, key), t, WithPc(task, Gathering(pc.body, pc.next, pc.cursor + 1, pc.extra + [id])))
  }

  function TrailingStep(w: World, s: State, t: nat): State
    requires Running(s, t) && s.tasks[t].pc.Trailing? && s.tasks[t].pc.extra != [] && s.tasks[t].pc.extra[0] < |s.slots|
    requires |s.tasks[t].pc.body.rest| >= Expected(w.BlockSize(s.tasks[t].ctx.obj), s.tasks[t].pc.next,
                                                   s.tasks[t].pc.body.meta.size)
  {
    var task := s.tasks[t];
    var pc := task.pc;
    var n := Expected(w.BlockSize(task.ctx.obj), pc.next, pc.body.meta.size);
    var body := pc.body.(rest := pc.body.rest[n..]);
    if pc.next < s.slots[pc.extra[0]].key.index
    then SetTask(s, t, WithPc(task, Trailing(body, pc.next + 1, pc.extra)))
    else SetTask(Store(s, pc.extra[0], Block(pc.body.meta, pc.body.rest[..n])), t,
                 if |pc.extra| == 1 then Done else WithPc(task, Trailing(body, pc.next + 1, pc.extra[1..])))
  }

  ghost function EnvApply(w: World, s: State, a: EnvAction): State
    requires EnvEnabled(w, s, a)
  {
    match a
    case Tick(nanos) => s.(now := s.now + nanos)
    case Publish(o, v) => s.(writes := s.writes + [Write(o, v, s.now)])
    case Evict(key) => s.(cache := s.cache - {key})
    case DropMeta(o) => s.(meta := s.meta - {o})
    case InsertBlock(o, p, i) =>
      var v := s.writes[p].version.value;
      s.(cache := s.cache[BlockKey(o, VersionTag(w, o, v), i) := Block(v.Meta(),
                                                                       BlockBytes(w.BlockSize(o), v.data, i))])
    case RecordMeta(o, p, answered) => PutMeta(s, o, s.writes[p].version.value.Meta(), p, answered)
    case CachedMeta(o, i) => PutMeta(s, o, s.cache[BlockKey(o, IMMUTABLE_TAG, i)].meta, 0, 0)
  }

  ghost function SettleApply(w: World, s: State, a: SettleAction): State
    requires SettleEnabled(w, s, a)
  {
    match a
    case RemoveEntry(id) =>
      s.(table := s.table - {s.slots[id].key},
         slots := s.slots[id := s.slots[id].(phase := Removed(s.slots[id].phase.result))])
    case SendResult(id) => s.(slots := s.slots[id := s.slots[id].(phase := Sent(s.slots[id].phase.result))])
    case DropTask(t) => SettleAll(s, t, AllOf(Held(s.tasks[t]), Err(Cancelled)))
  }

  ghost function PlanApply(w: World, s: State, a: PlanAction): State
    requires PlanEnabled(w, s, a)
  {
    match a
    case StartSchedule(ctx, lo, hi) => AddTask(s, Scheduling(ctx, lo, hi, Looking(map[])))
    case Lookup(t, i) => LookupStep(s, t, i)
    case FinishLookups(t) => SetTask(s, t, WithStage(s.tasks[t], Registering(s.tasks[t].stage.looked, [], [])))
    case RegisterNext(t) => RegisterStep(s, t)
    case FinishRegister(t) =>
      SetTask(s, t, WithStage(s.tasks[t], Rechecking(s.tasks[t].stage.handles, s.tasks[t].stage.owners, map[])))
    case Recheck(t, id) => RecheckStep(s, t, id)
    case FinishRecheck(t) => FinishRecheckStep(s, t)
    case SpawnGroup(t) => SpawnStep(w, s, t)
    case FinishSchedule(t) => SetTask(s, t, Scheduled(s.tasks[t].ctx, s.tasks[t].lo, s.tasks[t].stage.handles))
  }

  ghost function ProbeApply(w: World, s: State, a: ProbeAction): State
    requires ProbeEnabled(w, s, a)
  {
    match a
    case StartProbe(o, lo, hi, attempts) =>
      AddTask(s, Probing(o, lo, hi, if o in s.meta then Some(s.meta[o].meta) else None, attempts))
    case ProbeAnswer(t, r) =>
      var task := s.tasks[t];
      var ctx := NewCtx(w, task.obj, Some(r.meta), task.attempts);
      SetTask(PutMeta(s, task.obj, r.meta, r.from, r.answered), t,
              Adopting(ctx, task.lo, task.lo, Min(task.hi, Count(w.BlockSize(task.obj), r.meta.size)), [], r))
    case ProbeUnchanged(t, p, answered) =>
      var task := s.tasks[t];
      SetTask(PutMeta(s, task.obj, task.stale.value, p, answered), t,
              Scheduled(NewCtx(w, task.obj, task.stale, task.attempts), task.lo, []))
    case AdoptNext(t) => AdoptStep(s, t)
    case FinishAdopt(t) => FinishAdoptStep(s, t)
  }

  ghost function AttemptApply(w: World, s: State, a: AttemptAction): State
    requires AttemptEnabled(w, s, a)
  {
    match a
    case ServeNothing(t) => SettleAll(s, t, AllOf(Ids(s.tasks[t].held), Ok(Block(s.tasks[t].meta.value, []))))
    case UseInitial(t) => SetTask(s, t, WithPc(s.tasks[t], Answered(s.tasks[t].pc.initial.value)))
    case Ask(t) => AskStep(s, t)
    case Answer(t, r) => SetTask(s, t, WithPc(s.tasks[t], Answered(r)))
    case Refuse(t, e) =>
      SettleAll(s.(meta := s.meta - {s.tasks[t].ctx.obj}), t, AllOf(Ids(s.tasks[t].held), Err(ToNestor(e))))
    case PastEnd(t, p, answered) =>
      var m := s.writes[p].version.value.Meta();
      SettleAll(PutMeta(s, s.tasks[t].ctx.obj, m, p, answered), t, AllOf(Ids(s.tasks[t].held), Ok(Block(m, []))))
    case Fail(t, e, expired) => FailStep(s, t, e, expired)
    case Accept(t) => AcceptStep(w, s, t)
  }

  ghost function StreamApply(w: World, s: State, a: StreamAction): State
    requires StreamEnabled(w, s, a)
  {
    match a
    case ClaimLead(t, cached) => ClaimStep(s, t, cached)
    case TakeLead(t) => TakeLeadStep(w, s, t)
    case FinishLead(t) => SetTask(s, t, WithPc(s.tasks[t], Serving(s.tasks[t].pc.body, s.tasks[t].pc.next)))
    case Hedge(t, r) => HedgeStep(w, s, t, r)
    case Serve(t) => ServeStep(w, s, t)
    case FinishServe(t) =>
      SetTask(s, t, WithPc(s.tasks[t], Gathering(s.tasks[t].pc.body, s.tasks[t].pc.next, s.tasks[t].pc.next, [])))
    case Gather(t, cached) => GatherStep(s, t, cached)
    case FinishGather(t) =>
      SetTask(s, t, if s.tasks[t].pc.extra == [] then Done
                    else WithPc(s.tasks[t], Trailing(s.tasks[t].pc.body, s.tasks[t].pc.next, s.tasks[t].pc.extra)))
    case TakeTrailing(t) => TrailingStep(w, s, t)
  }

  ghost function Apply(w: World, s: State, a: Action): State
    requires Enabled(w, s, a)
  {
    match a
    case Env(x) => EnvApply(w, s, x)
    case Settle(x) => SettleApply(w, s, x)
    case Plan(x) => PlanApply(w, s, x)
    case Probe(x) => ProbeApply(w, s, x)
    case Attempt(x) => AttemptApply(w, s, x)
    case Stream(x) => StreamApply(w, s, x)
  }

  // ---- Runs ----

  /** The state after a list of actions, if each was enabled when it was taken. */
  ghost function Exec(w: World, run: seq<Action>): Option<State> {
    if run == [] then Some(Start())
    else
      var before := Exec(w, run[..|run| - 1]);
      if before.Some? && Enabled(w, before.value, run[|run| - 1])
      then Some(Apply(w, before.value, run[|run| - 1]))
      else None
  }
}
