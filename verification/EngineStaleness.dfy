/** Bounded staleness in etag mode: metadata a read trusts describes a version that was current no
    longer ago than the TTL plus the age the origin's answer had when it was recorded. */
module EngineStaleness {
  import opened Common
  import opened Blocks
  import opened Origin
  import opened Errors
  import opened Engine
  import opened EngineOwnership

  datatype MetaLookup = Fresh(meta: ObjectMeta) | Expired(meta: ObjectMeta) | Unknown

  /** `MetaCache::lookup` with the namespace's TTL. */
  function LookupMeta(w: World, s: State, o: ObjectKey): MetaLookup {
    if o !in s.meta then Unknown
    else if !w.Config(o).immutable && s.now - s.meta[o].at > w.Config(o).ttl then Expired(s.meta[o].meta)
    else Fresh(s.meta[o].meta)
  }

  /** An entry names a write that was still current when the answer it came from was given. */
  ghost predicate Recorded(w: World, s: State, o: ObjectKey, e: MetaEntry) {
    && e.answered <= e.at <= s.now
    && Current(s.writes, o, e.from, e.answered)
    && BlockTag(w, o, e.meta) == VersionTag(w, o, s.writes[e.from].version.value)
  }

  ghost predicate Timely(s: State, o: ObjectKey, r: Response) { r.answered <= s.now && Honest(s.writes, o, r) }

  /** Answers a task has received and not yet recorded. */
  ghost predicate TaskTimely(s: State, task: Task) {
    match task
    case Adopting(ctx, _, _, _, _, r) => Timely(s, ctx.obj, r)
    case Fetching(ctx, _, _, _, _, pc) =>
      && (pc.Top? && pc.initial.Some? ==> Timely(s, ctx.obj, pc.initial.value))
      && (pc.Answered? ==> Timely(s, ctx.obj, pc.response))
    case _ => true
  }

  ghost predicate MetaRecorded(w: World, s: State) {
    forall o :: o in s.meta && !w.Config(o).immutable ==> Recorded(w, s, o, s.meta[o])
  }

  ghost predicate TasksTimely(s: State) { forall t :: 0 <= t < |s.tasks| ==> TaskTimely(s, s.tasks[t]) }

  ghost predicate Dated(w: World, s: State) { MetaRecorded(w, s) && TasksTimely(s) }

  // ---- Every step ----

  /** A step of one task that leaves the history and the clock alone. */
  lemma DatedStep(w: World, s: State, s': State, t: nat)
    requires Dated(w, s) && OthersKept(s, s', t) && s'.writes == s.writes && s'.now == s.now
    requires TaskTimely(s', s'.tasks[t])
    requires forall o :: o in s'.meta && !w.Config(o).immutable ==>
               (o in s.meta && s'.meta[o] == s.meta[o]) || Recorded(w, s', o, s'.meta[o])
    ensures Dated(w, s')
  {
    forall u | 0 <= u < |s'.tasks| ensures TaskTimely(s', s'.tasks[u]) {
      if u != t {
        assert TaskTimely(s, s.tasks[u]);
      }
    }
    forall o | o in s'.meta && !w.Config(o).immutable ensures Recorded(w, s', o, s'.meta[o]) {
      if o in s.meta && s'.meta[o] == s.meta[o] {
        assert Recorded(w, s, o, s.meta[o]);
      }
    }
  }

  lemma DatedKept(w: World, s: State, s': State)
    requires Dated(w, s) && s'.writes == s.writes && s'.now == s.now
    requires |s.tasks| <= |s'.tasks|
    requires forall u :: 0 <= u < |s'.tasks| ==>
               (u < |s.tasks| && s'.tasks[u] == s.tasks[u]) || TaskTimely(s', s'.tasks[u])
    requires forall o :: o in s'.meta && !w.Config(o).immutable ==>
               (o in s.meta && s'.meta[o] == s.meta[o]) || Recorded(w, s', o, s'.meta[o])
    ensures Dated(w, s')
  {
    forall u | 0 <= u < |s'.tasks| ensures TaskTimely(s', s'.tasks[u]) {
      if u < |s.tasks| {
        assert TaskTimely(s, s.tasks[u]);
      }
    }
    forall o | o in s'.meta && !w.Config(o).immutable ensures Recorded(w, s', o, s'.meta[o]) {
      if o in s.meta && s'.meta[o] == s.meta[o] {
        assert Recorded(w, s, o, s.meta[o]);
      }
    }
  }

  /** Time passing and new writes keep what an answer said about its own instant. */
  lemma DatedLater(w: World, s: State, s': State)
    requires Dated(w, s) && s.now <= s'.now && s.writes <= s'.writes && s'.tasks == s.tasks && s'.meta == s.meta
    requires forall q :: |s.writes| <= q < |s'.writes| ==> s'.writes[q].at >= s.now
    ensures Dated(w, s')
  {
    forall u | 0 <= u < |s'.tasks| ensures TaskTimely(s', s'.tasks[u]) {
      assert TaskTimely(s, s.tasks[u]);
    }
    forall o | o in s'.meta && !w.Config(o).immutable ensures Recorded(w, s', o, s'.meta[o]) {
      assert Recorded(w, s, o, s.meta[o]);
    }
  }

  lemma EnvDated(w: World, s: State, a: EnvAction)
    requires Dated(w, s) && EnvEnabled(w, s, a)
    ensures Dated(w, EnvApply(w, s, a))
  {
    var s' := EnvApply(w, s, a);
    match a
    case Tick(_) => DatedLater(w, s, s');
    case Publish(_, _) => DatedLater(w, s, s');
    case _ => DatedKept(w, s, s');
  }

  lemma SpawnDated(w: World, s: State, t: nat)
    requires Dated(w, s) && PlanEnabled(w, s, SpawnGroup(t))
    ensures Dated(w, SpawnStep(w, s, t))
  {
    SpawnFrame(w, s, t);
    DatedKept(w, s, SpawnStep(w, s, t));
  }

  lemma SpawnFrame(w: World, s: State, t: nat)
    requires PlanEnabled(w, s, SpawnGroup(t))
    ensures var s' := SpawnStep(w, s, t);
            && s'.writes == s.writes && s'.now == s.now && s'.meta == s.meta && |s'.tasks| == |s.tasks| + 1
            && (forall u :: 0 <= u < |s.tasks| && u != t ==> s'.tasks[u] == s.tasks[u])
            && s'.tasks[t].Scheduling? && s'.tasks[|s.tasks|].Fetching? && s'.tasks[|s.tasks|].pc == Top(None)
  {
  }

  lemma StageDated(w: World, s: State, a: PlanAction, t: nat)
    requires Dated(w, s) && PlanEnabled(w, s, a) && !a.StartSchedule? && !a.SpawnGroup? && a.t == t
    ensures Dated(w, PlanApply(w, s, a))
  {
    DatedStep(w, s, PlanApply(w, s, a), t);
  }

  lemma PlanDated(w: World, s: State, a: PlanAction)
    requires Dated(w, s) && PlanEnabled(w, s, a)
    ensures Dated(w, PlanApply(w, s, a))
  {
    match a
    case SpawnGroup(t) => SpawnDated(w, s, t);
    case StartSchedule(_, _, _) => DatedKept(w, s, PlanApply(w, s, a));
    case _ => StageDated(w, s, a, a.t);
  }

  lemma ProbeAnswerDated(w: World, s: State, t: nat, r: Response)
    requires Dated(w, s) && ProbeEnabled(w, s, ProbeAnswer(t, r))
    ensures Dated(w, ProbeApply(w, s, ProbeAnswer(t, r)))
  {
    DatedStep(w, s, ProbeApply(w, s, ProbeAnswer(t, r)), t);
  }

  /** A not-modified answer renews the entry soundly: the write that is current now has the ETag, and
      so the tag, the entry had. */
  lemma ProbeUnchangedDated(w: World, s: State, t: nat, p: nat, answered: nat)
    requires Dated(w, s) && ProbeEnabled(w, s, ProbeUnchanged(t, p, answered))
    ensures Dated(w, ProbeApply(w, s, ProbeUnchanged(t, p, answered)))
  {
    DatedStep(w, s, ProbeApply(w, s, ProbeUnchanged(t, p, answered)), t);
  }

  lemma StartProbeDated(w: World, s: State, a: ProbeAction)
    requires Dated(w, s) && ProbeEnabled(w, s, a) && a.StartProbe?
    ensures Dated(w, ProbeApply(w, s, a))
  {
    DatedKept(w, s, ProbeApply(w, s, a));
  }

  lemma AdoptDated(w: World, s: State, a: ProbeAction)
    requires Dated(w, s) && ProbeEnabled(w, s, a) && a.AdoptNext?
    ensures Dated(w, ProbeApply(w, s, a))
  {
    assert TaskTimely(s, s.tasks[a.t]);
    DatedStep(w, s, ProbeApply(w, s, a), a.t);
  }

  lemma FinishAdoptDated(w: World, s: State, a: ProbeAction)
    requires Dated(w, s) && ProbeEnabled(w, s, a) && a.FinishAdopt?
    ensures Dated(w, ProbeApply(w, s, a))
  {
    FinishAdoptFrame(s, a.t);
    assert TaskTimely(s, s.tasks[a.t]);
    DatedKept(w, s, FinishAdoptStep(s, a.t));
  }

  /** Handing the slots over changes only the task, and the answer moves on to the fetch. */
  lemma FinishAdoptFrame(s: State, t: nat)
    requires t < |s.tasks| && s.tasks[t].Adopting?
    ensures var s' := FinishAdoptStep(s, t);
            && s'.now == s.now && s'.writes == s.writes && s'.meta == s.meta && |s.tasks| <= |s'.tasks| <= |s.tasks| + 1
            && (forall u :: 0 <= u < |s.tasks| && u != t ==> s'.tasks[u] == s.tasks[u]) && s'.tasks[t].Scheduled?
            && (|s'.tasks| > |s.tasks| ==>
                  s'.tasks[|s.tasks|] == Fetching(s.tasks[t].ctx, false, s.tasks[t].held, s.tasks[t].ctx.meta, 0,
                                                  Top(Some(s.tasks[t].response))))
  {
  }

  lemma ProbeDated(w: World, s: State, a: ProbeAction)
    requires Dated(w, s) && ProbeEnabled(w, s, a)
    ensures Dated(w, ProbeApply(w, s, a))
  {
    match a
    case ProbeAnswer(t, r) => ProbeAnswerDated(w, s, t, r);
    case ProbeUnchanged(t, p, answered) => ProbeUnchangedDated(w, s, t, p, answered);
    case AdoptNext(_) => AdoptDated(w, s, a);
    case FinishAdopt(_) => FinishAdoptDated(w, s, a);
    case StartProbe(_, _, _, _) => StartProbeDated(w, s, a);
  }

  lemma AcceptDated(w: World, s: State, t: nat)
    requires Dated(w, s) && AttemptEnabled(w, s, Accept(t))
    ensures Dated(w, AcceptStep(w, s, t))
  {
    var o, r := s.tasks[t].ctx.obj, s.tasks[t].pc.response;
    AcceptFrame(w, s, t);
    AnswerAt(s, t);
    assert BlockTag(w, o, r.meta) == VersionTag(w, o, s.writes[r.from].version.value);
    DatedStep(w, s, AcceptStep(w, s, t), t);
  }

  lemma AnswerAt(s: State, t: nat)
    requires TasksTimely(s) && t < |s.tasks| && s.tasks[t].Fetching? && s.tasks[t].pc.Answered?
    ensures Timely(s, s.tasks[t].ctx.obj, s.tasks[t].pc.response)
  {
    assert TaskTimely(s, s.tasks[t]);
  }

  /** Accepting an answer stamps it with the current time and takes it out of the task. */
  lemma AcceptFrame(w: World, s: State, t: nat)
    requires AttemptEnabled(w, s, Accept(t))
    ensures var s' := AcceptStep(w, s, t);
            var r := s.tasks[t].pc.response;
            && OthersKept(s, s', t) && s'.writes == s.writes && s'.now == s.now
            && s'.meta == s.meta[s.tasks[t].ctx.obj := MetaEntry(r.meta, s.now, r.from, r.answered)]
            && (s'.tasks[t].Done? || (s'.tasks[t].Fetching? && (s'.tasks[t].pc.Failing? || s'.tasks[t].pc.Leading?)))
  {
  }

  lemma AttemptDated(w: World, s: State, a: AttemptAction)
    requires Dated(w, s) && AttemptEnabled(w, s, a)
    ensures Dated(w, AttemptApply(w, s, a))
  {
    match a
    case Accept(t) => AcceptDated(w, s, t);
    case Fail(t, e, expired) => DatedStep(w, s, FailStep(s, t, e, expired), t);
    case _ => TriedDated(w, s, a, a.t);
  }

  lemma TriedDated(w: World, s: State, a: AttemptAction, t: nat)
    requires Dated(w, s) && AttemptEnabled(w, s, a) && !a.Accept? && !a.Fail? && a.t == t
    ensures Dated(w, AttemptApply(w, s, a))
  {
    assert TaskTimely(s, s.tasks[t]);
    DatedStep(w, s, AttemptApply(w, s, a), t);
  }

  /** Reading a body records nothing and holds no unrecorded answer. */
  lemma StreamFrame(w: World, s: State, a: StreamAction)
    requires StreamEnabled(w, s, a)
    ensures var s' := StreamApply(w, s, a);
            && s'.meta == s.meta && s'.writes == s.writes && s'.now == s.now && |s'.tasks| == |s.tasks|
  {
    if a.ClaimLead? || a.TakeLead? || a.FinishLead? || a.Hedge? {
      LeadFrame(w, s, a);
    } else {
      BodyFrame(w, s, a);
    }
  }

  lemma LeadFrame(w: World, s: State, a: StreamAction)
    requires StreamEnabled(w, s, a) && (a.ClaimLead? || a.TakeLead? || a.FinishLead? || a.Hedge?)
    ensures var s' := StreamApply(w, s, a);
            s'.meta == s.meta && s'.writes == s.writes && s'.now == s.now && |s'.tasks| == |s.tasks|
  {
  }

  lemma BodyFrame(w: World, s: State, a: StreamAction)
    requires StreamEnabled(w, s, a) && !(a.ClaimLead? || a.TakeLead? || a.FinishLead? || a.Hedge?)
    ensures var s' := StreamApply(w, s, a);
            s'.meta == s.meta && s'.writes == s.writes && s'.now == s.now && |s'.tasks| == |s.tasks|
  {
  }

  lemma StreamTask(w: World, s: State, a: StreamAction)
    requires StreamEnabled(w, s, a)
    ensures var s' := StreamApply(w, s, a);
            && OthersKept(s, s', a.t)
            && (s'.tasks[a.t].Done? || (s'.tasks[a.t].Fetching? && !s'.tasks[a.t].pc.Top?
                                        && !s'.tasks[a.t].pc.Answered?))
  {
    if a.ClaimLead? || a.TakeLead? || a.FinishLead? || a.Hedge? {
      LeadTask(w, s, a);
    } else {
      BodyTask(w, s, a);
    }
  }

  lemma LeadTask(w: World, s: State, a: StreamAction)
    requires StreamEnabled(w, s, a) && (a.ClaimLead? || a.TakeLead? || a.FinishLead? || a.Hedge?)
    ensures var s' := StreamApply(w, s, a);
            && OthersKept(s, s', a.t)
            && s'.tasks[a.t].Fetching? && !s'.tasks[a.t].pc.Top? && !s'.tasks[a.t].pc.Answered?
  {
  }

  lemma BodyTask(w: World, s: State, a: StreamAction)
    requires StreamEnabled(w, s, a) && !(a.ClaimLead? || a.TakeLead? || a.FinishLead? || a.Hedge?)
    ensures var s' := StreamApply(w, s, a);
            && OthersKept(s, s', a.t)
            && (s'.tasks[a.t].Done? || (s'.tasks[a.t].Fetching? && !s'.tasks[a.t].pc.Top?
                                        && !s'.tasks[a.t].pc.Answered?))
  {
  }

  lemma StreamDated(w: World, s: State, a: StreamAction)
    requires Dated(w, s) && StreamEnabled(w, s, a)
    ensures Dated(w, StreamApply(w, s, a))
  {
    StreamFrame(w, s, a);
    StreamTask(w, s, a);
    DatedStep(w, s, StreamApply(w, s, a), a.t);
  }

  lemma SettleDated(w: World, s: State, a: SettleAction)
    requires Dated(w, s) && SettleEnabled(w, s, a)
    ensures Dated(w, SettleApply(w, s, a))
  {
    DatedKept(w, s, SettleApply(w, s, a));
  }

  lemma {:induction false} RunDated(w: World, run: seq<Action>)
    requires Exec(w, run).Some?
    ensures Dated(w, Exec(w, run).value)
  {
    if run != [] {
      RunDated(w, run[..|run| - 1]);
      var s := Exec(w, run[..|run| - 1]).value;
      match run[|run| - 1]
      case Env(x) => EnvDated(w, s, x);
      case Settle(x) => SettleDated(w, s, x);
      case Plan(x) => PlanDated(w, s, x);
      case Probe(x) => ProbeDated(w, s, x);
      case Attempt(x) => AttemptDated(w, s, x);
      case Stream(x) => StreamDated(w, s, x);
    }
  }

  // ---- What that means ----

  /** The tag a read that trusts its metadata pins. */
  function PinnedTag(w: World, s: State, o: ObjectKey): nat
    requires LookupMeta(w, s, o).Fresh?
  {
    NewCtx(w, o, Some(LookupMeta(w, s, o).meta), 0).tag
  }

  /** Bounded staleness. In every run, a read at `s.now` on fresh metadata pins the tag of a version
      none of whose successors was written before `s.now - ttl - age`, where `age` is how old the
      origin's answer was when it was recorded. */
  lemma BoundedStaleness(w: World, run: seq<Action>, s: State, o: ObjectKey)
    requires Exec(w, run) == Some(s) && !w.Config(o).immutable && LookupMeta(w, s, o).Fresh?
    ensures var e := s.meta[o];
            var age := e.at - e.answered;
            && age >= 0
            && IsVersion(s.writes, o, e.from)
            && VersionTag(w, o, s.writes[e.from].version.value) == PinnedTag(w, s, o)
            && (forall q :: e.from < q < |s.writes| && s.writes[q].obj == o ==>
                  s.writes[q].at >= s.now - w.Config(o).ttl - age)
  {
    RunDated(w, run);
    assert Recorded(w, s, o, s.meta[o]);
  }

  // ---- What readers are told ----

  /** Over every run, accepting an answer for a context that pins a version: if the answer is from a version
      with another tag, every slot of the group is told that its version is gone, and otherwise no slot
      is settled. This is what a read restarts on. */
  lemma ChangedVersionIsStale(w: World, run: seq<Action>, s: State, t: nat)
    requires Exec(w, run) == Some(s) && AttemptEnabled(w, s, Accept(t))
    requires s.tasks[t].ctx.tag != IMMUTABLE_TAG && !w.Config(s.tasks[t].ctx.obj).immutable
    ensures var task := s.tasks[t];
            var from := task.pc.response.from;
            && IsVersion(s.writes, task.ctx.obj, from)
            && (if VersionTag(w, task.ctx.obj, s.writes[from].version.value) == task.ctx.tag
                then AcceptStep(w, s, t).slots == s.slots
                else AcceptStep(w, s, t).tasks[t].Done? && AllTold(AcceptStep(w, s, t), task.held, Stale))
  {
    RunDated(w, run);
    AnswerAt(s, t);
  }

  /** An answer is recorded when it is taken, by a probe or by a fetch, and then looked up as fresh for a TTL,
      and for ever in immutable mode. */
  lemma AnswersRecorded(w: World, s: State, a: Action, o: ObjectKey, m: ObjectMeta, nanos: nat)
    requires Enabled(w, s, a) && Answers(s, a, o, m)
    ensures var later := Apply(w, s, a).(now := s.now + nanos);
            LookupMeta(w, later, o) == if w.Config(o).immutable
            || nanos <= w.Config(o).ttl then Fresh(m) else Expired(m)
  {
  }

  /** What is held about an object, once expired, is revalidated and not fetched again: a probe of it takes the
      answer that the held ETag is still the current one, and hands out a context for the held version with
      no fetch. */
  lemma HeldRevalidates(w: World, s: State, o: ObjectKey, lo: nat, hi: nat, attempts: nat, p: nat)
    requires o in s.meta && s.meta[o].meta.etag.Some? && lo <= hi
    requires Current(s.writes, o, p, s.now) && s.writes[p].version.value.etag == s.meta[o].meta.etag
    ensures var held, probe, t := s.meta[o].meta, StartProbe(o, lo, hi, attempts), |s.tasks|;
            var probing := ProbeApply(w, s, probe);
            && ProbeEnabled(w, probing, ProbeUnchanged(t, p, s.now))
            && (var renewed := ProbeApply(w, probing, ProbeUnchanged(t, p, s.now));
                && LookupMeta(w, renewed, o) == Fresh(held)
                && renewed.tasks[t] == Scheduled(NewCtx(w, o, Some(held), attempts), lo, []))
  {
  }

  /** A read of a version insists on it: its context has the version's tag and, outside immutable mode, asks the
      origin for the version's ETag. */
  lemma ContextInsists(w: World, o: ObjectKey, v: Version, attempts: nat)
    ensures var ctx := NewCtx(w, o, Some(v.Meta()), attempts);
            && ctx.obj == o && ctx.tag == VersionTag(w, o, v) && ctx.meta == Some(v.Meta()) && ctx.attempts == attempts
            && ctx.ifMatch == if w.Config(o).immutable then None else v.etag
  {
  }

  /** The step takes an answer about `o` that says `m`. */
  ghost predicate Answers(s: State, a: Action, o: ObjectKey, m: ObjectMeta) {
    match a
    case Probe(ProbeAnswer(t, r)) => t < |s.tasks| && s.tasks[t].Probing? && s.tasks[t].obj == o && r.meta == m
    case Probe(ProbeUnchanged(t, _, _)) =>
      t < |s.tasks| && s.tasks[t].Probing? && s.tasks[t].obj == o && s.tasks[t].stale == Some(m)
    case Attempt(Accept(t)) =>
      && t < |s.tasks| && s.tasks[t].Fetching? && s.tasks[t].pc.Answered?
      && s.tasks[t].ctx.obj == o && s.tasks[t].pc.response.meta == m
    case Attempt(PastEnd(t, p, _)) =>
      && t < |s.tasks| && s.tasks[t].Fetching? && s.tasks[t].ctx.obj == o && p < |s.writes|
      && s.writes[p].version.Some? && s.writes[p].version.value.Meta() == m
    case _ => false
  }

  /** The slots are being settled with `error`. */
  predicate AllTold(s: State, ids: seq<nat>, error: NestorError) {
    forall j :: 0 <= j < |ids| ==> ids[j] < |s.slots| && s.slots[ids[j]].phase == Resolving(Err(error))
  }

  /** An origin that has no such object, or no longer the version asked for. */
  lemma RefusedSlots(w: World, s: State, t: nat)
    requires AtPc(s, t, true) && s.tasks[t].pc.Asked?
    ensures AllTold(AttemptApply(w, s, Refuse(t, Missing)), s.tasks[t].held, NotFound)
    ensures AllTold(AttemptApply(w, s, Refuse(t, PreconditionFailed)), s.tasks[t].held, Stale)
    ensures LookupMeta(w, AttemptApply(w, s, Refuse(t, Missing)), s.tasks[t].ctx.obj).Unknown?
    ensures LookupMeta(w, AttemptApply(w, s, Refuse(t, PreconditionFailed)), s.tasks[t].ctx.obj).Unknown?
  {
    var missing, failed := AttemptApply(w, s, Refuse(t, Missing)), AttemptApply(w, s, Refuse(t, PreconditionFailed));
    ToldByMark(s, missing, s.tasks[t].held, NotFound);
    ToldByMark(s, failed, s.tasks[t].held, Stale);
  }

  lemma ToldByMark(s: State, s': State, ids: seq<nat>, error: NestorError)
    requires InSlots(s.slots, ids) && s'.slots == Mark(s.slots, AllOf(Ids(ids), Err(error)))
    ensures AllTold(s', ids, error)
  {
  }

  /** In every run a failed attempt settles none of its slots if another is due, and otherwise gives each the
      error, or a timeout if only the deadline kept it from being retried. */
  lemma FailedSlots(w: World, run: seq<Action>, s: State, t: nat, e: OriginError, expired: bool)
    requires Exec(w, run) == Some(s) && AttemptEnabled(w, s, Fail(t, e, expired)) && !e.Missing?
             && !e.PreconditionFailed?
    ensures var task, s' := s.tasks[t], FailStep(s, t, e, expired);
            var due := e.Retryable() && task.attempt + 1 < task.ctx.attempts;
            if due && !expired
            then s'.tasks[t].Fetching? && s'.tasks[t].held == task.held && s'.tasks[t].attempt == task.attempt + 1
                 && forall j :: 0 <= j < |task.held| ==> s'.slots[task.held[j]] == s.slots[task.held[j]]
            else AllTold(s', task.held, FromOrigin(if due then Timeout else e))
  {
    RunOwns(w, run);
    assert Listed(s.tasks[t]);
  }

  // ---- The TTL alone is not the bound ----

  lemma Extend(w: World, run: seq<Action>, s: State, a: Action) returns (longer: seq<Action>, s': State)
    requires Exec(w, run) == Some(s) && Enabled(w, s, a)
    ensures longer == run + [a] && s' == Apply(w, s, a) && Exec(w, longer) == Some(s')
  {
    longer := run + [a];
    s' := Apply(w, s, a);
    assert longer[..|run|] == run;
  }

  function OldVersion(): Version { Version([7], Some([0]), None) }

  function NewVersion(): Version { Version([8], Some([0, 0]), None) }

  function OldAnswer(): Response { Response(OldVersion().Meta(), 0, 1, [7], 0, 0) }

  function OldContext(w: World, o: ObjectKey): ReadCtx { NewCtx(w, o, Some(OldVersion().Meta()), 1) }

  /** An object of one byte is one block, whatever the block size. */
  lemma OneByte(b: Pos)
    ensures Index(b, 0) == 0 && Count(b, 1) == 1 && Expected(b, 0, 1) == 1 && Offset(b, 0) == 0 && Offset(b, 1) == b
  {
    CountBounds(b, 1, 0);
    CountBounds(b, 1, 1);
  }

  /** The old version is written, probed and answered. */
  lemma AnsweredProbe(w: World, o: ObjectKey) returns (run: seq<Action>, s: State)
    ensures Exec(w, run) == Some(s)
    ensures s.now == 0 && s.writes == [Write(o, Some(OldVersion()), 0)] && s.table == map[] && s.slots == []
    ensures s.tasks == [Adopting(OldContext(w, o), 0, 0, 1, [], OldAnswer())]
  {
    run, s := [], Start();
    run, s := Extend(w, run, s, Env(Publish(o, Some(OldVersion()))));
    run, s := Extend(w, run, s, Probe(StartProbe(o, 0, 1, 1)));
    assert Honest(s.writes, o, OldAnswer());
    OneByte(w.BlockSize(o));
    run, s := Extend(w, run, s, Probe(ProbeAnswer(0, OldAnswer())));
  }

  /** Its block is registered and a fetch spawned, which now waits for a permit. */
  lemma WaitingFetch(w: World, o: ObjectKey) returns (run: seq<Action>, s: State)
    ensures Exec(w, run) == Some(s)
    ensures s.now == 0 && s.writes == [Write(o, Some(OldVersion()), 0)]
    ensures s.slots == [Slot(OldContext(w, o).Key(0), Live(1))] && |s.tasks| == 2
    ensures s.tasks[1] == Fetching(OldContext(w, o), false, [0], Some(OldVersion().Meta()), 0, Top(Some(OldAnswer())))
  {
    run, s := RegisteredBlock(w, o);
    run, s := Extend(w, run, s, Probe(FinishAdopt(0)));
  }

  lemma RegisteredBlock(w: World, o: ObjectKey) returns (run: seq<Action>, s: State)
    ensures Exec(w, run) == Some(s)
    ensures s.now == 0 && s.writes == [Write(o, Some(OldVersion()), 0)]
            && s.slots == [Slot(OldContext(w, o).Key(0), Live(0))]
    ensures |s.tasks| == 1 && s.tasks[0] == Adopting(OldContext(w, o), 0, 1, 1, [0], OldAnswer())
  {
    run, s := AnsweredProbe(w, o);
    run, s := Extend(w, run, s, Probe(AdoptNext(0)));
    assert s.slots == [Slot(OldContext(w, o).Key(0), Live(0))];
  }

  /** Meanwhile the object is overwritten and `wait` passes. */
  lemma OverwrittenMeanwhile(w: World, o: ObjectKey, wait: nat) returns (run: seq<Action>, s: State)
    ensures Exec(w, run) == Some(s)
    ensures s.now == wait && s.writes == [Write(o, Some(OldVersion()), 0), Write(o, Some(NewVersion()), 0)]
    ensures s.slots == [Slot(OldContext(w, o).Key(0), Live(1))] && |s.tasks| == 2
    ensures s.tasks[1] == Fetching(OldContext(w, o), false, [0], Some(OldVersion().Meta()), 0, Top(Some(OldAnswer())))
  {
    run, s := WaitingFetch(w, o);
    run, s := Extend(w, run, s, Env(Publish(o, Some(NewVersion()))));
    run, s := Extend(w, run, s, Env(Tick(wait)));
  }

  /** The permit arrives and the old answer is recorded as of now. */
  lemma RecordedLate(w: World, o: ObjectKey, wait: nat) returns (run: seq<Action>, s: State)
    requires !w.Config(o).immutable
    ensures Exec(w, run) == Some(s)
    ensures s.now == wait && s.writes == [Write(o, Some(OldVersion()), 0), Write(o, Some(NewVersion()), 0)]
    ensures o in s.meta && s.meta[o] == MetaEntry(OldVersion().Meta(), wait, 0, 0)
  {
    run, s := OverwrittenMeanwhile(w, o, wait);
    OneByte(w.BlockSize(o));
    assert Wanted(w, s, s.tasks[1]) == Range(0, 1);
    run, s := Extend(w, run, s, Attempt(UseInitial(1)));
    assert s.tasks[1].pc == Answered(OldAnswer());
    run, s := Extend(w, run, s, Attempt(Accept(1)));
  }

  /** For every TTL, every wait and every block size there is a run in which a read on fresh metadata pins a version
      that had been overwritten for the TTL plus the wait: a probe's answer waits that long for a
      permit, and `accept` then stamps it with the current time. */
  lemma TtlAloneIsNoBound(ttl: nat, wait: nat, b: Pos) returns (w: World, run: seq<Action>, s: State, o: ObjectKey)
    ensures Exec(w, run) == Some(s) && w.Config(o).ttl == ttl && !w.Config(o).immutable && w.BlockSize(o) == b
    ensures LookupMeta(w, s, o).Fresh? && s.meta[o].at - s.meta[o].answered == wait
    ensures s.writes == [Write(o, Some(OldVersion()), 0), Write(o, Some(NewVersion()), 0)] && s.now == ttl + wait
    ensures VersionTag(w, o, OldVersion()) == PinnedTag(w, s, o) != VersionTag(w, o, NewVersion())
  {
    w := World(n => Namespace(b, 1, 1, false, ttl), b => |b|, n => 0);
    o := ObjectKey(0, []);
    run, s := RecordedLate(w, o, wait);
    run, s := Extend(w, run, s, Env(Tick(ttl)));
  }
}
