/** That the steps lead somewhere: a run in which a scheduled read of a block nobody has fetched goes through
    every stage of `schedule` and `fetch_group` and is handed its block (nestor/src/fetch.rs:108-176,
    312-574). */
module EngineDeliveries {
  import opened Common
  import opened Blocks
  import opened Origin
  import opened Engine
  import opened EngineOnce
  import opened EngineStaleness
  import opened EngineProbes

  /** What stays as it is while the read is served. */
  ghost predicate Base(s: State, o: ObjectKey) {
    && s.writes == [Write(o, Some(OldVersion()), 0)] && s.now == 0
    && s.cache == map[] && s.log == []
  }

  function Planning(w: World, o: ObjectKey, stage: Stage): Task { Scheduling(OldContext(w, o), 0, 1, stage) }

  /** A read of the object's one block is scheduled, */
  lemma Starts(w: World, o: ObjectKey) returns (run: seq<Action>, s: State)
    ensures Exec(w, run) == Some(s) && KeepsBlocks(run) && Base(s, o) && s.table == map[] && s.slots == []
    ensures |s.tasks| == 1 && s.tasks[0] == Planning(w, o, Looking(map[]))
  {
    run, s := Published(w, o);
    OldContextKnown(w, o, s.writes);
    run, s := Step(w, run, s, Plan(StartSchedule(OldContext(w, o), 0, 1)));
  }

  lemma OldContextKnown(w: World, o: ObjectKey, h: History)
    requires h == [Write(o, Some(OldVersion()), 0)]
    ensures KnownCtx(w, h, OldContext(w, o))
  {
    assert h[..0] == [] && IsVersion(h, o, 0);
  }

  /** and the block is not cached. */
  lemma LooksUp(w: World, o: ObjectKey) returns (run: seq<Action>, s: State)
    ensures Exec(w, run) == Some(s) && KeepsBlocks(run) && Base(s, o) && s.table == map[] && s.slots == []
    ensures |s.tasks| == 1 && s.tasks[0] == Planning(w, o, Looking(map[0 := None]))
  {
    run, s := Starts(w, o);
    run, s := Step(w, run, s, Plan(Lookup(0, 0)));
  }

  lemma FinishesLookups(w: World, o: ObjectKey) returns (run: seq<Action>, s: State)
    ensures Exec(w, run) == Some(s) && KeepsBlocks(run) && Base(s, o) && s.table == map[] && s.slots == []
    ensures |s.tasks| == 1 && s.tasks[0] == Planning(w, o, Registering(map[0 := None], [], []))
  {
    run, s := LooksUp(w, o);
    run, s := Step(w, run, s, Plan(FinishLookups(0)));
  }

  /** It is registered, */
  lemma Registers(w: World, o: ObjectKey) returns (run: seq<Action>, s: State)
    ensures Exec(w, run) == Some(s) && KeepsBlocks(run) && Base(s, o)
    ensures s.table == map[TheKey(w, o) := 0] && s.slots == [Slot(TheKey(w, o), Live(0))]
    ensures |s.tasks| == 1 && s.tasks[0] == Planning(w, o, Rechecking([Pending(0)], [0], map[]))
  {
    run, s := FinishesLookups(w, o);
    run, s := Step(w, run, s, Plan(RegisterNext(0)));
    assert s.tasks[0].stage.handles == [Pending(0)] && s.tasks[0].stage.owners == [0];
    run, s := Step(w, run, s, Plan(FinishRegister(0)));
  }

  /** and still not cached, */
  lemma Rechecks(w: World, o: ObjectKey) returns (run: seq<Action>, s: State)
    ensures Exec(w, run) == Some(s) && KeepsBlocks(run) && Base(s, o)
    ensures s.table == map[TheKey(w, o) := 0] && s.slots == [Slot(TheKey(w, o), Live(0))]
    ensures |s.tasks| == 1 && s.tasks[0] == Planning(w, o, Spawning([Pending(0)], [0]))
  {
    run, s := Registers(w, o);
    run, s := Step(w, run, s, Plan(Recheck(0, 0)));
    assert s.tasks[0].stage.landed == map[0 := None];
    assert Missed([0], map[0 := None]) == [0] && LandedResults([0], map[0 := None]) == map[];
    assert Mark(s.slots, map[]) == s.slots;
    run, s := Step(w, run, s, Plan(FinishRecheck(0)));
  }

  /** so a fetch is spawned for it, and the reader gets its handle. */
  lemma Spawns(w: World, o: ObjectKey) returns (run: seq<Action>, s: State)
    ensures Exec(w, run) == Some(s) && KeepsBlocks(run) && Base(s, o)
    ensures s.table == map[TheKey(w, o) := 0] && s.slots == [Slot(TheKey(w, o), Live(1))]
    ensures |s.tasks| == 2 && s.tasks[0] == Scheduled(OldContext(w, o), 0, [Pending(0)])
    ensures s.tasks[1] == Fetching(OldContext(w, o), true, [0], Some(Meta()), 0, Top(None))
  {
    run, s := Rechecks(w, o);
    run, s := SpawnsOne(w, o, run, s);
    run, s := Step(w, run, s, Plan(FinishSchedule(0)));
  }

  lemma SpawnsOne(w: World, o: ObjectKey, before: seq<Action>, s0: State) returns (run: seq<Action>, s: State)
    requires Exec(w, before) == Some(s0) && KeepsBlocks(before) && Base(s0, o)
    requires s0.table == map[TheKey(w, o) := 0] && s0.slots == [Slot(TheKey(w, o), Live(0))]
    requires |s0.tasks| == 1 && s0.tasks[0] == Planning(w, o, Spawning([Pending(0)], [0]))
    ensures Exec(w, run) == Some(s) && KeepsBlocks(run) && Base(s, o)
    ensures s.table == s0.table && s.slots == [Slot(TheKey(w, o), Live(1))]
    ensures |s.tasks| == 2 && s.tasks[0] == Planning(w, o, Spawning([Pending(0)], []))
    ensures s.tasks[1] == Fetching(OldContext(w, o), true, [0], Some(Meta()), 0, Top(None))
  {
    assert RunLength(Indexes(s0.slots, [0]), Max(w.Config(o).fetchWindow, 1)) == 1;
    assert [0][..1] == [0] && [0][1..] == [];
    run, s := Step(w, before, s0, Plan(SpawnGroup(0)));
  }

  /** The fetch asks the origin, which answers. */
  lemma Asks(w: World, o: ObjectKey) returns (run: seq<Action>, s: State)
    ensures Exec(w, run) == Some(s) && KeepsBlocks(run) && s.now == 0 && s.cache == map[]
    ensures s.log == [Requested(TheKey(w, o))]
    ensures s.table == map[TheKey(w, o) := 0] && s.slots == [Slot(TheKey(w, o), Live(1))]
    ensures |s.tasks| == 2 && s.tasks[0] == Scheduled(OldContext(w, o), 0, [Pending(0)])
    ensures s.tasks[1] == Fetching(OldContext(w, o), true, [0], Some(Meta()), 0, Answered(OldAnswer()))
  {
    run, s := Spawns(w, o);
    OneByte(w.BlockSize(o));
    assert Wanted(w, s, s.tasks[1]) == Range(0, 1);
    run, s := Step(w, run, s, Attempt(Ask(1)));
    assert Honest(s.writes, o, OldAnswer());
    run, s := Step(w, run, s, Attempt(Answer(1, OldAnswer())));
  }

  /** The answer is accepted. */
  lemma Accepts(w: World, o: ObjectKey) returns (run: seq<Action>, s: State)
    ensures Exec(w, run) == Some(s) && KeepsBlocks(run) && s.cache == map[] && s.log == [Requested(TheKey(w, o))]
    ensures s.table == map[TheKey(w, o) := 0] && s.slots == [Slot(TheKey(w, o), Live(1))]
    ensures |s.tasks| == 2 && s.tasks[0] == Scheduled(OldContext(w, o), 0, [Pending(0)])
    ensures s.tasks[1] == Fetching(OldContext(w, o), true, [0], Some(Meta()), 0, Serving(Body([7], Meta(), 1), 0))
  {
    run, s := Asks(w, o);
    OneByte(w.BlockSize(o));
    assert Wanted(w, s, s.tasks[1]) == Range(0, 1);
    run, s := Step(w, run, s, Attempt(Accept(1)));
    assert s.tasks[1].pc == Leading(Body([7], Meta(), 1), 0, Unclaimed);
    run, s := Step(w, run, s, Stream(FinishLead(1)));
  }

  /** The block is served and cached. */
  lemma Serves(w: World, o: ObjectKey) returns (run: seq<Action>, s: State)
    ensures Exec(w, run) == Some(s) && KeepsBlocks(run)
    ensures |s.tasks| == 2 && s.tasks[0] == Scheduled(OldContext(w, o), 0, [Pending(0)])
    ensures s.slots == [Slot(TheKey(w, o), Resolving(Ok(Block(Meta(), [7]))))] && s.table == map[TheKey(w, o) := 0]
    ensures s.cache == map[TheKey(w, o) := Block(Meta(), [7])]
    ensures s.log == [Requested(TheKey(w, o)), Fetched(TheKey(w, o))]
  {
    run, s := Accepts(w, o);
    OneByte(w.BlockSize(o));
    assert [7][..1] == [7];
    run, s := Step(w, run, s, Stream(Serve(1)));
  }

  /** And it is sent: whoever waits on the handle has it. */
  lemma ScheduleDelivers(w: World, o: ObjectKey) returns (run: seq<Action>, s: State)
    ensures Exec(w, run) == Some(s) && KeepsBlocks(run)
    ensures |s.tasks| == 2 && s.tasks[0] == Scheduled(OldContext(w, o), 0, [Pending(0)])
    ensures s.slots == [Slot(TheKey(w, o), Sent(Ok(Block(Meta(), [7]))))] && s.table == map[]
    ensures s.cache == map[TheKey(w, o) := Block(Meta(), [7])]
    ensures s.log == [Requested(TheKey(w, o)), Fetched(TheKey(w, o))]
  {
    run, s := Serves(w, o);
    run, s := Step(w, run, s, Settle(RemoveEntry(0)));
    run, s := Step(w, run, s, Settle(SendResult(0)));
  }
}
