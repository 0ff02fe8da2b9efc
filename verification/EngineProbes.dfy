/** Why at-most-once fetching is a property of `schedule` only: a probe that is adopted does not look
    in the cache after registering (nestor/src/fetch.rs:279-310), so of two probes answered together
    the second fetches a block the first has already put there. */
module EngineProbes {
  import opened Common
  import opened Blocks
  import opened Origin
  import opened Engine
  import opened EngineAgreement
  import opened EngineOnce
  import opened EngineStaleness

  function TheKey(w: World, o: ObjectKey): BlockKey { OldContext(w, o).Key(0) }

  function Meta(): ObjectMeta { OldVersion().Meta() }

  function Adopted(w: World, o: ObjectKey, id: nat, pc: Pc): Task {
    Fetching(OldContext(w, o), false, [id], Some(Meta()), 0, pc)
  }

  lemma Step(w: World, run: seq<Action>, s: State, a: Action) returns (longer: seq<Action>, s': State)
    requires Exec(w, run) == Some(s) && KeepsBlocks(run) && Enabled(w, s, a) && !(a.Env? && a.env.Evict?)
    ensures s' == Apply(w, s, a) && Exec(w, longer) == Some(s') && KeepsBlocks(longer)
  {
    longer, s' := EngineStaleness.Extend(w, run, s, a);
  }

  /** The object is written. */
  lemma Published(w: World, o: ObjectKey) returns (run: seq<Action>, s: State)
    ensures Exec(w, run) == Some(s) && KeepsBlocks(run)
    ensures s.writes == [Write(o, Some(OldVersion()), 0)] && s.now == 0 && s.table == map[] && s.slots == []
    ensures s.meta == map[] && s.cache == map[] && s.log == [] && s.tasks == []
  {
    run, s := [], Start();
    run, s := Step(w, run, s, Env(Publish(o, Some(OldVersion()))));
  }

  /** Two reads probe it. */
  lemma TwoProbes(w: World, o: ObjectKey) returns (run: seq<Action>, s: State)
    ensures Exec(w, run) == Some(s) && KeepsBlocks(run)
    ensures s.writes == [Write(o, Some(OldVersion()), 0)] && s.now == 0 && s.table == map[] && s.slots == []
            && s.cache == map[] && s.log == []
    ensures s.tasks == [Probing(o, 0, 1, None, 1), Probing(o, 0, 1, None, 1)]
  {
    run, s := Published(w, o);
    run, s := Step(w, run, s, Probe(StartProbe(o, 0, 1, 1)));
    run, s := Step(w, run, s, Probe(StartProbe(o, 0, 1, 1)));
  }

  /** Both are answered. */
  lemma BothAnswered(w: World, o: ObjectKey) returns (run: seq<Action>, s: State)
    ensures Exec(w, run) == Some(s) && KeepsBlocks(run)
    ensures s.writes == [Write(o, Some(OldVersion()), 0)] && s.now == 0 && s.table == map[] && s.slots == []
            && s.cache == map[] && s.log == []
    ensures s.tasks == [Adopting(OldContext(w, o), 0, 0, 1, [], OldAnswer()),
                        Adopting(OldContext(w, o), 0, 0, 1, [], OldAnswer())]
  {
    run, s := TwoProbes(w, o);
    assert Honest(s.writes, o, OldAnswer());
    OneByte(w.BlockSize(o));
    run, s := Step(w, run, s, Probe(ProbeAnswer(0, OldAnswer())));
    run, s := Step(w, run, s, Probe(ProbeAnswer(1, OldAnswer())));
  }

  /** The first one's answer is adopted: its block is registered and a fetch spawned. */
  lemma FirstAdopts(w: World, o: ObjectKey) returns (run: seq<Action>, s: State)
    ensures Exec(w, run) == Some(s) && KeepsBlocks(run)
    ensures s.now == 0 && s.slots == [Slot(TheKey(w, o), Live(2))] && s.table == map[TheKey(w, o) := 0]
            && s.cache == map[] && s.log == []
    ensures |s.tasks| == 3 && s.tasks[1] == Adopting(OldContext(w, o), 0, 0, 1, [], OldAnswer())
    ensures s.tasks[2] == Adopted(w, o, 0, Top(Some(OldAnswer())))
  {
    run, s := BothAnswered(w, o);
    run, s := Step(w, run, s, Probe(AdoptNext(0)));
    assert s.tasks[0] == Adopting(OldContext(w, o), 0, 1, 1, [0], OldAnswer());
    run, s := Step(w, run, s, Probe(FinishAdopt(0)));
  }

  lemma FirstAccepts(w: World, o: ObjectKey) returns (run: seq<Action>, s: State)
    ensures Exec(w, run) == Some(s) && KeepsBlocks(run)
    ensures s.slots == [Slot(TheKey(w, o), Live(2))] && s.table == map[TheKey(w, o) := 0] && s.cache == map[]
            && s.log == []
    ensures |s.tasks| == 3 && s.tasks[1] == Adopting(OldContext(w, o), 0, 0, 1, [], OldAnswer())
    ensures s.tasks[2] == Adopted(w, o, 0, Leading(Body([7], Meta(), 1), 0, Unclaimed))
  {
    run, s := FirstAdopts(w, o);
    OneByte(w.BlockSize(o));
    assert Wanted(w, s, s.tasks[2]) == Range(0, 1);
    run, s := Step(w, run, s, Attempt(UseInitial(2)));
    assert s.tasks[2] == Adopted(w, o, 0, Answered(OldAnswer()));
    run, s := Step(w, run, s, Attempt(Accept(2)));
  }

  /** It serves the block: the block is cached and its slot settled. */
  lemma FirstServes(w: World, o: ObjectKey) returns (run: seq<Action>, s: State)
    ensures Exec(w, run) == Some(s) && KeepsBlocks(run)
    ensures s.slots == [Slot(TheKey(w, o), Resolving(Ok(Block(Meta(), [7]))))] && s.table == map[TheKey(w, o) := 0]
    ensures s.cache == map[TheKey(w, o) := Block(Meta(), [7])] && s.log == [Fetched(TheKey(w, o))]
    ensures |s.tasks| == 3 && s.tasks[1] == Adopting(OldContext(w, o), 0, 0, 1, [], OldAnswer())
  {
    run, s := FirstAccepts(w, o);
    OneByte(w.BlockSize(o));
    run, s := Step(w, run, s, Stream(FinishLead(2)));
    assert s.tasks[2] == Adopted(w, o, 0, Serving(Body([7], Meta(), 1), 0));
    assert [7][..1] == [7];
    run, s := Step(w, run, s, Stream(Serve(2)));
  }

  lemma FirstSettles(w: World, o: ObjectKey) returns (run: seq<Action>, s: State)
    ensures Exec(w, run) == Some(s) && KeepsBlocks(run)
    ensures |s.slots| == 1 && s.table == map[]
    ensures s.cache == map[TheKey(w, o) := Block(Meta(), [7])] && s.log == [Fetched(TheKey(w, o))]
    ensures |s.tasks| == 3 && s.tasks[1] == Adopting(OldContext(w, o), 0, 0, 1, [], OldAnswer())
  {
    run, s := FirstServes(w, o);
    run, s := Step(w, run, s, Settle(RemoveEntry(0)));
  }

  /** Only now is the second one's answer adopted: the key is free again, and it is fetched again
      although it is cached. */
  lemma ProbesFetchTwice(w: World, o: ObjectKey) returns (run: seq<Action>, s: State)
    ensures Exec(w, run) == Some(s) && KeepsBlocks(run)
    ensures WasFetched(s, TheKey(w, o)) && TheKey(w, o) in s.cache
    ensures |s.slots| == 2 && s.slots[1] == Slot(TheKey(w, o), Live(3))
    ensures |s.tasks| == 4 && s.tasks[3] == Adopted(w, o, 1, Top(Some(OldAnswer())))
  {
    run, s := FirstSettles(w, o);
    run, s := Step(w, run, s, Probe(AdoptNext(1)));
    assert s.tasks[1] == Adopting(OldContext(w, o), 0, 1, 1, [1], OldAnswer());
    run, s := Step(w, run, s, Probe(FinishAdopt(1)));
  }

  /** Only blocks that an object has are ever recorded as fetched. */
  lemma PastEndNeverFetched(w: World, run: seq<Action>, s: State, k: BlockKey)
    requires Exec(w, run) == Some(s) && KeepsBlocks(run) && Faithful(w, s.writes) && WasFetched(s, k)
    ensures var c := Content(w, s.writes, k.obj, k.tag);
            c.Some? && k.index < Count(w.BlockSize(k.obj), |c.value|)
  {
    RunOnce(w, run);
    RunSound(w, run);
    assert Good(w, s.writes, k, s.cache[k]) && s.cache[k].data != [];
    ExpectedBounds(w.BlockSize(k.obj), k.index, |Content(w, s.writes, k.obj, k.tag).value|);
  }
}
