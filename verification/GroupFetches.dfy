/** Retrying one fetch group (nestor/src/fetch.rs:312-456, 530-574 and nestor/src/policy.rs:221-263):
    how often it asks, what it asks for, how long it waits and what becomes of its slots. Time is a
    number that only the environment and the backoff move. */
module GroupFetches {
  import opened Common
  import opened Powers
  import opened Blocks
  import opened Origin
  import opened Errors

  datatype Policy = Policy(attempts: nat, backoff: nat, backoffMax: nat, deadline: nat)

  /** `backoff_for`: doubling from the base for sixteen attempts, up to the cap. */
  function BackoffFor(policy: Policy, attempt: nat): nat {
    Min(policy.backoff * Pow2(Min(attempt, 16)), policy.backoffMax)
  }

  /** Delays double from one attempt to the next until they reach the cap or the sixteenth attempt, and
      stay the same from there. */
  lemma BackoffGrows(policy: Policy, attempt: nat)
    ensures BackoffFor(policy, attempt) <= BackoffFor(policy, attempt + 1) <= policy.backoffMax
    ensures BackoffFor(policy, attempt + 1) <= 2 * BackoffFor(policy, attempt)
    ensures BackoffFor(policy, 0) == Min(policy.backoff, policy.backoffMax)
    ensures attempt < 16 ==> BackoffFor(policy, attempt + 1) == Min(2 * BackoffFor(policy, attempt), policy.backoffMax)
    ensures attempt >= 16 ==> BackoffFor(policy, attempt + 1) == BackoffFor(policy, attempt)
  {
    if attempt < 16 {
      Doubled(policy.backoff, Pow2(attempt));
    } else {
      assert Min(attempt, 16) == Min(attempt + 1, 16);
    }
  }

  lemma Doubled(base: nat, factor: nat)
    ensures base * (2 * factor) == 2 * (base * factor) >= base * factor
  {
  }

  /** What one attempt comes to. `Refused` never got headers; `head` is what `past_end` is told then.
      `Answered` got them, and its body delivers blocks until `failure`, if any, after `served`. */
  datatype Attempt =
    | Refused(error: OriginError, head: Option<ObjectMeta>, took: nat)
    | Answered(meta: ObjectMeta, stale: bool, misplaced: bool, block: nat -> Bytes, served: nat,
               failure: Option<OriginError>, took: nat)

  function Served(b: Pos, a: Attempt, index: nat): Block
    requires a.Answered?
  {
    Block(a.meta, if Expected(b, index, a.meta.size) == 0 then [] else a.block(index))
  }

  /** A block past the end of the object it is reported for. */
  predicate Blank(b: Pos, index: nat, r: BlockResult) {
    r.Ok? && r.value.data == [] && index >= Count(b, r.value.meta.size)
  }

  /** `r` is what attempt `a` makes of block `index`: the block it delivered, or an error it ran into. */
  predicate Explains(b: Pos, a: Attempt, index: nat, r: BlockResult) {
    match a
    case Answered(_, stale, misplaced, _, _, failure, _) =>
      if stale then r == Err(Stale)
      else if misplaced then r == Err(ToNestor(ShortRead)) || r == Err(ToNestor(Timeout))
      else
        || r == Ok(Served(b, a, index))
        || (failure.Some? && (r == Err(ToNestor(failure.value)) || r == Err(ToNestor(Timeout))))
    case Refused(error, _, _) => r == Err(ToNestor(error)) || r == Err(ToNestor(Timeout))
  }

  /** The origin refused for a reason that `past_end` looks into, and says that the object ends at or
      before block `front`. */
  predicate EndsBefore(b: Pos, a: Attempt, front: nat) {
    && a.Refused? && !a.error.Missing? && !a.error.PreconditionFailed?
    && a.head.Some? && Offset(b, front) >= a.head.value.size
  }

  /** An attempt that delivers everything it is asked for. */
  predicate Succeeds(a: Attempt) { a.Answered? && !a.stale && !a.misplaced && a.failure.None? }

  class Retry {
    const policy: Policy
    const deadline: nat
    var attempt: nat

    constructor (policy: Policy, now: nat)
      ensures this.policy == policy && deadline == now + policy.deadline && attempt == 0
    {
      this.policy, deadline, attempt := policy, now + policy.deadline, 0;
    }

    /** Counts a failed attempt and, if another is due, sleeps. A sleep ends before the deadline. */
    method Failed(error: OriginError, now: nat) returns (r: Option<OriginError>, awake: nat)
      modifies `attempt
      ensures attempt == old(attempt) + 1
      ensures r.None? <==>
                error.Retryable() && attempt < policy.attempts && now + BackoffFor(policy, old(attempt)) < deadline
      ensures r.None? ==> awake == now + BackoffFor(policy, old(attempt)) < deadline
      ensures r.Some? ==> awake == now
      ensures r.Some? ==> r.value == if error.Retryable() && attempt < policy.attempts then Timeout else error
    {
      attempt, awake := attempt + 1, now;
      if !error.Retryable() || attempt >= policy.attempts {
        return Some(error), now;
      }
      var delay := BackoffFor(policy, attempt - 1);
      if now + delay >= deadline {
        return Some(Timeout), now;
      }
      return None, now + delay;
    }
  }

  class GroupFetch {
    const b: Pos
    const first: nat
    const end: nat
    /** The slots not settled yet, by block index, and what the others were settled with. */
    var slots: seq<nat>
    var settled: map<nat, BlockResult>
    var meta: Option<ObjectMeta>
    /** The requests made so far, as the blocks they asked for. */
    var requests: seq<FetchGroup>
    /** Which slots were settled when each request was made. */
    ghost var settledAt: seq<set<nat>>

    /** Settled slots are a prefix of the group; the rest is still queued in order. */
    ghost predicate Valid()
      reads `slots, `settled, `requests, `settledAt
    {
      && first <= end && |slots| <= end - first
      && slots == Covered(FetchGroup(end - |slots|, |slots|))
      && (forall i :: i in settled <==> first <= i < end - |slots|)
      && |settledAt| == |requests| && Resumed(end - |slots|)
    }

    /** Every request asked for everything from the first slot that was not settled then, and none
        starts before an earlier one. */
    ghost predicate Resumed(next: nat)
      reads `requests, `settledAt
      requires |settledAt| == |requests|
    {
      && (forall k :: 0 <= k < |requests| ==> AsksForRest(requests[k], settledAt[k]) && requests[k].first <= next)
      && (forall j, k :: 0 <= j < k < |requests| ==> requests[j].first <= requests[k].first)
    }

    ghost predicate AsksForRest(request: FetchGroup, done: set<nat>) {
      && first <= request.first && request.first + request.count == end
      && forall i :: i in done <==> first <= i < request.first
    }

    constructor (b: Pos, first: nat, count: nat, meta: Option<ObjectMeta>)
      ensures Valid() && this.b == b && this.first == first && end == first + count && |slots| == count
              && requests == []
    {
      this.b, this.first, end, this.meta := b, first, first + count, meta;
      slots, settled, requests, settledAt := Covered(FetchGroup(first, count)), map[], [], [];
    }

    /** Pops the front slot and resolves it. It was not settled before. */
    method Resolve(result: BlockResult)
      requires Valid() && slots != []
      modifies `slots, `settled
      ensures Valid() && |slots| == |old(slots)| - 1
      ensures old(end - |slots|) !in old(settled) && settled == old(settled)[end - |slots| - 1 := result]
    {
      var index := slots[0];
      settled := settled[index := result];
      slots := slots[1..];
    }

    /** `resolve_all`, and what dropping the queue does with `Cancelled`. */
    method ResolveAll(result: BlockResult)
      requires Valid()
      modifies `slots, `settled
      ensures Valid() && slots == []
      ensures forall i :: i in settled ==> settled[i] == if i in old(settled) then old(settled)[i] else result
    {
      while slots != []
        invariant Valid()
        invariant forall i :: i in old(settled) ==> i in settled && settled[i] == old(settled)[i]
        invariant forall i :: i in settled && i !in old(settled) ==> settled[i] == result
        decreases |slots|
      {
        Resolve(result);
      }
    }

    /** Every slot left lies past the end of the object. */
    method ResolveBlank(known: ObjectMeta)
      requires Valid() && slots != [] && slots[0] >= Count(b, known.size)
      modifies `slots, `settled
      ensures Valid() && slots == []
      ensures forall i :: i in old(settled) ==> i in settled && settled[i] == old(settled)[i]
      ensures forall i :: i in settled && i !in old(settled) ==> Blank(b, i, settled[i])
      ensures forall i :: i in settled && i !in old(settled) ==> settled[i] == Ok(Block(known, []))
    {
      assert forall i :: 0 <= i < |slots| ==> slots[i] == end - |slots| + i;
      ResolveAll(Ok(Block(known, [])));
    }

    /** Everything settled since the old state is accounted for by `a`, or lies past the end. */
    twostate predicate Accounts(a: Attempt)
      reads this
    {
      && (forall i :: i in old(settled) ==> i in settled && settled[i] == old(settled)[i])
      && (forall i :: i in settled && i !in old(settled) ==> Blank(b, i, settled[i]) || Explains(b, a, i, settled[i]))
    }

    /** `consume`: serves the front slots one by one, as far as the body goes. */
    method Consume(a: Attempt) returns (r: Option<OriginError>)
      requires Valid() && a.Answered?
      modifies `slots, `settled
      ensures Valid() && |slots| <= |old(slots)|
      ensures r.None? ==> slots == []
      ensures r.Some? ==> r == a.failure && |old(slots)| - |slots| == a.served
      ensures r.Some? <==> a.failure.Some? && a.served < |old(slots)|
                           && old(end - |slots|) + a.served < Count(b, a.meta.size)
      ensures forall i :: i in settled && i !in old(settled) ==> settled[i] == Ok(Served(b, a, i))
      ensures forall i :: i in old(settled) ==> i in settled && settled[i] == old(settled)[i]
    {
      var done := 0;
      while slots != []
        invariant Valid() && |slots| <= |old(slots)| && (a.failure.Some? ==> done <= a.served)
        invariant done <= |old(slots)| - |slots|
        invariant done == |old(slots)| - |slots|
                  || Count(b, a.meta.size) <= Min(end - |slots|, old(end - |slots|) + done)
        invariant forall i :: i in settled && i !in old(settled) ==> settled[i] == Ok(Served(b, a, i))
        invariant forall i :: i in old(settled) ==> i in settled && settled[i] == old(settled)[i]
        decreases |slots|
      {
        ExpectedBounds(b, slots[0], a.meta.size);
        if Expected(b, slots[0], a.meta.size) == 0 {
          Resolve(Ok(Block(a.meta, [])));
        } else if a.failure.Some? && done >= a.served {
          return a.failure;
        } else {
          Resolve(Ok(Block(a.meta, a.block(slots[0]))));
          done := done + 1;
        }
      }
      return None;
    }

    /** `retry_or_fail`: another attempt, or the error for every slot left. */
    method RetryOrFail(retry: Retry, error: OriginError, now: nat) returns (again: bool, awake: nat)
      requires Valid()
      modifies retry`attempt, `slots, `settled
      ensures Valid() && retry.attempt == old(retry.attempt) + 1
      ensures again <==> error.Retryable() && retry.attempt < retry.policy.attempts
                         && now + BackoffFor(retry.policy, old(retry.attempt)) < retry.deadline
      ensures again ==> slots == old(slots) && settled == old(settled) && awake < retry.deadline
      ensures !again ==> slots == []
      ensures forall i :: i in old(settled) ==> i in settled && settled[i] == old(settled)[i]
      ensures forall i :: i in settled && i !in old(settled) ==>
                settled[i] == Err(ToNestor(if error.Retryable() && retry.attempt < retry.policy.attempts then Timeout
                                           else error))
    {
      var failed, awoken := retry.Failed(error, now);
      again, awake := failed.None?, awoken;
      if failed.Some? {
        ResolveAll(Err(ToNestor(failed.value)));
      }
    }

    /** Whether what is left lies past the end of the object, as far as it is known. */
    predicate Nothing()
      reads this
      requires slots != []
    {
      meta.Some? && (var range := Span(b, slots[0], |slots|, Some(meta.value.size)); range.start >= range.end)
    }

    method Ask()
      requires Valid() && slots != []
      modifies `requests, `settledAt
      ensures Valid() && requests == old(requests) + [FetchGroup(end - |slots|, |slots|)]
      ensures settledAt == old(settledAt) + [settled.Keys]
    {
      requests := requests + [FetchGroup(slots[0], |slots|)];
      settledAt := settledAt + [settled.Keys];
    }

    method OnAnswer(retry: Retry, a: Attempt, now: nat) returns (again: bool, awake: nat)
      requires Valid() && slots != [] && a.Answered?
      modifies retry`attempt, `slots, `settled, `meta
      ensures Valid() && |slots| <= |old(slots)| && Accounts(a)
      ensures again ==>
                retry.attempt == old(retry.attempt) + 1 < retry.policy.attempts && awake < retry.deadline && slots != []
      ensures again ==> forall i :: i in settled && i !in old(settled) ==> settled[i].Ok?
      ensures !again ==> slots == []
      ensures Succeeds(a) ==> !again && forall i :: i in settled && i !in old(settled) ==> settled[i].Ok?
      ensures meta == Some(a.meta)
    {
      meta := Some(a.meta);
      if a.stale {
        ResolveAll(Err(Stale));
        return false, now + a.took;
      }
      var error := Some(ShortRead);
      if !a.misplaced {
        error := Consume(a);
        if error.None? {
          return false, now + a.took;
        }
      }
      again, awake := RetryOrFail(retry, error.value, now + a.took);
    }

    /** Whether the object is known to end before what is left. */
    predicate PastEnd(head: ObjectMeta)
      reads this
      requires slots != []
    {
      Offset(b, slots[0]) >= head.size
    }

    method OnRefusal(retry: Retry, a: Attempt, now: nat) returns (again: bool, awake: nat)
      requires Valid() && slots != [] && a.Refused?
      modifies retry`attempt, `slots, `settled
      ensures Valid() && |slots| <= |old(slots)| && Accounts(a)
      ensures again ==>
                retry.attempt == old(retry.attempt) + 1 < retry.policy.attempts && awake < retry.deadline && slots != []
      ensures again ==> forall i :: i in settled && i !in old(settled) ==> settled[i].Ok?
      ensures !again ==> slots == []
      ensures again ==> slots == old(slots)
      ensures meta.None? && EndsBefore(b, a, old(end - |slots|)) ==>
                !again && forall i :: i in settled && i !in old(settled) ==> settled[i] == Ok(Block(a.head.value, []))
    {
      awake := now + a.took;
      if a.error.Missing? || a.error.PreconditionFailed? {
        ResolveAll(Err(ToNestor(a.error)));
        return false, awake;
      }
      if meta.None? && a.head.Some? && PastEnd(a.head.value) {
        AllPastEnd(b, slots[0], a.head.value.size);
        ResolveBlank(a.head.value);
        return false, awake;
      }
      again, awake := RetryOrFail(retry, a.error, awake);
    }

    /** The object is known to end at or before the first slot left. */
    ghost predicate KnownEmpty()
      reads `slots, `meta
      requires |slots| <= end
    {
      meta.Some? && Offset(b, end - |slots|) >= meta.value.size
    }

    /** Once round the loop of `fetch_group`. */
    method Once(retry: Retry, a: Attempt, asking: bool, now: nat) returns (again: bool, awake: nat)
      requires Valid() && slots != []
      modifies retry`attempt, `slots, `settled, `meta, `requests, `settledAt
      ensures Valid() && |slots| <= |old(slots)| && Accounts(a)
      ensures requests == old(requests) || asking
      ensures requests == old(requests) ==> !asking || !again
      ensures requests != old(requests) ==> requests == old(requests) + [FetchGroup(end - |old(slots)|, |old(slots)|)]
      ensures requests != old(requests) ==> settledAt == old(settledAt) + [old(settled).Keys]
      ensures requests == old(requests) ==> settledAt == old(settledAt)
      ensures again ==>
                retry.attempt == old(retry.attempt) + 1 < retry.policy.attempts && awake < retry.deadline && slots != []
      ensures again ==> forall i :: i in settled && i !in old(settled) ==> settled[i].Ok?
      ensures !again ==> slots == []
      ensures Succeeds(a) ==> !again && forall i :: i in settled && i !in old(settled) ==> settled[i].Ok?
      ensures meta == if a.Answered? && !old(KnownEmpty()) then Some(a.meta) else old(meta)
      ensures a.Refused? && again ==> slots == old(slots)
      ensures old(KnownEmpty()) ==>
                !again && requests == old(requests)
                && forall i :: i in settled && i !in old(settled) ==> settled[i] == Ok(Block(old(meta).value, []))
      ensures old(meta).None? && EndsBefore(b, a, old(end - |slots|)) ==>
                !again && forall i :: i in settled && i !in old(settled) ==> settled[i] == Ok(Block(a.head.value, []))
    {
      if meta.Some? {
        NothingPastEnd(b, slots[0], |slots|, meta.value.size);
      }
      if Nothing() {
        AllPastEnd(b, slots[0], meta.value.size);
        ResolveBlank(meta.value);
        return false, now;
      }
      if asking {
        Ask();
      }
      if a.Answered? {
        again, awake := OnAnswer(retry, a, now);
      } else {
        again, awake := OnRefusal(retry, a, now);
      }
    }

    /** Every result so far comes from an attempt made, or lies past the end. */
    ghost predicate Explained(attempts: nat -> Attempt, rounds: nat)
      reads `settled
    {
      forall i :: i in settled ==> Blank(b, i, settled[i]) || ExplainedBy(b, attempts, rounds, i, settled[i])
    }

    /** Every slot settled so far has its block. */
    ghost predicate Fine()
      reads `settled
    {
      forall i :: i in settled ==> settled[i].Ok?
    }

    /** Every request was the rest of the group, and the first one all of it unless `initial`. */
    ghost predicate RequestsRest(initial: bool)
      reads `requests, `settledAt
    {
      && |settledAt| == |requests| && (forall k :: 0 <= k < |requests| ==> AsksForRest(requests[k], settledAt[k]))
      && FirstAsksForAll(initial)
    }

    ghost predicate FirstAsksForAll(initial: bool)
      reads `requests
    {
      requests != [] && !initial ==> requests[0].first == first && requests[0].count == end - first
    }

    /** How far the requests are after `rounds` rounds. */
    ghost predicate Underway(initial: bool, rounds: nat)
      reads `requests, `slots
    {
      && |requests| <= rounds && FirstAsksForAll(initial)
      && (rounds == 0 ==> |slots| == end - first)
      && (rounds > 0 && requests == [] && !initial ==> slots == [])
    }

    /** Every slot settled has its block, unless the last attempt was the one that failed the group. */
    ghost predicate FineSoFar(attempts: nat -> Attempt, rounds: nat)
      reads `settled, `slots
    {
      && (slots != [] ==> Fine())
      && (rounds > 0 && Succeeds(attempts(rounds - 1)) ==> slots == [] && Fine())
    }

    /** While every attempt was refused and nothing is known of the object, nothing is settled. */
    ghost predicate OpenSoFar(unknown: bool, attempts: nat -> Attempt, rounds: nat)
      reads `slots, `settled, `meta
    {
      unknown && Unanswered(attempts, rounds) ==> meta.None? && (slots != [] ==> settled == map[])
    }

    /** Once a refused attempt says that the object ends before the group, the group is over and empty. */
    ghost predicate EmptySoFar(unknown: bool, attempts: nat -> Attempt, rounds: nat)
      reads `slots, `settled
    {
      unknown ==>
        && Unended(b, first, attempts, rounds - (if slots == [] then 1 else 0))
        && (slots == [] && rounds > 0 && Unanswered(attempts, rounds) && EndsBefore(b, attempts(rounds - 1), first) ==>
              AllEmpty(attempts(rounds - 1)))
    }

    /** Every slot was told that it lies past the end of the object refused attempt `a` found. */
    ghost predicate AllEmpty(a: Attempt)
      reads `settled
    {
      a.Refused? && a.head.Some? && forall i :: i in settled ==> settled[i] == Ok(Block(a.head.value, []))
    }

    /** A round after others that left every settled slot with its block. */
    method Round(retry: Retry, attempts: nat -> Attempt, rounds: nat, initial: bool, ghost unknown: bool, now: nat)
      returns (again: bool, awake: nat)
      requires Valid() && slots != [] && Explained(attempts, rounds) && Underway(initial, rounds)
               && FineSoFar(attempts, rounds) && OpenSoFar(unknown, attempts, rounds)
                  && EmptySoFar(unknown, attempts, rounds)
      modifies retry`attempt, `slots, `settled, `meta, `requests, `settledAt
      ensures Valid() && |slots| <= |old(slots)| && Explained(attempts, rounds + 1) && Underway(initial, rounds + 1)
      ensures again ==>
                retry.attempt == old(retry.attempt) + 1 < retry.policy.attempts && awake < retry.deadline
                && slots != []
      ensures !again ==> slots == []
      ensures FineSoFar(attempts, rounds + 1)
      ensures OpenSoFar(unknown, attempts, rounds + 1) && EmptySoFar(unknown, attempts, rounds + 1)
    {
      assert first !in settled ==> |slots| == end - first;
      again, awake := Once(retry, attempts(rounds), !(initial && rounds == 0), now);
    }

    /** The loop of `fetch_group`. */
    method Rounds(retry: Retry, now: nat, initial: bool, attempts: nat -> Attempt)
      returns (rounds: nat, sleeps: seq<nat>)
      requires Valid() && requests == [] && settled == map[] && |slots| == end - first && retry.attempt == 0
      modifies retry`attempt, `slots, `settled, `meta, `requests, `settledAt
      ensures Valid() && slots == [] && Explained(attempts, rounds)
      ensures rounds <= Max(1, retry.policy.attempts) && Underway(initial, rounds) && FineSoFar(attempts, rounds)
      ensures AllBefore(sleeps, retry.deadline) && EmptySoFar(old(meta.None?), attempts, rounds)
    {
      rounds, sleeps := 0, [];
      var clock := now;
      while slots != []
        invariant Valid() && Explained(attempts, rounds) && Underway(initial, rounds) && FineSoFar(attempts, rounds)
        invariant slots != [] ==> retry.attempt == rounds && (rounds > 0 ==> rounds < retry.policy.attempts)
        invariant rounds <= Max(1, retry.policy.attempts) && AllBefore(sleeps, retry.deadline)
        invariant OpenSoFar(old(meta.None?), attempts, rounds) && EmptySoFar(old(meta.None?), attempts, rounds)
        decreases |slots|, retry.policy.attempts - rounds
      {
        var again;
        again, clock := Round(retry, attempts, rounds, initial, old(meta.None?), clock);
        rounds := rounds + 1;
        if again {
          sleeps := sleeps + [clock];
        }
      }
    }

    /** `fetch_group`: at most `max(1, attempts)` rounds, each asking for everything from the first
        unfinished slot on; every sleep ends before the deadline; at the end every slot has been
        settled, with what some attempt made of it, and with its block if the last attempt succeeded. */
    method Run(permit: bool, policy: Policy, now: nat, initial: bool, attempts: nat -> Attempt)
      returns (rounds: nat, sleeps: seq<nat>)
      requires Valid() && requests == [] && settled == map[]
      requires initial ==> attempts(0).Answered?
      modifies this
      ensures Valid() && slots == [] && forall i :: i in settled <==> first <= i < end
      ensures rounds <= Max(1, policy.attempts) && |requests| <= rounds && RequestsRest(initial)
      ensures AllBefore(sleeps, now + policy.deadline)
      ensures !permit ==> rounds == 0 && forall i :: i in settled ==> settled[i] == Err(Cancelled)
      ensures permit ==> Explained(attempts, rounds)
      ensures permit && rounds > 0 && Succeeds(attempts(rounds - 1)) ==> Fine()
      ensures permit ==> EmptySoFar(old(meta.None?), attempts, rounds)
    {
      assert first !in settled;
      if permit {
        var retry := new Retry(policy, now);
        rounds, sleeps := Rounds(retry, now, initial, attempts);
      } else {
        rounds, sleeps := 0, [];
        ResolveAll(Err(Cancelled));
      }
    }
  }

  predicate AllBefore(times: seq<nat>, deadline: nat) { forall time :: time in times ==> time < deadline }

  predicate Unanswered(attempts: nat -> Attempt, n: nat) { forall k :: 0 <= k < n ==> attempts(k).Refused? }

  /** None of the first `n` attempts, as long as they were refused, said that the object ends before the
      group. */
  predicate Unended(b: Pos, first: nat, attempts: nat -> Attempt, n: int) {
    forall k {:trigger attempts(k)} :: 0 <= k < n && Unanswered(attempts, k + 1) ==> !EndsBefore(b, attempts(k), first)
  }

  ghost predicate ExplainedBy(b: Pos, attempts: nat -> Attempt, rounds: nat, index: nat, r: BlockResult) {
    exists k :: 0 <= k < rounds && Explains(b, attempts(k), index, r)
  }

  lemma AllPastEnd(b: Pos, front: nat, size: nat)
    requires Offset(b, front) >= size
    ensures front >= Count(b, size)
  {
    CountBounds(b, size, front);
  }

  lemma NothingPastEnd(b: Pos, front: nat, n: nat, size: nat)
    requires n > 0
    ensures Span(b, front, n, Some(size)).start >= Span(b, front, n, Some(size)).end <==> Offset(b, front) >= size
  {
    MulMonotone(front, front + n, b);
  }
}
