/** The sharded in-flight table and the slots that own its entries (nestor/src/inflight.rs:41-130). */
module InflightTable {
  import opened Common
  import opened Powers
  import opened Origin
  import opened Errors

  /** The exponent of `next_power_of_two`. */
  function Exponent(n: nat): (k: nat)
    ensures n <= Pow2(k) && (n > 1 ==> Pow2(k) < 2 * n)
  {
    if n <= 1 then 0 else Exponent((n + 1) / 2) + 1
  }

  /** Bitwise and. */
  function And(x: nat, y: nat): nat {
    if x == 0 || y == 0 then 0 else 2 * And(x / 2, y / 2) + (if x % 2 == 1 && y % 2 == 1 then 1 else 0)
  }

  /** Masking with a power of two less one is the remainder, so it always names a shard. */
  lemma {:induction false} MaskIsRemainder(h: nat, k: nat)
    ensures And(h, Pow2(k) - 1) == h % Pow2(k) < Pow2(k)
  {
    if k == 0 {
      assert And(h, 0) == 0;
    } else {
      var p := Pow2(k - 1);
      MaskIsRemainder(h / 2, k - 1);
      Masked(h, p);
    }
  }

  lemma {:induction false} Masked(h: nat, p: Pos)
    requires And(h / 2, p - 1) == h / 2 % p
    ensures And(h, 2 * p - 1) == h % (2 * p) < 2 * p
  {
    assert 2 * p - 1 == 2 * (p - 1) + 1;
    AndOdd(h, p - 1);
    HalvedRemainder(h, p);
  }

  lemma {:induction false} AndOdd(x: nat, y: nat)
    ensures And(x, 2 * y + 1) == 2 * And(x / 2, y) + x % 2
  {
  }

  lemma HalvedRemainder(h: nat, p: Pos)
    ensures h % (2 * p) == 2 * (h / 2 % p) + h % 2
  {
    var q, r := h / 2 / p, h / 2 % p;
    assert h / 2 == q * p + r;
    assert h == q * (2 * p) + (2 * r + h % 2);
    DivUnique(h, 2 * p, q);
  }

  datatype Registration = Owner(channel: nat) | Waiter(channel: nat)

  class Inflight {
    const exponent: nat
    const hash: BlockKey -> nat
    var shards: seq<map<BlockKey, nat>>
    /** One cell per registration, written at most once. */
    var channels: seq<Option<BlockResult>>
    /** The single map the shards stand for. */
    ghost var table: map<BlockKey, nat>

    function Shard(key: BlockKey): (i: nat)
      ensures i < Pow2(exponent)
    {
      MaskIsRemainder(hash(key), exponent);
      And(hash(key), Pow2(exponent) - 1)
    }

    ghost predicate Valid()
      reads this
    {
      && |shards| == Pow2(exponent)
      && (forall i, key :: 0 <= i < |shards| ==> (key in shards[i] <==> key in table && Shard(key) == i))
      && (forall i, key :: 0 <= i < |shards| && key in shards[i] ==> shards[i][key] == table[key])
      && (forall key :: key in table ==> table[key] < |channels|)
    }

    constructor (shardCount: nat, hash: BlockKey -> nat)
      ensures Valid() && table == map[] && channels == []
    {
      exponent, this.hash := Exponent(Max(shardCount, 1)), hash;
      shards, channels, table := seq(Pow2(Exponent(Max(shardCount, 1))), _ => map[]), [], map[];
    }

    /** The first caller for a key owns a new channel; the others get the owner's. */
    method Register(key: BlockKey) returns (r: Registration)
      requires Valid()
      modifies `shards, `channels, `table
      ensures Valid()
      ensures key in old(table) ==> r == Waiter(old(table)[key]) && table == old(table) && channels == old(channels)
      ensures key !in old(table) ==>
        r == Owner(|old(channels)|) && table == old(table)[key := |old(channels)|] && channels == old(channels) + [None]
    {
      var i := Shard(key);
      if key in shards[i] {
        return Waiter(shards[i][key]);
      }
      var id := |channels|;
      shards, channels, table := shards[i := shards[i][key := id]], channels + [None], table[key := id];
      return Owner(id);
    }

    method Remove(key: BlockKey)
      requires Valid()
      modifies `shards, `table
      ensures Valid() && table == old(table) - {key}
    {
      var i := Shard(key);
      shards, table := shards[i := shards[i] - {key}], table - {key};
    }

    /** The shards' sizes add up to the size of the table. */
    method Len() returns (n: nat)
      requires Valid()
      ensures n == |table|
    {
      n := 0;
      ghost var seen: set<BlockKey> := {};
      for i := 0 to |shards|
        invariant forall key :: key in seen <==> key in table && Shard(key) < i
        invariant n == |seen|
      {
        assert shards[i].Keys !! seen;
        seen := seen + shards[i].Keys;
        n := n + |shards[i]|;
      }
      assert seen == table.Keys;
    }
  }

  /** `adopt` (nestor/src/fetch.rs:279-310): the probe's blocks are registered from the first on, inside
      the object, until one already has an owner; the read gets the handles of exactly those. */
  method Adopt(inflight: Inflight, keyOf: nat -> BlockKey, lo: nat, hi: nat, count: nat) returns (owned: seq<nat>)
    requires inflight.Valid() && forall i, j :: i != j ==> keyOf(i) != keyOf(j)
    modifies inflight
    ensures inflight.Valid() && lo + |owned| <= Max(lo, Min(hi, count))
    ensures forall k :: 0 <= k < |owned| ==>
      keyOf(lo + k) !in old(inflight.table) && keyOf(lo + k) in inflight.table
      && inflight.table[keyOf(lo + k)] == owned[k]
    ensures lo + |owned| < Min(hi, count) ==> keyOf(lo + |owned|) in old(inflight.table)
    ensures forall key :: key in inflight.table && key !in old(inflight.table) ==>
              exists i :: lo <= i < lo + |owned| && key == keyOf(i)
    ensures forall key :: key in old(inflight.table) ==>
              key in inflight.table && inflight.table[key] == old(inflight.table)[key]
  {
    owned := [];
    var index := lo;
    while index < Min(hi, count)
      invariant inflight.Valid() && index == lo + |owned| <= Max(lo, Min(hi, count))
      invariant forall i :: lo <= i < index ==>
        keyOf(i) !in old(inflight.table) && keyOf(i) in inflight.table && inflight.table[keyOf(i)] == owned[i - lo]
      invariant forall key :: key in inflight.table && key !in old(inflight.table) ==>
                  exists i :: lo <= i < index && key == keyOf(i)
      invariant forall key :: key in old(inflight.table) ==>
                  key in inflight.table && inflight.table[key] == old(inflight.table)[key]
    {
      var r := inflight.Register(keyOf(index));
      if r.Waiter? {
        return;
      }
      owned, index := owned + [r.channel], index + 1;
    }
  }

  class Slot {
    const key: BlockKey
    const channel: nat
    const inflight: Inflight
    var resolved: bool

    constructor (key: BlockKey, channel: nat, inflight: Inflight)
      ensures !resolved && this.key == key && this.channel == channel && this.inflight == inflight
    {
      this.key, this.channel, this.inflight, resolved := key, channel, inflight, false;
    }

    /** The entry is this slot's for as long as it is unsettled. */
    ghost predicate Owns()
      reads this, inflight
    {
      inflight.Valid() && (!resolved ==> key in inflight.table && inflight.table[key] == channel)
    }

    /** Settling takes the entry out and publishes the result, once: a slot that is already settled
        leaves the table alone, even if the key has a new owner by now. */
    method Settle(result: BlockResult)
      requires Owns()
      modifies `resolved, inflight`shards, inflight`table, inflight`channels
      ensures Owns() && resolved
      ensures old(resolved) ==> inflight.table == old(inflight.table) && inflight.channels == old(inflight.channels)
      ensures !old(resolved) ==>
        inflight.table == old(inflight.table) - {key}
        && inflight.channels == old(inflight.channels)[channel := Some(result)]
    {
      if resolved {
        return;
      }
      resolved := true;
      inflight.Remove(key);
      inflight.channels := inflight.channels[channel := Some(result)];
    }

    method Drop()
      requires Owns()
      modifies `resolved, inflight`shards, inflight`table, inflight`channels
      ensures Owns() && resolved
      ensures old(resolved) ==> inflight.table == old(inflight.table) && inflight.channels == old(inflight.channels)
      ensures !old(resolved) ==>
        inflight.table == old(inflight.table) - {key}
        && inflight.channels == old(inflight.channels)[channel := Some(Err(Cancelled))]
    {
      Settle(Err(Cancelled));
    }
  }

  /** A resolved slot dropped after its key was registered again: the new owner keeps its entry and
      its waiters, and the first waiters keep the first result. */
  method DropAfterReuse(table: Inflight, first: Slot, result: BlockResult) returns (second: Registration)
    requires first.inflight == table && first.Owns() && !first.resolved && first.channel < |table.channels|
    modifies table, first
    ensures second.Owner? && first.key in table.table && table.table[first.key] == second.channel != first.channel
    ensures first.channel < |table.channels| && table.channels[first.channel] == Some(result)
    ensures second.channel < |table.channels| && table.channels[second.channel].None?
  {
    first.Settle(result);
    second := table.Register(first.key);
    first.Drop();
  }
}
