/** Fanning an upload out into map jobs, and what the shards cover. */
module Publishing {
  import opened Common
  import opened Protocol

  const DEFAULT_SHARD_SIZE := 25_000

  function SizeUsed(shardSize: int): (size: int)
    ensures size > 0
  {
    if shardSize <= 0 then DEFAULT_SHARD_SIZE else shardSize
  }

  /** Go's integer division, which truncates; the divisor here is always positive. */
  function Quotient(x: int, y: int): int
    requires y > 0
  {
    if x >= 0 then x / y else -(-x / y)
  }

  function ShardsFor(entryCount: int, shardSize: int): (shards: nat)
    ensures shards >= 1
  {
    var size := SizeUsed(shardSize);
    var shards := Quotient(entryCount + size - 1, size);
    if shards < 1 then 1 else shards
  }

  lemma SmallQuotient(x: nat, y: nat)
    requires x < y
    ensures x / y == 0
  {}

  lemma QuotientPositive(x: nat, y: nat)
    requires x >= y > 0
    ensures x / y >= 1
  {}

  lemma ShardsEnough(n: nat, shardSize: int)
    ensures var size, shards := SizeUsed(shardSize), ShardsFor(n, shardSize);
      && n <= shards * size
      && (n > 0 ==> (shards - 1) * size < n)
      && (n == 0 ==> shards == 1)
  {
    var size := SizeUsed(shardSize);
    var q := (n + size - 1) / size;
    assert n + size - 1 == q * size + (n + size - 1) % size;
    if n == 0 {
      assert q == 0 by {
        SmallQuotient(size - 1, size);
      }
    } else {
      QuotientPositive(n + size - 1, size);
      assert (q - 1) * size == q * size - size;
    }
  }

  lemma NoneToShard(entryCount: int, shardSize: int)
    requires entryCount < 0
    ensures ShardsFor(entryCount, shardSize) == 1
  {
    var size := SizeUsed(shardSize);
    var x := entryCount + size - 1;
    if x >= 0 {
      SmallQuotient(x, size);
    } else {
      assert Quotient(x, size) <= 0;
    }
  }

  lemma ShardsFit(entryCount: int, shardSize: int)
    ensures var size, shards := SizeUsed(shardSize), ShardsFor(entryCount, shardSize);
      entryCount <= shards * size && (shards > 1 ==> (shards - 1) * size < entryCount)
  {
    if entryCount >= 0 {
      ShardsEnough(entryCount, shardSize);
    } else {
      NoneToShard(entryCount, shardSize);
    }
  }

  /** As many jobs of one size as it takes to reach every row, and one at least; 25,000 rows each unless told otherwise. */
  ghost predicate Fanned(entryCount: int, shardSize: int, shards: nat, queue: seq<Job>) {
    var size := if shardSize <= 0 then 25_000 else shardSize;
    && 1 <= shards <= |queue| && entryCount <= shards * size && (shards > 1 ==> (shards - 1) * size < entryCount)
    && forall k: nat :: k < shards ==> queue[shards - 1 - k] == MapJob(k, shards, k * size, size)
  }

  /** The job list and the pending counter of one analysis, as Redis holds them. */
  class Redis {
    var queue: seq<Job>
    var pending: Option<int>

    /** Sets the counter and pushes one map job a shard, in one transaction. */
    method PublishAnalysis(entryCount: int, shardSize: int) returns (shards: nat)
      modifies this
      ensures shards == ShardsFor(entryCount, shardSize)
      ensures pending == Some(shards)
      ensures |queue| == shards + |old(queue)| && queue[shards..] == old(queue)
      ensures Fanned(entryCount, shardSize, shards, queue)
      ensures forall k: nat :: k < shards ==>
        queue[shards - 1 - k] == MapJob(k, shards, k * SizeUsed(shardSize), SizeUsed(shardSize))
    {
      var size := shardSize;
      if size <= 0 {
        size := DEFAULT_SHARD_SIZE;
      }
      var count := Quotient(entryCount + size - 1, size);
      if count < 1 {
        count := 1;
      }
      shards := count;
      pending := Some(shards);
      for i := 0 to shards
        invariant pending == Some(shards)
        invariant |queue| == i + |old(queue)| && queue[i..] == old(queue)
        invariant forall k: nat :: k < i ==> queue[i - 1 - k] == MapJob(k, shards, k * size, size)
      {
        queue := [MapJob(i, shards, i * size, size)] + queue;
      }
      ShardsFit(entryCount, shardSize);
    }
  }

  /** What is pushed onto an empty list is the protocol's starting queue. */
  lemma PublishedQueue<P>(a: Analysis<P>, queue: seq<Job>)
    requires |queue| == a.shards && forall k: nat :: k < a.shards ==> queue[a.shards - 1 - k] == JobOf(a, k)
    ensures queue == Published(a)
  {
    forall i | 0 <= i < a.shards ensures queue[i] == Published(a)[i] {
      var k: nat := a.shards - 1 - i;
      assert queue[a.shards - 1 - k] == JobOf(a, k);
    }
  }

  // --- What the shards cover ---

  /** Rows ordered by line number, with LIMIT and OFFSET. */
  function Slice<T>(rows: seq<T>, offset: int, limit: int): seq<T> {
    if offset < 0 || limit < 0 || offset >= |rows| then []
    else if offset + limit >= |rows| then rows[offset..] else rows[offset..offset + limit]
  }

  function Slices<T>(rows: seq<T>, shards: nat, size: int): seq<seq<T>> {
    seq(shards, k requires 0 <= k < shards => Slice(rows, k * size, size))
  }

  function Prefix<T>(rows: seq<T>, n: nat): seq<T> {
    if n >= |rows| then rows else rows[..n]
  }

  lemma PrefixGrows<T>(rows: seq<T>, n: nat, size: nat)
    ensures Prefix(rows, n) + Slice(rows, n, size) == Prefix(rows, n + size)
  {}

  lemma NextProduct(k: nat, size: nat)
    requires k > 0
    ensures k * size == (k - 1) * size + size && (k - 1) * size >= 0
  {}

  /** The first `k` slices are the first `k` times `size` rows. */
  lemma {:induction false} SlicesTile<T>(rows: seq<T>, k: nat, size: nat)
    ensures Flatten(Slices(rows, k, size)) == Prefix(rows, k * size)
  {
    if k > 0 {
      var slices, n := Slices(rows, k, size), (k - 1) * size;
      SlicesTile(rows, k - 1, size);
      assert slices[..k - 1] == Slices(rows, k - 1, size);
      assert slices[k - 1] == Slice(rows, n, size);
      PrefixGrows(rows, n, size);
      NextProduct(k, size);
    } else {
      assert Prefix(rows, 0) == [];
    }
  }

  /** The published slices, laid end to end, are the upload: no row is missed, none is read twice. */
  lemma SlicesCover<T>(rows: seq<T>, shardSize: int)
    ensures Flatten(Slices(rows, ShardsFor(|rows|, shardSize), SizeUsed(shardSize))) == rows
  {
    ShardsEnough(|rows|, shardSize);
    SlicesTile(rows, ShardsFor(|rows|, shardSize), SizeUsed(shardSize));
  }

  lemma ProductOrder(a: nat, b: nat, size: nat)
    requires a <= b
    ensures a * size <= b * size
  {}

  /** No shard is empty unless the upload is. */
  lemma NoEmptySlice<T>(rows: seq<T>, shardSize: int, k: nat)
    requires |rows| > 0 && k < ShardsFor(|rows|, shardSize)
    ensures Slice(rows, k * SizeUsed(shardSize), SizeUsed(shardSize)) != []
  {
    ShardsEnough(|rows|, shardSize);
    var size, shards := SizeUsed(shardSize), ShardsFor(|rows|, shardSize);
    ProductOrder(k, shards - 1, size);
  }

  lemma QuotientUnique(i: nat, size: nat, k: nat)
    requires size > 0
    ensures k * size <= i < k * size + size <==> k == i / size
  {
    var q := i / size;
    assert i == q * size + i % size;
    if k < q {
      NextProduct(k + 1, size);
      ProductOrder(k + 1, q, size);
    } else if k > q {
      NextProduct(q + 1, size);
      ProductOrder(q + 1, k, size);
    }
  }

  /** What a slice holds, position by position. */
  lemma SliceAt<T>(rows: seq<T>, offset: nat, limit: nat, j: nat)
    requires j < |Slice(rows, offset, limit)|
    ensures offset + j < |rows| && Slice(rows, offset, limit)[j] == rows[offset + j]
  {}

  /** Row `i` is in slice `i / size`, at position `i % size`, and in no other slice. */
  lemma OneSlice<T>(rows: seq<T>, shardSize: int, i: nat, k: nat)
    requires i < |rows|
    ensures var size, part := SizeUsed(shardSize), Slice(rows, k * SizeUsed(shardSize), SizeUsed(shardSize));
      (k * size <= i < k * size + |part|) <==> k == i / size
    ensures var size := SizeUsed(shardSize);
      var part := Slice(rows, i / size * size, size);
      i / size < ShardsFor(|rows|, shardSize) && i % size < |part| && part[i % size] == rows[i]
  {
    var size, shards := SizeUsed(shardSize), ShardsFor(|rows|, shardSize);
    ShardsEnough(|rows|, shardSize);
    QuotientUnique(i, size, k);
    QuotientUnique(i, size, i / size);
    assert i == i / size * size + i % size;
    SliceAt(rows, i / size * size, size, i % size);
    if i / size >= shards {
      ProductOrder(shards, i / size, size);
    }
  }
}
