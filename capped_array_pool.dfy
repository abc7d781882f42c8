/** `CappedArrayPool<T>`: the pool the brokers rent their temporary task
    arrays from. Bucket `i` serves arrays of length `i + 1`; each bucket has a
    cursor `tails[i]`. `Rent` hands out the array stored at the cursor (or a
    new one when that slot is empty) and advances the cursor, doubling the
    bucket when the cursor has run off its end; `Return` moves the cursor back.
    Neither ever stores an array, so a bucket only ever holds the arrays the
    constructor made. */
module ArrayPool {
  import opened Common

  /** `INITIAL_BUCKET_SIZE`. */
  const InitialBucketSize: nat := 4

  /** One bucket seen as a value: its slots (null where empty) and its cursor. */
  datatype BucketState<T> = BucketState(slots: seq<array?<T>>, tail: int)

  /** The cursor is within the bucket, and the bucket is at least its initial size. */
  predicate InRange<T>(b: BucketState<T>) {
    |b.slots| >= InitialBucketSize && 0 <= b.tail <= |b.slots|
  }

  /** The bucket for arrays of `length` elements as the constructor leaves it
      and every operation keeps it: the first four slots hold arrays of exactly
      that length, every later slot is empty. */
  ghost predicate Stocked<T>(b: BucketState<T>, length: nat) {
    && InRange(b)
    && (forall k :: 0 <= k < |b.slots| ==> (b.slots[k] != null <==> k < InitialBucketSize))
    && (forall k :: 0 <= k < |b.slots| && b.slots[k] != null ==> b.slots[k].Length == length)
  }

  /** `Array.Resize(ref bucket, bucket.Length * 2)` when the cursor has
      reached the end: existing slots keep their places, the new ones are empty. */
  function Grow<T>(slots: seq<array?<T>>, tail: int): (r: seq<array?<T>>)
    ensures |r| == if tail >= |slots| then 2 * |slots| else |slots|
    ensures r[..|slots|] == slots
    ensures forall k :: |slots| <= k < |r| ==> r[k] == null
  {
    if tail >= |slots| then slots + seq(|slots|, _ => null) else slots
  }

  /** Where a rented array comes from: the slot at the cursor, or a new allocation. */
  datatype Lease = Pooled(slot: nat) | Fresh

  /** An in-range `Rent` on one bucket: the new bucket, and where the array
      it hands out comes from. After growing, the cursor is inside the bucket,
      so the slot read is in bounds; the cursor then moves up by one. */
  function RentStep<T>(b: BucketState<T>): (res: (BucketState<T>, Lease))
    requires InRange(b)
    ensures InRange(res.0)
    ensures res.0.slots == Grow(b.slots, b.tail) && res.0.tail == b.tail + 1
    ensures b.tail < |res.0.slots|
    ensures res.1 == (if res.0.slots[b.tail] != null then Pooled(b.tail) else Fresh)
  {
    var slots := Grow(b.slots, b.tail);
    (BucketState(slots, b.tail + 1), if slots[b.tail] != null then Pooled(b.tail) else Fresh)
  }

  /** An in-range `Return` on one bucket: the cursor moves down by one, never
      below zero; the slots are untouched. */
  function ReturnStep<T>(b: BucketState<T>): (r: BucketState<T>)
    requires InRange(b)
    ensures InRange(r) && r.slots == b.slots
    ensures r.tail == if b.tail > 0 then b.tail - 1 else 0
  {
    b.(tail := if b.tail > 0 then b.tail - 1 else b.tail)
  }

  /** Renting and returning keep a bucket stocked. */
  lemma StepsKeepStock<T>(b: BucketState<T>, length: nat)
    requires Stocked(b, length)
    ensures Stocked(RentStep(b).0, length)
    ensures Stocked(ReturnStep(b), length)
  {
  }

  class CappedArrayPool<T(0)> {
    /** `EmptyArray`, the array every non-positive request gets. */
    const emptyArray: array<T>
    /** `_buckets`: the outer array is fixed, its elements are replaced on growth. */
    const buckets: array<array<array?<T>>>
    /** `_tails`. */
    const tails: array<int>

    /** Bucket `i` with its cursor, as a value. */
    ghost function Bucket(i: nat): BucketState<T>
      requires i < buckets.Length && tails.Length == buckets.Length
      reads this, buckets, tails, buckets[i]
    {
      BucketState(buckets[i][..], tails[i])
    }

    ghost predicate Valid()
      reads this, buckets, tails, set i | 0 <= i < buckets.Length :: buckets[i]
    {
      && emptyArray.Length == 0
      && tails.Length == buckets.Length
      && forall i :: 0 <= i < buckets.Length ==> Stocked(Bucket(i), i + 1)
    }

    /** `CappedArrayPool(maxLength)`: `maxLength` buckets of four arrays each,
        bucket `i` holding arrays of length `i + 1`, every cursor on the last
        slot (`_buckets[i].Length - 1`). */
    constructor (maxLength: nat)
      ensures Valid() && fresh(buckets) && fresh(tails)
      ensures buckets.Length == maxLength
      ensures forall i :: 0 <= i < maxLength ==>
                |Bucket(i).slots| == InitialBucketSize && Bucket(i).tail == InitialBucketSize - 1
    {
      emptyArray := new T[0];
      var placeholder := new array?<T>[0];
      var bs := new array<array?<T>>[maxLength](_ => placeholder);
      var ts := new int[maxLength];
      for i := 0 to maxLength
        invariant fresh(bs) && fresh(ts)
        invariant forall k :: 0 <= k < i ==> bs[k] != placeholder && bs[k].Length == InitialBucketSize
        invariant forall k :: 0 <= k < i ==> ts[k] == InitialBucketSize - 1
        invariant forall k :: 0 <= k < i ==> Stocked(BucketState(bs[k][..], ts[k]), k + 1)
      {
        var arrayLength := i + 1;
        var bucket := new array?<T>[InitialBucketSize];
        for j := 0 to InitialBucketSize
          modifies bucket
          invariant forall k :: 0 <= k < j ==> bucket[k] != null && bucket[k].Length == arrayLength
        {
          bucket[j] := new T[arrayLength];
        }
        bs[i] := bucket;
        ts[i] := bucket.Length - 1;
        assert Stocked(BucketState(bs[i][..], ts[i]), i + 1);
      }
      buckets := bs;
      tails := ts;
    }

    /** `Array.Resize` to a larger length: the old elements first, then empty slots. */
    static method Resize(a: array<array?<T>>, n: nat) returns (b: array<array?<T>>)
      requires n >= a.Length
      ensures fresh(b) && b.Length == n
      ensures b[..] == a[..] + seq(n - a.Length, _ => null)
    {
      b := new array?<T>[n](_ => null);
      for k := 0 to a.Length
        invariant forall m :: 0 <= m < k ==> b[m] == a[m]
        invariant forall m :: a.Length <= m < n ==> b[m] == null
      {
        b[k] := a[k];
      }
      assert b[..] == a[..] + seq(n - a.Length, _ => null);
    }

    /** `Rent(length)`. A non-positive length gets the shared empty array and a
        length beyond the largest bucket a new array; neither touches the pool.
        Otherwise bucket `length - 1` takes one `RentStep`: the array handed out
        is the one in the slot at the cursor, or a new one if that slot is
        empty, and has exactly `length` elements. No other bucket changes. */
    method Rent(length: int) returns (r: array<T>)
      requires Valid()
      modifies buckets, tails
      ensures Valid()
      ensures length <= 0 ==> r == emptyArray
      ensures length > buckets.Length ==> fresh(r) && r.Length == length
      ensures length <= 0 || length > buckets.Length ==> unchanged(buckets) && unchanged(tails)
      ensures 1 <= length <= buckets.Length ==> r.Length == length
      ensures 1 <= length <= buckets.Length ==>
                var step := RentStep(old(Bucket(length - 1)));
                && Bucket(length - 1) == step.0
                && (step.1.Pooled? ==> r == step.0.slots[step.1.slot])
                && (step.1.Fresh? ==> fresh(r))
      ensures forall j :: 0 <= j < buckets.Length && j != length - 1 ==>
                buckets[j] == old(buckets[j]) && Bucket(j) == old(Bucket(j))
    {
      if length <= 0 {
        return emptyArray;
      }
      if length > buckets.Length {
        r := new T[length];
        return;
      }
      r := RentFrom(length - 1);
    }

    /** The in-range part of `Rent`, on bucket `i`. */
    method RentFrom(i: nat) returns (r: array<T>)
      requires Valid() && i < buckets.Length
      modifies buckets, tails
      ensures Valid()
      ensures r.Length == i + 1
      ensures var step := RentStep(old(Bucket(i)));
              && Bucket(i) == step.0
              && (step.1.Pooled? ==> r == step.0.slots[step.1.slot])
              && (step.1.Fresh? ==> fresh(r))
      ensures forall j :: 0 <= j < buckets.Length && j != i ==>
                buckets[j] == old(buckets[j]) && Bucket(j) == old(Bucket(j))
    {
      ghost var before := Bucket(i);
      StepsKeepStock(before, i + 1);
      var bucket := buckets[i];
      var tail := tails[i];
      if tail >= bucket.Length {
        bucket := Resize(bucket, bucket.Length * 2);
        buckets[i] := bucket;
      }
      assert bucket[..] == RentStep(before).0.slots;
      var slot := bucket[tail];
      if slot == null {
        r := new T[i + 1];
      } else {
        r := slot;
      }
      tails[i] := tail + 1;
      assert Bucket(i) == RentStep(before).0;
      forall j | 0 <= j < buckets.Length && j != i
        ensures buckets[j] == old(buckets[j]) && Bucket(j) == old(Bucket(j))
      {
        assert buckets[j][..] == old(buckets[j][..]);
      }
    }

    /** `Return(array)`. An array of length 0 or longer than the largest bucket
        is ignored; otherwise the cursor of its bucket takes one `ReturnStep`.
        The array itself is never stored. */
    method Return(a: array<T>)
      requires Valid()
      modifies tails
      ensures Valid()
      ensures a.Length == 0 || a.Length > buckets.Length ==> unchanged(tails)
      ensures 1 <= a.Length <= buckets.Length ==> Bucket(a.Length - 1) == ReturnStep(old(Bucket(a.Length - 1)))
      ensures forall j :: 0 <= j < buckets.Length && j != a.Length - 1 ==> tails[j] == old(tails[j])
      ensures forall j :: 0 <= j < buckets.Length ==> Bucket(j).slots == old(Bucket(j).slots)
    {
      if a.Length <= 0 || a.Length > buckets.Length {
        return;
      }
      var i := a.Length - 1;
      ghost var before := Bucket(i);
      StepsKeepStock(before, a.Length);
      if tails[i] > 0 {
        tails[i] := tails[i] - 1;
      }
      assert Bucket(i) == ReturnStep(before);
      forall j | 0 <= j < buckets.Length
        ensures Stocked(Bucket(j), j + 1)
      {
        if j != i {
          assert Bucket(j) == old(Bucket(j));
        }
      }
    }
  }

  // A client of one bucket: a sequence of rentals and returns, each return
  // giving back one array that is still out.

  datatype PoolOp = Take | Give(k: nat)

  /** The bucket and the leases still out, oldest first. */
  datatype Client<T> = Client(bucket: BucketState<T>, out: seq<Lease>)

  function Step<T>(c: Client<T>, op: PoolOp): (r: Option<Client<T>>)
    requires InRange(c.bucket)
    ensures r.Some? ==> InRange(r.value.bucket)
    ensures r.None? <==> op.Give? && op.k >= |c.out|
  {
    match op
    case Take =>
      var step := RentStep(c.bucket);
      Some(Client(step.0, c.out + [step.1]))
    case Give(k) =>
      if k < |c.out| then Some(Client(ReturnStep(c.bucket), c.out[..k] + c.out[k + 1..])) else None
  }

  /** The client state after `ops`, or None if some return gives back an
      array that is not out. */
  function Replay<T>(c: Client<T>, ops: seq<PoolOp>): Option<Client<T>>
    requires InRange(c.bucket)
    decreases |ops|
  {
    if ops == [] then Some(c)
    else match Step(c, ops[0])
      case None => None
      case Some(next) => Replay(next, ops[1..])
  }

  /** A bucket used by a matched client: stocked, its cursor three plus the
      number of arrays out, and the only pooled array that can be out is the
      one in slot 3, handed out when nothing else was. */
  ghost predicate Balanced<T>(c: Client<T>, length: nat) {
    && Stocked(c.bucket, length)
    && c.bucket.tail == InitialBucketSize - 1 + |c.out|
    && forall j :: 0 <= j < |c.out| && c.out[j].Pooled? ==> j == 0 && c.out[j].slot == InitialBucketSize - 1
  }

  /** A fresh bucket with nothing out is balanced. */
  lemma ConstructedIsBalanced<T>(b: BucketState<T>, length: nat)
    requires Stocked(b, length) && b.tail == InitialBucketSize - 1
    ensures Balanced(Client(b, []), length)
  {
  }

  /** With a matched client, a rental hands out the pooled array exactly when
      nothing is out, and a new array otherwise. */
  lemma TakeLease<T>(c: Client<T>, length: nat)
    requires Balanced(c, length)
    ensures RentStep(c.bucket).1 == if c.out == [] then Pooled(InitialBucketSize - 1) else Fresh
  {
  }

  lemma StepKeepsBalance<T>(c: Client<T>, op: PoolOp, length: nat)
    requires Balanced(c, length)
    ensures Step(c, op).Some? ==> Balanced(Step(c, op).value, length)
  {
  }

  /** Matched use keeps a bucket balanced, so no two arrays out at the same
      time are ever the same pooled array. */
  lemma {:induction false} MatchedUseNeverShares<T>(c: Client<T>, ops: seq<PoolOp>, length: nat)
    requires Balanced(c, length)
    ensures Replay(c, ops).Some? ==> Balanced(Replay(c, ops).value, length)
    ensures Replay(c, ops).Some? ==>
              var out := Replay(c, ops).value.out;
              forall i, j :: 0 <= i < j < |out| ==> !(out[i].Pooled? && out[j].Pooled?)
    decreases |ops|
  {
    if ops != [] {
      StepKeepsBalance(c, ops[0], length);
      match Step(c, ops[0])
      case None =>
      case Some(next) =>
        MatchedUseNeverShares(next, ops[1..], length);
    }
  }
}
