/**
 * The accumulation rule of one Octcode bucket, on values: a bucket holds the
 * last bit, the running sum and its messages, and every add advances the bit
 * (a JavaScript 32-bit `<< 1`), adds the new bit to the sum and appends one
 * message. Also the per-bucket view of a whole run of adds, in which every
 * bucket evolves independently of the others.
 */
module BucketSignature {
  import opened Wrappers

  const DefaultMessage := "unknown error"
  const TwoTo30: int := 0x4000_0000
  const TwoTo31: int := 0x8000_0000
  const TwoTo32: int := 0x1_0000_0000

  /** What one bucket has accumulated: last bit, running sum, messages in insertion order. */
  datatype Snapshot = Snapshot(bit: int, sum: int, msg: seq<string>)

  /** The state of a bucket nothing has been added to. */
  const Zero := Snapshot(0, 0, [])

  function Pow2(k: nat): (r: nat)
    ensures r >= 1
  {
    if k == 0 then 1 else 2 * Pow2(k - 1)
  }

  lemma {:induction false} Pow2Monotone(a: nat, b: nat)
    requires a <= b
    ensures Pow2(a) <= Pow2(b)
    decreases b
  {
    if a < b {
      Pow2Monotone(a, b - 1);
    }
  }

  lemma Pow2Thirty()
    ensures Pow2(30) == TwoTo30
  {
    assert Pow2(10) == 1024;
    assert Pow2(20) == 1024 * Pow2(10) by { Pow2Shift(10, 10); }
    assert Pow2(30) == 1024 * Pow2(20) by { Pow2Shift(10, 20); }
  }

  lemma {:induction false} Pow2Shift(a: nat, b: nat)
    ensures Pow2(a + b) == Pow2(a) * Pow2(b)
    decreases a
  {
    if a > 0 {
      Pow2Shift(a - 1, b);
    }
  }

  /** ECMAScript ToInt32 on an integer value: reduce modulo 2^32 into [-2^31, 2^31). */
  function ToInt32(x: int): (r: int)
    ensures -TwoTo31 <= r < TwoTo31
    ensures (x - r) % TwoTo32 == 0
    ensures -TwoTo31 <= x < TwoTo31 ==> r == x
  {
    var m := x % TwoTo32;
    if m >= TwoTo31 then m - TwoTo32 else m
  }

  /** The JavaScript expression `b << 1`. */
  function ShiftLeft1(b: int): (r: int)
    ensures -TwoTo31 <= r < TwoTo31
    ensures -TwoTo30 <= b < TwoTo30 ==> r == 2 * b
  {
    ToInt32(ToInt32(b) * 2)
  }

  /** `errorMessage || 'unknown error'`: an omitted or empty message is replaced by the default. */
  function MessageOrDefault(m: Option<string>): (r: string)
    ensures r != ""
    ensures m.Some? && m.value != "" ==> r == m.value
    ensures m.None? || m.value == "" ==> r == DefaultMessage
  {
    if m.Some? && m.value != "" then m.value else DefaultMessage
  }

  /** The messages a sequence of adds appends, defaults filled in. */
  function Defaulted(ms: seq<Option<string>>): (r: seq<string>)
    ensures |r| == |ms|
  {
    if ms == [] then [] else [MessageOrDefault(ms[0])] + Defaulted(ms[1..])
  }

  /** One add into bucket `b`: the first bit is 1, every later bit is the previous one shifted left. */
  function BucketAdd(b: Snapshot, m: Option<string>): (r: Snapshot)
    ensures r.msg == b.msg + [MessageOrDefault(m)]
  {
    var msg := b.msg + [MessageOrDefault(m)];
    if b.bit == 0 then Snapshot(1, 1, msg)
    else
      var bit := ShiftLeft1(b.bit);
      Snapshot(bit, b.sum + bit, msg)
  }

  /** The adds `ms` applied to bucket `b`, in order. */
  function Replay(b: Snapshot, ms: seq<Option<string>>): Snapshot
    decreases |ms|
  {
    if ms == [] then b else Replay(BucketAdd(b, ms[0]), ms[1..])
  }

  /** Replaying two runs of adds one after the other is replaying their concatenation. */
  lemma {:induction false} ReplayConcat(b: Snapshot, ms1: seq<Option<string>>, ms2: seq<Option<string>>)
    ensures Replay(b, ms1 + ms2) == Replay(Replay(b, ms1), ms2)
    decreases |ms1|
  {
    if ms1 == [] {
      assert ms1 + ms2 == ms2;
    } else {
      assert (ms1 + ms2)[0] == ms1[0];
      assert (ms1 + ms2)[1..] == ms1[1..] + ms2;
      ReplayConcat(BucketAdd(b, ms1[0]), ms1[1..], ms2);
    }
  }

  /**
   * The bit after n adds into a fresh bucket, in closed form. The bit doubles
   * up to 2^30; the 32nd add shifts it to -2^31 (32-bit wrap-around) and the
   * 33rd to 0, after which the next add starts over at 1: the cycle is 33 long.
   */
  function BitAfter(n: nat): int
  {
    if n == 0 then 0
    else
      var p := (n - 1) % 33;
      if p <= 30 then Pow2(p) else if p == 31 then -TwoTo31 else 0
  }

  /** The sum after n adds into a fresh bucket: 2^n - 1 for n <= 31, then -1 twice, then the cycle repeats. */
  function SumAfter(n: nat): int
  {
    if n == 0 then 0
    else
      var p := (n - 1) % 33;
      if p <= 30 then Pow2(p + 1) - 1 else -1
  }

  lemma PhaseStep(n: nat)
    requires n >= 1
    ensures n % 33 == if (n - 1) % 33 == 32 then 0 else (n - 1) % 33 + 1
  {
    var q := (n - 1) / 33;
    var p := (n - 1) % 33;
    assert n - 1 == 33 * q + p;
    if p == 32 {
      assert n == 33 * (q + 1);
    } else {
      assert n == 33 * q + (p + 1);
    }
  }

  /** One add moves a bucket holding the signature of n adds to the signature of n + 1 adds. */
  lemma BucketAddStep(n: nat, b: Snapshot, m: Option<string>)
    requires b.bit == BitAfter(n) && b.sum == SumAfter(n)
    ensures BucketAdd(b, m).bit == BitAfter(n + 1)
    ensures BucketAdd(b, m).sum == SumAfter(n + 1)
  {
    if n == 0 {
      assert (n + 1 - 1) % 33 == 0;
    } else {
      var p := (n - 1) % 33;
      PhaseStep(n);
      Pow2Thirty();
      if p <= 29 {
        Pow2Monotone(p, 29);
        Pow2Shift(1, 29);
        assert ShiftLeft1(b.bit) == Pow2(p + 1);
      } else if p == 30 {
        assert ShiftLeft1(b.bit) == -TwoTo31;
      } else if p == 31 {
        assert ShiftLeft1(b.bit) == 0;
      }
    }
  }

  /** Replaying adds from a bucket holding the signature of n adds continues the closed form. */
  lemma {:induction false} ReplayCounts(b: Snapshot, n: nat, ms: seq<Option<string>>)
    requires b.bit == BitAfter(n) && b.sum == SumAfter(n)
    ensures Replay(b, ms).bit == BitAfter(n + |ms|)
    ensures Replay(b, ms).sum == SumAfter(n + |ms|)
    decreases |ms|
  {
    if ms != [] {
      var b' := BucketAdd(b, ms[0]);
      BucketAddStep(n, b, ms[0]);
      ReplayCounts(b', n + 1, ms[1..]);
      assert n + 1 + |ms[1..]| == n + |ms|;
    }
  }

  /** Replaying adds appends their messages, defaults filled in, in order. */
  lemma {:induction false} ReplayMessages(b: Snapshot, ms: seq<Option<string>>)
    ensures Replay(b, ms).msg == b.msg + Defaulted(ms)
    decreases |ms|
  {
    if ms != [] {
      var b' := BucketAdd(b, ms[0]);
      ReplayMessages(b', ms[1..]);
      assert b'.msg + Defaulted(ms[1..]) == b.msg + Defaulted(ms);
    }
  }

  /**
   * After n adds into a fresh bucket, with n between 1 and 31, the bit is
   * 2^(n-1), the sum is 2^n - 1 and the messages are those added, in order.
   */
  lemma SumAfterAdds(ms: seq<Option<string>>)
    requires 1 <= |ms| <= 31
    ensures Replay(Zero, ms).bit == Pow2(|ms| - 1)
    ensures Replay(Zero, ms).sum == Pow2(|ms|) - 1
    ensures Replay(Zero, ms).msg == Defaulted(ms)
  {
    ReplayFromZero(ms);
    ClosedFormBelowWrap(|ms|);
    ReplayMessages(Zero, ms);
  }

  lemma ClosedFormBelowWrap(n: nat)
    requires 1 <= n <= 31
    ensures BitAfter(n) == Pow2(n - 1) && SumAfter(n) == Pow2(n) - 1
  {
    assert (n - 1) % 33 == n - 1;
  }

  /** The 32-bit shift makes the 32nd and 33rd adds give sum -1 and the 34th start over at 1. */
  lemma SumWrapsAround(ms: seq<Option<string>>)
    requires 32 <= |ms| <= 34
    ensures |ms| == 32 ==> Replay(Zero, ms).bit == -TwoTo31 && Replay(Zero, ms).sum == -1
    ensures |ms| == 33 ==> Replay(Zero, ms).bit == 0 && Replay(Zero, ms).sum == -1
    ensures |ms| == 34 ==> Replay(Zero, ms).bit == 1 && Replay(Zero, ms).sum == 1
  {
    var n := |ms|;
    ReplayFromZero(ms);
    if n == 32 {
      assert (n - 1) % 33 == 31;
    } else if n == 33 {
      assert (n - 1) % 33 == 32;
    } else {
      assert (n - 1) % 33 == 0;
    }
  }

  lemma ReplayFromZero(ms: seq<Option<string>>)
    ensures Replay(Zero, ms).bit == BitAfter(|ms|) && Replay(Zero, ms).sum == SumAfter(|ms|)
  {
    ReplayCounts(Zero, 0, ms);
    assert 0 + |ms| == |ms|;
  }

  // ---------------------------------------------------------------------
  // Runs of adds over many buckets, as the corrected accumulator performs them

  /** One add of a run: the bucket key and the (possibly omitted) message. */
  datatype Event = Event(status: int, message: Option<string>)

  /** The bucket a key names, or a fresh one. */
  function Lookup(buckets: map<int, Snapshot>, k: int): (b: Snapshot)
    ensures k !in buckets ==> b == Zero
  {
    if k in buckets then buckets[k] else Zero
  }

  /**
   * One add on the map of all buckets: `add(k, m)` advances bucket k (resumed
   * from where it was left, or fresh); `add(undefined, m)` starts bucket 0 over.
   */
  function Step(buckets: map<int, Snapshot>, status: Option<int>, m: Option<string>): (r: map<int, Snapshot>)
    ensures r.Keys == buckets.Keys + {if status.Some? then status.value else 0}
    ensures forall k :: k in buckets && status != Some(k) && (status.Some? || k != 0) ==> r[k] == buckets[k]
  {
    match status
    case Some(k) => buckets[k := BucketAdd(Lookup(buckets, k), m)]
    case None => buckets[0 := BucketAdd(Zero, m)]
  }

  /** A run of adds with given keys. */
  function Run(buckets: map<int, Snapshot>, t: seq<Event>): map<int, Snapshot>
    decreases |t|
  {
    if t == [] then buckets else Run(Step(buckets, Some(t[0].status), t[0].message), t[1..])
  }

  /** The messages of the adds in `t` that go to bucket k, in order. */
  function MessagesFor(t: seq<Event>, k: int): (ms: seq<Option<string>>)
    ensures |ms| <= |t|
  {
    if t == [] then []
    else (if t[0].status == k then [t[0].message] else []) + MessagesFor(t[1..], k)
  }

  lemma {:induction false} MessagesForConcat(t1: seq<Event>, t2: seq<Event>, k: int)
    ensures MessagesFor(t1 + t2, k) == MessagesFor(t1, k) + MessagesFor(t2, k)
    decreases |t1|
  {
    if t1 == [] {
      assert t1 + t2 == t2;
    } else {
      assert (t1 + t2)[0] == t1[0];
      assert (t1 + t2)[1..] == t1[1..] + t2;
      MessagesForConcat(t1[1..], t2, k);
      var head: seq<Option<string>> := if t1[0].status == k then [t1[0].message] else [];
      assert MessagesFor(t1 + t2, k) == head + (MessagesFor(t1[1..], k) + MessagesFor(t2, k));
      assert MessagesFor(t1, k) == head + MessagesFor(t1[1..], k);
    }
  }

  lemma {:induction false} MessagesForOthers(t: seq<Event>, k: int)
    requires forall i :: 0 <= i < |t| ==> t[i].status != k
    ensures MessagesFor(t, k) == []
    decreases |t|
  {
    if t != [] {
      MessagesForOthers(t[1..], k);
    }
  }

  /**
   * Resumption: after a run of adds, bucket k holds exactly what replaying
   * the adds addressed to k gives, whatever was added to other buckets in
   * between.
   */
  lemma {:induction false} Resumption(buckets: map<int, Snapshot>, t: seq<Event>, k: int)
    ensures Lookup(Run(buckets, t), k) == Replay(Lookup(buckets, k), MessagesFor(t, k))
    decreases |t|
  {
    if t != [] {
      var e := t[0];
      var next := Step(buckets, Some(e.status), e.message);
      Resumption(next, t[1..], k);
      if e.status == k {
        var ms := MessagesFor(t, k);
        assert ms == [e.message] + MessagesFor(t[1..], k);
        assert ms[0] == e.message && ms[1..] == MessagesFor(t[1..], k);
      } else {
        assert MessagesFor(t, k) == MessagesFor(t[1..], k);
      }
    }
  }

  /** A bucket exists after a run exactly when it existed before or some add of the run named it. */
  lemma {:induction false} RunKeys(buckets: map<int, Snapshot>, t: seq<Event>, k: int)
    ensures k in Run(buckets, t) <==> k in buckets || exists i :: 0 <= i < |t| && t[i].status == k
    decreases |t|
  {
    if t != [] {
      var next := Step(buckets, Some(t[0].status), t[0].message);
      RunKeys(next, t[1..], k);
      if exists i :: 0 <= i < |t| && t[i].status == k {
        var i :| 0 <= i < |t| && t[i].status == k;
        if i > 0 {
          assert t[1..][i - 1].status == k;
        }
      }
      if exists i :: 0 <= i < |t[1..]| && t[1..][i].status == k {
        var i :| 0 <= i < |t[1..]| && t[1..][i].status == k;
        assert t[i + 1].status == k;
      }
    }
  }

  /** Interleaving adds to other buckets leaves bucket k exactly as it would have been without them. */
  lemma Interleaving(buckets: map<int, Snapshot>, before: seq<Event>, others: seq<Event>, after: seq<Event>, k: int)
    requires forall i :: 0 <= i < |others| ==> others[i].status != k
    ensures Lookup(Run(buckets, before + others + after), k) == Lookup(Run(buckets, before + after), k)
  {
    Resumption(buckets, before + others + after, k);
    Resumption(buckets, before + after, k);
    MessagesForConcat(before + others, after, k);
    MessagesForConcat(before, others, k);
    MessagesForConcat(before, after, k);
    MessagesForOthers(others, k);
    assert MessagesFor(before + others, k) == MessagesFor(before, k);
  }

  /** Bucket k after a run from scratch: the closed-form signature of as many adds as named k. */
  lemma RunSignature(buckets: map<int, Snapshot>, t: seq<Event>, k: int)
    requires k !in buckets
    ensures Lookup(Run(buckets, t), k).bit == BitAfter(|MessagesFor(t, k)|)
    ensures Lookup(Run(buckets, t), k).sum == SumAfter(|MessagesFor(t, k)|)
    ensures Lookup(Run(buckets, t), k).msg == Defaulted(MessagesFor(t, k))
  {
    Resumption(buckets, t, k);
    ReplayCounts(Zero, 0, MessagesFor(t, k));
    ReplayMessages(Zero, MessagesFor(t, k));
  }
}
