/**
 * The Octcode accumulator of lib/octcode.js: an object that groups error
 * messages into buckets keyed by a status code, keeps a running power-of-two
 * signature per bucket, and saves the bucket it leaves in a history map so
 * that a later add can resume it.
 *
 * JavaScript arrays are shared by reference, and the code both saves and
 * restores the live `messages` array without copying it. The message arrays
 * therefore live in a store, `lists`, and the live state and every saved
 * entry refer to one of them by its index.
 */
module Octcode {
  import opened Wrappers
  import opened Text
  import opened BucketSignature

  const DefaultDelimiter := ","

  /** A history entry `{bit, sum, msg}`; `msg` refers to a message array in `State.lists`. */
  datatype Saved = Saved(bit: int, sum: int, msg: nat)

  /** Everything an Octcode object holds besides its namespace and delimiter. */
  datatype State = State(
    currentStatus: int,
    currentBit: int,
    sum: int,
    messages: nat,
    history: map<int, Saved>,
    lists: seq<seq<string>>)

  /** What `add` and `get` return on success. */
  datatype Signature = Signature(code: string, errors: string)

  /** Every reference to a message array points into the store. */
  predicate WellFormed(st: State) {
    st.messages < |st.lists| &&
    forall k :: k in st.history ==> st.history[k].msg < |st.lists|
  }

  /** The state right after construction: status 0, nothing added, empty history. */
  const Fresh := State(0, 0, 0, 0, map[], [[]])

  /** `status || 0` for a status that may be omitted. */
  function StatusOrZero(status: Option<int>): (s: int)
    ensures status.Some? ==> s == status.value
    ensures status.None? ==> s == 0
  {
    if status.Some? then status.value else 0
  }

  /** How a status is written into a code: its decimal digits, or `undefined` when omitted. */
  function KeyText(status: Option<int>): string
  {
    match status
    case Some(k) => IntToString(k)
    case None => "undefined"
  }

  /** The signature of a bucket: namespace, key and sum written one after the other, and the joined messages. */
  function Render(namespace: string, delimiter: string, key: string, b: Snapshot): Signature
  {
    Signature(namespace + key + IntToString(b.sum), Join(b.msg, delimiter))
  }

  // ---------------------------------------------------------------------
  // Abstract view: the bucket every key stands for

  function LiveBucket(st: State): Snapshot
    requires WellFormed(st)
  {
    Snapshot(st.currentBit, st.sum, st.lists[st.messages])
  }

  function SavedBucket(st: State, k: int): Snapshot
    requires WellFormed(st) && k in st.history
  {
    var h := st.history[k];
    Snapshot(h.bit, h.sum, st.lists[h.msg])
  }

  /** The saved buckets, with the live state standing for the current status. */
  function Buckets(st: State): (b: map<int, Snapshot>)
    requires WellFormed(st)
    ensures b.Keys == st.history.Keys + {st.currentStatus}
    ensures b[st.currentStatus] == LiveBucket(st)
    ensures forall k :: k in st.history && k != st.currentStatus ==> b[k] == SavedBucket(st, k)
  {
    (map k | k in st.history :: SavedBucket(st, k))[st.currentStatus := LiveBucket(st)]
  }

  /**
   * No two buckets share a message array, except that a stale history entry
   * for the current status may share the live one.
   */
  predicate Owned(st: State)
    requires WellFormed(st)
  {
    (forall k :: k in st.history && k != st.currentStatus ==> st.history[k].msg != st.messages) &&
    (forall k1, k2 ::
       k1 in st.history && k2 in st.history && k1 != k2 && k1 != st.currentStatus && k2 != st.currentStatus
       ==> st.history[k1].msg != st.history[k2].msg)
  }

  // ---------------------------------------------------------------------
  // The operations, as state transitions

  /** `init(status)`: a new, empty message array becomes the live one; history is left alone. */
  function InitState(st: State, status: Option<int>): (r: State)
    requires WellFormed(st)
    ensures WellFormed(r)
    ensures r.currentStatus == StatusOrZero(status)
    ensures LiveBucket(r) == Zero
    ensures r.history == st.history
    ensures r.messages == |st.lists| && r.lists[..|st.lists|] == st.lists
  {
    st.(currentStatus := StatusOrZero(status), currentBit := 0, sum := 0,
        messages := |st.lists|, lists := st.lists + [[]])
  }

  /** The live bucket written into `history[currentStatus]`, sharing the live message array. */
  function SaveCurrent(st: State): (r: State)
    requires WellFormed(st)
    ensures WellFormed(r)
  {
    st.(history := st.history[st.currentStatus := Saved(st.currentBit, st.sum, st.messages)])
  }

  /**
   * The bucket switch of `add` as written: save the live bucket, then either
   * restore bit, sum and message array from history (leaving `currentStatus`
   * as it was) or start a fresh bucket with `init`.
   */
  function SwitchAsWritten(st: State, status: Option<int>): (r: State)
    requires WellFormed(st)
    ensures WellFormed(r)
  {
    if status == Some(st.currentStatus) then st
    else
      var saved := SaveCurrent(st);
      if status.Some? && status.value in saved.history then
        var k: int := status.value;
        var h := saved.history[k];
        assert h.msg < |saved.lists|;
        saved.(currentBit := h.bit, sum := h.sum, messages := h.msg)
      else
        InitState(saved, status)
  }

  /** The same switch with `currentStatus` set to the restored status. */
  function SwitchResuming(st: State, status: Option<int>): (r: State)
    requires WellFormed(st)
    ensures WellFormed(r)
  {
    if status == Some(st.currentStatus) then st
    else
      var saved := SaveCurrent(st);
      if status.Some? && status.value in saved.history then
        var k: int := status.value;
        var h := saved.history[k];
        assert h.msg < |saved.lists|;
        saved.(currentStatus := k, currentBit := h.bit, sum := h.sum, messages := h.msg)
      else
        InitState(saved, status)
  }

  /** The bit/sum advance and the push onto the live message array. */
  function Accumulate(st: State, m: Option<string>): (r: State)
    requires WellFormed(st)
    ensures WellFormed(r)
    ensures LiveBucket(r) == BucketAdd(LiveBucket(st), m)
    ensures r.currentStatus == st.currentStatus && r.history == st.history && r.messages == st.messages
    ensures |r.lists| == |st.lists|
    ensures forall i :: 0 <= i < |st.lists| && i != st.messages ==> r.lists[i] == st.lists[i]
  {
    var b := BucketAdd(LiveBucket(st), m);
    st.(currentBit := b.bit, sum := b.sum, lists := st.lists[st.messages := b.msg])
  }

  /**
   * `add(status, message)` as written. History changes only at the status
   * being left; when a saved bucket is restored, the current status stays
   * the one that was left.
   */
  function AddAsWritten(st: State, status: Option<int>, m: Option<string>): (r: State)
    requires WellFormed(st)
    ensures WellFormed(r)
    ensures forall k :: k != st.currentStatus ==>
              (k in r.history <==> k in st.history) && (k in r.history ==> r.history[k] == st.history[k])
    ensures status != Some(st.currentStatus) ==>
              st.currentStatus in r.history &&
              r.history[st.currentStatus] == Saved(st.currentBit, st.sum, st.messages)
    ensures status.Some? && status.value != st.currentStatus && status.value in st.history ==>
              r.currentStatus == st.currentStatus
  {
    Accumulate(SwitchAsWritten(st, status), m)
  }

  /** `add(status, message)` with the restored status made current. */
  function AddResuming(st: State, status: Option<int>, m: Option<string>): (r: State)
    requires WellFormed(st)
    ensures WellFormed(r)
    ensures r.currentStatus == StatusOrZero(status)
  {
    Accumulate(SwitchResuming(st, status), m)
  }

  /** What `add` returns: the code is built from the status as passed and the live sum. */
  function AddResult(namespace: string, delimiter: string, status: Option<int>, st: State): Signature
    requires WellFormed(st)
  {
    Render(namespace, delimiter, KeyText(status), LiveBucket(st))
  }

  /**
   * `get(key)`: an omitted or zero key, or the current status, reads the
   * live bucket; any other key reads its history entry, or yields an error.
   */
  function GetResult(namespace: string, delimiter: string, st: State, key: Option<int>): (r: Result<Signature, string>)
    requires WellFormed(st)
    ensures key.None? || key == Some(0) || key == Some(st.currentStatus) ==>
              r == Ok(Render(namespace, delimiter, IntToString(st.currentStatus), LiveBucket(st)))
    ensures key.Some? && key.value != 0 ==> (r.Ok? <==> key.value in Buckets(st))
    ensures key.Some? && key.value != 0 && key.value in Buckets(st) ==>
              r == Ok(Render(namespace, delimiter, IntToString(key.value), Buckets(st)[key.value]))
    ensures r.Err? ==> key.Some? && r.error == "no errors for status code " + IntToString(key.value)
  {
    if key.Some? && key.value != 0 && key.value != st.currentStatus then
      if key.value in st.history then
        Ok(Render(namespace, delimiter, IntToString(key.value), SavedBucket(st, key.value)))
      else
        Err("no errors for status code " + IntToString(key.value))
    else
      Ok(Render(namespace, delimiter, IntToString(st.currentStatus), LiveBucket(st)))
  }

  // ---------------------------------------------------------------------
  // Each branch of the switch and of the advance, written out

  /** Restoring a saved bucket: the as-written switch keeps the old status, the corrected one takes the restored one. */
  lemma SwitchRestore(st: State, k: int)
    requires WellFormed(st) && k != st.currentStatus && k in st.history
    ensures var h := st.history[k];
            var hist := st.history[st.currentStatus := Saved(st.currentBit, st.sum, st.messages)];
            SwitchAsWritten(st, Some(k)) == State(st.currentStatus, h.bit, h.sum, h.msg, hist, st.lists) &&
            SwitchResuming(st, Some(k)) == State(k, h.bit, h.sum, h.msg, hist, st.lists)
  {
  }

  /** Starting a bucket that was never saved: both switches save the live bucket and append an empty array. */
  lemma SwitchFresh(st: State, status: Option<int>)
    requires WellFormed(st) && status != Some(st.currentStatus)
    requires status.None? || status.value !in st.history
    ensures var hist := st.history[st.currentStatus := Saved(st.currentBit, st.sum, st.messages)];
            var want := State(StatusOrZero(status), 0, 0, |st.lists|, hist, st.lists + [[]]);
            SwitchAsWritten(st, status) == want && SwitchResuming(st, status) == want
  {
  }

  /** The advance on a bucket that already holds a message. */
  lemma AccumulateShift(st: State, m: Option<string>)
    requires WellFormed(st) && st.currentBit != 0
    ensures var bit := ShiftLeft1(st.currentBit);
            Accumulate(st, m) == st.(currentBit := bit, sum := st.sum + bit,
                                     lists := st.lists[st.messages := st.lists[st.messages] + [MessageOrDefault(m)]])
  {
  }

  /** The advance on an empty bucket. */
  lemma AccumulateFirst(st: State, m: Option<string>)
    requires WellFormed(st) && st.currentBit == 0
    ensures Accumulate(st, m) == st.(currentBit := 1, sum := 1,
                                     lists := st.lists[st.messages := st.lists[st.messages] + [MessageOrDefault(m)]])
  {
  }

  // ---------------------------------------------------------------------
  // The corrected add performs the bucket-level step

  lemma AddResumingSameStatus(st: State, m: Option<string>)
    requires WellFormed(st) && Owned(st)
    ensures WellFormed(AddResuming(st, Some(st.currentStatus), m))
    ensures Owned(AddResuming(st, Some(st.currentStatus), m))
    ensures Buckets(AddResuming(st, Some(st.currentStatus), m)) == Step(Buckets(st), Some(st.currentStatus), m)
  {
    var r := AddResuming(st, Some(st.currentStatus), m);
    assert r == Accumulate(st, m);
    var b, b' := Buckets(st), Buckets(r);
    var want := Step(b, Some(st.currentStatus), m);
    forall k | k in b'
      ensures k in want && b'[k] == want[k]
    {
      if k != st.currentStatus {
        assert st.history[k].msg != st.messages;
      }
    }
    assert b' == want;
  }

  lemma AddResumingRestore(st: State, s: int, m: Option<string>)
    requires WellFormed(st) && Owned(st)
    requires s != st.currentStatus && s in st.history
    ensures WellFormed(AddResuming(st, Some(s), m))
    ensures Owned(AddResuming(st, Some(s), m))
    ensures Buckets(AddResuming(st, Some(s), m)) == Step(Buckets(st), Some(s), m)
  {
    SwitchRestore(st, s);
    RestoreBuckets(st, s, m);
    RestoreOwned(st, s, m);
  }

  lemma RestoreBuckets(st: State, s: int, m: Option<string>)
    requires WellFormed(st) && Owned(st)
    requires s != st.currentStatus && s in st.history
    requires SwitchResuming(st, Some(s)) ==
             State(s, st.history[s].bit, st.history[s].sum, st.history[s].msg,
                   st.history[st.currentStatus := Saved(st.currentBit, st.sum, st.messages)], st.lists)
    ensures Buckets(AddResuming(st, Some(s), m)) == Step(Buckets(st), Some(s), m)
  {
    var c := st.currentStatus;
    var h := st.history[s];
    var mid := SwitchResuming(st, Some(s));
    var r := Accumulate(mid, m);
    assert st.messages != h.msg;
    var b, b' := Buckets(st), Buckets(r);
    var want := Step(b, Some(s), m);
    assert LiveBucket(mid) == b[s];
    forall k | k in b'
      ensures k in want && b'[k] == want[k]
    {
      if k == c {
        assert r.history[c].msg == st.messages;
      } else if k != s {
        assert r.history[k] == st.history[k];
        assert st.history[k].msg != h.msg;
      }
    }
    assert b' == want;
  }

  lemma RestoreOwned(st: State, s: int, m: Option<string>)
    requires WellFormed(st) && Owned(st)
    requires s != st.currentStatus && s in st.history
    requires SwitchResuming(st, Some(s)) ==
             State(s, st.history[s].bit, st.history[s].sum, st.history[s].msg,
                   st.history[st.currentStatus := Saved(st.currentBit, st.sum, st.messages)], st.lists)
    ensures Owned(AddResuming(st, Some(s), m))
  {
    var c := st.currentStatus;
    var r := Accumulate(SwitchResuming(st, Some(s)), m);
    forall k1, k2 |
      k1 in r.history && k2 in r.history && k1 != k2 && k1 != r.currentStatus && k2 != r.currentStatus
      ensures r.history[k1].msg != r.history[k2].msg
    {
      if k1 != c && k2 != c {
        assert r.history[k1] == st.history[k1] && r.history[k2] == st.history[k2];
      }
    }
  }

  lemma AddResumingFresh(st: State, status: Option<int>, m: Option<string>)
    requires WellFormed(st) && Owned(st)
    requires status != Some(st.currentStatus)
    requires status.None? || status.value !in st.history
    ensures WellFormed(AddResuming(st, status, m))
    ensures Owned(AddResuming(st, status, m))
    ensures Buckets(AddResuming(st, status, m)) == Step(Buckets(st), status, m)
  {
    SwitchFresh(st, status);
    FreshBuckets(st, status, m);
    FreshOwned(st, status, m);
  }

  lemma FreshBuckets(st: State, status: Option<int>, m: Option<string>)
    requires WellFormed(st) && Owned(st)
    requires status != Some(st.currentStatus)
    requires status.None? || status.value !in st.history
    requires SwitchResuming(st, status) == InitState(SaveCurrent(st), status)
    ensures Buckets(AddResuming(st, status, m)) == Step(Buckets(st), status, m)
  {
    var c := st.currentStatus;
    var saved := SaveCurrent(st);
    var mid := InitState(saved, status);
    var r := Accumulate(mid, m);
    var b, b' := Buckets(st), Buckets(r);
    var want := Step(b, status, m);
    assert LiveBucket(mid) == Zero;
    forall k | k in b'
      ensures k in want && b'[k] == want[k]
    {
      if k != r.currentStatus {
        assert r.history[k] == saved.history[k];
        assert r.history[k].msg < |st.lists|;
        if k == c {
          assert r.lists[st.messages] == st.lists[st.messages];
        } else {
          assert r.history[k] == st.history[k];
        }
      }
    }
    assert b' == want;
  }

  lemma FreshOwned(st: State, status: Option<int>, m: Option<string>)
    requires WellFormed(st) && Owned(st)
    requires status != Some(st.currentStatus)
    requires status.None? || status.value !in st.history
    requires SwitchResuming(st, status) == InitState(SaveCurrent(st), status)
    ensures Owned(AddResuming(st, status, m))
  {
    var c := st.currentStatus;
    var r := Accumulate(InitState(SaveCurrent(st), status), m);
    forall k1, k2 |
      k1 in r.history && k2 in r.history && k1 != k2 && k1 != r.currentStatus && k2 != r.currentStatus
      ensures r.history[k1].msg != r.history[k2].msg
    {
      if k1 != c && k2 != c {
        assert r.history[k1] == st.history[k1] && r.history[k2] == st.history[k2];
      }
    }
  }

  /**
   * The corrected add on an object whose buckets own their message arrays:
   * the buckets afterwards are exactly the bucket-level step applied to the
   * buckets before, and the arrays stay owned.
   */
  lemma AddResumingStep(st: State, status: Option<int>, m: Option<string>)
    requires WellFormed(st) && Owned(st)
    ensures WellFormed(AddResuming(st, status, m)) && Owned(AddResuming(st, status, m))
    ensures Buckets(AddResuming(st, status, m)) == Step(Buckets(st), status, m)
  {
    if status == Some(st.currentStatus) {
      AddResumingSameStatus(st, m);
    } else if status.Some? && status.value in st.history {
      AddResumingRestore(st, status.value, m);
    } else {
      AddResumingFresh(st, status, m);
    }
  }

  /** A run of corrected adds. */
  function RunResuming(st: State, t: seq<Event>): (r: State)
    requires WellFormed(st)
    ensures WellFormed(r)
    decreases |t|
  {
    if t == [] then st
    else RunResuming(AddResuming(st, Some(t[0].status), t[0].message), t[1..])
  }

  /** A run of adds as written. */
  function RunAsWritten(st: State, t: seq<Event>): (r: State)
    requires WellFormed(st)
    ensures WellFormed(r)
    decreases |t|
  {
    if t == [] then st
    else RunAsWritten(AddAsWritten(st, Some(t[0].status), t[0].message), t[1..])
  }

  lemma {:induction false} RunResumingBuckets(st: State, t: seq<Event>)
    requires WellFormed(st) && Owned(st)
    ensures Owned(RunResuming(st, t))
    ensures Buckets(RunResuming(st, t)) == Run(Buckets(st), t)
    decreases |t|
  {
    if t != [] {
      var next := AddResuming(st, Some(t[0].status), t[0].message);
      AddResumingStep(st, Some(t[0].status), t[0].message);
      RunResumingBuckets(next, t[1..]);
    }
  }

  /**
   * Resumption, end to end: after any run of corrected adds on a new object,
   * `get(k)` for a non-zero k reports the closed-form sum of the adds made
   * to k and their messages in order, however they were interleaved with
   * adds to other statuses; a status never added to yields the error.
   */
  lemma ResumedGet(namespace: string, delimiter: string, t: seq<Event>, k: int)
    requires k != 0
    ensures var ms := MessagesFor(t, k);
            GetResult(namespace, delimiter, RunResuming(Fresh, t), Some(k)) ==
              if exists i :: 0 <= i < |t| && t[i].status == k
              then Ok(Signature(namespace + IntToString(k) + IntToString(SumAfter(|ms|)), Join(Defaulted(ms), delimiter)))
              else Err("no errors for status code " + IntToString(k))
  {
    var b0 := Buckets(Fresh);
    assert b0 == map[0 := Zero];
    RunResumingBuckets(Fresh, t);
    RunKeys(b0, t, k);
    RunSignature(b0, t, k);
  }

  /**
   * The add as written and the corrected add differ only when a saved bucket
   * is resumed: an add to the current status, to no status, or to a status
   * with no history entry is the same in both.
   */
  lemma AsWrittenAgreesOffRestore(st: State, status: Option<int>, m: Option<string>)
    requires WellFormed(st)
    requires status == Some(st.currentStatus) || status.None? || status.value !in st.history
    ensures AddAsWritten(st, status, m) == AddResuming(st, status, m)
  {
  }

  /** test/octcode.specs.js:73-79: a first add with no message gives sum 1 and the default message. */
  lemma FirstAddWithoutMessage()
    ensures AddResult("BAR", DefaultDelimiter, Some(400), AddAsWritten(Fresh, Some(400), None)) ==
              Signature("BAR4001", "unknown error")
  {
    AddToNewStatus(Fresh, 400, None);
    DecimalsOfScenario();
    assert IntToString(1) == "1";
  }

  // ---------------------------------------------------------------------
  // The scenario of test/octcode.specs.js:105-117, on the code as written and corrected

  const S0 := Fresh
  const S1 := State(400, 1, 1, 1, map[0 := Saved(0, 0, 0)], [[], ["a400-1"]])
  const S2 := State(400, 2, 3, 1, map[0 := Saved(0, 0, 0)], [[], ["a400-1", "b400-3"]])
  const S3 := State(401, 1, 1, 2, map[0 := Saved(0, 0, 0), 400 := Saved(2, 3, 1)],
                    [[], ["a400-1", "b400-3"], ["c"]])
  const S4 := State(500, 1, 1, 3, map[0 := Saved(0, 0, 0), 400 := Saved(2, 3, 1), 401 := Saved(1, 1, 2)],
                    [[], ["a400-1", "b400-3"], ["c"], ["c1"]])
  const S5 := State(500, 2, 3, 3, S4.history, [[], ["a400-1", "b400-3"], ["c"], ["c1", "c2"]])

  /** An add to a status that is neither current nor saved starts a new message array for it. */
  lemma AddToNewStatus(st: State, k: int, m: Option<string>)
    requires WellFormed(st) && k != st.currentStatus && k !in st.history
    ensures var want := State(k, 1, 1, |st.lists|,
                              st.history[st.currentStatus := Saved(st.currentBit, st.sum, st.messages)],
                              st.lists + [[MessageOrDefault(m)]]);
            AddAsWritten(st, Some(k), m) == want == AddResuming(st, Some(k), m)
  {
    SwitchFresh(st, Some(k));
    var mid := SwitchAsWritten(st, Some(k));
    AccumulateFirst(mid, m);
    var msg := MessageOrDefault(m);
    var grown := st.lists + [[]];
    assert mid.lists == grown && mid.messages == |st.lists|;
    assert grown[|st.lists|] + [msg] == [msg];
    assert grown[|st.lists| := [msg]] == st.lists + [[msg]];
  }

  /** An add to the current status with a non-zero bit shifts the bit and pushes onto the live array. */
  lemma AddToCurrentStatus(st: State, m: Option<string>)
    requires WellFormed(st) && st.currentBit != 0
    ensures var bit := ShiftLeft1(st.currentBit);
            var want := st.(currentBit := bit, sum := st.sum + bit,
                            lists := st.lists[st.messages := st.lists[st.messages] + [MessageOrDefault(m)]]);
            AddAsWritten(st, Some(st.currentStatus), m) == want == AddResuming(st, Some(st.currentStatus), m)
  {
    AccumulateShift(st, m);
  }

  /** The first five adds of the scenario go through `init` or stay in one bucket, so both adds agree on them. */
  lemma ScenarioPrefix()
    ensures AddAsWritten(S0, Some(400), Some("a400-1")) == S1 == AddResuming(S0, Some(400), Some("a400-1"))
    ensures AddAsWritten(S1, Some(400), Some("b400-3")) == S2 == AddResuming(S1, Some(400), Some("b400-3"))
    ensures AddAsWritten(S2, Some(401), Some("c")) == S3 == AddResuming(S2, Some(401), Some("c"))
    ensures AddAsWritten(S3, Some(500), Some("c1")) == S4 == AddResuming(S3, Some(500), Some("c1"))
    ensures AddAsWritten(S4, Some(500), Some("c2")) == S5 == AddResuming(S4, Some(500), Some("c2"))
  {
    FirstAdd();
    SecondAdd();
    ThirdAdd();
    FourthAdd();
    FifthAdd();
  }

  lemma FirstAdd()
    ensures AddAsWritten(S0, Some(400), Some("a400-1")) == S1 == AddResuming(S0, Some(400), Some("a400-1"))
  {
    AddToNewStatus(S0, 400, Some("a400-1"));
  }

  lemma SecondAdd()
    ensures AddAsWritten(S1, Some(400), Some("b400-3")) == S2 == AddResuming(S1, Some(400), Some("b400-3"))
  {
    assert ShiftLeft1(1) == 2;
    assert MessageOrDefault(Some("b400-3")) == "b400-3";
    assert S1.lists[1] + ["b400-3"] == ["a400-1", "b400-3"];
    assert S1.lists[1 := S1.lists[1] + ["b400-3"]] == S2.lists;
    assert S1.(currentBit := 2, sum := 3, lists := S2.lists) == S2;
    AddToCurrentStatus(S1, Some("b400-3"));
  }

  lemma ThirdAdd()
    ensures AddAsWritten(S2, Some(401), Some("c")) == S3 == AddResuming(S2, Some(401), Some("c"))
  {
    AddToNewStatus(S2, 401, Some("c"));
  }

  lemma FourthAdd()
    ensures AddAsWritten(S3, Some(500), Some("c1")) == S4 == AddResuming(S3, Some(500), Some("c1"))
  {
    AddToNewStatus(S3, 500, Some("c1"));
  }

  lemma FifthAdd()
    ensures AddAsWritten(S4, Some(500), Some("c2")) == S5 == AddResuming(S4, Some(500), Some("c2"))
  {
    assert ShiftLeft1(1) == 2;
    assert MessageOrDefault(Some("c2")) == "c2";
    assert S4.lists[3] + ["c2"] == ["c1", "c2"];
    assert S4.lists[3 := S4.lists[3] + ["c2"]] == S5.lists;
    assert S4.(currentBit := 2, sum := 3, lists := S5.lists) == S5;
    AddToCurrentStatus(S4, Some("c2"));
  }

  const H6 := S5.history[500 := Saved(2, 3, 3)]
  const L6: seq<seq<string>> := [[], ["a400-1", "b400-3", "c400-7"], ["c"], ["c1", "c2"]]
  const L7: seq<seq<string>> := [[], ["a400-1", "b400-3", "c400-7", "d400-15"], ["c"], ["c1", "c2"]]
  /** After the sixth add, as written: 400's sum is live but 500 is still the current status. */
  const W6 := State(500, 4, 7, 1, H6, L6)
  /** After the seventh add, as written: 400's stale entry was restored again. */
  const W7 := State(500, 4, 7, 1, H6[500 := Saved(4, 7, 1)], L7)
  /** After the sixth and seventh corrected adds. */
  const R6 := State(400, 4, 7, 1, H6, L6)
  const R7 := State(400, 8, 15, 1, H6, L7)

  /** The sixth add returns to 400 and restores its saved bucket in both versions. */
  lemma SixthAdd()
    ensures AddAsWritten(S5, Some(400), Some("c400-7")) == W6
    ensures AddResuming(S5, Some(400), Some("c400-7")) == R6
  {
    SwitchRestore(S5, 400);
    AccumulateShift(State(500, 2, 3, 1, H6, S5.lists), Some("c400-7"));
    AccumulateShift(State(400, 2, 3, 1, H6, S5.lists), Some("c400-7"));
    assert ShiftLeft1(2) == 4;
    assert S5.lists[1] + ["c400-7"] == L6[1];
    assert S5.lists[1 := L6[1]] == L6;
  }

  /** As written, the seventh add to 400 switches again and restores the entry saved before the return. */
  lemma SeventhAddAsWritten()
    ensures AddAsWritten(W6, Some(400), Some("d400-15")) == W7
  {
    SwitchRestore(W6, 400);
    AccumulateShift(State(500, 2, 3, 1, H6[500 := Saved(4, 7, 1)], L6), Some("d400-15"));
    assert ShiftLeft1(2) == 4;
    assert L6[1] + ["d400-15"] == L7[1];
    assert L6[1 := L7[1]] == L7;
  }

  /** Corrected, the seventh add stays in the live 400 bucket. */
  lemma SeventhAddResuming()
    ensures AddResuming(R6, Some(400), Some("d400-15")) == R7
  {
    AddToCurrentStatus(R6, Some("d400-15"));
    assert ShiftLeft1(4) == 8;
    assert L6[1] + ["d400-15"] == L7[1];
    assert L6[1 := L7[1]] == L7;
  }

  /**
   * test/octcode.specs.js:105-117 on the code as written: returning to 400
   * restores its sum but keeps 500 as the current status, so the next add to
   * 400 switches again, restores the sum saved before the return and reports
   * 7 instead of 15.
   */
  lemma ReturningToBucketAsWritten()
    ensures var s6 := AddAsWritten(S5, Some(400), Some("c400-7"));
            AddResult("BAR", "|", Some(400), AddAsWritten(s6, Some(400), Some("d400-15"))) ==
              Signature("BAR4007", "a400-1|b400-3|c400-7|d400-15")
  {
    SixthAdd();
    SeventhAddAsWritten();
    DecimalsOfScenario();
    JoinOfScenario();
  }

  /** The corrected add gives what the test expects: sum 15 for the fourth add to 400. */
  lemma ReturningToBucketResuming()
    ensures var s6 := AddResuming(S5, Some(400), Some("c400-7"));
            AddResult("BAR", "|", Some(400), AddResuming(s6, Some(400), Some("d400-15"))) ==
              Signature("BAR40015", "a400-1|b400-3|c400-7|d400-15")
  {
    SixthAdd();
    SeventhAddResuming();
    DecimalsOfScenario();
    JoinOfScenario();
  }

  lemma DecimalsOfScenario()
    ensures IntToString(400) == "400" && IntToString(7) == "7" && IntToString(15) == "15"
  {
    assert NatToString(40) == NatToString(4) + [DigitChar(0)];
    assert NatToString(15) == NatToString(1) + [DigitChar(5)];
  }

  lemma JoinOfScenario()
    ensures Join(["a400-1", "b400-3", "c400-7", "d400-15"], "|") == "a400-1|b400-3|c400-7|d400-15"
  {
    var parts := ["a400-1", "b400-3", "c400-7", "d400-15"];
    assert parts[1..] == ["b400-3", "c400-7", "d400-15"];
    assert parts[2..] == ["c400-7", "d400-15"];
    assert parts[3..] == ["d400-15"];
  }

  // ---------------------------------------------------------------------
  // The object

  class Accumulator {
    var namespace: string
    var delimiter: string
    var currentStatus: int
    var currentBit: int
    var sum: int
    var messages: nat
    var history: map<int, Saved>
    var lists: seq<seq<string>>

    /** The object's fields other than namespace and delimiter, as a value. */
    function Fields(): State
      reads this
    {
      State(currentStatus, currentBit, sum, messages, history, lists)
    }

    ghost predicate Valid()
      reads this
    {
      WellFormed(Fields())
    }

    /** `new Octcode(namespace, {delimiter})`; `projectNamespace` is what the package name would give. */
    constructor (namespace: string, projectNamespace: string, delimiter: string)
      ensures Valid()
      ensures this.namespace == if namespace != "" then namespace else projectNamespace
      ensures this.delimiter == if delimiter != "" then delimiter else DefaultDelimiter
      ensures Fields() == Fresh
    {
      new;
      Reset(namespace, projectNamespace, delimiter);
    }

    /** `reset`: a new namespace and delimiter, an empty history and a fresh live bucket. */
    method Reset(namespace: string, projectNamespace: string, delimiter: string)
      modifies this
      ensures Valid()
      ensures this.namespace == if namespace != "" then namespace else projectNamespace
      ensures this.delimiter == if delimiter != "" then delimiter else DefaultDelimiter
      ensures Fields() == Fresh
    {
      this.namespace := if namespace != "" then namespace else projectNamespace;
      this.delimiter := if delimiter != "" then delimiter else DefaultDelimiter;
      history := map[];
      lists := [];
      Init(None);
    }

    /** `init(status)` */
    method Init(status: Option<int>)
      requires messages < |lists| || lists == []
      requires forall k :: k in history ==> history[k].msg < |lists|
      modifies this
      ensures Valid()
      ensures namespace == old(namespace) && delimiter == old(delimiter)
      ensures old(lists) != [] ==> Fields() == InitState(old(Fields()), status)
      ensures old(lists) == [] ==> Fields() == State(StatusOrZero(status), 0, 0, 0, old(history), [[]])
    {
      currentBit := 0;
      currentStatus := StatusOrZero(status);
      messages := |lists|;
      lists := lists + [[]];
      sum := 0;
    }

    /** `add(status, message)`, as written. */
    method Add(status: Option<int>, message: Option<string>) returns (r: Signature)
      requires Valid()
      modifies this
      ensures Valid()
      ensures namespace == old(namespace) && delimiter == old(delimiter)
      ensures Fields() == AddAsWritten(old(Fields()), status, message)
      ensures r == AddResult(namespace, delimiter, status, Fields())
    {
      if status != Some(currentStatus) {
        history := history[currentStatus := Saved(currentBit, sum, messages)];
        if status.Some? && status.value in history {
          var k: int := status.value;
          var saved := history[k];
          assert saved.msg < |lists|;
          currentBit := saved.bit;
          sum := saved.sum;
          messages := saved.msg;
        } else {
          Init(status);
        }
      }
      Advance(message);
      r := Signature(namespace + KeyText(status) + IntToString(sum), Join(lists[messages], delimiter));
    }

    /** `add(status, message)` with `currentStatus` set when a saved bucket is restored. */
    method AddCorrected(status: Option<int>, message: Option<string>) returns (r: Signature)
      requires Valid()
      modifies this
      ensures Valid()
      ensures namespace == old(namespace) && delimiter == old(delimiter)
      ensures Fields() == AddResuming(old(Fields()), status, message)
      ensures r == AddResult(namespace, delimiter, status, Fields())
    {
      if status != Some(currentStatus) {
        history := history[currentStatus := Saved(currentBit, sum, messages)];
        if status.Some? && status.value in history {
          var k: int := status.value;
          var saved := history[k];
          assert saved.msg < |lists|;
          currentStatus := k;
          currentBit := saved.bit;
          sum := saved.sum;
          messages := saved.msg;
        } else {
          Init(status);
        }
      }
      Advance(message);
      r := Signature(namespace + KeyText(status) + IntToString(sum), Join(lists[messages], delimiter));
    }

    /** The advance rule and the push shared by both adds. */
    method Advance(message: Option<string>)
      requires Valid()
      modifies this
      ensures Valid()
      ensures Fields() == Accumulate(old(Fields()), message)
      ensures namespace == old(namespace) && delimiter == old(delimiter)
    {
      if currentBit == 0 {
        currentBit := 1;
        sum := 1;
      } else {
        var shiftLeft := ShiftLeft1(currentBit);
        sum := sum + shiftLeft;
        currentBit := shiftLeft;
      }
      lists := lists[messages := lists[messages] + [MessageOrDefault(message)]];
    }

    /** `get(key)`: reads the live bucket or a history entry and changes nothing. */
    method Get(key: Option<int>) returns (r: Result<Signature, string>)
      requires Valid()
      ensures r == GetResult(namespace, delimiter, Fields(), key)
    {
      if key.Some? && key.value != 0 && key.value != currentStatus {
        if key.value in history {
          var h := history[key.value];
          r := Ok(Signature(namespace + IntToString(key.value) + IntToString(h.sum), Join(lists[h.msg], delimiter)));
        } else {
          r := Err("no errors for status code " + IntToString(key.value));
        }
      } else {
        r := Ok(Signature(namespace + IntToString(currentStatus) + IntToString(sum), Join(lists[messages], delimiter)));
      }
    }
  }
}
