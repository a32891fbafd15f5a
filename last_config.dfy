/**
 * The last-configuration bookkeeping of a chain facade, as a value: the pair
 * (lastConfiguration, lastConfigSeq) and how one block write moves it.
 * The facade class keeps its two fields equal to `Replay(Initial, ...)` of the
 * writes it has seen; the lemmas here say what that means across many writes.
 */
module LastConfig {
  import opened Protos

  datatype Tracker = Tracker(lastConfiguration: uint64, lastConfigSeq: uint64)

  /** What one write sees: the block's number and the config manager's Sequence(). */
  datatype Observation = Observation(number: uint64, sequence: uint64)

  /** The facade's struct literal sets neither field: both start at Go's zero value. */
  const Initial := Tracker(0, 0)

  function Max(a: uint64, b: uint64): (m: uint64)
    ensures a <= m && b <= m && (m == a || m == b)
  {
    if a < b then b else a
  }

  /** The update at the head of addLastConfigSignature. */
  function Track(t: Tracker, o: Observation): (r: Tracker)
    ensures r.lastConfigSeq == Max(t.lastConfigSeq, o.sequence)
    ensures r.lastConfiguration != t.lastConfiguration ==> o.sequence > t.lastConfigSeq
    ensures r != t <==> o.sequence > t.lastConfigSeq
    ensures r != t ==> r.lastConfiguration == o.number
  {
    if o.sequence > t.lastConfigSeq then Tracker(o.number, o.sequence) else t
  }

  /** The tracker after a series of writes, oldest first. */
  function Replay(t: Tracker, os: seq<Observation>): (r: Tracker)
    ensures os == [] ==> r == t
    ensures t.lastConfigSeq <= r.lastConfigSeq
    ensures os != [] ==> os[|os| - 1].sequence <= r.lastConfigSeq
    decreases |os|
  {
    if os == [] then t else Track(Replay(t, os[..|os| - 1]), os[|os| - 1])
  }

  /** Replaying one more write is one more step of Track. */
  lemma ReplaySnoc(t: Tracker, os: seq<Observation>, o: Observation)
    ensures Replay(t, os + [o]) == Track(Replay(t, os), o)
  {
    assert (os + [o])[..|os|] == os;
  }

  /**
   * Write `i` is a configuration bump: its sequence strictly exceeds the
   * starting sequence and every sequence seen before it.
   */
  ghost predicate IsBump(t: Tracker, os: seq<Observation>, i: int)
    requires 0 <= i < |os|
  {
    t.lastConfigSeq < os[i].sequence && forall j | 0 <= j < i :: os[j].sequence < os[i].sequence
  }

  /**
   * The stored sequence is the largest sequence seen so far (or the starting
   * one): it is an upper bound, and it is attained.
   */
  lemma {:induction false} ReplayPeak(t: Tracker, os: seq<Observation>)
    ensures t.lastConfigSeq <= Replay(t, os).lastConfigSeq
    ensures forall i | 0 <= i < |os| :: os[i].sequence <= Replay(t, os).lastConfigSeq
    ensures Replay(t, os).lastConfigSeq == t.lastConfigSeq
            || exists i | 0 <= i < |os| :: os[i].sequence == Replay(t, os).lastConfigSeq
    decreases |os|
  {
    if os != [] {
      var ps := os[..|os| - 1];
      ReplayPeak(t, ps);
      assert forall i | 0 <= i < |ps| :: ps[i] == os[i];
    }
  }

  /** A write moves the tracker exactly when it is a configuration bump. */
  lemma StepIsBump(t: Tracker, os: seq<Observation>, i: int)
    requires 0 <= i < |os|
    ensures Replay(t, os[..i + 1]) == Track(Replay(t, os[..i]), os[i])
    ensures Replay(t, os[..i + 1]) != Replay(t, os[..i]) <==> IsBump(t, os, i)
  {
    var ps := os[..i];
    assert os[..i + 1][..i] == ps;
    ReplayPeak(t, ps);
    assert forall j | 0 <= j < i :: ps[j] == os[j];
  }

  /** Whether an earlier write is a bump does not depend on the writes after it. */
  lemma BumpInPrefix(t: Tracker, os: seq<Observation>, n: int)
    requires 0 <= n <= |os|
    ensures forall j | 0 <= j < n :: IsBump(t, os[..n], j) == IsBump(t, os, j)
  {
    forall j | 0 <= j < n ensures IsBump(t, os[..n], j) == IsBump(t, os, j) {
      assert forall k | 0 <= k <= j :: os[..n][k] == os[k];
    }
  }

  /** With no configuration bump the pair keeps its starting value. */
  lemma {:induction false} NoBumpKeepsTracker(t: Tracker, os: seq<Observation>)
    requires forall i | 0 <= i < |os| :: !IsBump(t, os, i)
    ensures Replay(t, os) == t
    decreases |os|
  {
    if os != [] {
      var n := |os| - 1;
      assert os[..n + 1] == os;
      BumpInPrefix(t, os, n);
      NoBumpKeepsTracker(t, os[..n]);
      StepIsBump(t, os, n);
    }
  }

  /**
   * The reference characterisation of the two fields: after a run of writes
   * they hold the number and the sequence of the most recent bump.
   */
  lemma {:induction false} LatestBumpHolds(t: Tracker, os: seq<Observation>, i: int)
    requires 0 <= i < |os| && IsBump(t, os, i)
    requires forall j | i < j < |os| :: !IsBump(t, os, j)
    ensures Replay(t, os) == Tracker(os[i].number, os[i].sequence)
    decreases |os|
  {
    var n := |os| - 1;
    assert os[..n + 1] == os;
    StepIsBump(t, os, n);
    if i < n {
      BumpInPrefix(t, os, n);
      assert os[..n][i] == os[i];
      LatestBumpHolds(t, os[..n], i);
    }
  }

  /** Over any run of writes the stored sequence never decreases. */
  lemma {:induction false} SequenceNeverDecreases(t: Tracker, os: seq<Observation>, i: int, j: int)
    requires 0 <= i <= j <= |os|
    ensures Replay(t, os[..i]).lastConfigSeq <= Replay(t, os[..j]).lastConfigSeq
    decreases j - i
  {
    if i < j {
      StepIsBump(t, os, i);
      SequenceNeverDecreases(t, os, i + 1, j);
    }
  }

  /** The stored index is the starting one or the number of some write seen. */
  lemma {:induction false} IndexIsObserved(t: Tracker, os: seq<Observation>)
    ensures Replay(t, os).lastConfiguration == t.lastConfiguration
            || exists k | 0 <= k < |os| :: Replay(t, os).lastConfiguration == os[k].number
    decreases |os|
  {
    if os != [] {
      var ps := os[..|os| - 1];
      IndexIsObserved(t, ps);
      assert forall k | 0 <= k < |ps| :: ps[k] == os[k];
    }
  }

  /**
   * When blocks are written in non-decreasing number order, starting at or
   * above the starting index, lastConfiguration never goes backwards.
   */
  lemma {:induction false} IndexNeverDecreases(t: Tracker, os: seq<Observation>, i: int, j: int)
    requires forall a, b | 0 <= a < b < |os| :: os[a].number <= os[b].number
    requires forall a | 0 <= a < |os| :: t.lastConfiguration <= os[a].number
    requires 0 <= i <= j <= |os|
    ensures Replay(t, os[..i]).lastConfiguration <= Replay(t, os[..j]).lastConfiguration
    decreases j - i
  {
    if i < j {
      StepIsBump(t, os, i);
      IndexIsObserved(t, os[..i]);
      assert forall k | 0 <= k < i :: os[..i][k] == os[k];
      IndexNeverDecreases(t, os, i + 1, j);
    }
  }
}
