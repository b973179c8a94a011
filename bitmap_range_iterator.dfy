/** A range iterator over a roaring bitmap: it reads the bitmap's members in
    batches of at most 256 into a fixed buffer and reports maximal runs of
    consecutive members as half-open ranges [from, to). */
module BitmapRanges {

  /** Capacity of the refill buffer (kBatchSize). */
  const BATCH_SIZE: nat := 256

  /** Members and range bounds are uint32 values. */
  const UINT32_LIMIT: int := 0x1_0000_0000

  /** What a roaring bitmap's iterator yields: uint32 values in strictly increasing order. */
  predicate IsBitmap(s: seq<int>) {
    && (forall i :: 0 <= i < |s| ==> 0 <= s[i] < UINT32_LIMIT)
    && (forall i, j :: 0 <= i < j < |s| ==> s[i] < s[j])
  }

  /** `last_val++` on a uint32. */
  function Inc32(v: int): int {
    (v + 1) % UINT32_LIMIT
  }

  /** A maximal run of consecutive members, as its first member and its length. */
  datatype Run = Run(from: int, len: nat) {
    /** The exact (unbounded) end of the half-open range [from, from + len). */
    function End(): int { from + len }
  }

  /** A range as the iterator reports it, through two uint32 out-parameters. */
  datatype Range = Range(from: int, to: int)

  /** Length of the run of consecutive values that starts at s[0]. */
  function RunLength(s: seq<int>): (n: nat)
    requires |s| > 0
    ensures 1 <= n <= |s|
  {
    if |s| == 1 || s[1] != s[0] + 1 then 1 else 1 + RunLength(s[1..])
  }

  /** RunLength(s) consecutive values start at s[0], and the next one (if any) breaks the run. */
  lemma {:induction false} RunLengthSpec(s: seq<int>)
    requires |s| > 0
    ensures forall i :: 0 <= i < RunLength(s) ==> s[i] == s[0] + i
    ensures RunLength(s) < |s| ==> s[RunLength(s)] != s[0] + RunLength(s)
  {
    if !(|s| == 1 || s[1] != s[0] + 1) {
      RunLengthSpec(s[1..]);
    }
  }

  /** Any prefix of consecutive values that stops where consecutiveness stops is the run. */
  lemma RunLengthIs(s: seq<int>, m: nat)
    requires 0 < m <= |s|
    requires forall i :: 0 <= i < m ==> s[i] == s[0] + i
    requires m < |s| ==> s[m] != s[0] + m
    ensures RunLength(s) == m
  {
    RunLengthSpec(s);
  }

  /** The same, for a run found inside a larger sequence: values[start..end] consecutive, values[end] not next. */
  lemma RunEndsAt(v: seq<int>, start: nat, end: nat)
    requires start < end <= |v|
    requires forall i :: start <= i < end ==> v[i] == v[start] + (i - start)
    requires end < |v| ==> v[end] != v[start] + (end - start)
    ensures RunLength(v[start..]) == end - start
  {
    RunLengthIs(v[start..], end - start);
  }

  /** The maximal runs of s, in order. */
  function Runs(s: seq<int>): seq<Run>
    decreases |s|
  {
    if s == [] then []
    else
      var n := RunLength(s);
      [Run(s[0], n)] + Runs(s[n..])
  }

  /** The range the iterator reports for a run: `to` is a uint32, so an end of 2^32 reads as 0. */
  function Emit(r: Run): Range {
    Range(r.from, r.End() % UINT32_LIMIT)
  }

  function Emitted(rs: seq<Run>): (es: seq<Range>)
    ensures |es| == |rs|
    ensures forall k :: 0 <= k < |rs| ==> es[k] == Emit(rs[k])
  {
    if rs == [] then [] else [Emit(rs[0])] + Emitted(rs[1..])
  }

  /** Reporting one run and then the rest gives the ranges of the whole. */
  lemma EmittedStep(s: seq<int>)
    requires s != []
    ensures Emitted(Runs(s)) == [Emit(Run(s[0], RunLength(s)))] + Emitted(Runs(s[RunLength(s)..]))
  {
    var rs := Runs(s);
    assert rs == [Run(s[0], RunLength(s))] + Runs(s[RunLength(s)..]);
    assert rs[1..] == Runs(s[RunLength(s)..]);
  }

  predicate InRuns(rs: seq<Run>, x: int) {
    exists k :: 0 <= k < |rs| && rs[k].from <= x < rs[k].End()
  }

  /** Every range is non-empty: from < to. */
  lemma {:induction false} RunsNonEmpty(s: seq<int>, k: nat)
    requires k < |Runs(s)|
    ensures Runs(s)[k].from < Runs(s)[k].End()
    decreases |s|
  {
    var n := RunLength(s);
    if k > 0 {
      RunsNonEmpty(s[n..], k - 1);
    }
  }

  lemma {:induction false} RunsBounds(s: seq<int>, k: nat)
    requires IsBitmap(s)
    requires k < |Runs(s)|
    ensures s[0] <= Runs(s)[k].from
    decreases |s|
  {
    var n := RunLength(s);
    if k > 0 {
      RunsBounds(s[n..], k - 1);
      assert s[n..][0] == s[n];
    }
  }

  /** Dropping a prefix of a bitmap's members leaves a bitmap's members. */
  lemma BitmapDrop(s: seq<int>, n: nat)
    requires IsBitmap(s) && n <= |s|
    ensures IsBitmap(s[n..])
  {
    assert forall i :: 0 <= i < |s| - n ==> s[n..][i] == s[n + i];
  }

  /** The first range ends before any later range starts. */
  lemma FirstRunSeparated(s: seq<int>, k: nat)
    requires IsBitmap(s)
    requires 0 < k < |Runs(s)|
    ensures Runs(s)[0].End() < Runs(s)[k].from
  {
    var n := RunLength(s);
    var rest := s[n..];
    assert Runs(s)[k] == Runs(rest)[k - 1];
    // the first range ends at s[0] + n; the next value s[n] is larger and not s[0] + n
    RunLengthSpec(s);
    assert s[n - 1] == s[0] + n - 1;
    assert s[n - 1] < s[n] && s[n] != s[0] + n;
    BitmapDrop(s, n);
    RunsBounds(rest, k - 1);
    assert rest[0] == s[n];
  }

  /** Ranges are maximal and ordered: a later range starts strictly after an earlier one ends. */
  lemma {:induction false} RunsSeparated(s: seq<int>, j: nat, k: nat)
    requires IsBitmap(s)
    requires j < k < |Runs(s)|
    ensures Runs(s)[j].End() < Runs(s)[k].from
    decreases |s|
  {
    if j == 0 {
      FirstRunSeparated(s, k);
    } else {
      var rest := s[RunLength(s)..];
      assert Runs(s)[k] == Runs(rest)[k - 1];
      assert Runs(s)[j] == Runs(rest)[j - 1];
      BitmapDrop(s, RunLength(s));
      RunsSeparated(rest, j - 1, k - 1);
    }
  }

  /** Every member lies in some range; the witness is returned. */
  lemma {:induction false} RunsCover(s: seq<int>, i: nat) returns (k: nat)
    requires i < |s|
    ensures k < |Runs(s)| && Runs(s)[k].from <= s[i] < Runs(s)[k].End()
    decreases |s|
  {
    var n := RunLength(s);
    RunLengthSpec(s);
    if i < n {
      k := 0;
    } else {
      var rest := s[n..];
      assert rest[i - n] == s[i];
      var k' := RunsCover(rest, i - n);
      assert Runs(s)[k' + 1] == Runs(rest)[k'];
      k := k' + 1;
    }
  }

  /** Every value of every range is a member. */
  lemma {:induction false} RunsSound(s: seq<int>, k: nat, x: int)
    requires k < |Runs(s)| && Runs(s)[k].from <= x < Runs(s)[k].End()
    ensures x in s
    decreases |s|
  {
    var n := RunLength(s);
    RunLengthSpec(s);
    if k == 0 {
      assert s[x - s[0]] == x;
    } else {
      var rest := s[n..];
      assert Runs(s)[k] == Runs(rest)[k - 1];
      RunsSound(rest, k - 1, x);
      var j :| 0 <= j < |rest| && rest[j] == x;
      assert s[n + j] == x;
    }
  }

  /** The ranges cover exactly the input values. */
  lemma RunsPartition(s: seq<int>, x: int)
    ensures x in s <==> InRuns(Runs(s), x)
  {
    if x in s {
      var i :| 0 <= i < |s| && s[i] == x;
      var k := RunsCover(s, i);
    }
    if InRuns(Runs(s), x) {
      var k :| 0 <= k < |Runs(s)| && Runs(s)[k].from <= x < Runs(s)[k].End();
      RunsSound(s, k, x);
    }
  }

  /** A run of consecutive values, however long, is one range. */
  lemma ConsecutiveIsOneRun(s: seq<int>)
    requires |s| > 0
    requires forall i :: 0 <= i < |s| ==> s[i] == s[0] + i
    ensures Runs(s) == [Run(s[0], |s|)]
  {
    RunLengthIs(s, |s|);
    assert s[|s|..] == [];
  }

  /** 300 consecutive values, more than one batch of 256, still form one run. */
  lemma AcrossBatchBoundary()
    ensures Runs(seq(300, i => 1000 + i)) == [Run(1000, 300)]
  {
    ConsecutiveIsOneRun(seq(300, i => 1000 + i));
  }

  /** When no member is 4294967295, every reported range is exact. */
  lemma {:induction false} EmittedExact(s: seq<int>, k: nat)
    requires IsBitmap(s)
    requires forall i :: 0 <= i < |s| ==> s[i] < UINT32_LIMIT - 1
    requires k < |Runs(s)|
    ensures Emitted(Runs(s))[k] == Range(Runs(s)[k].from, Runs(s)[k].End())
    decreases |s|
  {
    var n := RunLength(s);
    if k == 0 {
      RunLengthSpec(s);
      assert s[n - 1] == s[0] + n - 1;
    } else {
      assert Runs(s)[k] == Runs(s[n..])[k - 1];
      EmittedExact(s[n..], k - 1);
    }
  }

  /** A run that ends at 4294967295 is reported with `to` wrapped to 0. */
  lemma WrapAtLargestMember()
    ensures Emitted(Runs([UINT32_LIMIT - 1])) == [Range(UINT32_LIMIT - 1, 0)]
  {
    assert RunLength([UINT32_LIMIT - 1]) == 1;
    assert [UINT32_LIMIT - 1][1..] == [];
  }

  /** The documented example: [0 1 4 5 6 7 10 15 16 17 18 19] gives [0,2), [4,8), [10,11), [15,20). */
  lemma DocumentedExample(s: seq<int>)
    requires s == [0, 1, 4, 5, 6, 7, 10, 15, 16, 17, 18, 19]
    ensures Runs(s) == [Run(0, 2), Run(4, 4), Run(10, 1), Run(15, 5)]
    ensures Emitted(Runs(s)) == [Range(0, 2), Range(4, 8), Range(10, 11), Range(15, 20)]
  {
    var s2 := s[2..];
    DocumentedTail(s2);
    RunLengthIs(s, 2);
    assert Runs(s) == [Run(0, 2)] + Runs(s2);
    DocumentedRanges(Runs(s));
  }

  /** The example's runs are reported as [0,2), [4,8), [10,11), [15,20). */
  lemma DocumentedRanges(rs: seq<Run>)
    requires rs == [Run(0, 2), Run(4, 4), Run(10, 1), Run(15, 5)]
    ensures Emitted(rs) == [Range(0, 2), Range(4, 8), Range(10, 11), Range(15, 20)]
  {
    var es := Emitted(rs);
    assert es[0] == Range(0, 2) && es[1] == Range(4, 8) && es[2] == Range(10, 11) && es[3] == Range(15, 20);
  }

  /** The example's members after the first run: [4 5 6 7 10 15 16 17 18 19]. */
  lemma DocumentedTail(s2: seq<int>)
    requires s2 == [4, 5, 6, 7, 10, 15, 16, 17, 18, 19]
    ensures Runs(s2) == [Run(4, 4), Run(10, 1), Run(15, 5)]
  {
    var s6, s7 := s2[4..], s2[5..];
    ConsecutiveIsOneRun(s7);
    RunLengthIs(s6, 1);
    assert s6[1..] == s7;
    assert Runs(s6) == [Run(10, 1)] + Runs(s7);
    RunLengthIs(s2, 4);
    assert Runs(s2) == [Run(4, 4)] + Runs(s6);
  }

  class BitmapRangeIterator {
    /** The bitmap's members, in the order the roaring iterator yields them. */
    const values: seq<int>
    /** How many members the roaring iterator has yielded so far. */
    var delivered: nat
    const buf: array<int>
    var bufPos: nat
    var bufSize: nat
    var eof: bool

    ghost predicate Valid()
      reads this, buf
    {
      && IsBitmap(values)
      && buf.Length == BATCH_SIZE
      && bufPos <= bufSize <= BATCH_SIZE
      && bufSize <= delivered <= |values|
      && (forall i :: 0 <= i < bufSize ==> buf[i] == values[delivered - bufSize + i])
      && (eof <==> bufSize == 0)
      && (eof ==> delivered == |values|)
      && (!eof ==> bufPos < bufSize)
    }

    /** Index in `values` of the next member not yet reported. */
    ghost function Position(): nat
      reads this
      requires bufSize <= delivered
    {
      delivered - bufSize + bufPos
    }

    /** The members not yet reported in any range. */
    ghost function Remaining(): seq<int>
      reads this, buf
      requires Valid()
    {
      values[Position()..]
    }

    constructor (bitmap: seq<int>)
      requires IsBitmap(bitmap)
      ensures Valid() && fresh(buf)
      ensures values == bitmap && Remaining() == bitmap
      ensures eof <==> bitmap == []
    {
      values := bitmap;
      buf := new int[BATCH_SIZE];
      delivered, bufPos, bufSize, eof := 0, 0, 0, false;
      new;
      ReadNextBatch();
    }

    /** Refill the buffer with the next at most 256 members (roaring_read_uint32_iterator). */
    method ReadNextBatch()
      requires IsBitmap(values) && buf.Length == BATCH_SIZE && delivered <= |values|
      modifies this`delivered, this`bufPos, this`bufSize, this`eof, buf
      ensures var n := if |values| - old(delivered) < BATCH_SIZE then |values| - old(delivered) else BATCH_SIZE;
              && delivered == old(delivered) + n
              && bufPos == 0 && bufSize == n && (eof <==> n == 0)
              && (forall i :: 0 <= i < n ==> buf[i] == values[old(delivered) + i])
    {
      var n := if |values| - delivered < BATCH_SIZE then |values| - delivered else BATCH_SIZE;
      forall i | 0 <= i < n {
        buf[i] := values[delivered + i];
      }
      delivered := delivered + n;
      bufPos := 0;
      bufSize := n;
      eof := n == 0;
    }

    /** Step past the current member, refilling the buffer once it is used up
        (the first half of the body of next_range's do-while loop). */
    method AdvanceBuffer()
      requires Valid() && !eof
      modifies this`delivered, this`bufPos, this`bufSize, this`eof, buf
      ensures Valid()
      ensures Position() == old(Position()) + 1
      ensures eof <==> Position() == |values|
      ensures !eof ==> buf[bufPos] == values[Position()]
    {
      bufPos := bufPos + 1;
      if bufPos == bufSize {
        ReadNextBatch();
      }
    }

    /** The do-while loop of next_range: step past every member that is one more than the
        last, so that the buffer ends at the first member after the run (or at eof). */
    method ScanRun(from: int) returns (lastVal: int)
      requires Valid() && !eof && buf[bufPos] == from
      modifies this`delivered, this`bufPos, this`bufSize, this`eof, buf
      ensures Valid()
      ensures old(Position()) < Position() <= |values|
      ensures forall i :: old(Position()) <= i < Position() ==> values[i] == from + (i - old(Position()))
      ensures Position() < |values| ==> values[Position()] != from + (Position() - old(Position()))
      ensures lastVal == Inc32(from + (Position() - old(Position()) - 1))
    {
      ghost var start := Position();
      lastVal := from;
      var stop := false;
      while !stop
        invariant Valid()
        invariant start <= Position() <= |values|
        invariant !stop ==> !eof && Position() < |values| && lastVal == values[Position()]
        invariant stop ==> start < Position() && lastVal == Inc32(from + (Position() - start - 1))
        invariant stop && Position() < |values| ==> values[Position()] != from + (Position() - start)
        invariant forall i :: start <= i < Position() + (if stop then 0 else 1) && i < |values| ==>
                    values[i] == from + (i - start)
        decreases |values| - Position(), if stop then 0 else 1
      {
        ghost var cur := Position();
        AdvanceBuffer();
        lastVal := Inc32(lastVal);
        if eof || buf[bufPos] != lastVal {
          if !eof && values[cur] == UINT32_LIMIT - 1 {
            // a member after 2^32 - 1 cannot exist
            assert false;
          }
          stop := true;
        } else {
          assert values[cur] < values[cur + 1];
        }
      }
    }

    /** Report the next maximal range [from, to); report false, leaving from0 and to0
        (what the caller's out-parameters held) untouched, once every member is reported. */
    method NextRange(from0: int, to0: int) returns (more: bool, from: int, to: int)
      requires Valid()
      modifies this`delivered, this`bufPos, this`bufSize, this`eof, buf
      ensures Valid()
      ensures more <==> old(Remaining()) != []
      ensures !more ==> from == from0 && to == to0 && eof && Remaining() == old(Remaining())
      ensures more ==> var n := RunLength(old(Remaining()));
                       && Range(from, to) == Emit(Run(old(Remaining())[0], n))
                       && Remaining() == old(Remaining())[n..]
    {
      if eof {
        return false, from0, to0;
      }
      more := true;
      ghost var rest := Remaining();
      ghost var start := Position();
      from := buf[bufPos];
      to := ScanRun(from);
      RunEndsAt(values, start, Position());
      assert rest[Position() - start..] == values[Position()..];
    }
  }

  /** Collecting the range of the next run keeps the collected ranges and the rest's ranges the whole output. */
  lemma DrainStep(whole: seq<Range>, before: seq<Range>, rest: seq<int>, r: Range)
    requires before + Emitted(Runs(rest)) == whole
    requires rest != [] && r == Emit(Run(rest[0], RunLength(rest)))
    ensures (before + [r]) + Emitted(Runs(rest[RunLength(rest)..])) == whole
  {
    EmittedStep(rest);
    var tail := Emitted(Runs(rest[RunLength(rest)..]));
    assert (before + [r]) + tail == before + ([r] + tail);
  }

  /** The loop a caller runs: drain the iterator, collecting every reported range. */
  method AllRanges(bitmap: seq<int>) returns (ranges: seq<Range>)
    requires IsBitmap(bitmap)
    ensures ranges == Emitted(Runs(bitmap))
  {
    var it := new BitmapRangeIterator(bitmap);
    ranges := [];
    var from, to := 0, 0;
    var more := true;
    while more
      invariant fresh(it) && fresh(it.buf)
      invariant it.Valid() && it.values == bitmap
      invariant ranges + Emitted(Runs(it.Remaining())) == Emitted(Runs(bitmap))
      invariant !more ==> it.Remaining() == []
      decreases |it.Remaining()|, more
    {
      ghost var rest := it.Remaining();
      more, from, to := it.NextRange(from, to);
      if more {
        DrainStep(Emitted(Runs(bitmap)), ranges, rest, Range(from, to));
        ranges := ranges + [Range(from, to)];
      }
    }
    assert Emitted(Runs(it.Remaining())) == [];
  }

  /** Draining the iterator over 300 consecutive values crosses a batch boundary and reports one range. */
  method DrainAcrossBatchBoundary(bitmap: seq<int>) returns (ranges: seq<Range>)
    requires |bitmap| == 300 && forall i :: 0 <= i < |bitmap| ==> bitmap[i] == 1000 + i
    ensures ranges == [Range(1000, 1300)]
  {
    ranges := AllRanges(bitmap);
    ConsecutiveIsOneRun(bitmap);
    assert Emitted([Run(1000, 300)])[0] == Range(1000, 1300);
  }
}
