/**
  The early-boot error log (`_fallback_bounded_append` and
  `_compact_fallback_segment` in bot_utils/errors.py): an active file and
  numbered backups that together keep the end of one append-only stream.  Any
  file operation may fail and end the call where it stands.
 */
module RotatingLog {
  import opened Wrappers

  const NEWLINE: Byte := 10

  /** File 0 is the active one, file `n` the n-th backup; a missing key is a missing file. */
  type Files = map<nat, seq<Byte>>

  function Content(files: Files, slot: nat): seq<Byte> {
    if slot in files then files[slot] else []
  }

  /** Oldest backup first, the active file last. */
  function Stream(files: Files, count: nat): seq<Byte> {
    if count == 0 then Content(files, 0) else Content(files, count) + Stream(files, count - 1)
  }

  predicate SuffixOf(tail: seq<Byte>, whole: seq<Byte>) {
    |tail| <= |whole| && tail == whole[|whole| - |tail|..]
  }

  function Min(a: nat, b: nat): nat {
    if a < b then a else b
  }

  /** A payload that is too long keeps its beginning and ends in a marker that says so. */
  function Fit(payload: seq<Byte>, marker: seq<Byte>, cap: nat): (fitted: seq<Byte>)
    requires marker != [] && cap > 0
    ensures |payload| <= cap ==> fitted == payload
    ensures |payload| > cap ==> |fitted| == cap
    ensures |payload| > cap >= |marker| ==> marker <= fitted[cap - |marker|..] && fitted[..cap - |marker|] <= payload
    ensures |payload| > cap && |marker| > cap ==> SuffixOf(fitted, marker)
  {
    if |payload| <= cap then payload
    else if |marker| <= cap then payload[..cap - |marker|] + marker
    else marker[|marker| - cap..]
  }

  // ------------------------------------------------------------ compaction

  /** Position after the first line end, or the length when there is none. */
  function AfterLineEnd(s: seq<Byte>): (i: nat)
    ensures i <= |s|
    ensures i > 0 && i <= |s| ==> s[i - 1] == NEWLINE || i == |s|
    ensures forall j :: 0 <= j < i - 1 ==> s[j] != NEWLINE
  {
    if s == [] then 0 else if s[0] == NEWLINE then 1 else 1 + AfterLineEnd(s[1..])
  }

  /** How much of a segment compaction keeps at most. */
  function Kept(cap: nat, reserve: nat): nat {
    Min(cap / 2, if reserve < cap then cap - reserve else 0)
  }

  /** The end of a segment, from a line start on. */
  function Compacted(segment: seq<Byte>, cap: nat, reserve: nat): seq<Byte> {
    var keep := Kept(cap, reserve);
    if |segment| <= keep then segment
    else
      var tail := segment[|segment| - keep..];
      tail[AfterLineEnd(tail)..]
  }

  /** Compaction only drops from the front, leaves room for the payload, and starts at a line or empties the file. */
  lemma CompactionKeepsAnEnd(segment: seq<Byte>, cap: nat, reserve: nat)
    ensures var c := Compacted(segment, cap, reserve);
            && SuffixOf(c, segment)
            && |c| <= cap / 2
            && (reserve <= cap ==> |c| + reserve <= cap)
            && (c != segment && c != [] ==> segment[|segment| - |c| - 1] == NEWLINE)
  {
    var keep := Kept(cap, reserve);
    if |segment| > keep {
      var tail := segment[|segment| - keep..];
      var c := tail[AfterLineEnd(tail)..];
      assert c == segment[|segment| - |c|..];
    }
  }

  /** Among the shorter ends that leave room, compaction keeps the longest that starts at a line. */
  lemma CompactionKeepsTheMost(segment: seq<Byte>, cap: nat, reserve: nat, n: nat)
    requires |Compacted(segment, cap, reserve)| < n < |segment| && n < cap / 2 && n + reserve < cap
    ensures segment[|segment| - n - 1] != NEWLINE
  {
    var keep := Kept(cap, reserve);
    if |segment| > keep {
      var tail := segment[|segment| - keep..];
      assert segment[|segment| - n - 1] == tail[keep - n - 1];
    }
  }

  /** A segment as the append finds it once oversized ones were compacted. */
  function Trimmed(segment: seq<Byte>, cap: nat, reserve: nat): seq<Byte> {
    if |segment| <= cap then segment else Compacted(segment, cap, reserve)
  }

  /** What compaction makes of one slot; only the active segment makes room for the payload. */
  function TrimmedAt(files: Files, slot: nat, cap: nat, count: nat, reserve: nat): seq<Byte> {
    if slot > count then Content(files, slot) else Trimmed(Content(files, slot), cap, if slot == 0 then reserve else 0)
  }

  ghost predicate IsTrimmed(before: Files, after: Files, cap: nat, count: nat, reserve: nat) {
    after.Keys == before.Keys && forall slot: nat ::
        Content(after, slot) == TrimmedAt(before, slot, cap, count, reserve)
  }

  /** Every segment that belongs to the log is within the cap. */
  ghost predicate Capped(files: Files, cap: nat, count: nat) {
    forall slot: nat :: slot <= count ==> |Content(files, slot)| <= cap
  }

  /** Whatever a segment was, afterwards it is within the cap, and an end of what it was, from a line start on. */
  lemma TrimmedIsAnEnd(files: Files, slot: nat, cap: nat, count: nat, reserve: nat)
    ensures var was, left := Content(files, slot), TrimmedAt(files, slot, cap, count, reserve);
            && SuffixOf(left, was)
            && (slot <= count ==> |left| <= cap)
            && (left != was && left != [] ==> was[|was| - |left| - 1] == NEWLINE)
            && (slot == 0 && |was| > cap && reserve <= cap ==> |left| + reserve <= cap)
  {
    CompactionKeepsAnEnd(Content(files, slot), cap, if slot == 0 then reserve else 0);
  }

  /**
    And not more is dropped than that takes: a segment within the cap or beyond
    the log stays as it is, and no longer end below half of the cap starts at a
    line, unless it is the active one and would not leave room for the payload.
   */
  lemma TrimmedIsTheMost(files: Files, slot: nat, cap: nat, count: nat, reserve: nat, n: nat)
    ensures slot > count || |Content(files, slot)| <= cap ==>
              TrimmedAt(files, slot, cap, count, reserve) == Content(files, slot)
    ensures |TrimmedAt(files, slot, cap, count, reserve)| < n < |Content(files, slot)| && n < cap / 2
            && (slot == 0 ==> n + reserve < cap) ==>
              Content(files, slot)[|Content(files, slot)| - n - 1] != NEWLINE
  {
    var was, room := Content(files, slot), if slot == 0 then reserve else 0;
    if |TrimmedAt(files, slot, cap, count, reserve)| < n < |was| && n < cap / 2 && n + room < cap {
      CompactionKeepsTheMost(was, cap, room, n);
    }
  }

  /** The shift: the oldest backup is gone, every other segment is one slot further. */
  ghost predicate IsShifted(before: Files, after: Files, count: nat) {
    && 0 !in after
    && (forall slot: nat {:trigger Content(after, slot)} {:trigger slot in after} :: 1 <= slot <= count ==>
          (slot in after <==> slot - 1 in before) && Content(after, slot) == Content(before, slot - 1))
    && (forall slot: nat {:trigger Content(after, slot)} {:trigger slot in after} :: slot > count ==>
          (slot in after <==> slot in before) && Content(after, slot) == Content(before, slot))
  }

  /** One segment has moved one slot up, into a free slot. */
  ghost predicate IsMoved(before: Files, after: Files, slot: nat)
    requires slot > 0
  {
    && slot - 1 !in after
    && (slot in after <==> slot - 1 in before) && Content(after, slot) == Content(before, slot - 1)
    && (forall s: nat {:trigger Content(after, s)} {:trigger s in after} :: s != slot && s != slot - 1 ==>
        (s in after <==> s in before) && Content(after, s) == Content(before, s))
  }

  /** The shift in progress: slots above `slot` are done, `slot` is free, those below are as they were. */
  ghost predicate IsPartlyShifted(before: Files, after: Files, slot: nat, count: nat) {
    && slot !in after
    && (forall s: nat {:trigger Content(after, s)} {:trigger s in after} :: s < slot || s > count ==>
        (s in after <==> s in before) && Content(after, s) == Content(before, s))
    && (forall s: nat {:trigger Content(after, s)} {:trigger s in after} :: slot < s <= count ==>
          (s in after <==> s - 1 in before) && Content(after, s) == Content(before, s - 1))
  }

  lemma MoveGoesOn(before: Files, mid: Files, after: Files, slot: nat, count: nat)
    requires 0 < slot <= count && IsPartlyShifted(before, mid, slot, count) && IsMoved(mid, after, slot)
    ensures IsPartlyShifted(before, after, slot - 1, count)
  {
  }

  lemma ShiftKeepsCap(before: Files, after: Files, slot: nat, cap: nat, count: nat)
    requires IsPartlyShifted(before, after, slot, count) && Capped(before, cap, count)
    ensures Capped(after, cap, count)
  {
    forall s: nat | s <= count ensures |Content(after, s)| <= cap {
      if s > slot {
        assert |Content(before, s - 1)| <= cap;
      }
    }
  }

  /** A payload was appended, to a new active segment if it does not fit into the old one. */
  ghost predicate IsAppended(before: Files, after: Files, payload: seq<Byte>, cap: nat, count: nat) {
    if Content(before, 0) != [] && |Content(before, 0)| + |payload| > cap
    then exists shifted: Files :: IsShifted(before, shifted, count) && after == shifted[0 := payload]
    else after == before[0 := Content(before, 0) + payload]
  }

  // ----------------------------------------------------------- moving files

  lemma {:induction false} StreamOfSame(files: Files, files': Files, count: nat)
    requires forall slot: nat :: slot <= count ==> Content(files, slot) == Content(files', slot)
    ensures Stream(files, count) == Stream(files', count)
  {
    if count > 0 {
      StreamOfSame(files, files', count - 1);
    }
  }

  /** Moving a file one slot up, into an empty slot, leaves the stream as it is. */
  lemma {:induction false} MoveKeepsStream(files: Files, slot: nat, count: nat)
    requires 1 <= slot <= count && slot !in files && slot - 1 in files
    ensures Stream((files - {slot - 1})[slot := files[slot - 1]], count) == Stream(files, count)
  {
    var moved := (files - {slot - 1})[slot := files[slot - 1]];
    if slot < count {
      MoveKeepsStream(files, slot, count - 1);
    } else if slot == 1 {
      assert Stream(moved, 0) == [] && Stream(files, 0) == Content(files, 0);
      assert Stream(moved, 1) == Content(files, 0) + [] && Stream(files, 1) == [] + Content(files, 0);
    } else {
      StreamOfSame(moved, files, slot - 2);
      var rest := Stream(files, slot - 2);
      assert Stream(moved, slot) == files[slot - 1] + ([] + rest);
      assert Stream(files, slot) == [] + (files[slot - 1] + rest);
    }
  }

  /** Dropping the oldest backup drops the beginning of the stream. */
  lemma DropOldest(files: Files, count: nat)
    requires count > 0
    ensures Stream(files - {count}, count) == Stream(files, count - 1)
    ensures Stream(files, count) == Content(files, count) + Stream(files - {count}, count)
  {
    StreamOfSame(files - {count}, files, count - 1);
  }

  /** Bytes added to the active file are added to the stream. */
  lemma {:induction false} AppendExtendsStream(files: Files, added: seq<Byte>, count: nat)
    ensures Stream(files[0 := Content(files, 0) + added], count) == Stream(files, count) + added
  {
    var longer := files[0 := Content(files, 0) + added];
    if count > 0 {
      AppendExtendsStream(files, added, count - 1);
      assert Content(longer, count) == Content(files, count);
      assert Content(files, count) + (Stream(files, count - 1) + added) == Stream(files, count) + added;
    }
  }

  // ------------------------------------------------------------------ the log

  /**
    Which file operations succeed in one call, in the order they are tried, and
    how much a failed write or a failed compaction has written.
   */
  datatype Faults = Faults(
    locked: bool,
    compact: nat -> bool,
    overwritten: nat,
    remove: bool,
    move: nat -> bool,
    write: bool,
    partial: nat)

  predicate CanCompact(files: Files, slot: nat, cap: nat, f: Faults) {
    |Content(files, slot)| <= cap || f.compact(slot)
  }

  predicate CanMove(files: Files, slot: nat, f: Faults) {
    slot - 1 in files ==> f.move(slot)
  }

  /** Every segment below the last can be moved on, down to that slot. */
  predicate CanMoveTo(files: Files, slot: nat, count: nat, f: Faults)
    decreases count - slot
  {
    slot >= count || (CanMove(files, slot + 1, f) && CanMoveTo(files, slot + 1, count, f))
  }

  predicate CanShift(files: Files, count: nat, f: Faults) {
    (count in files ==> f.remove) && CanMoveTo(files, 0, count, f)
  }

  lemma {:induction false} OneStops(files: Files, slot: nat, count: nat, f: Faults)
    requires !CanMoveTo(files, slot, count, f)
    ensures !CanMoveTo(files, 0, count, f)
  {
    if slot > 0 {
      assert !CanMoveTo(files, slot - 1, count, f);
      OneStops(files, slot - 1, count, f);
    }
  }

  lemma {:induction false} SameFilesMove(a: Files, b: Files, slot: nat, count: nat, f: Faults)
    requires a.Keys == b.Keys
    ensures CanMoveTo(a, slot, count, f) == CanMoveTo(b, slot, count, f)
    decreases count - slot
  {
    if slot < count {
      assert slot in a.Keys <==> slot in b.Keys;
      SameFilesMove(a, b, slot + 1, count, f);
    }
  }

  /** The moves go through exactly when each segment that is there can be moved. */
  lemma {:induction false} CanMoveToIff(files: Files, slot: nat, count: nat, f: Faults)
    ensures CanMoveTo(files, slot, count, f) <==>
              forall s: nat :: slot <= s < count && s in files ==> f.move(s + 1)
    decreases count - slot
  {
    if slot < count {
      CanMoveToIff(files, slot + 1, count, f);
    }
  }

  lemma SameFilesShift(a: Files, b: Files, count: nat, f: Faults)
    requires a.Keys == b.Keys
    ensures CanShift(a, count, f) == CanShift(b, count, f)
  {
    SameFilesMove(a, b, 0, count, f);
    assert count in a.Keys <==> count in b.Keys;
  }

  /** Lock, compactions, shift and write succeed, as far as they are needed. */
  predicate CanAppend(files: Files, payload: seq<Byte>, cap: nat, count: nat, f: Faults) {
    && f.locked && f.write
    && (forall slot: nat :: slot <= count ==> CanCompact(files, slot, cap, f))
    && (NeedsShift(TrimmedAt(files, 0, cap, count, |payload|), payload, cap) ==> CanShift(files, count, f))
  }

  predicate NeedsShift(active: seq<Byte>, payload: seq<Byte>, cap: nat) {
    active != [] && |active| + |payload| > cap
  }

  class Log {
    const cap: nat
    const count: nat
    var files: Files
    /** Every byte that was ever written. */
    ghost var written: seq<Byte>

    /** The log as this module alone leaves it. */
    ghost predicate Valid()
      reads this
    {
      cap > 0 && count > 0 && Capped(files, cap, count) && SuffixOf(Stream(files, count), written)
    }

    constructor (cap: nat, count: nat)
      requires cap > 0 && count > 0
      ensures Valid() && this.cap == cap && this.count == count && written == []
    {
      this.cap, this.count, files, written := cap, count, map[], [];
      new;
      NoFilesNoStream(count);
    }

    /**
      `_compact_fallback_segment` for an oversized segment; a failure can leave
      the tail written over the beginning.
     */
    method CompactSegment(slot: nat, reserve: nat, f: Faults) returns (ok: bool)
      modifies this`files
      ensures files.Keys == old(files.Keys) && forall s: nat :: s != slot ==>
          Content(files, s) == old(Content(files, s))
      ensures ok ==> Content(files, slot) == Trimmed(old(Content(files, slot)), cap, reserve)
      ensures |old(Content(files, slot))| <= cap ==> files == old(files)
      ensures ok == CanCompact(old(files), slot, cap, f)
    {
      if slot !in files || |files[slot]| <= cap {
        return true;
      }
      var segment := files[slot];
      var tail := Compacted(segment, cap, reserve);
      if !f.compact(slot) {
        var n := Min(f.overwritten, |tail|);
        files := files[slot := tail[..n] + segment[Min(n, |segment|)..]];
        return false;
      }
      files := files[slot := tail];
      ok := true;
    }

    /** Oversized segments are compacted, the backups first. */
    method CompactOversized(reserve: nat, f: Faults) returns (ok: bool)
      modifies this`files
      ensures ok ==> IsTrimmed(old(files), files, cap, count, reserve)
      ensures old(Capped(files, cap, count)) ==> files == old(files)
      ensures ok == forall slot: nat :: slot <= count ==> CanCompact(old(files), slot, cap, f)
    {
      ghost var was := files;
      var slot := 1;
      while slot <= count
        invariant 1 <= slot <= count + 1 && files.Keys == was.Keys
        invariant forall s: nat ::
                    Content(files, s) == if 1 <= s < slot then TrimmedAt(was, s, cap, count, reserve)
                        else Content(was, s)
        invariant Capped(was, cap, count) ==> files == was
        invariant forall s: nat :: 1 <= s < slot ==> CanCompact(was, s, cap, f)
      {
        assert Content(files, slot) == Content(was, slot);
        var done := CompactSegment(slot, 0, f);
        if !done {
          assert !CanCompact(was, slot, cap, f);
          return false;
        }
        slot := slot + 1;
      }
      assert Content(files, 0) == Content(was, 0);
      assert CanCompact(files, 0, cap, f) == CanCompact(was, 0, cap, f);
      ok := CompactSegment(0, reserve, f);
    }

    /** One rename of the shift, into a slot that is free. */
    method MoveUp(slot: nat, f: Faults) returns (ok: bool)
      requires 1 <= slot <= count && slot !in files
      modifies this`files
      ensures Stream(files, count) == old(Stream(files, count))
      ensures ok == CanMove(old(files), slot, f)
      ensures !ok ==> files == old(files)
      ensures ok ==> IsMoved(old(files), files, slot)
    {
      if slot - 1 in files {
        if !f.move(slot) {
          return false;
        }
        MoveKeepsStream(files, slot, count);
        files := (files - {slot - 1})[slot := files[slot - 1]];
      }
      ok := true;
    }

    /** One turn of the shift; `before` still had the oldest segment. */
    method ShiftOne(slot: nat, f: Faults, ghost before: Files) returns (ok: bool)
      requires 1 <= slot <= count && IsPartlyShifted(before, files, slot, count)
      modifies this`files
      ensures Stream(files, count) == old(Stream(files, count))
      ensures IsPartlyShifted(before, files, if ok then slot - 1 else slot, count)
      ensures ok == CanMove(before, slot, f)
    {
      ghost var mid := files;
      ok := MoveUp(slot, f);
      if ok {
        MoveGoesOn(before, mid, files, slot, count);
      }
    }

    /** Every backup one slot up and the active file to slot 1, from the oldest on. */
    method ShiftUp(f: Faults, ghost before: Files) returns (ok: bool)
      requires IsPartlyShifted(before, files, count, count)
      modifies this`files
      ensures Stream(files, count) == old(Stream(files, count))
      ensures ok ==> IsPartlyShifted(before, files, 0, count)
      ensures ok == CanMoveTo(before, 0, count, f)
      ensures Capped(before, cap, count) ==> Capped(files, cap, count)
    {
      var slot := count;
      ok := true;
      while slot > 0 && ok
        invariant 0 <= slot <= count && IsPartlyShifted(before, files, slot, count)
        invariant Stream(files, count) == old(Stream(files, count))
        invariant ok ==> CanMoveTo(before, slot, count, f)
        invariant !ok ==> slot > 0 && !CanMove(before, slot, f)
        decreases slot, ok
      {
        ok := ShiftOne(slot, f, before);
        if ok {
          slot := slot - 1;
        }
      }
      if !ok {
        OneStops(before, slot - 1, count, f);
      }
      if Capped(before, cap, count) {
        ShiftKeepsCap(before, files, slot, cap, count);
      }
    }

    /** The shift: oldest away, every other backup one slot up, the active file to slot 1. */
    method Rotate(f: Faults) returns (ok: bool)
      requires count > 0
      modifies this`files
      ensures Stream(files, count) == old(Stream(files, count))
           || old(Stream(files, count)) == old(Content(files, count)) + Stream(files, count)
      ensures ok ==> IsShifted(old(files), files, count)
      ensures ok == CanShift(old(files), count, f)
      ensures old(Capped(files, cap, count)) ==> Capped(files, cap, count)
    {
      ghost var before := files;
      DropOldest(files, count);
      if count in files && !f.remove {
        return false;
      }
      files := files - {count};
      ok := ShiftUp(f, before);
    }

    /** The append to segments that are within the cap. */
    method AppendPayload(payload: seq<Byte>, f: Faults) returns (ok: bool)
      requires cap > 0 && count > 0 && |payload| <= cap && Capped(files, cap, count)
      modifies this
      ensures Capped(files, cap, count)
      ensures old(SuffixOf(Stream(files, count), written)) ==> SuffixOf(Stream(files, count), written)
      ensures ok ==> IsAppended(old(files), files, payload, cap, count) && written == old(written) + payload
      ensures !ok ==> exists n: nat :: n <= |payload| && written == old(written) + payload[..n]
      ensures ok <==> f.write && (old(NeedsShift(Content(files, 0), payload, cap)) ==> CanShift(old(files), count, f))
    {
      ghost var before := files;
      var size := if 0 in files then |files[0]| else 0;
      if size + |payload| > cap && size > 0 {
        var rotated := Rotate(f);
        SuffixAfterShift(Content(before, count), Stream(before, count), Stream(files, count), written);
        if !rotated {
          assert written == old(written) + payload[..0];
          return false;
        }
      }
      var n := if f.write then |payload| else Min(f.partial, |payload|);
      var added := payload[..n];
      AppendExtendsStream(files, added, count);
      if SuffixOf(Stream(files, count), written) {
        GrowingKeepsSuffix(Stream(files, count), written, added);
      }
      ghost var shifted := files;
      assert |Content(shifted, 0)| + |added| <= cap;
      files := files[0 := Content(files, 0) + added];
      assert forall s: nat :: s > 0 ==> Content(files, s) == Content(shifted, s);
      written := written + added;
      assert f.write ==> added == payload && files[0] == Content(shifted, 0) + payload;
      assert 0 !in shifted ==> [] + payload == payload;
      ok := f.write;
    }

    /**
      `_fallback_bounded_append`.  Segments that others have oversized are
      compacted first; on a log that only this module has written, `Valid` is
      kept whatever fails.
     */
    method Append(text: seq<Byte>, marker: seq<Byte>, f: Faults) returns (ok: bool)
      requires cap > 0 && count > 0 && marker != []
      modifies this
      ensures ok ==> var payload := Fit(text, marker, cap);
                     && Capped(files, cap, count) && written == old(written) + payload
                     && exists trimmed: Files :: IsTrimmed(old(files), trimmed, cap, count, |payload|)
                                                 && IsAppended(trimmed, files, payload, cap, count)
      ensures !ok ==> var payload := Fit(text, marker, cap);
                      exists n: nat :: n <= |payload| && written == old(written) + payload[..n]
      ensures ok == CanAppend(old(files), Fit(text, marker, cap), cap, count, f)
      ensures old(Valid()) ==> Valid()
    {
      var payload := Fit(text, marker, cap);
      if !f.locked {
        assert written == old(written) + payload[..0];
        return false;
      }
      var compacted := CompactOversized(|payload|, f);
      if !compacted {
        assert written == old(written) + payload[..0];
        return false;
      }
      forall slot: nat | slot <= count ensures |Content(files, slot)| <= cap {
        TrimmedIsAnEnd(old(files), slot, cap, count, |payload|);
      }
      SameFilesShift(old(files), files, count, f);
      ok := AppendPayload(payload, f);
    }
  }

  /** A shift, complete or not, drops at most the oldest segment from the front. */
  lemma SuffixAfterShift(oldest: seq<Byte>, before: seq<Byte>, after: seq<Byte>, whole: seq<Byte>)
    requires after == before || before == oldest + after
    ensures SuffixOf(before, whole) ==> SuffixOf(after, whole)
  {
    if before == oldest + after && SuffixOf(before, whole) {
      DroppingKeepsSuffix(oldest, after, whole);
    }
  }

  lemma {:induction false} NoFilesNoStream(count: nat)
    ensures Stream(map[], count) == []
  {
    if count > 0 {
      NoFilesNoStream(count - 1);
    }
  }

  lemma DroppingKeepsSuffix(front: seq<Byte>, rest: seq<Byte>, whole: seq<Byte>)
    requires SuffixOf(front + rest, whole)
    ensures SuffixOf(rest, whole)
  {
    assert rest == (front + rest)[|front|..];
  }

  lemma GrowingKeepsSuffix(tail: seq<Byte>, whole: seq<Byte>, added: seq<Byte>)
    requires SuffixOf(tail, whole)
    ensures SuffixOf(tail + added, whole + added)
  {
  }
}
