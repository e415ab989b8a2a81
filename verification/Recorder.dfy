/** The flight recorder: a segment that is rotated into archives under a size and age limit, and
    the tails of growing log files. */
module Recorder {
  import opened Protocol
  import opened Trees

  // ----------------------------------------------------------------------------------------
  // Archives

  const MAX_SEGMENT := 8 * 1024 * 1024
  const SECOND := 1_000_000
  const HOUR := 3600 * SECOND
  const RETENTION := 14 * 86400 * SECOND

  /** A rotated segment: the time in its name, what it holds, its compressed size on disk, and the
      time the file system gives it. Times are in microseconds. */
  datatype Segment = Segment(stamp: int, content: Bytes, size: nat, mtime: int)

  function Total(s: seq<Segment>): nat {
    if s == [] then 0 else s[0].size + Total(s[1..])
  }

  predicate Young(s: Segment, now: int) {
    now - s.mtime < RETENTION
  }

  /** What retention keeps, in closed form: the young segments of the longest run of newest ones
      that fits. */
  function Kept(s: seq<Segment>, limit: int, now: int): seq<Segment> {
    if s == [] then [] else (if Young(s[0], now) && Total(s) <= limit then [s[0]] else []) + Kept(s[1..], limit, now)
  }

  lemma TotalPlus(a: seq<Segment>, b: seq<Segment>)
    ensures Total(a + b) == Total(a) + Total(b)
  {
    if a == [] {
      assert a + b == b;
    } else {
      assert (a + b)[1..] == a[1..] + b;
      TotalPlus(a[1..], b);
    }
  }

  ghost predicate FitsFrom(s: seq<Segment>, limit: int, now: int, x: Segment, k: int) {
    0 <= k < |s| && s[k] == x && now - x.mtime < 1_209_600_000_000 && Total(s[k..]) <= limit
  }

  /** A segment survives if and only if it is less than fourteen days old and it and all newer ones fit
      together. */
  lemma {:induction false} KeptMeans(s: seq<Segment>, limit: int, now: int, x: Segment)
    ensures x in Kept(s, limit, now) <==> exists k :: FitsFrom(s, limit, now, x, k)
  {
    hide Kept, Total, Young;
    if s == [] {
      NothingFits(limit, now, x);
    } else {
      var rest := s[1..];
      KeptHead(s, limit, now);
      KeptMeans(rest, limit, now, x);
      FirstFits(s, limit, now, x);
      if x in Kept(rest, limit, now) {
        var k :| FitsFrom(rest, limit, now, x, k);
        LaterFits(s, limit, now, x, k);
      }
      forall k | FitsFrom(s, limit, now, x, k) && k != 0 ensures x in Kept(rest, limit, now) {
        LaterFits(s, limit, now, x, k - 1);
      }
    }
  }

  lemma NothingFits(limit: int, now: int, x: Segment)
    ensures x !in Kept([], limit, now) && forall k :: !FitsFrom([], limit, now, x, k)
  {
  }

  lemma FirstFits(s: seq<Segment>, limit: int, now: int, x: Segment)
    requires s != []
    ensures FitsFrom(s, limit, now, x, 0) <==> s[0] == x && Young(x, now) && Total(s) <= limit
  {
    assert s[0..] == s;
  }

  lemma LaterFits(s: seq<Segment>, limit: int, now: int, x: Segment, k: int)
    requires s != [] && 0 <= k
    ensures FitsFrom(s[1..], limit, now, x, k) <==> FitsFrom(s, limit, now, x, k + 1)
  {
    if k < |s| - 1 { assert s[1..][k..] == s[k + 1..]; }
  }

  lemma KeptHead(s: seq<Segment>, limit: int, now: int)
    requires s != []
    ensures Total(s) == s[0].size + Total(s[1..])
    ensures Kept(s, limit, now)
      == (if Young(s[0], now) && Total(s) <= limit then [s[0]] else []) + Kept(s[1..], limit, now)
  {
  }

  /** What survives is within the limit, unless nothing survives. */
  lemma {:induction false} KeptFits(s: seq<Segment>, limit: int, now: int)
    ensures Total(Kept(s, limit, now)) <= Total(s)
    ensures Kept(s, limit, now) == [] || Total(Kept(s, limit, now)) <= limit
    ensures forall x :: x in Kept(s, limit, now) ==> Young(x, now)
  {
    if s != [] {
      KeptFits(s[1..], limit, now);
      TotalPlus([s[0]], Kept(s[1..], limit, now));
      assert Kept(s, limit, now) == Kept(s[1..], limit, now)
        || Kept(s, limit, now) == [s[0]] + Kept(s[1..], limit, now);
    }
  }

  predicate Sorted(s: seq<Segment>) {
    forall i, k :: 0 <= i < k < |s| ==> s[i].stamp < s[k].stamp
  }

  /** The place of a new name among the sorted ones. */
  function Inserted(s: seq<Segment>, x: Segment): (r: seq<Segment>)
    ensures |r| == |s| + 1 && forall y :: y in r <==> y in s || y == x
  {
    if s == [] then [x]
    else if x.stamp < s[0].stamp then [x] + s
    else [s[0]] + Inserted(s[1..], x)
  }

  lemma {:induction false} InsertedSorted(s: seq<Segment>, x: Segment)
    requires Sorted(s) && forall i :: 0 <= i < |s| ==> s[i].stamp != x.stamp
    ensures Sorted(Inserted(s, x))
  {
    if s != [] && s[0].stamp < x.stamp {
      var rest := Inserted(s[1..], x);
      InsertedSorted(s[1..], x);
      forall y | y in rest ensures s[0].stamp < y.stamp {
        if y != x { var k :| 0 <= k < |s[1..]| && s[1..][k] == y; }
      }
    }
  }

  /** After the first `i` segments: the running total is that of the kept and the coming ones, and
      keeping on will keep what the closed form keeps. */
  ghost predicate Retaining(all: seq<Segment>, limit: int, now: int, i: nat, kept: seq<Segment>, total: int)
    requires i <= |all|
  {
    && total == Total(kept) + Total(all[i..])
    && (kept != [] ==> total <= limit)
    && kept + Kept(all[i..], limit, now) == Kept(all, limit, now)
    && Sorted(kept) && forall k, l :: 0 <= k < |kept| && i <= l < |all| ==> kept[k].stamp < all[l].stamp
  }

  lemma Starting(all: seq<Segment>, limit: int, now: int)
    ensures Retaining(all, limit, now, 0, [], Total(all))
  {
    assert all[0..] == all && [] + Kept(all, limit, now) == Kept(all, limit, now);
  }

  lemma RetainNext(all: seq<Segment>, limit: int, now: int, i: nat, kept: seq<Segment>, total: int)
    requires i < |all| && Sorted(all) && Retaining(all, limit, now, i, kept, total)
    ensures total <= limit && Young(all[i], now) ==> Retaining(all, limit, now, i + 1, kept + [all[i]], total)
    ensures !(total <= limit && Young(all[i], now)) ==> Retaining(all, limit, now, i + 1, kept, total - all[i].size)
  {
    hide Total, Kept, Young;
    var left, rest, grown := all[i..], all[i + 1..], kept + [all[i]];
    assert left[0] == all[i] && left[1..] == rest;
    KeptHead(left, limit, now);
    TotalOneMore(kept, all[i]);
    TotalNone();
    assert kept + ([all[i]] + Kept(rest, limit, now)) == grown + Kept(rest, limit, now);
    assert kept + ([] + Kept(rest, limit, now)) == kept + Kept(rest, limit, now);
    assert Young(all[i], now) && total <= limit <==> Young(all[i], now) && Total(left) <= limit;
  }

  lemma TotalOneMore(s: seq<Segment>, x: Segment)
    ensures Total(s + [x]) == Total(s) + x.size
  {
    TotalPlus(s, [x]);
    assert Total([x]) == x.size + Total([]);
  }

  lemma TotalNone()
    ensures Total([]) == 0
  {
  }

  lemma Retained(all: seq<Segment>, limit: int, now: int, kept: seq<Segment>, total: int)
    requires Retaining(all, limit, now, |all|, kept, total)
    ensures kept == Kept(all, limit, now) && Sorted(kept)
  {
    assert all[|all|..] == [] && kept + [] == kept;
  }

  datatype Outcome = Stored | NoSpace | Oversized | NameTaken

  class Archive {
    const maxTotal: int
    const minFree: int
    var current: Option<Bytes>
    var segments: seq<Segment>
    var segmentStarted: int

    ghost predicate Valid()
      reads this
    {
      Sorted(segments)
    }

    /** Over a directory that may hold anything from earlier runs. */
    constructor (maxTotal: int, minFree: int, now: int, current: Option<Bytes>, segments: seq<Segment>)
      requires Sorted(segments)
      ensures Valid() && this.current == current && this.segments == segments && segmentStarted == now
      ensures this.maxTotal == maxTotal && this.minFree == minFree
    {
      this.maxTotal, this.minFree := maxTotal, minFree;
      this.current, this.segments, segmentStarted := current, segments, now;
    }

    /** A full or hour-old segment is due. */
    predicate Due(now: int)
      reads this
    {
      current.Some? && (|current.value| >= MAX_SEGMENT || now - segmentStarted >= HOUR)
    }

    /** The current segment moves whole into a new archive; then retention goes through all of
        them, oldest name first, with one running total. */
    method Rotate(now: int, compressed: nat, mtime: int) returns (ok: bool)
      requires Valid()
      modifies this
      ensures Valid()
      ensures ok <==> !(old(Due(now)) && exists i :: 0 <= i < |old(segments)| && old(segments)[i].stamp == now)
      ensures !ok ==> current == old(current) && segments == old(segments) && segmentStarted == old(segmentStarted)
      ensures ok ==>
        segments == Kept(if old(Due(now))
                         then Inserted(old(segments), Segment(now, old(current).value, compressed, mtime))
                         else old(segments), maxTotal - MAX_SEGMENT, now)
      ensures ok ==> if old(Due(now)) then current.None? && segmentStarted == now
                     else current == old(current) && segmentStarted == old(segmentStarted)
    {
      if Due(now) {
        if exists i :: 0 <= i < |segments| && segments[i].stamp == now {
          return false;
        }
        var x := Segment(now, current.value, compressed, mtime);
        InsertedSorted(segments, x);
        segments := Inserted(segments, x);
        current := None;
        segmentStarted := now;
      }
      Retain(now);
      return true;
    }

    method Retain(now: int)
      requires Valid()
      modifies this`segments
      ensures Valid() && segments == Kept(old(segments), maxTotal - MAX_SEGMENT, now)
    {
      hide Kept, Total, Young, Sorted;
      var limit := maxTotal - MAX_SEGMENT;
      var all := segments;
      var total: int := Total(all);
      var kept: seq<Segment> := [];
      Starting(all, limit, now);
      for i := 0 to |all|
        invariant Retaining(all, limit, now, i, kept, total)
      {
        RetainNext(all, limit, now, i, kept, total);
        if total <= limit && Young(all[i], now) {
          kept := kept + [all[i]];
        } else {
          total := total - all[i].size;
        }
      }
      Retained(all, limit, now, kept, total);
      segments := kept;
    }

    /** One record more. Whatever the archives looked like before, after a stored record they and
        the current segment together stay below the limit plus one segment. */
    method Append(raw: Bytes, now: int, free: int, compressed: nat, mtime: int) returns (outcome: Outcome)
      requires Valid()
      modifies this
      ensures Valid()
      ensures outcome == Oversized <==> |raw| > MAX_SEGMENT
      ensures outcome in {Oversized, NoSpace, NameTaken}
        ==> current == old(current) && segments == old(segments) && segmentStarted == old(segmentStarted)
      ensures outcome == NoSpace <==> |raw| <= MAX_SEGMENT && free < minFree + |raw| + MAX_SEGMENT
      ensures outcome == NameTaken <==>
        && |raw| <= MAX_SEGMENT && free >= minFree + |raw| + MAX_SEGMENT
        && old(Due(now)) && exists i :: 0 <= i < |old(segments)| && old(segments)[i].stamp == now
      ensures outcome == Stored ==>
        && segments == Kept(if old(Due(now))
                            then Inserted(old(segments), Segment(now, old(current).value, compressed, mtime))
                            else old(segments), maxTotal - MAX_SEGMENT, now)
        && current == Some((if old(Due(now)) || old(current).None? then [] else old(current).value) + raw)
        && Bounded(segments, current, maxTotal)
        && (forall s :: s in segments ==> Young(s, now))
        && segmentStarted == (if old(Due(now)) then now else old(segmentStarted))
      // A new segment is begun when the current one has 8 MiB, or is an hour old.
      ensures outcome == Stored && old(current).Some? ==>
        current == Some(if |old(current).value| >= 8_388_608 || now - old(segmentStarted) >= 3_600_000_000 then raw
                        else old(current).value + raw)
    {
      hide Kept, Total, Young, Sorted;
      if |raw| > MAX_SEGMENT {
        return Oversized;
      }
      if free < minFree + |raw| + MAX_SEGMENT {
        return NoSpace;
      }
      ghost var all := if Due(now) then Inserted(segments, Segment(now, current.value, compressed, mtime))
        else segments;
      var rotated := Rotate(now, compressed, mtime);
      if !rotated {
        return NameTaken;
      }
      KeptFits(all, maxTotal - MAX_SEGMENT, now);
      TotalNone();
      assert [] + raw == raw;
      current := Some((if current.Some? then current.value else []) + raw);
      return Stored;
    }
  }

  /** The archives fit beside one full segment, and everything together is below the limit plus
      one more; with a limit below one segment nothing is archived at all. */
  ghost predicate Bounded(segments: seq<Segment>, current: Option<Bytes>, maxTotal: int) {
    && (segments == [] || Total(segments) <= maxTotal - 8_388_608)
    && (current.Some? ==> |current.value| < 16_777_216)
    && (maxTotal >= 8_388_608 ==>
          Total(segments) + (if current.Some? then |current.value| else 0) < maxTotal + 8_388_608)
  }

  // ----------------------------------------------------------------------------------------
  // Tails

  const CHUNK := 131072
  const MAX_FILES := 16

  datatype Mark = Mark(inode: nat, offset: nat)

  /** A log file as one sample finds it: its identity and size when it is looked at, and its
      content when it is read, a moment later. */
  datatype LogFile = LogFile(path: string, regular: bool, inode: nat, size: nat, content: Bytes)

  datatype Chunk = Chunk(path: string, offset: nat, raw: Bytes)

  function StartAt(known: Option<Mark>, f: LogFile): nat {
    var mark := if known.Some? then known.value else Mark(f.inode, if f.size > CHUNK then f.size - CHUNK else 0);
    if mark.inode == f.inode && mark.offset <= f.size then mark.offset else 0
  }

  function ReadFrom(f: LogFile, offset: nat): Bytes {
    if offset >= |f.content| then []
    else if |f.content| - offset <= CHUNK then f.content[offset..]
    else f.content[offset..offset + CHUNK]
  }

  function MarkAfter(known: Option<Mark>, f: LogFile): Mark {
    Mark(f.inode, StartAt(known, f) + |ReadFrom(f, StartAt(known, f))|)
  }

  function MarkOf(offsets: map<string, Mark>, path: string): Option<Mark> {
    if path in offsets then Some(offsets[path]) else None
  }

  function OffsetsAfter(offsets: map<string, Mark>, files: seq<LogFile>): map<string, Mark> {
    if files == [] then offsets
    else
      var f, before := files[|files| - 1], OffsetsAfter(offsets, files[..|files| - 1]);
      if f.regular then before[f.path := MarkAfter(MarkOf(before, f.path), f)] else before
  }

  /** What one sample takes from one file. */
  function TailOf(known: Option<Mark>, f: LogFile): seq<Chunk> {
    var raw := ReadFrom(f, StartAt(known, f));
    if f.regular && raw != [] then [Chunk(f.path, StartAt(known, f), raw)] else []
  }

  function ChunksAfter(offsets: map<string, Mark>, files: seq<LogFile>): seq<Chunk> {
    if files == [] then []
    else
      var f, before := files[|files| - 1], files[..|files| - 1];
      ChunksAfter(offsets, before) + TailOf(MarkOf(OffsetsAfter(offsets, before), f.path), f)
  }

  /** The names are sorted; only the first ones are looked at. */
  function Taken(sorted: seq<LogFile>): seq<LogFile> {
    if |sorted| <= 16 then sorted else sorted[..16]
  }

  /** Every file that was looked at, sample after sample. */
  function Looked(samples: seq<seq<LogFile>>): seq<LogFile> {
    if samples == [] then [] else Looked(samples[..|samples| - 1]) + Taken(samples[|samples| - 1])
  }

  class Observer {
    var offsets: map<string, Mark>

    // What every sample so far has found.
    ghost var samples: seq<seq<LogFile>>

    ghost predicate Valid()
      reads this
    {
      offsets == OffsetsAfter(map[], Looked(samples))
    }

    constructor ()
      ensures Valid() && samples == []
    {
      offsets, samples := map[], [];
    }

    /** The new parts of at most sixteen files, in the order of their names. */
    method TailFiles(sorted: seq<LogFile>) returns (results: seq<Chunk>)
      requires Valid()
      modifies this
      ensures offsets == OffsetsAfter(old(offsets), Taken(sorted))
      ensures results == ChunksAfter(old(offsets), Taken(sorted))
      ensures Valid() && samples == old(samples) + [sorted]
      ensures ChunksAfter(map[], Looked(samples)) == ChunksAfter(map[], Looked(old(samples))) + results
    {
      hide ReadFrom, StartAt, Looked, OffsetsAfter, ChunksAfter;
      NoFiles(offsets);
      var files := if |sorted| <= MAX_FILES then sorted else sorted[..MAX_FILES];
      results := [];
      for i := 0 to |files|
        invariant offsets == OffsetsAfter(old(offsets), files[..i]) && results == ChunksAfter(old(offsets), files[..i])
        invariant samples == old(samples)
      {
        var f := files[i];
        NextFile(old(offsets), files, i);
        if f.regular {
          var start := StartAt(MarkOf(offsets, f.path), f);
          var raw := ReadFrom(f, start);
          offsets := offsets[f.path := Mark(f.inode, start + |raw|)];
          if raw != [] {
            results := results + [Chunk(f.path, start, raw)];
          }
        }
      }
      assert files[..|files|] == files;
      SampleTaken(samples, sorted);
      samples := samples + [sorted];
    }
  }

  lemma NoFiles(offsets: map<string, Mark>)
    ensures OffsetsAfter(offsets, []) == offsets && ChunksAfter(offsets, []) == []
  {
  }

  lemma NextFile(offsets: map<string, Mark>, files: seq<LogFile>, i: nat)
    requires i < |files|
    ensures var before, f := OffsetsAfter(offsets, files[..i]), files[i];
      && OffsetsAfter(offsets, files[..i + 1]) ==
           (if f.regular then before[f.path := MarkAfter(MarkOf(before, f.path), f)] else before)
      && ChunksAfter(offsets, files[..i + 1]) ==
           ChunksAfter(offsets, files[..i]) + TailOf(MarkOf(before, f.path), f)
  {
    hide ReadFrom, StartAt;
    assert files[..i + 1][..i] == files[..i] && files[..i + 1][i] == files[i];
  }

  lemma SampleTaken(samples: seq<seq<LogFile>>, sorted: seq<LogFile>)
    ensures var before, after := Looked(samples), Looked(samples + [sorted]);
      && OffsetsAfter(map[], after) == OffsetsAfter(OffsetsAfter(map[], before), Taken(sorted))
      && ChunksAfter(map[], after) ==
         ChunksAfter(map[], before) + ChunksAfter(OffsetsAfter(map[], before), Taken(sorted))
  {
    assert (samples + [sorted])[..|samples|] == samples;
    LookFurther(map[], Looked(samples), Taken(sorted));
  }

  lemma {:induction false} LookFurther(offsets: map<string, Mark>, files: seq<LogFile>, more: seq<LogFile>)
    ensures OffsetsAfter(offsets, files + more) == OffsetsAfter(OffsetsAfter(offsets, files), more)
    ensures ChunksAfter(offsets, files + more) ==
      ChunksAfter(offsets, files) + ChunksAfter(OffsetsAfter(offsets, files), more)
    decreases |more|
  {
    hide OffsetsAfter, ChunksAfter, TailOf, MarkAfter;
    NoFiles(OffsetsAfter(offsets, files));
    if more == [] {
      assert files + more == files;
    } else {
      var rest := more[..|more| - 1];
      assert (files + more)[..|files + more| - 1] == files + rest;
      LookFurther(offsets, files, rest);
      LastFile(offsets, files + more);
      LastFile(OffsetsAfter(offsets, files), more);
    }
  }

  lemma LastFile(offsets: map<string, Mark>, files: seq<LogFile>)
    requires files != []
    ensures var before, f := files[..|files| - 1], files[|files| - 1];
      var then_ := OffsetsAfter(offsets, before);
      && OffsetsAfter(offsets, files) ==
           (if f.regular then then_[f.path := MarkAfter(MarkOf(then_, f.path), f)] else then_)
      && ChunksAfter(offsets, files) == ChunksAfter(offsets, before) + TailOf(MarkOf(then_, f.path), f)
  {
    hide ReadFrom, StartAt;
  }

  // ----------------------------------------------------------------------------------------
  // No byte is skipped or repeated

  /** A sample advances each file by itself: the others do not disturb its mark, or its chunk. */
  lemma {:induction false} FilesAreSeparate(offsets: map<string, Mark>, files: seq<LogFile>, i: nat)
    requires forall j, k :: 0 <= j < k < |files| ==> files[j].path != files[k].path
    requires i < |files| && files[i].regular
    ensures MarkOf(OffsetsAfter(offsets, files), files[i].path)
      == Some(MarkAfter(MarkOf(offsets, files[i].path), files[i]))
    ensures forall c :: c in ChunksAfter(offsets, files) && c.path == files[i].path ==>
      c in TailOf(MarkOf(offsets, c.path), files[i])
    ensures forall c :: c in TailOf(MarkOf(offsets, files[i].path), files[i]) ==> c in ChunksAfter(offsets, files)
    decreases |files|
  {
    hide ReadFrom, StartAt;
    var before, f := files[..|files| - 1], files[|files| - 1];
    if i < |before| {
      FilesAreSeparate(offsets, before, i);
    } else {
      forall k | 0 <= k < |before| ensures before[k].path != f.path {}
      NotAmong(offsets, before, f.path);
    }
  }

  lemma {:induction false} NotAmong(offsets: map<string, Mark>, files: seq<LogFile>, path: string)
    requires forall k :: 0 <= k < |files| ==> files[k].path != path
    ensures MarkOf(OffsetsAfter(offsets, files), path) == MarkOf(offsets, path)
    ensures forall c :: c in ChunksAfter(offsets, files) ==> c.path != path
    decreases |files|
  {
    hide ReadFrom, StartAt;
    if files != [] {
      NotAmong(offsets, files[..|files| - 1], path);
    }
  }

  /** One log under one identity that only grows, also between being looked at and being read. */
  ghost predicate Grows(run: seq<LogFile>) {
    && (forall i :: 0 <= i < |run| ==> run[i].regular && run[i].size <= |run[i].content|)
    && (forall i, k :: 0 <= i <= k < |run| ==> run[i].inode == run[k].inode && run[i].content <= run[k].content)
    && (forall i, k :: 0 <= i < k < |run| ==> |run[i].content| <= run[k].size)
  }

  /** The mark after a run that began with this one. */
  function MarkFrom(known: Option<Mark>, run: seq<LogFile>): Option<Mark> {
    if run == [] then known else Some(MarkAfter(MarkFrom(known, run[..|run| - 1]), run[|run| - 1]))
  }

  /** Everything the samples of a run emit, put together. */
  function Emitted(known: Option<Mark>, run: seq<LogFile>): Bytes {
    if run == [] then []
    else
      var before, f := run[..|run| - 1], run[|run| - 1];
      Emitted(known, before) + ReadFrom(f, StartAt(MarkFrom(known, before), f))
  }

  /** Nothing is known of this file: it is new, or another one has taken its place, or it was cut off
      behind the mark. */
  ghost predicate Anew(known: Option<Mark>, f: LogFile) {
    known.Some? ==> known.value.inode != f.inode || known.value.offset > f.size
  }

  /** Of a log that is new to the observer at most the last 128 KiB are read at first; one that has
      taken the place of another is read from its beginning. */
  function FirstOffset(known: Option<Mark>, run: seq<LogFile>): nat
    requires run != []
  {
    if known.None? && run[0].size > 131_072 then run[0].size - 131_072 else 0
  }

  /** Over any run, whatever the growth between samples: what has been emitted is one contiguous
      piece of the log, from the first offset to the recorded mark, and a sample that does not
      reach the end has taken a full chunk. */
  lemma {:induction false} EmittedIsContiguous(known: Option<Mark>, run: seq<LogFile>)
    requires run != [] && Grows(run) && Anew(known, run[0])
    ensures var last, mark := run[|run| - 1], MarkFrom(known, run).value;
      && mark.inode == last.inode
      && FirstOffset(known, run) <= mark.offset <= |last.content|
      && Emitted(known, run) == last.content[FirstOffset(known, run)..mark.offset]
      && (mark.offset == |last.content| || (mark.offset < |last.content| &&
            |ReadFrom(last, StartAt(MarkFrom(known, run[..|run| - 1]), last))| == 131_072))
    decreases |run|
  {
    hide StartAt, ReadFrom, Grows, Emitted, MarkFrom;
    var before, last := run[..|run| - 1], run[|run| - 1];
    var mark := MarkFrom(known, before);
    OneMore(known, run);
    GrowsBefore(run);
    if before == [] {
      FirstRead(known, last);
    } else {
      EmittedIsContiguous(known, before);
      OneMore(known, before);
      LastTwo(run);
      NextRead(mark.value, before[|before| - 1], last, FirstOffset(known, run));
    }
  }

  lemma OneMore(known: Option<Mark>, run: seq<LogFile>)
    requires run != []
    ensures var before, f := run[..|run| - 1], run[|run| - 1];
      && MarkFrom(known, run) == Some(MarkAfter(MarkFrom(known, before), f))
      && Emitted(known, run) == Emitted(known, before) + ReadFrom(f, StartAt(MarkFrom(known, before), f))
      && (before == [] ==> MarkFrom(known, before) == known && Emitted(known, before) == [])
  {
    hide StartAt, ReadFrom;
  }

  lemma FirstRead(known: Option<Mark>, f: LogFile)
    requires f.size <= |f.content| && Anew(known, f)
    ensures var first := FirstOffset(known, [f]); var raw := ReadFrom(f, StartAt(known, f));
      && StartAt(known, f) == first && first + |raw| <= |f.content| && raw == f.content[first..first + |raw|]
      && (first + |raw| == |f.content| || |raw| == 131_072)
  {
  }

  /** The next sample goes on exactly where the last one stopped. */
  lemma NextRead(mark: Mark, previous: LogFile, f: LogFile, first: nat)
    requires previous.inode == f.inode == mark.inode && previous.content <= f.content
      && |previous.content| <= f.size <= |f.content|
    requires first <= mark.offset <= |previous.content|
    ensures var start := StartAt(Some(mark), f); var raw := ReadFrom(f, start);
      && start == mark.offset && start + |raw| <= |f.content|
      && previous.content[first..mark.offset] + raw == f.content[first..start + |raw|]
      && (start + |raw| == |f.content| || |raw| == 131_072)
  {
    var raw := ReadFrom(f, mark.offset);
    assert raw == f.content[mark.offset..mark.offset + |raw|];
    assert previous.content[first..mark.offset] == f.content[first..mark.offset];
  }

  lemma LastTwo(run: seq<LogFile>)
    requires |run| > 1 && Grows(run)
    ensures var a, b := run[|run| - 2], run[|run| - 1];
      a.inode == b.inode && a.content <= b.content && |a.content| <= b.size <= |b.content|
    ensures run[..|run| - 1][|run| - 2] == run[|run| - 2]
  {
  }

  lemma GrowsBefore(run: seq<LogFile>)
    requires run != [] && Grows(run)
    ensures Grows(run[..|run| - 1]) && run[|run| - 1].size <= |run[|run| - 1].content|
  {
  }

  // ----------------------------------------------------------------------------------------
  // Over all samples of an observer

  /** What the samples have seen of one log. */
  function Of(files: seq<LogFile>, path: string): seq<LogFile> {
    if files == [] then []
    else
      var before, f := Of(files[..|files| - 1], path), files[|files| - 1];
      if f.regular && f.path == path then before + [f] else before
  }

  /** The bytes that were emitted for one log, put together. */
  function BytesOf(chunks: seq<Chunk>, path: string): Bytes {
    if chunks == [] then []
    else
      var before, c := BytesOf(chunks[..|chunks| - 1], path), chunks[|chunks| - 1];
      if c.path == path then before + c.raw else before
  }

  /** Every chunk of the log begins where the ones before it end. */
  ghost predicate Gapless(chunks: seq<Chunk>, path: string, first: nat) {
    forall i :: 0 <= i < |chunks| && chunks[i].path == path ==>
      chunks[i].offset == first + |BytesOf(chunks[..i], path)|
  }

  lemma GaplessMore(chunks: seq<Chunk>, c: Chunk, path: string, first: nat)
    requires Gapless(chunks, path, first) && (c.path == path ==> c.offset == first + |BytesOf(chunks, path)|)
    ensures Gapless(chunks + [c], path, first)
    ensures BytesOf(chunks + [c], path) == if c.path == path then BytesOf(chunks, path) + c.raw
      else BytesOf(chunks, path)
  {
    hide BytesOf;
    var more := chunks + [c];
    assert more[..|chunks|] == chunks;
    forall i | 0 <= i < |more| && more[i].path == path
      ensures more[i].offset == first + |BytesOf(more[..i], path)|
    {
      if i < |chunks| { assert more[..i] == chunks[..i]; }
    }
    BytesOfMore(chunks, c, path);
  }

  lemma BytesOfMore(chunks: seq<Chunk>, c: Chunk, path: string)
    ensures BytesOf(chunks + [c], path) == if c.path == path then BytesOf(chunks, path) + c.raw
      else BytesOf(chunks, path)
  {
    assert (chunks + [c])[..|chunks|] == chunks;
  }

  /** Whatever other files are looked at in between, a log has the mark and the bytes of its own run. */
  lemma {:induction false} ByPath(files: seq<LogFile>, path: string)
    ensures MarkOf(OffsetsAfter(map[], files), path) == MarkFrom(None, Of(files, path))
    ensures BytesOf(ChunksAfter(map[], files), path) == Emitted(None, Of(files, path))
    decreases |files|
  {
    hide ReadFrom, StartAt, BytesOf;
    if files == [] {
      BytesOfNothing(path);
    } else {
      var before, f := files[..|files| - 1], files[|files| - 1];
      var known := MarkOf(OffsetsAfter(map[], before), f.path);
      ByPath(before, path);
      TailBytes(ChunksAfter(map[], before), known, f, path);
      if f.regular && f.path == path {
        assert Of(files, path)[..|Of(files, path)| - 1] == Of(before, path);
        OneMore(None, Of(files, path));
      }
    }
  }

  lemma BytesOfNothing(path: string)
    ensures BytesOf([], path) == []
  {
  }

  lemma TailBytes(chunks: seq<Chunk>, known: Option<Mark>, f: LogFile, path: string)
    ensures BytesOf(chunks + TailOf(known, f), path) ==
      if f.regular && f.path == path then BytesOf(chunks, path) + ReadFrom(f, StartAt(known, f))
        else BytesOf(chunks, path)
  {
    hide ReadFrom, StartAt, BytesOf;
    if TailOf(known, f) == [] {
      assert chunks + [] == chunks;
    } else {
      BytesOfMore(chunks, TailOf(known, f)[0], path);
    }
  }

  /** As long as a log only grows, every chunk begins where the ones before it end. */
  lemma {:induction false} ChunksAreGapless(files: seq<LogFile>, path: string, first: nat)
    requires Of(files, path) != [] ==> Grows(Of(files, path)) && first == FirstOffset(None, Of(files, path))
    ensures Gapless(ChunksAfter(map[], files), path, first)
    decreases |files|
  {
    hide ReadFrom, StartAt, BytesOf, Grows, MarkFrom, Emitted;
    if files != [] {
      var before, f := files[..|files| - 1], files[|files| - 1];
      var run, chunks := Of(files, path), ChunksAfter(map[], before);
      var known := MarkOf(OffsetsAfter(map[], before), f.path);
      if Of(before, path) != run {
        assert run[..|run| - 1] == Of(before, path);
        if Of(before, path) != [] { GrowsBefore(run); }
      }
      ChunksAreGapless(before, path, first);
      if TailOf(known, f) == [] {
        assert chunks + [] == chunks;
      } else {
        if f.path == path {
          ByPath(before, path);
          StartsAtEnd(run, first);
        }
        GaplessMore(chunks, TailOf(known, f)[0], path, first);
      }
    }
  }

  /** The last sample of a run goes on where the bytes before it end. */
  lemma StartsAtEnd(run: seq<LogFile>, first: nat)
    requires run != [] && Grows(run) && first == FirstOffset(None, run)
    ensures var before := run[..|run| - 1];
      StartAt(MarkFrom(None, before), run[|run| - 1]) == first + |Emitted(None, before)|
  {
    hide StartAt, ReadFrom, Grows;
    var before, last := run[..|run| - 1], run[|run| - 1];
    GrowsBefore(run);
    if before == [] {
      FirstRead(None, last);
    } else {
      EmittedIsContiguous(None, before);
      LastTwo(run);
      NextRead(MarkFrom(None, before).value, before[|before| - 1], last, first);
    }
  }

  /** Over all samples of an observer, with any other logs beside it: the chunks emitted for a log
      that only grows are one contiguous piece of it, from the first offset to its mark, in order and
      without gap or overlap; a sample that has not reached the end has taken a full chunk. */
  lemma SamplesAreContiguous(samples: seq<seq<LogFile>>, path: string)
    requires Of(Looked(samples), path) != [] && Grows(Of(Looked(samples), path))
    ensures var files := Looked(samples);
      var run, mark := Of(files, path), MarkOf(OffsetsAfter(map[], files), path);
      var first, last := FirstOffset(None, run), run[|run| - 1];
      && mark.Some? && mark.value.inode == last.inode && first <= mark.value.offset <= |last.content|
      && BytesOf(ChunksAfter(map[], files), path) == last.content[first..mark.value.offset]
      && Gapless(ChunksAfter(map[], files), path, first)
      && (mark.value.offset < |last.content| ==>
            |ReadFrom(last, StartAt(MarkFrom(None, run[..|run| - 1]), last))| == 131_072)
  {
    hide StartAt, ReadFrom, Grows, BytesOf, Gapless, OffsetsAfter, ChunksAfter, Looked;
    var files := Looked(samples);
    ByPath(files, path);
    EmittedIsContiguous(None, Of(files, path));
    ChunksAreGapless(files, path, FirstOffset(None, Of(files, path)));
  }

  // ----------------------------------------------------------------------------------------
  // Logs that are rotated or cut off

  lemma {:induction false} RunOn(known: Option<Mark>, before: seq<LogFile>, era: seq<LogFile>)
    ensures MarkFrom(known, before + era) == MarkFrom(MarkFrom(known, before), era)
    ensures Emitted(known, before + era) == Emitted(known, before) + Emitted(MarkFrom(known, before), era)
    decreases |era|
  {
    hide StartAt, ReadFrom, Emitted, MarkFrom;
    if era == [] {
      assert before + era == before;
      NothingEmitted(MarkFrom(known, before));
    } else {
      var rest := era[..|era| - 1];
      assert (before + era)[..|before + era| - 1] == before + rest;
      RunOn(known, before, rest);
      OneMore(known, before + era);
      OneMore(MarkFrom(known, before), era);
    }
  }

  lemma NothingEmitted(known: Option<Mark>)
    ensures MarkFrom(known, []) == known && Emitted(known, []) == []
  {
  }

  /** When another file takes the place of a log, or it is cut off behind the mark, its chunks go on
      with one contiguous piece of the new log from its very beginning, and nothing that was emitted
      before changes. */
  lemma RotatedIsContiguous(samples: seq<seq<LogFile>>, path: string, before: seq<LogFile>, era: seq<LogFile>)
    requires Of(Looked(samples), path) == before + era && before != [] && era != [] && Grows(era)
    requires Anew(MarkFrom(None, before), era[0])
    ensures var files, last := Looked(samples), era[|era| - 1];
      var mark := MarkOf(OffsetsAfter(map[], files), path);
      && mark.Some? && mark.value.inode == last.inode && mark.value.offset <= |last.content|
      && BytesOf(ChunksAfter(map[], files), path) == Emitted(None, before) + last.content[..mark.value.offset]
  {
    hide StartAt, ReadFrom, Grows, BytesOf, OffsetsAfter, ChunksAfter, Looked, MarkFrom, Emitted;
    ByPath(Looked(samples), path);
    RunOn(None, before, era);
    OneMore(None, before);
    EmittedIsContiguous(MarkFrom(None, before), era);
    OneMore(MarkFrom(None, before), era);
  }
}
