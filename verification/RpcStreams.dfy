/** The byte streams of a child: its output split into records, and the last of its error
    output. The sign-in helper's output is read by the same loop. */
module RpcStreams {
  import opened Bytes
  import opened Steps

  const READ_BYTES: nat := 8 * 1024
  const NEWLINE: Byte := 10
  const RETURN: Byte := 13

  // ----- lines -----

  function NewlineAt(s: seq<Byte>): (k: nat)
    ensures k <= |s|
    ensures k < |s| ==> s[k] == NEWLINE
    ensures forall j :: 0 <= j < k ==> s[j] != NEWLINE
  {
    if s == [] || s[0] == NEWLINE then 0 else 1 + NewlineAt(s[1..])
  }

  /** The lines that are ended by a newline, without it. */
  function Lines(s: seq<Byte>): seq<seq<Byte>>
    decreases |s|
  {
    var k := NewlineAt(s);
    if k == |s| then [] else [s[..k]] + Lines(s[k + 1..])
  }

  /** What follows the last newline. */
  function Unended(s: seq<Byte>): seq<Byte>
    decreases |s|
  {
    var k := NewlineAt(s);
    if k == |s| then s else Unended(s[k + 1..])
  }

  /** All records of a stream that has come to its end. */
  function Records(s: seq<Byte>): seq<seq<Byte>> {
    Lines(s) + if Unended(s) == [] then [] else [Unended(s)]
  }

  /** Putting the newlines back gives the stream again. */
  function Joined(lines: seq<seq<Byte>>, rest: seq<Byte>): seq<Byte> {
    if lines == [] then rest else lines[0] + [NEWLINE] + Joined(lines[1..], rest)
  }

  lemma {:induction false} LinesCons(s: seq<Byte>)
    requires NewlineAt(s) < |s|
    ensures Lines(s) == [s[..NewlineAt(s)]] + Lines(s[NewlineAt(s) + 1..])
    ensures Unended(s) == Unended(s[NewlineAt(s) + 1..])
  {
  }

  lemma {:induction false} LinesNone(s: seq<Byte>)
    requires NewlineAt(s) == |s|
    ensures Lines(s) == [] && Unended(s) == s
  {
  }

  lemma {:induction false} SplitJoins(s: seq<Byte>)
    ensures Joined(Lines(s), Unended(s)) == s
    ensures forall i :: 0 <= i < |Lines(s)| ==> NEWLINE !in Lines(s)[i]
    ensures NEWLINE !in Unended(s)
    decreases |s|
  {
    hide Lines, Unended, NewlineAt;
    var k := NewlineAt(s);
    if k < |s| {
      var rest := s[k + 1..];
      LinesCons(s);
      SplitJoins(rest);
      assert Lines(s)[1..] == Lines(rest);
      assert s == s[..k] + [NEWLINE] + rest;
      assert NEWLINE !in s[..k];
    } else {
      LinesNone(s);
    }
  }

  lemma {:induction false} NewlineAppended(s: seq<Byte>, more: seq<Byte>)
    ensures NewlineAt(s + more) == if NewlineAt(s) < |s| then NewlineAt(s) else |s| + NewlineAt(more)
  {
    var j, m := NewlineAt(s), NewlineAt(more);
    assert forall i :: 0 <= i < |s| ==> (s + more)[i] == s[i];
    assert forall i :: |s| <= i < |s + more| ==> (s + more)[i] == more[i - |s|];
    if j < |s| {
      assert (s + more)[j] == NEWLINE;
    } else if m < |more| {
      assert (s + more)[|s| + m] == NEWLINE;
    }
  }

  /** More bytes only add lines, and complete the unended one. */
  lemma {:induction false} LinesAppended(s: seq<Byte>, more: seq<Byte>)
    ensures Lines(s + more) == Lines(s) + Lines(Unended(s) + more)
    ensures Unended(s + more) == Unended(Unended(s) + more)
    decreases |s|
  {
    hide Lines, Unended, NewlineAt;
    var k := NewlineAt(s);
    if k < |s| {
      NewlineAppended(s, more);
      LinesCons(s);
      LinesCons(s + more);
      LinesAppended(s[k + 1..], more);
      assert (s + more)[k + 1..] == s[k + 1..] + more && (s + more)[..k] == s[..k];
      var rest := Lines(Unended(s) + more);
      assert [s[..k]] + (Lines(s[k + 1..]) + rest) == ([s[..k]] + Lines(s[k + 1..])) + rest;
    } else {
      LinesNone(s);
      assert [] + Lines(s + more) == Lines(s + more);
    }
  }

  // ----- records -----

  function Stripped(record: seq<Byte>): seq<Byte> {
    if record != [] && record[|record| - 1] == RETURN then record[..|record| - 1] else record
  }

  /** One carriage return goes, if the record ends with it, and nothing else. */
  lemma {:induction false} StrippedIs(record: seq<Byte>)
    ensures Stripped(record + [RETURN]) == record
    ensures record == Stripped(record) || record == Stripped(record) + [RETURN]
    ensures record == Stripped(record) <==> record == [] || record[|record| - 1] != RETURN
  {
    assert (record + [RETURN])[..|record|] == record;
  }

  function StrippedAll(records: seq<seq<Byte>>): seq<seq<Byte>> {
    seq(|records|, i requires 0 <= i < |records| => Stripped(records[i]))
  }

  /** Every line, with its carriage return, and the unended rest fit the limit. */
  ghost predicate FitsRaw(s: seq<Byte>, maximum: nat) {
    (forall i :: 0 <= i < |Lines(s)| ==> |Lines(s)[i]| <= maximum) && |Unended(s)| <= maximum
  }

  /** No line is too long without its carriage return, and what is buffered after a read fits. */
  ghost predicate FitsChunked(chunks: seq<seq<Byte>>, maximum: nat) {
    && (forall i :: 0 <= i < |Lines(Flat(chunks))| ==> |Stripped(Lines(Flat(chunks))[i])| <= maximum)
    && (forall i :: 0 <= i <= |chunks| ==> |Unended(Flat(chunks[..i]))| <= maximum)
  }

  /** Reads that carry the stream. */
  ghost predicate Carries(chunks: seq<seq<Byte>>, s: seq<Byte>) {
    Flat(chunks) == s && forall i :: 0 <= i < |chunks| ==> 0 < |chunks[i]| <= READ_BYTES
  }

  datatype End = ReachedEof | TooLong | NotAccepted | ReadFailed

  class RecordReader {
    var buffered: seq<Byte>
    /** The records handed on, in order. */
    var handled: seq<seq<Byte>>
    /** Reads that failed. */
    ghost var failures: nat
    const maximum: nat
    /** Whether a record of that content is well-formed for the protocol. */
    const accepts: seq<Byte> -> bool

    constructor (maximum: nat, accepts: seq<Byte> -> bool)
      ensures buffered == [] && handled == [] && failures == 0
      ensures this.maximum == maximum && this.accepts == accepts
    {
      buffered, handled, failures, this.maximum, this.accepts := [], [], 0, maximum, accepts;
    }

    method Read() returns (failed: bool)
      modifies `failures
      ensures failures == old(failures) + Tick(failed)
    {
      failed := *;
      failures := failures + Tick(failed);
    }

    method ProcessRecord(record: seq<Byte>) returns (ok: bool, tooLong: bool)
      modifies `handled
      ensures ok <==> |Stripped(record)| <= maximum && accepts(Stripped(record))
      ensures tooLong <==> |Stripped(record)| > maximum
      ensures handled == if ok then old(handled) + [Stripped(record)] else old(handled)
    {
      var content := Stripped(record);
      if |content| > maximum { return false, true; }
      if !accepts(content) { return false, false; }
      handled := handled + [content];
      return true, false;
    }

    /** Handles every line that is complete; the rest stays buffered. */
    method DrainLines() returns (ok: bool, tooLong: bool)
      modifies `buffered, `handled
      ensures ok ==> buffered == Unended(old(buffered)) && handled == old(handled) + StrippedAll(Lines(old(buffered)))
      ensures ok ==> forall r :: r in Lines(old(buffered)) ==> |Stripped(r)| <= maximum && accepts(Stripped(r))
      ensures !ok ==> exists i ::
          0 <= i < |Lines(old(buffered))| && handled == old(handled) + StrippedAll(Lines(old(buffered))[..i])
                        && (if tooLong then |Stripped(Lines(old(buffered))[i])| > maximum
                            else !accepts(Stripped(Lines(old(buffered))[i])))
    {
      hide Lines, Unended, StrippedAll, NewlineAt;
      ghost var lines := Lines(buffered);
      ghost var done := 0;
      var k := NewlineAt(buffered);
      NoneStripped(lines);
      while k < |buffered|
        invariant k == NewlineAt(buffered) && done <= |lines|
        invariant Lines(buffered) == lines[done..] && Unended(buffered) == Unended(old(buffered))
        invariant handled == old(handled) + StrippedAll(lines[..done])
        invariant forall r :: r in lines[..done] ==> |Stripped(r)| <= maximum && accepts(Stripped(r))
        decreases |buffered|
      {
        var record := buffered[..k];
        LinesCons(buffered);
        assert lines[done..] == [record] + Lines(buffered[k + 1..]);
        assert lines[done] == record && lines[done..][1..] == lines[done + 1..];
        buffered := buffered[k + 1..];
        ok, tooLong := ProcessRecord(record);
        if !ok { return; }
        StrippedMore(lines[..done], record);
        assert lines[..done + 1] == lines[..done] + [record];
        done := done + 1;
        k := NewlineAt(buffered);
      }
      LinesNone(buffered);
      assert lines[done..] == [];
      assert lines[..done] == lines;
      return true, false;
    }

    /** `read` is how many chunks were read, and `peak` no less than what was ever buffered: a
        failing read comes after every line of the chunks before it was handled. */
    method ReadStdout(chunks: seq<seq<Byte>>) returns (end: End, ghost peak: nat, ghost read: nat)
      requires buffered == [] && handled == []
      requires forall i :: 0 <= i < |chunks| ==> 0 < |chunks[i]| <= READ_BYTES
      modifies this
      ensures peak <= maximum + READ_BYTES && failures == old(failures) + Tick(end.ReadFailed?)
      ensures read <= |chunks| && (end.ReachedEof? ==> read == |chunks|)
      ensures forall i :: 0 <= i < read ==> |Unended(Flat(chunks[..i]))| + |chunks[i]| <= peak
      ensures end.ReadFailed? ==>
                && read < |chunks| && handled == StrippedAll(Lines(Flat(chunks[..read])))
                && buffered == Unended(Flat(chunks[..read]))
      ensures handled <= StrippedAll(Records(Flat(chunks)))
      ensures end.ReachedEof? ==> handled == StrippedAll(Records(Flat(chunks)))
      ensures end.ReachedEof? ==>
          forall r :: r in Records(Flat(chunks)) ==> |Stripped(r)| <= maximum && accepts(Stripped(r))
      ensures end.ReachedEof? ==> FitsChunked(chunks, maximum)
      ensures end.TooLong? ==> !FitsChunked(chunks, maximum)
      ensures end.NotAccepted? ==> exists r :: r in Records(Flat(chunks)) && !accepts(Stripped(r))
    {
      hide Lines, Unended, StrippedAll, FitsChunked, Stripped, NewlineAt, Records, Flat;
      peak, read := 0, 0;
      ghost var stream := Flat(chunks);
      StartRead(chunks);
      for i := 0 to |chunks|
        invariant peak <= maximum + READ_BYTES && |buffered| <= maximum && failures == old(failures) && read == i
        invariant forall j :: 0 <= j < i ==> |Unended(Flat(chunks[..j]))| + |chunks[j]| <= peak
        invariant buffered == Unended(Flat(chunks[..i]))
        invariant handled == StrippedAll(Lines(Flat(chunks[..i])))
        invariant forall r :: r in Lines(Flat(chunks[..i])) ==> |Stripped(r)| <= maximum && accepts(Stripped(r))
        invariant forall j :: 0 <= j <= i ==> |Unended(Flat(chunks[..j]))| <= maximum
      {
        var failed := Read();
        ghost var sofar := Flat(chunks[..i]);
        SoFar(chunks, i);
        if failed { return ReadFailed, peak, read; }
        OneMoreChunk(chunks, i);
        LinesAppended(sofar, chunks[i]);
        ghost var lines := Lines(buffered + chunks[i]);
        buffered, read := buffered + chunks[i], i + 1;
        if |buffered| > peak { peak := |buffered|; }
        SoFar(chunks, i + 1);
        var ok, tooLong := DrainLines();
        if !ok {
          ghost var k :| 0 <= k < |lines| && handled == StrippedAll(Lines(sofar)) + StrippedAll(lines[..k])
                         && (if tooLong then |Stripped(lines[k])| > maximum else !accepts(Stripped(lines[k])));
          StoppedAt(stream, Lines(sofar), lines, k);
          if tooLong { LongLine(chunks, lines[k], maximum); }
          return if tooLong then TooLong else NotAccepted, peak, read;
        }
        StrippedJoin(Lines(sofar), lines);
        assert forall r :: r in Lines(sofar) + lines ==> r in Lines(sofar) || r in lines;
        if |buffered| > maximum {
          LongRest(chunks, i + 1, maximum);
          return TooLong, peak, read;
        }
      }
      assert chunks[..|chunks|] == chunks;
      NothingLong(chunks, maximum);
      end, peak := FinishRead(stream, peak);
    }

    method FinishRead(ghost stream: seq<Byte>, ghost seen: nat) returns (end: End, ghost peak: nat)
      requires buffered == Unended(stream) && handled == StrippedAll(Lines(stream)) && |buffered| <= maximum
      requires forall r :: r in Lines(stream) ==> |Stripped(r)| <= maximum && accepts(Stripped(r))
      modifies `handled
      ensures peak == seen && !end.ReadFailed?
      ensures handled <= StrippedAll(Records(stream))
      ensures end.ReachedEof? ==> handled == StrippedAll(Records(stream))
      ensures end.ReachedEof? ==> forall r :: r in Records(stream) ==> |Stripped(r)| <= maximum && accepts(Stripped(r))
      ensures !end.TooLong?
      ensures end.NotAccepted? ==> exists r :: r in Records(stream) && !accepts(Stripped(r))
    {
      hide Lines, Unended, StrippedAll;
      peak := seen;
      RecordsSplit(stream);
      if buffered != [] {
        var ok, tooLong := ProcessRecord(buffered);
        StrippedMore(Lines(stream), buffered);
        if !ok {
          assert Records(stream)[|Lines(stream)|] == buffered;
          return NotAccepted, peak;
        }
      }
      end := ReachedEof;
    }
  }

  lemma {:induction false} LongLine(chunks: seq<seq<Byte>>, line: seq<Byte>, maximum: nat)
    requires exists i :: 0 <= i < |Lines(Flat(chunks))| && Lines(Flat(chunks))[i] == line
    requires |Stripped(line)| > maximum
    ensures !FitsChunked(chunks, maximum)
  {
  }

  lemma {:induction false} LongRest(chunks: seq<seq<Byte>>, i: nat, maximum: nat)
    requires i <= |chunks| && |Unended(Flat(chunks[..i]))| > maximum
    ensures !FitsChunked(chunks, maximum)
  {
  }

  lemma {:induction false} NothingLong(chunks: seq<seq<Byte>>, maximum: nat)
    requires forall r :: r in Lines(Flat(chunks)) ==> |Stripped(r)| <= maximum
    requires forall i :: 0 <= i <= |chunks| ==> |Unended(Flat(chunks[..i]))| <= maximum
    ensures FitsChunked(chunks, maximum)
  {
    hide Stripped;
  }

  lemma {:induction false} NoneStripped(records: seq<seq<Byte>>)
    ensures StrippedAll(records[..0]) == []
  {
  }

  lemma {:induction false} StrippedMore(records: seq<seq<Byte>>, record: seq<Byte>)
    ensures StrippedAll(records + [record]) == StrippedAll(records) + [Stripped(record)]
  {
  }

  lemma {:induction false} StrippedJoin(a: seq<seq<Byte>>, b: seq<seq<Byte>>)
    ensures StrippedAll(a + b) == StrippedAll(a) + StrippedAll(b)
  {
  }

  lemma {:induction false} OneMoreChunk(chunks: seq<seq<Byte>>, i: nat)
    requires i < |chunks|
    ensures Flat(chunks[..i + 1]) == Flat(chunks[..i]) + chunks[i]
  {
    assert chunks[..i + 1][..i] == chunks[..i];
  }

  lemma {:induction false} StartRead(chunks: seq<seq<Byte>>)
    ensures Flat(chunks[..0]) == [] && Unended([]) == [] && StrippedAll(Lines([])) == [] && Lines([]) == []
  {
  }

  lemma {:induction false} RecordsSplit(s: seq<Byte>)
    ensures Records(s) == if Unended(s) == [] then Lines(s) else Lines(s) + [Unended(s)]
    ensures StrippedAll(Lines(s)) <= StrippedAll(Records(s))
  {
    assert Lines(s) + [] == Lines(s);
  }

  /** What is read first is a prefix of the stream, and its lines are the first ones. */
  lemma {:induction false} SoFar(chunks: seq<seq<Byte>>, i: nat)
    requires i <= |chunks|
    ensures Lines(Flat(chunks[..i])) <= Lines(Flat(chunks)) <= Records(Flat(chunks))
    ensures StrippedAll(Lines(Flat(chunks[..i]))) <= StrippedAll(Records(Flat(chunks)))
    decreases |chunks| - i
  {
    hide Lines, Unended;
    if i == |chunks| {
      assert chunks[..i] == chunks;
    } else {
      SoFar(chunks, i + 1);
      assert chunks[..i + 1][..i] == chunks[..i];
      LinesAppended(Flat(chunks[..i]), chunks[i]);
    }
  }

  lemma {:induction false} StoppedAt(stream: seq<Byte>, before: seq<seq<Byte>>, lines: seq<seq<Byte>>, k: nat)
    requires k < |lines| && before + lines <= Lines(stream)
    ensures StrippedAll(before) + StrippedAll(lines[..k]) <= StrippedAll(Records(stream))
    ensures lines[k] in Records(stream) && exists i :: 0 <= i < |Lines(stream)| && Lines(stream)[i] == lines[k]
  {
    hide Lines, Unended;
    var at := |before| + k;
    assert (before + lines)[at] == lines[k];
    assert Lines(stream)[at] == lines[k];
    assert Records(stream)[at] == lines[k];
    StrippedJoin(before, lines[..k]);
    assert forall i ::
        0 <= i < at ==> (before + lines[..k])[i] == (before + lines)[i] == Lines(stream)[i] == Records(stream)[i];
  }

  /** An unended line that is too long already stays too long, ended or not. */
  lemma {:induction false} UnendedTooLong(chunks: seq<seq<Byte>>, i: nat, maximum: nat)
    requires i <= |chunks| && |Unended(Flat(chunks[..i]))| > maximum
    ensures !FitsRaw(Flat(chunks), maximum)
    decreases |chunks| - i
  {
    hide Lines, Unended;
    if i == |chunks| {
      assert chunks[..i] == chunks;
    } else {
      assert chunks[..i + 1][..i] == chunks[..i];
      var rest := Unended(Flat(chunks[..i]));
      LinesAppended(Flat(chunks[..i]), chunks[i]);
      SplitJoins(Flat(chunks[..i]));
      FirstLine(rest, chunks[i]);
      if Lines(rest + chunks[i]) == [] {
        UnendedTooLong(chunks, i + 1, maximum);
      } else {
        SoFar(chunks, i + 1);
        var at := |Lines(Flat(chunks[..i]))|;
        assert Lines(Flat(chunks[..i + 1]))[at] == Lines(rest + chunks[i])[0];
        assert Lines(Flat(chunks))[at] == Lines(Flat(chunks[..i + 1]))[at];
      }
    }
  }

  lemma {:induction false} FirstLine(rest: seq<Byte>, more: seq<Byte>)
    requires NEWLINE !in rest
    ensures if Lines(rest + more) == [] then |Unended(rest + more)| >= |rest| else |Lines(rest + more)[0]| >= |rest|
  {
    assert forall i :: 0 <= i < |rest| ==> (rest + more)[i] == rest[i] != NEWLINE;
    assert NewlineAt(rest + more) >= |rest|;
  }

  function Bytewise(s: seq<Byte>): seq<seq<Byte>> {
    seq(|s|, i requires 0 <= i < |s| => [s[i]])
  }

  lemma {:induction false} BytewiseFlat(s: seq<Byte>, i: nat)
    requires i <= |s|
    ensures Flat(Bytewise(s)[..i]) == s[..i]
  {
    if i > 0 {
      BytewiseFlat(s, i - 1);
      assert Bytewise(s)[..i][..i - 1] == Bytewise(s)[..i - 1];
      assert s[..i] == s[..i - 1] + [s[i - 1]];
    }
  }

  /** Before its newline is read, a line is what is buffered. */
  lemma {:induction false} LineWasUnended(s: seq<Byte>, j: nat) returns (i: nat)
    requires j < |Lines(s)|
    ensures i <= |s| && Unended(s[..i]) == Lines(s)[j]
    decreases |s|
  {
    hide Unended, Lines, NewlineAt;
    var k := NewlineAt(s);
    if k == |s| { LinesNone(s); }
    LinesCons(s);
    if j == 0 {
      i := k;
      assert NewlineAt(s[..k]) == k;
      LinesNone(s[..k]);
    } else {
      var rest := LineWasUnended(s[k + 1..], j - 1);
      i := k + 1 + rest;
      var seen := s[..i];
      assert NewlineAt(seen) == k && seen[k + 1..] == s[k + 1..][..rest];
      LinesCons(seen);
    }
  }

  /** A stream is never refused for its length, however it is read, if and only if every line
      fits with its carriage return, and the unended rest does. */
  lemma {:induction false} FitsHoweverRead(s: seq<Byte>, maximum: nat)
    ensures FitsRaw(s, maximum) <==> forall chunks :: Carries(chunks, s) ==> FitsChunked(chunks, maximum)
  {
    hide Lines, Unended;
    if FitsRaw(s, maximum) {
      forall chunks | Carries(chunks, s)
        ensures FitsChunked(chunks, maximum)
      {
        forall i | 0 <= i <= |chunks|
          ensures |Unended(Flat(chunks[..i]))| <= maximum
        {
          if |Unended(Flat(chunks[..i]))| > maximum { UnendedTooLong(chunks, i, maximum); }
        }
      }
    } else {
      var bytes := Bytewise(s);
      BytewiseFlat(s, |s|);
      assert bytes[..|s|] == bytes && s[..|s|] == s;
      assert Carries(bytes, s);
      if |Unended(s)| <= maximum {
        var j :| 0 <= j < |Lines(s)| && |Lines(s)[j]| > maximum;
        var i := LineWasUnended(s, j);
        BytewiseFlat(s, i);
        assert |Unended(Flat(bytes[..i]))| > maximum;
      }
    }
  }

  /** The limit in between: a line of the maximum length with a carriage return passes when
      its newline is read with it, and not when it comes later. */
  lemma {:induction false} ReturnAtTheLimit()
    ensures var line: seq<Byte>, first: seq<Byte>, last: seq<Byte> := [97, RETURN, NEWLINE], [97, RETURN], [NEWLINE];
            && Carries([line], line) && FitsChunked([line], 1)
            && Carries([first, last], line) && !FitsChunked([first, last], 1)
  {
    var line: seq<Byte>, first: seq<Byte>, last: seq<Byte> := [97, RETURN, NEWLINE], [97, RETURN], [NEWLINE];
    assert line[0] != NEWLINE && line[1] != NEWLINE && line[2] == NEWLINE;
    assert NewlineAt(line) == 2 && line[..2] == first && line[3..] == [];
    LinesCons(line);
    LinesNone([]);
    LinesNone(first);
    assert Stripped(first) == first[..1];
    assert [line][..0] == [] && [line][..1] == [line] && Flat([line]) == [] + line == line;
    assert [first, last][..1] == [first] && [first][..0] == [] && Flat([first]) == first;
    assert Flat([first, last]) == first + last == line;
  }

  // ----- the retained error output -----

  function LastBytes(s: seq<Byte>, capacity: nat): seq<Byte> {
    if |s| > capacity then s[|s| - capacity..] else s
  }

  lemma {:induction false} LastAppended(s: seq<Byte>, more: seq<Byte>, capacity: nat)
    ensures |more| >= capacity ==> LastBytes(s + more, capacity) == more[|more| - capacity..]
    ensures |more| < capacity ==>
              var kept := LastBytes(s, capacity);
              LastBytes(s + more, capacity)
              == (if |kept| + |more| > capacity then kept[|kept| + |more| - capacity..] else kept) + more
  {
  }

  class BoundedStderr {
    var bytes: seq<Byte>
    var truncated: bool
    const capacity: nat
    ghost var all: seq<Byte>
    /** The largest chunk so far, if there was one. */
    ghost var appends: nat
    ghost var largest: nat

    /** The last bytes, exactly; flagged when bytes were lost, or when one chunk alone filled
        the buffer. */
    ghost predicate Valid()
      reads this
    {
      && bytes == LastBytes(all, capacity)
      && (appends == 0 ==> largest == 0 && all == [])
      && (truncated <==> |all| > capacity || (appends > 0 && largest >= capacity))
    }

    constructor (capacity: nat)
      ensures Valid() && all == [] && appends == 0 && this.capacity == capacity
    {
      bytes, truncated, this.capacity := [], false, capacity;
      all, appends, largest := [], 0, 0;
    }

    method Append(chunk: seq<Byte>)
      requires Valid()
      modifies this
      ensures Valid() && all == old(all) + chunk && appends == old(appends) + 1
      ensures largest == if |chunk| > old(largest) then |chunk| else old(largest)
      ensures bytes == LastBytes(old(all) + chunk, capacity) && (|old(all) + chunk| > capacity ==> truncated)
    {
      hide LastBytes;
      LastAppended(all, chunk, capacity);
      LastLength(all, capacity);
      all := all + chunk;
      appends := appends + 1;
      if |chunk| > largest { largest := |chunk|; }
      if |chunk| >= capacity {
        bytes := chunk[|chunk| - capacity..];
        truncated := true;
        return;
      }
      var overflow := if |bytes| + |chunk| > capacity then |bytes| + |chunk| - capacity else 0;
      if overflow > 0 {
        bytes := bytes[overflow..];
        truncated := true;
      }
      bytes := bytes + chunk;
    }
  }

  lemma {:induction false} LastLength(s: seq<Byte>, capacity: nat)
    ensures |LastBytes(s, capacity)| == if |s| > capacity then capacity else |s|
  {
  }

  /** The end of what was written, as much as fits. */
  lemma {:induction false} LastIs(s: seq<Byte>, capacity: nat)
    ensures var last := LastBytes(s, capacity);
            && s[..|s| - |last|] + last == s && |last| <= capacity && (|last| == capacity || last == s)
  {
  }

  /** One chunk of exactly the capacity is kept whole and flagged all the same; in two chunks it
      is not flagged. */
  method FlaggedWithoutLoss(chunk: seq<Byte>) returns (once: BoundedStderr, twice: BoundedStderr)
    requires |chunk| > 1
    ensures once.Valid() && twice.Valid() && once.capacity == twice.capacity == |chunk|
    ensures once.all == once.bytes == chunk && once.truncated
    ensures twice.all == twice.bytes == chunk && !twice.truncated
  {
    once := new BoundedStderr(|chunk|);
    once.Append(chunk);
    twice := new BoundedStderr(|chunk|);
    twice.Append(chunk[..1]);
    twice.Append(chunk[1..]);
    assert [] + chunk == chunk && [] + chunk[..1] + chunk[1..] == chunk;
  }
}
