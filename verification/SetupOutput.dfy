/** The output of a setup script: decoded from pipe reads as it arrives, and kept in a log of
    bounded size. */
module SetupOutput {
  import opened Bytes
  import opened Steps
  import opened Utf8

  const SETUP_OUTPUT_CHUNK_BYTES: nat := 8 * 1024
  const MAX_SETUP_LOG_BYTES: nat := 256 * 1024

  lemma ReplacementWellFormed()
    ensures WellFormed(REPLACEMENT)
  {
    assert REPLACEMENT[3..] == [];
    assert Next(REPLACEMENT) == Good(3);
  }

  datatype Ended = Drained | Closed | ReadFailed

  /** One pipe's reader. */
  class Reader {
    var undecoded: seq<Byte>
    /** The strings handed to the supervisor, each well-formed. */
    var sent: seq<seq<Byte>>
    /** Reads that failed, and sends that found the supervisor gone. */
    ghost var failures: nat
    ghost var closings: nat

    constructor ()
      ensures undecoded == [] && sent == [] && failures == closings == 0
    {
      undecoded, sent, failures, closings := [], [], 0, 0;
    }

    method Read() returns (failed: bool)
      modifies `failures
      ensures failures == old(failures) + Tick(failed)
    {
      failed := *;
      failures := failures + Tick(failed);
    }

    /** False when the supervisor no longer listens. */
    method Send(text: seq<Byte>) returns (open: bool)
      requires WellFormed(text)
      modifies `sent, `closings
      ensures closings == old(closings) + Tick(!open)
      ensures Flat(sent) == Flat(old(sent)) + if open then text else []
      ensures AllWellFormed(old(sent)) ==> AllWellFormed(sent)
    {
      open := *;
      closings := closings + Tick(!open);
      if open {
        FlatMore(sent, text);
        sent := sent + [text];
      }
      assert open || Flat(sent) + [] == Flat(sent);
    }

    /** Sends the longest well-formed prefix, if there is one. */
    method SendValidPrefix(ghost future: seq<Byte>) returns (open: bool)
      modifies `undecoded, `sent, `closings
      ensures closings == old(closings) + Tick(!open)
      ensures AllWellFormed(old(sent)) ==> AllWellFormed(sent)
      ensures open ==> Flat(sent) + Lossy(undecoded + future) == Flat(old(sent)) + Lossy(old(undecoded) + future)
      ensures !open ==> Flat(sent) == Flat(old(sent))
      ensures open ==> |undecoded| <= |old(undecoded)| && (undecoded != [] ==> !Next(undecoded).Good?)
    {
      hide Lossy, Next, ValidUpTo, Flat, AllWellFormed, WellFormed;
      var valid := ValidUpTo(undecoded);
      ValidPrefix(undecoded, future);
      ValidIsWellFormed(undecoded);
      assert undecoded[valid..] == [] ==> valid == |undecoded|;
      if valid > 0 {
        open := Send(undecoded[..valid]);
        if !open { return; }
        undecoded := undecoded[valid..];
      } else {
        assert undecoded[0..] == undecoded && undecoded[..0] == [];
      }
      open := true;
    }

    /** Sends all that is decided. `future` is whatever may still be read. */
    method SendDecodedOutput(endOfStream: bool, ghost future: seq<Byte>) returns (open: bool)
      requires endOfStream ==> future == []
      modifies `undecoded, `sent, `closings
      ensures closings == old(closings) + Tick(!open)
      ensures AllWellFormed(old(sent)) ==> AllWellFormed(sent)
      ensures open ==> |undecoded| <= 3 && (endOfStream ==> undecoded == [])
      ensures open ==> Flat(sent) + Lossy(undecoded + future) == Flat(old(sent)) + Lossy(old(undecoded) + future)
      ensures Flat(sent) <= Flat(old(sent)) + Lossy(old(undecoded) + future)
    {
      hide Lossy, Next, Flat, AllWellFormed, WellFormed;
      ghost var whole := Flat(sent) + Lossy(undecoded + future);
      while true
        invariant closings == old(closings) && (AllWellFormed(old(sent)) ==> AllWellFormed(sent))
        invariant Flat(sent) + Lossy(undecoded + future) == whole
        decreases |undecoded|
      {
        open := SendValidPrefix(future);
        if !open || undecoded == [] { return; }
        LossyHead(undecoded, future);
        ReplacementWellFormed();
        var head := Next(undecoded);
        if head.Bad? {
          open := Send(REPLACEMENT);
          if !open { return; }
          undecoded := undecoded[head.len..];
        } else {
          if endOfStream {
            assert undecoded + future == undecoded && [] + future == [];
            open := Send(REPLACEMENT);
            if !open { return; }
            undecoded := [];
          }
          return true;
        }
      }
    }

    /** `read`: how many chunks were read. A failing read leaves what was read before it sent,
        but for at most three bytes that decide nothing yet. */
    method StreamOutput(chunks: seq<seq<Byte>>) returns (end: Ended, ghost read: nat)
      requires undecoded == [] && sent == []
      requires forall i :: 0 <= i < |chunks| ==> 0 < |chunks[i]| <= SETUP_OUTPUT_CHUNK_BYTES
      modifies this
      ensures AllWellFormed(sent)
      ensures failures == old(failures) + Tick(end.ReadFailed?) && closings == old(closings) + Tick(end.Closed?)
      ensures end.Drained? ==> Flat(sent) == Lossy(Flat(chunks)) && undecoded == [] && read == |chunks|
      ensures end.ReadFailed? ==>
                && read < |chunks| && |undecoded| <= 3
                && Flat(sent) + Lossy(undecoded + Rest(chunks, read)) == Lossy(Flat(chunks))
      ensures Flat(sent) <= Lossy(Flat(chunks))
    {
      hide Lossy, AllWellFormed;
      NoneSent();
      assert [] + Rest(chunks, 0) == Rest(chunks, 0);
      RestAll(chunks);
      read := 0;
      for i := 0 to |chunks|
        invariant AllWellFormed(sent) && |undecoded| <= 3
        invariant failures == old(failures) && closings == old(closings) && read == i
        invariant Flat(sent) + Lossy(undecoded + Rest(chunks, i)) == Lossy(Flat(chunks))
      {
        var failed := Read();
        if failed { return ReadFailed, read; }
        assert undecoded + Rest(chunks, i) == undecoded + chunks[i] + Rest(chunks, i + 1);
        undecoded, read := undecoded + chunks[i], i + 1;
        var open := SendDecodedOutput(false, Rest(chunks, i + 1));
        if !open { return Closed, read; }
      }
      assert undecoded + Rest(chunks, |chunks|) == undecoded == undecoded + [];
      var open := SendDecodedOutput(true, []);
      if !open { return Closed, read; }
      LossyNone();
      end := Drained;
    }
  }

  ghost predicate AllWellFormed(parts: seq<seq<Byte>>) {
    forall i :: 0 <= i < |parts| ==> WellFormed(parts[i])
  }

  lemma NoneSent()
    ensures AllWellFormed([]) && Flat([]) == []
  {
  }

  lemma LossyNone()
    ensures Lossy([] + []) == []
  {
  }

  lemma LossyHead(s: seq<Byte>, more: seq<Byte>)
    requires s != [] && !Next(s).Good?
    ensures Next(s).Bad? ==> Lossy(s + more) == REPLACEMENT + Lossy(s[Next(s).len..] + more)
    ensures Next(s).Partial? ==> Lossy(s) == REPLACEMENT && |s| <= 3
    ensures Lossy([]) == []
  {
    if Next(s).Bad? {
      NextStable(s, more);
      assert (s + more)[Next(s).len..] == s[Next(s).len..] + more;
    }
  }

  /** What is still to be read from the `i`th chunk on. */
  ghost function Rest(chunks: seq<seq<Byte>>, i: nat): seq<Byte>
    decreases |chunks| - i
  {
    if i >= |chunks| then [] else chunks[i] + Rest(chunks, i + 1)
  }

  lemma RestAll(chunks: seq<seq<Byte>>)
    ensures Rest(chunks, 0) == Flat(chunks)
  {
    RestFrom(chunks, 0);
    assert chunks[..0] == [];
  }

  lemma {:induction false} RestFrom(chunks: seq<seq<Byte>>, i: nat)
    requires i <= |chunks|
    ensures Flat(chunks[..i]) + Rest(chunks, i) == Flat(chunks)
    decreases |chunks| - i
  {
    if i == |chunks| {
      assert chunks[..i] == chunks;
    } else {
      RestFrom(chunks, i + 1);
      assert chunks[..i + 1][..i] == chunks[..i];
    }
  }

  /** How the pipe was cut into reads makes no difference. */
  lemma SplitInvariant(chunks: seq<seq<Byte>>, others: seq<seq<Byte>>, cs: seq<Scalar>)
    requires Flat(chunks) == Flat(others) == EncodeAll(cs)
    ensures Lossy(Flat(chunks)) == Lossy(Flat(others)) == EncodeAll(cs)
  {
    LossyKeeps(cs);
  }

  // ----- the log -----

  /** "\\n[Setup output truncated]\\n" */
  const OUTPUT_TRUNCATED_MARKER: seq<Byte> :=
    [10, 91, 83, 101, 116, 117, 112, 32, 111, 117, 116, 112, 117, 116, 32, 116, 114, 117, 110, 99, 97, 116, 101, 100,
        93, 10]

  datatype Log = Log(text: seq<Byte>, retained: nat, truncated: bool)

  function Room(log: Log): nat {
    if log.retained < MAX_SETUP_LOG_BYTES then MAX_SETUP_LOG_BYTES - log.retained else 0
  }

  function Accepted(log: Log, text: seq<Byte>): nat {
    Boundary(text, if |text| < Room(log) then |text| else Room(log))
  }

  function Stored(log: Log, text: seq<Byte>): Log {
    var kept := log.(text := log.text + text[..Accepted(log, text)], retained := log.retained + Accepted(log, text));
    if |text| > Room(log) && !log.truncated
    then kept.(text := kept.text + OUTPUT_TRUNCATED_MARKER, truncated := true)
    else kept
  }

  class SetupLog {
    var text: seq<Byte>
    var retainedBytes: nat
    var truncated: bool

    constructor ()
      ensures Value() == Log([], 0, false)
    {
      text, retainedBytes, truncated := [], 0, false;
    }

    ghost function Value(): Log
      reads this
    {
      Log(text, retainedBytes, truncated)
    }

    /** False when the database refuses an append; the setup then stops. */
    method Append(chunk: seq<Byte>) returns (ok: bool)
      modifies `text
      ensures text == old(text) + if ok then chunk else []
    {
      ok := *;
      if ok { text := text + chunk; }
    }

    method StoreSetupChunk(chunk: seq<Byte>) returns (ok: bool)
      modifies this
      ensures ok ==> Value() == Stored(old(Value()), chunk)
      ensures !ok ==> Value() == old(Value())
                      || Value() == old(Value()).(text := old(text) + chunk[..Accepted(old(Value()), chunk)],
                                                  retained := old(retainedBytes) + Accepted(old(Value()), chunk))
    {
      var remaining := if retainedBytes < MAX_SETUP_LOG_BYTES then MAX_SETUP_LOG_BYTES - retainedBytes else 0;
      if remaining > 0 {
        var limit := if |chunk| < remaining then |chunk| else remaining;
        var accepted := limit;
        while accepted > 0 && !IsBoundary(chunk, accepted)
          invariant 0 <= accepted <= limit && Boundary(chunk, limit) == Boundary(chunk, accepted)
        {
          accepted := accepted - 1;
        }
        assert accepted == Accepted(Value(), chunk);
        if accepted > 0 {
          ok := Append(chunk[..accepted]);
          if !ok { return; }
          retainedBytes := retainedBytes + accepted;
        }
      }
      if |chunk| > remaining && !truncated {
        ok := Append(OUTPUT_TRUNCATED_MARKER);
        if !ok { return; }
        truncated := true;
      }
      ok := true;
    }
  }

  /** The log of all output so far: all of it, or as much as fits up to a character boundary,
      the marker, and at most three more bytes. */
  ghost predicate LogOk(log: Log, output: seq<Byte>) {
    && log.retained <= MAX_SETUP_LOG_BYTES
    && WellFormed(output)
    && if log.truncated then
         exists kept: seq<Byte>, extra: seq<Byte> :: Cut(log, output, kept, extra)
       else
         log.text == output && log.retained == |output|
  }

  ghost predicate Cut(log: Log, output: seq<Byte>, kept: seq<Byte>, extra: seq<Byte>) {
    && log.text == kept + OUTPUT_TRUNCATED_MARKER + extra
    && |kept| + |extra| == log.retained
    && kept <= output && |output| > MAX_SETUP_LOG_BYTES
    && MAX_SETUP_LOG_BYTES - |kept| <= 3
    && WellFormed(kept) && WellFormed(extra)
  }

  lemma AcceptedCut(log: Log, text: seq<Byte>)
    requires WellFormed(text)
    ensures WellFormed(text[..Accepted(log, text)])
    ensures Accepted(log, text) <= Room(log) && Accepted(log, text) <= |text|
    ensures |text| <= Room(log) ==> Accepted(log, text) == |text|
    ensures |text| > Room(log) ==> Room(log) - Accepted(log, text) <= 3
  {
    CutWellFormed(text, Accepted(log, text));
    if |text| > Room(log) { BoundaryNear(text, Room(log)); }
  }

  lemma StoredOk(log: Log, output: seq<Byte>, text: seq<Byte>)
    requires LogOk(log, output) && WellFormed(text)
    ensures LogOk(Stored(log, text), output + text)
  {
    hide WellFormed, Boundary;
    AcceptedCut(log, text);
    JoinWellFormed(output, text);
    var more := text[..Accepted(log, text)];
    var after := Stored(log, text);
    EmptyWellFormed();
    if log.truncated {
      var kept, extra :| Cut(log, output, kept, extra);
      JoinWellFormed(extra, more);
      assert after.text == kept + OUTPUT_TRUNCATED_MARKER + (extra + more);
      assert Cut(after, output + text, kept, extra + more);
    } else {
      JoinWellFormed(output, more);
      if |text| > Room(log) {
        assert after.text == (output + more) + OUTPUT_TRUNCATED_MARKER + [];
        assert Cut(after, output + text, output + more, []);
      } else {
        assert more == text;
      }
    }
  }

  lemma EmptyWellFormed()
    ensures WellFormed([])
  {
  }

  ghost function StoredAll(log: Log, chunks: seq<seq<Byte>>): Log {
    if chunks == [] then log else Stored(StoredAll(log, chunks[..|chunks| - 1]), chunks[|chunks| - 1])
  }

  /** Over any chunks: the bound, and what the log says. */
  lemma {:induction false} LogBounded(chunks: seq<seq<Byte>>)
    requires AllWellFormed(chunks)
    ensures LogOk(StoredAll(Log([], 0, false), chunks), Flat(chunks))
    ensures |StoredAll(Log([], 0, false), chunks).text| <= MAX_SETUP_LOG_BYTES + |OUTPUT_TRUNCATED_MARKER|
  {
    hide WellFormed, Stored;
    EmptyWellFormed();
    if chunks != [] {
      var init := chunks[..|chunks| - 1];
      LogBounded(init);
      StoredOk(StoredAll(Log([], 0, false), init), Flat(init), chunks[|chunks| - 1]);
    }
    LogLength(StoredAll(Log([], 0, false), chunks), Flat(chunks));
  }

  lemma LogLength(log: Log, output: seq<Byte>)
    requires LogOk(log, output)
    ensures |log.text| <= MAX_SETUP_LOG_BYTES + |OUTPUT_TRUNCATED_MARKER|
    ensures log.truncated <==> |log.text| != log.retained
  {
    if log.truncated {
      var kept, extra :| Cut(log, output, kept, extra);
    }
  }

  /** When the log says all there was: exactly when it is within the limit. */
  lemma TruncatedIff(chunks: seq<seq<Byte>>)
    requires AllWellFormed(chunks)
    ensures StoredAll(Log([], 0, false), chunks).truncated <==> |Flat(chunks)| > MAX_SETUP_LOG_BYTES
  {
    hide StoredAll;
    LogBounded(chunks);
    var log := StoredAll(Log([], 0, false), chunks);
    if log.truncated {
      var kept, extra :| Cut(log, Flat(chunks), kept, extra);
    }
  }

  /** Bytes may follow the marker: a character that did not fit leaves room a shorter one
      takes. They do exactly when the cut left room and the next chunk starts with a
      character that fits it. */
  lemma AfterMarkerIff(log: Log, text: seq<Byte>)
    requires log.truncated && WellFormed(text) && text != []
    ensures Stored(log, text).text != log.text <==> Next(text).len <= Room(log)
  {
    var limit := if |text| < Room(log) then |text| else Room(log);
    HeadBytes(text);
    var n := Next(text).len;
    if n <= Room(log) {
      FirstBoundary(text, n);
      assert Accepted(log, text) >= n;
      assert |Stored(log, text).text| > |log.text|;
    } else {
      assert Accepted(log, text) == 0 by {
        assert forall j :: 0 < j <= limit ==> Tail(text[j]);
      }
      assert text[..0] == [] && log.text + [] == log.text;
    }
  }

  function Repeated(n: nat): (s: seq<Byte>)
    ensures |s| == n
  {
    if n == 0 then [] else [97] + Repeated(n - 1)
  }

  lemma {:induction false} RepeatedWellFormed(n: nat)
    ensures WellFormed(Repeated(n))
  {
    if n > 0 {
      RepeatedWellFormed(n - 1);
      assert Repeated(n)[1..] == Repeated(n - 1);
      assert Next(Repeated(n)) == Good(1);
    }
  }

  lemma AllFits(log: Log, text: seq<Byte>)
    requires |text| <= Room(log)
    ensures Stored(log, text) == log.(text := log.text + text, retained := log.retained + |text|)
  {
    assert text[..|text|] == text;
  }

  lemma WideDoesNotFit(log: Log, wide: seq<Byte>)
    requires Room(log) == 1 && |wide| == 2 && Tail(wide[1]) && !log.truncated
    ensures Stored(log, wide) == log.(text := log.text + OUTPUT_TRUNCATED_MARKER, truncated := true)
  {
    assert Accepted(log, wide) == 0;
    assert log.text + wide[..0] == log.text;
  }

  /** One byte short of the limit, a character of two bytes brings the marker, and the next
      letter lands behind it. */
  lemma LetterAfterMarker()
    ensures var first, wide, letter := Repeated(MAX_SETUP_LOG_BYTES - 1), [0xC3, 0xA9], [98];
            && WellFormed(first) && WellFormed(wide) && WellFormed(letter)
            && StoredAll(Log([], 0, false), [first, wide, letter]).text == first + OUTPUT_TRUNCATED_MARKER + letter
  {
    hide Repeated, Stored, StoredAll;
    var first, wide, letter: seq<Byte> := Repeated(MAX_SETUP_LOG_BYTES - 1), [0xC3, 0xA9], [98];
    RepeatedWellFormed(MAX_SETUP_LOG_BYTES - 1);
    assert Next(wide) == Good(2) && wide[2..] == [] && Next(letter) == Good(1) && letter[1..] == [];
    var log0 := Log([], 0, false);
    var log1, log2 := Log(first, |first|, false), Log(first + OUTPUT_TRUNCATED_MARKER, |first|, true);
    AllFits(log0, first);
    assert [] + first == first;
    WideDoesNotFit(log1, wide);
    AllFits(log2, letter);
    StoredLast(log0, [], first);
    StoredLast(log0, [first], wide);
    StoredLast(log0, [first, wide], letter);
    assert [] + [first] == [first] && [first] + [wide] == [first, wide]
        && [first, wide] + [letter] == [first, wide, letter];
  }

  lemma StoredLast(log: Log, chunks: seq<seq<Byte>>, last: seq<Byte>)
    ensures StoredAll(log, chunks + [last]) == Stored(StoredAll(log, chunks), last)
    ensures StoredAll(log, []) == log
  {
    assert (chunks + [last])[..|chunks|] == chunks;
  }

  lemma FirstBoundary(text: seq<Byte>, n: nat)
    requires WellFormed(text) && text != [] && n == Next(text).len
    ensures n <= |text| && IsBoundary(text, n)
  {
    assert WellFormed(text[n..]);
    if n < |text| {
      HeadBytes(text[n..]);
      assert text[n..][0] == text[n];
    }
  }
}
