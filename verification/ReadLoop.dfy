/** The incremental decoder: chunks are appended to a buffer, and whole frames are taken
    off its front and dispatched, until more octets are needed or something is rejected. */
module ReadLoop {
  import opened Results
  import opened Octets
  import opened Frames
  import opened Assembler

  /** The frames at the front of `buffer`, dispatched in order, and what is left. */
  function Drain(buffer: octets, frameMax: nat, st: Loop): (r: (octets, Loop))
    requires ValidLoop(st)
    ensures ValidLoop(r.1)
    decreases |buffer|
  {
    if st.rejected then (buffer, st) else
    match DecodeFrame(buffer, frameMax)
    case Ok((f, n)) => Drain(buffer[n..], frameMax, Dispatch(st, f))
    case Err(e) => if e == Incomplete then (buffer, st) else (buffer, Loop(map[], st.events, true))
  }

  datatype Reader = Reader(buffer: octets, loop: Loop)

  /** One `read()`.  An empty chunk is end of stream, which is rejected. */
  function Feed(r: Reader, frameMax: nat, chunk: octets): (r': Reader)
    requires ValidLoop(r.loop)
    ensures ValidLoop(r'.loop)
  {
    if r.loop.rejected then r
    else if chunk == [] then Reader(r.buffer, Loop(map[], r.loop.events, true))
    else
      var (rest, loop) := Drain(r.buffer + chunk, frameMax, r.loop);
      Reader(rest, loop)
  }

  function FeedAll(r: Reader, frameMax: nat, chunks: seq<octets>): (r': Reader)
    requires ValidLoop(r.loop)
    ensures ValidLoop(r'.loop)
    decreases |chunks|
  {
    if chunks == [] then r else FeedAll(Feed(r, frameMax, chunks[0]), frameMax, chunks[1..])
  }

  // ---------------------------------------------------------------- chunk independence

  /** Draining in two steps is draining at once. */
  lemma {:induction false} DrainInTwo(buffer: octets, more: octets, frameMax: nat, st: Loop)
    requires ValidLoop(st)
    ensures var (rest, mid) := Drain(buffer, frameMax, st);
      && (mid.rejected ==> Drain(buffer + more, frameMax, st).1 == mid)
      && (!mid.rejected ==> Drain(buffer + more, frameMax, st) == Drain(rest + more, frameMax, mid))
    decreases |buffer|
  {
    hide DecodeFrame, Dispatch, ValidLoop;
    var decoded := DecodeFrame(buffer, frameMax);
    if !st.rejected && decoded != Err(Incomplete) {
      DecodeIsStable(buffer, more, frameMax);
      if decoded.Ok? {
        var (f, n) := decoded.value;
        assert (buffer + more)[n..] == buffer[n..] + more;
        DrainInTwo(buffer[n..], more, frameMax, Dispatch(st, f));
      }
    }
  }

  /** After `Feed` has drained, nothing more can be taken off the buffer. */
  predicate Drained(r: Reader, frameMax: nat) {
    r.loop.rejected || DecodeFrame(r.buffer, frameMax) == Err(Incomplete)
  }

  lemma {:induction false} DrainDrains(buffer: octets, frameMax: nat, st: Loop)
    requires ValidLoop(st)
    ensures Drained(Reader(Drain(buffer, frameMax, st).0, Drain(buffer, frameMax, st).1), frameMax)
    decreases |buffer|
  {
    hide Dispatch, ValidLoop;
    var decoded := DecodeFrame(buffer, frameMax);
    if !st.rejected && decoded.Ok? {
      DrainDrains(buffer[decoded.value.1..], frameMax, Dispatch(st, decoded.value.0));
    }
  }

  /** How the stream is cut does not matter.  For every octet stream and every way to cut it
      into non-empty chunks, the loop ends in the same state as if the stream had come in
      one piece: the same events, the same slots, the same verdict, and, unless it was
      rejected, the same octets still waiting. */
  lemma {:induction false} ChunksDoNotMatter(r: Reader, frameMax: nat, chunks: seq<octets>)
    requires ValidLoop(r.loop) && Drained(r, frameMax) && forall i :: 0 <= i < |chunks| ==> chunks[i] != []
    ensures var (whole, cut) := (Drain(r.buffer + Concat(chunks), frameMax, r.loop), FeedAll(r, frameMax, chunks));
      cut.loop == whole.1 && (!whole.1.rejected ==> cut.buffer == whole.0)
    decreases |chunks|
  {
    hide DecodeFrame, ValidLoop;
    if chunks == [] {
      assert r.buffer + Concat(chunks) == r.buffer;
    } else {
      var rest := Concat(chunks[1..]);
      assert r.buffer + Concat(chunks) == r.buffer + chunks[0] + rest;
      if r.loop.rejected {
        RejectedReaderStops(r, frameMax, chunks);
      } else {
        DrainInTwo(r.buffer + chunks[0], rest, frameMax, r.loop);
        DrainDrains(r.buffer + chunks[0], frameMax, r.loop);
        var next := Feed(r, frameMax, chunks[0]);
        ChunksDoNotMatter(next, frameMax, chunks[1..]);
        if next.loop.rejected {
          RejectedReaderStops(next, frameMax, chunks[1..]);
        }
      }
    }
  }

  lemma {:induction false} RejectedReaderStops(r: Reader, frameMax: nat, chunks: seq<octets>)
    requires ValidLoop(r.loop) && r.loop.rejected
    ensures FeedAll(r, frameMax, chunks) == r
    decreases |chunks|
  {
    if chunks != [] {
      RejectedReaderStops(r, frameMax, chunks[1..]);
    }
  }

  /** Two cuts of the same stream are indistinguishable to everything downstream. */
  lemma AnyTwoCutsAgree(r: Reader, frameMax: nat, one: seq<octets>, other: seq<octets>)
    requires ValidLoop(r.loop) && Drained(r, frameMax) && Concat(one) == Concat(other)
    requires forall i :: 0 <= i < |one| ==> one[i] != []
    requires forall i :: 0 <= i < |other| ==> other[i] != []
    ensures FeedAll(r, frameMax, one).loop == FeedAll(r, frameMax, other).loop
  {
    ChunksDoNotMatter(r, frameMax, one);
    ChunksDoNotMatter(r, frameMax, other);
  }

  // ---------------------------------------------------------------- a stream of frames

  /** The encodings of a run of frames, one after another. */
  function Stream(frames: seq<Frame>, frameMax: nat): Result<octets> {
    if frames == [] then Ok([]) else
    var first :- EncodeFrame(frames[0], frameMax);
    var rest :- Stream(frames[1..], frameMax);
    Ok(first + rest)
  }

  /** A stream made by a sender decodes to exactly its frames, for every reader whose frame
      limit is no smaller; whatever follows it is left for later. */
  lemma {:induction false} StreamDrains(frames: seq<Frame>, sendMax: nat, frameMax: nat, s: octets, more: octets,
                                        st: Loop)
    requires ValidLoop(st) && sendMax <= frameMax && Stream(frames, sendMax) == Ok(s)
    ensures Run(st, frames).rejected ==> Drain(s + more, frameMax, st).1 == Run(st, frames)
    ensures !Run(st, frames).rejected ==> Drain(s + more, frameMax, st) == Drain(more, frameMax, Run(st, frames))
    decreases |frames|
  {
    hide DecodeFrame, Dispatch, ValidLoop;
    if frames == [] {
      assert s + more == more;
    } else if st.rejected {
      RejectionIsFinal(st, frames);
    } else {
      var first := EncodeFrame(frames[0], sendMax).value;
      var rest := Stream(frames[1..], sendMax).value;
      assert EncodeFrame(frames[0], frameMax) == Ok(first);
      DecodeIsInverse(s + more, frameMax, frames[0], |first|);
      assert (s + more)[|first|..] == rest + more;
      StreamDrains(frames[1..], sendMax, frameMax, rest, more, Dispatch(st, frames[0]));
    }
  }

  /** An empty chunk is the end of the stream: the reader rejects it, wherever it comes, and
      emits nothing more. */
  lemma {:induction false} EndOfStreamRejects(r: Reader, frameMax: nat, before: seq<octets>, after: seq<octets>)
    requires ValidLoop(r.loop)
    ensures var r' := FeedAll(r, frameMax, before + [[]] + after);
      r'.loop.rejected && r'.loop.events == FeedAll(r, frameMax, before).loop.events
    decreases |before|
  {
    hide Drain, ValidLoop;
    var all := before + [[]] + after;
    if before == [] {
      assert all[0] == [] && all[1..] == after;
      RejectedForGood(Feed(r, frameMax, []), frameMax, after);
    } else {
      assert all[0] == before[0] && all[1..] == before[1..] + [[]] + after;
      EndOfStreamRejects(Feed(r, frameMax, before[0]), frameMax, before[1..], after);
    }
  }

  lemma {:induction false} RejectedForGood(r: Reader, frameMax: nat, chunks: seq<octets>)
    requires ValidLoop(r.loop) && r.loop.rejected
    ensures FeedAll(r, frameMax, chunks) == r
    decreases |chunks|
  {
    if chunks != [] {
      RejectedForGood(r, frameMax, chunks[1..]);
    }
  }
}
