/** The heartbeat watchdog: when a peer that falls silent is declared lost. */
module Watchdog {
  import opened Results

  function Max(a: real, b: real): real {
    if a >= b then a else b
  }

  /** The pause between two checks: twice per interval, and never under 50 ms. */
  function SleepFor(interval: nat): (r: real)
    ensures r >= 0.05 && (interval >= 1 ==> r == interval as real / 2.0)
  {
    Max(interval as real / 2.0, 0.05)
  }

  /** What becomes of the heartbeat written after a check.  Writing it waits while the peer
      does not read and too much is buffered: possibly for ever. */
  datatype Write = Takes(duration: real) | Fails | Blocks

  /** A watch over one connection: when it started, when the peer's frames came in, and how
      long each sleep lasts and each heartbeat takes.  A sleep may last up to `lag` longer
      than asked for. */
  datatype Watch = Watch(interval: nat, start: real, frames: seq<real>,
                         sleeps: nat -> real, writes: nat -> Write, lag: real) {

    ghost predicate Valid() {
      && interval >= 1 && lag >= 0.0
      && (forall j :: 0 <= j < |frames| ==> start <= frames[j])
      && (forall j, k :: 0 <= j < k < |frames| ==> frames[j] <= frames[k])
      && (forall k: nat :: SleepFor(interval) <= sleeps(k) <= SleepFor(interval) + lag)
      && forall k: nat :: writes(k).Takes? ==> writes(k).duration >= 0.0
    }

    /** Two intervals: the silence a check tolerates. */
    function Limit(): real {
      interval as real * 2.0
    }

    /** No sign of the peer in the two intervals up to a time. */
    predicate SilentAt(c: real) {
      && start < c - Limit()
      && forall j :: 0 <= j < |frames| ==> !(c - Limit() <= frames[j] <= c)
    }
  }

  /** The last sign of the peer, once `seen` frames have come in. */
  function LastOf(w: Watch, seen: nat): real
    requires seen <= |w.frames|
  {
    if seen == 0 then w.start else w.frames[seen - 1]
  }

  /** One timestamp is enough: it is more than two intervals old iff the peer is silent. */
  lemma TimestampTells(w: Watch, now: real, seen: nat)
    requires w.Valid() && seen <= |w.frames|
    requires forall j :: 0 <= j < seen ==> w.frames[j] <= now
    requires seen < |w.frames| ==> w.frames[seen] > now
    ensures w.SilentAt(now) <==> now - LastOf(w, seen) > w.Limit()
  {
    if now - LastOf(w, seen) > w.Limit() {
      forall j | 0 <= j < |w.frames|
        ensures !(now - w.Limit() <= w.frames[j] <= now)
      {
        if j < seen {
          assert w.frames[j] <= LastOf(w, seen);
        } else {
          assert w.frames[seen] <= w.frames[j];
        }
      }
    }
  }

  /** What the reader does between two checks: note the time of each frame that comes in. */
  method NoteFrames(w: Watch, now: real, before: nat, stamp: real) returns (seen: nat, lastPeerFrameAt: real)
    requires before <= |w.frames| && stamp == LastOf(w, before)
    requires forall j :: 0 <= j < before ==> w.frames[j] <= now
    ensures before <= seen <= |w.frames| && lastPeerFrameAt == LastOf(w, seen)
    ensures forall j :: 0 <= j < seen ==> w.frames[j] <= now
    ensures seen < |w.frames| ==> w.frames[seen] > now
  {
    seen, lastPeerFrameAt := before, stamp;
    while seen < |w.frames| && w.frames[seen] <= now
      invariant before <= seen <= |w.frames| && lastPeerFrameAt == LastOf(w, seen)
      invariant forall j :: 0 <= j < seen ==> w.frames[j] <= now
    {
      lastPeerFrameAt := w.frames[seen];
      seen := seen + 1;
    }
  }

  /** When the k-th check is made, if the loop gets that far: every check before it found the
      peer alive, and every heartbeat before it was written. */
  function CheckAt(w: Watch, k: nat): Option<real> {
    if k == 0 then Some(w.start + w.sleeps(0))
    else
      var before := CheckAt(w, k - 1);
      if before.Some? && !w.SilentAt(before.value) && w.writes(k - 1).Takes?
      then Some(before.value + w.writes(k - 1).duration + w.sleeps(k)) else None
  }

  predicate FoundSilent(w: Watch, k: nat) {
    CheckAt(w, k).Some? && w.SilentAt(CheckAt(w, k).value)
  }

  /** The check found the peer alive, and this became of the heartbeat after it. */
  predicate WroteThen(w: Watch, k: nat, write: Write) {
    CheckAt(w, k).Some? && !w.SilentAt(CheckAt(w, k).value) && w.writes(k) == write
  }

  /** The two ways to declare the connection lost. */
  predicate DeclaredLost(w: Watch, k: nat) {
    FoundSilent(w, k) || WroteThen(w, k, Fails)
  }

  datatype Verdict = Watching | SilentPeer(check: nat) | FailedWrite(check: nat) | Stuck(check: nat)

  /** The loop, for so many rounds.  It ends at the first check at which the peer has been
      silent for more than two intervals, or at the first heartbeat that fails; at one that
      blocks it stays. */
  method HeartbeatLoop(w: Watch, rounds: nat) returns (verdict: Verdict, heartbeats: nat)
    requires w.Valid()
    ensures match verdict
      case Watching => heartbeats == rounds && CheckAt(w, rounds).Some?
      case SilentPeer(k) => heartbeats == k < rounds && FoundSilent(w, k)
      case FailedWrite(k) => heartbeats == k < rounds && WroteThen(w, k, Fails)
      case Stuck(k) => heartbeats == k < rounds && WroteThen(w, k, Blocks)
  {
    hide w.SilentAt, w.Valid, LastOf;
    var lastPeerFrameAt, seen := w.start, 0;
    assert LastOf(w, 0) == w.start by { NothingSeen(w); }
    var now := w.start;
    heartbeats := 0;
    while heartbeats < rounds
      invariant heartbeats <= rounds && seen <= |w.frames| && lastPeerFrameAt == LastOf(w, seen)
      invariant forall j :: 0 <= j < seen ==> w.frames[j] <= now
      invariant CheckAt(w, heartbeats) == Some(now + w.sleeps(heartbeats))
    {
      SleepIsPositive(w, heartbeats);
      now := now + w.sleeps(heartbeats);
      seen, lastPeerFrameAt := NoteFrames(w, now, seen, lastPeerFrameAt);
      TimestampTells(w, now, seen);
      if now - lastPeerFrameAt > w.Limit() {
        return SilentPeer(heartbeats), heartbeats;
      }
      var write := w.writes(heartbeats);
      match write {
        case Fails => return FailedWrite(heartbeats), heartbeats;
        case Blocks => return Stuck(heartbeats), heartbeats;
        case Takes(duration) =>
          WriteTakesTime(w, heartbeats);
          now := now + duration;
          heartbeats := heartbeats + 1;
      }
    }
    verdict := Watching;
  }

  lemma SleepIsPositive(w: Watch, k: nat)
    requires w.Valid()
    ensures SleepFor(w.interval) <= w.sleeps(k) <= SleepFor(w.interval) + w.lag && w.sleeps(k) >= 0.05
  {}

  lemma WriteTakesTime(w: Watch, k: nat)
    requires w.Valid()
    ensures w.writes(k).Takes? ==> w.writes(k).duration >= 0.0
  {}

  lemma NothingSeen(w: Watch)
    ensures LastOf(w, 0) == w.start
  {}

  /** No two signs of the peer, the start included, are more than two intervals apart, up to
      the time given. */
  predicate Lively(w: Watch, until: real) {
    var most := 2.0 * w.interval as real;
    && (if w.frames == [] then until <= w.start + most else w.frames[0] <= w.start + most)
    && (forall j :: 0 < j < |w.frames| ==> w.frames[j] - w.frames[j - 1] <= most)
    && (w.frames != [] ==> until <= w.frames[|w.frames| - 1] + most)
  }

  /** The latest frame at or before a time, if any. */
  lemma {:induction false} LatestBefore(w: Watch, c: real, upTo: nat) returns (latest: Option<nat>)
    requires w.Valid() && upTo <= |w.frames|
    requires forall j :: upTo <= j < |w.frames| ==> w.frames[j] > c
    ensures latest.None? ==> forall j :: 0 <= j < |w.frames| ==> w.frames[j] > c
    ensures latest.Some? ==> latest.value < upTo && w.frames[latest.value] <= c
    ensures latest.Some? ==> forall j :: latest.value < j < |w.frames| ==> w.frames[j] > c
  {
    if upTo == 0 {
      latest := None;
    } else if w.frames[upTo - 1] <= c {
      latest := Some(upTo - 1);
    } else {
      latest := LatestBefore(w, c, upTo - 1);
    }
  }

  /** A peer heard from at least every two intervals is never found silent. */
  lemma LivelyIsNeverLost(w: Watch, until: real, c: real)
    requires w.Valid() && Lively(w, until) && w.start <= c <= until
    ensures !w.SilentAt(c)
  {
    var latest := LatestBefore(w, c, |w.frames|);
    if latest.Some? && latest.value + 1 < |w.frames| {
      assert w.frames[latest.value + 1] - w.frames[latest.value] <= w.Limit();
    }
  }

  /** When the peer was last heard from. */
  function LastSign(w: Watch): real {
    if w.frames == [] then w.start else w.frames[|w.frames| - 1]
  }

  /** From then on a check may find it silent. */
  function Deadline(w: Watch): real {
    LastSign(w) + w.Limit()
  }

  /** A check finds a peer that was lively to the end silent iff it comes after the deadline. */
  lemma SilentAfterDeadline(w: Watch, c: real)
    requires w.Valid() && Lively(w, LastSign(w)) && w.start <= c
    ensures w.SilentAt(c) <==> c > Deadline(w)
  {
    assert w.start <= LastSign(w);
    if c > Deadline(w) {
      assert forall j :: 0 <= j < |w.frames| ==> w.frames[j] <= LastSign(w);
    } else {
      assert Lively(w, Deadline(w));
      LivelyIsNeverLost(w, Deadline(w), c);
    }
  }

  lemma {:induction false} ChecksComeLater(w: Watch, k: nat)
    requires w.Valid() && CheckAt(w, k).Some?
    ensures w.start <= CheckAt(w, k).value
  {
    hide w.Valid, w.SilentAt;
    SleepIsPositive(w, k);
    if k > 0 {
      ChecksComeLater(w, k - 1);
      WriteTakesTime(w, k - 1);
    }
  }

  /** The loop gets to a later check only past this one. */
  lemma {:induction false} PastCheck(w: Watch, j: nat, k: nat)
    requires j < k && CheckAt(w, k).Some?
    ensures CheckAt(w, j).Some? && !w.SilentAt(CheckAt(w, j).value) && w.writes(j).Takes?
    decreases k
  {
    hide w.SilentAt;
    if j < k - 1 {
      PastCheck(w, j, k - 1);
    }
  }

  /** From a check up to the deadline the loop goes on to declare the peer lost, if no
      heartbeat blocks. */
  lemma {:induction false} LostFromHere(w: Watch, k: nat, left: nat) returns (lostAt: nat)
    requires w.Valid() && Lively(w, LastSign(w))
    requires CheckAt(w, k).Some? && CheckAt(w, k).value <= Deadline(w) < CheckAt(w, k).value + left as real * 0.05
    requires forall j: nat :: CheckAt(w, j).Some? && CheckAt(w, j).value <= Deadline(w) ==> !w.writes(j).Blocks?
    ensures DeclaredLost(w, lostAt)
    decreases left
  {
    var c := CheckAt(w, k).value;
    ChecksComeLater(w, k);
    SilentAfterDeadline(w, c);
    lostAt := k;
    if w.writes(k).Takes? {
      SleepIsPositive(w, k + 1);
      WriteTakesTime(w, k);
      hide w.Valid, w.SilentAt, Lively, LastSign, Deadline;
      var next := CheckAt(w, k + 1).value;
      assert next >= c + 0.05;
      ChecksComeLater(w, k + 1);
      SilentAfterDeadline(w, next);
      if next > Deadline(w) {
        lostAt := k + 1;
      } else {
        lostAt := LostFromHere(w, k + 1, left - 1);
      }
    }
  }

  /** A peer that was lively and then falls silent for good is declared lost if and only if no
      heartbeat blocks that is written up to two intervals after its last sign. */
  lemma SilenceIsNoticedIff(w: Watch)
    requires w.Valid() && Lively(w, LastSign(w))
    ensures (exists k: nat :: DeclaredLost(w, k))
       <==> forall k: nat :: CheckAt(w, k).Some? && CheckAt(w, k).value <= Deadline(w) ==> !w.writes(k).Blocks?
  {
    if forall k: nat :: CheckAt(w, k).Some? && CheckAt(w, k).value <= Deadline(w) ==> !w.writes(k).Blocks? {
      ChecksComeLater(w, 0);
      var c := CheckAt(w, 0).value;
      SilentAfterDeadline(w, c);
      if c > Deadline(w) {
        assert DeclaredLost(w, 0);
      } else {
        var left := ((Deadline(w) - c) / 0.05).Floor + 1;
        var lostAt := LostFromHere(w, 0, left);
      }
    } else {
      var stuck: nat :| CheckAt(w, stuck).Some? && CheckAt(w, stuck).value <= Deadline(w) && w.writes(stuck).Blocks?;
      forall k: nat
        ensures !DeclaredLost(w, k)
      {
        BlockedWriteHides(w, stuck, k);
      }
    }
  }

  lemma BlockedWriteHides(w: Watch, stuck: nat, k: nat)
    requires w.Valid() && Lively(w, LastSign(w))
    requires CheckAt(w, stuck).Some? && CheckAt(w, stuck).value <= Deadline(w) && w.writes(stuck).Blocks?
    ensures !DeclaredLost(w, k)
  {
    ChecksComeLater(w, stuck);
    SilentAfterDeadline(w, CheckAt(w, stuck).value);
    hide w.Valid, w.SilentAt, CheckAt;
    if CheckAt(w, k).Some? {
      if stuck < k {
        PastCheck(w, stuck, k);
      } else if k < stuck {
        PastCheck(w, k, stuck);
      }
    }
  }

  /** And when: at the first check past the deadline, which comes within two and a half
      intervals of the last sign, but for the lag of one sleep and the time the heartbeat
      before it takes; or, if a heartbeat fails first, up to the deadline. */
  lemma NoticedInTime(w: Watch, k: nat)
    requires w.Valid() && Lively(w, LastSign(w)) && DeclaredLost(w, k)
    ensures var (c, last) := (CheckAt(w, k).value, LastSign(w));
      if FoundSilent(w, k)
      then w.interval as real * 2.0 < c - last
           <= w.interval as real * 2.5 + w.lag + if k == 0 then 0.0 else w.writes(k - 1).duration
      else c - last <= w.interval as real * 2.0
    ensures forall j :: 0 <= j < k ==> CheckAt(w, j).Some? && CheckAt(w, j).value <= Deadline(w) && w.writes(j).Takes?
  {
    assert w.start <= LastSign(w);
    ChecksComeLater(w, k);
    SilentAfterDeadline(w, CheckAt(w, k).value);
    SleepIsPositive(w, k);
    forall j | 0 <= j < k
      ensures CheckAt(w, j).Some? && CheckAt(w, j).value <= Deadline(w) && w.writes(j).Takes?
    {
      PastCheck(w, j, k);
      ChecksComeLater(w, j);
      SilentAfterDeadline(w, CheckAt(w, j).value);
    }
    hide w.Valid, w.SilentAt, Lively, LastSign;
    if k > 0 {
      assert CheckAt(w, k - 1).value <= Deadline(w);
    }
  }

  /** A peer that never sends anything and never reads: the first heartbeat blocks, no further
      check is made, and the connection is never declared lost. */
  lemma BlockedWriteHidesSilence(interval: nat, start: real) returns (w: Watch)
    requires interval >= 1
    ensures w.Valid() && w.interval == interval && w.start == start && w.frames == []
    ensures forall k: nat :: !DeclaredLost(w, k) && (k > 0 ==> CheckAt(w, k).None?)
  {
    w := Watch(interval, start, [], _ => SleepFor(interval), _ => Blocks, 0.0);
    assert w.writes(0).Blocks?;
    forall k: nat
      ensures !DeclaredLost(w, k) && (k > 0 ==> CheckAt(w, k).None?)
    {
      BlockedWriteHides(w, 0, k);
      if k > 0 && CheckAt(w, k).Some? {
        PastCheck(w, 0, k);
      }
    }
  }
}
