/**
 * Gapless playback of the agent's audio frames: each frame starts at the
 * later of the playback cursor and the output clock, and the cursor moves
 * to the end of that frame.
 */
module Playback {
  /** A time or a duration on the output audio clock, in seconds. */
  type Seconds = r: real | 0.0 <= r

  /** Where one scheduled frame plays: its start and its decoded duration. */
  datatype Slot = Slot(start: real, duration: Seconds) {
    function End(): real { start + duration }
  }

  /** `Math.max(nextStartTime, ctx.currentTime)`. */
  function StartAt(cursor: real, clockNow: real): (t: real)
    ensures t >= cursor && t >= clockNow
    ensures t == cursor || t == clockNow
  {
    if cursor >= clockNow then cursor else clockNow
  }

  /** The slot a frame of the given duration takes when the cursor and clock are as given. */
  function Place(cursor: real, clockNow: real, duration: Seconds): (p: Slot)
    ensures p.start >= cursor && p.start >= clockNow && p.End() >= p.start
    ensures p.start == cursor || p.start == clockNow
    ensures cursor >= clockNow ==> p.start == cursor
    ensures p.duration == duration
  {
    Slot(StartAt(cursor, clockNow), duration)
  }

  /** One inbound frame: the clock when it is scheduled and its decoded duration. */
  datatype Frame = Frame(clockNow: Seconds, duration: Seconds)

  datatype Schedule = Schedule(slots: seq<Slot>, cursor: real)

  /** Frames scheduled one after another with no interruption between them. */
  function ScheduleAll(cursor: real, frames: seq<Frame>): (r: Schedule)
    ensures |r.slots| == |frames|
    ensures r.cursor >= cursor
    ensures frames != [] ==> r.cursor == r.slots[|frames| - 1].End()
  {
    if frames == [] then Schedule([], cursor)
    else
      var before := ScheduleAll(cursor, frames[..|frames| - 1]);
      var f := frames[|frames| - 1];
      var p := Place(before.cursor, f.clockNow, f.duration);
      Schedule(before.slots + [p], p.End())
  }

  function SumDurations(frames: seq<Frame>): real {
    if frames == [] then 0.0 else SumDurations(frames[..|frames| - 1]) + frames[|frames| - 1].duration
  }

  /**
   * Every frame's slot starts no earlier than its clock and the initial
   * cursor, lasts its own duration, and ends no later than the final cursor.
   */
  lemma {:induction false} SlotsFollowFrames(cursor: real, frames: seq<Frame>)
    ensures var r := ScheduleAll(cursor, frames);
            forall k :: 0 <= k < |frames| ==>
              r.slots[k].start >= frames[k].clockNow && r.slots[k].duration == frames[k].duration &&
              r.slots[k].start >= cursor && r.slots[k].End() <= r.cursor
  {
    if frames != [] {
      var init := frames[..|frames| - 1];
      SlotsFollowFrames(cursor, init);
      assert forall k :: 0 <= k < |init| ==> init[k] == frames[k];
    }
  }

  /**
   * Each frame starts exactly at the later of the previous frame's end
   * (the initial cursor for the first frame) and its clock: no earlier,
   * so nothing overlaps, and no later, so no silence is added.
   */
  lemma {:induction false} SlotStartsAtLaterOfEndAndClock(cursor: real, frames: seq<Frame>)
    ensures var r := ScheduleAll(cursor, frames);
            frames != [] ==> r.slots[0].start == StartAt(cursor, frames[0].clockNow)
    ensures var r := ScheduleAll(cursor, frames);
            forall k :: 0 < k < |frames| ==>
              r.slots[k].start == StartAt(r.slots[k - 1].End(), frames[k].clockNow)
  {
    if frames != [] {
      var init := frames[..|frames| - 1];
      SlotStartsAtLaterOfEndAndClock(cursor, init);
      var before := ScheduleAll(cursor, init);
      var r := ScheduleAll(cursor, frames);
      var n := |init|;
      assert r.slots == before.slots + [Place(before.cursor, frames[n].clockNow, frames[n].duration)];
      assert forall k :: 0 <= k < n ==> init[k] == frames[k];
      if n > 0 {
        assert before.cursor == before.slots[n - 1].End();
      }
    }
  }

  /** Two frames scheduled without an interruption between them never overlap. */
  lemma {:induction false} NoOverlap(cursor: real, frames: seq<Frame>, i: nat, j: nat)
    requires i < j < |frames|
    ensures var r := ScheduleAll(cursor, frames);
            r.slots[i].End() <= r.slots[j].start
  {
    var init := frames[..|frames| - 1];
    if j < |frames| - 1 {
      NoOverlap(cursor, init, i, j);
    } else {
      SlotsFollowFrames(cursor, init);
    }
  }

  /** The cursor never moves backwards while frames are scheduled. */
  lemma {:induction false} CursorNeverDecreases(cursor: real, frames: seq<Frame>, i: nat, j: nat)
    requires i <= j <= |frames|
    ensures ScheduleAll(cursor, frames[..i]).cursor <= ScheduleAll(cursor, frames[..j]).cursor
  {
    if i < j {
      CursorNeverDecreases(cursor, frames, i, j - 1);
      assert frames[..j][..j - 1] == frames[..j - 1];
    }
  }

  /**
   * The cursor ends at least the summed durations past the first frame's
   * start, and exactly there when every later frame arrives while the
   * previous one is still queued (no gap opens).
   */
  lemma {:induction false} CursorCoversDurations(cursor: real, frames: seq<Frame>)
    requires frames != []
    ensures var r := ScheduleAll(cursor, frames);
            r.cursor >= r.slots[0].start + SumDurations(frames)
    ensures var r := ScheduleAll(cursor, frames);
            (forall k :: 0 < k < |frames| ==> frames[k].clockNow <= r.slots[k - 1].End()) ==>
              r.cursor == r.slots[0].start + SumDurations(frames)
  {
    var init := frames[..|frames| - 1];
    if init != [] {
      CursorCoversDurations(cursor, init);
      assert forall k :: 0 <= k < |init| ==> init[k] == frames[k];
    }
  }
}
