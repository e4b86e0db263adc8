/** The timing of the simulated disk (machine/disk.cc): seek, rotation, and the track buffer. */
module DiskTiming {

  const SECTORS_PER_TRACK := 32
  const NUM_SECTORS := 1024
  const ROTATION_TIME := 500      // ticks for one sector to pass the head
  const SEEK_TIME := 500          // ticks per track

  function Track(sector: int): int { sector / SECTORS_PER_TRACK }

  function Offset(sector: int): int { sector % SECTORS_PER_TRACK }

  /** The sector begins to pass the head at time t, and has passed ROTATION_TIME later. The
      n-th sector to pass since power-up begins at n * ROTATION_TIME. */
  predicate Passes(sector: int, t: int) {
    t % ROTATION_TIME == 0 && Offset(t / ROTATION_TIME) == Offset(sector)
  }

  /** The first time from `from` on at which the sector begins to pass the head. */
  ghost predicate FirstPass(sector: int, from: int, t: int) {
    from <= t && Passes(sector, t) && forall u :: from <= u && Passes(sector, u) ==> t <= u
  }

  /** The sector has passed the head completely between the two times. */
  ghost predicate PassedBetween(sector: int, from: int, to: int) {
    exists t :: from <= t && t + ROTATION_TIME <= to && Passes(sector, t)
  }

  /** The head moves one track in SEEK_TIME ticks. */
  function SeekTicks(from: int, to: int): (ticks: int)
    ensures ticks >= 0 && (ticks == 0 <==> Track(from) == Track(to))
  {
    SEEK_TIME * (if Track(to) < Track(from) then Track(from) - Track(to) else Track(to) - Track(from))
  }

  /** A seek takes 500 ticks to the next track, as long back as there, and as long as its parts. */
  lemma SeekPerTrack(from: int, to: int, on: int)
    ensures Track(to) == Track(from) + 1 ==> SeekTicks(from, to) == 500
    ensures SeekTicks(to, from) == SeekTicks(from, to)
    ensures Track(from) <= Track(on) <= Track(to) ==> SeekTicks(from, to) == SeekTicks(from, on) + SeekTicks(on, to)
  {
  }

  // ---------------------------------------------------------------- arithmetic

  /** The first sector boundary at or after a time. */
  function RoundUp(t: int): int
    requires t >= 0
  {
    if t % ROTATION_TIME > 0 then t + (ROTATION_TIME - t % ROTATION_TIME) else t
  }

  lemma RoundUpIsNext(t: int)
    requires t >= 0
    ensures RoundUp(t) % ROTATION_TIME == 0 && t <= RoundUp(t) < t + ROTATION_TIME
    ensures forall u :: t <= u && u % ROTATION_TIME == 0 ==> RoundUp(t) <= u
  {
  }

  /** Division as C does it, towards zero. */
  function Div(a: int, b: int): int
    requires b > 0
  {
    if a >= 0 then a / b else -((-a) / b)
  }

  /** How many sectors pass before `to` does, from where `from` begins. */
  function ModuloDiff(to: int, from: int): (d: int)
    requires to >= 0 && from >= 0
    ensures 0 <= d < SECTORS_PER_TRACK && Offset(from + d) == Offset(to)
    ensures forall m :: from <= m < from + d ==> Offset(m) != Offset(to)
  {
    ((to % SECTORS_PER_TRACK - from % SECTORS_PER_TRACK) + SECTORS_PER_TRACK) % SECTORS_PER_TRACK
  }

  /** Waiting ModuloDiff sectors from a boundary brings the first pass. */
  lemma FirstFromBoundary(sector: int, n: int)
    requires sector >= 0 && n >= 0
    ensures FirstPass(sector, n * ROTATION_TIME, (n + ModuloDiff(sector, n)) * ROTATION_TIME)
  {
    var d := ModuloDiff(sector, n);
    forall u | n * ROTATION_TIME <= u && Passes(sector, u)
      ensures (n + d) * ROTATION_TIME <= u
    {
      var m := u / ROTATION_TIME;
      assert n <= m && !(n <= m < n + d);
    }
  }

  lemma FirstPassFromAnyTime(sector: int, from: int, t: int)
    requires from >= 0 && FirstPass(sector, RoundUp(from), t)
    ensures FirstPass(sector, from, t)
  {
    RoundUpIsNext(from);
  }

  /** The test for the track buffer counts whole sectors since the buffer was started. */
  lemma BufferTest(sector: int, start: int, now: int)
    requires sector >= 0 && start >= 0 && start % ROTATION_TIME == 0 && now % ROTATION_TIME == 0
    ensures Div(now - start, ROTATION_TIME) > ModuloDiff(sector, start / ROTATION_TIME) <==> PassedBetween(sector, start, now)
  {
    var n := start / ROTATION_TIME;
    var first := (n + ModuloDiff(sector, n)) * ROTATION_TIME;
    FirstFromBoundary(sector, n);
    assert start == n * ROTATION_TIME;
    assert PassedBetween(sector, start, now) <==> first + ROTATION_TIME <= now;
  }

  // ---------------------------------------------------------------- the disk

  class Disk {
    var lastSector: int
    var bufferInit: int
    var active: bool

    /** The buffer was started on a sector boundary. */
    ghost predicate Valid()
      reads this
    {
      0 <= lastSector < NUM_SECTORS && bufferInit >= 0 && bufferInit % ROTATION_TIME == 0
    }

    constructor ()
      ensures Valid() && !active && bufferInit == 0
    {
      lastSector, bufferInit, active := 0, 0, false;
    }

    /** The time to the right track, and from then to the next sector boundary. */
    method TimeToSeek(totalTicks: int, newSector: int) returns (seek: int, rotation: int)
      requires Valid() && totalTicks >= 0 && 0 <= newSector < NUM_SECTORS
      ensures seek == SeekTicks(lastSector, newSector)
      ensures totalTicks + seek + rotation == RoundUp(totalTicks + seek)
    {
      var newTrack := newSector / SECTORS_PER_TRACK;
      var oldTrack := lastSector / SECTORS_PER_TRACK;
      seek := (if newTrack < oldTrack then oldTrack - newTrack else newTrack - oldTrack) * SEEK_TIME;
      var over := (totalTicks + seek) % ROTATION_TIME;
      rotation := 0;
      if over > 0 {
        rotation := ROTATION_TIME - over;
      }
    }

    /** Is a read served from the track buffer: no seek, and the sector has passed whole. */
    ghost predicate FromBuffer(totalTicks: int, newSector: int, writing: bool)
      requires totalTicks >= 0
      reads this
    {
      !writing && Track(newSector) == Track(lastSector) && PassedBetween(newSector, bufferInit, RoundUp(totalTicks))
    }

    /** One ROTATION_TIME from the buffer; otherwise the transfer begins with the first pass of
        the sector once the head is on its track, and takes one ROTATION_TIME. */
    method ComputeLatency(totalTicks: int, newSector: int, writing: bool) returns (ticks: int)
      requires Valid() && totalTicks >= 0 && 0 <= newSector < NUM_SECTORS
      ensures if FromBuffer(totalTicks, newSector, writing) then ticks == ROTATION_TIME
              else FirstPass(newSector, totalTicks + SeekTicks(lastSector, newSector), totalTicks + ticks - ROTATION_TIME)
      ensures ticks >= ROTATION_TIME
    {
      var seek, rotation := TimeToSeek(totalTicks, newSector);
      var timeAfter := totalTicks + seek + rotation;
      RoundUpIsNext(totalTicks + seek);
      BufferTest(newSector, bufferInit, timeAfter);
      if !writing && seek == 0
         && Div(timeAfter - bufferInit, ROTATION_TIME) > ModuloDiff(newSector, bufferInit / ROTATION_TIME) {
        return ROTATION_TIME;
      }
      var wait := ModuloDiff(newSector, timeAfter / ROTATION_TIME);
      FirstFromBoundary(newSector, timeAfter / ROTATION_TIME);
      FirstPassFromAnyTime(newSector, totalTicks + seek, timeAfter + wait * ROTATION_TIME);
      rotation := rotation + wait * ROTATION_TIME;
      return seek + rotation + ROTATION_TIME;
    }

    /** Remember the sector; after a seek the track buffer starts afresh. */
    method UpdateLast(totalTicks: int, newSector: int)
      requires Valid() && totalTicks >= 0 && 0 <= newSector < NUM_SECTORS
      modifies this`lastSector, this`bufferInit
      ensures Valid() && lastSector == newSector
      ensures if Track(newSector) == Track(old(lastSector)) then bufferInit == old(bufferInit)
              else bufferInit == RoundUp(totalTicks + SeekTicks(old(lastSector), newSector))
    {
      var seek, rotate := TimeToSeek(totalTicks, newSector);
      RoundUpIsNext(totalTicks + seek);
      if seek != 0 {
        bufferInit := totalTicks + seek + rotate;
      }
      lastSector := newSector;
    }

    /** A request on an idle disk, which will interrupt after so many ticks. When it does, the
        track buffer has already started. */
    method Request(totalTicks: int, newSector: int, writing: bool) returns (ticks: int)
      requires Valid() && !active && totalTicks >= 0 && 0 <= newSector < NUM_SECTORS
      modifies this
      ensures Valid() && active && lastSector == newSector && ticks >= ROTATION_TIME
      ensures if old(FromBuffer(totalTicks, newSector, writing)) then ticks == ROTATION_TIME
              else FirstPass(newSector, totalTicks + SeekTicks(old(lastSector), newSector), totalTicks + ticks - ROTATION_TIME)
      ensures if Track(newSector) == Track(old(lastSector)) then bufferInit == old(bufferInit)
              else bufferInit == RoundUp(totalTicks + SeekTicks(old(lastSector), newSector))
      ensures old(bufferInit) <= totalTicks ==> bufferInit <= totalTicks + ticks
    {
      RoundUpIsNext(totalTicks + SeekTicks(lastSector, newSector));
      ticks := ComputeLatency(totalTicks, newSector, writing);
      active := true;
      UpdateLast(totalTicks, newSector);
    }

    method HandleInterrupt()
      requires Valid()
      modifies this`active
      ensures Valid() && !active
    {
      active := false;
    }
  }
}
