// The bookkeeping of the demo's main loop (example/code/main.cpp): which example runs, the
// "too many particles" warning, and the frame recorder that captures a fixed number of
// frames into one buffer and then writes one image per frame.
//
// The examples' own frames, ImGui, the GPU read-back, image resizing and PNG writing are not
// part of this model: the shortfalls an example reports and the pixels read back are
// parameters, and a written image is the frame's pixels before resizing.

module App {
  import opened Starvation

  /** The `examples` table holds the sandbox and the bomb. */
  const NumExamples: nat := 2

  /** `frames_to_record`'s initial value. */
  const DefaultFramesToRecord: int := 60

  /** The clamp of `current_example_index` done before dispatch in `do_frame`. */
  function ClampExample(index: int, count: nat): (r: int)
    requires count > 0
    ensures 0 <= r < count
    ensures 0 <= index < count ==> r == index
    ensures index < 0 ==> r == 0
    ensures index >= count ==> r == count - 1
  {
    if index < 0 then 0 else if index >= count then count - 1 else index
  }

  /**
   * The warning is drawn in a frame exactly when the timer was still running or some
   * notification of that frame left the count non-zero.
   */
  lemma {:induction false} WarningShown(timer: real, shortfalls: seq<int>)
    requires timer >= 0.0
    ensures Notified(0, timer, shortfalls) > 0.0
      <==> timer > 0.0 || exists i :: 0 < i <= |shortfalls| && Reported(0, shortfalls[..i]) != 0
  {
    if shortfalls != [] {
      var init := shortfalls[..|shortfalls| - 1];
      WarningShown(timer, init);
      assert shortfalls[..|shortfalls|] == shortfalls;
      if exists i :: 0 < i <= |init| && Reported(0, init[..i]) != 0 {
        var i :| 0 < i <= |init| && Reported(0, init[..i]) != 0;
        assert shortfalls[..i] == init[..i];
      }
      if exists i :: 0 < i <= |shortfalls| && Reported(0, shortfalls[..i]) != 0 {
        var i :| 0 < i <= |shortfalls| && Reported(0, shortfalls[..i]) != 0;
        if i < |shortfalls| {
          assert init[..i] == shortfalls[..i];
        }
      }
    }
  }

  /** Slot `i` of a buffer of frames of `size` pixels each (empty past its end). */
  function Slot(buffer: seq<int>, size: nat, i: nat): seq<int>
  {
    if size * (i + 1) <= |buffer| then buffer[size * i .. size * (i + 1)] else []
  }

  /** Slot `i` of `n` ends within a buffer of `n` frames. */
  lemma SlotEnd(size: nat, i: nat, n: nat)
    requires i < n
    ensures size * i + size == size * (i + 1) <= size * n
  {
    var d := n - (i + 1);
    assert size * n == size * (i + 1) + size * d;
  }

  /** A slot whose every pixel is the frame's is the frame. */
  lemma WrittenSlot(b: seq<int>, size: nat, slot: nat, pixels: seq<int>)
    requires |pixels| == size && size * slot + size <= |b|
    requires forall j :: size * slot <= j < size * slot + size ==> b[j] == pixels[j - size * slot]
    ensures Slot(b, size, slot) == pixels
  {
    assert size * (slot + 1) == size * slot + size;
    assert Slot(b, size, slot) == b[size * slot .. size * slot + size];
  }

  /** A slot before `slot` lies wholly in the prefix the two buffers share. */
  lemma KeptSlot(a: seq<int>, b: seq<int>, size: nat, i: nat, slot: nat, n: nat)
    requires i < slot < n && |a| == |b| == size * n
    requires forall j :: 0 <= j < size * slot ==> b[j] == a[j]
    ensures Slot(b, size, i) == Slot(a, size, i)
  {
    SlotEnd(size, i, slot);
    SlotEnd(size, slot, n);
  }

  /**
   * Writing a frame into slot `slot` of a buffer of `n` frames makes that slot the frame and
   * leaves the slots before it as they were.
   */
  lemma {:induction false} WriteSlot(a: seq<int>, b: seq<int>, size: nat, slot: nat, n: nat, pixels: seq<int>)
    requires slot < n && |a| == |b| == size * n && |pixels| == size
    requires forall j :: 0 <= j < |b| ==>
      b[j] == if size * slot <= j < size * slot + size then pixels[j - size * slot] else a[j]
    ensures Slot(b, size, slot) == pixels
    ensures forall i :: 0 <= i < slot ==> Slot(b, size, i) == Slot(a, size, i)
  {
    SlotEnd(size, slot, n);
    WrittenSlot(b, size, slot, pixels);
    forall i | 0 <= i < slot
      ensures Slot(b, size, i) == Slot(a, size, i)
    {
      KeptSlot(a, b, size, i, slot, n);
    }
  }

  /** `RecordState` together with the size of the frames it captures. */
  class Recorder {
    const width: nat
    const height: nat
    var recording: bool
    var framesToRecord: int
    var frameIndex: int
    var data: array?<int>
    var name: string
    /** The frames captured since the last start, oldest first. */
    ghost var captured: seq<seq<int>>

    function FrameSize(): nat
    {
      width * height
    }

    /**
     * While recording, the buffer holds `frames_to_record` frames, and the frames captured so
     * far sit in its first `frame_index` slots.
     */
    ghost predicate Valid()
      reads this, data
    {
      recording ==>
        && data != null && framesToRecord > 0
        && data.Length == FrameSize() * framesToRecord
        && 0 <= frameIndex <= framesToRecord && |captured| == frameIndex
        && forall i :: 0 <= i < frameIndex ==> Slot(data[..], FrameSize(), i) == captured[i]
    }

    /** A recorder for frames of the render target's size: idle, set to 60 frames. */
    constructor (width: nat, height: nat)
      ensures Valid() && this.width == width && this.height == height
      ensures !recording && framesToRecord == DefaultFramesToRecord && data == null
    {
      this.width := width;
      this.height := height;
      recording := false;
      framesToRecord := DefaultFramesToRecord;
      frameIndex := 0;
      data := null;
      name := "";
      captured := [];
    }

    /** The Start button is enabled with a non-empty name and a positive frame count. */
    predicate StartEnabled(name: string, frames: int)
    {
      |name| > 0 && frames > 0
    }

    /**
     * The "Record?" popup, which opens only while not recording: its inputs set the frame
     * count and name, and Start, when enabled, begins recording at frame 0 into a new buffer
     * of `width * height * frames_to_record` pixels.
     */
    method Start(name: string, frames: int) returns (started: bool)
      requires Valid() && !recording
      modifies this
      ensures Valid() && this.name == name && framesToRecord == frames
      ensures started <==> StartEnabled(name, frames)
      ensures started ==> recording && frameIndex == 0 && fresh(data) && data.Length == FrameSize() * frames
      ensures !started ==> !recording && data == old(data) && frameIndex == old(frameIndex)
    {
      framesToRecord := frames;
      this.name := name;
      started := |name| > 0 && frames > 0;
      if started {
        recording := true;
        frameIndex := 0;
        data := new int[width * height * frames];
        captured := [];
      }
    }

    /** Cancel, enabled while recording: recording stops and the buffer is not freed. */
    method Cancel()
      requires Valid() && recording
      modifies this`recording
      ensures Valid() && !recording && data == old(data)
    {
      recording := false;
    }

    /**
     * The finish check: once every frame is captured, recording stops, one image per frame
     * is written, in order, and the buffer is freed.
     */
    method Finish() returns (written: seq<seq<int>>)
      requires Valid()
      modifies this`recording, this`data
      ensures Valid()
      ensures old(recording) && old(frameIndex) >= framesToRecord ==>
        !recording && data == null && written == old(captured)
      ensures !(old(recording) && old(frameIndex) >= framesToRecord) ==>
        recording == old(recording) && data == old(data) && written == []
    {
      written := [];
      if recording && frameIndex >= framesToRecord {
        recording := false;
        var i := 0;
        while i < framesToRecord
          invariant 0 <= i <= framesToRecord && written == captured[..i]
        {
          written := written + [Slot(data[..], FrameSize(), i)];
          i := i + 1;
        }
        assert captured[..framesToRecord] == captured;
        data := null;
      }
    }

    /**
     * The capture: while recording, the pixels read back go to slot `frame_index` of the
     * buffer, which the finish check before it has kept below `frames_to_record`.
     */
    method Capture(pixels: seq<int>)
      requires Valid() && |pixels| == FrameSize()
      requires recording ==> frameIndex < framesToRecord
      modifies data, this`frameIndex, this`captured
      ensures Valid()
      ensures old(recording) ==> frameIndex == old(frameIndex) + 1 && captured == old(captured) + [pixels]
      ensures !old(recording) ==> frameIndex == old(frameIndex) && captured == old(captured)
    {
      if recording {
        var size, slot := FrameSize(), frameIndex;
        SlotEnd(size, slot, framesToRecord);
        forall j | size * slot <= j < size * slot + size {
          data[j] := pixels[j - size * slot];
        }
        WriteSlot(old(data[..]), data[..], size, slot, framesToRecord, pixels);
        frameIndex := frameIndex + 1;
        captured := captured + [pixels];
      }
    }

    /** The recorder's part of a frame: the finish check, then the capture. */
    method Tick(pixels: seq<int>) returns (written: seq<seq<int>>)
      requires Valid() && |pixels| == FrameSize()
      modifies this, data
      ensures Valid()
      ensures old(recording) && old(frameIndex) >= old(framesToRecord) ==> !recording && written == old(captured)
      ensures old(recording) && old(frameIndex) < old(framesToRecord) ==>
        recording && frameIndex == old(frameIndex) + 1 && captured == old(captured) + [pixels] && written == []
      ensures !old(recording) ==> !recording && written == []
    {
      written := Finish();
      Capture(pixels);
    }
  }

  /** The globals of main.cpp that change from frame to frame. */
  class Main {
    var currentExample: int
    const report: StarvationReport

    constructor ()
      ensures currentExample == 0 && report.count == 0 && report.timer == 0.0
    {
      currentExample := 0;
      report := new StarvationReport();
    }

    /**
     * The bookkeeping of `do_frame`: the count is cleared, the example index clamped, the
     * example's shortfalls reported, the warning drawn if the timer is running, and the
     * timer lowered by `dt`.
     */
    method DoFrame(shortfalls: seq<int>, dt: real) returns (warningShown: bool)
      requires report.timer >= 0.0
      modifies this, report
      ensures currentExample == ClampExample(old(currentExample), NumExamples)
      ensures report.count == Reported(0, shortfalls)
      ensures warningShown <==> Notified(0, old(report.timer), shortfalls) > 0.0
      ensures report.timer == Decay(Notified(0, old(report.timer), shortfalls), dt)
    {
      report.FrameStart();
      if currentExample < 0 {
        currentExample := 0;
      }
      if currentExample >= NumExamples {
        currentExample := NumExamples - 1;
      }
      var i := 0;
      while i < |shortfalls|
        invariant 0 <= i <= |shortfalls|
        invariant currentExample == ClampExample(old(currentExample), NumExamples)
        invariant report.count == Reported(0, shortfalls[..i])
        invariant report.timer == Notified(0, old(report.timer), shortfalls[..i])
      {
        report.Notify(shortfalls[i]);
        assert shortfalls[..i + 1][..i] == shortfalls[..i];
        i := i + 1;
      }
      assert shortfalls[..|shortfalls|] == shortfalls;
      warningShown := report.timer > 0.0;
      report.FrameEnd(dt);
    }
  }
}
