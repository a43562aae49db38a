/** The renderer state of Renderer/Renderer.h that the rest of the program
    touches: the settings record, the accumulation frame index and the time. */
module RendererState {
  import opened Basics

  /** `Renderer::Settings`. The header names the third flag `PCHRandom`, the
      settings serializer `FastRandom`; they are the same field here. */
  datatype Settings = Settings(
    Accumulate: bool,
    Multithreading: bool,
    FastRandom: bool,
    UseClockTime: bool,
    UseFrameIndex: bool,
    UseRayBounces: bool,
    RayBounces: Int32,
    ResolutionScale: Int32)

  const DefaultSettings: Settings := Settings(true, true, true, true, true, true, 5, 100)

  /** Every flag is on by default, with five bounces at full resolution. */
  lemma DefaultSettingsValues()
    ensures var d := DefaultSettings;
      d.Accumulate && d.Multithreading && d.FastRandom && d.UseClockTime && d.UseFrameIndex && d.UseRayBounces
      && d.RayBounces == 5 && d.ResolutionScale == 100
  {
  }

  class Renderer {
    var settings: Settings
    /** The number of the frame being accumulated, a `uint32_t`. */
    var frameIndex: UInt32
    /** `m_Time`, the time value handed in by the layer. */
    var time: real

    constructor()
      ensures settings == DefaultSettings && frameIndex == 1 && time == 0.0
    {
      settings := DefaultSettings;
      frameIndex := 1;
      time := 0.0;
    }

    /** Restarts accumulation. */
    method ResetFrameIndex()
      modifies this`frameIndex
      ensures frameIndex == 1
    {
      frameIndex := 1;
    }

    /** The frame index returned as an `int`: indices from 2^31 on read as
        negative numbers. */
    method GetFrameIndex() returns (index: Int32)
      ensures frameIndex as int < TwoTo31 ==> index as int == frameIndex as int
      ensures frameIndex as int >= TwoTo31 ==> index as int == frameIndex as int - TwoTo32 && index < 0
    {
      index := ToInt32(frameIndex as int);
    }

    method SetTime(t: real)
      modifies this`time
      ensures time == t
    {
      time := t;
    }

    /** Named like a getter, but it stores its argument, as `SetTime` does. */
    method GetTime(t: real)
      modifies this`time
      ensures time == t
    {
      time := t;
    }
  }

  /** Reading the frame index after a reset gives 1. */
  method ResetThenRead(renderer: Renderer) returns (index: Int32)
    modifies renderer
    ensures index == 1
    ensures renderer.settings == old(renderer.settings) && renderer.time == old(renderer.time)
  {
    renderer.ResetFrameIndex();
    index := renderer.GetFrameIndex();
  }
}
