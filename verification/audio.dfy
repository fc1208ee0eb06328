/** The audio processor: it produces waveform and spectrum frames, live from
    the microphone's analyser when one is connected and otherwise from a
    generated mock breathing signal, and keeps asking for the next frame
    while the page is active. The Web Audio objects are represented only by
    whether their refs are set; `Math.sin` and `Math.random` are inputs. */
module Audio {
  import opened Wrappers
  import Waveform
  import Spectrum

  /** The length of both mock buffers. */
  const BufferLength: nat := 1024

  // ---------------------------------------------------------------------
  // The mock signal

  /** The values `Math.sin` and `Math.random` return during one generation:
      `sin4[i]` and `sin8[i]` are sin(4πt) and sin(8πt) at t = i / 1024, and
      `random` holds the 1024 draws of the waveform loop followed by the
      1024 draws of the spectrum loop, in call order. */
  datatype MockInputs = MockInputs(sin4: seq<real>, sin8: seq<real>, random: seq<real>)

  /** The ranges of the two library functions. */
  predicate ValidInputs(m: MockInputs) {
    && |m.sin4| == BufferLength && |m.sin8| == BufferLength && |m.random| == 2 * BufferLength
    && (forall i :: 0 <= i < BufferLength ==> -1.0 <= m.sin4[i] <= 1.0 && -1.0 <= m.sin8[i] <= 1.0)
    && (forall i :: 0 <= i < 2 * BufferLength ==> 0.0 <= m.random[i] < 1.0)
  }

  /** One waveform sample: two sines and a little noise. */
  function MockSample(sin4: real, sin8: real, r: real): real {
    sin4 * 0.3 + sin8 * 0.1 + (r - 0.5) * 0.1
  }

  /** With the library ranges the sample stays within ±0.45. */
  lemma MockSampleBounded(sin4: real, sin8: real, r: real)
    requires -1.0 <= sin4 <= 1.0 && -1.0 <= sin8 <= 1.0 && 0.0 <= r < 1.0
    ensures -0.45 <= MockSample(sin4, sin8, r) < 0.45
  {
  }

  /** The frequency of bin `i`: `(i / 1024) * 22050`. */
  function BinFrequency(i: nat): real {
    (i as real / BufferLength as real) * 22050.0
  }

  /** One spectrum value in decibels: a noise floor that the band's random
      level always replaces. */
  function MockMagnitude(i: nat, r: real): real {
    var freq := BinFrequency(i);
    if freq < 500.0 then -60.0 + r * 20.0
    else if freq < 2000.0 then -80.0 + r * 15.0
    else -100.0 + r * 10.0
  }

  /** The bands by bin index: bins 0-23 lie below 500 Hz and get levels in
      [-60, -40), bins 24-92 lie below 2000 Hz and get levels in [-80, -65),
      and the rest get levels in [-100, -90); so no level is below -100. */
  lemma MockMagnitudeBands(i: nat, r: real)
    requires 0.0 <= r < 1.0
    ensures BinFrequency(i) < 500.0 <==> i <= 23
    ensures BinFrequency(i) < 2000.0 <==> i <= 92
    ensures i <= 23 ==> -60.0 <= MockMagnitude(i, r) < -40.0
    ensures 24 <= i <= 92 ==> -80.0 <= MockMagnitude(i, r) < -65.0
    ensures 93 <= i ==> -100.0 <= MockMagnitude(i, r) < -90.0
    ensures -100.0 <= MockMagnitude(i, r) < -40.0
  {
    assert BinFrequency(i) == i as real * 22050.0 / 1024.0;
    assert i <= 23 ==> i as real * 22050.0 <= 23.0 * 22050.0;
    assert i >= 24 ==> i as real * 22050.0 >= 24.0 * 22050.0;
    assert i <= 92 ==> i as real * 22050.0 <= 92.0 * 22050.0;
    assert i >= 93 ==> i as real * 22050.0 >= 93.0 * 22050.0;
  }

  /** The waveform buffer a generation fills. */
  function MockAudio(m: MockInputs): seq<real>
    requires ValidInputs(m)
  {
    seq(BufferLength, i requires 0 <= i < BufferLength => MockSample(m.sin4[i], m.sin8[i], m.random[i]))
  }

  /** The spectrum buffer a generation fills, from the second half of the
      random draws. */
  function MockFft(m: MockInputs): seq<real>
    requires ValidInputs(m)
  {
    seq(BufferLength, i requires 0 <= i < BufferLength => MockMagnitude(i, m.random[BufferLength + i]))
  }

  /** The two loops of `generateMockAudioData`, filling fresh buffers in
      place. */
  method GenerateMock(m: MockInputs) returns (audioData: array<real>, fftData: array<real>)
    requires ValidInputs(m)
    ensures fresh(audioData) && fresh(fftData)
    ensures audioData[..] == MockAudio(m) && fftData[..] == MockFft(m)
  {
    audioData := new real[BufferLength];
    fftData := new real[BufferLength];
    var i := 0;
    while i < BufferLength
      invariant 0 <= i <= BufferLength
      invariant forall k :: 0 <= k < i ==> audioData[k] == MockSample(m.sin4[k], m.sin8[k], m.random[k])
    {
      audioData[i] := m.sin4[i] * 0.3 + m.sin8[i] * 0.1 + (m.random[i] - 0.5) * 0.1;
      i := i + 1;
    }
    i := 0;
    while i < BufferLength
      invariant 0 <= i <= BufferLength
      invariant forall k :: 0 <= k < BufferLength ==> audioData[k] == MockSample(m.sin4[k], m.sin8[k], m.random[k])
      invariant forall k :: 0 <= k < i ==> fftData[k] == MockMagnitude(k, m.random[BufferLength + k])
    {
      var freq := (i as real / BufferLength as real) * 22050.0;
      var magnitude := -140.0;
      if freq < 500.0 {
        magnitude := -60.0 + m.random[BufferLength + i] * 20.0;
      } else if freq < 2000.0 {
        magnitude := -80.0 + m.random[BufferLength + i] * 15.0;
      } else {
        magnitude := -100.0 + m.random[BufferLength + i] * 10.0;
      }
      fftData[i] := magnitude;
      i := i + 1;
    }
  }

  /** Every mock sample lies within ±0.45 and every mock level within
      [-100, -40). */
  lemma MockBuffersBounded(m: MockInputs)
    requires ValidInputs(m)
    ensures |MockAudio(m)| == |MockFft(m)| == BufferLength
    ensures forall i :: 0 <= i < BufferLength ==> -0.45 <= MockAudio(m)[i] < 0.45
    ensures forall i :: 0 <= i < BufferLength ==> -100.0 <= MockFft(m)[i] < -40.0
  {
    forall i | 0 <= i < BufferLength
      ensures -0.45 <= MockAudio(m)[i] < 0.45 && -100.0 <= MockFft(m)[i] < -40.0
    {
      MockSampleBounded(m.sin4[i], m.sin8[i], m.random[i]);
      MockMagnitudeBands(i, m.random[BufferLength + i]);
    }
  }

  /** The mock signal fits the displays: its trace stays inside the middle
      quarter of the waveform canvas, and its spectrum bars are between 80
      and 200 pixels tall, so none is clamped to the one-pixel minimum. */
  lemma MockSignalFitsDisplays(m: MockInputs, height: real)
    requires ValidInputs(m) && height > 0.0
    ensures forall i :: 0 <= i < BufferLength ==>
              height * 0.3875 <= Waveform.SampleY(MockAudio(m)[i], height) < height * 0.6125
    ensures forall i :: 0 <= i < BufferLength ==>
              80.0 <= Spectrum.BarHeight(MockFft(m)[i]) < 200.0
  {
    MockBuffersBounded(m);
    forall i | 0 <= i < BufferLength
      ensures height * 0.3875 <= Waveform.SampleY(MockAudio(m)[i], height) < height * 0.6125
    {
      SampleNearMidline(MockAudio(m)[i], height);
    }
  }

  /** A sample within ±0.45 is plotted within 0.1125 canvas heights of the
      midline. */
  lemma SampleNearMidline(s: real, height: real)
    requires height > 0.0 && -0.45 <= s < 0.45
    ensures height * 0.3875 <= Waveform.SampleY(s, height) < height * 0.6125
  {
    var below := s + 0.45;
    assert below * height >= 0.0;
    assert below * height == s * height + 0.45 * height;
    var above := 0.45 - s;
    assert above * height > 0.0;
    assert above * height == 0.45 * height - s * height;
    var t := s * height;
    assert -0.45 * height <= t < 0.45 * height;
    assert s * 0.5 * height == 0.5 * t;
  }

  /** The display colours bins by index fractions of the buffer, not by
      frequency: of the 1024 mock bins, the display's low band (cyan) runs
      to bin 127, about 2.7 kHz, so the mock's whole mid band and its high
      band from bin 93 up to bin 127 are drawn in the low-frequency colour. */
  lemma DisplayBandsAreNotMockBands()
    ensures forall i: nat :: i < 128 ==> Spectrum.BandOf(i, BufferLength) == Spectrum.Low
    ensures BinFrequency(127) > 2700.0
  {
  }

  // ---------------------------------------------------------------------
  // The processor

  /** A buffer handed to the page: `onAudioData` or `onFFTData`. */
  datatype Emission = AudioData(samples: seq<real>) | FftData(levels: seq<real>)

  /** What reading the analyser does this frame: both reads succeed, the
      time-domain read throws, or it succeeds and the frequency read throws.
      The page allocates both buffers with the analyser's
      `frequencyBinCount`; the lengths are left free here because no
      property of the dispatch depends on them. */
  datatype LiveRead = Read(time: seq<real>, freq: seq<real>) | TimeReadFails | FreqReadFails(time: seq<real>)

  /** The buffers one call of `processAudio` hands over, in order: the live
      pair when both the analyser and the source exist and the reads
      succeed, otherwise a mock pair, after whatever the live path had
      already handed over before it threw. */
  function FrameOutput(hasAnalyser: bool, hasSource: bool, read: LiveRead, m: MockInputs): (out: seq<Emission>)
    requires ValidInputs(m)
  {
    var mock := [AudioData(MockAudio(m)), FftData(MockFft(m))];
    if hasAnalyser && hasSource then
      match read
      case Read(time, freq) => [AudioData(time), FftData(freq)]
      case TimeReadFails => mock
      case FreqReadFails(time) => [AudioData(time)] + mock
    else mock
  }

  /** Live data is used only with both the analyser and the source; every
      frame ends with a spectrum buffer just after a waveform buffer; a
      missing node or a throwing read ends the frame with the mock pair, and
      only a throwing frequency read hands over three buffers. */
  lemma FrameDispatch(hasAnalyser: bool, hasSource: bool, read: LiveRead, m: MockInputs)
    requires ValidInputs(m)
    ensures var out := FrameOutput(hasAnalyser, hasSource, read, m);
            && 2 <= |out| <= 3
            && out[|out| - 2].AudioData? && out[|out| - 1].FftData?
            && (hasAnalyser && hasSource && read.Read? ==> out == [AudioData(read.time), FftData(read.freq)])
            && (hasAnalyser && hasSource && !read.Read? ==> out[|out| - 2..] == [AudioData(MockAudio(m)), FftData(MockFft(m))])
            && (!(hasAnalyser && hasSource) ==> out == [AudioData(MockAudio(m)), FftData(MockFft(m))])
            && (|out| == 3 <==> hasAnalyser && hasSource && read.FreqReadFails?)
  {
  }

  /** The side effects of `stopAnalysis`, in order. */
  datatype Teardown = CancelFrame(id: nat) | StopOscillator | StopTracks | CloseContext

  /** The teardown `stopAnalysis` performs: each step only for a ref that
      is set (a frame id of 0 counts as unset); a throwing oscillator stop
      is swallowed, so it does not prevent the later steps. */
  function TeardownSteps(frame: Option<nat>, hasOscillator: bool, hasStream: bool, hasContext: bool): seq<Teardown> {
    (if frame.Some? && frame.value != 0 then [CancelFrame(frame.value)] else [])
    + (if hasOscillator then [StopOscillator] else [])
    + (if hasStream then [StopTracks] else [])
    + (if hasContext then [CloseContext] else [])
  }

  /** Each resource is torn down exactly when its ref is set, and the
      teardown does not depend on whether the oscillator had already
      stopped. */
  lemma TeardownOnlyWhatExists(frame: Option<nat>, hasOscillator: bool, hasStream: bool, hasContext: bool)
    ensures var t := TeardownSteps(frame, hasOscillator, hasStream, hasContext);
            && (StopOscillator in t <==> hasOscillator)
            && (StopTracks in t <==> hasStream)
            && (CloseContext in t <==> hasContext)
            && (forall id: nat :: CancelFrame(id) in t <==> frame == Some(id) && id != 0)
  {
    var t := TeardownSteps(frame, hasOscillator, hasStream, hasContext);
    var a := if frame.Some? && frame.value != 0 then [CancelFrame(frame.value)] else [];
    var b := if hasOscillator then [StopOscillator] else [];
    var c := if hasStream then [StopTracks] else [];
    var d := if hasContext then [CloseContext] else [];
    assert t == a + b + c + d;
    assert forall x :: x in t <==> x in a || x in b || x in c || x in d;
  }

  /** The processor's refs, the `isActive` prop and what it has handed over
      or torn down. */
  class AudioProcessor {
    var hasContext: bool
    var hasStream: bool
    var hasAnalyser: bool
    var hasSource: bool
    var hasOscillator: bool
    /** `animationFrameRef`. */
    var animationFrame: Option<nat>
    var isActive: bool
    /** Every buffer passed to `onAudioData` and `onFFTData`, in order. */
    var emitted: seq<Emission>
    /** Every teardown step taken, in order. */
    var teardowns: seq<Teardown>

    constructor (isActive: bool)
      ensures !hasContext && !hasStream && !hasAnalyser && !hasSource && !hasOscillator
      ensures animationFrame == None && this.isActive == isActive && emitted == [] && teardowns == []
    {
      hasContext, hasStream, hasAnalyser, hasSource, hasOscillator := false, false, false, false, false;
      animationFrame := None;
      this.isActive := isActive;
      emitted, teardowns := [], [];
    }

    /** `initializeAudio`: the context is always created; the stream, the
        analyser and the source only when the microphone is granted. A
        refusal is caught and leaves the other refs as they were. */
    method InitializeAudio(microphoneGranted: bool)
      modifies this
      ensures hasContext
      ensures microphoneGranted ==> hasStream && hasAnalyser && hasSource
      ensures !microphoneGranted ==>
                hasStream == old(hasStream) && hasAnalyser == old(hasAnalyser) && hasSource == old(hasSource)
      ensures hasOscillator == old(hasOscillator) && animationFrame == old(animationFrame) && isActive == old(isActive)
      ensures emitted == old(emitted) && teardowns == old(teardowns)
    {
      hasContext := true;
      if microphoneGranted {
        hasStream := true;
        hasAnalyser := true;
        hasSource := true;
      }
    }

    /** `emitSoundPulse`: nothing without a context, otherwise a new
        oscillator. */
    method EmitSoundPulse()
      modifies this
      ensures hasOscillator == (old(hasOscillator) || hasContext)
      ensures hasContext == old(hasContext) && hasStream == old(hasStream)
      ensures hasAnalyser == old(hasAnalyser) && hasSource == old(hasSource)
      ensures animationFrame == old(animationFrame) && isActive == old(isActive)
      ensures emitted == old(emitted) && teardowns == old(teardowns)
    {
      if !hasContext {
        return;
      }
      hasOscillator := true;
    }

    /** `processAudio`: hand over one frame, then ask for the next one
        (`frameId` is what `requestAnimationFrame` returns) only while
        active. */
    method ProcessAudio(read: LiveRead, m: MockInputs, frameId: nat)
      requires ValidInputs(m)
      modifies this
      ensures emitted == old(emitted) + FrameOutput(hasAnalyser, hasSource, read, m)
      ensures animationFrame == if isActive then Some(frameId) else old(animationFrame)
      ensures hasContext == old(hasContext) && hasStream == old(hasStream) && hasOscillator == old(hasOscillator)
      ensures hasAnalyser == old(hasAnalyser) && hasSource == old(hasSource)
      ensures isActive == old(isActive) && teardowns == old(teardowns)
    {
      if hasAnalyser && hasSource {
        match read
        case Read(time, freq) =>
          emitted := emitted + [AudioData(time)];
          emitted := emitted + [FftData(freq)];
        case TimeReadFails =>
          var audioData, fftData := GenerateMock(m);
          emitted := emitted + [AudioData(audioData[..])];
          emitted := emitted + [FftData(fftData[..])];
        case FreqReadFails(time) =>
          emitted := emitted + [AudioData(time)];
          var audioData, fftData := GenerateMock(m);
          emitted := emitted + [AudioData(audioData[..])];
          emitted := emitted + [FftData(fftData[..])];
      } else {
        var audioData, fftData := GenerateMock(m);
        emitted := emitted + [AudioData(audioData[..])];
        emitted := emitted + [FftData(fftData[..])];
      }
      if isActive {
        animationFrame := Some(frameId);
      }
    }

    /** `startAnalysis`: initialise, emit the pulse, process one frame. The
        context always exists by the time of the pulse, so the pulse always
        fires; the frame is live exactly when the microphone was granted now
        or the analyser and the source survive from an earlier start. */
    method StartAnalysis(microphoneGranted: bool, read: LiveRead, m: MockInputs, frameId: nat)
      requires ValidInputs(m)
      modifies this
      ensures hasContext && hasOscillator
      ensures hasAnalyser && hasSource <==> microphoneGranted || (old(hasAnalyser) && old(hasSource))
      ensures hasStream == (microphoneGranted || old(hasStream))
      ensures hasAnalyser == (microphoneGranted || old(hasAnalyser))
      ensures hasSource == (microphoneGranted || old(hasSource))
      ensures emitted == old(emitted) + FrameOutput(hasAnalyser, hasSource, read, m)
      ensures animationFrame == if isActive then Some(frameId) else old(animationFrame)
      ensures isActive == old(isActive) && teardowns == old(teardowns)
    {
      InitializeAudio(microphoneGranted);
      EmitSoundPulse();
      ProcessAudio(read, m, frameId);
    }

    /** `stopAnalysis`: tear down what exists. The refs are not cleared. */
    method StopAnalysis()
      modifies this
      ensures teardowns == old(teardowns) + TeardownSteps(animationFrame, hasOscillator, hasStream, hasContext)
      ensures hasContext == old(hasContext) && hasStream == old(hasStream) && hasOscillator == old(hasOscillator)
      ensures hasAnalyser == old(hasAnalyser) && hasSource == old(hasSource)
      ensures animationFrame == old(animationFrame) && isActive == old(isActive) && emitted == old(emitted)
    {
      if animationFrame.Some? && animationFrame.value != 0 {
        teardowns := teardowns + [CancelFrame(animationFrame.value)];
      }
      if hasOscillator {
        // a throwing `stop` is caught and ignored
        teardowns := teardowns + [StopOscillator];
      }
      if hasStream {
        teardowns := teardowns + [StopTracks];
      }
      if hasContext {
        teardowns := teardowns + [CloseContext];
      }
    }

    /** The mount effect, run again whenever `isActive` changes: process a
        frame only when active. */
    method ActivationEffect(read: LiveRead, m: MockInputs, frameId: nat)
      requires ValidInputs(m)
      modifies this
      ensures isActive ==> emitted == old(emitted) + FrameOutput(hasAnalyser, hasSource, read, m)
                           && animationFrame == Some(frameId)
      ensures !isActive ==> emitted == old(emitted) && animationFrame == old(animationFrame)
      ensures hasAnalyser == old(hasAnalyser) && hasSource == old(hasSource) && teardowns == old(teardowns)
      ensures isActive == old(isActive) && hasContext == old(hasContext)
      ensures hasStream == old(hasStream) && hasOscillator == old(hasOscillator)
    {
      if isActive {
        ProcessAudio(read, m, frameId);
      }
    }
  }

  /** Because the refs are never cleared, stopping twice repeats the whole
      teardown: the second stop closes the already closed context again. */
  method StopTwice(p: AudioProcessor)
    modifies p
    ensures var t := TeardownSteps(old(p.animationFrame), old(p.hasOscillator), old(p.hasStream), old(p.hasContext));
            p.teardowns == old(p.teardowns) + t + t
  {
    p.StopAnalysis();
    p.StopAnalysis();
  }

  /** Without a microphone, a fresh processor that is started hands over
      exactly one mock frame. */
  method StartWithoutMicrophone(read: LiveRead, m: MockInputs, frameId: nat) returns (p: AudioProcessor)
    requires ValidInputs(m)
    ensures p.emitted == [AudioData(MockAudio(m)), FftData(MockFft(m))]
    ensures p.hasOscillator && p.animationFrame == Some(frameId)
  {
    p := new AudioProcessor(true);
    p.StartAnalysis(false, read, m, frameId);
  }
}
