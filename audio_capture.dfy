/**
 * Microphone capture: the `start`/`stop` flag machine over the audio engine
 * and its input tap, the input-format check, the tap's conversion of each
 * buffer into 16 kHz mono 16-bit little-endian PCM, and the capture errors.
 *
 * The platform (audio session, engine, converter) is not modelled. What it
 * does is given to `Start` as a `Platform` value: which of its calls throw
 * and with what description, the input node's format, and whether the
 * target format and the converter can be created. The engine's own state is
 * kept in two fields, the number of taps on input bus 0 and whether the
 * engine runs, so that "no tap is installed twice" is a checked statement.
 */
module AudioCapture {
  import opened Wrappers
  import opened Text
  import opened Pcm

  /** The sample rate of the target format, in Hz. */
  const TargetSampleRate: nat := 16000

  /** An input node's output format; the sample rate is a whole number of Hz. */
  datatype InputFormat = InputFormat(sampleRate: int, channelCount: nat)

  /** `isValid(format:)`: a positive sample rate and at least one channel. */
  predicate IsValid(format: InputFormat) {
    format.sampleRate > 0 && format.channelCount > 0
  }

  /** `AudioError`. */
  datatype AudioError =
    | FormatError
    | ConverterError
    | InvalidInputFormat(sampleRate: int, channels: nat)

  /**
   * `AudioError.errorDescription`. Swift renders a whole-valued `Double` with
   * a trailing ".0".
   */
  function AudioErrorDescription(e: AudioError): string {
    match e
    case FormatError => "Failed to create audio format"
    case ConverterError => "Failed to create audio converter"
    case InvalidInputFormat(sampleRate, channels) =>
      "Invalid input audio format (sampleRate: " + IntToString(sampleRate) + ".0, channels: "
      + NatToString(channels) + ")"
  }

  /** What `start()` can throw: a capture error, or an error of the audio session or engine. */
  datatype StartError =
    | Audio(error: AudioError)
    | PlatformError(description: string)

  function StartErrorDescription(e: StartError): string {
    match e
    case Audio(a) => AudioErrorDescription(a)
    case PlatformError(d) => d
  }

  /** How the platform answers the calls `start()` makes, in the order it makes them. */
  datatype Platform = Platform(
    setCategoryError: Option<string>,
    setSampleRateError: Option<string>,
    setActiveError: Option<string>,
    inputFormat: InputFormat,
    targetFormatAvailable: bool,
    converterAvailable: bool,
    engineStartError: Option<string>)

  /** The audio session was configured and activated. */
  predicate SessionActivated(p: Platform) {
    p.setCategoryError.None? && p.setSampleRateError.None? && p.setActiveError.None?
  }

  /** `start()` gets as far as installing the tap. */
  predicate ReachesTap(p: Platform) {
    SessionActivated(p) && IsValid(p.inputFormat) && p.targetFormatAvailable && p.converterAvailable
  }

  /**
   * The error a `start()` from the stopped state throws, if any: the first
   * failing step wins.
   */
  function StartOutcome(p: Platform): Option<StartError> {
    if p.setCategoryError.Some? then Some(PlatformError(p.setCategoryError.value))
    else if p.setSampleRateError.Some? then Some(PlatformError(p.setSampleRateError.value))
    else if p.setActiveError.Some? then Some(PlatformError(p.setActiveError.value))
    else if !IsValid(p.inputFormat) then
      Some(Audio(InvalidInputFormat(p.inputFormat.sampleRate, p.inputFormat.channelCount)))
    else if !p.targetFormatAvailable then Some(Audio(FormatError))
    else if !p.converterAvailable then Some(Audio(ConverterError))
    else if p.engineStartError.Some? then Some(PlatformError(p.engineStartError.value))
    else None
  }

  /**
   * `start()` succeeds exactly when every step succeeds. Once the tap is
   * reached only the engine can fail; before the session is active only the
   * session can; and an input format that is not valid is reported as such
   * once the session is active, whatever the later steps would do.
   */
  lemma StartOutcomeCases(p: Platform)
    ensures StartOutcome(p).None? <==> ReachesTap(p) && p.engineStartError.None?
    ensures ReachesTap(p) && p.engineStartError.Some? ==>
      StartOutcome(p) == Some(PlatformError(p.engineStartError.value))
    ensures !SessionActivated(p) ==> StartOutcome(p).Some? && StartOutcome(p).value.PlatformError?
    ensures SessionActivated(p) && !IsValid(p.inputFormat) ==>
      StartOutcome(p) == Some(Audio(InvalidInputFormat(p.inputFormat.sampleRate, p.inputFormat.channelCount)))
  {
  }

  // ---------------------------------------------------------------------
  // The tap: one input buffer to at most one frame of PCM bytes

  /**
   * The frame capacity requested for the converted buffer: the input frame
   * count rescaled to 16 kHz, truncated towards zero.
   */
  function ResampledFrameCount(frameLength: nat, inputSampleRate: int): nat
    requires inputSampleRate > 0
  {
    frameLength * TargetSampleRate / inputSampleRate
  }

  /** The capacity is zero exactly when the buffer holds less than one target frame's worth of input. */
  lemma ResampledFrameCountZero(frameLength: nat, inputSampleRate: int)
    requires inputSampleRate > 0
    ensures ResampledFrameCount(frameLength, inputSampleRate) == 0 <==> frameLength * TargetSampleRate < inputSampleRate
  {
  }

  /** How the converter answers one call. */
  datatype Conversion =
    | ConversionFailed                                       // status `.error`, or an `NSError` was set
    | Converted(samples: seq<Int16>, hasChannelData: bool)   // the output buffer's frames

  /** What the tap sees for one input buffer. */
  datatype TapBuffer = TapBuffer(frameLength: nat, outputAllocated: bool, conversion: Conversion)

  /**
   * The tap closure: the bytes handed to the delegate for one input buffer,
   * or nothing when the rescaled frame count is zero, the output buffer
   * cannot be allocated, the conversion fails, or the output has no channel
   * data. What is emitted is two bytes per converted frame.
   */
  function TapOutput(b: TapBuffer, inputSampleRate: int): (r: Option<seq<Byte>>)
    requires inputSampleRate > 0
    ensures r.Some? <==>
      && ResampledFrameCount(b.frameLength, inputSampleRate) > 0
      && b.outputAllocated
      && b.conversion.Converted?
      && b.conversion.hasChannelData
    ensures r.Some? ==>
      |r.value| == 2 * |b.conversion.samples| && DecodeS16LE(r.value) == b.conversion.samples
  {
    if ResampledFrameCount(b.frameLength, inputSampleRate) == 0 then None
    else if !b.outputAllocated then None
    else match b.conversion
      case ConversionFailed => None
      case Converted(samples, hasChannelData) =>
        if !hasChannelData then None
        else
          DecodeEncode(samples);
          Some(EncodeS16LE(samples))
  }

  // ---------------------------------------------------------------------
  // The service

  class AudioCaptureService {
    var isCapturing: bool
    var hasInstalledTap: bool
    /** Taps installed on the input node's bus 0. */
    var tapsOnBus: nat
    var engineRunning: bool

    /** The flags agree with the engine: one tap exactly when one is recorded, a running engine exactly while capturing. */
    ghost predicate Valid()
      reads this
    {
      && tapsOnBus == (if hasInstalledTap then 1 else 0)
      && engineRunning == isCapturing
      && (isCapturing ==> hasInstalledTap)
    }

    constructor ()
      ensures Valid()
      ensures !isCapturing && !hasInstalledTap
    {
      isCapturing, hasInstalledTap, tapsOnBus, engineRunning := false, false, 0, false;
    }

    /**
     * `start()`. While capturing it does nothing. Otherwise it configures
     * and activates the audio session, checks the input format, creates the
     * target format and the converter, replaces any tap left by an earlier
     * attempt, installs its own and starts the engine. A failure before the
     * tap leaves both flags as they were; a failure of the engine leaves the
     * new tap installed and capture off.
     */
    method Start(p: Platform) returns (err: Option<StartError>)
      requires Valid()
      modifies this
      ensures Valid()
      ensures old(isCapturing) ==>
        err.None? && isCapturing && hasInstalledTap == old(hasInstalledTap)
      ensures !old(isCapturing) ==>
        && err == StartOutcome(p)
        && isCapturing == err.None?
        && hasInstalledTap == (ReachesTap(p) || old(hasInstalledTap))
    {
      if isCapturing {
        return None;
      }
      if p.setCategoryError.Some? {
        return Some(PlatformError(p.setCategoryError.value));
      }
      if p.setSampleRateError.Some? {
        return Some(PlatformError(p.setSampleRateError.value));
      }
      // setPreferredInputNumberOfChannels(1) is tried and its failure ignored.
      if p.setActiveError.Some? {
        return Some(PlatformError(p.setActiveError.value));
      }
      var inputFormat := p.inputFormat;
      if !IsValid(inputFormat) {
        return Some(Audio(InvalidInputFormat(inputFormat.sampleRate, inputFormat.channelCount)));
      }
      if !p.targetFormatAvailable {
        return Some(Audio(FormatError));
      }
      if !p.converterAvailable {
        return Some(Audio(ConverterError));
      }
      if hasInstalledTap {
        tapsOnBus := tapsOnBus - 1;
        hasInstalledTap := false;
      }
      // Installing a second tap on a bus is a runtime error of the engine.
      assert tapsOnBus == 0;
      tapsOnBus := tapsOnBus + 1;
      hasInstalledTap := true;
      if p.engineStartError.Some? {
        return Some(PlatformError(p.engineStartError.value));
      }
      engineRunning := true;
      isCapturing := true;
      err := None;
    }

    /** `stop()`: removes the tap and stops the engine, from any state. */
    method Stop()
      requires Valid()
      modifies this
      ensures Valid()
      ensures !isCapturing && !hasInstalledTap && tapsOnBus == 0 && !engineRunning
    {
      if hasInstalledTap {
        tapsOnBus := tapsOnBus - 1;
        hasInstalledTap := false;
      }
      if isCapturing {
        engineRunning := false;
        isCapturing := false;
      }
      // The audio session is then deactivated, ignoring any failure.
    }
  }
}
