/**
 * The transcription engine front (src/superwhisper/transcribe.py): engine
 * selection with automatic device and compute type, the fall-back from CUDA
 * to the CPU, loading once, and turning the engine's segments into text.
 *
 * The speech model itself is an oracle (`Backend`): what the CUDA runtime
 * reports, whether constructing a model raises, and the segments a model
 * produces for a buffer.
 */
module Transcribe {
  import opened Wrappers
  import opened Strings

  /** A constructed model: its size name, device and compute type. */
  datatype LoadedModel = LoadedModel(size: string, device: string, computeType: string)

  /**
   * The oracle standing for the engine library.
   * `cudaTypes`: the compute types reported for "cuda", `None` when the query raises.
   * `construct(size, device, computeType)`: whether building a model raises.
   * `run(model, audio, language)`: the segment texts, `None` when transcription raises.
   */
  datatype Backend<!S> = Backend(
    cudaTypes: Option<seq<string>>,
    construct: (string, string, string) -> Outcome,
    run: (LoadedModel, seq<S>, string) -> Option<seq<string>>)

  /** `check_cuda_available` */
  function CheckCudaAvailable(cudaTypes: Option<seq<string>>): (r: bool)
    ensures r <==> cudaTypes.Some? && |cudaTypes.value| > 0
  {
    match cudaTypes
    case None => false
    case Some(types) => |types| > 0
  }

  /** The device `load_model` asks for. */
  function ResolveDevice(requested: string, cudaAvailable: bool): (device: string)
    ensures requested == "auto" ==> (device == "cuda" <==> cudaAvailable) && (device == "cpu" <==> !cudaAvailable)
    ensures requested != "auto" ==> device == requested
  {
    if requested == "auto" then (if cudaAvailable then "cuda" else "cpu") else requested
  }

  /** The compute type `load_model` asks for. */
  function ResolveComputeType(requested: string, device: string): (computeType: string)
    ensures requested == "auto" ==> (computeType == "float16" <==> device == "cuda") && (computeType == "int8" <==> device != "cuda")
    ensures requested != "auto" ==> computeType == requested
  {
    if requested == "auto" then (if device == "cuda" then "float16" else "int8") else requested
  }

  /**
   * What `load_model` leaves loaded, or the error it raises: nothing happens
   * when a model is loaded already; a failed CUDA construction is retried
   * once on the CPU with int8; any other failure is raised.
   */
  function LoadResult<S>(loaded: Option<LoadedModel>, size: string, requestedDevice: string,
                         requestedComputeType: string, backend: Backend<S>): Result<LoadedModel>
  {
    if loaded.Some? then Ok(loaded.value)
    else
      var device := ResolveDevice(requestedDevice, CheckCudaAvailable(backend.cudaTypes));
      var computeType := ResolveComputeType(requestedComputeType, device);
      match backend.construct(size, device, computeType)
      case Pass => Ok(LoadedModel(size, device, computeType))
      case Fail(e) =>
        if device == "cuda" then
          match backend.construct(size, "cpu", "int8")
          case Pass => Ok(LoadedModel(size, "cpu", "int8"))
          case Fail(e2) => Err(e2)
        else Err(e)
  }

  /** The stripped segment texts joined by single spaces. */
  function JoinSegments(segments: seq<string>): string {
    Join(StripAll(segments), " ")
  }

  function StripAll(segments: seq<string>): (r: seq<string>)
    ensures |r| == |segments|
    ensures forall i :: 0 <= i < |r| ==> r[i] == Strip(segments[i])
  {
    seq(|segments|, i requires 0 <= i < |segments| => Strip(segments[i]))
  }

  /** The text `transcribe` returns on a loaded model: empty for empty audio and for an engine error. */
  function TextOf<S>(model: LoadedModel, audio: seq<S>, language: string, backend: Backend<S>): (text: string)
    ensures |audio| == 0 ==> text == ""
    ensures |audio| > 0 && backend.run(model, audio, language).None? ==> text == ""
    ensures |audio| > 0 && backend.run(model, audio, language).Some? ==>
              text == Join(StripAll(backend.run(model, audio, language).value), " ")
  {
    if |audio| == 0 then ""
    else
      match backend.run(model, audio, language)
      case None => ""
      case Some(segments) => JoinSegments(segments)
  }

  /** What `transcribe` returns, or the error that loading the model raises. */
  function TranscribeResult<S>(loaded: Option<LoadedModel>, size: string, requestedDevice: string,
                               requestedComputeType: string, audio: seq<S>, language: string,
                               backend: Backend<S>): Result<string>
  {
    match LoadResult(loaded, size, requestedDevice, requestedComputeType, backend)
    case Err(e) => Err(e)
    case Ok(model) => Ok(TextOf(model, audio, language, backend))
  }

  /** Once a model is loaded, loading again keeps it. */
  lemma LoadIdempotent<S>(m: LoadedModel, size: string, requestedDevice: string,
                          requestedComputeType: string, backend: Backend<S>)
    ensures LoadResult(Some(m), size, requestedDevice, requestedComputeType, backend) == Ok(m)
    ensures var r := LoadResult(None, size, requestedDevice, requestedComputeType, backend);
            r.Ok? ==> LoadResult(Some(r.value), size, requestedDevice, requestedComputeType, backend) == r
  {
  }

  /** With both settings on "auto", a successful first construction uses cuda/float16 iff CUDA is usable, else cpu/int8. */
  lemma AutoSelection<S>(size: string, backend: Backend<S>)
    requires var d := ResolveDevice("auto", CheckCudaAvailable(backend.cudaTypes));
             backend.construct(size, d, ResolveComputeType("auto", d)).Pass?
    ensures var r := LoadResult(None, size, "auto", "auto", backend);
            r.Ok? && r.value.size == size &&
            (if CheckCudaAvailable(backend.cudaTypes) then r.value.device == "cuda" && r.value.computeType == "float16"
             else r.value.device == "cpu" && r.value.computeType == "int8")
  {
  }

  /** A failed CUDA construction falls back to cpu/int8, and raises only if that fails too. */
  lemma CudaFallback<S>(size: string, requestedDevice: string, requestedComputeType: string, backend: Backend<S>)
    requires ResolveDevice(requestedDevice, CheckCudaAvailable(backend.cudaTypes)) == "cuda"
    requires backend.construct(size, "cuda", ResolveComputeType(requestedComputeType, "cuda")).Fail?
    ensures var r := LoadResult(None, size, requestedDevice, requestedComputeType, backend);
            match backend.construct(size, "cpu", "int8")
            case Pass => r == Ok(LoadedModel(size, "cpu", "int8"))
            case Fail(e) => r == Err(e)
  {
  }

  /** A failed construction on any device but cuda is raised with its own message. */
  lemma NonCudaFailureRaised<S>(size: string, requestedDevice: string, requestedComputeType: string, backend: Backend<S>)
    requires var d := ResolveDevice(requestedDevice, CheckCudaAvailable(backend.cudaTypes));
             d != "cuda" && backend.construct(size, d, ResolveComputeType(requestedComputeType, d)).Fail?
    ensures var d := ResolveDevice(requestedDevice, CheckCudaAvailable(backend.cudaTypes));
            LoadResult(None, size, requestedDevice, requestedComputeType, backend)
            == Err(backend.construct(size, d, ResolveComputeType(requestedComputeType, d)).message)
  {
  }

  /** A successful load is on one of the two devices it tried, with the matching compute type. */
  lemma LoadedOnChosenOrCpu<S>(size: string, requestedDevice: string, requestedComputeType: string, backend: Backend<S>)
    ensures var r := LoadResult(None, size, requestedDevice, requestedComputeType, backend);
            var d := ResolveDevice(requestedDevice, CheckCudaAvailable(backend.cudaTypes));
            r.Ok? ==> (r.value == LoadedModel(size, d, ResolveComputeType(requestedComputeType, d))
                       || (d == "cuda" && r.value == LoadedModel(size, "cpu", "int8")))
  {
  }

  /** One more segment adds one space and its stripped text. */
  lemma JoinSegmentsAppend(segments: seq<string>, s: string)
    requires |segments| >= 1
    ensures JoinSegments(segments + [s]) == JoinSegments(segments) + " " + Strip(s)
  {
    assert StripAll(segments + [s]) == StripAll(segments) + [Strip(s)];
    JoinAppend(StripAll(segments), Strip(s), " ");
  }

  /** The text is exactly as long as the stripped segments with one space between each two. */
  lemma JoinSegmentsLength(segments: seq<string>)
    requires |segments| >= 1
    ensures |JoinSegments(segments)| == TotalLength(StripAll(segments)) + |segments| - 1
  {
    JoinLength(StripAll(segments), " ");
  }

  /** `Transcriber`: the requested settings, the loaded model and the device it ended up on. */
  class Transcriber {
    const modelSize: string
    const requestedDevice: string
    const requestedComputeType: string
    var model: Option<LoadedModel>
    var actualDevice: string

    /** A loaded model runs on the device recorded as actual. */
    predicate Valid()
      reads this
    {
      model.Some? ==> actualDevice == model.value.device && model.value.size == modelSize
    }

    constructor (modelSize: string, device: string, computeType: string)
      ensures Valid()
      ensures this.modelSize == modelSize && requestedDevice == device && requestedComputeType == computeType
      ensures model == None && actualDevice == "cpu"
    {
      this.modelSize := modelSize;
      requestedDevice := device;
      requestedComputeType := computeType;
      model := None;
      actualDevice := "cpu";
    }

    /** `load_model`: the try / CUDA fall-back sequence; `r` is what it raises. */
    method LoadModel<S>(backend: Backend<S>) returns (r: Outcome)
      requires Valid()
      modifies this
      ensures Valid()
      ensures var l := LoadResult(old(model), modelSize, requestedDevice, requestedComputeType, backend);
              && (r.Pass? <==> l.Ok?)
              && (l.Err? ==> r == Fail(l.message) && model == old(model) && actualDevice == old(actualDevice))
              && (l.Ok? ==> model == Some(l.value) && actualDevice == l.value.device)
    {
      if model.Some? {
        return Pass;
      }
      var device := ResolveDevice(requestedDevice, CheckCudaAvailable(backend.cudaTypes));
      var computeType := ResolveComputeType(requestedComputeType, device);
      var first := backend.construct(modelSize, device, computeType);
      if first.Pass? {
        model := Some(LoadedModel(modelSize, device, computeType));
        actualDevice := device;
        return Pass;
      }
      if device == "cuda" {
        var second := backend.construct(modelSize, "cpu", "int8");
        if second.Pass? {
          model := Some(LoadedModel(modelSize, "cpu", "int8"));
          actualDevice := "cpu";
        }
        return second;
      }
      return first;
    }

    /** `transcribe`: loads the model first (which may raise), then produces the text. */
    method Transcribe<S>(audio: seq<S>, language: string, backend: Backend<S>) returns (r: Result<string>)
      requires Valid()
      modifies this
      ensures Valid()
      ensures r == TranscribeResult(old(model), modelSize, requestedDevice, requestedComputeType, audio, language, backend)
      ensures var l := LoadResult(old(model), modelSize, requestedDevice, requestedComputeType, backend);
              model == (if l.Ok? then Some(l.value) else old(model))
      ensures old(model).Some? ==> model == old(model) && actualDevice == old(actualDevice)
    {
      var loaded := LoadModel(backend);
      if loaded.Fail? {
        return Err(loaded.message);
      }
      if |audio| == 0 {
        return Ok("");
      }
      var segments := backend.run(model.value, audio, language);
      if segments.None? {
        return Ok("");
      }
      var parts := StripAll(segments.value);
      return Ok(Join(parts, " "));
    }
  }
}
