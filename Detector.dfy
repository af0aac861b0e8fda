/**
 * The `edge_coco_ssd` object itself: `load_coco_ssd_model` reads the labels
 * and asks the TF-Lite runtime for an Edge-TPU interpreter, and
 * `coco_ssd_analyse` turns the interpreter's outputs into records and, on
 * request, draws them onto the input image. The runtime is a parameter: what
 * it does with an interpreter request, and the output tensors (or a raised
 * error) of one `invoke()`.
 */
module Detector {
  import opened Wrappers
  import opened Labels
  import opened ModelPath
  import opened Detections
  import opened Annotation

  /** The delegate library `load_delegate` is asked for. */
  const EdgeTpuLibrary := "libedgetpu.so.1"

  /** `tflite.Interpreter(model_path=..., experimental_delegates=[load_delegate(library, options)])`. */
  datatype InterpreterRequest = InterpreterRequest(modelFile: string, delegateLibrary: string, delegateOptions: map<string, string>)

  /** How far the runtime gets with a request: the constructor raises, or
      `allocate_tensors()` raises, or both succeed. */
  datatype LoadStep = ConstructionFails | AllocationFails | Allocated

  /** An interpreter object, with whether its tensors were allocated. */
  datatype Interpreter = Interpreter(request: InterpreterRequest, tensorsAllocated: bool)

  /** Why `load_coco_ssd_model` raised. */
  datatype LoadError =
    | LabelLoad(cause: LabelError)  // the label file cannot be read, or a line does not match
    | ModelLoad                     // the interpreter cannot be built or allocated

  /** The interpreter that a model path asks for. */
  function Request(modelPath: string): InterpreterRequest {
    var loc := Locate(modelPath);
    InterpreterRequest(loc.file, EdgeTpuLibrary, loc.options)
  }

  /** `file@device` asks for the file on that device; a path without `'@'`
      asks for the whole path with the runtime's default device. */
  lemma RequestDevice(file: string, device: string)
    requires '@' !in file && '@' !in device
    ensures Request(file + "@" + device) == InterpreterRequest(file, EdgeTpuLibrary, map[DeviceKey := device])
    ensures Request(file) == InterpreterRequest(file, EdgeTpuLibrary, map[])
  {
    LocateFileAtDevice(file, device);
    LocatePlainFile(file);
  }

  /** The keyword arguments of `coco_ssd_analyse` that the code reads and uses. */
  datatype AnalyseOptions = AnalyseOptions(threshold: real, topK: int, labelImage: bool)

  /** `threshold=0.1`, `top_k=3`, `label_image=True`. */
  const DefaultOptions := AnalyseOptions(0.1, 3, true)

  /** The keyword arguments a caller passed, each absent or given. */
  datatype Kwargs = Kwargs(threshold: Option<real>, topK: Option<int>, labelImage: Option<bool>)

  /** `kwargs.get(name, default)` for each option: a given value wins, an
      absent one takes the method's default. */
  function Options(kw: Kwargs): (opts: AnalyseOptions)
    ensures kw.threshold.Some? ==> opts.threshold == kw.threshold.value
    ensures kw.threshold.None? ==> opts.threshold == DefaultOptions.threshold
    ensures kw.topK.Some? ==> opts.topK == kw.topK.value
    ensures kw.topK.None? ==> opts.topK == DefaultOptions.topK
    ensures kw.labelImage.Some? ==> opts.labelImage == kw.labelImage.value
    ensures kw.labelImage.None? ==> opts.labelImage == DefaultOptions.labelImage
  {
    AnalyseOptions(
      match kw.threshold case Some(t) => t case None => DefaultOptions.threshold,
      match kw.topK case Some(k) => k case None => DefaultOptions.topK,
      match kw.labelImage case Some(b) => b case None => DefaultOptions.labelImage)
  }

  /** A call without keyword arguments uses the defaults, and passing every
      option explicitly overrides all of them. */
  lemma OptionsDefaults(threshold: real, topK: int, labelImage: bool)
    ensures Options(Kwargs(None, None, None)) == DefaultOptions
    ensures Options(Kwargs(Some(threshold), Some(topK), Some(labelImage))) == AnalyseOptions(threshold, topK, labelImage)
  {
  }

  /** Why `coco_ssd_analyse` raised. */
  datatype AnalyseError =
    | NoInterpreter               // `self._interpreter` is still None
    | InvokeFailed                // the runtime raised while filling the input or running
    | Objects(objectError: ObjectError) // building a record raised
    | Render(renderError: RenderError) // annotating a record raised

  /** `objects_data`: the records, the image they were drawn on when
      labelling was asked for, and the forward-pass time in milliseconds. */
  datatype Analysis = Analysis(objects: seq<Detection>, labelledImage: Option<Canvas>, inferenceTimeMs: real)

  class EdgeCocoSsd {
    var ready: bool
    var modelPath: string
    var labels: Option<map<int, string>>
    var interpreter: Option<Interpreter>

    /** An interpreter is only ever stored after the labels, and the object
        is only ever ready once it holds an interpreter. */
    ghost predicate Valid()
      reads this
    {
      && (interpreter.Some? ==> labels.Some?)
      && (ready ==> interpreter.Some?)
    }

    /** `__init__`: not ready, no model path, no interpreter and no labels yet. */
    constructor ()
      ensures Valid()
      ensures !ready && modelPath == "" && labels.None? && interpreter.None?
    {
      ready := false;
      modelPath := "";
      labels := None;
      interpreter := None;
    }

    /** `load_coco_ssd_model(model_path, labels_path)`, given the decoded
        label file (None when it cannot be read) and what the runtime does
        with the interpreter request. The labels are stored before the model
        is tried; `ready` is only ever set, never cleared. */
    method Load(modelPath: string, labelFile: Option<string>, runtime: InterpreterRequest -> LoadStep)
      returns (outcome: Outcome<LoadError>)
      requires Valid()
      modifies this
      ensures Valid()
      ensures this.modelPath == old(this.modelPath)
      ensures LoadLabels(labelFile).Failure? ==>
        && outcome == Fail(LabelLoad(LoadLabels(labelFile).error))
        && labels == old(labels) && interpreter == old(interpreter) && ready == old(ready)
      ensures LoadLabels(labelFile).Success? ==>
        var request := Request(modelPath);
        && labels == Some(LoadLabels(labelFile).value)
        && match runtime(request)
           case ConstructionFails =>
             outcome == Fail(ModelLoad) && interpreter == old(interpreter) && ready == old(ready)
           case AllocationFails =>
             outcome == Fail(ModelLoad) && interpreter == Some(Interpreter(request, false)) && ready == old(ready)
           case Allocated =>
             outcome == Pass && interpreter == Some(Interpreter(request, true)) && ready
      ensures old(ready) ==> ready
      ensures ready && !old(ready) ==> outcome == Pass
    {
      var parsed := LoadLabels(labelFile);
      if parsed.Failure? {
        return Fail(LabelLoad(parsed.error));
      }
      labels := Some(parsed.value);
      var request := Request(modelPath);
      var step := runtime(request);
      if step == ConstructionFails {
        return Fail(ModelLoad);
      }
      interpreter := Some(Interpreter(request, false));
      if step == AllocationFails {
        return Fail(ModelLoad);
      }
      interpreter := Some(Interpreter(request, true));
      ready := true;
      outcome := Pass;
    }

    /** `coco_ssd_analyse(input_img, **kwargs)`, given what `invoke()`
        produced (None when the runtime raised) and the clock readings
        around it. An interpreter whose tensors were never allocated raises
        when the input tensor is written. Annotation draws onto the input
        image itself, which is the labelled image returned; an error while
        annotating leaves the records drawn before it on the image. */
    method Analyse(image: Canvas, run: Option<OutputTensors>, kw: Kwargs, startS: real, endS: real, rd: Renderer)
      returns (result: Result<Analysis, AnalyseError>)
      requires Valid()
      modifies image
      ensures interpreter.None? ==> result == Failure(NoInterpreter) && image.commands == old(image.commands)
      ensures interpreter.Some? && (!interpreter.value.tensorsAllocated || run.None?) ==>
        result == Failure(InvokeFailed) && image.commands == old(image.commands)
      ensures interpreter.Some? && interpreter.value.tensorsAllocated && run.Some? ==>
        var opts := Options(kw);
        match BuildObjects(run.value, labels.value, opts.threshold, opts.topK)
        case Failure(e) => result == Failure(Objects(e)) && image.commands == old(image.commands)
        case Success(objs) =>
          var ms := (endS - startS) * 1000.0;
          if !opts.labelImage then
            result == Success(Analysis(objs, None, ms)) && image.commands == old(image.commands)
          else
            var drawn := AnnotateSpec(image.width, image.height, objs, rd);
            && image.commands == old(image.commands) + drawn.commands
            && result == match drawn.error
                         case None => Success(Analysis(objs, Some(image), ms))
                         case Some(e) => Failure(Render(e))
    {
      if interpreter.None? {
        return Failure(NoInterpreter);
      }
      if !interpreter.value.tensorsAllocated || run.None? {
        return Failure(InvokeFailed);
      }
      var opts := Options(kw);
      var built := BuildObjects(run.value, labels.value, opts.threshold, opts.topK);
      if built.Failure? {
        return Failure(Objects(built.error));
      }
      var objs := built.value;
      var labelled: Option<Canvas> := None;
      if opts.labelImage {
        var drawn := image.Annotate(objs, rd);
        if drawn.Fail? {
          return Failure(Render(drawn.error));
        }
        labelled := Some(image);
      }
      result := Success(Analysis(objs, labelled, (endS - startS) * 1000.0));
    }
  }
}
