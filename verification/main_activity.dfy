/** The screen of the app: the selected picture, the label list, the result
    text and the short messages ("toasts") it shows, changed by the start-up
    step, the picker callback and the two buttons. Decoding, inference and
    file reading are platform calls; they enter as parameters. */
module Screen {
  import opened Wrappers
  import PostProcess
  import Decimal

  /** A decoded ARGB_8888 picture; the screen never looks inside it, it only
      hands it to the classifier. */
  datatype Bitmap = Bitmap(width: nat, height: nat, argb: seq<bv32>)

  /** A content reference returned by the gallery picker. */
  type Uri = string

  /** What loading the bundled model at start-up gives. */
  datatype ModelLoad = ModelReady | ModelFailed(message: string)

  /** What reading the bundled label file gives: its lines, or the message of
      the I/O error. */
  datatype LabelsRead = Lines(lines: seq<string>) | ReadFailed(message: string)

  /** Running the classifier on a bitmap: the output scores, or the message
      of the exception thrown by preprocessing or inference. */
  datatype Inference = Scores(probs: seq<real>) | Threw(message: string)

  /** The result text. A prediction is shown as
      "Prediction: <label>\nConfidence: <confidence>%" with the confidence
      printed to two decimals; that formatting is not modelled. */
  datatype Text = Plain(s: string) | PredictionText(predicted: string, confidence: real)

  /** Where the screen is in its life: constructed, started with the buttons
      wired up, or closed by `finish()` during start-up. */
  datatype Phase = Constructed | Running | Finished

  const ImageSelected := "Image selected. Click Classify."
  const CouldNotLoadImage := "Could not load image."
  const ErrorLoadingImage := "Error loading image"
  const PickFirst := "Please pick an image first"
  const EmptyResultText := "Classification failed: Empty result."
  const LabelsEmptyText := "Error: Labels file empty."
  const ModelCritical := "CRITICAL: Error loading model. App will close."
  const LabelsEmptyCritical := "CRITICAL: Labels file is empty. App will close."
  const LabelsCritical := "CRITICAL: Error loading labels. App will close."

  /** The diagnostic text quoting the index, the label count and the score
      count. */
  function InvalidIndexText(index: int, labelCount: nat, probCount: nat): string {
    "Could not classify or invalid label index (Idx: " +
    (Decimal.IntText(index) + (", Labels: " +
    (Decimal.IntText(labelCount) + (", Probs: " +
    (Decimal.IntText(probCount) + ").")))))
  }

  lemma DropCommonPrefix(p: string, x: string, y: string)
    requires p + x == p + y
    ensures x == y
  {
    assert x == (p + x)[|p|..];
  }

  /** The diagnostic text determines the index and both counts it quotes:
      a number's text holds only digits and '-', so the ',' and ')' after
      each number fix where it ends. */
  lemma InvalidIndexTextInjective(i: int, n: nat, m: nat, i2: int, n2: nat, m2: nat)
    requires InvalidIndexText(i, n, m) == InvalidIndexText(i2, n2, m2)
    ensures i == i2 && n == n2 && m == m2
  {
    var (a, b, c) := (Decimal.IntText(i), Decimal.IntText(n), Decimal.IntText(m));
    var (a2, b2, c2) := (Decimal.IntText(i2), Decimal.IntText(n2), Decimal.IntText(m2));
    var tail3, tail3' := c + ").", c2 + ").";
    var tail2, tail2' := b + (", Probs: " + tail3), b2 + (", Probs: " + tail3');
    var tail1, tail1' := a + (", Labels: " + tail2), a2 + (", Labels: " + tail2');
    DropCommonPrefix("Could not classify or invalid label index (Idx: ", tail1, tail1');
    Decimal.IntTextChars(i);
    Decimal.IntTextChars(i2);
    Decimal.SplitAfterNumber(a, ", Labels: " + tail2, a2, ", Labels: " + tail2');
    DropCommonPrefix(", Labels: ", tail2, tail2');
    Decimal.IntTextChars(n);
    Decimal.IntTextChars(n2);
    Decimal.SplitAfterNumber(b, ", Probs: " + tail3, b2, ", Probs: " + tail3');
    DropCommonPrefix(", Probs: ", tail3, tail3');
    Decimal.IntTextChars(m);
    Decimal.IntTextChars(m2);
    Decimal.SplitAfterNumber(c, ").", c2, ").");
    Decimal.IntTextInjective(i, i2);
    Decimal.IntTextInjective(n, n2);
    Decimal.IntTextInjective(m, m2);
  }

  /** The result text shown for a post-processing outcome; a prediction's
      confidence is its score times 100. */
  function Render(o: PostProcess.Outcome): Text {
    match o
    case EmptyResult => Plain(EmptyResultText)
    case Prediction(l, p) => PredictionText(l, p * 100.0)
    case InvalidIndex(i, n, m) => Plain(InvalidIndexText(i, n, m))
  }

  /** The result text after a classification whose inference gave `inf`. */
  function ClassifiedText(inf: Inference, labels: seq<string>): Text {
    match inf
    case Threw(msg) => Plain("Classification Error: " + msg)
    case Scores(p) => Render(PostProcess.Decide(p, labels))
  }

  /** The toasts a classification whose inference gave `inf` adds. */
  function ClassifiedToasts(inf: Inference): seq<string> {
    match inf
    case Threw(msg) => ["Classification failed: " + msg]
    case Scores(_) => []
  }

  /** A prediction is shown only for a label inside the label list, the one
      at the first maximal score, with that score times 100 as confidence; a
      failed lookup shows a diagnostic that quotes the index and both sizes,
      each readable back from the text. */
  lemma ClassifiedTextSound(probs: seq<real>, labels: seq<string>)
    ensures ClassifiedText(Scores(probs), labels).PredictionText? ==>
      exists k :: PostProcess.IsFirstMax(probs, k) && k < |labels| &&
        ClassifiedText(Scores(probs), labels) == PredictionText(labels[k], probs[k] * 100.0)
    ensures |probs| == 0 ==> ClassifiedText(Scores(probs), labels) == Plain(EmptyResultText)
    ensures PostProcess.Decide(probs, labels).InvalidIndex? ==>
      var i := PostProcess.Decide(probs, labels).index;
      ClassifiedText(Scores(probs), labels) == Plain(InvalidIndexText(i, |labels|, |probs|)) &&
      Decimal.IntValue(Decimal.IntText(i)) == i &&
      Decimal.IntValue(Decimal.IntText(|labels|)) == |labels| &&
      Decimal.IntValue(Decimal.IntText(|probs|)) == |probs|
  {
    PostProcess.DecideCases(probs, labels);
    var o := PostProcess.Decide(probs, labels);
    if o.InvalidIndex? {
      Decimal.IntTextRoundTrip(o.index);
      Decimal.IntTextRoundTrip(|labels|);
      Decimal.IntTextRoundTrip(|probs|);
    }
  }

  class MainActivity {
    var selectedBitmap: Option<Bitmap>
    var labels: seq<string>
    var result: Text
    var toasts: seq<string>
    var phase: Phase
    /** The gallery picker has been launched and its result not yet delivered. */
    var pickerPending: bool

    /** Once the buttons are wired up, the label list is not empty; the
        picker can only have been launched from a wired-up button. */
    ghost predicate Valid()
      reads this
    {
      (phase == Running ==> |labels| > 0) &&
      (pickerPending ==> phase == Running)
    }

    /** `layoutText` is the result text the layout starts with. */
    constructor (layoutText: string)
      ensures Valid() && phase == Constructed
      ensures selectedBitmap == None && labels == []
      ensures result == Plain(layoutText) && toasts == [] && !pickerPending
    {
      selectedBitmap := None;
      labels := [];
      result := Plain(layoutText);
      toasts := [];
      phase := Constructed;
      pickerPending := false;
    }

    /** Start-up: load the model, then the labels; any failure, or an empty
      label file, shows an error and finishes the screen without wiring up
      the buttons. */
    method OnCreate(model: ModelLoad, read: LabelsRead)
      requires Valid() && phase == Constructed
      modifies this
      ensures Valid()
      ensures selectedBitmap == old(selectedBitmap) && !pickerPending
      ensures phase == Running <==> model.ModelReady? && read.Lines? && read.lines != []
      ensures phase != Running ==> phase == Finished
      ensures model.ModelFailed? ==>
        result == Plain("Error loading model: " + model.message) &&
        toasts == old(toasts) + [ModelCritical] && labels == old(labels)
      ensures model.ModelReady? && read.ReadFailed? ==>
        result == Plain("Error loading labels: " + read.message) &&
        toasts == old(toasts) + [LabelsCritical] && labels == old(labels)
      ensures model.ModelReady? && read == Lines([]) ==>
        result == Plain(LabelsEmptyText) &&
        toasts == old(toasts) + [LabelsEmptyCritical] && labels == []
      ensures phase == Running ==>
        labels == read.lines && result == old(result) && toasts == old(toasts)
    {
      if model.ModelFailed? {
        toasts := toasts + [ModelCritical];
        result := Plain("Error loading model: " + model.message);
        phase := Finished;
        return;
      }
      match read {
        case ReadFailed(msg) =>
          toasts := toasts + [LabelsCritical];
          result := Plain("Error loading labels: " + msg);
          phase := Finished;
        case Lines(lines) =>
          labels := lines;
          if |labels| == 0 {
            toasts := toasts + [LabelsEmptyCritical];
            result := Plain(LabelsEmptyText);
            phase := Finished;
            return;
          }
          phase := Running;
      }
    }

    /** The pick button launches the gallery picker, whose result later
        arrives through `OnPickResult`; the button only responds once
        start-up has wired it up. */
    method ClickPick() returns (launched: bool)
      requires Valid()
      modifies this`pickerPending
      ensures Valid()
      ensures launched <==> phase == Running
      ensures pickerPending == (old(pickerPending) || launched)
    {
      launched := phase == Running;
      if launched {
        pickerPending := true;
      }
    }

    /** The picker callback, delivered once per launch: nothing happens
        without a URI; otherwise the decoded bitmap replaces the selection,
        and a failed decode clears it and says so. */
    method OnPickResult(uri: Option<Uri>, decode: Uri -> Option<Bitmap>)
      requires Valid() && pickerPending
      modifies this`selectedBitmap, this`result, this`toasts, this`pickerPending
      ensures Valid() && !pickerPending
      ensures uri.None? ==>
        selectedBitmap == old(selectedBitmap) && result == old(result) && toasts == old(toasts)
      ensures uri.Some? ==> selectedBitmap == decode(uri.value)
      ensures uri.Some? && selectedBitmap.Some? ==>
        result == Plain(ImageSelected) && toasts == old(toasts)
      ensures uri.Some? && selectedBitmap.None? ==>
        result == Plain(CouldNotLoadImage) && toasts == old(toasts) + [ErrorLoadingImage]
    {
      pickerPending := false;
      if uri.Some? {
        selectedBitmap := decode(uri.value);
        if selectedBitmap.Some? {
          result := Plain(ImageSelected);
        } else {
          result := Plain(CouldNotLoadImage);
          toasts := toasts + [ErrorLoadingImage];
        }
      }
    }

    /** Runs the classifier on `bitmap` and shows the post-processed outcome,
        or the exception's message. */
    method ClassifyImage(bitmap: Bitmap, infer: Bitmap -> Inference)
      modifies this`result, this`toasts
      ensures result == ClassifiedText(infer(bitmap), labels)
      ensures toasts == old(toasts) + ClassifiedToasts(infer(bitmap))
    {
      match infer(bitmap) {
        case Threw(msg) =>
          result := Plain("Classification Error: " + msg);
          toasts := toasts + ["Classification failed: " + msg];
        case Scores(probs) =>
          var o := PostProcess.Classify(probs, labels);
          result := Render(o);
      }
    }

    /** The classify button: without a selection it only warns; otherwise it
        classifies the selection. It responds only once start-up has wired
        it up, so a classification never runs with an empty label list. */
    method ClickClassify(infer: Bitmap -> Inference) returns (ran: bool)
      requires Valid()
      modifies this`result, this`toasts
      ensures Valid()
      ensures ran <==> phase == Running && selectedBitmap.Some?
      ensures ran ==> |labels| > 0
      ensures phase != Running ==> result == old(result) && toasts == old(toasts)
      ensures phase == Running && selectedBitmap.None? ==>
        result == old(result) && toasts == old(toasts) + [PickFirst]
      ensures ran ==>
        result == ClassifiedText(infer(selectedBitmap.value), labels) &&
        toasts == old(toasts) + ClassifiedToasts(infer(selectedBitmap.value))
    {
      ran := false;
      if phase != Running {
        return;
      }
      if selectedBitmap.None? {
        toasts := toasts + [PickFirst];
        return;
      }
      ClassifyImage(selectedBitmap.value, infer);
      ran := true;
    }
  }
}
