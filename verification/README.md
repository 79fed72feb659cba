# resnet_app: screen state and output post-processing

This project models the logic of the single screen of the resnet_app Android
application (`MainActivity`): the user picks a picture from the gallery,
presses *Classify*, a bundled ResNet-50 classifier produces a score per
class, and the screen shows the best label with its confidence or a
diagnostic text.

- `wrappers.dfy` (`Wrappers`): `Option`, standing in for Kotlin's nullable types.
- `postprocess.dfy` (`PostProcess`): the post-processing in `classifyImage`.
  It rejects an empty score vector. It runs the strict-greater-than argmax that
  starts from threshold 0 and sentinel index -1 (`ArgMax`, a `for` loop proved
  against the function `ScanMax`). It then does the bounds-checked label
  lookup (`Classify`, specified by `Decide`). Scores are `real`, because the
  code only compares them with `>`. The lemmas say what the index means
  without the loop: -1 exactly when no score is positive, and otherwise the
  first position of the maximum.
- `decimal.dfy` (`Decimal`): the decimal text Kotlin's string templates give
  an `Int`. The diagnostic text quotes the index and both sizes with it. It
  comes with the reading back of that text (a round trip).
- `main_activity.dfy` (`Screen`): class `MainActivity`, with the fields
  `selectedBitmap` (an `Option<Bitmap>`), `labels`, the result text
  `result`, the toast messages shown so far `toasts`, the life-cycle
  `phase`, and `pickerPending`. Start-up (`OnCreate`), the picker callback (`OnPickResult`) and the
  two buttons (`ClickPick`, `ClickClassify`) are methods that change these
  fields. The invariant `Valid()` says the buttons are wired up only with a
  non-empty label list.

Platform calls are parameters. These are loading the model (`ModelLoad`),
reading `labels.txt` (`LabelsRead`), decoding a URI (`decode`), and
preprocessing plus inference (`infer`, giving scores or an exception message).
The layout's initial result text is a constructor parameter.

A failed decode clears an earlier selection, because the code assigns the
decode result to `selectedBitmap` before checking it (MainActivity.kt:53);
`OnPickResult` follows the code.

The picker's result arrives only after the pick button has launched the
picker (MainActivity.kt:114). The field `pickerPending` records a launch that
has not yet delivered its result: `ClickPick` sets it, and `OnPickResult`
needs it and clears it.

## Model

| member | source | states |
|---|---|---|
| PostProcess.ScanMax | app/src/main/java/com/example/resnet50/MainActivity.kt:183-191 | the loop's `maxIdx` stays in -1 ..< size; at -1, `maxProb` is still 0; otherwise `maxProb` is the score at `maxIdx` and is strictly positive |
| PostProcess.ArgMax | app/src/main/java/com/example/resnet50/MainActivity.kt:183-191 | the loop ends with the scan's (index, max); index -1 means every score is <= 0 and the max is 0; otherwise the index is the first position of the largest score, which is positive, and `maxProb == probabilities[maxIdx]` |
| PostProcess.ScanMaxFindsFirstMax | app/src/main/java/com/example/resnet50/MainActivity.kt:183-191 | the scan ends at -1 only when no score is positive, and otherwise at the first maximum (ties go to the first occurrence) |
| PostProcess.FirstMaxUnique | app/src/main/java/com/example/resnet50/MainActivity.kt:186-191 | at most one position is the first maximum |
| PostProcess.ScanMaxCharacterised | app/src/main/java/com/example/resnet50/MainActivity.kt:183-191 | for every k: the scan ends at k iff (k = -1 and no score is positive) or k is the first maximum |
| PostProcess.ArgMaxExample | app/src/main/java/com/example/resnet50/MainActivity.kt:186-191 | scores [0.1, 0.9, 0.05] select index 1 |
| PostProcess.ArgMaxTieExample | app/src/main/java/com/example/resnet50/MainActivity.kt:186-191 | on the tie [0.5, 0.5] the first index wins |
| PostProcess.Classify | app/src/main/java/com/example/resnet50/MainActivity.kt:177-204 | the emptiness check, the argmax loop and the guarded lookup produce exactly the outcome `Decide` describes |
| PostProcess.DecideCases | app/src/main/java/com/example/resnet50/MainActivity.kt:177-204 | the empty result comes iff there are no scores. A prediction names `labels[k]` with score `probabilities[k]`, where k is the first maximum and k < labels.size, so a label is read only in range. The diagnostic quotes labels.size and probabilities.size. Its index is -1 (no positive score) or a first maximum >= labels.size |
| PostProcess.NonPositiveScoresNeverPredict | app/src/main/java/com/example/resnet50/MainActivity.kt:183-184 | when every score is <= 0, the outcome is the diagnostic with index -1, never a prediction |
| PostProcess.EnoughLabelsAlwaysPredict | app/src/main/java/com/example/resnet50/MainActivity.kt:186-198 | with labels.size >= probabilities.size and some positive score, the outcome is always the prediction of `labels[k]` for the first maximum k |
| Decimal.NatText | app/src/main/java/com/example/resnet50/MainActivity.kt:202 | the decimal text of a count is non-empty, all digits, and has no leading zero |
| Decimal.NatTextRoundTrip | app/src/main/java/com/example/resnet50/MainActivity.kt:202 | reading the digits of a count back gives the count |
| Decimal.IntTextRoundTrip | app/src/main/java/com/example/resnet50/MainActivity.kt:202 | the text of an integer is a well-formed signed decimal, with '-' exactly for negatives, and it reads back to that integer |
| Decimal.IntTextInjective | app/src/main/java/com/example/resnet50/MainActivity.kt:202 | different integers have different texts |
| Screen.ClassifiedTextSound | app/src/main/java/com/example/resnet50/MainActivity.kt:177-204 | shown text: an empty vector shows "Classification failed: Empty result."; a prediction shows the in-range label at the first maximum with its score times 100 as confidence; the diagnostic text is `InvalidIndexText` of the index, labels.size and probabilities.size, each written as its decimal text, which reads back to the number (that the whole text determines them is `InvalidIndexTextInjective`) |
| Screen.InvalidIndexTextInjective | app/src/main/java/com/example/resnet50/MainActivity.kt:202 | two diagnostic texts are equal only if they quote the same index, label count and score count, so the text determines all three |
| Screen.MainActivity.constructor | app/src/main/java/com/example/resnet50/MainActivity.kt:35 | a new screen has no selected bitmap, no labels, no toasts, no launched picker and the layout's text |
| Screen.MainActivity.OnCreate | app/src/main/java/com/example/resnet50/MainActivity.kt:84-111 | the buttons get wired up iff the model loads, the label file reads and it is non-empty. A model failure, a read failure or an empty label list shows its error text and critical toast and finishes. On success the labels are the file's lines and the text is unchanged |
| Screen.MainActivity.ClickPick | app/src/main/java/com/example/resnet50/MainActivity.kt:113-115 | the picker is launched iff start-up has wired up the button, and a launch leaves a picker result pending; the invariant keeps a pending picker tied to a running screen |
| Screen.MainActivity.OnPickResult | app/src/main/java/com/example/resnet50/MainActivity.kt:49-60 | delivered only for a pending launch, which it consumes. A null URI changes nothing else. Otherwise the selection becomes the decode result. A success shows "Image selected. Click Classify.". A failure clears any earlier selection, shows "Could not load image." and toasts "Error loading image" |
| Screen.MainActivity.ClassifyImage | app/src/main/java/com/example/resnet50/MainActivity.kt:150-210 | the text becomes the rendered post-processing outcome for the scores, with toasts unchanged. If inference throws, it becomes "Classification Error: <message>" and one "Classification failed: <message>" toast is added |
| Screen.MainActivity.ClickClassify | app/src/main/java/com/example/resnet50/MainActivity.kt:117-123 | classification runs iff the button is wired up and a bitmap is selected, and then the label list is non-empty. Without a selection only a "Please pick an image first" toast is added. Before start-up succeeds nothing changes. The selection, labels and phase never change |

## Left out

- Image decoding (`uriToBitmap`, MainActivity.kt:126-147): `ImageDecoder`/`MediaStore` and the ARGB_8888 copy are platform calls. The model has only the `decode` parameter, which gives some bitmap or nothing. `uriToBitmap` catches every exception itself, and a failure yields nothing.
- The outer `catch` of the picker callback (MainActivity.kt:61-65) sets "Failed to load image.". Since `uriToBitmap` catches its own exceptions, only a throwing view or toast call can reach it, and those calls are not modelled.
- Preprocessing and inference (MainActivity.kt:150-175): the bilinear resize to 224x224, the tensor buffers and the generated `Resnet50` wrapper. They are one opaque `infer` parameter. The commented-out mean/std normalisation (MainActivity.kt:161) is therefore not modelled either way.
- The `"%.2f%%"` formatting of the confidence (MainActivity.kt:198): a prediction's text is the `PredictionText(label, maxProb * 100)` value, not a string.
- Kotlin `Float` semantics: scores are exact reals, so NaN, infinities and rounding are not covered.
- Splitting `labels.txt` into lines (`readLines`, MainActivity.kt:96): the model gets the list of lines or the I/O error message.
- Logging, `enableEdgeToEdge`, window insets, `findViewById` and the image preview (`setImageBitmap`): they are side effects with no logic.
- `onDestroy` releasing the model (MainActivity.kt:212-218): resource cleanup, with no state to reason about.
