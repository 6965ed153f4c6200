# RR-SegSE shape and crop arithmetic in Dafny

This project models the shape bookkeeping of `recombination_recalibration.py`,
the module that builds the SegSE recalibration block, the recombination block
and the combined RR-SegSE block of a convolutional segmentation network.

A tensor is seen only through its static shape, a sequence of naturals whose
index 0 is the batch size. The framework's image data format (channels-first or
channels-last) is an explicit `DataFormat` parameter instead of a global read.
Each block is a function from the input shape and the block's keyword
arguments to what it hands to the framework's layers: filter counts, the
batch-normalisation axis and the crop applied to the input. The Python
exceptions raised by the module's own code (an `IndexError` on a short shape,
an `AssertionError` from the evenness checks, a `ZeroDivisionError` from a zero
compression ratio) are the `Err` cases of a `Result`.

Files:

- `python_semantics.dfy` (module `PythonSemantics`): the exceptions, `Result`,
  `Option` and Python's floor division `//`. Dafny's `/` is Euclidean and
  differs from `//` for a negative divisor, and nothing stops a caller from
  passing a negative compression ratio.
- `recombination_recalibration.dfy` (module `RecombinationRecalibration`): the
  layout handling, `get_fm_shape`, `get_crop_from_output` and the three blocks.

What is proved, in the module's own terms:

- `get_fm_shape` reads `(ch, h, w)` so that putting the result back into a
  batched shape in the same format gives the original shape. The channel count
  is read at `_AXIS`. Both layouts recover the same logical shape.
- `get_crop_from_output` succeeds exactly when the shape has at least four entries, the
  target has two and all four sizes are even. Every result pair is symmetric,
  and cropping it from both sides gives the target exactly. A crop is
  non-negative exactly when the target is no larger than the input.
- In `segse` under `'valid'` padding, the target `h - 2 * dilation_rate` has
  the parity of `h`. So the target check never fails on its own, and the crop
  is `dilation_rate` on every side. Other padding leaves the input uncropped.
  The gate has as many channels as the input, the compressed count is
  `ch // compression_ratio`, and normalisation runs along the channel axis.
- `recombination` goes `ch -> ch * expansion_factor -> ch`.
- `recombination_and_recalibration` is that recombination with `segse` applied
  to the expanded tensor in between. It fails exactly when that `segse` fails.

The evenness assertions are stricter than the crop needs. `TotalCrop` is exact
whenever an input size and its target have the same parity (`TotalCropExact`),
and `h - 2 * dilation_rate` always has the parity of `h`. So odd sizes would
crop correctly too, but the module rejects them, and the model keeps that
behaviour.

## Model

| member | source | states |
|---|---|---|
| `RecombinationRecalibration.FormatOf` | recombination_recalibration.py:10-13 | the format is channels-first exactly when the configuration string is "channels_first"; every other value takes the channels-last branch |
| `RecombinationRecalibration.ChannelAxis` | recombination_recalibration.py:10-13 | `_AXIS` is 1 or 3, never the batch index 0, and it is 1 exactly under channels-first |
| `RecombinationRecalibration.KerasShape` | recombination_recalibration.py:31-34 | the batched 4-d shape of a feature map under a format: batch first, channel count at `_AXIS` |
| `RecombinationRecalibration.GetFmShape` | recombination_recalibration.py:16-36 | raises IndexError exactly when the shape has fewer than four entries; otherwise the channel count is the entry at `_AXIS`, and placing `(ch, h, w)` back in the same format reproduces the first four entries |
| `RecombinationRecalibration.GetFmShapeOfKerasShape` | recombination_recalibration.py:30-36 | under either format, reading back a placed feature-map shape recovers it unchanged |
| `RecombinationRecalibration.FormatsAgree` | recombination_recalibration.py:31-34 | `[b, c, h, w]` read channels-first and `[b, h, w, c]` read channels-last give the same `(c, h, w)` |
| `RecombinationRecalibration.ParityHolds` | recombination_recalibration.py:60-62 | the assertion loop passes exactly when every input size and every target size is even |
| `RecombinationRecalibration.TotalCrop` | recombination_recalibration.py:64-65 | one crop per `zip` pair, as many as the shorter list; each crop leaves the target size or one more after cropping both sides |
| `RecombinationRecalibration.SymmetricPairs` | recombination_recalibration.py:67 | one `(crop, crop)` pair per crop: left crop equals right crop |
| `RecombinationRecalibration.CropFromOutput` | recombination_recalibration.py:56-67 | IndexError on a short shape; otherwise succeeds exactly when the target has length 2 and input and target sizes are all even (AssertionError otherwise); two symmetric pairs whose sum cropped from each input size gives the target |
| `RecombinationRecalibration.TotalCropExact` | recombination_recalibration.py:64-65 | when input and target have the same parity, `in - 2 * crop == out` |
| `RecombinationRecalibration.CropBounds` | recombination_recalibration.py:64-67 | a crop is non-negative iff the target is no larger than the input, and at most `in / 2` iff the target is non-negative |
| `RecombinationRecalibration.ShrunkParity` | recombination_recalibration.py:117-120 | `h - 2 * dilation_rate` has the parity of `h` |
| `PythonSemantics.FloorDiv` | recombination_recalibration.py:106 | Python's `//`: the quotient rounded towards minus infinity, for either sign of the divisor |
| `RecombinationRecalibration.Segse` | recombination_recalibration.py:102-123 | IndexError on a short shape, ZeroDivisionError on ratio 0, otherwise succeeds unless padding is 'valid' and `h` or `w` is odd (AssertionError); gate filters equal input channels; compressed filters are `ch // ratio` (floor division bracket for a positive and for a negative ratio); normalisation axis is `_AXIS`, which holds the channel count; 'valid' crops `dilation_rate` from every side, other padding crops nothing |
| `RecombinationRecalibration.Recombination` | recombination_recalibration.py:150-158 | IndexError exactly on a short shape; otherwise compresses back to the input's channel count after expanding to `expansion_factor` times it |
| `RecombinationRecalibration.RecombinationRestoresShape` | recombination_recalibration.py:150-156 | the expansion and compression convolutions give back the input's `(ch, h, w)` |
| `RecombinationRecalibration.RecombinationAndRecalibration` | recombination_recalibration.py:194-210 | same success and error conditions as `segse` on the input; expands to `ch * expansion_factor`, the recalibration gate has that many channels, compresses back to `ch`; under 'valid' the crop is `dilation_rate` per side |
| `RecombinationRecalibration.RRWrapsRecombination` | recombination_recalibration.py:194-208 | the RR-SegSE block uses the recombination block's filter counts and the plan of `segse` on the expanded tensor, and fails exactly when that `segse` fails |

## Left out

- Keras layer semantics (`Conv2D`, `BatchNormalization`, `Activation`, `Cropping2D`, `multiply`): foreign library calls. Only the filter counts, the axis and the crops handed to them are modelled.
- Conv1x1 is an assumption about the framework, not code of this module: `recombination_and_recalibration` needs the expanded tensor's shape to run `segse` on it.
- Whether the two `multiply` operands agree in spatial size: that depends on the framework's padding rules for the dilated convolution.
- Errors the framework would raise (a non-positive filter count, an unknown padding string, a tensor too small for 'valid' padding) are not modelled; such calls succeed in the model.
- Floating-point content: ReLU and sigmoid values, `he_normal` initialisation, regulariser strength.
- The global `K.image_data_format()` read: replaced by the `DataFormat` parameter, the same for `_AXIS` and for every `get_fm_shape` call.
- `_keras_shape` access: a given sequence of naturals. Unknown (`None`) dimensions are not modelled.
- Recombination, RecombinationAndRecalibration: `expansion_factor` is a natural, because a negative factor gives a negative filter count, which only the framework would reject.
- The Python default arguments (`compression_ratio=10`, `expansion_factor=4`, `padding='valid'`) are dropped: every parameter is explicit, and the defaults are covered as ordinary values.
- `dilation_rate` is modelled as an integer; the tuple form the framework also accepts is not.
