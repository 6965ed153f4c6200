/** Shape and crop arithmetic of the SegSE, recombination and RR-SegSE blocks.

    A tensor is seen only through its static shape: a sequence of naturals whose
    index 0 is the batch size and whose other entries hold the channel count and
    the two spatial sizes, in an order fixed by the framework's data format.
    Each block becomes a function from that shape and the block's parameters to
    the filter counts, normalisation axis and crops it hands to the framework's
    layers, or to the Python exception it raises. */
module RecombinationRecalibration {
  import opened PythonSemantics

  /** The framework's image data format. */
  datatype DataFormat = ChannelsFirst | ChannelsLast

  /** A feature map's shape without the batch size. */
  datatype FmShape = FmShape(ch: nat, h: nat, w: nat)

  /** Reading of the framework's configuration string: every value other than
      "channels_first" selects the channels-last branch. */
  function FormatOf(imageDataFormat: string): (f: DataFormat)
    ensures f == ChannelsFirst <==> imageDataFormat == "channels_first"
  {
    if imageDataFormat == "channels_first" then ChannelsFirst else ChannelsLast
  }

  /** `_AXIS`: the index of the channel axis in a batched 4-d shape. */
  function ChannelAxis(f: DataFormat): (axis: nat)
    ensures axis == 1 || axis == 3
    ensures axis == 1 <==> f == ChannelsFirst
  {
    if f == ChannelsFirst then 1 else 3
  }

  /** The batched 4-d shape that a feature map of shape `fm` has under format `f`;
      the inverse of `GetFmShape`. */
  function KerasShape(f: DataFormat, batch: nat, fm: FmShape): (s: seq<nat>)
    ensures |s| == 4 && s[0] == batch && s[ChannelAxis(f)] == fm.ch
  {
    match f
    case ChannelsFirst => [batch, fm.ch, fm.h, fm.w]
    case ChannelsLast => [batch, fm.h, fm.w, fm.ch]
  }

  /** `get_fm_shape`: reads `(ch, h, w)` from a batched shape. Indexing a shape
      with fewer than four entries raises IndexError; longer shapes are read at
      indices 1 to 3 only, as Python does. */
  function GetFmShape(f: DataFormat, s: seq<nat>): (r: Result<FmShape>)
    ensures r.Ok? <==> |s| >= 4
    ensures r.Err? ==> r.error == IndexError
    ensures r.Ok? ==> KerasShape(f, s[0], r.value) == s[..4]
    ensures r.Ok? ==> r.value.ch == s[ChannelAxis(f)]
  {
    if |s| < 4 then Err(IndexError)
    else match f
      case ChannelsFirst => Ok(FmShape(s[1], s[2], s[3]))
      case ChannelsLast => Ok(FmShape(s[3], s[1], s[2]))
  }

  /** Whatever the format, placing a feature map into a batched shape and reading
      it back gives the same `(ch, h, w)`. */
  lemma GetFmShapeOfKerasShape(f: DataFormat, batch: nat, fm: FmShape)
    ensures GetFmShape(f, KerasShape(f, batch, fm)) == Ok(fm)
  {
  }

  /** The same tensor laid out channels-first as `[b, c, h, w]` and channels-last
      as `[b, h, w, c]` yields the same logical shape. */
  lemma FormatsAgree(b: nat, c: nat, h: nat, w: nat)
    ensures GetFmShape(ChannelsFirst, [b, c, h, w]) == GetFmShape(ChannelsLast, [b, h, w, c])
    ensures GetFmShape(ChannelsFirst, [b, c, h, w]) == Ok(FmShape(c, h, w))
  {
  }

  /** The spatial part `(h, w)` of a feature-map shape. */
  function Spatial(fm: FmShape): seq<int>
  {
    [fm.h, fm.w]
  }

  /** The assertion loop of `get_crop_from_output`: every input and every target
      size is even. */
  function ParityHolds(ins: seq<int>, outs: seq<int>): (ok: bool)
    requires |ins| == |outs|
    ensures ok <==> forall i :: 0 <= i < |ins| ==> ins[i] % 2 == 0 && outs[i] % 2 == 0
  {
    // Python's % and Dafny's agree for the positive divisor 2.
    |ins| == 0 || (ins[0] % 2 == 0 && outs[0] % 2 == 0 && ParityHolds(ins[1..], outs[1..]))
  }

  /** `[(i_s - o_s) // 2 for i_s, o_s in zip(ins, outs)]`: `zip` stops at the
      shorter list, and each entry is the largest crop per side that leaves at
      least the target size. */
  function TotalCrop(ins: seq<int>, outs: seq<int>): (crop: seq<int>)
    ensures |crop| == (if |ins| <= |outs| then |ins| else |outs|)
    ensures forall i :: 0 <= i < |crop| ==> 0 <= ins[i] - 2 * crop[i] - outs[i] <= 1
  {
    if |ins| == 0 || |outs| == 0 then []
    else [FloorDiv(ins[0] - outs[0], 2)] + TotalCrop(ins[1..], outs[1..])
  }

  /** `tuple((crop, crop) for crop in total_crop)`. */
  function SymmetricPairs(crop: seq<int>): (pairs: seq<(int, int)>)
    ensures |pairs| == |crop|
    ensures forall i :: 0 <= i < |pairs| ==> pairs[i].0 == crop[i] && pairs[i].1 == crop[i]
  {
    if crop == [] then [] else [(crop[0], crop[0])] + SymmetricPairs(crop[1..])
  }

  /** `get_crop_from_output`: the crop per side of each spatial dimension that
      brings the input's `(h, w)` to `outputShape`. It raises IndexError when the
      shape is too short, and AssertionError unless the target has two entries
      and all four sizes are even. */
  function CropFromOutput(f: DataFormat, s: seq<nat>, outputShape: seq<int>): (r: Result<seq<(int, int)>>)
    ensures |s| < 4 ==> r == Err(IndexError)
    ensures r.Ok? <==>
      |s| >= 4 && |outputShape| == 2 &&
      (forall i :: 0 <= i < 2 ==> Spatial(GetFmShape(f, s).value)[i] % 2 == 0 && outputShape[i] % 2 == 0)
    ensures r.Err? && |s| >= 4 ==> r.error == AssertionError
    ensures r.Ok? ==>
      |r.value| == 2 &&
      forall i :: 0 <= i < 2 ==>
        r.value[i].0 == r.value[i].1 &&
        Spatial(GetFmShape(f, s).value)[i] - r.value[i].0 - r.value[i].1 == outputShape[i]
  {
    match GetFmShape(f, s)
    case Err(e) => Err(e)
    case Ok(fm) =>
      var inputShape := Spatial(fm);
      if |inputShape| != |outputShape| then Err(AssertionError)
      else if !ParityHolds(inputShape, outputShape) then Err(AssertionError)
      else Ok(SymmetricPairs(TotalCrop(inputShape, outputShape)))
  }

  /** When the input and target sizes have the same parity, cropping
      `(in - out) // 2` from each side gives the target exactly. */
  lemma {:induction false} TotalCropExact(ins: seq<int>, outs: seq<int>, i: nat)
    requires i < |ins| && i < |outs|
    requires ins[i] % 2 == outs[i] % 2
    ensures ins[i] - 2 * TotalCrop(ins, outs)[i] == outs[i]
  {
    var c := TotalCrop(ins, outs)[i];
    assert 0 <= ins[i] - 2 * c - outs[i] <= 1;
    // Both sizes split into twice a half plus the same remainder, so their
    // difference is twice the difference of the halves.
    assert ins[i] == 2 * (ins[i] / 2) + ins[i] % 2;
    assert outs[i] == 2 * (outs[i] / 2) + outs[i] % 2;
    assert ins[i] - outs[i] == 2 * (ins[i] / 2 - outs[i] / 2);
  }

  /** A crop is non-negative exactly when the target is no larger than the input,
      and at most half the input exactly when the target is non-negative. */
  lemma CropBounds(f: DataFormat, s: seq<nat>, outputShape: seq<int>, i: nat)
    requires CropFromOutput(f, s, outputShape).Ok? && i < 2
    ensures var c := CropFromOutput(f, s, outputShape).value[i].0;
            var n := Spatial(GetFmShape(f, s).value)[i];
            (0 <= c <==> outputShape[i] <= n) && (c <= n / 2 <==> 0 <= outputShape[i])
  {
  }

  /** Subtracting twice the dilation rate keeps the parity of a size. */
  lemma ShrunkParity(n: int, dilationRate: int)
    ensures (n - dilationRate * 2) % 2 == n % 2
  {
  }

  /** What `segse` hands to the framework. */
  datatype SegsePlan = SegsePlan(
    compressFilters: int,                // filters of the dilated 3x3 convolution
    normAxis: nat,                       // axis given to batch normalisation
    gateFilters: nat,                    // filters of the 1x1 convolution behind the sigmoid gate
    inputCrop: Option<seq<(int, int)>>)  // crop applied to the input before the multiply

  /** `segse`: compresses the channels by `compressionRatio` (floor division,
      ZeroDivisionError on 0), restores them for the gate and, under 'valid'
      padding, crops the input by the amount `get_crop_from_output` computes for
      the target `(h - 2 * dilationRate, w - 2 * dilationRate)`. */
  function Segse(f: DataFormat, s: seq<nat>, dilationRate: int, compressionRatio: int, padding: string): (r: Result<SegsePlan>)
    ensures r.Ok? <==>
      |s| >= 4 && compressionRatio != 0 &&
      (padding == "valid" ==> GetFmShape(f, s).value.h % 2 == 0 && GetFmShape(f, s).value.w % 2 == 0)
    ensures |s| < 4 ==> r == Err(IndexError)
    ensures |s| >= 4 && compressionRatio == 0 ==> r == Err(ZeroDivisionError)
    ensures |s| >= 4 && compressionRatio != 0 && r.Err? ==> r.error == AssertionError
    ensures r.Ok? ==> r.value.gateFilters == GetFmShape(f, s).value.ch
    ensures r.Ok? ==> r.value.normAxis == ChannelAxis(f)
    ensures r.Ok? ==> r.value.normAxis < |s| && s[r.value.normAxis] == GetFmShape(f, s).value.ch
    ensures r.Ok? && compressionRatio > 0 ==>
      var c := r.value.compressFilters;
      c * compressionRatio <= r.value.gateFilters < c * compressionRatio + compressionRatio
    ensures r.Ok? && compressionRatio < 0 ==>
      var c := r.value.compressFilters;
      c * compressionRatio + compressionRatio < r.value.gateFilters <= c * compressionRatio
    ensures r.Ok? && padding == "valid" ==>
      r.value.inputCrop == Some([(dilationRate, dilationRate), (dilationRate, dilationRate)])
    ensures r.Ok? && padding != "valid" ==> r.value.inputCrop == None
  {
    match GetFmShape(f, s)
    case Err(e) => Err(e)
    case Ok(fm) =>
      if compressionRatio == 0 then Err(ZeroDivisionError)
      else
        var compress := FloorDiv(fm.ch, compressionRatio);
        if padding == "valid" then
          var target := [fm.h - dilationRate * 2, fm.w - dilationRate * 2];
          ShrunkParity(fm.h, dilationRate);
          ShrunkParity(fm.w, dilationRate);
          match CropFromOutput(f, s, target)
          case Err(e) => Err(e)
          case Ok(crop) =>
            assert crop == [(dilationRate, dilationRate), (dilationRate, dilationRate)] by {
              assert Spatial(fm)[0] - 2 * crop[0].0 == target[0];
              assert Spatial(fm)[1] - 2 * crop[1].0 == target[1];
            }
            Ok(SegsePlan(compress, ChannelAxis(f), fm.ch, Some(crop)))
        else Ok(SegsePlan(compress, ChannelAxis(f), fm.ch, None))
  }

  /** The shape produced by a 1x1 convolution with unit stride: `filters`
      channels, height and width unchanged. This is the framework's rule,
      assumed here because `recombination_and_recalibration` feeds such an
      output to `segse`. */
  function Conv1x1(fm: FmShape, filters: nat): FmShape
  {
    FmShape(filters, fm.h, fm.w)
  }

  /** What `recombination` hands to the framework. */
  datatype RecombinationPlan = RecombinationPlan(expandFilters: nat, compressFilters: nat)

  /** `recombination`: a 1x1 convolution to `ch * expansionFactor` channels, then
      one back to `ch`. */
  function Recombination(f: DataFormat, s: seq<nat>, expansionFactor: nat): (r: Result<RecombinationPlan>)
    ensures r.Ok? <==> |s| >= 4
    ensures r.Err? ==> r.error == IndexError
    ensures r.Ok? ==> r.value.compressFilters == s[ChannelAxis(f)]
    ensures r.Ok? ==> r.value.expandFilters == expansionFactor * r.value.compressFilters
  {
    match GetFmShape(f, s)
    case Err(e) => Err(e)
    case Ok(fm) => Ok(RecombinationPlan(fm.ch * expansionFactor, fm.ch))
  }

  /** The two convolutions of `recombination` give back the input's feature-map
      shape. */
  lemma RecombinationRestoresShape(f: DataFormat, s: seq<nat>, expansionFactor: nat)
    requires |s| >= 4
    ensures var fm := GetFmShape(f, s).value;
            var p := Recombination(f, s, expansionFactor).value;
            Conv1x1(Conv1x1(fm, p.expandFilters), p.compressFilters) == fm
  {
  }

  /** What `recombination_and_recalibration` hands to the framework. */
  datatype RRPlan = RRPlan(expandFilters: nat, recalibration: SegsePlan, compressFilters: nat)

  /** `recombination_and_recalibration`: expansion to `ch * expansionFactor`
      channels, `segse` on the expanded tensor, compression back to `ch`. */
  function RecombinationAndRecalibration(
    f: DataFormat, s: seq<nat>, dilationRate: int, compressionRatio: int,
    expansionFactor: nat, padding: string): (r: Result<RRPlan>)
    ensures r.Ok? <==>
      |s| >= 4 && compressionRatio != 0 &&
      (padding == "valid" ==> GetFmShape(f, s).value.h % 2 == 0 && GetFmShape(f, s).value.w % 2 == 0)
    ensures |s| < 4 ==> r == Err(IndexError)
    ensures |s| >= 4 && compressionRatio == 0 ==> r == Err(ZeroDivisionError)
    ensures |s| >= 4 && compressionRatio != 0 && r.Err? ==> r.error == AssertionError
    ensures r.Ok? ==> r.value.compressFilters == s[ChannelAxis(f)]
    ensures r.Ok? ==> r.value.expandFilters == expansionFactor * r.value.compressFilters
    ensures r.Ok? ==> r.value.recalibration.gateFilters == r.value.expandFilters
    ensures r.Ok? && padding == "valid" ==>
      r.value.recalibration.inputCrop == Some([(dilationRate, dilationRate), (dilationRate, dilationRate)])
  {
    match GetFmShape(f, s)
    case Err(e) => Err(e)
    case Ok(fm) =>
      var expanded := Conv1x1(fm, fm.ch * expansionFactor);
      var x := KerasShape(f, s[0], expanded);
      GetFmShapeOfKerasShape(f, s[0], expanded);
      match Segse(f, x, dilationRate, compressionRatio, padding)
      case Err(e) => Err(e)
      case Ok(plan) => Ok(RRPlan(expanded.ch, plan, fm.ch))
  }

  /** The RR-SegSE block is the recombination block with `segse` inserted between
      its expansion and its compression: same filter counts, and it fails exactly
      when `segse` on the expanded tensor fails. */
  lemma RRWrapsRecombination(
    f: DataFormat, s: seq<nat>, dilationRate: int, compressionRatio: int,
    expansionFactor: nat, padding: string)
    requires |s| >= 4
    ensures var rec := Recombination(f, s, expansionFactor).value;
            var fm := GetFmShape(f, s).value;
            var x := KerasShape(f, s[0], Conv1x1(fm, rec.expandFilters));
            var rr := RecombinationAndRecalibration(f, s, dilationRate, compressionRatio, expansionFactor, padding);
            var se := Segse(f, x, dilationRate, compressionRatio, padding);
            rr.Ok? == se.Ok? &&
            (rr.Ok? ==> rr.value == RRPlan(rec.expandFilters, se.value, rec.compressFilters))
  {
  }
}
