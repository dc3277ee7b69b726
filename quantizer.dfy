/**
 * The 4-bit quantisation placeholder: `quantize_int4` hands the weights back
 * unchanged with unit scales and zero zero-points, and `dequantize_int4`
 * multiplies by the scales and subtracts the zero-points when there are any.
 * Over the reals the pair is an exact round trip.
 */
module Quantization {
  import opened Wrappers
  import opened Tensors

  /** The triple returned by `quantize_int4`. */
  datatype Quantized = Quantized(weights: Tensor, scales: Tensor, zeroPoints: Tensor)

  /**
   * Placeholder quantisation. Per channel there is one scale per element of
   * the last axis, otherwise a single one; zero-points mirror the scales when
   * requested and are an empty array otherwise. The scale and zero-point
   * element type follows the weights (all values are reals here).
   */
  function QuantizeInt4(w: Tensor, useZeroPoint: bool, perChannel: bool): (r: Quantized)
    requires perChannel ==> |w.shape| > 0
    ensures r.weights == w
    ensures r.scales.shape == (if perChannel then [Last(w.shape)] else [1])
    ensures forall k :: 0 <= k < |r.scales.data| ==> r.scales.data[k] == 1.0
    ensures useZeroPoint ==> r.zeroPoints.shape == r.scales.shape
    ensures useZeroPoint ==> forall k :: 0 <= k < |r.zeroPoints.data| ==> r.zeroPoints.data[k] == 0.0
    ensures !useZeroPoint ==> Size(r.zeroPoints.shape) == 0
  {
    var channels: nat := if perChannel then Last(w.shape) else 1;
    var scales := Ones([channels]);
    var zeroPoints := if useZeroPoint then Zeros([channels]) else EmptyArray;
    Size1(0);
    Quantized(w, scales, zeroPoints)
  }

  /**
   * `dequantize_int4`: `weights * scales`, then `- zero_points` only when the
   * zero-point array has elements; both steps broadcast numpy-style.
   */
  function DequantizeInt4(q: Tensor, scales: Tensor, zeroPoints: Tensor): (r: Result<Tensor, TensorError>)
    ensures Broadcasts(q.shape, scales.shape) && (Size(zeroPoints.shape) == 0 || Broadcasts(q.shape, zeroPoints.shape)) ==>
      r.Success? && r.value.shape == q.shape &&
      forall k :: 0 <= k < |q.data| ==>
        |scales.data| > 0 &&
        (Size(zeroPoints.shape) == 0 ==> r.value.data[k] == q.data[k] * scales.data[k % |scales.data|]) &&
        (Size(zeroPoints.shape) > 0 ==>
          r.value.data[k] == q.data[k] * scales.data[k % |scales.data|] - zeroPoints.data[k % |zeroPoints.data|])
    ensures r.Success? <==>
      BroadcastShape(q.shape, scales.shape).Some? &&
      (Size(zeroPoints.shape) == 0 || BroadcastShape(BroadcastShape(q.shape, scales.shape).value, zeroPoints.shape).Some?)
    ensures r.Success? ==>
      var scaledShape := BroadcastShape(q.shape, scales.shape).value;
      r.value.shape == if Size(zeroPoints.shape) == 0 then scaledShape else BroadcastShape(scaledShape, zeroPoints.shape).value
  {
    var scaled :- Multiply(q, scales);
    if Size(zeroPoints.shape) > 0 then
      var r := Subtract(scaled, zeroPoints);
      assert Broadcasts(q.shape, scales.shape) && Broadcasts(q.shape, zeroPoints.shape) ==>
        r.Success? && forall k :: 0 <= k < |q.data| ==>
          r.value.data[k] == scaled.data[k] - zeroPoints.data[k % |zeroPoints.data|];
      r
    else
      Success(scaled)
  }

  /** Over the reals, dequantising the placeholder quantisation gives back the weights, for every flag combination. */
  lemma DequantizeQuantizeRoundTrip(w: Tensor, useZeroPoint: bool, perChannel: bool)
    requires |w.shape| > 0
    ensures var q := QuantizeInt4(w, useZeroPoint, perChannel);
      DequantizeInt4(q.weights, q.scales, q.zeroPoints) == Success(w)
  {
    var q := QuantizeInt4(w, useZeroPoint, perChannel);
    assert Broadcasts(w.shape, q.scales.shape);
    BroadcastSize(w.shape, q.scales.shape);
    var r := DequantizeInt4(q.weights, q.scales, q.zeroPoints);
    assert r.Success? && r.value.shape == w.shape;
    forall k | 0 <= k < |w.data|
      ensures r.value.data[k] == w.data[k]
    {
      assert q.scales.data[k % |q.scales.data|] == 1.0;
      if Size(q.zeroPoints.shape) > 0 {
        assert q.zeroPoints.data[k % |q.zeroPoints.data|] == 0.0;
      }
    }
    assert r.value.data == w.data;
  }

  /**
   * A zero-dimensional weight quantised with a single scale comes back with
   * one axis of length one: the broadcast of a `[]` array with a `[1]` array.
   */
  lemma ScalarRoundTripGainsAxis(w: Tensor, useZeroPoint: bool)
    requires w.shape == []
    ensures var q := QuantizeInt4(w, useZeroPoint, false);
      var r := DequantizeInt4(q.weights, q.scales, q.zeroPoints);
      r.Success? && r.value.shape == [1] && r.value.data == w.data
  {
    var q := QuantizeInt4(w, useZeroPoint, false);
    var scaled := Multiply(q.weights, q.scales);
    assert scaled.Success? && scaled.value.shape == [1];
    Size1(1);
    if useZeroPoint {
      assert Broadcasts(scaled.value.shape, q.zeroPoints.shape);
    }
  }

  /**
   * Broadcasting is numpy's: a one-element weight array meets four
   * per-channel scales and gives four elements.
   */
  lemma SingleWeightMeetsChannelScales()
    ensures DequantizeInt4(Tensor([1], [2.0]), Tensor([4], [1.0, 1.0, 1.0, 1.0]), EmptyArray) ==
      Success(Tensor([4], [2.0, 2.0, 2.0, 2.0]))
  {
    Size1(1);
    Size1(4);
    Size1(0);
    assert BroadcastShape([1], [4]) == Some([4]) by {
      assert Init([1]) == [] && Init([4]) == [];
    }
    var r := DequantizeInt4(Tensor([1], [2.0]), Tensor([4], [1.0, 1.0, 1.0, 1.0]), EmptyArray);
    forall k | 0 <= k < 4
      ensures BroadcastIndex([1], [4], k) == 0 && BroadcastIndex([4], [4], k) == k
    {
      assert Init([1]) == [] && Init([4]) == [];
    }
    assert r.value.data == [2.0, 2.0, 2.0, 2.0];
  }

}
