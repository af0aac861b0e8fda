/**
 * `_get_coco_ssd_output_tensor`: an output tensor is returned as is when its
 * details carry no `'quantization'` entry, shifted by the zero point when the
 * scale is 0, and otherwise shifted and scaled.
 */
module Quantization {

  /** The `'quantization'` entry of an output tensor's details, if present. */
  datatype Quantization = NoQuantization | Quantized(scale: real, zeroPoint: int)

  /** The value the backend would have stored for `v` under affine quantization
      (before rounding), i.e. the inverse of Dequantize. */
  function Quantize(q: Quantization, v: real): real {
    match q
    case NoQuantization => v
    case Quantized(scale, zp) => if scale == 0.0 then v + zp as real else v / scale + zp as real
  }

  /** One value of the tensor after dequantization. */
  function DequantizeValue(q: Quantization, raw: real): (v: real)
    ensures Quantize(q, v) == raw
  {
    match q
    case NoQuantization => raw
    case Quantized(scale, zp) =>
      if scale == 0.0 then raw - zp as real else scale * (raw - zp as real)
  }

  /** With a non-negative scale dequantization keeps the order of values, so a
      threshold on dequantized scores is a threshold on raw scores. */
  lemma DequantizeMonotone(q: Quantization, x: real, y: real)
    requires q.Quantized? ==> q.scale >= 0.0
    requires x <= y
    ensures DequantizeValue(q, x) <= DequantizeValue(q, y)
  {
    if q.Quantized? && q.scale > 0.0 {
      assert q.scale * (y - x) >= 0.0;
    }
  }

  /** The whole tensor, element by element (numpy broadcasting). */
  function Dequantize(q: Quantization, raw: seq<real>): (vs: seq<real>)
    ensures |vs| == |raw|
    ensures forall i :: 0 <= i < |raw| ==> Quantize(q, vs[i]) == raw[i]
  {
    seq(|raw|, i requires 0 <= i < |raw| => DequantizeValue(q, raw[i]))
  }

  /** A tensor of rows (the boxes), element by element. */
  function DequantizeRows(q: Quantization, raw: seq<seq<real>>): (rows: seq<seq<real>>)
    ensures |rows| == |raw|
    ensures forall i :: 0 <= i < |raw| ==> |rows[i]| == |raw[i]|
    ensures forall i, j :: 0 <= i < |raw| && 0 <= j < |raw[i]| ==> Quantize(q, rows[i][j]) == raw[i][j]
  {
    seq(|raw|, i requires 0 <= i < |raw| => Dequantize(q, raw[i]))
  }

  /** Without quantization, and with scale 1 and zero point 0, the tensor is unchanged. */
  lemma DequantizeIdentity(q: Quantization, raw: seq<real>)
    requires q == NoQuantization || q == Quantized(1.0, 0)
    ensures Dequantize(q, raw) == raw
  {
  }

  /** With scale 0 every value is only shifted by the zero point. */
  lemma DequantizeZeroScale(zp: int, raw: seq<real>)
    ensures forall i :: 0 <= i < |raw| ==> Dequantize(Quantized(0.0, zp), raw)[i] == raw[i] - zp as real
  {
  }
}
