/**
 * Tilt compensation for the XP-Pen Artist 15.6 Pro (hid-uclogic-xppen.c):
 * the pen position in an input report is shifted against the pen's tilt by
 * a tangent length looked up in a 64-entry table. The arithmetic is modelled
 * as the C code computes it: s8 tilt bytes, an s8 magnitude, 32-bit int
 * products that wrap, truncating division and clamping. A table index the
 * code would read out of bounds is reported as an outcome of its own.
 * Corrected definitions of the lookup and of the two-axis scale sit beside
 * the literal ones.
 */
module UclogicXppen {
  import opened Common

  /** Number of entries of the driver's tangent table. */
  const TANGENT_COUNT: int := 64

  /** The tangent length at index `i` of the driver's table. */
  function Tangent(i: int): (tan: int)
    requires 0 <= i < TANGENT_COUNT
    ensures 3 <= tan <= 277
  {
    match i
    case 0 => 3
    case 1 => 6
    case 2 => 9
    case 3 => 12
    case 4 => 15
    case 5 => 18
    case 6 => 21
    case 7 => 25
    case 8 => 28
    case 9 => 30
    case 10 => 33
    case 11 => 36
    case 12 => 39
    case 13 => 42
    case 14 => 45
    case 15 => 48
    case 16 => 51
    case 17 => 54
    case 18 => 57
    case 19 => 60
    case 20 => 63
    case 21 => 66
    case 22 => 70
    case 23 => 73
    case 24 => 76
    case 25 => 79
    case 26 => 82
    case 27 => 85
    case 28 => 88
    case 29 => 92
    case 30 => 95
    case 31 => 98
    case 32 => 102
    case 33 => 105
    case 34 => 109
    case 35 => 112
    case 36 => 116
    case 37 => 120
    case 38 => 124
    case 39 => 127
    case 40 => 131
    case 41 => 135
    case 42 => 140
    case 43 => 144
    case 44 => 148
    case 45 => 153
    case 46 => 158
    case 47 => 162
    case 48 => 167
    case 49 => 173
    case 50 => 178
    case 51 => 184
    case 52 => 189
    case 53 => 195
    case 54 => 202
    case 55 => 208
    case 56 => 215
    case 57 => 223
    case 58 => 231
    case 59 => 239
    case 60 => 247
    case 61 => 257
    case 62 => 266
    case _ => 277
  }

  /** sqrt(8) / 4 with nine decimal digits, the factor applied when both axes are tilted. */
  const DISCRIMINANT: int := 707106781
  /** The divisor the driver applies to the two-axis product. */
  const DISCRIMINANT_DIVISOR: int := 10000000
  /** The divisor that makes DISCRIMINANT the factor 0.7071... */
  const DISCRIMINANT_SCALE: int := 1000000000

  /** Largest X and Y the corrected position may take. */
  const X_MAX: int := 34419
  const Y_MAX: int := 19461

  /** Byte offsets in the report: LE16 X and Y, s8 X and Y tilt. */
  const X_OFFSET: nat := 2
  const Y_OFFSET: nat := 4
  const X_TILT_OFFSET: nat := 8
  const Y_TILT_OFFSET: nat := 9

  /** The device's vendor and product, kept symbolic. */
  datatype Product = Artist156Pro | OtherProduct

  /** The report after compensation, or the table index the code would read past the table. */
  datatype TiltOutcome = Done(bytes: seq<bv8>) | OutOfTable(index: int)

  function Clamp(v: int, lo: int, hi: int): (r: int)
    requires lo <= hi
    ensures lo <= r <= hi
    ensures lo <= v <= hi ==> r == v
  {
    if v < lo then lo else if v > hi then hi else v
  }

  /**
   * The tilt magnitude as the driver holds it: abs() of the s8 tilt stored
   * back into an s8, where the magnitude 128 of -128 reads as -128.
   */
  function AbsTilt(t: int): (a: int)
    requires -128 <= t < 128
    ensures -128 <= a < 128
    ensures a == Abs(t) || (t == -128 && a == -128)
  {
    Wrap8(Abs(t))
  }

  /** Reduction of an integer to the s8 range. */
  function Wrap8(x: int): (r: int)
    ensures -128 <= r < 128 && (r - x) % 0x100 == 0
  {
    var m := x % 0x100;
    if m < 0x80 then m else m - 0x100
  }

  /** The sign of a non-zero tilt. */
  function Sign(t: int): int
  {
    if t > 0 then 1 else -1
  }

  /**
   * The amount subtracted from a coordinate for tilt `t` with tangent
   * length `tan`, as the driver computes it: tilt / magnitude times the
   * tangent, and for a two-axis tilt that product times DISCRIMINANT in
   * 32-bit int arithmetic, then divided by DISCRIMINANT_DIVISOR.
   */
  function SkewOffset(t: int, tan: int, twoAxis: bool): (o: int)
    requires -128 <= t < 128 && t != 0
  {
    var sign := DivT(t, AbsTilt(t));
    if twoAxis then DivT(Wrap32(sign * tan * DISCRIMINANT), DISCRIMINANT_DIVISOR) else sign * tan
  }

  /**
   * Compensation of the LE16 coordinate at `off` for tilt `t`, clamped to
   * [0, hi], or None when the tangent lookup falls outside the table.
   */
  function AxisStep(d: seq<bv8>, off: nat, t: int, hi: int, twoAxis: bool): (r: Option<seq<bv8>>)
    requires off + 2 <= |d| && -128 <= t < 128 && t != 0 && 0 <= hi < 0x1_0000
    ensures r.Some? <==> 0 <= AbsTilt(t) < TANGENT_COUNT
    ensures r.Some? ==> |r.value| == |d| && Le16(r.value, off) <= hi
    ensures r.Some? ==> forall k :: 0 <= k < |d| && k != off && k != off + 1 ==> r.value[k] == d[k]
  {
    var a := AbsTilt(t);
    if 0 <= a < TANGENT_COUNT then
      Some(PutLe16(d, off, Clamp(Le16(d, off) - SkewOffset(t, Tangent(a), twoAxis), 0, hi)))
    else
      None
  }

  /** `d` with the LE16 field at `off` set to `v` (put_unaligned_le16). */
  function PutLe16(d: seq<bv8>, off: nat, v: int): (r: seq<bv8>)
    requires off + 2 <= |d| && 0 <= v < 0x1_0000
    ensures |r| == |d| && Le16(r, off) == v
    ensures forall k :: 0 <= k < |d| && k != off && k != off + 1 ==> r[k] == d[k]
  {
    var b := Le16Bytes(v);
    Le16RoundTrip(v);
    d[off := b[0]][off + 1 := b[1]]
  }

  /**
   * The compensation on the Artist 15.6 Pro for the tilts `tx` and `ty`
   * the driver reads from the report before changing it: both axes with
   * the two-axis scale when both are tilted, otherwise the tilted axis.
   */
  function Compensate(d: seq<bv8>, tx: int, ty: int): (r: TiltOutcome)
    requires |d| >= 10 && -128 <= tx < 128 && -128 <= ty < 128
    ensures r.Done? ==> |r.bytes| == |d|
  {
    if tx != 0 && ty != 0 then
      match AxisStep(d, X_OFFSET, tx, X_MAX, true)
      case None => OutOfTable(AbsTilt(tx))
      case Some(d1) =>
        match AxisStep(d1, Y_OFFSET, ty, Y_MAX, true)
        case None => OutOfTable(AbsTilt(ty))
        case Some(d2) => Done(d2)
    else if tx != 0 then
      match AxisStep(d, X_OFFSET, tx, X_MAX, false)
      case None => OutOfTable(AbsTilt(tx))
      case Some(d1) => Done(d1)
    else if ty != 0 then
      match AxisStep(d, Y_OFFSET, ty, Y_MAX, false)
      case None => OutOfTable(AbsTilt(ty))
      case Some(d1) => Done(d1)
    else Done(d)
  }

  /** The effect of uclogic_xppen_apply_tilt_compensation on the report `d`. */
  function TiltSpec(ugee: bool, product: Product, d: seq<bv8>): (r: TiltOutcome)
    requires |d| >= 10
    ensures r.Done? ==> |r.bytes| == |d|
  {
    if ugee && product == Artist156Pro then Compensate(d, S8(d[X_TILT_OFFSET]), S8(d[Y_TILT_OFFSET]))
    else Done(d)
  }

  /** The compensation leaves the report alone for other devices and for an upright pen. */
  lemma TiltNoOp(ugee: bool, product: Product, d: seq<bv8>)
    requires |d| >= 10
    requires !ugee || product != Artist156Pro || (d[X_TILT_OFFSET] == 0 && d[Y_TILT_OFFSET] == 0)
    ensures TiltSpec(ugee, product, d) == Done(d)
  {
  }

  /** Bytes outside the X and Y fields. */
  predicate OutsidePosition(k: int)
  {
    k < X_OFFSET || k >= Y_OFFSET + 2
  }

  lemma CompensateWrites(d: seq<bv8>, tx: int, ty: int)
    requires |d| >= 10 && -128 <= tx < 128 && -128 <= ty < 128
    requires Compensate(d, tx, ty).Done?
    ensures var r := Compensate(d, tx, ty).bytes;
      && (forall k :: 0 <= k < |d| && OutsidePosition(k) ==> r[k] == d[k])
      && (tx == 0 ==> r[X_OFFSET] == d[X_OFFSET] && r[X_OFFSET + 1] == d[X_OFFSET + 1])
      && (ty == 0 ==> r[Y_OFFSET] == d[Y_OFFSET] && r[Y_OFFSET + 1] == d[Y_OFFSET + 1])
      && (tx != 0 ==> Le16(r, X_OFFSET) <= X_MAX)
      && (ty != 0 ==> Le16(r, Y_OFFSET) <= Y_MAX)
  {
    if tx != 0 && ty != 0 {
      var d1 := AxisStep(d, X_OFFSET, tx, X_MAX, true).value;
      var r := AxisStep(d1, Y_OFFSET, ty, Y_MAX, true).value;
      assert r[X_OFFSET] == d1[X_OFFSET] && r[X_OFFSET + 1] == d1[X_OFFSET + 1];
    }
  }

  /**
   * Only the X bytes 2-3 and the Y bytes 4-5 change, each only when its
   * axis is tilted, and a written X lies in [0, 34419], a written Y in
   * [0, 19461].
   */
  lemma TiltWritesOnlyPosition(ugee: bool, product: Product, d: seq<bv8>)
    requires |d| >= 10 && TiltSpec(ugee, product, d).Done?
    ensures var r := TiltSpec(ugee, product, d).bytes;
      var on := ugee && product == Artist156Pro;
      && (forall k :: 0 <= k < |d| && OutsidePosition(k) ==> r[k] == d[k])
      && (!on || S8(d[X_TILT_OFFSET]) == 0 ==> r[X_OFFSET] == d[X_OFFSET] && r[X_OFFSET + 1] == d[X_OFFSET + 1])
      && (!on || S8(d[Y_TILT_OFFSET]) == 0 ==> r[Y_OFFSET] == d[Y_OFFSET] && r[Y_OFFSET + 1] == d[Y_OFFSET + 1])
      && (on && S8(d[X_TILT_OFFSET]) != 0 ==> Le16(r, X_OFFSET) <= X_MAX)
      && (on && S8(d[Y_TILT_OFFSET]) != 0 ==> Le16(r, Y_OFFSET) <= Y_MAX)
  {
    if ugee && product == Artist156Pro {
      CompensateWrites(d, S8(d[X_TILT_OFFSET]), S8(d[Y_TILT_OFFSET]));
    }
  }

  /** tilt / abs_tilt: the sign of the tilt, and 1 for -128, whose s8 magnitude is -128 too. */
  lemma TiltDirection(t: int)
    requires -128 <= t < 128 && t != 0
    ensures DivT(t, AbsTilt(t)) == if t == -128 then 1 else Sign(t)
  {
    if t == -128 {
      assert AbsTilt(t) == -128;
    } else {
      assert AbsTilt(t) == Abs(t);
    }
  }

  /** A tilt the 64-entry table covers: zero, or magnitude at most 63. */
  predicate InTable(t: int)
  {
    -64 < t < 64
  }

  lemma CompensateXOnly(d: seq<bv8>, tx: int)
    requires |d| >= 10 && tx != 0 && InTable(tx)
    ensures Compensate(d, tx, 0) ==
      Done(PutLe16(d, X_OFFSET, Clamp(Le16(d, X_OFFSET) - Sign(tx) * Tangent(Abs(tx)), 0, X_MAX)))
  {
    TiltDirection(tx);
  }

  lemma CompensateYOnly(d: seq<bv8>, ty: int)
    requires |d| >= 10 && ty != 0 && InTable(ty)
    ensures Compensate(d, 0, ty) ==
      Done(PutLe16(d, Y_OFFSET, Clamp(Le16(d, Y_OFFSET) - Sign(ty) * Tangent(Abs(ty)), 0, Y_MAX)))
  {
    TiltDirection(ty);
  }

  /**
   * With only the X axis tilted, by an angle the table covers, X becomes
   * clamp(X - sign(tilt) * tangent, 0, 34419) and nothing else changes.
   */
  lemma TiltXOnly(d: seq<bv8>)
    requires |d| >= 10 && S8(d[Y_TILT_OFFSET]) == 0
    requires var tx := S8(d[X_TILT_OFFSET]); tx != 0 && InTable(tx)
    ensures var tx := S8(d[X_TILT_OFFSET]);
      TiltSpec(true, Artist156Pro, d) ==
        Done(PutLe16(d, X_OFFSET, Clamp(Le16(d, X_OFFSET) - Sign(tx) * Tangent(Abs(tx)), 0, X_MAX)))
  {
    CompensateXOnly(d, S8(d[X_TILT_OFFSET]));
  }

  /** The Y-only case, symmetric to TiltXOnly with the Y field and bound. */
  lemma TiltYOnly(d: seq<bv8>)
    requires |d| >= 10 && S8(d[X_TILT_OFFSET]) == 0
    requires var ty := S8(d[Y_TILT_OFFSET]); ty != 0 && InTable(ty)
    ensures var ty := S8(d[Y_TILT_OFFSET]);
      TiltSpec(true, Artist156Pro, d) ==
        Done(PutLe16(d, Y_OFFSET, Clamp(Le16(d, Y_OFFSET) - Sign(ty) * Tangent(Abs(ty)), 0, Y_MAX)))
  {
    CompensateYOnly(d, S8(d[Y_TILT_OFFSET]));
  }

  lemma CompensateOutOfTableIff(d: seq<bv8>, tx: int, ty: int)
    requires |d| >= 10 && -128 <= tx < 128 && -128 <= ty < 128
    ensures Compensate(d, tx, ty).OutOfTable? <==> !InTable(tx) || !InTable(ty)
  {
  }

  /**
   * On the Artist 15.6 Pro the table is read out of bounds exactly when a
   * tilt has magnitude 64 or more (the byte 0x80, -128, included).
   */
  lemma TiltOutOfTableIff(d: seq<bv8>)
    requires |d| >= 10
    ensures TiltSpec(true, Artist156Pro, d).OutOfTable? <==>
      !InTable(S8(d[X_TILT_OFFSET])) || !InTable(S8(d[Y_TILT_OFFSET]))
  {
    CompensateOutOfTableIff(d, S8(d[X_TILT_OFFSET]), S8(d[Y_TILT_OFFSET]));
  }

  /** Writes the LE16 encoding of `v` at `off` in place (put_unaligned_le16). */
  method StoreLe16(data: array<bv8>, off: nat, v: int)
    requires off + 2 <= data.Length && 0 <= v < 0x1_0000
    modifies data
    ensures data[..] == PutLe16(old(data[..]), off, v)
  {
    var b := Le16Bytes(v);
    data[off] := b[0];
    data[off + 1] := b[1];
  }

  /** Compensates one axis in place; false when the table lookup would be out of bounds. */
  method CompensateAxis(data: array<bv8>, off: nat, t: int, hi: int, twoAxis: bool) returns (ok: bool)
    requires off + 2 <= data.Length && -128 <= t < 128 && t != 0 && 0 <= hi < 0x1_0000
    modifies data
    ensures ok == AxisStep(old(data[..]), off, t, hi, twoAxis).Some?
    ensures ok ==> data[..] == AxisStep(old(data[..]), off, t, hi, twoAxis).value
    ensures !ok ==> data[..] == old(data[..])
  {
    var absTilt := AbsTilt(t);
    if !(0 <= absTilt < TANGENT_COUNT) {
      return false;
    }
    var skew := Le16(data[..], off) - SkewOffset(t, Tangent(absTilt), twoAxis);
    skew := Clamp(skew, 0, hi);
    StoreLe16(data, off, skew);
    return true;
  }

  /**
   * The compensation for the tilts `tx` and `ty` in place: false when the
   * code would read past the tangent table, in which case the report is
   * left as far as the code had got, its other bytes untouched.
   */
  method CompensateReport(data: array<bv8>, tx: int, ty: int) returns (ok: bool)
    requires data.Length >= 10 && -128 <= tx < 128 && -128 <= ty < 128
    modifies data
    ensures ok == Compensate(old(data[..]), tx, ty).Done?
    ensures ok ==> data[..] == Compensate(old(data[..]), tx, ty).bytes
    ensures forall k :: 0 <= k < data.Length && OutsidePosition(k) ==> data[k] == old(data[k])
  {
    if tx != 0 && ty != 0 {
      ok := CompensateAxis(data, X_OFFSET, tx, X_MAX, true);
      if ok {
        ok := CompensateAxis(data, Y_OFFSET, ty, Y_MAX, true);
      }
    } else if tx != 0 {
      ok := CompensateAxis(data, X_OFFSET, tx, X_MAX, false);
    } else if ty != 0 {
      ok := CompensateAxis(data, Y_OFFSET, ty, Y_MAX, false);
    } else {
      ok := true;
    }
  }

  /**
   * uclogic_xppen_apply_tilt_compensation on the report in `data`; false
   * when the code would read past the tangent table.
   */
  method ApplyTiltCompensation(ugee: bool, product: Product, data: array<bv8>) returns (ok: bool)
    requires data.Length >= 10
    modifies data
    ensures ok == TiltSpec(ugee, product, old(data[..])).Done?
    ensures ok ==> data[..] == TiltSpec(ugee, product, old(data[..])).bytes
    ensures forall k :: 0 <= k < data.Length && OutsidePosition(k) ==> data[k] == old(data[k])
  {
    if !ugee || product != Artist156Pro {
      return true;
    }
    var tx := S8(data[X_TILT_OFFSET]);
    var ty := S8(data[Y_TILT_OFFSET]);
    ok := CompensateReport(data, tx, ty);
  }

  // Defects of the driver as written, each with a corrected definition.

  /**
   * As written, a tilt of 64 degrees or more, and the byte 0x80 (-128),
   * index past the 64-entry table.
   */
  lemma TiltTableOverrun(d: seq<bv8>)
    requires |d| >= 10 && d[Y_TILT_OFFSET] == 0
    ensures d[X_TILT_OFFSET] == 64 ==> TiltSpec(true, Artist156Pro, d) == OutOfTable(64)
    ensures d[X_TILT_OFFSET] == 0x80 ==> TiltSpec(true, Artist156Pro, d) == OutOfTable(-128)
  {
    assert S8(0) == 0 && S8(64) == 64 && S8(0x80) == -128;
  }

  /**
   * As written, the two-axis product wraps: a tilt of 1 on both axes moves
   * the position 5 units the wrong way; without the wrap the offset would be
   * 424, seventy times the tangent rather than 0.707 times.
   */
  lemma TwoAxisOffsetWraps()
    ensures Tangent(1) == 6
    ensures SkewOffset(1, Tangent(1), true) == -5
    ensures DivT(6 * DISCRIMINANT, DISCRIMINANT_DIVISOR) == 424
  {
    assert 6 * DISCRIMINANT == 4242640686;
    assert Wrap32(4242640686) == -52326610;
    assert AbsTilt(1) == 1;
  }

  /** The tangent for tilt `t`, magnitudes beyond the table taking its last entry. */
  function CorrectedTangent(t: int): (tan: int)
    requires t != 0
    ensures InTable(t) ==> tan == Tangent(Abs(t))
    ensures !InTable(t) ==> tan == 277
  {
    Tangent(if InTable(t) then Abs(t) else TANGENT_COUNT - 1)
  }

  /**
   * The two-axis offset as intended: sign(t) * tan * sqrt(2) / 2, truncated
   * toward zero, computed without wrap-around.
   */
  function CorrectedTwoAxisOffset(t: int, tan: int): (o: int)
    requires t != 0 && tan >= 0
    ensures t > 0 ==> o >= 0
    ensures t < 0 ==> o <= 0
    ensures Abs(o) * DISCRIMINANT_SCALE <= tan * DISCRIMINANT < (Abs(o) + 1) * DISCRIMINANT_SCALE
    ensures Abs(o) <= tan
  {
    var m := tan * DISCRIMINANT / DISCRIMINANT_SCALE;
    if t > 0 then m else -m
  }

  /** Compensation of one axis with the corrected lookup and scale; it always succeeds. */
  function CorrectedAxis(d: seq<bv8>, off: nat, t: int, hi: int, twoAxis: bool): (r: seq<bv8>)
    requires off + 2 <= |d| && t != 0 && 0 <= hi < 0x1_0000
    ensures |r| == |d| && Le16(r, off) <= hi
    ensures forall k :: 0 <= k < |d| && k != off && k != off + 1 ==> r[k] == d[k]
  {
    var tan := CorrectedTangent(t);
    var o := if twoAxis then CorrectedTwoAxisOffset(t, tan) else Sign(t) * tan;
    PutLe16(d, off, Clamp(Le16(d, off) - o, 0, hi))
  }

  /** The compensation with both defects corrected. */
  function CorrectedTilt(ugee: bool, product: Product, d: seq<bv8>): (r: seq<bv8>)
    requires |d| >= 10
    ensures |r| == |d|
  {
    if !ugee || product != Artist156Pro then d
    else
      var tx := S8(d[X_TILT_OFFSET]);
      var ty := S8(d[Y_TILT_OFFSET]);
      var twoAxis := tx != 0 && ty != 0;
      var d1 := if tx != 0 then CorrectedAxis(d, X_OFFSET, tx, X_MAX, twoAxis) else d;
      if ty != 0 then CorrectedAxis(d1, Y_OFFSET, ty, Y_MAX, twoAxis) else d1
  }

  /**
   * The corrected compensation is defined for every report, changes only
   * the position and keeps X and Y in range.
   */
  lemma CorrectedTiltTotal(d: seq<bv8>)
    requires |d| >= 10
    ensures var r := CorrectedTilt(true, Artist156Pro, d);
      var tx := S8(d[X_TILT_OFFSET]);
      var ty := S8(d[Y_TILT_OFFSET]);
      && (forall k :: 0 <= k < |d| && OutsidePosition(k) ==> r[k] == d[k])
      && (tx != 0 ==> Le16(r, X_OFFSET) <= X_MAX)
      && (ty != 0 ==> Le16(r, Y_OFFSET) <= Y_MAX)
  {
    var tx := S8(d[X_TILT_OFFSET]);
    var ty := S8(d[Y_TILT_OFFSET]);
    var d1 := if tx != 0 then CorrectedAxis(d, X_OFFSET, tx, X_MAX, tx != 0 && ty != 0) else d;
    var r := CorrectedTilt(true, Artist156Pro, d);
    if ty != 0 {
      assert r[X_OFFSET] == d1[X_OFFSET] && r[X_OFFSET + 1] == d1[X_OFFSET + 1];
    }
  }

  /**
   * Where the driver's lookup is in bounds and one axis only is tilted,
   * the corrected compensation gives what the driver gives.
   */
  lemma CorrectedTiltAgrees(d: seq<bv8>)
    requires |d| >= 10
    requires var tx, ty := S8(d[X_TILT_OFFSET]), S8(d[Y_TILT_OFFSET]);
      InTable(tx) && InTable(ty) && (tx == 0 || ty == 0)
    ensures TiltSpec(true, Artist156Pro, d) == Done(CorrectedTilt(true, Artist156Pro, d))
  {
    var tx := S8(d[X_TILT_OFFSET]);
    var ty := S8(d[Y_TILT_OFFSET]);
    if tx != 0 {
      TiltXOnly(d);
      CorrectedOneAxis(d, X_OFFSET, tx, X_MAX);
    } else if ty != 0 {
      TiltYOnly(d);
      CorrectedOneAxis(d, Y_OFFSET, ty, Y_MAX);
    }
  }

  lemma CorrectedOneAxis(d: seq<bv8>, off: nat, t: int, hi: int)
    requires off + 2 <= |d| && t != 0 && InTable(t) && 0 <= hi < 0x1_0000
    ensures CorrectedAxis(d, off, t, hi, false) == PutLe16(d, off, Clamp(Le16(d, off) - Sign(t) * Tangent(Abs(t)), 0, hi))
  {
  }
}
