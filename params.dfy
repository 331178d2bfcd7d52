/**
 * Tablet interface parameter discovery (hid-uclogic-params.c): decoding of
 * the vendor calibration string descriptors, derivation of the physical
 * extents, the pen and frame probes with their three-way outcome, the
 * merge of pen and frame fragments into one parameter record, and the
 * VID/PID/interface dispatch of uclogic_params_probe.
 *
 * USB transfers are inputs: each string descriptor the driver requests is
 * given as a Reply. The extern template and fixed descriptor arrays, and
 * the report IDs defined next to them, are fields of an Externs record.
 */
module UclogicParams {
  import opened Common
  import opened UclogicRdesc

  /* ---------------------------------------------------------------- */
  /* Pen in-range reporting type                                       */
  /* ---------------------------------------------------------------- */

  /** How the pen reports proximity (enum uclogic_params_pen_inrange; NORMAL is the zero value). */
  datatype PenInrange = InrangeNormal | InrangeInverted | InrangeNone

  /** The name of an in-range type (uclogic_params_pen_inrange_to_str). */
  function InrangeToStr(inrange: PenInrange): (s: string)
    ensures |s| > 0
  {
    match inrange
    case InrangeNormal => "normal"
    case InrangeInverted => "inverted"
    case InrangeNone => "none"
  }

  /** Reference inverse of InrangeToStr: the type a name stands for, if any. */
  function InrangeFromStr(s: string): (r: Option<PenInrange>)
  {
    if s == "normal" then Some(InrangeNormal)
    else if s == "inverted" then Some(InrangeInverted)
    else if s == "none" then Some(InrangeNone)
    else None
  }

  /** Every in-range type has its own name, and the name leads back to it. */
  lemma InrangeStrRoundTrip(a: PenInrange, b: PenInrange)
    ensures InrangeFromStr(InrangeToStr(a)) == Some(a)
    ensures InrangeToStr(a) == InrangeToStr(b) ==> a == b
  {
    match a
    case InrangeNormal =>
      assert InrangeToStr(a) != "inverted" && InrangeToStr(a) != "none";
    case InrangeInverted =>
      assert InrangeToStr(a) != "normal" && InrangeToStr(a) != "none";
    case InrangeNone =>
      assert InrangeToStr(a) != "normal" && InrangeToStr(a) != "inverted";
  }

  /* ---------------------------------------------------------------- */
  /* Inputs: USB replies and the extern descriptor data                */
  /* ---------------------------------------------------------------- */

  /** A positive errno value; the transfer functions return its negation. */
  type Errno = e: int | e > 0 witness EPIPE

  /**
   * The result of one string descriptor request: a failure with its errno,
   * or the bytes received (the return value is then their count).
   */
  datatype Reply = ReplyError(errno: Errno) | ReplyData(bytes: seq<bv8>)

  /** Result of a probe: a negative errno, or success with or without a finding. */
  datatype Outcome<T> = Error(rc: int) | Success(found: Option<T>)
  {
    /** Success with a result. */
    predicate Found()
    {
      Success? && found.Some?
    }
  }

  /**
   * The descriptor arrays and report IDs that the rdesc module defines
   * outside the modelled code; a parameter of every probe that uses them.
   */
  datatype Externs = Externs(
    penV1Template: seq<bv8>, penV2Template: seq<bv8>,
    penV1Id: nat, penV2Id: nat,
    buttonpadV1: seq<bv8>, buttonpadV2: seq<bv8>,
    buttonpadV1Id: nat, buttonpadV2Id: nat,
    pf1209Fixed: seq<bv8>, wp4030uFixed: seq<bv8>, wp5540uFixed: seq<bv8>,
    wp8060uFixed: seq<bv8>, wp1062Fixed: seq<bv8>,
    twhl850Fixed0: seq<bv8>, twhl850Fixed1: seq<bv8>, twhl850Fixed2: seq<bv8>,
    twha60Fixed0: seq<bv8>, twha60Fixed1: seq<bv8>,
    deco01Frame: seq<bv8>,
    g5Frame: seq<bv8>, g5FrameId: nat, g5FrameReLsb: nat, g5FrameDevIdByte: nat,
    ex07Buttonpad: seq<bv8>)

  /* ---------------------------------------------------------------- */
  /* Calibration replies                                               */
  /* ---------------------------------------------------------------- */

  /** Reply lengths the v1 and v2 pen probes require. */
  const V1_LEN: nat := 12
  const V2_LEN: nat := 18

  /** String descriptor indices holding the v1 and v2 pen parameters and the button-mode switch. */
  const V1_STRING_INDEX: nat := 100
  const V2_STRING_INDEX: nat := 200
  const BUTTONPAD_V1_STRING_INDEX: nat := 123

  /** Pen calibration carried by a parameter string descriptor. */
  datatype Calibration = Calibration(xLm: int, yLm: int, pressureLm: int, resolution: int)

  /** Value of the 24-bit little-endian field at `off` (uclogic_params_get_le24). */
  function Le24(b: seq<bv8>, off: nat): (v: int)
    requires off + 3 <= |b|
    ensures 0 <= v < 0x100_0000
  {
    b[off] as int + 0x100 * (b[off + 1] as int + 0x100 * b[off + 2] as int)
  }

  /** The three little-endian bytes of the low 24 bits of `v`. */
  function Le24Bytes(v: int): (r: seq<bv8>)
    ensures |r| == 3
  {
    var u0 := v % 0x100_0000;
    var u1 := u0 / 0x100;
    [Byte(u0 % 0x100), Byte(u1 % 0x100), Byte(u1 / 0x100)]
  }

  lemma Le24RoundTrip(v: int)
    ensures Le24(Le24Bytes(v), 0) == v % 0x100_0000
  {
    var u0 := v % 0x100_0000;
    var u1 := u0 / 0x100;
    var b := Le24Bytes(v);
    assert b[0] as int == u0 % 0x100 && b[1] as int == u1 % 0x100 && b[2] as int == u1 / 0x100;
    assert u0 == u0 % 0x100 + 0x100 * (u1 % 0x100 + 0x100 * (u1 / 0x100));
  }

  lemma Le24At(b: seq<bv8>, off: nat, v: int)
    requires off + 3 <= |b| && b[off..off + 3] == Le24Bytes(v)
    ensures Le24(b, off) == v % 0x100_0000
  {
    Le24RoundTrip(v);
    assert b[off] == b[off..off + 3][0] && b[off + 1] == b[off..off + 3][1] && b[off + 2] == b[off..off + 3][2];
  }

  lemma Le16At(b: seq<bv8>, off: nat, v: int)
    requires off + 2 <= |b| && b[off..off + 2] == Le16Bytes(v)
    ensures Le16(b, off) == v % 0x1_0000
  {
    Le16RoundTrip(v);
    assert b[off] == b[off..off + 2][0] && b[off + 1] == b[off..off + 2][1];
  }

  /** The calibration of a v1 reply: LE16 X, Y, pressure and resolution at offsets 2, 4, 8, 10. */
  function DecodeV1(buf: seq<bv8>): (c: Calibration)
    requires |buf| == V1_LEN
    ensures 0 <= c.xLm < 0x1_0000 && 0 <= c.yLm < 0x1_0000
    ensures 0 <= c.pressureLm < 0x1_0000 && 0 <= c.resolution < 0x1_0000
  {
    Calibration(Le16(buf, 2), Le16(buf, 4), Le16(buf, 8), Le16(buf, 10))
  }

  /** The calibration of a v2 reply: LE24 X and Y at 2 and 5, LE16 pressure and resolution at 8 and 10. */
  function DecodeV2(buf: seq<bv8>): (c: Calibration)
    requires |buf| == V2_LEN
    ensures 0 <= c.xLm < 0x100_0000 && 0 <= c.yLm < 0x100_0000
    ensures 0 <= c.pressureLm < 0x1_0000 && 0 <= c.resolution < 0x1_0000
  {
    Calibration(Le24(buf, 2), Le24(buf, 5), Le16(buf, 8), Le16(buf, 10))
  }

  /** A v1 reply carrying `c`, with a string descriptor header and zero filler bytes. */
  function EncodeV1(c: Calibration): (buf: seq<bv8>)
    ensures |buf| == V1_LEN
  {
    [V1_LEN as bv8, 0x03] + Le16Bytes(c.xLm) + Le16Bytes(c.yLm) + [0, 0]
      + Le16Bytes(c.pressureLm) + Le16Bytes(c.resolution)
  }

  /** A v2 reply carrying `c`, with a string descriptor header and zero filler bytes. */
  function EncodeV2(c: Calibration): (buf: seq<bv8>)
    ensures |buf| == V2_LEN
  {
    [V2_LEN as bv8, 0x03] + Le24Bytes(c.xLm) + Le24Bytes(c.yLm)
      + Le16Bytes(c.pressureLm) + Le16Bytes(c.resolution) + [0, 0, 0, 0, 0, 0]
  }

  /** The v1 fields sit at distinct offsets: decoding an encoded calibration gives it back. */
  lemma V1RoundTrip(c: Calibration)
    requires 0 <= c.xLm < 0x1_0000 && 0 <= c.yLm < 0x1_0000
    requires 0 <= c.pressureLm < 0x1_0000 && 0 <= c.resolution < 0x1_0000
    ensures DecodeV1(EncodeV1(c)) == c
  {
    var x, y := Le16Bytes(c.xLm), Le16Bytes(c.yLm);
    var p, r := Le16Bytes(c.pressureLm), Le16Bytes(c.resolution);
    assert EncodeV1(c) == [V1_LEN as bv8, 0x03] + x + y + [0, 0] + p + r;
    DecodeV1Parts([V1_LEN as bv8, 0x03], x, y, [0, 0], p, r);
    Le16Exact(c.xLm);
    Le16Exact(c.yLm);
    Le16Exact(c.pressureLm);
    Le16Exact(c.resolution);
  }

  lemma DecodeV1Parts(head: seq<bv8>, x: seq<bv8>, y: seq<bv8>, filler: seq<bv8>, p: seq<bv8>, r: seq<bv8>)
    requires |head| == 2 && |x| == 2 && |y| == 2 && |filler| == 2 && |p| == 2 && |r| == 2
    ensures DecodeV1(head + x + y + filler + p + r) == Calibration(Le16(x, 0), Le16(y, 0), Le16(p, 0), Le16(r, 0))
  {
    var b := head + x + y + filler + p + r;
    assert b[2] == x[0] && b[3] == x[1] && b[4] == y[0] && b[5] == y[1];
    assert b[8] == p[0] && b[9] == p[1] && b[10] == r[0] && b[11] == r[1];
  }

  /** The v2 fields sit at distinct offsets: decoding an encoded calibration gives it back. */
  lemma V2RoundTrip(c: Calibration)
    requires 0 <= c.xLm < 0x100_0000 && 0 <= c.yLm < 0x100_0000
    requires 0 <= c.pressureLm < 0x1_0000 && 0 <= c.resolution < 0x1_0000
    ensures DecodeV2(EncodeV2(c)) == c
  {
    var x, y := Le24Bytes(c.xLm), Le24Bytes(c.yLm);
    var p, r := Le16Bytes(c.pressureLm), Le16Bytes(c.resolution);
    assert EncodeV2(c) == [V2_LEN as bv8, 0x03] + x + y + p + r + [0, 0, 0, 0, 0, 0];
    DecodeV2Parts([V2_LEN as bv8, 0x03], x, y, p, r, [0, 0, 0, 0, 0, 0]);
    Le24Exact(c.xLm);
    Le24Exact(c.yLm);
    Le16Exact(c.pressureLm);
    Le16Exact(c.resolution);
  }

  lemma Le24Exact(v: int)
    requires 0 <= v < 0x100_0000
    ensures Le24(Le24Bytes(v), 0) == v
  {
    Le24RoundTrip(v);
  }

  lemma Le16Exact(v: int)
    requires 0 <= v < 0x1_0000
    ensures Le16(Le16Bytes(v), 0) == v
  {
    Le16RoundTrip(v);
  }

  lemma DecodeV2Parts(head: seq<bv8>, x: seq<bv8>, y: seq<bv8>, p: seq<bv8>, r: seq<bv8>, tail: seq<bv8>)
    requires |head| == 2 && |x| == 3 && |y| == 3 && |p| == 2 && |r| == 2 && |tail| == 6
    ensures DecodeV2(head + x + y + p + r + tail) == Calibration(Le24(x, 0), Le24(y, 0), Le16(p, 0), Le16(r, 0))
  {
    var b := head + x + y + p + r + tail;
    assert b[2] == x[0] && b[3] == x[1] && b[4] == x[2];
    assert b[5] == y[0] && b[6] == y[1] && b[7] == y[2];
    assert b[8] == p[0] && b[9] == p[1] && b[10] == r[0] && b[11] == r[1];
  }

  /** A v1 reply's bytes 0, 1, 6 and 7 play no part in the calibration. */
  lemma V1IgnoresFiller(a: seq<bv8>, b: seq<bv8>)
    requires |a| == V1_LEN && |b| == V1_LEN
    requires a[2..6] == b[2..6] && a[8..12] == b[8..12]
    ensures DecodeV1(a) == DecodeV1(b)
  {
    assert a[2] == a[2..6][0] == b[2..6][0] == b[2];
    assert a[3] == a[2..6][1] == b[2..6][1] == b[3];
    assert a[4] == a[2..6][2] == b[2..6][2] == b[4];
    assert a[5] == a[2..6][3] == b[2..6][3] == b[5];
    assert a[8] == a[8..12][0] == b[8..12][0] == b[8];
    assert a[9] == a[8..12][1] == b[8..12][1] == b[9];
    assert a[10] == a[8..12][2] == b[8..12][2] == b[10];
    assert a[11] == a[8..12][3] == b[8..12][3] == b[11];
  }

  /* ---------------------------------------------------------------- */
  /* Physical extents                                                  */
  /* ---------------------------------------------------------------- */

  /**
   * Physical maximum, in thousandths of the resolution unit, for logical
   * maximum `lm` at `res` points per unit: zero when the resolution is
   * zero, else the floor of lm * 1000 / res.
   */
  function PhysicalMax(lm: nat, res: nat): (pm: int)
    ensures res == 0 ==> pm == 0
    ensures res > 0 ==> 0 <= pm && pm * res <= lm * 1000 < (pm + 1) * res
  {
    if res == 0 then 0 else lm * 1000 / res
  }

  /**
   * The same computation as the driver writes it: the product is an s32
   * (wrapping, as the kernel is built without strict overflow) and the
   * quotient is C division.
   */
  function PhysicalMaxS32(lm: nat, res: nat): (pm: int)
    requires lm < 0x8000_0000 && res < 0x8000_0000
    ensures -0x8000_0000 <= pm < 0x8000_0000
  {
    if res == 0 then 0 else DivT(Wrap32(lm * 1000), res)
  }

  /** Below 2147484 the s32 computation is exact; every 16-bit v1 limit is below it. */
  lemma PhysicalMaxS32Exact(lm: nat, res: nat)
    requires lm <= 2147483 && res < 0x8000_0000
    ensures PhysicalMaxS32(lm, res) == PhysicalMax(lm, res)
  {
    if res != 0 {
      assert lm * 1000 <= 2147483000;
      assert Wrap32(lm * 1000) == lm * 1000;
    }
  }

  /** PhysicalMaxS32Exact for any s32 logical maximum, as an implication. */
  lemma PhysicalMaxS32ExactBelow(lm: nat, res: nat)
    requires lm < 0x8000_0000 && res < 0x8000_0000
    ensures lm <= 2147483 ==> PhysicalMaxS32(lm, res) == PhysicalMax(lm, res)
  {
    if lm <= 2147483 {
      PhysicalMaxS32Exact(lm, res);
    }
  }

  /** A 24-bit v2 logical maximum of 2147484 with resolution 1 gives a negative physical maximum. */
  lemma PhysicalMaxS32Overflows()
    ensures PhysicalMaxS32(2147484, 1) < 0
    ensures PhysicalMax(2147484, 1) == 2147484000
    ensures 2147484 < 0x100_0000
  {
    assert 2147484 * 1000 == 2147484000;
    assert Wrap32(2147484000) == 2147484000 - 0x1_0000_0000;
  }

  /**
   * The template parameters in placeholder ID order: X logical and physical
   * maximum, Y logical and physical maximum, pressure logical maximum. The
   * physical maxima are computed in s32 as both probes write them; they are
   * the exact quotients whenever the logical maxima are at most 2147483.
   */
  function TemplateParams(c: Calibration): (p: seq<int>)
    requires 0 <= c.xLm < 0x8000_0000 && 0 <= c.yLm < 0x8000_0000 && 0 <= c.resolution < 0x8000_0000
    ensures |p| == PH_ID_NUM
    ensures p[XLm.Index()] == c.xLm && p[YLm.Index()] == c.yLm && p[PressureLm.Index()] == c.pressureLm
    ensures p[XPm.Index()] == PhysicalMaxS32(c.xLm, c.resolution)
    ensures p[YPm.Index()] == PhysicalMaxS32(c.yLm, c.resolution)
  {
    [c.xLm, PhysicalMaxS32(c.xLm, c.resolution), c.yLm, PhysicalMaxS32(c.yLm, c.resolution), c.pressureLm]
  }

  /** The template's physical maxima are the exact quotients for logical maxima up to 2147483. */
  lemma TemplateParamsExact(c: Calibration)
    requires 0 <= c.xLm < 0x8000_0000 && 0 <= c.yLm < 0x8000_0000 && 0 <= c.resolution < 0x8000_0000
    ensures c.xLm <= 2147483 ==> TemplateParams(c)[XPm.Index()] == PhysicalMax(c.xLm, c.resolution)
    ensures c.yLm <= 2147483 ==> TemplateParams(c)[YPm.Index()] == PhysicalMax(c.yLm, c.resolution)
  {
    PhysicalMaxS32ExactBelow(c.xLm, c.resolution);
    PhysicalMaxS32ExactBelow(c.yLm, c.resolution);
  }

  /* ---------------------------------------------------------------- */
  /* Pen probes                                                        */
  /* ---------------------------------------------------------------- */

  /** Pen parameters of a tablet interface (struct uclogic_params_pen). */
  datatype Pen = Pen(desc: seq<bv8>, id: nat, inrange: PenInrange, fragmentedHires: bool)

  /** The probe of string descriptor `index` for `reply`, when it is neither an error nor of length `len`. */
  predicate Usable(reply: Reply, len: nat)
  {
    reply.ReplyData? && |reply.bytes| == len
  }

  /**
   * The v1 pen probe (uclogic_params_pen_v1_probe) for the reply to string
   * descriptor 100 requested with length 12.
   */
  function PenV1Probe(ext: Externs, reply: Reply): (r: Outcome<Pen>)
    ensures r.Error? <==> reply.ReplyError? && reply.errno != EPIPE
    ensures r.Error? ==> r.rc == -(reply.errno as int)
    ensures r.Success? && r.found.None? <==> !Usable(reply, V1_LEN) && !r.Error?
    ensures r.Success? && r.found.Some? ==>
      var pen := r.found.value;
      Usable(reply, V1_LEN) && |pen.desc| == |ext.penV1Template| && pen.id == ext.penV1Id
      && pen.inrange == InrangeInverted && !pen.fragmentedHires
  {
    match reply
    case ReplyError(errno) =>
      if errno == EPIPE then Success(None) else Error(-(errno as int))
    case ReplyData(buf) =>
      if |buf| != V1_LEN then Success(None)
      else
        var desc := TemplateApply(ext.penV1Template, TemplateParams(DecodeV1(buf)));
        Success(Some(Pen(desc, ext.penV1Id, InrangeInverted, false)))
  }

  /** A character pair of a UTF-16LE string descriptor holding printable ASCII. */
  predicate IsTextPair(buf: seq<bv8>, i: nat)
    requires i + 1 < |buf|
  {
    0x20 <= buf[i] < 0x7F && buf[i + 1] == 0
  }

  /** Every pair after the two header bytes is printable ASCII: a catch-all text reply. */
  predicate AllText(buf: seq<bv8>)
    requires |buf| % 2 == 0
  {
    forall k :: 1 <= k < |buf| / 2 ==> IsTextPair(buf, 2 * k)
  }

  /**
   * The text scan of the v2 probe: advances over printable pairs from
   * offset 2 and reports whether it reached the end. It only reads indices
   * below |buf|.
   */
  method IsOnlyText(buf: seq<bv8>) returns (text: bool)
    requires |buf| >= 2 && |buf| % 2 == 0
    ensures text == AllText(buf)
  {
    var i := 2;
    while i < |buf| && 0x20 <= buf[i] < 0x7F && buf[i + 1] == 0
      invariant 2 <= i <= |buf| && i % 2 == 0
      invariant forall k :: 1 <= k < i / 2 ==> IsTextPair(buf, 2 * k)
    {
      i := i + 2;
    }
    text := i >= |buf|;
    if !text {
      assert !IsTextPair(buf, 2 * (i / 2));
    }
  }

  /**
   * The v2 pen probe (uclogic_params_pen_v2_probe) for the reply to string
   * descriptor 200 requested with length 18. The physical extents are the
   * driver's s32 ones, which wrap for 24-bit logical maxima above 2147483
   * (PenV2PhysicalMaxWraps).
   */
  function PenV2Probe(ext: Externs, reply: Reply): (r: Outcome<Pen>)
    ensures r.Error? <==> reply.ReplyError? && reply.errno != EPIPE
    ensures r.Error? ==> r.rc == -(reply.errno as int)
    ensures r.Success? && r.found.None? <==>
      !r.Error? && (!Usable(reply, V2_LEN) || AllText(reply.bytes))
    ensures r.Success? && r.found.Some? ==>
      var pen := r.found.value;
      Usable(reply, V2_LEN) && !AllText(reply.bytes)
      && |pen.desc| == |ext.penV2Template| && pen.id == ext.penV2Id
      && pen.inrange == InrangeNone && pen.fragmentedHires
  {
    match reply
    case ReplyError(errno) =>
      if errno == EPIPE then Success(None) else Error(-(errno as int))
    case ReplyData(buf) =>
      if |buf| != V2_LEN || AllText(buf) then Success(None)
      else
        var desc := TemplateApply(ext.penV2Template, TemplateParams(DecodeV2(buf)));
        Success(Some(Pen(desc, ext.penV2Id, InrangeNone, true)))
  }

  /**
   * A v1 reply carrying calibration `c` yields a pen whose descriptor is the
   * v1 template filled with the parameters derived from `c`.
   */
  lemma PenV1FromCalibration(ext: Externs, c: Calibration)
    requires 0 <= c.xLm < 0x1_0000 && 0 <= c.yLm < 0x1_0000
    requires 0 <= c.pressureLm < 0x1_0000 && 0 <= c.resolution < 0x1_0000
    ensures PenV1Probe(ext, ReplyData(EncodeV1(c)))
      == Success(Some(Pen(TemplateApply(ext.penV1Template, TemplateParams(c)), ext.penV1Id, InrangeInverted, false)))
  {
    V1RoundTrip(c);
  }

  /**
   * A v2 reply carrying calibration `c`, unless it happens to read as text,
   * yields a pen whose descriptor is the v2 template filled with the
   * parameters derived from `c`.
   */
  lemma PenV2FromCalibration(ext: Externs, c: Calibration)
    requires 0 <= c.xLm < 0x100_0000 && 0 <= c.yLm < 0x100_0000
    requires 0 <= c.pressureLm < 0x1_0000 && 0 <= c.resolution < 0x1_0000
    requires !AllText(EncodeV2(c))
    ensures PenV2Probe(ext, ReplyData(EncodeV2(c)))
      == Success(Some(Pen(TemplateApply(ext.penV2Template, TemplateParams(c)), ext.penV2Id, InrangeNone, true)))
  {
    V2RoundTrip(c);
  }

  /**
   * The v2 probe hands the template a negative X physical maximum for a
   * reply with X logical maximum 2147484 and resolution 1, where the exact
   * value is 2147484000.
   */
  lemma PenV2PhysicalMaxWraps(ext: Externs)
    ensures var c := Calibration(2147484, 0, 0, 1);
      && PenV2Probe(ext, ReplyData(EncodeV2(c)))
         == Success(Some(Pen(TemplateApply(ext.penV2Template, TemplateParams(c)), ext.penV2Id, InrangeNone, true)))
      && TemplateParams(c)[XPm.Index()] < 0
      && PhysicalMax(c.xLm, c.resolution) == 2147484000
  {
    var c := Calibration(2147484, 0, 0, 1);
    assert 2147484 % 0x100_0000 % 0x100 == 0x9C;
    V2LowXByteNotText(c);
    PenV2FromCalibration(ext, c);
    PhysicalMaxS32Overflows();
  }

  /** An encoded calibration whose lowest X byte is not printable ASCII does not read as text. */
  lemma V2LowXByteNotText(c: Calibration)
    requires Le24Bytes(c.xLm)[0] as int >= 0x7F
    ensures !AllText(EncodeV2(c))
  {
    var buf := EncodeV2(c);
    assert buf[2] == Le24Bytes(c.xLm)[0];
    assert !IsTextPair(buf, 2 * 1);
  }

  /** A model-name string put in every unknown descriptor is never taken for v2 parameters. */
  lemma V2RejectsText(ext: Externs, buf: seq<bv8>)
    requires |buf| == V2_LEN
    requires forall k :: 2 <= k < V2_LEN ==> (if k % 2 == 0 then buf[k] == 0x41 else buf[k] == 0)
    ensures PenV2Probe(ext, ReplyData(buf)) == Success(None)
  {
    forall k | 1 <= k < |buf| / 2
      ensures IsTextPair(buf, 2 * k)
    {
      var i := 2 * k;
      assert 2 <= i && i + 1 < V2_LEN && i % 2 == 0 && (i + 1) % 2 == 1;
      assert buf[i] == 0x41 && buf[i + 1] == 0;
    }
    assert AllText(buf);
  }

  /* ---------------------------------------------------------------- */
  /* Frame probes                                                      */
  /* ---------------------------------------------------------------- */

  /** Frame controls parameters (struct uclogic_params_frame). */
  datatype Frame = Frame(desc: seq<bv8>, id: nat, reLsb: nat, devIdByte: nat)

  /** Frame parameters holding a copy of a static descriptor, every other field zero. */
  function FrameFromDesc(desc: seq<bv8>): (f: Frame)
    ensures f.desc == desc && f.id == 0 && f.reLsb == 0 && f.devIdByte == 0
  {
    Frame(desc, 0, 0, 0)
  }

  /** The reply the tablet gives when generic button mode is switched on. */
  const HK_ON: seq<bv8> := [0x48, 0x4B, 0x20, 0x4F, 0x6E]

  /**
   * The v1 buttonpad probe (uclogic_params_frame_buttonpad_v1_probe) for the
   * string read from descriptor 123: the buttonpad is enabled when
   * strncmp(reply, "HK On", length of reply) is zero.
   */
  function ButtonpadV1Probe(ext: Externs, reply: Reply): (r: Outcome<Frame>)
    ensures r.Error? <==> reply.ReplyError? && reply.errno != EPIPE
    ensures r.Error? ==> r.rc == -(reply.errno as int)
    ensures r.Success? && r.found.Some? <==>
      reply.ReplyData? && StrnEq(reply.bytes, HK_ON, |reply.bytes|)
    ensures r.Success? && r.found.Some? ==> r.found.value == FrameFromDesc(ext.buttonpadV1)
  {
    match reply
    case ReplyError(errno) =>
      if errno == EPIPE then Success(None) else Error(-(errno as int))
    case ReplyData(s) =>
      if StrnEq(s, HK_ON, |s|) then Success(Some(FrameFromDesc(ext.buttonpadV1))) else Success(None)
  }

  /**
   * For a string without NUL bytes, the buttonpad is enabled exactly when the
   * string is a prefix of "HK On", the empty string included.
   */
  lemma ButtonpadV1Enables(ext: Externs, s: seq<bv8>)
    requires NoNul(s)
    ensures ButtonpadV1Probe(ext, ReplyData(s)).found.Some? <==> |s| <= |HK_ON| && s == HK_ON[..|s|]
  {
    assert NoNul(HK_ON);
    StrnEqPrefix(s, HK_ON, 0);
  }

  /* ---------------------------------------------------------------- */
  /* Interface parameters                                              */
  /* ---------------------------------------------------------------- */

  /**
   * Parameters of a tablet interface (struct uclogic_params). `desc` is the
   * replacement report descriptor, None where the driver keeps a NULL
   * pointer. penId is the pen report ID, penFrameFlag the frame sub-report
   * flag and penFrameId the virtual frame report ID.
   */
  datatype Params = Params(
    desc: Option<seq<bv8>>, penUnused: bool,
    penId: nat, penInrange: PenInrange, penFragmentedHires: bool,
    frameId: nat, frameReLsb: nat, frameDevIdByte: nat,
    penFrameFlag: bv8, penFrameId: nat)

  /** Freshly allocated, zero-filled parameters. */
  const ZeroParams: Params := Params(None, false, 0, InrangeNormal, false, 0, 0, 0, 0, 0)

  function PenDesc(pen: Option<Pen>): seq<bv8>
  {
    if pen.Some? then pen.value.desc else []
  }

  function FrameDesc(frame: Option<Frame>): seq<bv8>
  {
    if frame.Some? then frame.value.desc else []
  }

  /**
   * Parameters combined from optional pen and frame fragments
   * (uclogic_params_from_pen_and_frame).
   */
  function Merge(pen: Option<Pen>, frame: Option<Frame>, penFrameFlag: bv8, penFrameId: nat): (p: Params)
    ensures !p.penUnused
  {
    var both := pen.Some? && frame.Some?;
    var desc := PenDesc(pen) + FrameDesc(frame);
    Params(
      if |desc| > 0 then Some(desc) else None, false,
      if pen.Some? then pen.value.id else 0,
      if pen.Some? then pen.value.inrange else InrangeNormal,
      pen.Some? && pen.value.fragmentedHires,
      if frame.Some? then frame.value.id else 0,
      if frame.Some? then frame.value.reLsb else 0,
      if frame.Some? then frame.value.devIdByte else 0,
      if both then penFrameFlag else 0,
      if both then penFrameId else 0)
  }

  /**
   * The merged descriptor is the pen fragment followed by the frame
   * fragment, present exactly when the sizes add up to more than zero; the
   * frame flag and frame ID are kept only when both fragments are present,
   * and each fragment's own fields come from that fragment alone.
   */
  lemma MergeLayout(pen: Option<Pen>, frame: Option<Frame>, flag: bv8, frameId: nat)
    ensures var p := Merge(pen, frame, flag, frameId);
      && (p.desc.Some? <==> |PenDesc(pen)| + |FrameDesc(frame)| > 0)
      && (p.desc.Some? ==> |p.desc.value| == |PenDesc(pen)| + |FrameDesc(frame)|
                           && p.desc.value[..|PenDesc(pen)|] == PenDesc(pen)
                           && p.desc.value[|PenDesc(pen)|..] == FrameDesc(frame))
      && (pen.Some? && frame.Some? ==> p.penFrameFlag == flag && p.penFrameId == frameId)
      && (pen.None? || frame.None? ==> p.penFrameFlag == 0 && p.penFrameId == 0)
      && (pen.Some? ==> p.penId == pen.value.id && p.penInrange == pen.value.inrange
                        && p.penFragmentedHires == pen.value.fragmentedHires)
      && (pen.None? ==> p.penId == 0)
      && (frame.Some? ==> p.frameId == frame.value.id && p.frameReLsb == frame.value.reLsb
                          && p.frameDevIdByte == frame.value.devIdByte)
  {
    var d := PenDesc(pen) + FrameDesc(frame);
    assert d[..|PenDesc(pen)|] == PenDesc(pen);
    assert d[|PenDesc(pen)|..] == FrameDesc(frame);
  }

  /**
   * The merge as the driver performs it: sizes are summed, a buffer of the
   * total size is allocated and the fragments are copied into it one after
   * the other.
   */
  method FromPenAndFrame(pen: Option<Pen>, frame: Option<Frame>, penFrameFlag: bv8, penFrameId: nat)
    returns (p: Params)
    ensures p == Merge(pen, frame, penFrameFlag, penFrameId)
  {
    p := ZeroParams;
    var size := 0;
    if pen.Some? {
      size := size + |pen.value.desc|;
      p := p.(penId := pen.value.id, penInrange := pen.value.inrange,
              penFragmentedHires := pen.value.fragmentedHires);
    }
    if frame.Some? {
      size := size + |frame.value.desc|;
      p := p.(frameId := frame.value.id, frameReLsb := frame.value.reLsb,
              frameDevIdByte := frame.value.devIdByte);
    }
    if pen.Some? && frame.Some? {
      p := p.(penFrameFlag := penFrameFlag, penFrameId := penFrameId);
    }
    if size > 0 {
      var buf := new bv8[size];
      var at := 0;
      if pen.Some? {
        CopyInto(buf, at, pen.value.desc);
        at := at + |pen.value.desc|;
      }
      assert buf[..at] == PenDesc(pen);
      if frame.Some? {
        CopyInto(buf, at, frame.value.desc);
        assert buf[..at] == PenDesc(pen);
        at := at + |frame.value.desc|;
        assert buf[..at] == buf[..at - |frame.value.desc|] + buf[at - |frame.value.desc|..at];
      }
      assert buf[..at] == PenDesc(pen) + FrameDesc(frame);
      assert at == size == buf.Length;
      assert buf[..] == buf[..at];
      p := p.(desc := Some(buf[..]));
    }
  }

  /**
   * Parameters that replace the report descriptor with `fixed` only when
   * the device's own descriptor has the expected original size
   * (uclogic_params_with_opt_desc).
   */
  function WithOptDesc(nativeSize: nat, origSize: nat, fixed: seq<bv8>): (p: Params)
    ensures p.desc.Some? <==> nativeSize == origSize
    ensures p.desc.Some? ==> p.desc.value == fixed
    ensures p.(desc := None) == ZeroParams
  {
    if nativeSize == origSize then ZeroParams.(desc := Some(fixed)) else ZeroParams
  }

  /** Parameters that keep the original reports but ignore the pen usage (uclogic_params_with_pen_unused). */
  function WithPenUnused(): (p: Params)
    ensures p.penUnused && p.desc.None?
    ensures p.(penUnused := false) == ZeroParams
  {
    ZeroParams.(penUnused := true)
  }

  /* ---------------------------------------------------------------- */
  /* Dispatch                                                          */
  /* ---------------------------------------------------------------- */

  /** The tablet models uclogic_params_probe distinguishes by vendor and product ID. */
  datatype Model =
    | PF1209 | WP4030U | WP5540U | WP8060U | WP1062 | TWHL850 | TWHA60
    | HuionTablet | UclogicHuionTablet | YiynovaTablet | UgeeTablet81 | DrawimageG3
    | UgeeTablet45 | UgeeTablet47
    | UgtizerGP0610 | XppenG540 | XppenDeco01 | UgeeG5 | UgeeEX07S
    | OtherModel

  /** Models handled by the Huion protocol branch. */
  predicate HuionGroup(m: Model)
  {
    m.HuionTablet? || m.UclogicHuionTablet? || m.YiynovaTablet? || m.UgeeTablet81?
    || m.DrawimageG3? || m.UgeeTablet45? || m.UgeeTablet47?
  }

  /**
   * What the driver knows of an interface when it probes it: the model, the
   * interface number, the device's interface count, the size of its own
   * report descriptor and the replies to the three string requests.
   */
  datatype Device = Device(
    model: Model, ifaceNum: nat, numIfaces: nat, nativeSize: nat,
    penV1Reply: Reply, penV2Reply: Reply, buttonReply: Reply)

  /** Interfaces of the TWHA60 take the Huion branch when the device has three of them. */
  function Twha60Static(ext: Externs, dev: Device): Option<Params>
  {
    if dev.ifaceNum == 0 then Some(WithOptDesc(dev.nativeSize, TWHA60_ORIG0_SIZE, ext.twha60Fixed0))
    else if dev.ifaceNum == 1 then Some(WithOptDesc(dev.nativeSize, TWHA60_ORIG1_SIZE, ext.twha60Fixed1))
    else None
  }

  /** The Huion branch: pen-unused on other interfaces, else v2 then v1 probing. */
  function HuionProbe(ext: Externs, dev: Device): (r: Outcome<Params>)
  {
    if dev.ifaceNum != 0 then Success(Some(WithPenUnused()))
    else
      var v2 := PenV2Probe(ext, dev.penV2Reply);
      if v2.Success? && v2.found.Some? then
        Success(Some(Merge(v2.found, Some(FrameFromDesc(ext.buttonpadV2)), 0x20, ext.buttonpadV2Id)))
      else
        var v1 := PenV1Probe(ext, dev.penV1Reply);
        if v1.Success? && v1.found.Some? then
          var frame := ButtonpadV1Probe(ext, dev.buttonReply);
          if frame.Error? then Error(frame.rc)
          else Success(Some(Merge(v1.found, frame.found, 0x20, ext.buttonpadV1Id)))
        else Success(None)
  }

  /** A v1 pen probe that aborts on error, merged with a frame chosen from the pen result. */
  function PenV1Then(ext: Externs, dev: Device, frameFor: Option<Pen> -> Option<Frame>): Outcome<Params>
  {
    var pen := PenV1Probe(ext, dev.penV1Reply);
    if pen.Error? then Error(pen.rc) else Success(Some(Merge(pen.found, frameFor(pen.found), 0, 0)))
  }

  /** The G5 frame: the static descriptor with its report ID, rotary-encoder bit and device-ID byte. */
  function G5Frame(ext: Externs): Frame
  {
    FrameFromDesc(ext.g5Frame).(id := ext.g5FrameId, reLsb := ext.g5FrameReLsb,
                                devIdByte := ext.g5FrameDevIdByte)
  }

  /**
   * The parameters of one tablet interface (uclogic_params_probe): an
   * error, no parameters, or the parameters the driver keeps.
   */
  function ParamsProbe(ext: Externs, dev: Device): (r: Outcome<Params>)
  {
    match dev.model
    case PF1209 => Success(Some(WithOptDesc(dev.nativeSize, PF1209_ORIG_SIZE, ext.pf1209Fixed)))
    case WP4030U => Success(Some(WithOptDesc(dev.nativeSize, WPXXXXU_ORIG_SIZE, ext.wp4030uFixed)))
    case WP5540U =>
      if dev.nativeSize == WP5540U_V2_ORIG_SIZE && dev.ifaceNum == 0 then
        PenV1Then(ext, dev, _ => None)
      else Success(Some(WithOptDesc(dev.nativeSize, WPXXXXU_ORIG_SIZE, ext.wp5540uFixed)))
    case WP8060U => Success(Some(WithOptDesc(dev.nativeSize, WPXXXXU_ORIG_SIZE, ext.wp8060uFixed)))
    case WP1062 => Success(Some(WithOptDesc(dev.nativeSize, WP1062_ORIG_SIZE, ext.wp1062Fixed)))
    case TWHL850 =>
      if dev.ifaceNum == 0 then Success(Some(WithOptDesc(dev.nativeSize, TWHL850_ORIG0_SIZE, ext.twhl850Fixed0)))
      else if dev.ifaceNum == 1 then Success(Some(WithOptDesc(dev.nativeSize, TWHL850_ORIG1_SIZE, ext.twhl850Fixed1)))
      else if dev.ifaceNum == 2 then Success(Some(WithOptDesc(dev.nativeSize, TWHL850_ORIG2_SIZE, ext.twhl850Fixed2)))
      else Success(None)
    case TWHA60 =>
      if dev.numIfaces != 3 then Success(Twha60Static(ext, dev)) else HuionProbe(ext, dev)
    case HuionTablet => HuionProbe(ext, dev)
    case UclogicHuionTablet => HuionProbe(ext, dev)
    case YiynovaTablet => HuionProbe(ext, dev)
    case UgeeTablet81 => HuionProbe(ext, dev)
    case DrawimageG3 => HuionProbe(ext, dev)
    case UgeeTablet45 => HuionProbe(ext, dev)
    case UgeeTablet47 => HuionProbe(ext, dev)
    case UgtizerGP0610 =>
      if dev.ifaceNum == 1 then PenV1Then(ext, dev, _ => None) else Success(Some(WithPenUnused()))
    case XppenG540 =>
      if dev.ifaceNum == 1 then PenV1Then(ext, dev, _ => None) else Success(Some(WithPenUnused()))
    case XppenDeco01 =>
      if dev.ifaceNum == 1 then PenV1Then(ext, dev, _ => Some(FrameFromDesc(ext.deco01Frame)))
      else Success(Some(WithPenUnused()))
    case UgeeG5 =>
      if dev.ifaceNum != 1 then Success(None)
      else PenV1Then(ext, dev, (pen: Option<Pen>) => if pen.Some? then Some(G5Frame(ext)) else None)
    case UgeeEX07S =>
      if dev.ifaceNum != 1 then Success(None)
      else PenV1Then(ext, dev, (pen: Option<Pen>) => if pen.Some? then Some(FrameFromDesc(ext.ex07Buttonpad)) else None)
    case OtherModel => Success(None)
  }

  /** Models whose parameters are a static replacement descriptor on every handled interface. */
  predicate StaticModel(dev: Device)
  {
    dev.model.PF1209? || dev.model.WP4030U? || dev.model.WP8060U? || dev.model.WP1062?
    || dev.model.TWHL850? || (dev.model.TWHA60? && dev.numIfaces != 3)
    || (dev.model.WP5540U? && !(dev.nativeSize == WP5540U_V2_ORIG_SIZE && dev.ifaceNum == 0))
  }

  /** The original descriptor size a static model expects on an interface, if it handles it. */
  function ExpectedOrigSize(dev: Device): Option<nat>
  {
    match dev.model
    case PF1209 => Some(PF1209_ORIG_SIZE)
    case WP1062 => Some(WP1062_ORIG_SIZE)
    case TWHL850 =>
      if dev.ifaceNum == 0 then Some(TWHL850_ORIG0_SIZE)
      else if dev.ifaceNum == 1 then Some(TWHL850_ORIG1_SIZE)
      else if dev.ifaceNum == 2 then Some(TWHL850_ORIG2_SIZE)
      else None
    case TWHA60 =>
      if dev.ifaceNum == 0 then Some(TWHA60_ORIG0_SIZE)
      else if dev.ifaceNum == 1 then Some(TWHA60_ORIG1_SIZE)
      else None
    case _ => Some(WPXXXXU_ORIG_SIZE)
  }

  /** The fixed descriptor a static model installs on an interface ([] where it installs none). */
  function StaticFixed(ext: Externs, dev: Device): seq<bv8>
  {
    match dev.model
    case PF1209 => ext.pf1209Fixed
    case WP4030U => ext.wp4030uFixed
    case WP5540U => ext.wp5540uFixed
    case WP8060U => ext.wp8060uFixed
    case WP1062 => ext.wp1062Fixed
    case TWHL850 =>
      if dev.ifaceNum == 0 then ext.twhl850Fixed0
      else if dev.ifaceNum == 1 then ext.twhl850Fixed1
      else if dev.ifaceNum == 2 then ext.twhl850Fixed2
      else []
    case TWHA60 =>
      if dev.ifaceNum == 0 then ext.twha60Fixed0
      else if dev.ifaceNum == 1 then ext.twha60Fixed1
      else []
    case _ => []
  }

  /**
   * Static models never fail and never touch the pen: the descriptor is
   * replaced exactly when the native size equals the expected original
   * size, and an interface without an expected size gets no parameters.
   */
  lemma StaticFixIffSizeMatches(ext: Externs, dev: Device)
    requires StaticModel(dev)
    ensures var r := ParamsProbe(ext, dev);
      && r.Success?
      && (r.found.None? <==> ExpectedOrigSize(dev).None?)
      && (r.found.Some? ==>
            (r.found.value.desc.Some? <==> dev.nativeSize == ExpectedOrigSize(dev).value)
            && (r.found.value.desc.Some? ==> r.found.value.desc.value == StaticFixed(ext, dev))
            && r.found.value.(desc := None) == ZeroParams)
  {
  }

  /** Three-interface TWHA60 tablets are probed like the Huion tablets. */
  lemma Twha60ThreeInterfaces(ext: Externs, dev: Device)
    requires dev.model.TWHA60? && dev.numIfaces == 3
    ensures ParamsProbe(ext, dev) == ParamsProbe(ext, dev.(model := HuionTablet))
  {
  }

  /**
   * In the Huion group non-zero interfaces only mark the pen unused; pen
   * probe errors never fail the probe, which fails only when the v1
   * buttonpad request fails after a v1 pen was found.
   */
  lemma HuionErrorsOnlyFromButtonpad(ext: Externs, dev: Device)
    requires HuionGroup(dev.model)
    ensures dev.ifaceNum != 0 ==> ParamsProbe(ext, dev) == Success(Some(WithPenUnused()))
    ensures ParamsProbe(ext, dev).Error? <==>
      dev.ifaceNum == 0
      && !PenV2Probe(ext, dev.penV2Reply).Found()
      && PenV1Probe(ext, dev.penV1Reply).Found()
      && ButtonpadV1Probe(ext, dev.buttonReply).Error?
  {
    assert ParamsProbe(ext, dev) == HuionProbe(ext, dev);
    if dev.ifaceNum == 0 {
      HuionProbeErrors(ext, dev);
    }
  }

  lemma HuionProbeErrors(ext: Externs, dev: Device)
    requires dev.ifaceNum == 0
    ensures HuionProbe(ext, dev).Error? <==>
      !PenV2Probe(ext, dev.penV2Reply).Found()
      && PenV1Probe(ext, dev.penV1Reply).Found()
      && ButtonpadV1Probe(ext, dev.buttonReply).Error?
  {
    var v2 := PenV2Probe(ext, dev.penV2Reply);
    var v1 := PenV1Probe(ext, dev.penV1Reply);
    if !v2.Found() && v1.Found() {
      var frame := ButtonpadV1Probe(ext, dev.buttonReply);
      assert frame.Error? <==> HuionProbe(ext, dev).Error?;
    }
  }

  /**
   * A v2 pen wins over v1: with v2 parameters found, the result is the v2
   * pen merged with the v2 buttonpad, whatever the v1 replies are.
   */
  lemma HuionV2First(ext: Externs, dev: Device, pen: Pen)
    requires HuionGroup(dev.model) && dev.ifaceNum == 0
    requires PenV2Probe(ext, dev.penV2Reply) == Success(Some(pen))
    ensures ParamsProbe(ext, dev) == Success(Some(Merge(Some(pen), Some(FrameFromDesc(ext.buttonpadV2)), 0x20, ext.buttonpadV2Id)))
    ensures ParamsProbe(ext, dev).found.value.penFrameFlag == 0x20
    ensures ParamsProbe(ext, dev).found.value.penFragmentedHires
  {
  }

  /** With neither pen found on interface 0, a Huion-group tablet gets no parameters. */
  lemma HuionNothingFound(ext: Externs, dev: Device)
    requires HuionGroup(dev.model) && dev.ifaceNum == 0
    requires !PenV2Probe(ext, dev.penV2Reply).Found()
    requires !PenV1Probe(ext, dev.penV1Reply).Found()
    ensures ParamsProbe(ext, dev) == Success(None)
  {
  }

  /** Models that probe a v1 pen outside the Huion group abort on a pen probe error. */
  lemma PenErrorAborts(ext: Externs, dev: Device)
    requires dev.penV1Reply.ReplyError? && dev.penV1Reply.errno != EPIPE
    requires || (dev.model.WP5540U? && dev.nativeSize == WP5540U_V2_ORIG_SIZE && dev.ifaceNum == 0)
             || ((dev.model.UgtizerGP0610? || dev.model.XppenG540? || dev.model.XppenDeco01?
                  || dev.model.UgeeG5? || dev.model.UgeeEX07S?) && dev.ifaceNum == 1)
    ensures ParamsProbe(ext, dev) == Error(-(dev.penV1Reply.errno as int))
  {
  }

  /** Unknown tablets and interfaces a model ignores get no parameters, and the probe succeeds. */
  lemma IgnoredGetNothing(ext: Externs, dev: Device)
    requires || dev.model.OtherModel?
             || ((dev.model.UgeeG5? || dev.model.UgeeEX07S?) && dev.ifaceNum != 1)
             || (dev.model.TWHL850? && dev.ifaceNum > 2)
             || (dev.model.TWHA60? && dev.numIfaces != 3 && dev.ifaceNum > 1)
    ensures ParamsProbe(ext, dev) == Success(None)
  {
  }

  /** The frame flag is set only on Huion-group tablets, which always use 0x20. */
  lemma FrameFlagOnlyHuion(ext: Externs, dev: Device)
    requires ParamsProbe(ext, dev).Found()
    requires ParamsProbe(ext, dev).found.value.penFrameFlag != 0
    ensures HuionGroup(dev.model) || (dev.model.TWHA60? && dev.numIfaces == 3)
    ensures ParamsProbe(ext, dev).found.value.penFrameFlag == 0x20
  {
  }
}
