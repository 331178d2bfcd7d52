/**
 * The HID driver callbacks of hid-uclogic-core.c that use the probed
 * parameters: the report descriptor override, the suppression of an unused
 * pen, the naming of input devices, and the in-place rewriting of raw pen
 * reports.
 */
module UclogicCore {
  import opened Common
  import opened UclogicParams

  /* ---------------------------------------------------------------- */
  /* Report descriptor override and pen suppression                    */
  /* ---------------------------------------------------------------- */

  /**
   * The report descriptor the HID core parses (uclogic_report_fixup): the
   * parameters' replacement when there is one, else the device's own.
   * The returned size is the length of the returned descriptor.
   */
  function ReportFixup(params: Option<Params>, rdesc: seq<bv8>): (r: seq<bv8>)
    ensures params.Some? && params.value.desc.Some? ==> r == params.value.desc.value
    ensures params.None? || params.value.desc.None? ==> r == rdesc
  {
    if params.Some? && params.value.desc.Some? then params.value.desc.value else rdesc
  }

  /** Usage codes (usage page in the high 16 bits) of the applications the driver names. */
  const HID_GD_MOUSE: int := 0x0001_0002
  const HID_GD_KEYBOARD: int := 0x0001_0006
  const HID_GD_KEYPAD: int := 0x0001_0007
  const HID_GD_SYSTEM_CONTROL: int := 0x0001_0080
  const HID_CP_CONSUMER_CONTROL: int := 0x000C_0001
  const HID_DG_PEN: int := 0x000D_0002

  /**
   * The mapping decision for a field of application `application`
   * (uclogic_input_mapping): -1 discards the field, 0 leaves it to the HID
   * core.
   */
  function InputMapping(params: Option<Params>, application: int): (r: int)
    ensures r == -1 || r == 0
    ensures r == -1 <==> params.Some? && params.value.penUnused && application == HID_DG_PEN
  {
    if params.Some? && params.value.penUnused && application == HID_DG_PEN then -1 else 0
  }

  /* ---------------------------------------------------------------- */
  /* Input device naming                                               */
  /* ---------------------------------------------------------------- */

  /** The name suffix for an application collection, if the driver has one. */
  function Suffix(application: int): (s: Option<string>)
    ensures s.Some? ==> |s.value| > 0
    ensures s.Some? <==> application in {HID_GD_KEYBOARD, HID_GD_MOUSE, HID_GD_KEYPAD, HID_DG_PEN,
                                         HID_CP_CONSUMER_CONTROL, HID_GD_SYSTEM_CONTROL}
  {
    if application == HID_GD_KEYBOARD then Some("Keyboard")
    else if application == HID_GD_MOUSE then Some("Mouse")
    else if application == HID_GD_KEYPAD then Some("Pad")
    else if application == HID_DG_PEN then Some("Pen")
    else if application == HID_CP_CONSUMER_CONTROL then Some("Consumer Control")
    else if application == HID_GD_SYSTEM_CONTROL then Some("System Control")
    else None
  }

  /** Distinct applications get distinct suffixes. */
  lemma SuffixInjective(a: int, b: int)
    requires Suffix(a).Some? && Suffix(a) == Suffix(b)
    ensures a == b
  {
    var s := Suffix(a).value;
    assert s[0] == 'K' || s[0] == 'M' || s[0] == 'P' || s[0] == 'C' || s[0] == 'S';
    if s[0] == 'P' {
      assert s[1] == 'a' || s[1] == 'e';
    }
  }

  /**
   * The characters snprintf(buf, n, ...) leaves in a buffer of n bytes
   * for the formatted text `s`: at most n - 1 of them, then the NUL.
   */
  function Snprintf(n: nat, s: string): (r: string)
    ensures |r| <= |s| && r == s[..|r|]
    ensures n > 0 ==> |r| == if |s| < n then |s| else n - 1
  {
    if n == 0 then [] else if |s| < n then s else s[..n - 1]
  }

  /**
   * The input device name after uclogic_input_configured: unchanged when
   * the input has no report or its first field's application has no
   * suffix, else "<name> <suffix>" formatted into a buffer of
   * strlen(name) + 2 + strlen(suffix) bytes.
   */
  function InputName(name: string, hasReport: bool, application: int): (r: string)
  {
    if !hasReport then name
    else
      match Suffix(application)
      case None => name
      case Some(suffix) => Snprintf(|name| + 2 + |suffix|, name + " " + suffix)
  }

  /**
   * The buffer is exactly large enough: a named input becomes the device
   * name, a space and the suffix, with nothing cut off.
   */
  lemma InputNameNotTruncated(name: string, application: int)
    requires Suffix(application).Some?
    ensures InputName(name, true, application) == name + " " + Suffix(application).value
    ensures InputName(name, false, application) == name
  {
  }

  /* ---------------------------------------------------------------- */
  /* Raw pen report rewriting                                          */
  /* ---------------------------------------------------------------- */

  /** The kind of a HID report. */
  datatype ReportType = InputReport | OutputReport | FeatureReport

  /** The in-range bit of the pen report's second byte. */
  const INRANGE_BIT: bv8 := 0x40

  /** Reports uclogic_raw_event rewrites: pen input reports of at least two bytes. */
  predicate IsPenReport(p: Params, rtype: ReportType, rid: nat, size: int)
  {
    !p.penUnused && rtype == InputReport && rid == p.penId && size >= 2
  }

  /**
   * The fragmented high-resolution layout put back in order: the high X
   * byte moves after the low X bytes, the high Y byte after the low Y
   * bytes, and the pressure bytes to the end of bytes 4..9.
   */
  function Shuffle(d: seq<bv8>): (r: seq<bv8>)
    requires |d| >= 10
    ensures |r| == |d|
  {
    d[..4] + [d[8], d[4], d[5], d[9], d[6], d[7]] + d[10..]
  }

  /** Reference inverse of Shuffle. */
  function Unshuffle(d: seq<bv8>): (r: seq<bv8>)
    requires |d| >= 10
    ensures |r| == |d|
  {
    d[..4] + [d[5], d[6], d[8], d[9], d[4], d[7]] + d[10..]
  }

  /** The shuffle is undone by Unshuffle, and Unshuffle by the shuffle. */
  lemma ShuffleRoundTrip(d: seq<bv8>)
    requires |d| >= 10
    ensures Unshuffle(Shuffle(d)) == d && Shuffle(Unshuffle(d)) == d
  {
    var s := Shuffle(d);
    assert s[..4] == d[..4] && s[10..] == d[10..];
    assert Unshuffle(s) == d[..4] + d[4..10] + d[10..];
    assert d == d[..4] + d[4..10] + d[10..];
    var u := Unshuffle(d);
    assert u[..4] == d[..4] && u[10..] == d[10..];
    assert Shuffle(u) == d[..4] + d[4..10] + d[10..];
  }

  /** The reordering of six bytes the shuffle performs is a permutation: four exchanges reach it. */
  lemma SixCycleIsPermutation(w: seq<bv8>)
    requires |w| == 6
    ensures multiset([w[4], w[0], w[1], w[5], w[2], w[3]]) == multiset(w)
  {
    assert w == [w[0]] + [w[1]] + [w[2]] + [w[3]] + [w[4]] + [w[5]];
    assert [w[4], w[0], w[1], w[5], w[2], w[3]] == [w[4]] + [w[0]] + [w[1]] + [w[5]] + [w[2]] + [w[3]];
  }

  /**
   * The shuffle leaves bytes 0..3 and 10 on in place, puts high X at 4 and
   * high Y at 7, and moves the low X, low Y and pressure bytes up by one
   * or two positions.
   */
  lemma ShufflePlaces(d: seq<bv8>)
    requires |d| >= 10
    ensures Shuffle(d)[..4] == d[..4] && Shuffle(d)[10..] == d[10..]
    ensures Shuffle(d)[4] == d[8] && Shuffle(d)[5] == d[4] && Shuffle(d)[6] == d[5]
    ensures Shuffle(d)[7] == d[9] && Shuffle(d)[8] == d[6] && Shuffle(d)[9] == d[7]
  {
    var s := Shuffle(d);
    assert s == d[..4] + [d[8], d[4], d[5], d[9], d[6], d[7]] + d[10..];
  }

  /** The shuffle permutes bytes 4..9 among themselves. */
  lemma ShufflePermutes(d: seq<bv8>)
    requires |d| >= 10
    ensures multiset(Shuffle(d)[4..10]) == multiset(d[4..10])
  {
    var s := Shuffle(d);
    var w := d[4..10];
    assert s[4..10] == [w[4], w[0], w[1], w[5], w[2], w[3]];
    SixCycleIsPermutation(w);
  }

  /**
   * The bytes after uclogic_raw_event for a report whose first `size`
   * bytes are in `d`: frame sub-reports get the virtual frame report ID in
   * byte 0; other pen reports have the in-range bit flipped when it is
   * inverted, and the high-resolution bytes reordered when the report is
   * fragmented and at least 10 bytes long. Nothing from `size` on changes.
   */
  function RawEventSpec(p: Params, rtype: ReportType, rid: nat, d: seq<bv8>, size: int): (r: seq<bv8>)
    requires size <= |d|
    ensures |r| == |d|
    ensures size >= 0 ==> r[size..] == d[size..]
  {
    if !IsPenReport(p, rtype, rid, size) then d
    else if d[1] & p.penFrameFlag != 0 then d[0 := Byte(p.penFrameId % 0x100)]
    else
      var d1 := if p.penInrange == InrangeInverted then d[1 := FlipInrange(d[1])] else d;
      if size >= 10 && p.penFragmentedHires then Shuffle(d1) else d1
  }

  /** The rewrite reads only the first `size` bytes: reports agreeing there are rewritten alike. */
  lemma RawEventReadsWithinSize(p: Params, rtype: ReportType, rid: nat, d: seq<bv8>, e: seq<bv8>, size: nat)
    requires size <= |d| && size <= |e| && d[..size] == e[..size]
    ensures RawEventSpec(p, rtype, rid, d, size)[..size] == RawEventSpec(p, rtype, rid, e, size)[..size]
  {
    if IsPenReport(p, rtype, rid, size) {
      assert d[1] == d[..size][1] == e[..size][1] == e[1];
      if d[1] & p.penFrameFlag != 0 {
        var b := Byte(p.penFrameId % 0x100);
        assert d[0 := b][..size] == d[..size][0 := b];
        assert e[0 := b][..size] == e[..size][0 := b];
      } else {
        var d1 := if p.penInrange == InrangeInverted then d[1 := FlipInrange(d[1])] else d;
        var e1 := if p.penInrange == InrangeInverted then e[1 := FlipInrange(e[1])] else e;
        assert d1[..size] == e1[..size];
        if size >= 10 && p.penFragmentedHires {
          ShuffleLocal(d1, e1, size);
        }
      }
    }
  }

  /** The shuffle of two reports agreeing on their first `size` bytes agrees there too. */
  lemma ShuffleLocal(d: seq<bv8>, e: seq<bv8>, size: nat)
    requires 10 <= size <= |d| && size <= |e| && d[..size] == e[..size]
    ensures Shuffle(d)[..size] == Shuffle(e)[..size]
  {
    forall k | 0 <= k < size
      ensures Shuffle(d)[k] == Shuffle(e)[k]
    {
      assert d[k] == d[..size][k] == e[..size][k] == e[k];
      assert forall m :: 4 <= m < 10 ==> d[m] == d[..size][m] == e[..size][m] == e[m];
    }
  }

  /** Reports that are not pen input reports of two bytes or more pass unchanged. */
  lemma RawEventPassesOthers(p: Params, rtype: ReportType, rid: nat, d: seq<bv8>, size: int)
    requires size <= |d|
    requires p.penUnused || rtype != InputReport || rid != p.penId || size < 2
    ensures RawEventSpec(p, rtype, rid, d, size) == d
  {
  }

  /** A frame sub-report only has its report ID replaced by the virtual frame report ID. */
  lemma RawEventRedirectsFrame(p: Params, rid: nat, d: seq<bv8>, size: int)
    requires size <= |d| && IsPenReport(p, InputReport, rid, size) && d[1] & p.penFrameFlag != 0
    ensures var r := RawEventSpec(p, InputReport, rid, d, size);
      r[0] as int == p.penFrameId % 0x100 && r[1..] == d[1..]
  {
  }

  /** The report a pen report that is not a frame sub-report becomes, before any reordering. */
  lemma RawEventPenCase(p: Params, rid: nat, d: seq<bv8>, size: int)
    requires size <= |d| && IsPenReport(p, InputReport, rid, size) && d[1] & p.penFrameFlag == 0
    ensures var d1 := if p.penInrange == InrangeInverted then d[1 := FlipInrange(d[1])] else d;
      RawEventSpec(p, InputReport, rid, d, size) == if size >= 10 && p.penFragmentedHires then Shuffle(d1) else d1
  {
  }

  /** Byte 1 with its in-range bit flipped. */
  function FlipInrange(b: bv8): (r: bv8)
  {
    b ^ INRANGE_BIT
  }

  /**
   * In a pen report that is not a frame sub-report, byte 0 is kept and
   * byte 1 has its in-range bit flipped exactly in inverted mode.
   */
  lemma RawEventPenHeader(p: Params, rid: nat, d: seq<bv8>, size: int)
    requires size <= |d| && IsPenReport(p, InputReport, rid, size) && d[1] & p.penFrameFlag == 0
    ensures var r := RawEventSpec(p, InputReport, rid, d, size);
      && r[0] == d[0]
      && r[1] == if p.penInrange == InrangeInverted then FlipInrange(d[1]) else d[1]
  {
    RawEventPenCase(p, rid, d, size);
    var d1 := if p.penInrange == InrangeInverted then d[1 := FlipInrange(d[1])] else d;
    if size >= 10 && p.penFragmentedHires {
      ShufflePlaces(d1);
    }
  }

  /**
   * In a pen report that is not a frame sub-report, bytes 2 on are kept,
   * except that in a fragmented high-resolution report of 10 bytes or more
   * bytes 4..9 are permuted among themselves.
   */
  lemma RawEventPenBody(p: Params, rid: nat, d: seq<bv8>, size: int)
    requires size <= |d| && IsPenReport(p, InputReport, rid, size) && d[1] & p.penFrameFlag == 0
    ensures var r := RawEventSpec(p, InputReport, rid, d, size);
      && (size >= 10 && p.penFragmentedHires ==>
            r[2..4] == d[2..4] && r[10..] == d[10..] && multiset(r[4..10]) == multiset(d[4..10]))
      && (!(size >= 10 && p.penFragmentedHires) ==> r[2..] == d[2..])
  {
    RawEventPenCase(p, rid, d, size);
    var d1 := if p.penInrange == InrangeInverted then d[1 := FlipInrange(d[1])] else d;
    assert d1[2..] == d[2..];
    if size >= 10 && p.penFragmentedHires {
      ShuffleBody(d, d1);
    }
  }

  /** The shuffle of a report whose bytes 2 on are those of `d`, seen from `d`. */
  lemma ShuffleBody(d: seq<bv8>, d1: seq<bv8>)
    requires |d| == |d1| >= 10 && d1[2..] == d[2..]
    ensures Shuffle(d1)[2..4] == d[2..4] && Shuffle(d1)[10..] == d[10..]
    ensures multiset(Shuffle(d1)[4..10]) == multiset(d[4..10])
  {
    SameTail(d, d1);
    ShuffleKeepsOuter(d1);
    ShufflePermutes(d1);
  }

  lemma SameTail(d: seq<bv8>, d1: seq<bv8>)
    requires |d| == |d1| >= 10 && d1[2..] == d[2..]
    ensures d1[2..4] == d[2..4] && d1[4..10] == d[4..10] && d1[10..] == d[10..]
  {
    assert d1[2..4] == d1[2..][..2] && d[2..4] == d[2..][..2];
    assert d1[4..10] == d1[2..][2..8] && d[4..10] == d[2..][2..8];
    assert d1[10..] == d1[2..][8..] && d[10..] == d[2..][8..];
  }

  lemma ShuffleKeepsOuter(d: seq<bv8>)
    requires |d| >= 10
    ensures Shuffle(d)[2..4] == d[2..4] && Shuffle(d)[10..] == d[10..]
  {
    ShufflePlaces(d);
    var s := Shuffle(d);
    assert s[2] == s[..4][2] && s[3] == s[..4][3];
    assert s[2..4] == [s[2], s[3]];
  }

  /**
   * Flipping the in-range bit changes that bit and no other, and flipping
   * it twice restores the byte.
   */
  lemma FlipInrangeOnlyItsBit(b: bv8)
    ensures FlipInrange(b) & !INRANGE_BIT == b & !INRANGE_BIT
    ensures FlipInrange(b) & INRANGE_BIT != b & INRANGE_BIT
    ensures FlipInrange(FlipInrange(b)) == b
  {
  }

  /** The reordering of the fragmented high-resolution bytes, done in place. */
  method ShuffleInPlace(data: array<bv8>)
    requires data.Length >= 10
    modifies data
    ensures data[..] == Shuffle(old(data[..]))
  {
    var pressureLow := data[6];
    var pressureHigh := data[7];
    data[6] := data[5];
    data[5] := data[4];
    data[4] := data[8];
    data[7] := data[9];
    data[8] := pressureLow;
    data[9] := pressureHigh;
  }

  /**
   * uclogic_raw_event on a report of `size` bytes held in `data`: rewrites
   * it in place as RawEventSpec describes and always returns 0.
   */
  method RawEvent(p: Params, rtype: ReportType, rid: nat, data: array<bv8>, size: int) returns (rc: int)
    requires size <= data.Length
    modifies data
    ensures rc == 0
    ensures data[..] == RawEventSpec(p, rtype, rid, old(data[..]), size)
  {
    ghost var d := data[..];
    if !p.penUnused && rtype == InputReport && rid == p.penId && size >= 2 {
      if data[1] & p.penFrameFlag != 0 {
        data[0] := Byte(p.penFrameId % 0x100);
      } else {
        if p.penInrange == InrangeInverted {
          data[1] := FlipInrange(data[1]);
        }
        ghost var d1 := data[..];
        RawEventPenCase(p, rid, d, size);
        if size >= 10 && p.penFragmentedHires {
          ShuffleInPlace(data);
        }
      }
    }
    rc := 0;
  }
}
