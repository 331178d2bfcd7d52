/**
 * Report-descriptor fixup for the pen interface of the XP-Pen G430S_B
 * (hid-g430sb.c): the 36-byte descriptor the tablet reports on interface 2
 * is replaced by a fixed one, the other interfaces get no descriptor and
 * are refused at probe time. The fixed descriptor is given as its HID
 * short items; walking them shows the report it declares.
 */
module G430sb {
  import opened Common
  import opened HidItems

  /** Size of the descriptor the tablet reports for its pen. */
  const RDESC_ORIG_SIZE: int := 36
  /** The only interface the driver handles. */
  const PEN_INTERFACE: int := 2

  // The fixed descriptor, in sections of three items. The sections exist only so that
  // the verifier unfolds the walk a few items at a time; the facts about the whole
  // descriptor are those of FixedDescriptor and the layout lemmas below.
  const PART_1: seq<Item> := [
    Item1(0x05, 0x0D),
    Item1(0x09, 0x02),
    Item1(0xA1, 0x01)]
  const PART_2: seq<Item> := [
    Item1(0x85, 0x02),
    Item1(0x09, 0x20),
    Item1(0xA1, 0x00)]
  const PART_3: seq<Item> := [
    Item1(0x09, 0x42),
    Item1(0x09, 0x44),
    Item1(0x09, 0x46)]
  const PART_4: seq<Item> := [
    Item1(0x15, 0x00),
    Item1(0x25, 0x01),
    Item1(0x75, 0x01)]
  const PART_5: seq<Item> := [
    Item1(0x95, 0x03),
    Item1(0x81, 0x02),
    Item1(0x95, 0x02)]
  const PART_6: seq<Item> := [
    Item1(0x81, 0x03),
    Item1(0x09, 0x32),
    Item1(0x95, 0x01)]
  const PART_7: seq<Item> := [
    Item1(0x81, 0x02),
    Item1(0x95, 0x02),
    Item1(0x81, 0x03)]
  const PART_8: seq<Item> := [
    Item0(0xA4),
    Item1(0x05, 0x01),
    Item1(0x09, 0x30)]
  const PART_9: seq<Item> := [
    Item1(0x15, 0x00),
    Item2(0x26, 0xB0, 0x27),
    Item1(0x65, 0x11)]
  const PART_10: seq<Item> := [
    Item1(0x55, 0x0D),
    Item1(0x35, 0x00),
    Item2(0x46, 0xB0, 0x27)]
  const PART_11: seq<Item> := [
    Item1(0x75, 0x10),
    Item1(0x95, 0x01),
    Item1(0x81, 0x22)]
  const PART_12: seq<Item> := [
    Item1(0x09, 0x31),
    Item2(0x26, 0xC4, 0x1D),
    Item2(0x46, 0xC4, 0x1D)]
  const PART_13: seq<Item> := [
    Item1(0x81, 0x22),
    Item0(0xB4),
    Item1(0x09, 0x30)]
  const PART_14: seq<Item> := [
    Item1(0x15, 0x00),
    Item2(0x26, 0xFF, 0x1F),
    Item1(0x75, 0x10)]
  const PART_15: seq<Item> := [
    Item1(0x95, 0x01),
    Item1(0x81, 0x02),
    Item1(0x95, 0x02)]
  const PART_16: seq<Item> := [
    Item1(0x81, 0x03),
    Item0(0xC0),
    Item0(0xC0)]
  // The whole descriptor, item by item as the driver's array lists them.
  const ITEMS: seq<Item> := PART_1 + PART_2 + PART_3 + PART_4 + PART_5 + PART_6 + PART_7 + PART_8 + PART_9 + PART_10 + PART_11 + PART_12 + PART_13 + PART_14 + PART_15 + PART_16
  // The walker state after each section, as evaluated by the verifier (WalkPart1..).
  const AFTER_1: Walker := Walker(Globals(13, 0, 0, 0, 0, 0, 0, 0, 0), [], 1, 1, 0, false, [], [], 6)
  const AFTER_2: Walker := Walker(Globals(13, 0, 0, 0, 0, 0, 2, 0, 0), [], 2, 2, 0, false, [2], [], 12)
  const AFTER_3: Walker := Walker(Globals(13, 0, 0, 0, 0, 0, 2, 0, 0), [], 2, 2, 0, false, [2], [], 18)
  const AFTER_4: Walker := Walker(Globals(13, 0, 1, 0, 0, 0, 2, 1, 0), [], 2, 2, 0, false, [2], [], 24)
  const AFTER_5: Walker := Walker(Globals(13, 0, 1, 0, 0, 0, 2, 1, 2), [], 2, 2, 0, false, [2], [Field(2, false, 13, 1, 3, 0, 1, 0, 0, 0)], 30)
  const AFTER_6: Walker := Walker(Globals(13, 0, 1, 0, 0, 0, 2, 1, 1), [], 2, 2, 0, false, [2], [Field(2, false, 13, 1, 3, 0, 1, 0, 0, 0),
      Field(2, true, 13, 1, 2, 0, 1, 0, 0, 0)], 36)
  const AFTER_7: Walker := Walker(Globals(13, 0, 1, 0, 0, 0, 2, 1, 2), [], 2, 2, 0, false, [2], [Field(2, false, 13, 1, 3, 0, 1, 0, 0, 0),
      Field(2, true, 13, 1, 2, 0, 1, 0, 0, 0),
      Field(2, false, 13, 1, 1, 0, 1, 0, 0, 0),
      Field(2, true, 13, 1, 2, 0, 1, 0, 0, 0)], 42)
  const AFTER_8: Walker := Walker(Globals(1, 0, 1, 0, 0, 0, 2, 1, 2), [Globals(13, 0, 1, 0, 0, 0, 2, 1, 2)], 2, 2, 0, false, [2], [Field(2, false, 13, 1, 3, 0, 1, 0, 0, 0),
      Field(2, true, 13, 1, 2, 0, 1, 0, 0, 0),
      Field(2, false, 13, 1, 1, 0, 1, 0, 0, 0),
      Field(2, true, 13, 1, 2, 0, 1, 0, 0, 0)], 47)
  const AFTER_9: Walker := Walker(Globals(1, 0, 10160, 0, 0, 0, 2, 1, 2), [Globals(13, 0, 1, 0, 0, 0, 2, 1, 2)], 2, 2, 0, false, [2], [Field(2, false, 13, 1, 3, 0, 1, 0, 0, 0),
      Field(2, true, 13, 1, 2, 0, 1, 0, 0, 0),
      Field(2, false, 13, 1, 1, 0, 1, 0, 0, 0),
      Field(2, true, 13, 1, 2, 0, 1, 0, 0, 0)], 54)
  const AFTER_10: Walker := Walker(Globals(1, 0, 10160, 0, 10160, -3, 2, 1, 2), [Globals(13, 0, 1, 0, 0, 0, 2, 1, 2)], 2, 2, 0, false, [2], [Field(2, false, 13, 1, 3, 0, 1, 0, 0, 0),
      Field(2, true, 13, 1, 2, 0, 1, 0, 0, 0),
      Field(2, false, 13, 1, 1, 0, 1, 0, 0, 0),
      Field(2, true, 13, 1, 2, 0, 1, 0, 0, 0)], 61)
  const AFTER_11: Walker := Walker(Globals(1, 0, 10160, 0, 10160, -3, 2, 16, 1), [Globals(13, 0, 1, 0, 0, 0, 2, 1, 2)], 2, 2, 0, false, [2], [Field(2, false, 13, 1, 3, 0, 1, 0, 0, 0),
      Field(2, true, 13, 1, 2, 0, 1, 0, 0, 0),
      Field(2, false, 13, 1, 1, 0, 1, 0, 0, 0),
      Field(2, true, 13, 1, 2, 0, 1, 0, 0, 0),
      Field(2, false, 1, 16, 1, 0, 10160, 0, 10160, -3)], 67)
  const AFTER_12: Walker := Walker(Globals(1, 0, 7620, 0, 7620, -3, 2, 16, 1), [Globals(13, 0, 1, 0, 0, 0, 2, 1, 2)], 2, 2, 0, false, [2], [Field(2, false, 13, 1, 3, 0, 1, 0, 0, 0),
      Field(2, true, 13, 1, 2, 0, 1, 0, 0, 0),
      Field(2, false, 13, 1, 1, 0, 1, 0, 0, 0),
      Field(2, true, 13, 1, 2, 0, 1, 0, 0, 0),
      Field(2, false, 1, 16, 1, 0, 10160, 0, 10160, -3)], 75)
  const AFTER_13: Walker := Walker(Globals(13, 0, 1, 0, 0, 0, 2, 1, 2), [], 2, 2, 0, false, [2], [Field(2, false, 13, 1, 3, 0, 1, 0, 0, 0),
      Field(2, true, 13, 1, 2, 0, 1, 0, 0, 0),
      Field(2, false, 13, 1, 1, 0, 1, 0, 0, 0),
      Field(2, true, 13, 1, 2, 0, 1, 0, 0, 0),
      Field(2, false, 1, 16, 1, 0, 10160, 0, 10160, -3),
      Field(2, false, 1, 16, 1, 0, 7620, 0, 7620, -3)], 80)
  const AFTER_14: Walker := Walker(Globals(13, 0, 8191, 0, 0, 0, 2, 16, 2), [], 2, 2, 0, false, [2], [Field(2, false, 13, 1, 3, 0, 1, 0, 0, 0),
      Field(2, true, 13, 1, 2, 0, 1, 0, 0, 0),
      Field(2, false, 13, 1, 1, 0, 1, 0, 0, 0),
      Field(2, true, 13, 1, 2, 0, 1, 0, 0, 0),
      Field(2, false, 1, 16, 1, 0, 10160, 0, 10160, -3),
      Field(2, false, 1, 16, 1, 0, 7620, 0, 7620, -3)], 87)
  const AFTER_15: Walker := Walker(Globals(13, 0, 8191, 0, 0, 0, 2, 16, 2), [], 2, 2, 0, false, [2], [Field(2, false, 13, 1, 3, 0, 1, 0, 0, 0),
      Field(2, true, 13, 1, 2, 0, 1, 0, 0, 0),
      Field(2, false, 13, 1, 1, 0, 1, 0, 0, 0),
      Field(2, true, 13, 1, 2, 0, 1, 0, 0, 0),
      Field(2, false, 1, 16, 1, 0, 10160, 0, 10160, -3),
      Field(2, false, 1, 16, 1, 0, 7620, 0, 7620, -3),
      Field(2, false, 13, 16, 1, 0, 8191, 0, 0, 0)], 93)
  const AFTER_16: Walker := Walker(Globals(13, 0, 8191, 0, 0, 0, 2, 16, 2), [], 0, 2, 2, false, [2], [Field(2, false, 13, 1, 3, 0, 1, 0, 0, 0),
      Field(2, true, 13, 1, 2, 0, 1, 0, 0, 0),
      Field(2, false, 13, 1, 1, 0, 1, 0, 0, 0),
      Field(2, true, 13, 1, 2, 0, 1, 0, 0, 0),
      Field(2, false, 1, 16, 1, 0, 10160, 0, 10160, -3),
      Field(2, false, 1, 16, 1, 0, 7620, 0, 7620, -3),
      Field(2, false, 13, 16, 1, 0, 8191, 0, 0, 0),
      Field(2, true, 13, 16, 2, 0, 8191, 0, 0, 0)], 97)

  // Each section walked from the state the previous one left.
  lemma WalkPart1()
    ensures Walk(START, PART_1) == AFTER_1
  {
  }

  lemma WalkPart2()
    ensures Walk(AFTER_1, PART_2) == AFTER_2
  {
  }

  lemma WalkPart3()
    ensures Walk(AFTER_2, PART_3) == AFTER_3
  {
  }

  lemma WalkPart4()
    ensures Walk(AFTER_3, PART_4) == AFTER_4
  {
  }

  lemma WalkPart5()
    ensures Walk(AFTER_4, PART_5) == AFTER_5
  {
  }

  lemma WalkPart6()
    ensures Walk(AFTER_5, PART_6) == AFTER_6
  {
  }

  lemma WalkPart7()
    ensures Walk(AFTER_6, PART_7) == AFTER_7
  {
  }

  lemma WalkPart8()
    ensures Walk(AFTER_7, PART_8) == AFTER_8
  {
  }

  lemma WalkPart9()
    ensures Walk(AFTER_8, PART_9) == AFTER_9
  {
  }

  lemma WalkPart10()
    ensures Walk(AFTER_9, PART_10) == AFTER_10
  {
  }

  lemma WalkPart11()
    ensures Walk(AFTER_10, PART_11) == AFTER_11
  {
  }

  lemma WalkPart12()
    ensures Walk(AFTER_11, PART_12) == AFTER_12
  {
  }

  lemma WalkPart13()
    ensures Walk(AFTER_12, PART_13) == AFTER_13
  {
  }

  lemma WalkPart14()
    ensures Walk(AFTER_13, PART_14) == AFTER_14
  {
  }

  lemma WalkPart15()
    ensures Walk(AFTER_14, PART_15) == AFTER_15
  {
  }

  lemma WalkPart16()
    ensures Walk(AFTER_15, PART_16) == AFTER_16
  {
  }

  /** Walking the whole fixed descriptor. */
  lemma FixedWalk()
    ensures Walk(START, ITEMS) == AFTER_16
  {
    WalkPart1();
    WalkPart2();
    WalkPart3();
    WalkPart4();
    WalkPart5();
    WalkPart6();
    WalkPart7();
    WalkPart8();
    WalkPart9();
    WalkPart10();
    WalkPart11();
    WalkPart12();
    WalkPart13();
    WalkPart14();
    WalkPart15();
    WalkPart16();
    WalkAppend(START, PART_1, PART_2);
    WalkAppend(START, PART_1 + PART_2, PART_3);
    WalkAppend(START, PART_1 + PART_2 + PART_3, PART_4);
    WalkAppend(START, PART_1 + PART_2 + PART_3 + PART_4, PART_5);
    WalkAppend(START, PART_1 + PART_2 + PART_3 + PART_4 + PART_5, PART_6);
    WalkAppend(START, PART_1 + PART_2 + PART_3 + PART_4 + PART_5 + PART_6, PART_7);
    WalkAppend(START, PART_1 + PART_2 + PART_3 + PART_4 + PART_5 + PART_6 + PART_7, PART_8);
    WalkAppend(START, PART_1 + PART_2 + PART_3 + PART_4 + PART_5 + PART_6 + PART_7 + PART_8, PART_9);
    WalkAppend(START, PART_1 + PART_2 + PART_3 + PART_4 + PART_5 + PART_6 + PART_7 + PART_8 + PART_9, PART_10);
    WalkAppend(START, PART_1 + PART_2 + PART_3 + PART_4 + PART_5 + PART_6 + PART_7 + PART_8 + PART_9 + PART_10, PART_11);
    WalkAppend(START, PART_1 + PART_2 + PART_3 + PART_4 + PART_5 + PART_6 + PART_7 + PART_8 + PART_9 + PART_10 + PART_11, PART_12);
    WalkAppend(START, PART_1 + PART_2 + PART_3 + PART_4 + PART_5 + PART_6 + PART_7 + PART_8 + PART_9 + PART_10 + PART_11 + PART_12, PART_13);
    WalkAppend(START, PART_1 + PART_2 + PART_3 + PART_4 + PART_5 + PART_6 + PART_7 + PART_8 + PART_9 + PART_10 + PART_11 + PART_12 + PART_13, PART_14);
    WalkAppend(START, PART_1 + PART_2 + PART_3 + PART_4 + PART_5 + PART_6 + PART_7 + PART_8 + PART_9 + PART_10 + PART_11 + PART_12 + PART_13 + PART_14, PART_15);
    WalkAppend(START, PART_1 + PART_2 + PART_3 + PART_4 + PART_5 + PART_6 + PART_7 + PART_8 + PART_9 + PART_10 + PART_11 + PART_12 + PART_13 + PART_14 + PART_15, PART_16);
  }

  /** The bytes of the fixed descriptor (g430sb_rdesc_fixed). */
  const RDESC_FIXED: seq<bv8> := Encode(ITEMS)

  /**
   * g430sb_report_fixup: None, the NULL descriptor, on any interface but
   * the pen's; there the fixed descriptor replaces one of the original
   * size, and any other descriptor is kept.
   */
  function ReportFixup(iface: int, rdesc: seq<bv8>): (r: Option<seq<bv8>>)
    ensures r.None? <==> iface != PEN_INTERFACE
    ensures r.Some? && |rdesc| == RDESC_ORIG_SIZE ==> r.value == RDESC_FIXED
    ensures r.Some? && |rdesc| != RDESC_ORIG_SIZE ==> r.value == rdesc
  {
    if iface != PEN_INTERFACE then None
    else if |rdesc| == RDESC_ORIG_SIZE then Some(RDESC_FIXED)
    else Some(rdesc)
  }

  /**
   * The interface check of g430sb_probe: -ENODEV for every interface but
   * the pen's, before anything is allocated or sent; 0 lets the probe go on.
   */
  function ProbeInterfaceCheck(iface: int): (rc: int)
    ensures rc == 0 || rc == -ENODEV
    ensures rc == -ENODEV <==> ReportFixup(iface, []).None?
  {
    if iface != PEN_INTERFACE then -ENODEV else 0
  }

  /**
   * The fields of report 2 as the layout comment of the driver lists them:
   * three buttons, two constant bits, In Range, two constant bits, then X
   * and Y on the Desktop page, pressure, and two unused 16-bit values.
   */
  const REPORT_2: seq<Field> := [
    Field(2, false, 0x0D, 1, 3, 0, 1, 0, 0, 0),
    Field(2, true, 0x0D, 1, 2, 0, 1, 0, 0, 0),
    Field(2, false, 0x0D, 1, 1, 0, 1, 0, 0, 0),
    Field(2, true, 0x0D, 1, 2, 0, 1, 0, 0, 0),
    Field(2, false, 0x01, 16, 1, 0, 10160, 0, 10160, -3),
    Field(2, false, 0x01, 16, 1, 0, 7620, 0, 7620, -3),
    Field(2, false, 0x0D, 16, 1, 0, 8191, 0, 0, 0),
    Field(2, true, 0x0D, 16, 2, 0, 8191, 0, 0, 0)]

  /**
   * The fixed descriptor is a well-formed short-item stream of 97 bytes
   * with balanced collections and Push/Pop; it declares report 2 only, and
   * its Input fields are those of REPORT_2.
   */
  lemma FixedDescriptor()
    ensures Parse(RDESC_FIXED) == Some(ITEMS) && |RDESC_FIXED| == 97
    ensures Balanced(Walk(START, ITEMS))
    ensures Walk(START, ITEMS).ids == [2]
    ensures Walk(START, ITEMS).inputs == REPORT_2
  {
    FixedWalk();
    UnbrokenWellFormed(START, ITEMS);
    WalkSize(START, ITEMS);
  }

  /**
   * Report 2 is 96 bits with its ID byte: 8 flag bits, then five 16-bit
   * fields; X and Y reach 10160 and 7620 in units of 10^-3 cm (Unit
   * Exponent 0x0D is -3), pressure reaches 8191 on the Digitizer page that
   * Pop restored.
   */
  lemma Report2Layout()
    ensures 8 + Bits(REPORT_2) == 96
    ensures Bits(REPORT_2[..4]) == 8 && REPORT_2[1].constant && REPORT_2[3].constant
    ensures forall i :: 4 <= i < |REPORT_2| ==> REPORT_2[i].size == 16
    ensures Bits(REPORT_2[4..]) == 5 * 16
    ensures REPORT_2[4].logMax == 10160 && REPORT_2[5].logMax == 7620 && REPORT_2[6].logMax == 8191
    ensures REPORT_2[4].unitExp == -3 && REPORT_2[5].unitExp == -3
    ensures REPORT_2[6].page == PAGE_DIGITIZER
  {
    var head, tail := REPORT_2[..4], REPORT_2[4..];
    assert head == [REPORT_2[0]] + [REPORT_2[1]] + [REPORT_2[2]] + [REPORT_2[3]];
    BitsAppend([REPORT_2[0]] + [REPORT_2[1]] + [REPORT_2[2]], [REPORT_2[3]]);
    BitsAppend([REPORT_2[0]] + [REPORT_2[1]], [REPORT_2[2]]);
    BitsAppend([REPORT_2[0]], [REPORT_2[1]]);
    assert tail == [REPORT_2[4]] + [REPORT_2[5]] + [REPORT_2[6]] + [REPORT_2[7]];
    BitsAppend([REPORT_2[4]] + [REPORT_2[5]] + [REPORT_2[6]], [REPORT_2[7]]);
    BitsAppend([REPORT_2[4]] + [REPORT_2[5]], [REPORT_2[6]]);
    BitsAppend([REPORT_2[4]], [REPORT_2[5]]);
    assert REPORT_2 == head + tail;
    BitsAppend(head, tail);
  }
}
