/**
 * Report-descriptor fixup for the XP-Pen Artist 13.3 (hid-xppen.c): on
 * interface 1 the 140-byte descriptor the tablet reports is replaced by a
 * fixed one of the same size declaring the pen (report 7), a settings
 * feature (report 5) and the frame buttons (report 6); interface 2 is
 * refused at probe time. The fixed descriptor is given as its HID short
 * items; walking them shows the reports it declares.
 */
module XppenArtist133 {
  import opened Common
  import opened HidItems

  /** Size of the descriptor the Artist 13.3 reports. */
  const RDESC_ORIG_SIZE: int := 140
  /** The interface whose descriptor is replaced. */
  const FIXED_INTERFACE: int := 1
  /** The interface the driver refuses. */
  const REFUSED_INTERFACE: int := 2

  // The fixed descriptor, in sections of three items. The sections exist only so that
  // the verifier unfolds the walk a few items at a time; the facts about the whole
  // descriptor are those of FixedDescriptor and the layout lemmas below.
  const PART_1: seq<Item> := [
    Item1(0x05, 0x0D),
    Item1(0x09, 0x02),
    Item1(0xA1, 0x01)]
  const PART_2: seq<Item> := [
    Item1(0x85, 0x07),
    Item1(0x09, 0x20),
    Item1(0xA1, 0x00)]
  const PART_3: seq<Item> := [
    Item1(0x09, 0x42),
    Item1(0x09, 0x44),
    Item1(0x09, 0x46)]
  const PART_4: seq<Item> := [
    Item1(0x15, 0x00),
    Item1(0x25, 0x01),
    Item1(0x75, 0x01)]
  const PART_5: seq<Item> := [
    Item1(0x95, 0x03),
    Item1(0x81, 0x02),
    Item1(0x95, 0x02)]
  const PART_6: seq<Item> := [
    Item1(0x81, 0x03),
    Item1(0x09, 0x32),
    Item1(0x95, 0x01)]
  const PART_7: seq<Item> := [
    Item1(0x81, 0x02),
    Item1(0x95, 0x02),
    Item1(0x81, 0x03)]
  const PART_8: seq<Item> := [
    Item1(0x75, 0x10),
    Item1(0x95, 0x01),
    Item1(0x35, 0x00)]
  const PART_9: seq<Item> := [
    Item0(0xA4),
    Item1(0x05, 0x01),
    Item1(0x09, 0x30)]
  const PART_10: seq<Item> := [
    Item1(0x65, 0x13),
    Item1(0x55, 0x0D),
    Item2(0x46, 0x2D, 0x2D)]
  const PART_11: seq<Item> := [
    Item4(0x27, 0xC0, 0x72, 0x00, 0x00),
    Item1(0x81, 0x02),
    Item1(0x09, 0x31)]
  const PART_12: seq<Item> := [
    Item2(0x46, 0x69, 0x19),
    Item4(0x27, 0x8C, 0x40, 0x00, 0x00),
    Item1(0x81, 0x02)]
  const PART_13: seq<Item> := [
    Item0(0xB4),
    Item1(0x09, 0x30),
    Item1(0x45, 0x00)]
  const PART_14: seq<Item> := [
    Item2(0x26, 0xFF, 0x1F),
    Item1(0x81, 0x02),
    Item0(0xC0)]
  const PART_15: seq<Item> := [
    Item0(0xC0),
    Item1(0x09, 0x0E),
    Item1(0xA1, 0x01)]
  const PART_16: seq<Item> := [
    Item1(0x85, 0x05),
    Item1(0x09, 0x23),
    Item1(0xA1, 0x02)]
  const PART_17: seq<Item> := [
    Item1(0x09, 0x52),
    Item1(0x09, 0x53),
    Item1(0x25, 0x0A)]
  const PART_18: seq<Item> := [
    Item1(0x75, 0x08),
    Item1(0x95, 0x02),
    Item1(0xB1, 0x02)]
  const PART_19: seq<Item> := [
    Item0(0xC0),
    Item0(0xC0),
    Item1(0x05, 0x0C)]
  const PART_20: seq<Item> := [
    Item1(0x09, 0x36),
    Item1(0xA1, 0x00),
    Item1(0x85, 0x06)]
  const PART_21: seq<Item> := [
    Item1(0x05, 0x09),
    Item1(0x19, 0x01),
    Item1(0x29, 0x20)]
  const PART_22: seq<Item> := [
    Item1(0x15, 0x00),
    Item1(0x25, 0x01),
    Item1(0x95, 0x20)]
  const PART_23: seq<Item> := [
    Item1(0x75, 0x01),
    Item1(0x81, 0x02),
    Item0(0xC0)]
  // The whole descriptor, item by item as the driver's array lists them.
  const ITEMS: seq<Item> := PART_1 + PART_2 + PART_3 + PART_4 + PART_5 + PART_6 + PART_7 + PART_8 + PART_9 + PART_10 + PART_11 + PART_12 + PART_13 + PART_14 + PART_15 + PART_16 + PART_17 + PART_18 + PART_19 + PART_20 + PART_21 + PART_22 + PART_23
  // The walker state after each section, as evaluated by the verifier (WalkPart1..).
  const AFTER_1: Walker := Walker(Globals(13, 0, 0, 0, 0, 0, 0, 0, 0), [], 1, 1, 0, false, [], [], 6)
  const AFTER_2: Walker := Walker(Globals(13, 0, 0, 0, 0, 0, 7, 0, 0), [], 2, 2, 0, false, [7], [], 12)
  const AFTER_3: Walker := Walker(Globals(13, 0, 0, 0, 0, 0, 7, 0, 0), [], 2, 2, 0, false, [7], [], 18)
  const AFTER_4: Walker := Walker(Globals(13, 0, 1, 0, 0, 0, 7, 1, 0), [], 2, 2, 0, false, [7], [], 24)
  const AFTER_5: Walker := Walker(Globals(13, 0, 1, 0, 0, 0, 7, 1, 2), [], 2, 2, 0, false, [7], [Field(7, false, 13, 1, 3, 0, 1, 0, 0, 0)], 30)
  const AFTER_6: Walker := Walker(Globals(13, 0, 1, 0, 0, 0, 7, 1, 1), [], 2, 2, 0, false, [7], [Field(7, false, 13, 1, 3, 0, 1, 0, 0, 0),
      Field(7, true, 13, 1, 2, 0, 1, 0, 0, 0)], 36)
  const AFTER_7: Walker := Walker(Globals(13, 0, 1, 0, 0, 0, 7, 1, 2), [], 2, 2, 0, false, [7], [Field(7, false, 13, 1, 3, 0, 1, 0, 0, 0),
      Field(7, true, 13, 1, 2, 0, 1, 0, 0, 0),
      Field(7, false, 13, 1, 1, 0, 1, 0, 0, 0),
      Field(7, true, 13, 1, 2, 0, 1, 0, 0, 0)], 42)
  const AFTER_8: Walker := Walker(Globals(13, 0, 1, 0, 0, 0, 7, 16, 1), [], 2, 2, 0, false, [7], [Field(7, false, 13, 1, 3, 0, 1, 0, 0, 0),
      Field(7, true, 13, 1, 2, 0, 1, 0, 0, 0),
      Field(7, false, 13, 1, 1, 0, 1, 0, 0, 0),
      Field(7, true, 13, 1, 2, 0, 1, 0, 0, 0)], 48)
  const AFTER_9: Walker := Walker(Globals(1, 0, 1, 0, 0, 0, 7, 16, 1), [Globals(13, 0, 1, 0, 0, 0, 7, 16, 1)], 2, 2, 0, false, [7], [Field(7, false, 13, 1, 3, 0, 1, 0, 0, 0),
      Field(7, true, 13, 1, 2, 0, 1, 0, 0, 0),
      Field(7, false, 13, 1, 1, 0, 1, 0, 0, 0),
      Field(7, true, 13, 1, 2, 0, 1, 0, 0, 0)], 53)
  const AFTER_10: Walker := Walker(Globals(1, 0, 1, 0, 11565, -3, 7, 16, 1), [Globals(13, 0, 1, 0, 0, 0, 7, 16, 1)], 2, 2, 0, false, [7], [Field(7, false, 13, 1, 3, 0, 1, 0, 0, 0),
      Field(7, true, 13, 1, 2, 0, 1, 0, 0, 0),
      Field(7, false, 13, 1, 1, 0, 1, 0, 0, 0),
      Field(7, true, 13, 1, 2, 0, 1, 0, 0, 0)], 60)
  const AFTER_11: Walker := Walker(Globals(1, 0, 29376, 0, 11565, -3, 7, 16, 1), [Globals(13, 0, 1, 0, 0, 0, 7, 16, 1)], 2, 2, 0, false, [7], [Field(7, false, 13, 1, 3, 0, 1, 0, 0, 0),
      Field(7, true, 13, 1, 2, 0, 1, 0, 0, 0),
      Field(7, false, 13, 1, 1, 0, 1, 0, 0, 0),
      Field(7, true, 13, 1, 2, 0, 1, 0, 0, 0),
      Field(7, false, 1, 16, 1, 0, 29376, 0, 11565, -3)], 69)
  const AFTER_12: Walker := Walker(Globals(1, 0, 16524, 0, 6505, -3, 7, 16, 1), [Globals(13, 0, 1, 0, 0, 0, 7, 16, 1)], 2, 2, 0, false, [7], [Field(7, false, 13, 1, 3, 0, 1, 0, 0, 0),
      Field(7, true, 13, 1, 2, 0, 1, 0, 0, 0),
      Field(7, false, 13, 1, 1, 0, 1, 0, 0, 0),
      Field(7, true, 13, 1, 2, 0, 1, 0, 0, 0),
      Field(7, false, 1, 16, 1, 0, 29376, 0, 11565, -3),
      Field(7, false, 1, 16, 1, 0, 16524, 0, 6505, -3)], 79)
  const AFTER_13: Walker := Walker(Globals(13, 0, 1, 0, 0, 0, 7, 16, 1), [], 2, 2, 0, false, [7], [Field(7, false, 13, 1, 3, 0, 1, 0, 0, 0),
      Field(7, true, 13, 1, 2, 0, 1, 0, 0, 0),
      Field(7, false, 13, 1, 1, 0, 1, 0, 0, 0),
      Field(7, true, 13, 1, 2, 0, 1, 0, 0, 0),
      Field(7, false, 1, 16, 1, 0, 29376, 0, 11565, -3),
      Field(7, false, 1, 16, 1, 0, 16524, 0, 6505, -3)], 84)
  const AFTER_14: Walker := Walker(Globals(13, 0, 8191, 0, 0, 0, 7, 16, 1), [], 1, 2, 1, false, [7], [Field(7, false, 13, 1, 3, 0, 1, 0, 0, 0),
      Field(7, true, 13, 1, 2, 0, 1, 0, 0, 0),
      Field(7, false, 13, 1, 1, 0, 1, 0, 0, 0),
      Field(7, true, 13, 1, 2, 0, 1, 0, 0, 0),
      Field(7, false, 1, 16, 1, 0, 29376, 0, 11565, -3),
      Field(7, false, 1, 16, 1, 0, 16524, 0, 6505, -3),
      Field(7, false, 13, 16, 1, 0, 8191, 0, 0, 0)], 90)
  const AFTER_15: Walker := Walker(Globals(13, 0, 8191, 0, 0, 0, 7, 16, 1), [], 1, 3, 2, false, [7], [Field(7, false, 13, 1, 3, 0, 1, 0, 0, 0),
      Field(7, true, 13, 1, 2, 0, 1, 0, 0, 0),
      Field(7, false, 13, 1, 1, 0, 1, 0, 0, 0),
      Field(7, true, 13, 1, 2, 0, 1, 0, 0, 0),
      Field(7, false, 1, 16, 1, 0, 29376, 0, 11565, -3),
      Field(7, false, 1, 16, 1, 0, 16524, 0, 6505, -3),
      Field(7, false, 13, 16, 1, 0, 8191, 0, 0, 0)], 95)
  const AFTER_16: Walker := Walker(Globals(13, 0, 8191, 0, 0, 0, 5, 16, 1), [], 2, 4, 2, false, [7, 5], [Field(7, false, 13, 1, 3, 0, 1, 0, 0, 0),
      Field(7, true, 13, 1, 2, 0, 1, 0, 0, 0),
      Field(7, false, 13, 1, 1, 0, 1, 0, 0, 0),
      Field(7, true, 13, 1, 2, 0, 1, 0, 0, 0),
      Field(7, false, 1, 16, 1, 0, 29376, 0, 11565, -3),
      Field(7, false, 1, 16, 1, 0, 16524, 0, 6505, -3),
      Field(7, false, 13, 16, 1, 0, 8191, 0, 0, 0)], 101)
  const AFTER_17: Walker := Walker(Globals(13, 0, 10, 0, 0, 0, 5, 16, 1), [], 2, 4, 2, false, [7, 5], [Field(7, false, 13, 1, 3, 0, 1, 0, 0, 0),
      Field(7, true, 13, 1, 2, 0, 1, 0, 0, 0),
      Field(7, false, 13, 1, 1, 0, 1, 0, 0, 0),
      Field(7, true, 13, 1, 2, 0, 1, 0, 0, 0),
      Field(7, false, 1, 16, 1, 0, 29376, 0, 11565, -3),
      Field(7, false, 1, 16, 1, 0, 16524, 0, 6505, -3),
      Field(7, false, 13, 16, 1, 0, 8191, 0, 0, 0)], 107)
  const AFTER_18: Walker := Walker(Globals(13, 0, 10, 0, 0, 0, 5, 8, 2), [], 2, 4, 2, false, [7, 5], [Field(7, false, 13, 1, 3, 0, 1, 0, 0, 0),
      Field(7, true, 13, 1, 2, 0, 1, 0, 0, 0),
      Field(7, false, 13, 1, 1, 0, 1, 0, 0, 0),
      Field(7, true, 13, 1, 2, 0, 1, 0, 0, 0),
      Field(7, false, 1, 16, 1, 0, 29376, 0, 11565, -3),
      Field(7, false, 1, 16, 1, 0, 16524, 0, 6505, -3),
      Field(7, false, 13, 16, 1, 0, 8191, 0, 0, 0)], 113)
  const AFTER_19: Walker := Walker(Globals(12, 0, 10, 0, 0, 0, 5, 8, 2), [], 0, 4, 4, false, [7, 5], [Field(7, false, 13, 1, 3, 0, 1, 0, 0, 0),
      Field(7, true, 13, 1, 2, 0, 1, 0, 0, 0),
      Field(7, false, 13, 1, 1, 0, 1, 0, 0, 0),
      Field(7, true, 13, 1, 2, 0, 1, 0, 0, 0),
      Field(7, false, 1, 16, 1, 0, 29376, 0, 11565, -3),
      Field(7, false, 1, 16, 1, 0, 16524, 0, 6505, -3),
      Field(7, false, 13, 16, 1, 0, 8191, 0, 0, 0)], 117)
  const AFTER_20: Walker := Walker(Globals(12, 0, 10, 0, 0, 0, 6, 8, 2), [], 1, 5, 4, false, [7, 5, 6], [Field(7, false, 13, 1, 3, 0, 1, 0, 0, 0),
      Field(7, true, 13, 1, 2, 0, 1, 0, 0, 0),
      Field(7, false, 13, 1, 1, 0, 1, 0, 0, 0),
      Field(7, true, 13, 1, 2, 0, 1, 0, 0, 0),
      Field(7, false, 1, 16, 1, 0, 29376, 0, 11565, -3),
      Field(7, false, 1, 16, 1, 0, 16524, 0, 6505, -3),
      Field(7, false, 13, 16, 1, 0, 8191, 0, 0, 0)], 123)
  const AFTER_21: Walker := Walker(Globals(9, 0, 10, 0, 0, 0, 6, 8, 2), [], 1, 5, 4, false, [7, 5, 6], [Field(7, false, 13, 1, 3, 0, 1, 0, 0, 0),
      Field(7, true, 13, 1, 2, 0, 1, 0, 0, 0),
      Field(7, false, 13, 1, 1, 0, 1, 0, 0, 0),
      Field(7, true, 13, 1, 2, 0, 1, 0, 0, 0),
      Field(7, false, 1, 16, 1, 0, 29376, 0, 11565, -3),
      Field(7, false, 1, 16, 1, 0, 16524, 0, 6505, -3),
      Field(7, false, 13, 16, 1, 0, 8191, 0, 0, 0)], 129)
  const AFTER_22: Walker := Walker(Globals(9, 0, 1, 0, 0, 0, 6, 8, 32), [], 1, 5, 4, false, [7, 5, 6], [Field(7, false, 13, 1, 3, 0, 1, 0, 0, 0),
      Field(7, true, 13, 1, 2, 0, 1, 0, 0, 0),
      Field(7, false, 13, 1, 1, 0, 1, 0, 0, 0),
      Field(7, true, 13, 1, 2, 0, 1, 0, 0, 0),
      Field(7, false, 1, 16, 1, 0, 29376, 0, 11565, -3),
      Field(7, false, 1, 16, 1, 0, 16524, 0, 6505, -3),
      Field(7, false, 13, 16, 1, 0, 8191, 0, 0, 0)], 135)
  const AFTER_23: Walker := Walker(Globals(9, 0, 1, 0, 0, 0, 6, 1, 32), [], 0, 5, 5, false, [7, 5, 6], [Field(7, false, 13, 1, 3, 0, 1, 0, 0, 0),
      Field(7, true, 13, 1, 2, 0, 1, 0, 0, 0),
      Field(7, false, 13, 1, 1, 0, 1, 0, 0, 0),
      Field(7, true, 13, 1, 2, 0, 1, 0, 0, 0),
      Field(7, false, 1, 16, 1, 0, 29376, 0, 11565, -3),
      Field(7, false, 1, 16, 1, 0, 16524, 0, 6505, -3),
      Field(7, false, 13, 16, 1, 0, 8191, 0, 0, 0),
      Field(6, false, 9, 1, 32, 0, 1, 0, 0, 0)], 140)

  // Each section walked from the state the previous one left.
  lemma WalkPart1()
    ensures Walk(START, PART_1) == AFTER_1
  {
  }

  lemma WalkPart2()
    ensures Walk(AFTER_1, PART_2) == AFTER_2
  {
  }

  lemma WalkPart3()
    ensures Walk(AFTER_2, PART_3) == AFTER_3
  {
  }

  lemma WalkPart4()
    ensures Walk(AFTER_3, PART_4) == AFTER_4
  {
  }

  lemma WalkPart5()
    ensures Walk(AFTER_4, PART_5) == AFTER_5
  {
  }

  lemma WalkPart6()
    ensures Walk(AFTER_5, PART_6) == AFTER_6
  {
  }

  lemma WalkPart7()
    ensures Walk(AFTER_6, PART_7) == AFTER_7
  {
  }

  lemma WalkPart8()
    ensures Walk(AFTER_7, PART_8) == AFTER_8
  {
  }

  lemma WalkPart9()
    ensures Walk(AFTER_8, PART_9) == AFTER_9
  {
  }

  lemma WalkPart10()
    ensures Walk(AFTER_9, PART_10) == AFTER_10
  {
  }

  lemma WalkPart11()
    ensures Walk(AFTER_10, PART_11) == AFTER_11
  {
  }

  lemma WalkPart12()
    ensures Walk(AFTER_11, PART_12) == AFTER_12
  {
  }

  lemma WalkPart13()
    ensures Walk(AFTER_12, PART_13) == AFTER_13
  {
  }

  lemma WalkPart14()
    ensures Walk(AFTER_13, PART_14) == AFTER_14
  {
  }

  lemma WalkPart15()
    ensures Walk(AFTER_14, PART_15) == AFTER_15
  {
  }

  lemma WalkPart16()
    ensures Walk(AFTER_15, PART_16) == AFTER_16
  {
  }

  lemma WalkPart17()
    ensures Walk(AFTER_16, PART_17) == AFTER_17
  {
  }

  lemma WalkPart18()
    ensures Walk(AFTER_17, PART_18) == AFTER_18
  {
  }

  lemma WalkPart19()
    ensures Walk(AFTER_18, PART_19) == AFTER_19
  {
  }

  lemma WalkPart20()
    ensures Walk(AFTER_19, PART_20) == AFTER_20
  {
  }

  lemma WalkPart21()
    ensures Walk(AFTER_20, PART_21) == AFTER_21
  {
  }

  lemma WalkPart22()
    ensures Walk(AFTER_21, PART_22) == AFTER_22
  {
  }

  lemma WalkPart23()
    ensures Walk(AFTER_22, PART_23) == AFTER_23
  {
  }

  /** Walking the whole fixed descriptor. */
  lemma FixedWalk()
    ensures Walk(START, ITEMS) == AFTER_23
  {
    WalkPart1();
    WalkPart2();
    WalkPart3();
    WalkPart4();
    WalkPart5();
    WalkPart6();
    WalkPart7();
    WalkPart8();
    WalkPart9();
    WalkPart10();
    WalkPart11();
    WalkPart12();
    WalkPart13();
    WalkPart14();
    WalkPart15();
    WalkPart16();
    WalkPart17();
    WalkPart18();
    WalkPart19();
    WalkPart20();
    WalkPart21();
    WalkPart22();
    WalkPart23();
    WalkAppend(START, PART_1, PART_2);
    WalkAppend(START, PART_1 + PART_2, PART_3);
    WalkAppend(START, PART_1 + PART_2 + PART_3, PART_4);
    WalkAppend(START, PART_1 + PART_2 + PART_3 + PART_4, PART_5);
    WalkAppend(START, PART_1 + PART_2 + PART_3 + PART_4 + PART_5, PART_6);
    WalkAppend(START, PART_1 + PART_2 + PART_3 + PART_4 + PART_5 + PART_6, PART_7);
    WalkAppend(START, PART_1 + PART_2 + PART_3 + PART_4 + PART_5 + PART_6 + PART_7, PART_8);
    WalkAppend(START, PART_1 + PART_2 + PART_3 + PART_4 + PART_5 + PART_6 + PART_7 + PART_8, PART_9);
    WalkAppend(START, PART_1 + PART_2 + PART_3 + PART_4 + PART_5 + PART_6 + PART_7 + PART_8 + PART_9, PART_10);
    WalkAppend(START, PART_1 + PART_2 + PART_3 + PART_4 + PART_5 + PART_6 + PART_7 + PART_8 + PART_9 + PART_10, PART_11);
    WalkAppend(START, PART_1 + PART_2 + PART_3 + PART_4 + PART_5 + PART_6 + PART_7 + PART_8 + PART_9 + PART_10 + PART_11, PART_12);
    WalkAppend(START, PART_1 + PART_2 + PART_3 + PART_4 + PART_5 + PART_6 + PART_7 + PART_8 + PART_9 + PART_10 + PART_11 + PART_12, PART_13);
    WalkAppend(START, PART_1 + PART_2 + PART_3 + PART_4 + PART_5 + PART_6 + PART_7 + PART_8 + PART_9 + PART_10 + PART_11 + PART_12 + PART_13, PART_14);
    WalkAppend(START, PART_1 + PART_2 + PART_3 + PART_4 + PART_5 + PART_6 + PART_7 + PART_8 + PART_9 + PART_10 + PART_11 + PART_12 + PART_13 + PART_14, PART_15);
    WalkAppend(START, PART_1 + PART_2 + PART_3 + PART_4 + PART_5 + PART_6 + PART_7 + PART_8 + PART_9 + PART_10 + PART_11 + PART_12 + PART_13 + PART_14 + PART_15, PART_16);
    WalkAppend(START, PART_1 + PART_2 + PART_3 + PART_4 + PART_5 + PART_6 + PART_7 + PART_8 + PART_9 + PART_10 + PART_11 + PART_12 + PART_13 + PART_14 + PART_15 + PART_16, PART_17);
    WalkAppend(START, PART_1 + PART_2 + PART_3 + PART_4 + PART_5 + PART_6 + PART_7 + PART_8 + PART_9 + PART_10 + PART_11 + PART_12 + PART_13 + PART_14 + PART_15 + PART_16 + PART_17, PART_18);
    WalkAppend(START, PART_1 + PART_2 + PART_3 + PART_4 + PART_5 + PART_6 + PART_7 + PART_8 + PART_9 + PART_10 + PART_11 + PART_12 + PART_13 + PART_14 + PART_15 + PART_16 + PART_17 + PART_18, PART_19);
    WalkAppend(START, PART_1 + PART_2 + PART_3 + PART_4 + PART_5 + PART_6 + PART_7 + PART_8 + PART_9 + PART_10 + PART_11 + PART_12 + PART_13 + PART_14 + PART_15 + PART_16 + PART_17 + PART_18 + PART_19, PART_20);
    WalkAppend(START, PART_1 + PART_2 + PART_3 + PART_4 + PART_5 + PART_6 + PART_7 + PART_8 + PART_9 + PART_10 + PART_11 + PART_12 + PART_13 + PART_14 + PART_15 + PART_16 + PART_17 + PART_18 + PART_19 + PART_20, PART_21);
    WalkAppend(START, PART_1 + PART_2 + PART_3 + PART_4 + PART_5 + PART_6 + PART_7 + PART_8 + PART_9 + PART_10 + PART_11 + PART_12 + PART_13 + PART_14 + PART_15 + PART_16 + PART_17 + PART_18 + PART_19 + PART_20 + PART_21, PART_22);
    WalkAppend(START, PART_1 + PART_2 + PART_3 + PART_4 + PART_5 + PART_6 + PART_7 + PART_8 + PART_9 + PART_10 + PART_11 + PART_12 + PART_13 + PART_14 + PART_15 + PART_16 + PART_17 + PART_18 + PART_19 + PART_20 + PART_21 + PART_22, PART_23);
  }

  /** The bytes of the fixed descriptor (artist133_rdesc_fixed). */
  const RDESC_FIXED: seq<bv8> := Encode(ITEMS)

  /**
   * artist133_report_fixup: the fixed descriptor replaces the one the
   * tablet reports exactly when the device is an Artist 13.3, the interface
   * is 1 and the descriptor has the original size; anything else is
   * returned as it came.
   */
  function ReportFixup(artist133: bool, iface: int, rdesc: seq<bv8>): (r: seq<bv8>)
    ensures artist133 && iface == FIXED_INTERFACE && |rdesc| == RDESC_ORIG_SIZE ==> r == RDESC_FIXED
    ensures !(artist133 && iface == FIXED_INTERFACE && |rdesc| == RDESC_ORIG_SIZE) ==> r == rdesc
  {
    if artist133 && iface == FIXED_INTERFACE && |rdesc| == RDESC_ORIG_SIZE then RDESC_FIXED
    else rdesc
  }

  /**
   * The interface check of artist133_probe: -ENODEV for interface 2 of an
   * Artist 13.3, before the descriptor is parsed; 0 lets the probe go on.
   */
  function ProbeInterfaceCheck(artist133: bool, iface: int): (rc: int)
    ensures rc == 0 || rc == -ENODEV
    ensures rc == -ENODEV <==> artist133 && iface == REFUSED_INTERFACE
  {
    if artist133 && iface == REFUSED_INTERFACE then -ENODEV else 0
  }

  /**
   * The Input fields of the fixed descriptor, in order: report 7 has three
   * pen switches, two constant bits, In Range, two constant bits, then X
   * and Y in units of 10^-3 inch and the pressure; report 6 has 32 buttons.
   * Report 5 is a Feature and has no Input field.
   */
  const FIELDS: seq<Field> := [
    Field(7, false, 0x0D, 1, 3, 0, 1, 0, 0, 0),
    Field(7, true, 0x0D, 1, 2, 0, 1, 0, 0, 0),
    Field(7, false, 0x0D, 1, 1, 0, 1, 0, 0, 0),
    Field(7, true, 0x0D, 1, 2, 0, 1, 0, 0, 0),
    Field(7, false, 0x01, 16, 1, 0, 29376, 0, 11565, -3),
    Field(7, false, 0x01, 16, 1, 0, 16524, 0, 6505, -3),
    Field(7, false, 0x0D, 16, 1, 0, 8191, 0, 0, 0),
    Field(6, false, 0x09, 1, 32, 0, 1, 0, 0, 0)]

  /**
   * The fixed descriptor is a well-formed short-item stream of 140 bytes,
   * as long as the original, with its collections and its Push/Pop
   * balanced; it declares reports 7, 5 and 6, in that order, and its Input
   * fields are FIELDS.
   */
  lemma FixedDescriptor()
    ensures Parse(RDESC_FIXED) == Some(ITEMS) && |RDESC_FIXED| == RDESC_ORIG_SIZE
    ensures Balanced(Walk(START, ITEMS))
    ensures Walk(START, ITEMS).ids == [7, 5, 6]
    ensures Walk(START, ITEMS).inputs == FIELDS
  {
    FixedWalk();
    UnbrokenWellFormed(START, ITEMS);
    WalkSize(START, ITEMS);
  }

  /**
   * The item values decode as the descriptor's comments say: the 4-byte
   * Logical Maximum items give 29376 and 16524, the Physical Maximum items
   * 11565 and 6505; the Unit Exponent item 0x0D is -3 (its comment says 13).
   */
  lemma ItemValues()
    ensures Kind(ITEMS[30].prefix) == LOGICAL_MAXIMUM && ITEMS[30].Item4? && Value(ITEMS[30]) == 29376
    ensures Kind(ITEMS[34].prefix) == LOGICAL_MAXIMUM && ITEMS[34].Item4? && Value(ITEMS[34]) == 16524
    ensures Kind(ITEMS[29].prefix) == PHYSICAL_MAXIMUM && Value(ITEMS[29]) == 11565
    ensures Kind(ITEMS[33].prefix) == PHYSICAL_MAXIMUM && Value(ITEMS[33]) == 6505
    ensures Kind(ITEMS[28].prefix) == UNIT_EXPONENT && Value(ITEMS[28]) == 13 && ExponentOf(ITEMS[28]) == -3
  {
    assert ITEMS[28] == PART_10[1] && ITEMS[29] == PART_10[2];
    assert ITEMS[30] == PART_11[0] && ITEMS[33] == PART_12[0] && ITEMS[34] == PART_12[1];
  }

  /**
   * Report 7 is 64 bits with its ID byte: eight flag bits, then X, Y and
   * pressure of 16 bits each.
   */
  lemma Report7Layout()
    ensures forall i :: 0 <= i < 7 ==> FIELDS[i].reportId == 7
    ensures 8 + Bits(FIELDS[..7]) == 64
    ensures Bits(FIELDS[..4]) == 8
    ensures forall i :: 4 <= i < 7 ==> FIELDS[i].size == 16 && FIELDS[i].count == 1
  {
    var head := [FIELDS[0]] + [FIELDS[1]] + [FIELDS[2]] + [FIELDS[3]];
    var tail := [FIELDS[4]] + [FIELDS[5]] + [FIELDS[6]];
    assert FIELDS[..4] == head && FIELDS[..7] == head + tail;
    BitsAppend(head, tail);
    BitsAppend([FIELDS[0]] + [FIELDS[1]] + [FIELDS[2]], [FIELDS[3]]);
    BitsAppend([FIELDS[0]] + [FIELDS[1]], [FIELDS[2]]);
    BitsAppend([FIELDS[0]], [FIELDS[1]]);
    BitsAppend([FIELDS[4]] + [FIELDS[5]], [FIELDS[6]]);
    BitsAppend([FIELDS[4]], [FIELDS[5]]);
  }

  /** Report 6 is the last Input field: 32 one-bit buttons on the Button page. */
  lemma Report6Buttons()
    ensures var f := Walk(START, ITEMS).inputs;
      |f| == 8 && f[7].reportId == 6 &&
      f[7].page == PAGE_BUTTON &&
      f[7].size == 1 && f[7].count == 32 &&
      !f[7].constant
  {
    FixedDescriptor();
  }
}
