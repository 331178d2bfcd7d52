/**
 * Report-descriptor fixup for the Polostar PT-1001 tablet
 * (hid-polostar.c): on interface 1 the 317-byte descriptor the tablet
 * reports is replaced by a fixed one declaring a mouse (report 1), consumer
 * keys (report 5) and a pen (report 9); interface 2 is refused at probe
 * time. The fixed descriptor is given as its HID short items; walking them
 * shows the reports it declares.
 */
module Polostar {
  import opened Common
  import opened HidItems

  /** Size of the descriptor the PT-1001 reports. */
  const RDESC_ORIG_SIZE: int := 317
  /** The interface whose descriptor is replaced. */
  const FIXED_INTERFACE: int := 1
  /** The interface the driver refuses. */
  const REFUSED_INTERFACE: int := 2

  // The fixed descriptor, in sections of three items. The sections exist only so that
  // the verifier unfolds the walk a few items at a time; the facts about the whole
  // descriptor are those of FixedDescriptor and the layout lemmas below.
  const PART_1: seq<Item> := [
    Item1(0x05, 0x01),
    Item1(0x09, 0x02),
    Item1(0xA1, 0x01)]
  const PART_2: seq<Item> := [
    Item1(0x85, 0x01),
    Item1(0x09, 0x01),
    Item1(0xA1, 0x00)]
  const PART_3: seq<Item> := [
    Item1(0x05, 0x09),
    Item1(0x09, 0x01),
    Item1(0x09, 0x03)]
  const PART_4: seq<Item> := [
    Item1(0x09, 0x02),
    Item1(0x09, 0x04),
    Item1(0x09, 0x05)]
  const PART_5: seq<Item> := [
    Item1(0x95, 0x05),
    Item1(0x75, 0x01),
    Item1(0x15, 0x00)]
  const PART_6: seq<Item> := [
    Item1(0x25, 0x01),
    Item1(0x81, 0x02),
    Item1(0x95, 0x03)]
  const PART_7: seq<Item> := [
    Item1(0x81, 0x01),
    Item1(0x05, 0x01),
    Item1(0x09, 0x30)]
  const PART_8: seq<Item> := [
    Item1(0x09, 0x31),
    Item1(0x95, 0x02),
    Item1(0x75, 0x10)]
  const PART_9: seq<Item> := [
    Item2(0x16, 0x01, 0x80),
    Item2(0x26, 0xFF, 0x7F),
    Item1(0x81, 0x06)]
  const PART_10: seq<Item> := [
    Item1(0x15, 0x81),
    Item1(0x25, 0x7F),
    Item1(0x75, 0x08)]
  const PART_11: seq<Item> := [
    Item1(0x95, 0x01),
    Item1(0x09, 0x38),
    Item1(0x05, 0x0C)]
  const PART_12: seq<Item> := [
    Item2(0x0A, 0x38, 0x02),
    Item1(0x81, 0x06),
    Item0(0xC0)]
  const PART_13: seq<Item> := [
    Item0(0xC0),
    Item1(0x05, 0x0C),
    Item1(0x09, 0x01)]
  const PART_14: seq<Item> := [
    Item1(0xA1, 0x01),
    Item1(0x85, 0x05),
    Item1(0x95, 0x01)]
  const PART_15: seq<Item> := [
    Item1(0x75, 0x08),
    Item1(0x81, 0x01),
    Item1(0x15, 0x00)]
  const PART_16: seq<Item> := [
    Item1(0x25, 0x01),
    Item1(0x75, 0x01),
    Item1(0x95, 0x12)]
  const PART_17: seq<Item> := [
    Item2(0x0A, 0x83, 0x01),
    Item2(0x0A, 0x8A, 0x01),
    Item2(0x0A, 0x92, 0x01)]
  const PART_18: seq<Item> := [
    Item2(0x0A, 0x94, 0x01),
    Item2(0x0A, 0x21, 0x02),
    Item2(0x0A, 0x23, 0x02)]
  const PART_19: seq<Item> := [
    Item2(0x0A, 0x24, 0x02),
    Item2(0x0A, 0x25, 0x02),
    Item2(0x0A, 0x26, 0x02)]
  const PART_20: seq<Item> := [
    Item2(0x0A, 0x27, 0x02),
    Item2(0x0A, 0x2A, 0x02),
    Item1(0x09, 0xB5)]
  const PART_21: seq<Item> := [
    Item1(0x09, 0xB6),
    Item1(0x09, 0xB7),
    Item1(0x09, 0xCD)]
  const PART_22: seq<Item> := [
    Item1(0x09, 0xE2),
    Item1(0x09, 0xE9),
    Item1(0x09, 0xEA)]
  const PART_23: seq<Item> := [
    Item1(0x81, 0x62),
    Item1(0x95, 0x06),
    Item1(0x75, 0x01)]
  const PART_24: seq<Item> := [
    Item1(0x81, 0x03),
    Item0(0xC0),
    Item1(0x05, 0x0D)]
  const PART_25: seq<Item> := [
    Item1(0x09, 0x01),
    Item1(0xA1, 0x01),
    Item1(0x85, 0x09)]
  const PART_26: seq<Item> := [
    Item1(0x09, 0x20),
    Item1(0xA1, 0x00),
    Item1(0x09, 0x42)]
  const PART_27: seq<Item> := [
    Item1(0x09, 0x44),
    Item1(0x09, 0x46),
    Item1(0x15, 0x00)]
  const PART_28: seq<Item> := [
    Item1(0x25, 0x01),
    Item1(0x95, 0x03),
    Item1(0x75, 0x01)]
  const PART_29: seq<Item> := [
    Item1(0x81, 0x02),
    Item1(0x95, 0x05),
    Item1(0x81, 0x01)]
  const PART_30: seq<Item> := [
    Item1(0x15, 0x00),
    Item2(0x26, 0x00, 0x10),
    Item1(0x75, 0x10)]
  const PART_31: seq<Item> := [
    Item1(0x95, 0x01),
    Item0(0xA4),
    Item1(0x05, 0x01)]
  const PART_32: seq<Item> := [
    Item1(0x55, 0xFE),
    Item1(0x65, 0x11),
    Item1(0x09, 0x30)]
  const PART_33: seq<Item> := [
    Item1(0x35, 0x00),
    Item2(0x46, 0x20, 0x04),
    Item1(0x81, 0x02)]
  const PART_34: seq<Item> := [
    Item1(0x09, 0x31),
    Item2(0x46, 0x94, 0x02),
    Item1(0x81, 0x02)]
  const PART_35: seq<Item> := [
    Item0(0xB4),
    Item1(0x09, 0x30),
    Item2(0x26, 0xFF, 0x03)]
  const PART_36: seq<Item> := [
    Item1(0x81, 0x02),
    Item0(0xC0),
    Item0(0xC0)]
  // The whole descriptor, item by item as the driver's array lists them.
  const ITEMS: seq<Item> := PART_1 + PART_2 + PART_3 + PART_4 + PART_5 + PART_6 + PART_7 + PART_8 + PART_9 + PART_10 + PART_11 + PART_12 + PART_13 + PART_14 + PART_15 + PART_16 + PART_17 + PART_18 + PART_19 + PART_20 + PART_21 + PART_22 + PART_23 + PART_24 + PART_25 + PART_26 + PART_27 + PART_28 + PART_29 + PART_30 + PART_31 + PART_32 + PART_33 + PART_34 + PART_35 + PART_36
  // The walker state after each section, as evaluated by the verifier (WalkPart1..).
  const AFTER_1: Walker := Walker(Globals(1, 0, 0, 0, 0, 0, 0, 0, 0), [], 1, 1, 0, false, [], [], 6)
  const AFTER_2: Walker := Walker(Globals(1, 0, 0, 0, 0, 0, 1, 0, 0), [], 2, 2, 0, false, [1], [], 12)
  const AFTER_3: Walker := Walker(Globals(9, 0, 0, 0, 0, 0, 1, 0, 0), [], 2, 2, 0, false, [1], [], 18)
  const AFTER_4: Walker := Walker(Globals(9, 0, 0, 0, 0, 0, 1, 0, 0), [], 2, 2, 0, false, [1], [], 24)
  const AFTER_5: Walker := Walker(Globals(9, 0, 0, 0, 0, 0, 1, 1, 5), [], 2, 2, 0, false, [1], [], 30)
  const AFTER_6: Walker := Walker(Globals(9, 0, 1, 0, 0, 0, 1, 1, 3), [], 2, 2, 0, false, [1], [Field(1, false, 9, 1, 5, 0, 1, 0, 0, 0)], 36)
  const AFTER_7: Walker := Walker(Globals(1, 0, 1, 0, 0, 0, 1, 1, 3), [], 2, 2, 0, false, [1], [Field(1, false, 9, 1, 5, 0, 1, 0, 0, 0),
      Field(1, true, 9, 1, 3, 0, 1, 0, 0, 0)], 42)
  const AFTER_8: Walker := Walker(Globals(1, 0, 1, 0, 0, 0, 1, 16, 2), [], 2, 2, 0, false, [1], [Field(1, false, 9, 1, 5, 0, 1, 0, 0, 0),
      Field(1, true, 9, 1, 3, 0, 1, 0, 0, 0)], 48)
  const AFTER_9: Walker := Walker(Globals(1, -32767, 32767, 0, 0, 0, 1, 16, 2), [], 2, 2, 0, false, [1], [Field(1, false, 9, 1, 5, 0, 1, 0, 0, 0),
      Field(1, true, 9, 1, 3, 0, 1, 0, 0, 0),
      Field(1, false, 1, 16, 2, -32767, 32767, 0, 0, 0)], 56)
  const AFTER_10: Walker := Walker(Globals(1, -127, 127, 0, 0, 0, 1, 8, 2), [], 2, 2, 0, false, [1], [Field(1, false, 9, 1, 5, 0, 1, 0, 0, 0),
      Field(1, true, 9, 1, 3, 0, 1, 0, 0, 0),
      Field(1, false, 1, 16, 2, -32767, 32767, 0, 0, 0)], 62)
  const AFTER_11: Walker := Walker(Globals(12, -127, 127, 0, 0, 0, 1, 8, 1), [], 2, 2, 0, false, [1], [Field(1, false, 9, 1, 5, 0, 1, 0, 0, 0),
      Field(1, true, 9, 1, 3, 0, 1, 0, 0, 0),
      Field(1, false, 1, 16, 2, -32767, 32767, 0, 0, 0)], 68)
  const AFTER_12: Walker := Walker(Globals(12, -127, 127, 0, 0, 0, 1, 8, 1), [], 1, 2, 1, false, [1], [Field(1, false, 9, 1, 5, 0, 1, 0, 0, 0),
      Field(1, true, 9, 1, 3, 0, 1, 0, 0, 0),
      Field(1, false, 1, 16, 2, -32767, 32767, 0, 0, 0),
      Field(1, false, 12, 8, 1, -127, 127, 0, 0, 0)], 74)
  const AFTER_13: Walker := Walker(Globals(12, -127, 127, 0, 0, 0, 1, 8, 1), [], 0, 2, 2, false, [1], [Field(1, false, 9, 1, 5, 0, 1, 0, 0, 0),
      Field(1, true, 9, 1, 3, 0, 1, 0, 0, 0),
      Field(1, false, 1, 16, 2, -32767, 32767, 0, 0, 0),
      Field(1, false, 12, 8, 1, -127, 127, 0, 0, 0)], 79)
  const AFTER_14: Walker := Walker(Globals(12, -127, 127, 0, 0, 0, 5, 8, 1), [], 1, 3, 2, false, [1, 5], [Field(1, false, 9, 1, 5, 0, 1, 0, 0, 0),
      Field(1, true, 9, 1, 3, 0, 1, 0, 0, 0),
      Field(1, false, 1, 16, 2, -32767, 32767, 0, 0, 0),
      Field(1, false, 12, 8, 1, -127, 127, 0, 0, 0)], 85)
  const AFTER_15: Walker := Walker(Globals(12, 0, 127, 0, 0, 0, 5, 8, 1), [], 1, 3, 2, false, [1, 5], [Field(1, false, 9, 1, 5, 0, 1, 0, 0, 0),
      Field(1, true, 9, 1, 3, 0, 1, 0, 0, 0),
      Field(1, false, 1, 16, 2, -32767, 32767, 0, 0, 0),
      Field(1, false, 12, 8, 1, -127, 127, 0, 0, 0),
      Field(5, true, 12, 8, 1, -127, 127, 0, 0, 0)], 91)
  const AFTER_16: Walker := Walker(Globals(12, 0, 1, 0, 0, 0, 5, 1, 18), [], 1, 3, 2, false, [1, 5], [Field(1, false, 9, 1, 5, 0, 1, 0, 0, 0),
      Field(1, true, 9, 1, 3, 0, 1, 0, 0, 0),
      Field(1, false, 1, 16, 2, -32767, 32767, 0, 0, 0),
      Field(1, false, 12, 8, 1, -127, 127, 0, 0, 0),
      Field(5, true, 12, 8, 1, -127, 127, 0, 0, 0)], 97)
  const AFTER_17: Walker := Walker(Globals(12, 0, 1, 0, 0, 0, 5, 1, 18), [], 1, 3, 2, false, [1, 5], [Field(1, false, 9, 1, 5, 0, 1, 0, 0, 0),
      Field(1, true, 9, 1, 3, 0, 1, 0, 0, 0),
      Field(1, false, 1, 16, 2, -32767, 32767, 0, 0, 0),
      Field(1, false, 12, 8, 1, -127, 127, 0, 0, 0),
      Field(5, true, 12, 8, 1, -127, 127, 0, 0, 0)], 106)
  const AFTER_18: Walker := Walker(Globals(12, 0, 1, 0, 0, 0, 5, 1, 18), [], 1, 3, 2, false, [1, 5], [Field(1, false, 9, 1, 5, 0, 1, 0, 0, 0),
      Field(1, true, 9, 1, 3, 0, 1, 0, 0, 0),
      Field(1, false, 1, 16, 2, -32767, 32767, 0, 0, 0),
      Field(1, false, 12, 8, 1, -127, 127, 0, 0, 0),
      Field(5, true, 12, 8, 1, -127, 127, 0, 0, 0)], 115)
  const AFTER_19: Walker := Walker(Globals(12, 0, 1, 0, 0, 0, 5, 1, 18), [], 1, 3, 2, false, [1, 5], [Field(1, false, 9, 1, 5, 0, 1, 0, 0, 0),
      Field(1, true, 9, 1, 3, 0, 1, 0, 0, 0),
      Field(1, false, 1, 16, 2, -32767, 32767, 0, 0, 0),
      Field(1, false, 12, 8, 1, -127, 127, 0, 0, 0),
      Field(5, true, 12, 8, 1, -127, 127, 0, 0, 0)], 124)
  const AFTER_20: Walker := Walker(Globals(12, 0, 1, 0, 0, 0, 5, 1, 18), [], 1, 3, 2, false, [1, 5], [Field(1, false, 9, 1, 5, 0, 1, 0, 0, 0),
      Field(1, true, 9, 1, 3, 0, 1, 0, 0, 0),
      Field(1, false, 1, 16, 2, -32767, 32767, 0, 0, 0),
      Field(1, false, 12, 8, 1, -127, 127, 0, 0, 0),
      Field(5, true, 12, 8, 1, -127, 127, 0, 0, 0)], 132)
  const AFTER_21: Walker := Walker(Globals(12, 0, 1, 0, 0, 0, 5, 1, 18), [], 1, 3, 2, false, [1, 5], [Field(1, false, 9, 1, 5, 0, 1, 0, 0, 0),
      Field(1, true, 9, 1, 3, 0, 1, 0, 0, 0),
      Field(1, false, 1, 16, 2, -32767, 32767, 0, 0, 0),
      Field(1, false, 12, 8, 1, -127, 127, 0, 0, 0),
      Field(5, true, 12, 8, 1, -127, 127, 0, 0, 0)], 138)
  const AFTER_22: Walker := Walker(Globals(12, 0, 1, 0, 0, 0, 5, 1, 18), [], 1, 3, 2, false, [1, 5], [Field(1, false, 9, 1, 5, 0, 1, 0, 0, 0),
      Field(1, true, 9, 1, 3, 0, 1, 0, 0, 0),
      Field(1, false, 1, 16, 2, -32767, 32767, 0, 0, 0),
      Field(1, false, 12, 8, 1, -127, 127, 0, 0, 0),
      Field(5, true, 12, 8, 1, -127, 127, 0, 0, 0)], 144)
  const AFTER_23: Walker := Walker(Globals(12, 0, 1, 0, 0, 0, 5, 1, 6), [], 1, 3, 2, false, [1, 5], [Field(1, false, 9, 1, 5, 0, 1, 0, 0, 0),
      Field(1, true, 9, 1, 3, 0, 1, 0, 0, 0),
      Field(1, false, 1, 16, 2, -32767, 32767, 0, 0, 0),
      Field(1, false, 12, 8, 1, -127, 127, 0, 0, 0),
      Field(5, true, 12, 8, 1, -127, 127, 0, 0, 0),
      Field(5, false, 12, 1, 18, 0, 1, 0, 0, 0)], 150)
  const AFTER_24: Walker := Walker(Globals(13, 0, 1, 0, 0, 0, 5, 1, 6), [], 0, 3, 3, false, [1, 5], [Field(1, false, 9, 1, 5, 0, 1, 0, 0, 0),
      Field(1, true, 9, 1, 3, 0, 1, 0, 0, 0),
      Field(1, false, 1, 16, 2, -32767, 32767, 0, 0, 0),
      Field(1, false, 12, 8, 1, -127, 127, 0, 0, 0),
      Field(5, true, 12, 8, 1, -127, 127, 0, 0, 0),
      Field(5, false, 12, 1, 18, 0, 1, 0, 0, 0),
      Field(5, true, 12, 1, 6, 0, 1, 0, 0, 0)], 155)
  const AFTER_25: Walker := Walker(Globals(13, 0, 1, 0, 0, 0, 9, 1, 6), [], 1, 4, 3, false, [1, 5, 9], [Field(1, false, 9, 1, 5, 0, 1, 0, 0, 0),
      Field(1, true, 9, 1, 3, 0, 1, 0, 0, 0),
      Field(1, false, 1, 16, 2, -32767, 32767, 0, 0, 0),
      Field(1, false, 12, 8, 1, -127, 127, 0, 0, 0),
      Field(5, true, 12, 8, 1, -127, 127, 0, 0, 0),
      Field(5, false, 12, 1, 18, 0, 1, 0, 0, 0),
      Field(5, true, 12, 1, 6, 0, 1, 0, 0, 0)], 161)
  const AFTER_26: Walker := Walker(Globals(13, 0, 1, 0, 0, 0, 9, 1, 6), [], 2, 5, 3, false, [1, 5, 9], [Field(1, false, 9, 1, 5, 0, 1, 0, 0, 0),
      Field(1, true, 9, 1, 3, 0, 1, 0, 0, 0),
      Field(1, false, 1, 16, 2, -32767, 32767, 0, 0, 0),
      Field(1, false, 12, 8, 1, -127, 127, 0, 0, 0),
      Field(5, true, 12, 8, 1, -127, 127, 0, 0, 0),
      Field(5, false, 12, 1, 18, 0, 1, 0, 0, 0),
      Field(5, true, 12, 1, 6, 0, 1, 0, 0, 0)], 167)
  const AFTER_27: Walker := Walker(Globals(13, 0, 1, 0, 0, 0, 9, 1, 6), [], 2, 5, 3, false, [1, 5, 9], [Field(1, false, 9, 1, 5, 0, 1, 0, 0, 0),
      Field(1, true, 9, 1, 3, 0, 1, 0, 0, 0),
      Field(1, false, 1, 16, 2, -32767, 32767, 0, 0, 0),
      Field(1, false, 12, 8, 1, -127, 127, 0, 0, 0),
      Field(5, true, 12, 8, 1, -127, 127, 0, 0, 0),
      Field(5, false, 12, 1, 18, 0, 1, 0, 0, 0),
      Field(5, true, 12, 1, 6, 0, 1, 0, 0, 0)], 173)
  const AFTER_28: Walker := Walker(Globals(13, 0, 1, 0, 0, 0, 9, 1, 3), [], 2, 5, 3, false, [1, 5, 9], [Field(1, false, 9, 1, 5, 0, 1, 0, 0, 0),
      Field(1, true, 9, 1, 3, 0, 1, 0, 0, 0),
      Field(1, false, 1, 16, 2, -32767, 32767, 0, 0, 0),
      Field(1, false, 12, 8, 1, -127, 127, 0, 0, 0),
      Field(5, true, 12, 8, 1, -127, 127, 0, 0, 0),
      Field(5, false, 12, 1, 18, 0, 1, 0, 0, 0),
      Field(5, true, 12, 1, 6, 0, 1, 0, 0, 0)], 179)
  const AFTER_29: Walker := Walker(Globals(13, 0, 1, 0, 0, 0, 9, 1, 5), [], 2, 5, 3, false, [1, 5, 9], [Field(1, false, 9, 1, 5, 0, 1, 0, 0, 0),
      Field(1, true, 9, 1, 3, 0, 1, 0, 0, 0),
      Field(1, false, 1, 16, 2, -32767, 32767, 0, 0, 0),
      Field(1, false, 12, 8, 1, -127, 127, 0, 0, 0),
      Field(5, true, 12, 8, 1, -127, 127, 0, 0, 0),
      Field(5, false, 12, 1, 18, 0, 1, 0, 0, 0),
      Field(5, true, 12, 1, 6, 0, 1, 0, 0, 0),
      Field(9, false, 13, 1, 3, 0, 1, 0, 0, 0),
      Field(9, true, 13, 1, 5, 0, 1, 0, 0, 0)], 185)
  const AFTER_30: Walker := Walker(Globals(13, 0, 4096, 0, 0, 0, 9, 16, 5), [], 2, 5, 3, false, [1, 5, 9], [Field(1, false, 9, 1, 5, 0, 1, 0, 0, 0),
      Field(1, true, 9, 1, 3, 0, 1, 0, 0, 0),
      Field(1, false, 1, 16, 2, -32767, 32767, 0, 0, 0),
      Field(1, false, 12, 8, 1, -127, 127, 0, 0, 0),
      Field(5, true, 12, 8, 1, -127, 127, 0, 0, 0),
      Field(5, false, 12, 1, 18, 0, 1, 0, 0, 0),
      Field(5, true, 12, 1, 6, 0, 1, 0, 0, 0),
      Field(9, false, 13, 1, 3, 0, 1, 0, 0, 0),
      Field(9, true, 13, 1, 5, 0, 1, 0, 0, 0)], 192)
  const AFTER_31: Walker := Walker(Globals(1, 0, 4096, 0, 0, 0, 9, 16, 1), [Globals(13, 0, 4096, 0, 0, 0, 9, 16, 1)], 2, 5, 3, false, [1, 5, 9], [Field(1, false, 9, 1, 5, 0, 1, 0, 0, 0),
      Field(1, true, 9, 1, 3, 0, 1, 0, 0, 0),
      Field(1, false, 1, 16, 2, -32767, 32767, 0, 0, 0),
      Field(1, false, 12, 8, 1, -127, 127, 0, 0, 0),
      Field(5, true, 12, 8, 1, -127, 127, 0, 0, 0),
      Field(5, false, 12, 1, 18, 0, 1, 0, 0, 0),
      Field(5, true, 12, 1, 6, 0, 1, 0, 0, 0),
      Field(9, false, 13, 1, 3, 0, 1, 0, 0, 0),
      Field(9, true, 13, 1, 5, 0, 1, 0, 0, 0)], 197)
  const AFTER_32: Walker := Walker(Globals(1, 0, 4096, 0, 0, -2, 9, 16, 1), [Globals(13, 0, 4096, 0, 0, 0, 9, 16, 1)], 2, 5, 3, false, [1, 5, 9], [Field(1, false, 9, 1, 5, 0, 1, 0, 0, 0),
      Field(1, true, 9, 1, 3, 0, 1, 0, 0, 0),
      Field(1, false, 1, 16, 2, -32767, 32767, 0, 0, 0),
      Field(1, false, 12, 8, 1, -127, 127, 0, 0, 0),
      Field(5, true, 12, 8, 1, -127, 127, 0, 0, 0),
      Field(5, false, 12, 1, 18, 0, 1, 0, 0, 0),
      Field(5, true, 12, 1, 6, 0, 1, 0, 0, 0),
      Field(9, false, 13, 1, 3, 0, 1, 0, 0, 0),
      Field(9, true, 13, 1, 5, 0, 1, 0, 0, 0)], 203)
  const AFTER_33: Walker := Walker(Globals(1, 0, 4096, 0, 1056, -2, 9, 16, 1), [Globals(13, 0, 4096, 0, 0, 0, 9, 16, 1)], 2, 5, 3, false, [1, 5, 9], [Field(1, false, 9, 1, 5, 0, 1, 0, 0, 0),
      Field(1, true, 9, 1, 3, 0, 1, 0, 0, 0),
      Field(1, false, 1, 16, 2, -32767, 32767, 0, 0, 0),
      Field(1, false, 12, 8, 1, -127, 127, 0, 0, 0),
      Field(5, true, 12, 8, 1, -127, 127, 0, 0, 0),
      Field(5, false, 12, 1, 18, 0, 1, 0, 0, 0),
      Field(5, true, 12, 1, 6, 0, 1, 0, 0, 0),
      Field(9, false, 13, 1, 3, 0, 1, 0, 0, 0),
      Field(9, true, 13, 1, 5, 0, 1, 0, 0, 0),
      Field(9, false, 1, 16, 1, 0, 4096, 0, 1056, -2)], 210)
  const AFTER_34: Walker := Walker(Globals(1, 0, 4096, 0, 660, -2, 9, 16, 1), [Globals(13, 0, 4096, 0, 0, 0, 9, 16, 1)], 2, 5, 3, false, [1, 5, 9], [Field(1, false, 9, 1, 5, 0, 1, 0, 0, 0),
      Field(1, true, 9, 1, 3, 0, 1, 0, 0, 0),
      Field(1, false, 1, 16, 2, -32767, 32767, 0, 0, 0),
      Field(1, false, 12, 8, 1, -127, 127, 0, 0, 0),
      Field(5, true, 12, 8, 1, -127, 127, 0, 0, 0),
      Field(5, false, 12, 1, 18, 0, 1, 0, 0, 0),
      Field(5, true, 12, 1, 6, 0, 1, 0, 0, 0),
      Field(9, false, 13, 1, 3, 0, 1, 0, 0, 0),
      Field(9, true, 13, 1, 5, 0, 1, 0, 0, 0),
      Field(9, false, 1, 16, 1, 0, 4096, 0, 1056, -2),
      Field(9, false, 1, 16, 1, 0, 4096, 0, 660, -2)], 217)
  const AFTER_35: Walker := Walker(Globals(13, 0, 1023, 0, 0, 0, 9, 16, 1), [], 2, 5, 3, false, [1, 5, 9], [Field(1, false, 9, 1, 5, 0, 1, 0, 0, 0),
      Field(1, true, 9, 1, 3, 0, 1, 0, 0, 0),
      Field(1, false, 1, 16, 2, -32767, 32767, 0, 0, 0),
      Field(1, false, 12, 8, 1, -127, 127, 0, 0, 0),
      Field(5, true, 12, 8, 1, -127, 127, 0, 0, 0),
      Field(5, false, 12, 1, 18, 0, 1, 0, 0, 0),
      Field(5, true, 12, 1, 6, 0, 1, 0, 0, 0),
      Field(9, false, 13, 1, 3, 0, 1, 0, 0, 0),
      Field(9, true, 13, 1, 5, 0, 1, 0, 0, 0),
      Field(9, false, 1, 16, 1, 0, 4096, 0, 1056, -2),
      Field(9, false, 1, 16, 1, 0, 4096, 0, 660, -2)], 223)
  const AFTER_36: Walker := Walker(Globals(13, 0, 1023, 0, 0, 0, 9, 16, 1), [], 0, 5, 5, false, [1, 5, 9], [Field(1, false, 9, 1, 5, 0, 1, 0, 0, 0),
      Field(1, true, 9, 1, 3, 0, 1, 0, 0, 0),
      Field(1, false, 1, 16, 2, -32767, 32767, 0, 0, 0),
      Field(1, false, 12, 8, 1, -127, 127, 0, 0, 0),
      Field(5, true, 12, 8, 1, -127, 127, 0, 0, 0),
      Field(5, false, 12, 1, 18, 0, 1, 0, 0, 0),
      Field(5, true, 12, 1, 6, 0, 1, 0, 0, 0),
      Field(9, false, 13, 1, 3, 0, 1, 0, 0, 0),
      Field(9, true, 13, 1, 5, 0, 1, 0, 0, 0),
      Field(9, false, 1, 16, 1, 0, 4096, 0, 1056, -2),
      Field(9, false, 1, 16, 1, 0, 4096, 0, 660, -2),
      Field(9, false, 13, 16, 1, 0, 1023, 0, 0, 0)], 227)

  // Each section walked from the state the previous one left.
  lemma WalkPart1()
    ensures Walk(START, PART_1) == AFTER_1
  {
  }

  lemma WalkPart2()
    ensures Walk(AFTER_1, PART_2) == AFTER_2
  {
  }

  lemma WalkPart3()
    ensures Walk(AFTER_2, PART_3) == AFTER_3
  {
  }

  lemma WalkPart4()
    ensures Walk(AFTER_3, PART_4) == AFTER_4
  {
  }

  lemma WalkPart5()
    ensures Walk(AFTER_4, PART_5) == AFTER_5
  {
  }

  lemma WalkPart6()
    ensures Walk(AFTER_5, PART_6) == AFTER_6
  {
  }

  lemma WalkPart7()
    ensures Walk(AFTER_6, PART_7) == AFTER_7
  {
  }

  lemma WalkPart8()
    ensures Walk(AFTER_7, PART_8) == AFTER_8
  {
  }

  lemma WalkPart9()
    ensures Walk(AFTER_8, PART_9) == AFTER_9
  {
  }

  lemma WalkPart10()
    ensures Walk(AFTER_9, PART_10) == AFTER_10
  {
  }

  lemma WalkPart11()
    ensures Walk(AFTER_10, PART_11) == AFTER_11
  {
  }

  lemma WalkPart12()
    ensures Walk(AFTER_11, PART_12) == AFTER_12
  {
  }

  lemma WalkPart13()
    ensures Walk(AFTER_12, PART_13) == AFTER_13
  {
  }

  lemma WalkPart14()
    ensures Walk(AFTER_13, PART_14) == AFTER_14
  {
  }

  lemma WalkPart15()
    ensures Walk(AFTER_14, PART_15) == AFTER_15
  {
  }

  lemma WalkPart16()
    ensures Walk(AFTER_15, PART_16) == AFTER_16
  {
  }

  lemma WalkPart17()
    ensures Walk(AFTER_16, PART_17) == AFTER_17
  {
  }

  lemma WalkPart18()
    ensures Walk(AFTER_17, PART_18) == AFTER_18
  {
  }

  lemma WalkPart19()
    ensures Walk(AFTER_18, PART_19) == AFTER_19
  {
  }

  lemma WalkPart20()
    ensures Walk(AFTER_19, PART_20) == AFTER_20
  {
  }

  lemma WalkPart21()
    ensures Walk(AFTER_20, PART_21) == AFTER_21
  {
  }

  lemma WalkPart22()
    ensures Walk(AFTER_21, PART_22) == AFTER_22
  {
  }

  lemma WalkPart23()
    ensures Walk(AFTER_22, PART_23) == AFTER_23
  {
  }

  lemma WalkPart24()
    ensures Walk(AFTER_23, PART_24) == AFTER_24
  {
  }

  lemma WalkPart25()
    ensures Walk(AFTER_24, PART_25) == AFTER_25
  {
  }

  lemma WalkPart26()
    ensures Walk(AFTER_25, PART_26) == AFTER_26
  {
  }

  lemma WalkPart27()
    ensures Walk(AFTER_26, PART_27) == AFTER_27
  {
  }

  lemma WalkPart28()
    ensures Walk(AFTER_27, PART_28) == AFTER_28
  {
  }

  lemma WalkPart29()
    ensures Walk(AFTER_28, PART_29) == AFTER_29
  {
  }

  lemma WalkPart30()
    ensures Walk(AFTER_29, PART_30) == AFTER_30
  {
  }

  lemma WalkPart31()
    ensures Walk(AFTER_30, PART_31) == AFTER_31
  {
  }

  lemma WalkPart32()
    ensures Walk(AFTER_31, PART_32) == AFTER_32
  {
  }

  lemma WalkPart33()
    ensures Walk(AFTER_32, PART_33) == AFTER_33
  {
  }

  lemma WalkPart34()
    ensures Walk(AFTER_33, PART_34) == AFTER_34
  {
  }

  lemma WalkPart35()
    ensures Walk(AFTER_34, PART_35) == AFTER_35
  {
  }

  lemma WalkPart36()
    ensures Walk(AFTER_35, PART_36) == AFTER_36
  {
  }

  /** Walking the whole fixed descriptor. */
  lemma FixedWalk()
    ensures Walk(START, ITEMS) == AFTER_36
  {
    WalkPart1();
    WalkPart2();
    WalkPart3();
    WalkPart4();
    WalkPart5();
    WalkPart6();
    WalkPart7();
    WalkPart8();
    WalkPart9();
    WalkPart10();
    WalkPart11();
    WalkPart12();
    WalkPart13();
    WalkPart14();
    WalkPart15();
    WalkPart16();
    WalkPart17();
    WalkPart18();
    WalkPart19();
    WalkPart20();
    WalkPart21();
    WalkPart22();
    WalkPart23();
    WalkPart24();
    WalkPart25();
    WalkPart26();
    WalkPart27();
    WalkPart28();
    WalkPart29();
    WalkPart30();
    WalkPart31();
    WalkPart32();
    WalkPart33();
    WalkPart34();
    WalkPart35();
    WalkPart36();
    WalkAppend(START, PART_1, PART_2);
    WalkAppend(START, PART_1 + PART_2, PART_3);
    WalkAppend(START, PART_1 + PART_2 + PART_3, PART_4);
    WalkAppend(START, PART_1 + PART_2 + PART_3 + PART_4, PART_5);
    WalkAppend(START, PART_1 + PART_2 + PART_3 + PART_4 + PART_5, PART_6);
    WalkAppend(START, PART_1 + PART_2 + PART_3 + PART_4 + PART_5 + PART_6, PART_7);
    WalkAppend(START, PART_1 + PART_2 + PART_3 + PART_4 + PART_5 + PART_6 + PART_7, PART_8);
    WalkAppend(START, PART_1 + PART_2 + PART_3 + PART_4 + PART_5 + PART_6 + PART_7 + PART_8, PART_9);
    WalkAppend(START, PART_1 + PART_2 + PART_3 + PART_4 + PART_5 + PART_6 + PART_7 + PART_8 + PART_9, PART_10);
    WalkAppend(START, PART_1 + PART_2 + PART_3 + PART_4 + PART_5 + PART_6 + PART_7 + PART_8 + PART_9 + PART_10, PART_11);
    WalkAppend(START, PART_1 + PART_2 + PART_3 + PART_4 + PART_5 + PART_6 + PART_7 + PART_8 + PART_9 + PART_10 + PART_11, PART_12);
    WalkAppend(START, PART_1 + PART_2 + PART_3 + PART_4 + PART_5 + PART_6 + PART_7 + PART_8 + PART_9 + PART_10 + PART_11 + PART_12, PART_13);
    WalkAppend(START, PART_1 + PART_2 + PART_3 + PART_4 + PART_5 + PART_6 + PART_7 + PART_8 + PART_9 + PART_10 + PART_11 + PART_12 + PART_13, PART_14);
    WalkAppend(START, PART_1 + PART_2 + PART_3 + PART_4 + PART_5 + PART_6 + PART_7 + PART_8 + PART_9 + PART_10 + PART_11 + PART_12 + PART_13 + PART_14, PART_15);
    WalkAppend(START, PART_1 + PART_2 + PART_3 + PART_4 + PART_5 + PART_6 + PART_7 + PART_8 + PART_9 + PART_10 + PART_11 + PART_12 + PART_13 + PART_14 + PART_15, PART_16);
    WalkAppend(START, PART_1 + PART_2 + PART_3 + PART_4 + PART_5 + PART_6 + PART_7 + PART_8 + PART_9 + PART_10 + PART_11 + PART_12 + PART_13 + PART_14 + PART_15 + PART_16, PART_17);
    WalkAppend(START, PART_1 + PART_2 + PART_3 + PART_4 + PART_5 + PART_6 + PART_7 + PART_8 + PART_9 + PART_10 + PART_11 + PART_12 + PART_13 + PART_14 + PART_15 + PART_16 + PART_17, PART_18);
    WalkAppend(START, PART_1 + PART_2 + PART_3 + PART_4 + PART_5 + PART_6 + PART_7 + PART_8 + PART_9 + PART_10 + PART_11 + PART_12 + PART_13 + PART_14 + PART_15 + PART_16 + PART_17 + PART_18, PART_19);
    WalkAppend(START, PART_1 + PART_2 + PART_3 + PART_4 + PART_5 + PART_6 + PART_7 + PART_8 + PART_9 + PART_10 + PART_11 + PART_12 + PART_13 + PART_14 + PART_15 + PART_16 + PART_17 + PART_18 + PART_19, PART_20);
    WalkAppend(START, PART_1 + PART_2 + PART_3 + PART_4 + PART_5 + PART_6 + PART_7 + PART_8 + PART_9 + PART_10 + PART_11 + PART_12 + PART_13 + PART_14 + PART_15 + PART_16 + PART_17 + PART_18 + PART_19 + PART_20, PART_21);
    WalkAppend(START, PART_1 + PART_2 + PART_3 + PART_4 + PART_5 + PART_6 + PART_7 + PART_8 + PART_9 + PART_10 + PART_11 + PART_12 + PART_13 + PART_14 + PART_15 + PART_16 + PART_17 + PART_18 + PART_19 + PART_20 + PART_21, PART_22);
    WalkAppend(START, PART_1 + PART_2 + PART_3 + PART_4 + PART_5 + PART_6 + PART_7 + PART_8 + PART_9 + PART_10 + PART_11 + PART_12 + PART_13 + PART_14 + PART_15 + PART_16 + PART_17 + PART_18 + PART_19 + PART_20 + PART_21 + PART_22, PART_23);
    WalkAppend(START, PART_1 + PART_2 + PART_3 + PART_4 + PART_5 + PART_6 + PART_7 + PART_8 + PART_9 + PART_10 + PART_11 + PART_12 + PART_13 + PART_14 + PART_15 + PART_16 + PART_17 + PART_18 + PART_19 + PART_20 + PART_21 + PART_22 + PART_23, PART_24);
    WalkAppend(START, PART_1 + PART_2 + PART_3 + PART_4 + PART_5 + PART_6 + PART_7 + PART_8 + PART_9 + PART_10 + PART_11 + PART_12 + PART_13 + PART_14 + PART_15 + PART_16 + PART_17 + PART_18 + PART_19 + PART_20 + PART_21 + PART_22 + PART_23 + PART_24, PART_25);
    WalkAppend(START, PART_1 + PART_2 + PART_3 + PART_4 + PART_5 + PART_6 + PART_7 + PART_8 + PART_9 + PART_10 + PART_11 + PART_12 + PART_13 + PART_14 + PART_15 + PART_16 + PART_17 + PART_18 + PART_19 + PART_20 + PART_21 + PART_22 + PART_23 + PART_24 + PART_25, PART_26);
    WalkAppend(START, PART_1 + PART_2 + PART_3 + PART_4 + PART_5 + PART_6 + PART_7 + PART_8 + PART_9 + PART_10 + PART_11 + PART_12 + PART_13 + PART_14 + PART_15 + PART_16 + PART_17 + PART_18 + PART_19 + PART_20 + PART_21 + PART_22 + PART_23 + PART_24 + PART_25 + PART_26, PART_27);
    WalkAppend(START, PART_1 + PART_2 + PART_3 + PART_4 + PART_5 + PART_6 + PART_7 + PART_8 + PART_9 + PART_10 + PART_11 + PART_12 + PART_13 + PART_14 + PART_15 + PART_16 + PART_17 + PART_18 + PART_19 + PART_20 + PART_21 + PART_22 + PART_23 + PART_24 + PART_25 + PART_26 + PART_27, PART_28);
    WalkAppend(START, PART_1 + PART_2 + PART_3 + PART_4 + PART_5 + PART_6 + PART_7 + PART_8 + PART_9 + PART_10 + PART_11 + PART_12 + PART_13 + PART_14 + PART_15 + PART_16 + PART_17 + PART_18 + PART_19 + PART_20 + PART_21 + PART_22 + PART_23 + PART_24 + PART_25 + PART_26 + PART_27 + PART_28, PART_29);
    WalkAppend(START, PART_1 + PART_2 + PART_3 + PART_4 + PART_5 + PART_6 + PART_7 + PART_8 + PART_9 + PART_10 + PART_11 + PART_12 + PART_13 + PART_14 + PART_15 + PART_16 + PART_17 + PART_18 + PART_19 + PART_20 + PART_21 + PART_22 + PART_23 + PART_24 + PART_25 + PART_26 + PART_27 + PART_28 + PART_29, PART_30);
    WalkAppend(START, PART_1 + PART_2 + PART_3 + PART_4 + PART_5 + PART_6 + PART_7 + PART_8 + PART_9 + PART_10 + PART_11 + PART_12 + PART_13 + PART_14 + PART_15 + PART_16 + PART_17 + PART_18 + PART_19 + PART_20 + PART_21 + PART_22 + PART_23 + PART_24 + PART_25 + PART_26 + PART_27 + PART_28 + PART_29 + PART_30, PART_31);
    WalkAppend(START, PART_1 + PART_2 + PART_3 + PART_4 + PART_5 + PART_6 + PART_7 + PART_8 + PART_9 + PART_10 + PART_11 + PART_12 + PART_13 + PART_14 + PART_15 + PART_16 + PART_17 + PART_18 + PART_19 + PART_20 + PART_21 + PART_22 + PART_23 + PART_24 + PART_25 + PART_26 + PART_27 + PART_28 + PART_29 + PART_30 + PART_31, PART_32);
    WalkAppend(START, PART_1 + PART_2 + PART_3 + PART_4 + PART_5 + PART_6 + PART_7 + PART_8 + PART_9 + PART_10 + PART_11 + PART_12 + PART_13 + PART_14 + PART_15 + PART_16 + PART_17 + PART_18 + PART_19 + PART_20 + PART_21 + PART_22 + PART_23 + PART_24 + PART_25 + PART_26 + PART_27 + PART_28 + PART_29 + PART_30 + PART_31 + PART_32, PART_33);
    WalkAppend(START, PART_1 + PART_2 + PART_3 + PART_4 + PART_5 + PART_6 + PART_7 + PART_8 + PART_9 + PART_10 + PART_11 + PART_12 + PART_13 + PART_14 + PART_15 + PART_16 + PART_17 + PART_18 + PART_19 + PART_20 + PART_21 + PART_22 + PART_23 + PART_24 + PART_25 + PART_26 + PART_27 + PART_28 + PART_29 + PART_30 + PART_31 + PART_32 + PART_33, PART_34);
    WalkAppend(START, PART_1 + PART_2 + PART_3 + PART_4 + PART_5 + PART_6 + PART_7 + PART_8 + PART_9 + PART_10 + PART_11 + PART_12 + PART_13 + PART_14 + PART_15 + PART_16 + PART_17 + PART_18 + PART_19 + PART_20 + PART_21 + PART_22 + PART_23 + PART_24 + PART_25 + PART_26 + PART_27 + PART_28 + PART_29 + PART_30 + PART_31 + PART_32 + PART_33 + PART_34, PART_35);
    WalkAppend(START, PART_1 + PART_2 + PART_3 + PART_4 + PART_5 + PART_6 + PART_7 + PART_8 + PART_9 + PART_10 + PART_11 + PART_12 + PART_13 + PART_14 + PART_15 + PART_16 + PART_17 + PART_18 + PART_19 + PART_20 + PART_21 + PART_22 + PART_23 + PART_24 + PART_25 + PART_26 + PART_27 + PART_28 + PART_29 + PART_30 + PART_31 + PART_32 + PART_33 + PART_34 + PART_35, PART_36);
  }

  /** The bytes of the fixed descriptor (pt1001_rdesc_fixed). */
  const RDESC_FIXED: seq<bv8> := Encode(ITEMS)

  /**
   * polostar_report_fixup: the fixed descriptor replaces the one the
   * tablet reports exactly when the device is a PT-1001, the interface is
   * 1 and the descriptor has the original size; anything else is returned
   * as it came.
   */
  function ReportFixup(pt1001: bool, iface: int, rdesc: seq<bv8>): (r: seq<bv8>)
    ensures pt1001 && iface == FIXED_INTERFACE && |rdesc| == RDESC_ORIG_SIZE ==> r == RDESC_FIXED
    ensures !(pt1001 && iface == FIXED_INTERFACE && |rdesc| == RDESC_ORIG_SIZE) ==> r == rdesc
  {
    if pt1001 && iface == FIXED_INTERFACE && |rdesc| == RDESC_ORIG_SIZE then RDESC_FIXED
    else rdesc
  }

  /**
   * The interface check of polostar_probe: -ENODEV for interface 2 of a
   * PT-1001, before the descriptor is parsed; 0 lets the probe go on.
   */
  function ProbeInterfaceCheck(pt1001: bool, iface: int): (rc: int)
    ensures rc == 0 || rc == -ENODEV
    ensures rc == -ENODEV <==> pt1001 && iface == REFUSED_INTERFACE
  {
    if pt1001 && iface == REFUSED_INTERFACE then -ENODEV else 0
  }

  /**
   * The Input fields of the fixed descriptor, in order: report 1 has five
   * buttons, three constant bits, relative X and Y of 16 bits and one
   * 8-bit relative value; report 5 has a constant byte, 18 consumer keys
   * and six constant bits; report 9 has three pen switches, five constant
   * bits, X and Y in units of 10^-2 cm and the pressure.
   */
  const FIELDS: seq<Field> := [
    Field(1, false, 0x09, 1, 5, 0, 1, 0, 0, 0),
    Field(1, true, 0x09, 1, 3, 0, 1, 0, 0, 0),
    Field(1, false, 0x01, 16, 2, -32767, 32767, 0, 0, 0),
    Field(1, false, 0x0C, 8, 1, -127, 127, 0, 0, 0),
    Field(5, true, 0x0C, 8, 1, -127, 127, 0, 0, 0),
    Field(5, false, 0x0C, 1, 18, 0, 1, 0, 0, 0),
    Field(5, true, 0x0C, 1, 6, 0, 1, 0, 0, 0),
    Field(9, false, 0x0D, 1, 3, 0, 1, 0, 0, 0),
    Field(9, true, 0x0D, 1, 5, 0, 1, 0, 0, 0),
    Field(9, false, 0x01, 16, 1, 0, 4096, 0, 1056, -2),
    Field(9, false, 0x01, 16, 1, 0, 4096, 0, 660, -2),
    Field(9, false, 0x0D, 16, 1, 0, 1023, 0, 0, 0)]

  /**
   * The fixed descriptor is a well-formed short-item stream of 227 bytes;
   * its five Collections are closed by five End Collections and its Push
   * is matched by its Pop; it declares reports 1, 5 and 9, in that order,
   * and its Input fields are FIELDS.
   */
  lemma FixedDescriptor()
    ensures Parse(RDESC_FIXED) == Some(ITEMS) && |RDESC_FIXED| == 227
    ensures Balanced(Walk(START, ITEMS))
    ensures Walk(START, ITEMS).collections == 5
    ensures Walk(START, ITEMS).ids == [1, 5, 9]
    ensures Walk(START, ITEMS).inputs == FIELDS
  {
    FixedWalk();
    UnbrokenWellFormed(START, ITEMS);
    WalkSize(START, ITEMS);
  }

  /**
   * The item values decode as the descriptor's comments say: relative X
   * and Y span -32767..32767, the pen's X and Y reach 4096 logically and
   * 1056 and 660 physically, the pressure reaches 1023.
   */
  lemma ItemValues()
    ensures SignedValue(ITEMS[24]) == -32767 && Value(ITEMS[25]) == 32767
    ensures Value(ITEMS[88]) == 4096 && Value(ITEMS[104]) == 1023
    ensures Value(ITEMS[97]) == 1056 && Value(ITEMS[100]) == 660
    ensures Kind(ITEMS[24].prefix) == LOGICAL_MINIMUM && Kind(ITEMS[25].prefix) == LOGICAL_MAXIMUM
    ensures Kind(ITEMS[88].prefix) == LOGICAL_MAXIMUM && Kind(ITEMS[104].prefix) == LOGICAL_MAXIMUM
    ensures Kind(ITEMS[97].prefix) == PHYSICAL_MAXIMUM && Kind(ITEMS[100].prefix) == PHYSICAL_MAXIMUM
  {
    assert ITEMS[24] == PART_9[0] && ITEMS[25] == PART_9[1];
    assert ITEMS[88] == PART_30[1] && ITEMS[104] == PART_35[2];
    assert ITEMS[97] == PART_33[1] && ITEMS[100] == PART_34[1];
  }

  /**
   * The Report Count before the wheel is 1, whatever its comment says, so
   * report 1 ends in a single 8-bit relative value: the wheel usage gets
   * the byte and the AC Pan usage declared after it gets no bits.
   */
  lemma WheelCount()
    ensures ITEMS[30] == Item1(0x95, 0x01) && Kind(ITEMS[30].prefix) == REPORT_COUNT && Value(ITEMS[30]) == 1
    ensures FIELDS[3].size == 8 && FIELDS[3].count == 1 && FIELDS[4].reportId != 1
  {
    assert ITEMS[30] == PART_11[0];
  }

  /**
   * Report 5 is 32 bits without its ID: a constant byte, the 18 consumer
   * keys and six constant bits.
   */
  lemma Report5Layout()
    ensures forall i :: 4 <= i < 7 ==> FIELDS[i].reportId == 5
    ensures FIELDS[3].reportId != 5 && FIELDS[7].reportId != 5
    ensures Bits(FIELDS[4..7]) == 32
    ensures FIELDS[4].constant && FIELDS[4].size * FIELDS[4].count == 8
    ensures !FIELDS[5].constant && FIELDS[5].count == 18 && FIELDS[5].size == 1
    ensures FIELDS[6].constant && FIELDS[6].size * FIELDS[6].count == 6
  {
    assert FIELDS[4..7] == [FIELDS[4]] + [FIELDS[5]] + [FIELDS[6]];
    BitsAppend([FIELDS[4]] + [FIELDS[5]], [FIELDS[6]]);
    BitsAppend([FIELDS[4]], [FIELDS[5]]);
  }

  /**
   * The pressure follows the Pop: it is read on the Digitizer page, with
   * no physical range and no unit exponent, which the Push had kept away
   * from the Desktop X and Y.
   */
  lemma PressureAfterPop()
    ensures var f := Walk(START, ITEMS).inputs;
      |f| == 12 && f[11].reportId == 9 &&
      f[11].page == PAGE_DIGITIZER &&
      f[11].logMax == 1023 &&
      f[11].physMax == 0 && f[11].unitExp == 0 &&
      f[9].page == PAGE_DESKTOP && f[9].unitExp == -2 &&
      f[10].page == PAGE_DESKTOP && f[10].unitExp == -2
  {
    FixedDescriptor();
  }
}
