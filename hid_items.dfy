/**
 * HID report-descriptor short items (Device Class Definition for HID 1.11,
 * section 6.2.2.2): a prefix byte holding the data size in bits 0-1, the
 * item type in bits 2-3 and the tag in bits 4-7, then 0, 1, 2 or 4 data
 * bytes, little-endian. A descriptor is modelled as its list of items; its
 * bytes are their concatenation, and parsing those bytes gives the items
 * back. A walker over the items keeps the global item state with its
 * Push/Pop stack (section 6.2.2.7) and the collection nesting (section
 * 6.2.2.4), and lists the Input fields of one report (section 6.2.2.5).
 */
module HidItems {
  import opened Common

  /** A short item: its prefix byte and its data bytes. */
  datatype Item =
    | Item0(prefix: bv8)
    | Item1(prefix: bv8, b0: bv8)
    | Item2(prefix: bv8, b0: bv8, b1: bv8)
    | Item4(prefix: bv8, b0: bv8, b1: bv8, b2: bv8, b3: bv8)

  /** The long-item prefix (section 6.2.2.3), which the descriptors here never use. */
  const LONG_ITEM_PREFIX: bv8 := 0xFE

  /** Number of data bytes the prefix announces: the size code 3 means 4 bytes. */
  function DataSize(prefix: bv8): (n: nat)
    ensures n == 0 || n == 1 || n == 2 || n == 4
  {
    var code := prefix & 3;
    if code == 3 then 4 else code as nat
  }

  /** The prefix with its size bits cleared: type and tag, which name the item. */
  function Kind(prefix: bv8): bv8
  {
    prefix & 0xFC
  }

  /** An item whose prefix announces exactly its data and is not a long-item prefix. */
  predicate WellFormed(it: Item)
  {
    it.prefix != LONG_ITEM_PREFIX && DataSize(it.prefix) == |Data(it)|
  }

  function Data(it: Item): (d: seq<bv8>)
  {
    match it
    case Item0(_) => []
    case Item1(_, b0) => [b0]
    case Item2(_, b0, b1) => [b0, b1]
    case Item4(_, b0, b1, b2, b3) => [b0, b1, b2, b3]
  }

  /** The bytes of one item in a descriptor. */
  function ItemBytes(it: Item): (b: seq<bv8>)
    ensures |b| == 1 + |Data(it)| && b[0] == it.prefix && b[1..] == Data(it)
  {
    [it.prefix] + Data(it)
  }

  /** The bytes of a descriptor given as items. */
  function Encode(items: seq<Item>): (b: seq<bv8>)
  {
    if items == [] then [] else ItemBytes(items[0]) + Encode(items[1..])
  }

  /** The item whose bytes start `b`, if the prefix is a short item with its data present. */
  function ParseItem(b: seq<bv8>): (r: Option<(Item, nat)>)
    requires |b| > 0
    ensures r.Some? ==> 0 < r.value.1 <= |b| && WellFormed(r.value.0)
    ensures r.Some? ==> r.value.1 == 1 + |Data(r.value.0)| && ItemBytes(r.value.0) == b[..r.value.1]
  {
    var p := b[0];
    var n := DataSize(p);
    if p == LONG_ITEM_PREFIX || |b| < 1 + n then None
    else if n == 0 then Some((Item0(p), 1))
    else if n == 1 then Some((Item1(p, b[1]), 2))
    else if n == 2 then Some((Item2(p, b[1], b[2]), 3))
    else Some((Item4(p, b[1], b[2], b[3], b[4]), 5))
  }

  /** The items of a descriptor, or None when the bytes are not a sequence of short items. */
  function Parse(b: seq<bv8>): (r: Option<seq<Item>>)
    decreases |b|
  {
    if b == [] then Some([])
    else match ParseItem(b)
      case None => None
      case Some((it, n)) =>
        match Parse(b[n..])
        case None => None
        case Some(rest) => Some([it] + rest)
  }

  /** Parsing the bytes of well-formed items gives the items back. */
  lemma {:induction false} ParseEncode(items: seq<Item>)
    requires forall i :: 0 <= i < |items| ==> WellFormed(items[i])
    ensures Parse(Encode(items)) == Some(items)
    decreases |items|
  {
    if items != [] {
      var it := items[0];
      var b := Encode(items);
      var head := ItemBytes(it);
      assert b == head + Encode(items[1..]);
      ParseHead(it, Encode(items[1..]));
      assert b[|head|..] == Encode(items[1..]);
      ParseEncode(items[1..]);
      assert [it] + items[1..] == items;
    }
  }

  lemma ParseHead(it: Item, rest: seq<bv8>)
    requires WellFormed(it)
    ensures ParseItem(ItemBytes(it) + rest) == Some((it, |ItemBytes(it)|))
  {
    var b := ItemBytes(it) + rest;
    assert b[0] == it.prefix;
    match it
    case Item0(_) =>
    case Item1(_, b0) => assert b[1] == b0;
    case Item2(_, b0, b1) => assert b[1] == b0 && b[2] == b1;
    case Item4(_, b0, b1, b2, b3) => assert b[1] == b0 && b[2] == b1 && b[3] == b2 && b[4] == b3;
  }

  /** Unsigned value of the item data, little-endian. */
  function Value(it: Item): (v: int)
    ensures 0 <= v
  {
    match it
    case Item0(_) => 0
    case Item1(_, b0) => b0 as int
    case Item2(_, b0, b1) => b0 as int + 0x100 * b1 as int
    case Item4(_, b0, b1, b2, b3) =>
      b0 as int + 0x100 * (b1 as int + 0x100 * (b2 as int + 0x100 * b3 as int))
  }

  /** Signed value of the item data, two's complement at the data's width (section 5.8). */
  function SignedValue(it: Item): (v: int)
  {
    var width := if it.Item0? then 1 else Pow256(|Data(it)|);
    if 2 * Value(it) >= width then Value(it) - width else Value(it)
  }

  function Pow256(n: nat): nat
  {
    if n == 0 then 1 else 0x100 * Pow256(n - 1)
  }

  /**
   * The Unit Exponent of a one-byte item (section 6.2.2.7): its low nibble
   * as a signed 4-bit number, 0x0-0x7 for 0 to 7 and 0x8-0xF for -8 to -1.
   */
  function UnitExponent(it: Item): (e: int)
    ensures -8 <= e < 8
  {
    var n := Value(it) % 16;
    if n >= 8 then n - 16 else n
  }

  // Item kinds (prefix with the size bits cleared), sections 6.2.2.4-6.2.2.8.
  const INPUT: bv8 := 0x80
  const OUTPUT: bv8 := 0x90
  const FEATURE: bv8 := 0xB0
  const COLLECTION: bv8 := 0xA0
  const END_COLLECTION: bv8 := 0xC0
  const USAGE_PAGE: bv8 := 0x04
  const LOGICAL_MINIMUM: bv8 := 0x14
  const LOGICAL_MAXIMUM: bv8 := 0x24
  const PHYSICAL_MINIMUM: bv8 := 0x34
  const PHYSICAL_MAXIMUM: bv8 := 0x44
  const UNIT_EXPONENT: bv8 := 0x54
  const UNIT: bv8 := 0x64
  const REPORT_SIZE: bv8 := 0x74
  const REPORT_ID: bv8 := 0x84
  const REPORT_COUNT: bv8 := 0x94
  const PUSH: bv8 := 0xA4
  const POP: bv8 := 0xB4
  const USAGE: bv8 := 0x08
  const USAGE_MINIMUM: bv8 := 0x18
  const USAGE_MAXIMUM: bv8 := 0x28

  /** Usage pages used by the descriptors (HID Usage Tables). */
  const PAGE_DESKTOP: int := 0x01
  const PAGE_BUTTON: int := 0x09
  const PAGE_CONSUMER: int := 0x0C
  const PAGE_DIGITIZER: int := 0x0D

  /** The global item state the walker tracks (section 6.2.2.7). */
  datatype Globals = Globals(
    page: int, logMin: int, logMax: int, physMin: int, physMax: int, unitExp: int,
    reportId: int, reportSize: int, reportCount: int)

  /**
   * An Input main item as the parser sees it: the report it belongs to,
   * whether it is constant padding (bit 0 of its data), and the globals in
   * force: usage page, element size in bits and count, logical and
   * physical extents and unit exponent.
   */
  datatype Field = Field(
    reportId: int, constant: bool, page: int, size: int, count: int,
    logMin: int, logMax: int, physMin: int, physMax: int, unitExp: int)

  /**
   * Walker state: the globals and the Push stack, collection depth, how
   * many Collection and End Collection items were met, whether an item was
   * malformed or the nesting or the stack was ever violated, the Report IDs
   * declared, the Input fields in order, and the bytes walked.
   */
  datatype Walker = Walker(
    g: Globals, stack: seq<Globals>, depth: int, collections: nat, ends: nat,
    broken: bool, ids: seq<int>, inputs: seq<Field>, size: nat)

  const START: Walker := Walker(Globals(0, 0, 0, 0, 0, 0, 0, 0, 0), [], 0, 0, 0, false, [], [], 0)

  /**
   * The Unit Exponent item's value: a value that fits in a nibble is read
   * as a signed 4-bit number (section 6.2.2.7), a wider one as signed data.
   */
  function ExponentOf(it: Item): (e: int)
  {
    if Value(it) < 16 then UnitExponent(it) else SignedValue(it)
  }

  /** The effect of one item on the walker. */
  function Step(s: Walker, it: Item): (r: Walker)
    ensures s.broken || !WellFormed(it) ==> r.broken
    ensures r.size == s.size + |ItemBytes(it)|
  {
    var k := Kind(it.prefix);
    var v := Value(it);
    var sv := SignedValue(it);
    var g := s.g;
    var s := s.(broken := s.broken || !WellFormed(it), size := s.size + |ItemBytes(it)|);
    if k == COLLECTION then s.(depth := s.depth + 1, collections := s.collections + 1)
    else if k == END_COLLECTION then
      s.(depth := s.depth - 1, ends := s.ends + 1, broken := s.broken || s.depth == 0)
    else if k == INPUT then
      var f := Field(g.reportId, v % 2 == 1, g.page, g.reportSize, g.reportCount,
                     g.logMin, g.logMax, g.physMin, g.physMax, g.unitExp);
      s.(inputs := s.inputs + [f])
    else if k == USAGE_PAGE then s.(g := g.(page := v))
    else if k == LOGICAL_MINIMUM then s.(g := g.(logMin := sv))
    else if k == LOGICAL_MAXIMUM then s.(g := g.(logMax := if g.logMin < 0 then sv else v))
    else if k == PHYSICAL_MINIMUM then s.(g := g.(physMin := sv))
    else if k == PHYSICAL_MAXIMUM then s.(g := g.(physMax := if g.physMin < 0 then sv else v))
    else if k == UNIT_EXPONENT then s.(g := g.(unitExp := ExponentOf(it)))
    else if k == REPORT_SIZE then s.(g := g.(reportSize := v))
    else if k == REPORT_ID then s.(g := g.(reportId := v), ids := s.ids + [v])
    else if k == REPORT_COUNT then s.(g := g.(reportCount := v))
    else if k == PUSH then s.(stack := s.stack + [g])
    else if k == POP then
      if s.stack == [] then s.(broken := true)
      else s.(g := s.stack[|s.stack| - 1], stack := s.stack[..|s.stack| - 1])
    else s
  }

  /** The walker after the items `l`, from `s`. */
  function Walk(s: Walker, l: seq<Item>): (r: Walker)
    decreases |l|
  {
    if l == [] then s else Walk(Step(s, l[0]), l[1..])
  }

  /** Walking a concatenation walks its parts in turn. */
  lemma {:induction false} WalkAppend(s: Walker, a: seq<Item>, b: seq<Item>)
    ensures Walk(s, a + b) == Walk(Walk(s, a), b)
    decreases |a|
  {
    if a == [] {
      assert a + b == b;
    } else {
      assert (a + b)[1..] == a[1..] + b;
      WalkAppend(Step(s, a[0]), a[1..], b);
    }
  }

  /** A walk that ends unbroken met only well-formed items, so the bytes parse back to them. */
  lemma {:induction false} UnbrokenWellFormed(s: Walker, l: seq<Item>)
    requires !Walk(s, l).broken
    ensures forall i :: 0 <= i < |l| ==> WellFormed(l[i])
    ensures Parse(Encode(l)) == Some(l)
    decreases |l|
  {
    if l != [] {
      UnbrokenStays(Step(s, l[0]), l[1..]);
      UnbrokenWellFormed(Step(s, l[0]), l[1..]);
      forall i | 0 <= i < |l|
        ensures WellFormed(l[i])
      {
        if i > 0 {
          assert l[i] == l[1..][i - 1];
        }
      }
    }
    ParseEncode(l);
  }

  /** The walker counts the bytes of the items it walks. */
  lemma {:induction false} WalkSize(s: Walker, l: seq<Item>)
    ensures Walk(s, l).size == s.size + |Encode(l)|
    decreases |l|
  {
    if l != [] {
      WalkSize(Step(s, l[0]), l[1..]);
    }
  }

  /** Once broken, a walk stays broken. */
  lemma {:induction false} UnbrokenStays(s: Walker, l: seq<Item>)
    requires !Walk(s, l).broken
    ensures !s.broken
    decreases |l|
  {
    if l != [] {
      UnbrokenStays(Step(s, l[0]), l[1..]);
    }
  }

  /** The Input fields of report `id`. */
  function FieldsOf(fs: seq<Field>, id: int): (r: seq<Field>)
    ensures |r| <= |fs|
    ensures forall i :: 0 <= i < |r| ==> r[i] in fs && r[i].reportId == id
  {
    if fs == [] then []
    else if fs[0].reportId == id then [fs[0]] + FieldsOf(fs[1..], id)
    else FieldsOf(fs[1..], id)
  }

  /** Total bits of the fields. */
  function Bits(fs: seq<Field>): int
  {
    if fs == [] then 0 else fs[0].size * fs[0].count + Bits(fs[1..])
  }

  /** The bits of two runs of fields add up. */
  lemma {:induction false} BitsAppend(a: seq<Field>, b: seq<Field>)
    ensures Bits(a + b) == Bits(a) + Bits(b)
  {
    if a != [] {
      assert (a + b)[1..] == a[1..] + b;
      BitsAppend(a[1..], b);
    } else {
      assert a + b == b;
    }
  }

  /**
   * A descriptor is balanced when its items are well formed, every
   * Collection has its End Collection, in order, and every Push its Pop.
   */
  predicate Balanced(w: Walker)
  {
    !w.broken && w.depth == 0 && w.stack == [] && w.collections == w.ends
  }
}
