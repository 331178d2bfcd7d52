/**
 * Report-descriptor constants of the UC-Logic driver: the sizes of the
 * original descriptors that select a static replacement, and the template
 * placeholder encoding (hid-uclogic-rdesc.h), with the template substitution
 * pass that fills placeholders with probed parameters.
 */
module UclogicRdesc {
  import opened Common

  /** Size of the original descriptor of WP4030U, WP5540U and WP8060U tablets. */
  const WPXXXXU_ORIG_SIZE: int := 212
  /** Size of the original descriptor of the newer WP5540U tablet. */
  const WP5540U_V2_ORIG_SIZE: int := 232
  const WP1062_ORIG_SIZE: int := 254
  const PF1209_ORIG_SIZE: int := 234
  /** Original descriptor sizes of the TWHL850 interfaces 0, 1 and 2. */
  const TWHL850_ORIG0_SIZE: int := 182
  const TWHL850_ORIG1_SIZE: int := 161
  const TWHL850_ORIG2_SIZE: int := 92
  /** Original descriptor sizes of the TWHA60 interfaces 0 and 1. */
  const TWHA60_ORIG0_SIZE: int := 254
  const TWHA60_ORIG1_SIZE: int := 139

  /** The three bytes that open every template placeholder. */
  const PH_HEAD: seq<bv8> := [0xFE, 0xED, 0x1D]

  /** Template placeholder IDs, in enum order. */
  datatype PhId = XLm | XPm | YLm | YPm | PressureLm
  {
    function Index(): (n: nat)
      ensures n < PH_ID_NUM
    {
      match this
      case XLm => 0
      case XPm => 1
      case YLm => 2
      case YPm => 3
      case PressureLm => 4
    }
  }

  /** Number of placeholder IDs (UCLOGIC_RDESC_PH_ID_NUM). */
  const PH_ID_NUM: nat := 5

  /** The placeholder for `id` as it appears in a template (UCLOGIC_RDESC_PH). */
  function Placeholder(id: PhId): (ph: seq<bv8>)
  {
    PH_HEAD + [Byte(id.Index())]
  }

  /** A placeholder is four bytes, FE ED 1D then the ID, and no two IDs share one. */
  lemma PlaceholderShape(a: PhId, b: PhId)
    ensures |Placeholder(a)| == 4 && Placeholder(a)[..3] == PH_HEAD
    ensures Placeholder(a)[3] as int == a.Index()
    ensures Placeholder(a) == Placeholder(b) ==> a == b
  {
    if Placeholder(a) == Placeholder(b) {
      assert Placeholder(a)[3] == Placeholder(b)[3];
    }
  }

  /** The four bytes of `v` as a little-endian 32-bit value (two's complement). */
  function Le32Bytes(v: int): (r: seq<bv8>)
    ensures |r| == 4
  {
    var u0 := v % 0x1_0000_0000;
    var u1 := u0 / 0x100;
    var u2 := u1 / 0x100;
    [Byte(u0 % 0x100), Byte(u1 % 0x100), Byte(u2 % 0x100), Byte(u2 / 0x100)]
  }

  /** The unsigned value of the four little-endian bytes at `off`. */
  function Le32(b: seq<bv8>, off: nat): (v: int)
    requires off + 4 <= |b|
    ensures 0 <= v < 0x1_0000_0000
  {
    b[off] as int + 0x100 * (b[off + 1] as int + 0x100 * (b[off + 2] as int + 0x100 * b[off + 3] as int))
  }

  /** The s32 value stored little-endian in the four bytes at `off`. */
  function S32Le(b: seq<bv8>, off: nat): (v: int)
    requires off + 4 <= |b|
    ensures -0x8000_0000 <= v < 0x8000_0000
  {
    Wrap32(Le32(b, off))
  }

  lemma Digits(u0: int)
    requires 0 <= u0 < 0x1_0000_0000
    ensures var u1 := u0 / 0x100; var u2 := u1 / 0x100;
      u0 == u0 % 0x100 + 0x100 * (u1 % 0x100 + 0x100 * (u2 % 0x100 + 0x100 * (u2 / 0x100)))
      && 0 <= u2 / 0x100 < 0x100
  {
  }

  /** Reading back the four stored bytes gives the value modulo 2^32. */
  lemma Le32RoundTrip(v: int)
    ensures Le32(Le32Bytes(v), 0) == v % 0x1_0000_0000
  {
    var u0 := v % 0x1_0000_0000;
    var u1 := u0 / 0x100;
    var u2 := u1 / 0x100;
    Digits(u0);
    var b := Le32Bytes(v);
    assert b[0] as int == u0 % 0x100;
    assert b[1] as int == u1 % 0x100;
    assert b[2] as int == u2 % 0x100;
    assert b[3] as int == u2 / 0x100;
  }

  /** Every s32 parameter survives substitution: its bytes read back as the same s32. */
  lemma S32RoundTrip(v: int)
    requires -0x8000_0000 <= v < 0x8000_0000
    ensures S32Le(Le32Bytes(v), 0) == v
  {
    Le32RoundTrip(v);
    Wrap32Of(v % 0x1_0000_0000, v);
  }

  /** An s32 value reduced modulo 2^32 wraps back to itself. */
  lemma Wrap32Of(u: int, v: int)
    requires -0x8000_0000 <= v < 0x8000_0000 && u == v % 0x1_0000_0000
    ensures Wrap32(u) == v
  {
    if v >= 0 {
      assert u == v;
    } else {
      assert u == v + 0x1_0000_0000;
    }
    assert u % 0x1_0000_0000 == u;
  }

  /** `t` starts with a placeholder whose ID is below the parameter count. */
  predicate StartsWithPlaceholder(t: seq<bv8>, params: seq<int>)
  {
    3 < |t| && t[..3] == PH_HEAD && (t[3] as int) < |params|
  }

  /**
   * The descriptor generated from template `t` and the parameter list
   * (uclogic_rdesc_template_apply). Scanning from the start, a placeholder
   * head followed by an ID below the parameter count is replaced by that
   * parameter as a little-endian s32 and the scan moves past it; any other
   * byte is kept. The result is as long as the template.
   */
  function TemplateApply(t: seq<bv8>, params: seq<int>): (r: seq<bv8>)
    ensures |r| == |t|
    decreases |t|
  {
    if StartsWithPlaceholder(t, params) then
      Le32Bytes(params[t[3] as int]) + TemplateApply(t[4..], params)
    else if |t| > 0 then
      [t[0]] + TemplateApply(t[1..], params)
    else
      []
  }

  predicate HasHeadAt(t: seq<bv8>, i: nat)
  {
    i + 3 < |t| && t[i..i + 3] == PH_HEAD
  }

  /** A template without any placeholder head is copied unchanged. */
  lemma {:induction false} NoPlaceholderUnchanged(t: seq<bv8>, params: seq<int>)
    requires forall k :: 0 <= k < |t| ==> !HasHeadAt(t, k)
    ensures TemplateApply(t, params) == t
    decreases |t|
  {
    if |t| > 0 {
      assert !HasHeadAt(t, 0);
      assert 3 < |t| ==> t[..3] == t[0..3];
      forall k | 0 <= k < |t[1..]|
        ensures !HasHeadAt(t[1..], k)
      {
        assert !HasHeadAt(t, k + 1);
        if k + 3 < |t[1..]| {
          assert t[1..][k..k + 3] == t[k + 1..k + 4];
        }
      }
      NoPlaceholderUnchanged(t[1..], params);
      assert t == [t[0]] + t[1..];
    }
  }

  /** A lone placeholder becomes the little-endian encoding of its parameter. */
  lemma PlaceholderSubstituted(id: PhId, params: seq<int>)
    requires |params| == PH_ID_NUM
    ensures TemplateApply(Placeholder(id), params) == Le32Bytes(params[id.Index()])
  {
    var t := Placeholder(id);
    PlaceholderShape(id, id);
    assert t[4..] == [];
  }

  /** A first byte other than 0xFE is copied, and the scan moves on by one byte. */
  lemma KeepsFirst(t: seq<bv8>, params: seq<int>)
    requires |t| > 0 && t[0] != 0xFE
    ensures TemplateApply(t, params) == [t[0]] + TemplateApply(t[1..], params)
  {
    if 3 < |t| {
      assert t[..3][0] == t[0];
    }
  }

  /** Bytes other than 0xFE in front of a template pass through the substitution unchanged. */
  lemma {:induction false} PrefixKept(x: seq<bv8>, rest: seq<bv8>, params: seq<int>)
    requires forall n :: 0 <= n < |x| ==> x[n] != 0xFE
    ensures TemplateApply(x + rest, params) == x + TemplateApply(rest, params)
    decreases |x|
  {
    if |x| > 0 {
      var t := x + rest;
      var tail := TemplateApply(rest, params);
      assert t[0] == x[0];
      KeepsFirst(t, params);
      assert t[1..] == x[1..] + rest;
      assert forall n :: 0 <= n < |x[1..]| ==> x[1..][n] == x[n + 1];
      PrefixKept(x[1..], rest, params);
      assert x + tail == [x[0]] + (x[1..] + tail);
    } else {
      assert x + rest == rest;
    }
  }

  /** A placeholder at the front of a template is substituted, and the scan resumes after it. */
  lemma PlaceholderFirst(id: PhId, rest: seq<bv8>, params: seq<int>)
    requires |params| == PH_ID_NUM
    ensures TemplateApply(Placeholder(id) + rest, params)
      == Le32Bytes(params[id.Index()]) + TemplateApply(rest, params)
  {
    var t := Placeholder(id) + rest;
    PlaceholderShape(id, id);
    assert t[..3] == PH_HEAD && t[3] as int == id.Index();
    assert t[4..] == rest;
  }

  /**
   * A placeholder inside a template is replaced by the four little-endian
   * bytes of the parameter its ID selects; the bytes before it (free of
   * placeholder heads) are kept, and the bytes after it are processed in turn.
   */
  lemma PlaceholderInTemplate(a: seq<bv8>, id: PhId, b: seq<bv8>, params: seq<int>)
    requires |params| == PH_ID_NUM
    requires forall n :: 0 <= n < |a| ==> a[n] != 0xFE
    ensures TemplateApply(a + Placeholder(id) + b, params)
      == a + Le32Bytes(params[id.Index()]) + TemplateApply(b, params)
  {
    assert a + Placeholder(id) + b == a + (Placeholder(id) + b);
    PrefixKept(a, Placeholder(id) + b, params);
    PlaceholderFirst(id, b, params);
  }

  /** The substitution example of the template engine: FE ED 1D 00 AA with [1000]. */
  lemma Le32Of1000()
    ensures Le32Bytes(1000) == [0xE8, 0x03, 0x00, 0x00]
  {
    var u0 := 1000 % 0x1_0000_0000;
    assert u0 == 1000;
    assert u0 / 0x100 == 3 && u0 % 0x100 == 232;
  }

  lemma TemplateExample()
    ensures TemplateApply([0xFE, 0xED, 0x1D, 0x00, 0xAA], [1000]) == [0xE8, 0x03, 0x00, 0x00, 0xAA]
  {
    var t: seq<bv8> := [0xFE, 0xED, 0x1D, 0x00, 0xAA];
    assert t[..3] == PH_HEAD;
    assert t[3] as int == 0;
    Le32Of1000();
    assert t[4..] == [0xAA];
    assert TemplateApply([0xAA], [1000]) == [0xAA] by {
      assert [0xAA][1..] == [];
    }
    assert TemplateApply(t, [1000]) == Le32Bytes(1000) + TemplateApply(t[4..], [1000]);
  }
}
