/**
 * Pen proximity-out emulation (hid-uclogic-proxemu.c): tablets that never
 * report the pen leaving get a synthetic proximity-out once no pen report
 * has arrived for 250 ms. The emulator is the object `struct proxemu_data`;
 * its report hook and one run of its delayed worker are methods, each
 * proved against a step function on the emulator's abstract state. Time is
 * an explicit `now` in milliseconds; the reports the worker would inject
 * are returned as a list.
 */
module UclogicProxemu {
  import opened Common

  /** Inactivity, in milliseconds, after which the pen is taken to have left (EMULATE_PROXOUT_TIME). */
  const PROXOUT_TIME: nat := 250

  /** Size of the stored copy of the last pen report. */
  const REP_CAPACITY: nat := 16

  /** Report ID of the high-resolution pen reports the emulator watches. */
  const HIRES_PEN_REPORT_ID: bv8 := 8

  /** Bits of byte 1 of a pen report: tip switch and in-proximity. */
  const TIP_BIT: bv8 := 0x01
  const PROXIMITY_BIT: bv8 := 0x80

  /**
   * The emulator's state: whether emulation runs, the emulated proximity,
   * the time the proximity expires (0 when none is pending), whether it is
   * still bound to a device, and the last pen report with its size.
   */
  datatype ProxState = ProxState(
    enabled: bool, state: bool, timeout: nat, attached: bool,
    rep: seq<bv8>, repSize: nat)

  predicate WellFormed(s: ProxState)
  {
    |s.rep| == REP_CAPACITY && s.repSize <= REP_CAPACITY
  }

  /** The report after the hook and the emulator's new state. */
  datatype HookResult = HookResult(st: ProxState, report: seq<bv8>)

  /** The emulator's new state after one worker run, the reports it injects, and when it runs next. */
  datatype TickResult = TickResult(st: ProxState, injected: seq<seq<bv8>>, reschedule: bool, delay: nat)

  /** Byte 1 with the proximity bit set to `inRange`. */
  function WithProximity(b: bv8, inRange: bool): (r: bv8)
  {
    if inRange then b | PROXIMITY_BIT else b & !PROXIMITY_BIT
  }

  /** Only the proximity bit is set or cleared. */
  lemma WithProximityBits(b: bv8, inRange: bool)
    ensures (WithProximity(b, inRange) & PROXIMITY_BIT != 0) == inRange
    ensures WithProximity(b, inRange) & !PROXIMITY_BIT == b & !PROXIMITY_BIT
  {
  }

  /**
   * The effect of uclogic_proxemu_raw_event on the state and on the report
   * `d` of `size` bytes, received at time `now`.
   */
  function HookStep(s: ProxState, d: seq<bv8>, size: int, now: nat): (r: HookResult)
    requires WellFormed(s) && |d| >= 2 && size <= |d|
    ensures WellFormed(r.st) && |r.report| == |d|
  {
    if !s.enabled || d[0] != HIRES_PEN_REPORT_ID then HookResult(s, d)
    else
      var s1 := if 0 <= size <= REP_CAPACITY then s.(rep := d[..size] + s.rep[size..], repSize := size) else s;
      var s2 := if !s1.state && s1.timeout == 0 then s1.(state := true) else s1;
      HookResult(s2.(timeout := now + PROXOUT_TIME), d[1 := WithProximity(d[1], s2.state)])
  }

  /** The hook does nothing while emulation is off or for reports other than the pen report. */
  lemma HookIgnores(s: ProxState, d: seq<bv8>, size: int, now: nat)
    requires WellFormed(s) && |d| >= 2 && size <= |d|
    requires !s.enabled || d[0] != HIRES_PEN_REPORT_ID
    ensures HookStep(s, d, size, now) == HookResult(s, d)
  {
  }

  /**
   * On a pen report the hook keeps a copy of reports of at most 16 bytes,
   * turns proximity on only when it was off with no expiry pending, makes
   * the report's proximity bit say the emulated proximity and changes no
   * other bit, and arms the expiry 250 ms ahead.
   */
  lemma HookOnPenReport(s: ProxState, d: seq<bv8>, size: int, now: nat)
    requires WellFormed(s) && |d| >= 2 && size <= |d|
    requires s.enabled && d[0] == HIRES_PEN_REPORT_ID
    ensures var r := HookStep(s, d, size, now);
      && (0 <= size <= REP_CAPACITY ==> r.st.rep[..size] == d[..size] && r.st.repSize == size
                                         && r.st.rep[size..] == s.rep[size..])
      && (!(0 <= size <= REP_CAPACITY) ==> r.st.rep == s.rep && r.st.repSize == s.repSize)
      && r.st.state == (s.state || s.timeout == 0)
      && r.st.timeout == now + PROXOUT_TIME > 0
      && r.st.enabled == s.enabled && r.st.attached == s.attached
      && (r.report[1] & PROXIMITY_BIT != 0) == r.st.state
      && r.report[1] & !PROXIMITY_BIT == d[1] & !PROXIMITY_BIT
      && r.report[0] == d[0] && r.report[2..] == d[2..]
  {
    var r := HookStep(s, d, size, now);
    WithProximityBits(d[1], r.st.state);
    if 0 <= size <= REP_CAPACITY {
      assert r.st.rep == d[..size] + s.rep[size..];
    }
  }

  /**
   * The stored report with the tip switch released and zero pressure,
   * and the reports that announce it: that report only if it differs from
   * the stored one, then the report that carries the proximity-out.
   */
  function ProxOut(s: ProxState): (r: (seq<bv8>, seq<seq<bv8>>))
    requires WellFormed(s) && s.repSize >= 2
    ensures |r.0| == REP_CAPACITY
  {
    var d := s.rep;
    if d[1] & TIP_BIT != 0 || d[6] != 0 || d[7] != 0 then
      var cleared := d[1 := d[1] & !TIP_BIT][6 := 0][7 := 0];
      (cleared, [cleared[..s.repSize], cleared[..s.repSize]])
    else
      (d, [d[..s.repSize]])
  }

  /**
   * One run of uclogic_proxemu_worker at time `now`: a detached emulator
   * switches itself off and stops; an expired proximity is ended with the
   * proximity-out reports; otherwise the worker waits for the pending
   * expiry, or 250 ms when none is pending.
   */
  function TickStep(s: ProxState, now: nat): (r: TickResult)
    requires WellFormed(s)
    ensures WellFormed(r.st)
  {
    if !s.attached then TickResult(s.(enabled := false), [], false, 0)
    else if s.timeout != 0 && now >= s.timeout then
      if s.repSize >= 2 then
        var (rep, out) := ProxOut(s);
        TickResult(s.(rep := rep, state := false, timeout := 0), out, true, PROXOUT_TIME)
      else
        TickResult(s.(timeout := 0), [], true, PROXOUT_TIME)
    else if s.timeout != 0 then TickResult(s, [], true, s.timeout - now)
    else TickResult(s, [], true, PROXOUT_TIME)
  }

  /** A detached emulator switches off, injects nothing and does not run again. */
  lemma TickDetached(s: ProxState, now: nat)
    requires WellFormed(s) && !s.attached
    ensures var r := TickStep(s, now);
      !r.st.enabled && r.injected == [] && !r.reschedule && r.st.(enabled := s.enabled) == s
  {
  }

  /**
   * Before the expiry, or with none pending, a run injects nothing, changes
   * nothing and runs again when the expiry is due, or after 250 ms.
   */
  lemma TickWaits(s: ProxState, now: nat)
    requires WellFormed(s) && s.attached && (s.timeout == 0 || now < s.timeout)
    ensures var r := TickStep(s, now);
      && r.st == s && r.injected == [] && r.reschedule && r.delay > 0
      && r.delay == (if s.timeout == 0 then PROXOUT_TIME else s.timeout - now)
      && now + r.delay >= s.timeout
  {
  }

  /**
   * Once the expiry has passed, the run clears it; with a stored report of
   * two bytes or more it ends the proximity and injects one or two copies
   * of the stored report, now with the tip released and zero pressure, the
   * first only when that changed the stored report; the clearing persists.
   */
  lemma TickExpires(s: ProxState, now: nat)
    requires WellFormed(s) && s.attached && s.timeout != 0 && now >= s.timeout
    ensures var r := TickStep(s, now);
      && r.st.timeout == 0 && r.reschedule && r.delay == PROXOUT_TIME
      && r.st.enabled == s.enabled && r.st.repSize == s.repSize
      && (s.repSize < 2 ==> r.injected == [] && r.st == s.(timeout := 0))
      && (s.repSize >= 2 ==>
            && !r.st.state
            && r.st.rep[1] & TIP_BIT == 0 && r.st.rep[6] == 0 && r.st.rep[7] == 0
            && r.st.rep[1] & !TIP_BIT == s.rep[1] & !TIP_BIT
            && (forall k :: 0 <= k < REP_CAPACITY && k != 1 && k != 6 && k != 7 ==> r.st.rep[k] == s.rep[k])
            && (|r.injected| == 2 <==> (s.rep[1] & TIP_BIT != 0 || s.rep[6] != 0 || s.rep[7] != 0))
            && 1 <= |r.injected| <= 2
            && (forall i :: 0 <= i < |r.injected| ==> r.injected[i] == r.st.rep[..s.repSize]))
  {
    if s.repSize >= 2 {
      ProxOutReleases(s);
    }
  }

  /**
   * The proximity-out releases the tip and zeroes the pressure of the
   * stored report and changes nothing else in it; it announces the released
   * report twice exactly when that changed the stored report, else once.
   */
  lemma ProxOutReleases(s: ProxState)
    requires WellFormed(s) && s.repSize >= 2
    ensures var (rep, out) := ProxOut(s);
      && rep[1] & TIP_BIT == 0 && rep[6] == 0 && rep[7] == 0
      && rep[1] & !TIP_BIT == s.rep[1] & !TIP_BIT
      && (forall k :: 0 <= k < REP_CAPACITY && k != 1 && k != 6 && k != 7 ==> rep[k] == s.rep[k])
      && (|out| == 2 <==> (s.rep[1] & TIP_BIT != 0 || s.rep[6] != 0 || s.rep[7] != 0))
      && 1 <= |out| <= 2
      && (forall i :: 0 <= i < |out| ==> out[i] == rep[..s.repSize])
  {
    var d := s.rep;
    assert d[1] & TIP_BIT == 0 ==> d[1] & !TIP_BIT == d[1];
    assert (d[1] & !TIP_BIT) & TIP_BIT == 0;
    assert (d[1] & !TIP_BIT) & !TIP_BIT == d[1] & !TIP_BIT;
  }

  /**
   * The protocol end to end: after a pen report of at least two bytes is
   * stored at time t, a worker run at t + 250 ms or later ends the
   * proximity and injects the proximity-out.
   */
  lemma ProximityEndsAfterSilence(s: ProxState, d: seq<bv8>, size: int, t: nat, later: nat)
    requires WellFormed(s) && s.enabled && s.attached && |d| >= 2 && size <= |d|
    requires d[0] == HIRES_PEN_REPORT_ID && 2 <= size <= REP_CAPACITY
    requires later >= t + PROXOUT_TIME
    ensures var h := HookStep(s, d, size, t);
      var r := TickStep(h.st, later);
      !r.st.state && r.st.timeout == 0 && |r.injected| >= 1
      && r.injected[|r.injected| - 1][0] == HIRES_PEN_REPORT_ID
  {
    var h := HookStep(s, d, size, t);
    HookOnPenReport(s, d, size, t);
    assert h.st.rep[0] == h.st.rep[..size][0] == d[0];
    TickExpires(h.st, later);
  }

  /** The emulator bound to one tablet interface (struct proxemu_data). */
  class Proxemu {
    var enabled: bool
    var state: bool
    var timeout: nat
    /** Whether the emulator still has its HID device (hdev is not NULL). */
    var attached: bool
    const lastMotionRep: array<bv8>
    var lastMotionRepSize: nat

    ghost predicate Valid()
      reads this
    {
      lastMotionRep.Length == REP_CAPACITY && lastMotionRepSize <= REP_CAPACITY
    }

    /** The emulator's fields as a ProxState value. */
    ghost function Abstract(): (s: ProxState)
      reads this, lastMotionRep
      requires Valid()
      ensures WellFormed(s)
    {
      ProxState(enabled, state, timeout, attached, lastMotionRep[..], lastMotionRepSize)
    }

    /** A zero-filled emulator, as allocated with the driver data. */
    constructor ()
      ensures Valid() && fresh(lastMotionRep)
      ensures Abstract() == ProxState(false, false, 0, false, seq(REP_CAPACITY, _ => 0), 0)
    {
      enabled := false;
      state := false;
      timeout := 0;
      attached := false;
      lastMotionRep := new bv8[REP_CAPACITY](_ => 0);
      lastMotionRepSize := 0;
    }

    /**
     * uclogic_proxemu_init: binds the emulator to its device, switches
     * emulation on and schedules the first worker run 250 ms ahead.
     */
    method Init() returns (delay: nat)
      requires Valid()
      modifies this
      ensures Valid() && delay == PROXOUT_TIME
      ensures Abstract() == old(Abstract()).(enabled := true, attached := true)
    {
      enabled := true;
      attached := true;
      delay := PROXOUT_TIME;
    }

    /** uclogic_proxemu_raw_event for the report of `size` bytes in `data`, at time `now`. */
    method RawEvent(data: array<bv8>, size: int, now: nat)
      requires Valid() && data != lastMotionRep && data.Length >= 2 && size <= data.Length
      modifies this, lastMotionRep, data
      ensures Valid()
      ensures HookStep(old(Abstract()), old(data[..]), size, now) == HookResult(Abstract(), data[..])
    {
      if !enabled {
        return;
      }
      if data[0] != HIRES_PEN_REPORT_ID {
        return;
      }
      StoreReport(data, size);
      RaiseProximity();
      MarkProximity(data);
      timeout := now + PROXOUT_TIME;
    }

    /** Proximity goes on when it was off and no expiry was pending. */
    method RaiseProximity()
      requires Valid()
      modifies this
      ensures Valid()
      ensures Abstract() == if !old(state) && old(timeout) == 0 then old(Abstract()).(state := true) else old(Abstract())
    {
      if !state && timeout == 0 {
        state := true;
      }
    }

    /** The report's proximity bit is made to say the emulated proximity. */
    method MarkProximity(data: array<bv8>)
      requires data.Length >= 2
      modifies data
      ensures data[..] == old(data[..])[1 := WithProximity(old(data[1]), state)]
    {
      data[1] := WithProximity(data[1], state);
    }

    /** The memcpy into the stored report, done for reports of at most 16 bytes. */
    method StoreReport(data: array<bv8>, size: int)
      requires Valid() && data != lastMotionRep && size <= data.Length
      modifies this, lastMotionRep
      ensures Valid() && unchanged(data)
      ensures Abstract() == if 0 <= size <= REP_CAPACITY
        then old(Abstract()).(rep := data[..size] + old(lastMotionRep[..])[size..], repSize := size)
        else old(Abstract())
    {
      if 0 <= size <= REP_CAPACITY {
        lastMotionRepSize := size;
        CopyInto(lastMotionRep, 0, data[..size]);
        assert lastMotionRep[..] == lastMotionRep[..size] + lastMotionRep[size..];
      }
    }

    /**
     * One run of uclogic_proxemu_worker at time `now`: the reports it
     * injects, whether it schedules itself again, and after how long.
     */
    method WorkerTick(now: nat) returns (injected: seq<seq<bv8>>, reschedule: bool, delay: nat)
      requires Valid()
      modifies this, lastMotionRep
      ensures Valid()
      ensures TickStep(old(Abstract()), now) == TickResult(Abstract(), injected, reschedule, delay)
    {
      injected := [];
      if !attached {
        enabled := false;
        reschedule, delay := false, 0;
        return;
      }
      var sleep: int := 0;
      if timeout != 0 {
        sleep := timeout - now;
        if sleep <= 0 {
          if lastMotionRepSize >= 2 {
            injected := EmitProxOut();
            state := false;
          }
          timeout := 0;
        }
      }
      if sleep <= 0 {
        sleep := PROXOUT_TIME;
      }
      reschedule, delay := true, sleep;
    }

    /**
     * The proximity-out reports of an expired proximity: the stored report,
     * preceded by a copy with the tip and pressure cleared when the pen was
     * still touching; the stored report keeps the cleared bytes.
     */
    method EmitProxOut() returns (out: seq<seq<bv8>>)
      requires Valid() && lastMotionRepSize >= 2
      modifies lastMotionRep
      ensures Valid()
      ensures lastMotionRep[..] == ProxOut(old(Abstract())).0
      ensures out == ProxOut(old(Abstract())).1
    {
      ghost var s := Abstract();
      var size := lastMotionRepSize;
      if lastMotionRep[1] & TIP_BIT != 0 || lastMotionRep[6] != 0 || lastMotionRep[7] != 0 {
        ReleaseTip();
        var rep := lastMotionRep[..size];
        assert rep == lastMotionRep[..][..size];
        out := [rep, rep];
      } else {
        out := [lastMotionRep[..size]];
        assert out[0] == s.rep[..size];
      }
    }

    /** The stored report with the tip bit and both pressure bytes cleared. */
    method ReleaseTip()
      requires Valid()
      modifies lastMotionRep
      ensures lastMotionRep[..] == old(lastMotionRep[..])[1 := old(lastMotionRep[1]) & !TIP_BIT][6 := 0][7 := 0]
    {
      lastMotionRep[1] := lastMotionRep[1] & !TIP_BIT;
      lastMotionRep[6] := 0;
      lastMotionRep[7] := 0;
    }

    /**
     * The first half of uclogic_proxemu_stop: a running emulator is
     * detached from its device, so that its next worker run switches it off.
     */
    method Stop()
      requires Valid()
      modifies this
      ensures Valid()
      ensures Abstract() == if old(enabled) then old(Abstract()).(attached := false) else old(Abstract())
    {
      if !enabled {
        return;
      }
      attached := false;
    }
  }
}
