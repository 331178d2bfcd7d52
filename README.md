# UC-Logic tablet driver core, modelled in Dafny

This project models the parts of the DIGImend UC-Logic HID drivers that decide
what a graphics tablet looks like to the HID core, and that rewrite its reports.

- **Parameter discovery** (`UclogicParams`, params.dfy):
  - decoding of the vendor calibration string descriptors (v1: 12 bytes with LE16 fields; v2: 18 bytes with LE24 X/Y);
  - the physical maxima derived from logical maximum and resolution, in the driver's s32 arithmetic, beside the exact quotient;
  - the pen probes, with their three outcomes: found, not found, or a negative errno;
  - the v2 check that rejects a reply consisting only of UTF-16LE ASCII text, written as a loop;
  - the "HK On" button-mode check;
  - the merge of pen and frame fragments into one parameter record, written as a method that fills a buffer;
  - the exact-size rule for static replacement descriptors;
  - the vendor/product/interface dispatch of `uclogic_params_probe`.

  The USB string replies are inputs: a `Reply` is an errno or the bytes received. The parameter record consolidates the field names of the two header revisions:
  - `pen_id` is the same field as `pen_report_id`;
  - `pen_frame_flag` is the same field as `pen_report_frame_flag`;
  - `pen_frame_id` is the same field as `frame_virtual_report_id`.
- **Descriptor constants and templates** (`UclogicRdesc`, rdesc.dfy):
  - the original descriptor sizes that select replacements;
  - the four-byte template placeholder `FE ED 1D <id>` and its five IDs;
  - the substitution pass that writes each s32 parameter little-endian in place of its placeholder.
- **Report rewriting** (`UclogicCore`, core.dfy):
  - the descriptor override;
  - the suppression of an unused pen;
  - the input-name suffixes;
  - `uclogic_raw_event`, a method that rewrites the report array in place and is proved against `RawEventSpec`. It redirects frame sub-reports, flips the inverted in-range bit, and reorders the fragmented high-resolution bytes 4..9.
- **Proximity-out emulation** (`UclogicProxemu`, proxemu.dfy): the emulator is a class with the fields of `struct proxemu_data`. Its hook, its worker run, init and stop are methods, each proved against a step function on an abstract state value.
  - Time is an explicit `now` in milliseconds.
  - The reports the worker would inject are returned as a list.
- **Tilt compensation** (`UclogicXppen`, xppen_tilt.dfy): the Artist 15.6 Pro position correction, modelled literally. It uses s8 tilts, 32-bit wrapping products, C truncating division and clamping. A table index past the 64 entries is an outcome of its own. Corrected definitions sit beside the literal ones (see Findings).
- **Standalone fixup drivers** (`Polostar`, `G430sb`, `XppenArtist133`):
  - the replace-descriptor decision;
  - the interface rejection at probe time;
  - the fixed descriptors, written as HID short items. `HidItems` (hid_items.dfy) walks those items: it parses and encodes short items (section 6.2.2.2 of the Device Class Definition for HID 1.11), tracks global items with Push/Pop (section 6.2.2.7) and collections (section 6.2.2.4), and lists Input fields (section 6.2.2.5).

  The walk proves each fixed descriptor well formed and balanced, and shows which reports and fields it declares.

`Common` (common.dfy) holds the shared byte helpers:
- little-endian reads and writes;
- s8 and s32 conversions;
- C truncating division;
- `strncmp`;
- a copy into an array.

## Model

| member | source | states |
|---|---|---|
| UclogicRdesc.PhId.Index | hid-uclogic-rdesc.h:86-93 | placeholder IDs are numbered 0..4 in enum order, below the ID count 5 |
| UclogicRdesc.PlaceholderShape | hid-uclogic-rdesc.h:83-96 | a placeholder is four bytes: FE ED 1D, then the ID's number; different IDs have different placeholders |
| UclogicRdesc.TemplateApply | hid-uclogic-params.c:221-240 | the generated descriptor is as long as the template, which is what the probe relies on when it sets the pen descriptor size to the template size |
| UclogicRdesc.NoPlaceholderUnchanged | hid-uclogic-params.c:221-224 | a template containing no placeholder head is copied unchanged |
| UclogicRdesc.PlaceholderSubstituted | hid-uclogic-params.c:380-383 | a template consisting of one placeholder becomes the four little-endian bytes of the parameter its ID selects |
| UclogicRdesc.PlaceholderInTemplate | hid-uclogic-params.c:380-383 | inside a template, a placeholder preceded by bytes none of which is 0xFE (the first byte of a placeholder head) becomes its parameter's four little-endian bytes; the bytes before it are kept, and the bytes after it are substituted in turn |
| UclogicRdesc.S32RoundTrip | hid-uclogic-params.c:160 | every s32 template parameter reads back from its four substituted bytes as the same s32 |
| UclogicRdesc.TemplateExample | hid-uclogic-rdesc.h:83 | FE ED 1D 00 AA with parameter 1000 becomes E8 03 00 00 AA |
| UclogicParams.InrangeToStr | hid-uclogic-params.c:30-43 | every in-range type has a non-empty name |
| UclogicParams.InrangeStrRoundTrip | hid-uclogic-params.c:30-43 | the names are distinct and lead back to their type |
| UclogicParams.Le24 | hid-uclogic-params.c:270-274 | a 24-bit little-endian read gives a value in [0, 2^24) |
| UclogicParams.Le24RoundTrip | hid-uclogic-params.c:270-274 | reading back three written bytes gives the value modulo 2^24 |
| UclogicParams.DecodeV1 | hid-uclogic-params.c:197-203 | the v1 X, Y, pressure and resolution are unsigned 16-bit values |
| UclogicParams.DecodeV2 | hid-uclogic-params.c:356-362 | the v2 X and Y are unsigned 24-bit values, and pressure and resolution are 16-bit values |
| UclogicParams.V1RoundTrip | hid-uclogic-params.c:197-203 | the v1 fields sit at distinct offsets 2, 4, 8 and 10: decoding a reply built from a calibration gives it back |
| UclogicParams.V2RoundTrip | hid-uclogic-params.c:356-362 | the v2 fields sit at distinct offsets 2, 5, 8 and 10: decoding a reply built from a calibration gives it back |
| UclogicParams.V1IgnoresFiller | hid-uclogic-params.c:197-203 | v1 bytes 0, 1, 6 and 7 play no part in the calibration |
| UclogicParams.PhysicalMax | hid-uclogic-params.c:204-214 | resolution 0 gives 0; otherwise the result is the floor of lm*1000/res, characterised by pm*res <= lm*1000 < (pm+1)*res |
| UclogicParams.PhysicalMaxS32 | hid-uclogic-params.c:363-373 | the driver's s32 computation stays in the s32 range |
| UclogicParams.PhysicalMaxS32Exact | hid-uclogic-params.c:204-214 | the s32 computation is exact for logical maxima up to 2147483, which covers every 16-bit v1 value |
| UclogicParams.PhysicalMaxS32Overflows | hid-uclogic-params.c:367-372 | a 24-bit v2 maximum of 2147484 at resolution 1 gives a negative physical maximum, where the exact value is 2147484000 |
| UclogicParams.TemplateParams | hid-uclogic-params.c:197-214 | each placeholder ID's slot holds its logical maximum, or the physical maximum the driver computes from it in s32; that is the exact quotient for logical maxima up to 2147483 |
| UclogicParams.PenV1Probe | hid-uclogic-params.c:176-242 | an error other than EPIPE is returned as the error; EPIPE or a length other than 12 gives success without a pen; otherwise the pen has the template's size, the v1 ID, inverted in-range and no fragmented high-resolution data |
| UclogicParams.IsOnlyText | hid-uclogic-params.c:340-350 | the scan loop says "only text" exactly when every pair from offset 2 on is a byte in 0x20..0x7E followed by 0 |
| UclogicParams.PenV2Probe | hid-uclogic-params.c:317-402 | as for v1 with length 18, and a text-only reply also gives no pen; a found pen has the template's size, the v2 ID, in-range none and fragmented high-resolution data; its physical maxima are the driver's s32 ones |
| UclogicParams.PenV1FromCalibration | hid-uclogic-params.c:197-242 | a 12-byte reply carrying a calibration yields the v1 template filled with that calibration's logical maxima and physical maxima, the latter exact for every 16-bit value |
| UclogicParams.PenV2FromCalibration | hid-uclogic-params.c:356-402 | an 18-byte reply carrying a calibration, unless it reads as text, yields the v2 template filled with that calibration's logical maxima and the physical maxima as the driver computes them in s32 |
| UclogicParams.PenV2PhysicalMaxWraps | hid-uclogic-params.c:363-373 | a v2 reply with X logical maximum 2147484 and resolution 1 makes the probe fill the template with a negative X physical maximum, where the exact value is 2147484000 |
| UclogicParams.V2RejectsText | hid-uclogic-params.c:335-350 | an 18-byte reply of repeated "A\0" pairs is never taken for v2 parameters |
| UclogicParams.FrameFromDesc | hid-uclogic-params.c:478-510 | the frame holds a copy of the descriptor, and every other field is zero |
| UclogicParams.ButtonpadV1Probe | hid-uclogic-params.c:552-570 | an error other than EPIPE is an error; a frame copied from the v1 buttonpad descriptor is found exactly when strncmp(reply, "HK On", length) is zero |
| UclogicParams.ButtonpadV1Enables | hid-uclogic-params.c:558 | for a reply without NUL bytes the buttons are enabled exactly when the reply is a prefix of "HK On", the empty reply included |
| UclogicParams.Merge | hid-uclogic-params.c:626-694 | merged parameters never mark the pen unused |
| UclogicParams.MergeLayout | hid-uclogic-params.c:645-682 | the descriptor is the pen fragment followed by the frame fragment, and it is present exactly when their sizes add up to more than 0; the frame flag and frame ID are kept only when both fragments are present; each fragment's own fields come from it alone |
| UclogicParams.FromPenAndFrame | hid-uclogic-params.c:644-682 | the buffer filled by copying the fragments one after the other yields the parameters of Merge |
| UclogicParams.WithOptDesc | hid-uclogic-params.c:716-766 | the replacement descriptor is set exactly when the native size equals the expected original size, and every other field is zero |
| UclogicParams.WithPenUnused | hid-uclogic-params.c:782-806 | the parameters mark the pen unused, have no descriptor and are otherwise zero |
| UclogicParams.StaticFixIffSizeMatches | hid-uclogic-params.c:851-947 | static models never fail: an interface without an expected size gets no parameters, and the others get a replacement exactly when the native size matches; the replacement is that model's own fixed descriptor, for the TWHL850 and TWHA60 the one of that interface |
| UclogicParams.Twha60ThreeInterfaces | hid-uclogic-params.c:924-963 | a three-interface TWHA60 falls through to the Huion branch |
| UclogicParams.HuionErrorsOnlyFromButtonpad | hid-uclogic-params.c:964-1029 | in the Huion group, non-zero interfaces get pen-unused parameters; the probe fails exactly when a v1 pen is found after no v2 pen and the buttonpad request then fails |
| UclogicParams.HuionV2First | hid-uclogic-params.c:973-997 | a v2 pen wins whatever the v1 replies: it is merged with the v2 buttonpad under frame flag 0x20 |
| UclogicParams.HuionNothingFound | hid-uclogic-params.c:999-1029 | with neither pen found on interface 0, a Huion-group tablet gets no parameters and success |
| UclogicParams.PenErrorAborts | hid-uclogic-params.c:865-873 | outside the Huion group, every model that probes a v1 pen aborts with the pen probe's error |
| UclogicParams.IgnoredGetNothing | hid-uclogic-params.c:1083-1086 | unknown tablets and the interfaces a model ignores get no parameters, and the probe succeeds |
| UclogicParams.FrameFlagOnlyHuion | hid-uclogic-params.c:990-1021 | a non-zero frame flag comes only from the Huion branch, and it is 0x20 |
| UclogicCore.ReportFixup | hid-uclogic-core.c:35-45 | the replacement descriptor is used exactly when there are parameters and they carry one; otherwise the device's own descriptor is kept |
| UclogicCore.InputMapping | hid-uclogic-core.c:47-61 | returns -1 exactly when there are parameters, the pen is unused and the application is Pen; otherwise 0 |
| UclogicCore.Suffix | hid-uclogic-core.c:84-103 | a non-empty suffix exists exactly for the six named applications |
| UclogicCore.SuffixInjective | hid-uclogic-core.c:84-103 | different applications get different suffixes |
| UclogicCore.Snprintf | hid-uclogic-core.c:109 | the buffer keeps a prefix of the text of at most n-1 characters |
| UclogicCore.InputNameNotTruncated | hid-uclogic-core.c:78-112 | a buffer of strlen(name)+2+strlen(suffix) bytes holds "<name> <suffix>" uncut; without a report the name is unchanged |
| UclogicCore.ShuffleRoundTrip | hid-uclogic-core.c:209-229 | the reordering of the high-resolution bytes is undone by its inverse, and the inverse by it |
| UclogicCore.SixCycleIsPermutation | hid-uclogic-core.c:213-228 | the six bytes in their new order are the same multiset |
| UclogicCore.ShufflePlaces | hid-uclogic-core.c:213-228 | new bytes 4..9 are old bytes 8, 4, 5, 9, 6, 7; bytes 0..3 and from 10 on stay in place |
| UclogicCore.ShufflePermutes | hid-uclogic-core.c:209-229 | bytes 4..9 are permuted among themselves |
| UclogicCore.RawEventSpec | hid-uclogic-core.c:184-234 | the rewrite keeps the report length and never changes a byte from `size` on |
| UclogicCore.RawEventReadsWithinSize | hid-uclogic-core.c:190-229 | the rewrite reads only the first `size` bytes: reports agreeing there are rewritten alike |
| UclogicCore.RawEventPassesOthers | hid-uclogic-core.c:190-193 | a report passes unchanged unless the pen is used, the report is an input report, its ID is the pen's and size >= 2 |
| UclogicCore.RawEventRedirectsFrame | hid-uclogic-core.c:195-198 | a frame sub-report has only byte 0 changed, to the virtual frame report ID |
| UclogicCore.RawEventPenHeader | hid-uclogic-core.c:199-204 | in such a report byte 0 is kept, and byte 1 has its in-range bit flipped exactly in inverted mode |
| UclogicCore.RawEventPenBody | hid-uclogic-core.c:205-229 | in such a report bytes 2 on are kept, except that bytes 4..9 of a fragmented report of 10 bytes or more are permuted among themselves |
| UclogicCore.FlipInrangeOnlyItsBit | hid-uclogic-core.c:200-204 | XOR 0x40 changes bit 6 and no other bit, and applying it twice restores the byte |
| UclogicCore.ShuffleInPlace | hid-uclogic-core.c:213-228 | the in-place moves give the reordered report |
| UclogicCore.RawEvent | hid-uclogic-core.c:184-234 | the in-place rewrite always returns 0 and leaves the array as RawEventSpec of its old contents |
| UclogicProxemu.WithProximityBits | hid-uclogic-proxemu.c:103-106 | bit 0x80 ends up equal to the emulated proximity, and no other bit changes |
| UclogicProxemu.HookStep | hid-uclogic-proxemu.c:83-114 | the hook keeps the stored report within 16 bytes and the report's length unchanged |
| UclogicProxemu.HookIgnores | hid-uclogic-proxemu.c:85-90 | with emulation off, or for a report whose first byte is not 8, nothing changes |
| UclogicProxemu.HookOnPenReport | hid-uclogic-proxemu.c:92-113 | a report of at most 16 bytes is stored with its size; proximity turns on only when it was off with no expiry pending; bit 0x80 of byte 1 says the proximity and no other bit or byte changes; the expiry is set 250 ms ahead |
| UclogicProxemu.ProxOutReleases | hid-uclogic-proxemu.c:42-67 | the stored report gets its tip bit and bytes 6-7 cleared and nothing else changed; it is announced twice exactly when that changed it, otherwise once |
| UclogicProxemu.TickStep | hid-uclogic-proxemu.c:22-81 | a worker run keeps the emulator state well formed |
| UclogicProxemu.TickDetached | hid-uclogic-proxemu.c:29-34 | a detached emulator switches off, injects nothing and is not rescheduled |
| UclogicProxemu.TickWaits | hid-uclogic-proxemu.c:36-38 | before the expiry, or with none pending, nothing is injected or changed, and the next run is at the expiry or 250 ms later |
| UclogicProxemu.TickExpires | hid-uclogic-proxemu.c:36-80 | after the expiry the run clears it and reschedules after 250 ms; with a stored report of 2 bytes or more it ends the proximity and injects the released report once or twice, and the cleared report stays stored |
| UclogicProxemu.ProximityEndsAfterSilence | hid-uclogic-proxemu.c:22-114 | after a pen report, a worker run 250 ms or more later ends the proximity and injects a report with the pen report ID |
| UclogicProxemu.Proxemu.constructor | hid-uclogic-proxemu.h:24-41 | the emulator starts zero-filled, with a 16-byte report buffer |
| UclogicProxemu.Proxemu.Init | hid-uclogic-proxemu.c:116-126 | emulation is switched on and bound to the device, and the first run is 250 ms ahead |
| UclogicProxemu.Proxemu.RawEvent | hid-uclogic-proxemu.c:83-114 | the fields and the report array change as HookStep says |
| UclogicProxemu.Proxemu.StoreReport | hid-uclogic-proxemu.c:93-96 | a report of at most 16 bytes is copied to the front of the buffer and its size recorded; otherwise nothing changes |
| UclogicProxemu.Proxemu.RaiseProximity | hid-uclogic-proxemu.c:100-101 | proximity turns on only when it was off with no expiry pending |
| UclogicProxemu.Proxemu.MarkProximity | hid-uclogic-proxemu.c:103-106 | only byte 1 of the report changes, to carry the proximity in bit 0x80 |
| UclogicProxemu.Proxemu.WorkerTick | hid-uclogic-proxemu.c:22-81 | the fields, the injected reports and the rescheduling are as TickStep says |
| UclogicProxemu.Proxemu.EmitProxOut | hid-uclogic-proxemu.c:42-67 | the buffer and the injected reports are those of ProxOut on the old state |
| UclogicProxemu.Proxemu.ReleaseTip | hid-uclogic-proxemu.c:52-56 | the tip bit and both pressure bytes are cleared in place, and nothing else changes |
| UclogicProxemu.Proxemu.Stop | hid-uclogic-proxemu.c:128-134 | a running emulator is detached from its device; a stopped one is left alone |
| UclogicXppen.Tangent | hid-uclogic-xppen.c:29-37 | the 64 table entries lie in 3..277 |
| UclogicXppen.Clamp | hid-uclogic-xppen.c:58 | the result lies in the bounds and equals the value when that is within them |
| UclogicXppen.AbsTilt | hid-uclogic-xppen.c:54 | abs() stored in an s8 is the magnitude, except that -128 stays -128 |
| UclogicXppen.TiltDirection | hid-uclogic-xppen.c:56 | tilt / abs_tilt is the sign of the tilt, and 1 for -128 |
| UclogicXppen.AxisStep | hid-uclogic-xppen.c:53-78 | one axis succeeds exactly when the magnitude indexes the table; then only its two bytes change, and the value is at most the bound |
| UclogicXppen.PutLe16 | hid-uclogic-xppen.c:59 | the field reads back as the value, and no other byte changes |
| UclogicXppen.TiltNoOp | hid-uclogic-xppen.c:44-53 | other devices and an upright pen leave the report as it is |
| UclogicXppen.TiltWritesOnlyPosition | hid-uclogic-xppen.c:53-79 | only bytes 2-5 change, each axis only when tilted, and a written X is in [0, 34419] and a written Y in [0, 19461] |
| UclogicXppen.TiltXOnly | hid-uclogic-xppen.c:67-72 | with only X tilted within the table, X becomes clamp(X - sign(tx)*tangents[abs(tx)], 0, 34419) and nothing else changes |
| UclogicXppen.TiltYOnly | hid-uclogic-xppen.c:73-78 | the same for Y, with the bound 19461 |
| UclogicXppen.TiltOutOfTableIff | hid-uclogic-xppen.c:53-78 | the table is read out of bounds exactly when a tilt has magnitude 64 or more |
| UclogicXppen.StoreLe16 | hid-uclogic-xppen.c:59 | the in-place write gives PutLe16 of the old contents |
| UclogicXppen.CompensateAxis | hid-uclogic-xppen.c:68-72 | the in-place compensation of one axis gives AxisStep of the old contents, or leaves the report alone when the lookup is out of bounds |
| UclogicXppen.CompensateReport | hid-uclogic-xppen.c:53-79 | the in-place compensation gives Compensate of the old contents when it succeeds, and never touches bytes outside the position |
| UclogicXppen.ApplyTiltCompensation | hid-uclogic-xppen.c:22-86 | the in-place compensation gives TiltSpec of the old contents when it succeeds, and never touches bytes outside the position |
| UclogicXppen.TiltTableOverrun | hid-uclogic-xppen.c:67-70 | an X tilt byte of 64, or of 0x80, indexes past the table |
| UclogicXppen.TwoAxisOffsetWraps | hid-uclogic-xppen.c:53-57 | a tilt of 1 on both axes moves X 5 units the wrong way, because the product wraps; without the wrap the offset for tangent 6 would be 424, about 70.7 times the tangent rather than 0.707 times it |
| UclogicXppen.CorrectedTangent | hid-uclogic-xppen.c:29-37 | covered angles take their table entry, and larger ones the last entry |
| UclogicXppen.CorrectedTwoAxisOffset | hid-uclogic-xppen.c:50-57 | the offset is tan*sqrt(2)/2 truncated toward zero, carries the tilt's sign and never exceeds the tangent |
| UclogicXppen.CorrectedAxis | hid-uclogic-xppen.c:53-78 | the corrected axis step always succeeds, writes only its field and stays within the bound |
| UclogicXppen.CorrectedTiltTotal | hid-uclogic-xppen.c:53-79 | the corrected compensation is defined for every report, changes only the position and keeps X and Y in range |
| UclogicXppen.CorrectedTiltAgrees | hid-uclogic-xppen.c:67-78 | where the driver's lookup is in bounds and one axis is tilted, the corrected compensation gives the driver's result |
| G430sb.ReportFixup | hid-g430sb.c:124-143 | NULL on any interface but 2; there the fixed descriptor replaces one of 36 bytes, and any other descriptor is kept |
| G430sb.ProbeInterfaceCheck | hid-g430sb.c:164-167 | -ENODEV exactly on the interfaces where the fixup returns NULL |
| G430sb.FixedDescriptor | hid-g430sb.c:53-122 | the fixed descriptor is 97 bytes of well-formed short items with balanced collections and Push/Pop; it declares report 2 only, with the listed Input fields |
| G430sb.Report2Layout | hid-g430sb.c:36-51 | report 2 is 96 bits with its ID: 8 flag bits, then five 16-bit fields; X and Y reach 10160 and 7620 with unit exponent -3, and the pressure reaches 8191 on the Digitizer page |
| Polostar.ReportFixup | hid-polostar.c:152-168 | the fixed descriptor replaces the device's exactly for a PT-1001 on interface 1 with a 317-byte descriptor |
| Polostar.ProbeInterfaceCheck | hid-polostar.c:177-179 | -ENODEV exactly for interface 2 of a PT-1001 |
| Polostar.FixedDescriptor | hid-polostar.c:26-150 | 227 bytes of well-formed short items; 5 Collections closed by 5 End Collections; Push/Pop balanced; reports 1, 5 and 9 in that order; the listed Input fields |
| Polostar.ItemValues | hid-polostar.c:52-146 | the items decode as commented: -32767 and 32767, logical maxima 4096 and 1023, physical maxima 1056 and 660 |
| Polostar.WheelCount | hid-polostar.c:56-63 | the wheel's Report Count item holds 1, whatever its comment says, so report 1 ends in one 8-bit relative value |
| Polostar.Report5Layout | hid-polostar.c:72-101 | report 5 is 32 bits: a constant byte, 18 consumer keys and 6 constant bits |
| Polostar.PressureAfterPop | hid-polostar.c:129-147 | X and Y have unit exponent -2 on the Desktop page; after the Pop the pressure is on the Digitizer page, with no physical range and no unit exponent |
| XppenArtist133.ReportFixup | hid-xppen.c:96-112 | the fixed descriptor replaces the device's exactly for an Artist 13.3 on interface 1 with a 140-byte descriptor |
| XppenArtist133.ProbeInterfaceCheck | hid-xppen.c:121-123 | -ENODEV exactly for interface 2 of an Artist 13.3 |
| XppenArtist133.FixedDescriptor | hid-xppen.c:24-94 | 140 well-formed bytes with balanced collections and Push/Pop; reports 7, 5 and 6 in that order; the listed Input fields |
| XppenArtist133.ItemValues | hid-xppen.c:53-59 | the 4-byte logical maxima are 29376 and 16524, the physical maxima 11565 and 6505; Unit Exponent 0x0D is -3, not the commented 13 |
| XppenArtist133.Report7Layout | hid-xppen.c:28-65 | report 7 is 64 bits with its ID: 8 flag bits, then 16-bit X, Y and pressure |
| XppenArtist133.Report6Buttons | hid-xppen.c:84-93 | report 6 carries 32 one-bit buttons on the Button page |

## Left out

- USB transfers: `usb_control_msg`, `usb_string` and the G430S_B initialisation send are not modelled. Their replies are inputs (`Reply`), and the G430S_B probe is modelled only up to its interface check.
- `usb_string` truncation and the 16-byte string buffer: a reply is its bytes as received.
- Memory allocation: `-ENOMEM` branches, kmalloc/kfree ownership and the output-pointer hand-off. Allocation always succeeds.
- The `hdev == NULL` argument checks returning `-EINVAL` (the probes and g430sb_probe): a device is always present.
- `uclogic_raw_event` dereferences the parameters without a NULL check; the model always has parameters there.
- hid-uclogic-rdesc.c is not part of this model. `TemplateApply` substitutes placeholders as the header's encoding describes, and the probes rely only on its length. The template, buttonpad and fixed arrays, and the report IDs declared next to them, are fields of an `Externs` parameter.
- Timer concurrency: `schedule_delayed_work`, the busy-wait in `uclogic_proxemu_stop` and jiffies wrap-around in `timeout - jiffies`. Time is an unbounded `now`, and Stop only detaches.
- Re-entrant injection: `hid_input_report` is not called. The worker returns the reports it would inject, in order.
- HID stack and module glue: `hid_parse`, `hid_hw_start`, device ID tables, registration, logging, `devm_kzalloc` of the name, and the kernel-version switch.
- `uclogic_probe`, `uclogic_remove` and resume. The probe frees the parameters and driver data even on success (hid-uclogic-core.c:159-166); that is not modelled.
- Rotary-encoder, device-ID-byte, touch-ring and in-range-none rewriting: the fields are carried, but no modelled code uses them.
- `uclogic_params_pen_inrange_to_str` returns NULL for values outside the enum, which a Dafny datatype cannot hold.
- Vendor and product IDs are symbolic (`Model`, `Product`, booleans for the standalone drivers).
- HidItems tracks Input items only. Output and Feature items, usages and units are walked but not listed. A field records the usage page current at its Input item.
- UclogicXppen.CompensateReport: when the second axis of a two-axis compensation fails its lookup, the first axis has already been written; the contract then promises only that bytes outside the position are untouched, because the C code reads outside the table at that point.

## Findings

| source | as written | input that shows it | evidently intended | confidence | as-written member | corrected member |
|---|---|---|---|---|---|---|
| hid-uclogic-params.c:367-372 | the physical maximum is X_LM * 1000 / resolution in s32 arithmetic, with a 24-bit X_LM | v2 reply with X or Y logical maximum 2147484 and resolution 1 gives a negative physical maximum | the exact quotient lm*1000/res | medium; not executed (real tablets report far smaller maxima) | UclogicParams.PenV2PhysicalMaxWraps | UclogicParams.PhysicalMax |
| hid-uclogic-xppen.c:67-70 | `tangents[abs_tilt]` indexes a 64-entry table with an s8 magnitude up to 127, and -128 | report with X tilt byte 0x40 (64) or 0x80 (-128) on an Artist 15.6 Pro | tilts beyond the table take its last entry | high; not executed | UclogicXppen.TiltTableOverrun | UclogicXppen.CorrectedTangent |
| hid-uclogic-xppen.c:55-57 | `(tx / abs_tilt) * tangents[abs_tilt] * 707106781 / 10000000` in 32-bit int | tilt 1 on both axes: 6 * 707106781 wraps, and the offset is -5 instead of about 4 | offset sign(t) * tan * sqrt(2)/2, without wrap-around | high; not executed | UclogicXppen.TwoAxisOffsetWraps | UclogicXppen.CorrectedTwoAxisOffset |
