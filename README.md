# yaspfm-player-opm, modelled in Dafny

yaspfm-player-opm is a console player for chip-music command logs. It plays VGM and S98 files on real sound chips through an SPFM or SPFM Light interface. It can hand the writes of an OPN, AY or SN chip to a transcoder that drives a YM2151 (OPM) instead, and it caches the converted song as a VGM file. The repository keeps many snapshot versions (v0.83 to v0.915). Each module here models one file of one version as written, and is named after it where versions differ.

The modules:

- `Bytes` (bytes.dfy): the byte and word types, little-endian assembly, and a `Stream` class standing for a `FILE *` over a byte sequence.
- `Util` (util.dfy): the stream readers of `util.c` (fixed-width little-endian values and the 7-bit variable-length value), the wait split of `yasp_usleep`, and `low_byte`/`high_byte`.
- `ChipType` (chiptype.dfy): chip names, their inverse, and the slot lookup.
- `Adpcm` (adpcm.dfy): the YM2608 ADPCM encoder and the OKIM6258 decoder.
- `OpmPitch` (pitch.dfy): the integer part of the OPM key-code conversion, with `log2` as a parameter.
- `Ini` (ini.dfy): the vendored INI parser, line by line, with its handler as a parameter.
- `S98` (s98.dfy): the S98 header, the variable-length value and the playback dispatch.
- `Spfm` (spfm.dfy): the frame encoder and the 4096-byte-chunk write buffer of the SPFM interface.
- `V0903VgmHeader`, `V0903VgmCommand`, `V0903VgmCache` (vgm903_*.dfy): the v0.903 VGM header parser, the command interpreter with its loop rule, and the OPM cache builder with the cache header.
- `CText` (ctext.dfy): `strrchr` and `strcasecmp` in the C locale.
- `Play` (play.dfy): file types, base names, cache names, the S98 length scan and the total-time display of `play.c`. In v0.83 and v0.86 these parts of `play.c` are the same as in v0.911, and the same members model them:
  - `get_filetype` at v0.83/console_player/play.c:45-51 and v0.86/console_player/play.c:127-133;
  - the base name at v0.86/console_player/play.c:86-88;
  - the `mm:ss` split at v0.86/console_player/play.c:95-98;
  - the timer-mode names at v0.86/console_player/play.c:57-67;
  - the `play_file` dispatch at v0.83/console_player/play.c:53-80.
- `Browser` (browser.dfy): the v0.915 file browser's path normalisation, entry order and filter, page arithmetic and key handling.
- `V0086Browser` (browser086.dfy): the v0.86 file browser. It shares the entry order, filter, read loop and page arithmetic with `Browser`: `compare_entries` at v0.86/console_player/browser.c:35-42, the read loop at v0.86/console_player/browser.c:53-78 and the page count at v0.86/console_player/browser.c:85-86 are those of v0.915. Its paths are joined and cut without normalisation. Its static entry table keeps an earlier listing's entries beyond the count, so Enter on an empty list acts on a stale slot. Entering a directory resets the selection but not the page, and opening the browser keeps both.
- `V0903VgmParser` (vgm903_parser.dfy): the v0.903 command lister `parse_vgm_commands`, with its operand skipping, its sample count and its window.
- `V0915VgmParser` (vgm915_parser.dfy): the stand-alone VGM command lister of v0.915, with its command length table, its data start and its walk over the commands.
- `V0888VgmParser` (vgm888_parser.dfy): the stand-alone header reader of v0.888, which fills every field of the VGM 1.71 header under its version gate from an uncleared buffer.
- `V0084Vgm` (vgm084.dfy): the VGM player of v0.84: the raw header structure and its data start, `vgm_process_command` with its wait override and its unbounded loop, the sample-memory block writer, and the playback loop that works a pending wait off in chunks of at most 1000 samples.
- `V0086Vgm` (vgm086.dfy): the timer-driven playback loops of v0.86 (compensated sleep, VGMPlay mode, optimised VGMPlay mode), which drain a backlog of due samples by processing commands. The header reader and `vgm_process_command` of v0.86 (v0.86/console_player/vgm.c:28-200) are those of v0.84 word for word, so `V0084Vgm` models both versions of them.
- `V0087VgmCache` (vgm087_cache.dfy): the v0.87 OPN-to-OPM converter, which walks the song body in memory and hands OPN writes to the transcoder and copies waits, together with the header it writes over the cache's placeholder. The corrected walk beside it keeps to the command boundaries of the VGM format. The v0.87 header parser, `vgm_process_command` and `get_primary_chip_from_header` (v0.87/console_player/vgm.c:97-240 and 439-450) are those of v0.903 line for line, so `V0903VgmHeader` and `V0903VgmCommand` model both versions of them.
- `V0915OpnToOpm` (opn_to_opm915.dfy): the v0.915 OPN-to-OPM transcoder: the shadow of both OPN ports, the channel remapping of key-on, operator, pan and pitch registers, the L/R cache and the LFO set-up.
- `V0087SnToAy` (sn_to_ay087.dfy): the v0.87 SN76489-to-AY8910 converter: the latch and data byte protocol over a shadow of the four SN channels, and the AY register writes it passes on, with SN tone 2 and the SN noise sharing AY channel 2.
- `V0888Ym2151` (ym2151888.dfy): the v0.888 YM2151 driver: the register shadow, the clock conversion that transposes key codes and rescales the noise and LFO frequencies, and the mute and init scripts. The key transposition is given as written (one borrow or carry) and normalised (as many as needed), and the driver uses the latter.
- `V0087AyToOpm` (ay_to_opm087.dfy): the v0.87 AY8910-to-OPM transcoder: the AY register shadow, the tone channels on OPM channels 4 to 6 with the noise on channel 7's last operator, the pitch, level and noise updates, and its place at the end of the SN76489 chain.
- `V0884AyToOpm` (ay_to_opm084.dfy): the v0.884 AY8910-to-OPM transcoder: the v0.87 conversion through an installable write callback, plus the software envelope generator (its sixteen shapes, the stepping, the period and shape writes) and envelope-mode channels played at the envelope's level.
- `V0888AyToOpm` (ay_to_opm888.dfy): the v0.888 AY8910-to-OPM transcoder: the v0.884 envelope, with an envelope of period below 200 played as a waveform: full volume, a pitch from the envelope cycle, and key events when the envelope bit of an amplitude register changes. Shapes 9, 11, 13 and 15, which hold after one slope, are given a 32-step cycle like the repeating sawtooths.
- `V0911AyToOpm` (ay_to_opm911.dfy): the v0.911 AY8910-to-OPM transcoder: the v0.888 waveform rules with stereo. A stereo mode (ABC, ACB, BAC or mono) pans the three tone channels, the noise takes the union of the sides its channels sound on, key events follow the mixer's tone bits instead of the envelope bit, and a new note on a channel using a one-shot envelope restarts it. At set-up the noise operator's fixed centred connection is sent after the stereo mode's noise pan, so the noise stays centred until its next update.
- `V0915WsToOpm` (ws_to_opm915.dfy): the v0.915 WonderSwan-to-OPM transcoder: the 32 sound registers, the four channel states, the OPM writes of each register write, and the 32-bit sample clock that delays pitch bends. The port argument of the write call is ignored by the source and is not modelled.

Hardware writes, calls into transcoders and the file system are recorded as values (a sequence of calls, or of pieces of output) instead of being performed. State that the C code keeps in statics or globals is a class whose methods say exactly how they change it.

## Model

| member | source | states |
|---|---|---|
| Bytes.Le16 | v0.903/console_player/vgm.c:76-78 | the 16-bit value's low byte is the first byte and its high byte the second |
| Bytes.Le32Digits | v0.903/console_player/util.c:60-63 | the four bytes read are exactly the base-256 digits of the assembled word |
| Bytes.Le32BytesRoundTrip | v0.903/console_player/vgm.c:87-92 | reading back what `write_le32` stored gives the value written, for every 32-bit value |
| Bytes.Le32AtRoundTrip | v0.903/console_player/vgm.c:87-92 | writing back a word read from four bytes reproduces those four bytes |
| Bytes.Stream.Read | v0.903/console_player/util.c:44-50 | `fread` returns the bytes available up to the count asked for and advances the position by as many |
| Bytes.Stream.ReadByte | v0.903/console_player/util.c:65-76 | a one-byte read returns the byte at the position and advances, or reports end of file and stays put |
| Util.ReadLe32 | console_player/util.c:39-42 | the result serialised little-endian is the four bytes read |
| Util.ReadLe32OfBytes | console_player/util.c:39-42 | `read_le32` of the little-endian bytes of any 32-bit value is that value |
| Util.Read2ByteLe | console_player/util.c:23-29 | two available bytes give return code 0 and their little-endian value; fewer give -1 and leave the output unchanged |
| Util.Read4ByteLe | console_player/util.c:31-37 | four available bytes give return code 0 and their little-endian value; fewer give -1 and leave the output unchanged |
| Util.VarintEnd | console_player/util.c:44-55 | the value ends at the first byte without the 0x80 continuation bit, and there is none exactly when every byte carries it |
| Util.ReadVarint | console_player/util.c:44-55 | the result is the sum of the 7-bit groups up to the terminating byte, modulo 2^64, and the stream stops just past that byte; end of file first gives 0 |
| Util.GroupsSnoc | console_player/util.c:50-52 | one more byte adds its 7-bit group at the next shift |
| Util.EncodeVarintEnds | console_player/util.c:53 | the encoding's only byte without the continuation bit is its last |
| Util.GroupsOfEncode | console_player/util.c:50-52 | the groups of the encoding of `v` sum to `v` |
| Util.EncodeVarintLength | console_player/util.c:44-55 | a value below 2^(7k) takes at most k bytes |
| Util.VarintRoundTrip | v0.903/console_player/util.c:65-76 | reading the 7-bit encoding of any 64-bit value returns that value and consumes the whole encoding |
| Util.ByteSplit | console_player/util.c:63-71 | `high_byte * 256 + low_byte` is the low 16 bits of the value |
| Util.SplitWait | console_player/util.c:86-110 | no wait for 0, a pure spin up to 2 ms, and otherwise whole milliseconds of sleep plus a spin of 2 to 3 ms that add up to the request |
| ChipType.ChipName | v0.86/console_player/chiptype.c:8-23 | only `CHIP_TYPE_NONE` is shown as "NONE" |
| ChipType.NameRoundTrip | v0.86/console_player/chiptype.c:8-39 | `string_to_chip_type` of `chip_type_to_string(t)` is `t`, for every chip type |
| ChipType.NameRecognisedIffExact | v0.86/console_player/chiptype.c:26-39 | a string maps to a chip exactly when it is that chip's name character for character, and then the chip's name is the string |
| ChipType.LowerCaseNotRecognised | v0.86/console_player/chiptype.c:26-39 | the comparison is case-sensitive: "ym2151" is not recognised |
| ChipType.SlotForChip | v0.86/console_player/chiptype.c:41-48 | the slot of the first configuration entry of the asked type, or 0xFF when no entry has that type |
| Adpcm.Quantise | v0.83/console_player/adpcm.c:19-20 | the quantised magnitude `abs(d)*4/D`, saturated, lies in 0..7 |
| Adpcm.PredictMoves | v0.83/console_player/adpcm.c:22 | the new prediction rises exactly when the sign bit L4 is clear |
| Adpcm.Adapt | v0.83/console_player/adpcm.c:23-25 | the adapted step size always stays within [127, 0x5fff] |
| Adpcm.EncStep | v0.83/console_player/adpcm.c:17-25 | one encoder iteration yields a 4-bit code and keeps the step size clamped |
| Adpcm.EncStepCode | v0.83/console_player/adpcm.c:17-31 | the code's bit 3 is the sign of the difference to the prediction, bits 2..0 its quantised magnitude, and the prediction moves toward the sample |
| Adpcm.EncStateAt | v0.83/console_player/adpcm.c:12-25 | the encoder state after any number of samples keeps its step size in [127, 0x5fff] |
| Adpcm.Encode | v0.83/console_player/adpcm.c:7-35 | `pcm_len / 2` bytes; byte k holds the codes of samples 2k (high nibble) and 2k+1 (low nibble), each code that of the encoder loop |
| Adpcm.EncCodesAt | v0.83/console_player/adpcm.c:16-33 | code i of any prefix is the code of sample i, so later samples never change earlier codes |
| Adpcm.PackUnpacks | v0.83/console_player/adpcm.c:29 | the packed byte gives back both codes, high nibble first |
| Adpcm.StepTableBounds | v0.83/console_player/adpcm.c:37-41 | every `step_table` entry lies in 16..1552 |
| Adpcm.Delta | v0.83/console_player/adpcm.c:43-51 | `M` is positive for codes 0..7 and negative for codes 8..15 |
| Adpcm.DeltaSignSymmetric | v0.83/console_player/adpcm.c:43-51 | codes n and n+8 stand for opposite differences |
| Adpcm.DeltaMagnitudeIncreasing | v0.83/console_player/adpcm.c:46-50 | a larger magnitude code stands for a strictly larger difference at every step index |
| Adpcm.DecStep | v0.83/console_player/adpcm.c:62-67 | one decoder iteration moves the step index by `index_shift[nib & 7]`, clamped to [0, 48] |
| Adpcm.DecNibble | v0.83/console_player/adpcm.c:62 | even codes are the low nibble of their byte and odd codes the high nibble |
| Adpcm.DecStateAt | v0.83/console_player/adpcm.c:59-67 | the step index stays within [0, 48] after any number of codes |
| Adpcm.Saturate16 | v0.83/console_player/adpcm.c:68 | saturation keeps in-range values and the sign of every value |
| Adpcm.DecSampleSaturates | v0.83/console_player/adpcm.c:68 | the corrected sample has the accumulator's sign and is exactly `out << 4` whenever that fits in 16 bits |
| Adpcm.DecodeWrapsAsWritten | v0.83/console_player/adpcm.c:64-68 | on input 77 77 77 the accumulator reaches 2424 and the stored sample wraps to -26752, where saturation gives 32767 |
| Adpcm.Decode | v0.83/console_player/adpcm.c:53-71 | two samples per input byte, low nibble first, each the saturated `out << 4` of the accumulator after its code |
| OpmPitch.KeyToNote | v0.911/console_player/ay_to_opm.c:75-79 | KF is the 6-bit fraction, the octave is `floor(key/12)` capped at 7, the note is `KEY_TO_NOTE_OPM[floor(key) % 12]`, and the unused note codes 3, 7, 11 and 15 never occur |
| OpmPitch.FreqToNote | v0.911/console_player/ay_to_opm.c:66-80 | a frequency that is not positive gives KC = KF = 0, and KF always fits in 6 bits; the same routine with a -9.5 semitone offset is v0.915/console_player/ws_to_opm.c:44-60 |
| OpmPitch.KeyToNoteMonotone | v0.915/console_player/opn_to_opm.c:25-37 | below key 96 a higher key never gives a lower (KC, KF) pair |
| Ini.TrimRightSpec | v0.884/console_player/ini.h:124-130 | `rstrip` keeps a prefix, drops only whitespace, and what it keeps does not end in whitespace |
| Ini.Rstrip | v0.884/console_player/ini.h:124-130 | the scan back from the end yields exactly the trimmed string |
| Ini.SpaceRunSpec | v0.884/console_player/ini.h:133-138 | `lskip` stops at the first character that is not whitespace, or at the end |
| Ini.Lskip | v0.884/console_player/ini.h:133-138 | the forward scan returns exactly that index |
| Ini.CharOrCommentSpec | v0.884/console_player/ini.h:143-157 | `find_char_or_comment` stops at the first `c` or at the first ';' directly after whitespace, whichever comes first, else at the end |
| Ini.FindCharOrComment | v0.884/console_player/ini.h:143-157 | the loop tracking the previous character's whitespace returns that index |
| Ini.Strncpy0 | v0.884/console_player/ini.h:160-165 | at most `size - 1` characters are copied, they are a prefix of the source, and a shorter source is copied whole |
| Ini.CStrSpec | v0.884/console_player/ini.h:160-165 | a buffer's C string is the part before its first NUL |
| Ini.ChunkLenSpec | v0.884/console_player/ini.h:171-183 | `fgets` into the 200-byte buffer returns through the first newline, at most 199 characters, or the rest of the file |
| Ini.Unquote | v0.884/console_player/ini.h:239-242 | a value wrapped in double quotes loses exactly the outer pair; any other value is kept |
| Ini.Handle | v0.884/console_player/ini.h:203-247 | every handler call is recorded, and a rejection sets the error line only when no error was recorded before |
| Ini.NameValue | v0.884/console_player/ini.h:220-252 | a `name=value` line makes at most one handler call, carrying this line number, and a new error is this line's |
| Ini.SectionHeader | v0.884/console_player/ini.h:207-219 | a `[section]` line makes no handler call, and a new error is this line's |
| Ini.Step | v0.884/console_player/ini.h:183-258 | one line makes at most one handler call, carrying its line number, and a new error is that line's |
| Ini.CommentLineIgnored | v0.884/console_player/ini.h:196-198 | a line starting with ';' or '#' after trimming changes nothing |
| Ini.SectionLine | v0.884/console_player/ini.h:207-219 | a section line sets the section to at most 49 characters and forgets the previous name; a '[' without ']' records its line as the error |
| Ini.ContinuationLine | v0.884/console_player/ini.h:200-205 | an indented line after a name passes the previous name and the line to the handler |
| Ini.ParseStopsAtFirstError | v0.884/console_player/ini.h:255-258 | the parse never loses calls, and once it reports an error no later line reaches the handler |
| Ini.ParseErrorNotBefore | v0.884/console_player/ini.h:255-261 | a reported error is never a line before the one parsing started from |
| Ini.ParseErrorIsLast | v0.884/console_player/ini.h:255-261 | every handler call comes from a line no later than the reported error line |
| Ini.TrimLine | v0.884/console_player/ini.h:186-194 | the line start after skipping the byte-order mark on line 1, `rstrip` and `lskip`, and whether leading characters were skipped |
| Ini.ParseSection | v0.884/console_player/ini.h:207-219 | the section branch of the loop body, as `SectionHeader` states it |
| Ini.FindSeparator | v0.884/console_player/ini.h:222-225 | the split point is the first '=', or failing that the first ':' |
| Ini.ParseValue | v0.884/console_player/ini.h:229-242 | the value is cut at a comment ';', trimmed on both sides, and unquoted |
| Ini.ParseNameValue | v0.884/console_player/ini.h:220-252 | the name/value branch of the loop body, as `NameValue` states it |
| Ini.ParseLine | v0.884/console_player/ini.h:184-258 | one iteration of the read loop, as `Step` states it |
| Ini.ParseFile | v0.884/console_player/ini.h:168-262 | 0 when every line is accepted, else the first failing line, with every handler call made from a line no later than it |
| Ini.Parse | v0.884/console_player/ini.h:265-276 | -1 when the file cannot be opened, otherwise the result of `ini_parse_file` |
| S98.ParseHeader | v0.83/console_player/s98.c:42-56 | the header parses exactly when the buffer holds at least 0x20 bytes and starts with "S98" |
| S98.HeaderRoundTrip | v0.83/console_player/s98.c:46-52 | every header written out as version byte and six little-endian words at offsets 4..24 parses back to itself |
| S98.TimerModeOf | v0.83/console_player/s98.c:63-68 | PAL exactly when `timer_info` is nonzero and `timer_info2` is 198, NTSC otherwise |
| S98.SyncWaitUs | v0.83/console_player/s98.c:81 | a sync unit is 20000 µs under PAL and 10000 µs under NTSC |
| S98.ValLen | v0.83/console_player/s98.c:172-184 | `s98_get_val` consumes at least one byte when any is left, never more than five and never past the end |
| S98.GetValRoundTrip | v0.83/console_player/s98.c:168-185 | the 7-bit group encoding of any 32-bit value is read back as that value, consuming exactly the encoding |
| S98.SyncSamples | v0.83/console_player/s98.c:133-135 | a 0xFF sync of `val` waits `(val+1)·sync_wait·44100/1000000` samples, cut to 32 bits |
| S98.MillisSamples | v0.83/console_player/s98.c:139-142 | a 0xFE sync of `val` milliseconds waits `val·1000·44100/1000000` samples, cut to 32 bits |
| S98.Player.ParseHeaderInto | v0.83/console_player/s98.c:42-56 | on success the header fields are those `ParseHeader` reads and `pos` is the dump offset; on failure nothing changes |
| S98.Player.GetVal | v0.83/console_player/s98.c:168-185 | the value is the 7-bit groups of the bytes consumed, and `pos` advances by exactly `ValLen` |
| S98.PassAt | v0.83/console_player/s98.c:92-161 | one pass of the dispatch moves the cursor forward except for a jump to a nonzero loop offset, ends playback exactly on 0xFC, writes chips only on port 0, and starts with a flush exactly for a sync (0xFE or 0xFF) |
| S98.RunCalls | v0.83/console_player/s98.c:87-161 | the calls of the loop's passes from a position, for at most a given number of passes while playing and inside the buffer: every register write goes to port 0 |
| S98.SyncFollowsTimer | v0.83/console_player/s98.c:63-68 | the timer the header selects sets the sync length: a dump opening with `0xFF 0x00` flushes and waits 882 samples under PAL, 441 under NTSC |
| S98.Player.Step | v0.83/console_player/s98.c:92-161 | the pass `PassAt` describes: its calls appended, the cursor at its next position, playing cleared by 0xFC; each opcode consumes its operands and makes its SPFM calls: chip writes on port 0 to the chip's slot, skipped opcodes 0x12..0x1F and 0x80..0xFB, the loop jump only to a nonzero loop offset, the end flag for 0xFC, and a flush plus a sync wait for 0xFE/0xFF (none for a 0xFE of 0) |
| S98.Player.PlayLoop | v0.83/console_player/s98.c:87-165 | the loop appends exactly the calls `RunCalls` gives from the current position and playing flag, then a flush, and stops playback; every register write goes to port 0 |
| S98.Play | v0.83/console_player/s98.c:58-70 | a header that does not parse is refused with no call; otherwise the calls are `RunCalls` from the dump offset under the timer `TimerModeOf` selects, then a flush, and every register write goes to port 0 |
| Spfm.Frame | v0.83/console_player/spfm.c:335-345 | a register write is a 4-byte frame on SPFM_Light and a 3-byte frame on SPFM |
| Spfm.FrameRoundTrip | v0.83/console_player/spfm.c:335-345 | a frame delivers address and data unchanged, and slot and port cut to one and three bits on SPFM_Light, three and two bits on SPFM |
| Spfm.DataFrame | v0.83/console_player/spfm.c:380-384 | a data write on SPFM_Light is the slot bit, command 0x20 and the data byte |
| Spfm.NextChunk | v0.83/console_player/spfm.c:75-78 | each chunk is the next 4096 buffered bytes, or all that remain when fewer |
| Spfm.FlushChunkSizes | v0.83/console_player/spfm.c:74-95 | every chunk `spfm_flush` hands to `FT_Write` holds 1 to 4096 bytes |
| Spfm.Flush | v0.83/console_player/spfm.c:64-99 | with a handle the buffer is left empty and the events sent only extend the earlier ones; without one nothing changes |
| Spfm.FlushSendsInOrder | v0.83/console_player/spfm.c:74-98 | the chunks sent concatenate to a prefix of the buffer, and to all of it when the flush succeeds |
| Spfm.FlushStopsAtFailure | v0.83/console_player/spfm.c:82-92 | a failed flush ends with the chunk the device refused or wrote short |
| Spfm.FlushSucceedsOnHealthyDevice | v0.83/console_player/spfm.c:74-98 | a device that accepts every chunk in full makes every flush succeed |
| Spfm.WaitUs | v0.83/console_player/spfm.c:48 | the software wait is `samples·1000000/44100` microseconds, exact while it fits in 32 bits |
| Spfm.ClosedWaitsOverrun | v0.83/console_player/spfm.c:38-72 | as written, with the handle closed but the type still SPFM_Light, 7282 waits of 9 samples put more than 65536 bytes into the buffer |
| Spfm.ClosedWaitsGrow | v0.83/console_player/spfm.c:38-44 | as written, each closed-handle wait appends its 0x80 bytes with nothing flushed |
| Spfm.RunAppend | v0.83/console_player/spfm.c:361-371 | running two lists of steps one after the other is running their concatenation |
| Spfm.PushFits | v0.83/console_player/spfm.c:350-355 | appending at most 64 KiB with the handle open keeps the buffer within 64 KiB |
| Spfm.ApplyFits | v0.83/console_player/spfm.c:350-369 | with the room check before each append, every register write, data write, flush and wait run keeps the buffer within 64 KiB |
| Spfm.WaitAndWriteFits | v0.83/console_player/spfm.c:30-61 | the corrected `spfm_wait_and_write_reg` keeps the buffer within 64 KiB whatever the handle state |
| Spfm.WriteDataFits | v0.83/console_player/spfm.c:374-401 | `spfm_write_data` keeps the buffer within 64 KiB |
| Spfm.WaitOnlyAppendsNoFrame | v0.83/console_player/spfm.c:35-59 | a wait-only call appends no register frame: a zero wait changes nothing, and a short wait on SPFM_Light appends only 0x80 bytes |
| Spfm.RamSetup | v0.83/console_player/spfm.c:408-433 | the upload starts with nine setup writes carrying start, stop and the capped limit, each divided by 4 |
| Spfm.RamLimitExact | v0.83/console_player/spfm.c:411-433 | the limit registers carry the whole capped limit, which is below 0x10000 after the division |
| Spfm.RamDataInOrder | v0.83/console_player/spfm.c:437-442 | the upload writes every data byte in order to register 8 and flushes once per 256 bytes |
| Spfm.Interface.State | v0.83/console_player/spfm.c:24-25 | the buffered bytes never exceed 64 KiB |
| Spfm.Interface.FlushBuffer | v0.83/console_player/spfm.c:64-99 | `spfm_flush` sends the chunks `FlushFrom` gives and empties the buffer whether or not it succeeds; it does nothing without a handle or with an empty buffer |
| Spfm.Interface.SendBuffer | v0.83/console_player/spfm.c:74-95 | the write loop sends the chunks in order until one fails or is written short |
| Spfm.Interface.Append | v0.83/console_player/spfm.c:350-355 | bytes that would not fit are preceded by a flush, then copied after the buffered ones |
| Spfm.Interface.WriteRegister | v0.83/console_player/spfm.c:329-356 | `spfm_write_reg` appends the frame of the device type, flushing first when it would not fit, and does nothing without a handle or an identified device |
| Spfm.Interface.WriteDataByte | v0.83/console_player/spfm.c:374-401 | a data frame on SPFM_Light, a register write to address 0 on SPFM, nothing otherwise |
| Spfm.Interface.WaitAndWriteRegister | v0.83/console_player/spfm.c:30-61 | corrected as in the Findings row: the wait (0x80 bytes for a short wait on SPFM_Light while the handle is open, else a flush and a sleep) and then the register write unless port, address and data are all zero |
| Spfm.Interface.WriteRegisters | v0.83/console_player/spfm.c:358-372 | `spfm_write_regs` writes each register followed by `write_wait` hardware waits, and does nothing without a handle |
| Spfm.Interface.WriteYm2608Ram | v0.83/console_player/spfm.c:407-448 | the RAM upload makes the setup writes, the data writes with their flushes, the closing writes and a final flush, and does nothing without a handle |
| Spfm.Interface.RunOps | v0.83/console_player/spfm.c:423-447 | a fixed run of writes and flushes has the effect of `Run` over those steps |
| Spfm.Interface.WriteRamData | v0.83/console_player/spfm.c:437-442 | the data loop has the effect of `Run` over `RamData` |
| V0903VgmHeader.ReadRelOfs | v0.903/console_player/vgm.c:81-84 | a zero field means absent and reads as 0 |
| V0903VgmHeader.WriteLe32 | v0.903/console_player/vgm.c:87-92 | `write_le32` replaces exactly the four bytes at the offset with the value's little-endian bytes and leaves every other byte alone |
| V0903VgmHeader.WriteThenReadLe32 | v0.903/console_player/vgm.c:87-92 | `write_le32` followed by `read_le32` at the same place gives the value written |
| V0903VgmHeader.RelOfsRoundTrip | v0.903/console_player/vgm.c:81-84 | a relative field written as `target - base` reads back as `target`, and a zero field as absent |
| V0903VgmHeader.ReadLen | v0.903/console_player/vgm.c:128-133 | the header read length is between 0x40 and 0xE4 bytes |
| V0903VgmHeader.HdrBuf | v0.903/console_player/vgm.c:112-139 | the header buffer holds the file's first bytes as far as they were read, and its earlier contents beyond |
| V0903VgmHeader.DataOffsetOf | v0.903/console_player/vgm.c:146-151 | the data offset is never 0, and it is 0x40 before version 1.50 or when the field is 0 |
| V0903VgmHeader.HeaderOf | v0.903/console_player/vgm.c:111-167 | as written: parsing fails exactly on a file shorter than 0x40 bytes or without "Vgm "; version and EOF offset are read; `rate` stays 0 before 1.01, the YM2612/YM2151 clocks before 1.10, and the YM2203/YM2608/AY8910 clocks before 1.51 |
| V0903VgmHeader.HeaderIgnoresStale | v0.903/console_player/vgm.c:128-167 | every field a version reads lies within that version's read length, so a file long enough gives the same header whatever the buffer held before |
| V0903VgmHeader.StaleBytesReachHeader | v0.903/console_player/vgm.c:112-164 | as written, a 0x40-byte file claiming version 1.51 gets its YM2203 clock from whatever the buffer held before |
| V0903VgmHeader.ParsedHeader | v0.903/console_player/vgm.c:111-167 | corrected: the buffer cleared first; parsing succeeds exactly when the file has 0x40 bytes and the magic |
| V0903VgmHeader.ParsedHeaderIsPadded | v0.903/console_player/vgm.c:111-167 | with the buffer cleared, a short file parses as the same file padded with zeros, whatever the buffer held |
| V0903VgmHeader.Gd3FromBounds | v0.903/console_player/vgm.c:99-104 | the loop collects at most the room given, never a 0 character, and moves the stream two bytes per character |
| V0903VgmHeader.Gd3StringBounds | v0.903/console_player/vgm.c:96-109 | a string holds fewer than `max_len` characters, none of them 0, and every call moves the stream forward by at least 2 bytes |
| V0903VgmHeader.Gd3StringRoundTrip | v0.903/console_player/vgm.c:96-109 | a zero-terminated UTF-16LE string shorter than the limit and wholly inside the block reads back as itself, the stream left past its terminator |
| V0903VgmHeader.ReadGd3String | v0.903/console_player/vgm.c:96-109 | `read_gd3_string` returns the characters and stream position `Gd3String` gives |
| V0903VgmHeader.NoTags | v0.903/console_player/vgm.c:113 | a cleared header has eleven empty GD3 strings |
| V0903VgmHeader.ReadGd3Strings | v0.903/console_player/vgm.c:178-188 | the eleven strings are read one after the other from the stream position, each with room for 255 characters |
| V0903VgmHeader.ReadGd3Prefix | v0.903/console_player/vgm.c:171-177 | the block is signed exactly when "Gd3 " is at the offset, and then the stream is at the first string and the end is where the length field says |
| V0903VgmHeader.ReadGd3Block | v0.903/console_player/vgm.c:169-191 | the GD3 strings are those of the block the header names, all empty when it is missing or unsigned |
| V0903VgmHeader.ReadHeaderBuffer | v0.903/console_player/vgm.c:115-139 | the reads succeed exactly when the file has 0x40 bytes and the magic, and then the buffer holds the first `ReadLen(version)` bytes of the file |
| V0903VgmHeader.ParseHeader | v0.903/console_player/vgm.c:111-195 | `vgm_parse_header` gives the corrected header and the GD3 strings and leaves the stream at the data offset; on failure the header is all zero |
| V0903VgmHeader.PrimaryChip | v0.903/console_player/vgm.c:696-705 | the result is `CHIP_TYPE_NONE` exactly when none of the seven clocks is set |
| V0903VgmHeader.ClockOf | v0.903/console_player/vgm.c:707-718 | chips other than the seven listed have clock 0 |
| V0903VgmHeader.PrimaryChipHasClock | v0.903/console_player/vgm.c:696-718 | the primary chip has a nonzero clock, and no chip earlier in the order has one |
| V0903VgmCache.Need | v0.903/console_player/vgm.c:555-686 | no command needs more than six bytes after its opcode before the builder acts on it (the data-block header) |
| V0903VgmCache.ConvertStep | v0.903/console_player/vgm.c:551-688 | a command the builder does not stop at moves the position forward and stays inside the data, so the walk ends |
| V0903VgmCache.ConvertCommand | v0.903/console_player/vgm.c:551-688 | the `switch` body emits, for each opcode, the transcoder call, the copied bytes, the envelope steps and waits or nothing, stops when the operands run past the data, and resumes where `ConvertStep` says |
| V0903VgmCache.Convert | v0.903/console_player/vgm.c:544-691 | the builder's loop emits the loop mark, every command's pieces in order and the final 0x66, exactly as `ConvertFrom` describes from position 0 with no mark yet |
| V0903VgmCache.ConvertEndsWithEnd | v0.903/console_player/vgm.c:544-691 | whether the walk reaches the end of the data or stops at a command lacking its bytes, the cache stream ends with 0x66 |
| V0903VgmCache.StepHasNoMark | v0.903/console_player/vgm.c:551-688 | no single command records the loop point |
| V0903VgmCache.LoopMarkedAtMostOnce | v0.903/console_player/vgm.c:546-549 | the loop point is recorded at most once, and never when the source has no loop offset or it is already recorded |
| V0903VgmCache.SourceOpmWritesDropped | v0.903/console_player/vgm.c:606-616 | while a conversion is active no YM2151 write of the source reaches the cache |
| V0903VgmCache.PassthroughVerbatim | v0.903/console_player/vgm.c:556-633 | every copied command (the one- and two-operand passthrough sets, 0x54 with no conversion active, 0x62/0x63/0x66, and a convertible write whose conversion is off) reaches the cache byte for byte and the walk resumes just after it |
| V0903VgmCache.StepKeepsSamples | v0.903/console_player/vgm.c:636-686 | the pieces of one command wait exactly as many samples as the command did: 0x61 keeps its count, 0x62/0x63 a frame, 0x7n n+1, and a PCM write 0x8n becomes the short wait 0x7(n-1) |
| V0903VgmCache.ConvertKeepsSamples | v0.903/console_player/vgm.c:544-691 | the cache stream waits in total exactly as long as the source commands the builder walks over |
| V0903VgmCache.DataSizeAsWritten | v0.903/console_player/vgm.c:348-349 | the data size handed to the builder is the header's claimed end less the data offset, with no check against the file |
| V0903VgmCache.DataSizeOverrunsFile | v0.903/console_player/vgm.c:348-350 | a 0x80-byte file whose header claims 0x1000 bytes makes the builder read 0xFC0 bytes from offset 0x40, past the end of the buffer |
| V0903VgmCache.SongData | v0.903/console_player/vgm.c:348-349 | the intended song data lies inside the file and is the file's bytes from the data offset on |
| V0903VgmCache.SongDataAgreesOnWholeFiles | v0.903/console_player/vgm.c:348-349 | on a file at least as long as its header claims, the intended data is exactly the slice the code hands over |
| V0903VgmCache.Gd3LengthFieldAsWritten | v0.903/console_player/vgm.c:353-357 | the GD3 length is read eight bytes into the block the 0x14 field points at, and only when that field is nonzero |
| V0903VgmCache.Gd3LengthOutsideFile | v0.903/console_player/vgm.c:353-361 | a 0x80-byte file whose GD3 field is 0x1000 makes the copy read its length at 0x101C, past the end of the file |
| V0903VgmCache.Gd3Block | v0.903/console_player/vgm.c:353-362 | the intended GD3 copy is the 12-byte block header plus the declared strings, taken from the file only when all of it lies inside |
| V0903VgmCache.CacheWords | v0.903/console_player/vgm.c:365-379 | the cache header is 0x40 little-endian words |
| V0903VgmCache.CacheHeader | v0.903/console_player/vgm.c:365-385 | the header written over the placeholder is 0x100 bytes |
| V0903VgmCache.CacheHeaderTailZero | v0.903/console_player/vgm.c:366 | the cleared buffer stays zero from offset 0x38 on |
| V0903VgmCache.CacheWordsValues | v0.903/console_player/vgm.c:366-381 | the header's words hold the magic, the size after the eof field, the source's version, samples and rate, the converted loop point (both loop fields zero when the song does not loop or plays once), the YM2151's clock and, from version 1.50, the data offset 0x100, each where the parser reads it |
| V0903VgmCache.FieldsOfCacheHeader | v0.903/console_player/vgm.c:365-381 | the finished header's fields, read back, are the source's version, samples and rate with the converted loop point and the YM2151 as the only clocked chip |
| V0903VgmCache.CacheHeaderParses | v0.903/console_player/vgm.c:365-402 | reopening the cache and parsing its header gives exactly those fields, and its GD3 field points where the block was copied |
| V0903VgmCache.CacheGd3Field | v0.903/console_player/vgm.c:369 | the GD3 field of the cache header reads back as the block's position in the cache, or as absent when nothing was copied |
| V0903VgmCache.CacheIsOpmSong | v0.903/console_player/vgm.c:365-406 | a cache of version 1.10 or later with a nonzero YM2151 clock is played as a YM2151 song |
| V0903VgmCommand.Operands | v0.903/console_player/vgm.c:208-240 | no command of the set reads more than two operand bytes |
| V0903VgmCommand.Player.ProcessCommand | v0.903/console_player/vgm.c:197-255 | one call reads the opcode and its operands, makes the command's calls (with the flush of flush mode 2), returns its wait and leaves the stream, the loop counter and `g_is_playing` as `Command` says; a missing opcode stops playback with no wait |
| V0903VgmCommand.Player.Dispatch | v0.903/console_player/vgm.c:207-251 | the `switch` reads exactly the opcode's operands; a short read clears `g_is_playing` and leaves the counter alone, a full one acts as `Act` says |
| V0903VgmCommand.CommandDecodes | v0.903/console_player/vgm.c:207-254 | every encoded command other than the end of data is read back in full: the stream moves exactly past its bytes, playback goes on, the wait is the command's sample count, and a write makes exactly one chip call before the flush |
| V0903VgmCommand.EndOfDataLoops | v0.903/console_player/vgm.c:242-247 | 0x66 jumps to the loop offset and counts one more loop exactly when there is a loop point and the loop count is not reached (or is 0, for endless), and stops playback otherwise |
| V0903VgmCommand.LoopsFrom | v0.903/console_player/vgm.c:242-247 | from loop counter `c`, the end of data jumps back exactly `loopCount - c` times before it stops |
| V0903VgmCommand.SongPlaysLoopCountTimes | v0.903/console_player/vgm.c:242-247 | with a loop point and a loop count `n > 0`, the song plays exactly `n` times from the initial counter 1 |
| V0903VgmCommand.NoLoopStops | v0.903/console_player/vgm.c:242-247 | with no loop point, or with the count reached, the end of data stops playback at once |
| V0903VgmCommand.TruncatedCommandStops | v0.903/console_player/vgm.c:209-238 | a command whose operands run past the end of the stream stops playback with no wait and no call, not even the flush |
| V0903VgmCommand.WriteRouting | v0.903/console_player/vgm.c:218-236 | YM2151 writes always reach the chip; an OPN write goes to the transcoder exactly when OPN conversion is on and the song's chip is the one the opcode addresses, with port 1 for 0x53 and 0x57 |
| CText.LastIndex | v0.911/console_player/play.c:288-289 | `strrchr` finds a position holding the character with none of it after, and finds nothing exactly when the character does not occur |
| CText.LastIndexAt | v0.911/console_player/play.c:302-305 | an occurrence with none of the character after it is the one `strrchr` finds |
| CText.LowerAll | v0.911/console_player/play.c:290-291 | lowering keeps the length and lowers each character in place |
| CText.CaseCompare | v0.911/console_player/play.c:290-291 | the `strcasecmp` sign is -1, 0 or 1 |
| CText.CaseCompareZeroIff | v0.911/console_player/play.c:290-291 | `strcasecmp` gives 0 exactly when the two strings agree once lowered |
| CText.CaseCompareAntisymmetric | v0.915/console_player/browser.c:55-62 | swapping the arguments of `strcasecmp` flips the sign |
| CText.CaseCompareTransitive | v0.915/console_player/browser.c:55-62 | the order `strcasecmp` induces is transitive |
| Play.FileTypeOfExtension | v0.911/console_player/play.c:288-294 | the four characters from the last '.' decide the type, whatever the stem holds: ".vgm" and ".s98" in any capitalisation, anything else unknown |
| Play.ExtensionTypeLowered | v0.911/console_player/play.c:290-292 | an extension is VGM exactly when it lowers to ".vgm" and S98 exactly when it lowers to ".s98" |
| Play.NoDotUnknown | v0.911/console_player/play.c:289 | a name without a '.' has an unknown type |
| Play.BaseName | v0.911/console_player/play.c:302-305 | the base name is a suffix of the name holding no '/', and no '\\' either when the name has no '/' |
| Play.BaseNameOfJoin | v0.84/console_player/play.c:29-33 | a file joined to a directory by '/' (or by '\\' in a directory without '/') has the file's own name as base name |
| Play.Truncated | v0.911/console_player/play.c:308 | `snprintf` keeps a prefix shorter than the buffer, and the whole text when it fits |
| Play.CacheNameOfJoin | v0.911/console_player/play.c:302-308 | the cache file is "console_player/cache/" + base name + ".opm.vgm", whatever directory the song is in |
| Play.RunLen | v0.86/console_player/play.c:166-170 | the run of 0x01 bytes counted is all 0x01 and stops at the first other byte |
| Play.ScanBound | v0.911/console_player/play.c:324-340 | the scan counts at most one sync per byte, so its 32-bit total cannot wrap |
| Play.EndMarkerSkipped | v0.911/console_player/play.c:336-339 | 0xFF is caught by the `op >= 0x80` branch and skips two bytes, so the end branch is never taken |
| Play.RunCounterWraps | v0.911/console_player/play.c:331-335 | a run of 256 0x01 bytes is 256 syncs, but the `uint8_t` run counter of the code as written counts none |
| Play.ScanS98 | v0.86/console_player/play.c:159-177 | the scan loop's total is the number of syncs from the dump offset, each 0x01 run counted in full |
| Play.DisplayTotalCounts | v0.911/console_player/play.c:214-218 | the total shown is the song alone with one loop or none, and otherwise the song plus the loop part once per extra loop while that fits 32 bits |
| Play.ClockSplits | v0.911/console_player/play.c:219-220 | the seconds shown are below 60 and minutes and seconds together are the whole seconds at 44100 Hz |
| Play.TotalSecondsBounds | v0.83/console_player/play.c:18 | a positive total shows its whole seconds at 44100 Hz, anything else 0 |
| Play.SongTotal.Update | v0.84/console_player/play.c:24-27 | a positive total replaces the remembered one, and the seconds shown are those of the remembered total |
| Play.LastPositive | v0.84/console_player/play.c:24-27 | the remembered total after several calls is the initial one or one of those passed, and positive once any positive total was passed |
| Play.TimerModeNamesDistinct | v0.911/console_player/play.c:84-94 | exactly the timer modes 0, 1, 2, 3 and 7 have a name, all different |
| Play.TimerModeNamesV084Distinct | v0.84/console_player/play.c:59-68 | in v0.84 exactly the timer modes 0 to 6 have a name, all different |
| Play.PlayFileFails | v0.911/console_player/play.c:360-385 | a file that does not open or has an unknown type is never played; v0.911 reports success for every VGM file that opens, and for every file the earlier versions report played |
| Browser.Compare | v0.915/console_player/browser.c:55-62 | a directory sorts before a file and a file after a directory |
| Browser.CompareIsOrder | v0.915/console_player/browser.c:55-62 | `compare_entries` is antisymmetric in sign and transitive, a total preorder `qsort` can use |
| Browser.CompareZeroIff | v0.915/console_player/browser.c:55-62 | two entries compare equal exactly when they are of the same kind and their names agree without case |
| Browser.Kept | v0.915/console_player/browser.c:101-136 | at most the room left is kept, and every kept entry is from the listing and is listed (not ".", and a directory or a .vgm/.vgz/.s98 file) |
| Browser.KeptAll | v0.915/console_player/browser.c:101-136 | while the listing fits the 512 entries, every listed entry is kept |
| Browser.ReadEntries | v0.915/console_player/browser.c:101-136 | the read loop keeps exactly the listed entries, in listing order, and stops reading at 512 |
| Browser.KeptStep | v0.915/console_player/browser.c:101-135 | one entry read: kept when listed, with one less room left, skipped otherwise |
| Browser.Slashed | v0.915/console_player/browser.c:40-44 | every '\\' becomes '/' and every other character stays |
| Browser.Normalize | v0.915/console_player/browser.c:39-53 | the normalised path has no '\\', and is the slashed path less one trailing '/' exactly when it is longer than one character and not a drive root such as "C:/" |
| Browser.NormalizeIdempotent | v0.915/console_player/browser.c:39-53 | a path with no '\\' and no trailing '/' (or that is "/" or a drive root) is left alone |
| Browser.Truncated | v0.915/console_player/browser.c:238-243 | what a `MAX_PATH_LEN` buffer keeps is a prefix shorter than the buffer, and the whole path when it fits |
| Browser.GoUpUndoesGoDown | v0.915/console_player/browser.c:218-245 | entering a directory and then ".." returns to the normalised directory the browser was in, from "." too |
| Browser.GoUpOfJoin | v0.915/console_player/browser.c:220-230 | ".." from `path/name` is cut at the last '/' back to `path` |
| Browser.JoinIsNormal | v0.915/console_player/browser.c:237-245 | a plain name appended to a normalised path gives a normalised path whose last '/' is the one just added |
| Browser.GoUpNormal | v0.915/console_player/browser.c:220-234 | going up never yields a path with a '\\' |
| Browser.EnterPath | v0.915/console_player/browser.c:215-245 | every directory Enter moves to is normalised (no '\\') |
| Browser.TotalPages | v0.915/console_player/browser.c:143-144 | the pages hold every entry and the last page is not empty, so the count is ceil(count / 10); an empty list still has one page |
| Browser.Wrap | v0.915/console_player/browser.c:191-195 | the stepped selection is inside the list, and is just the next or previous entry away from the ends |
| Browser.WrapEnds | v0.915/console_player/browser.c:191-195 | Up on the first entry selects the last, Down on the last selects the first |
| Browser.PageOfEntry | v0.915/console_player/browser.c:143-145 | the page holding any entry exists |
| Browser.Nav.constructor | v0.915/console_player/browser.c:30-36 | the browser starts in "." with nothing selected on page 0, outside the drive list |
| Browser.Nav.Up | v0.915/console_player/browser.c:190-193 | key 72 selects the previous entry, wrapping to the last, shows its page, and keeps the selection and page consistent |
| Browser.Nav.Down | v0.915/console_player/browser.c:194-197 | key 80 selects the next entry, wrapping to the first, and shows its page |
| Browser.Nav.Left | v0.915/console_player/browser.c:198-203 | key 75 moves to the previous page and selects its first entry, and does nothing on the first page |
| Browser.Nav.Right | v0.915/console_player/browser.c:204-212 | key 77 moves to the next page and selects its first entry, and does nothing on the last page |
| Browser.Nav.Enter | v0.915/console_player/browser.c:213-256 | Enter does nothing on an empty list, returns the normalised path of a chosen file, and on a directory moves to its path, normalised once more by the reread (line 67), and rereads the list with the first entry selected |
| Browser.Nav.Backspace | v0.915/console_player/browser.c:257-276 | Backspace is ignored in the drive list, and otherwise moves up one directory, normalised once more by the reread (line 67), and rereads the list with the first entry selected |
| V0915VgmParser.CmdLenClasses | v0.915/vgm_parser.c:13-78 | the length table gives three bytes to the 16-bit wait and to every register-and-value write, one to the frame waits, the end, the data block opcode, the short waits and the YM2612 PCM writes, two to the one-operand writes, four to 0xC0..0xDF and five to 0xE0..0xEF |
| V0915VgmParser.TableAgreesWithPlayer | v0.915/vgm_parser.c:13-78 | for every opcode the v0.903 player interprets, the table's length is one more than the operands the player reads |
| V0915VgmParser.TableAgainstCacheBuilder | v0.915/vgm_parser.c:13-78 | the table and the v0.903 cache builder skip the same operands for the writes the builder copies or converts, and different counts for 0x80..0x8F, 0x90, 0x91, 0x95, 0xC3..0xC8, 0xD0..0xD6 and 0xE1 |
| V0915VgmParser.DataStart | v0.915/vgm_parser.c:142-149 | the data start is 0x40 before version 1.50 or when the field at 0x34 is 0, and otherwise 0x34 plus the field, wrapped to 32 bits |
| V0915VgmParser.DataStartAgreesWithPlayer | v0.915/vgm_parser.c:142-149 | the lister and the v0.903 header reader find the same data start for every header, except when the field is 2^32 - 0x34: the lister's sum then wraps to 0, and the reader falls back to 0x40 |
| V0915VgmParser.Wait | v0.915/vgm_parser.c:186-213 | a command waits less than 65536 samples, and only the 16-bit wait, the two frame waits and the short waits wait at all |
| V0915VgmParser.StepAt | v0.915/vgm_parser.c:168-235 | one pass shows a line only inside the window, and the line is marked incomplete exactly when the pass ends on a cut-off command. A pass that goes on moves the stream forward and leaves the total short of the end. A pass adds less than 65536 samples, and only the wait check can end the walk with a changed total |
| V0915VgmParser.WalkFrom | v0.915/vgm_parser.c:159-236 | every line shown lies inside the window, and the total only grows. A walk stopped by the end time has reached it; a walk with an end that stops otherwise stays below it. A walk that starts below its end overshoots it by less than 65536 samples |
| V0915VgmParser.OffsetsLocateOpcodes | v0.915/vgm_parser.c:159-230 | the offset every line shows is the position of its own opcode in the file, through data blocks included |
| V0915VgmParser.WalkSong | v0.915/vgm_parser.c:186-230 | a song body followed by 0x66, listed with no window, gives one line per command plus one for the end. The walk stops at the end command with exactly the body's samples added, counting 735 for 0x62 and 882 for 0x63 |
| V0915VgmParser.WalkCountsSamples | v0.915/vgm_parser.c:186-230 | the same holds wherever the body sits in a file, whatever precedes and follows it |
| V0915VgmParser.SkipBlock | v0.915/vgm_parser.c:194-202 | a data block skips the compatibility byte and the type, reads the 32-bit size, and moves the stream past the block's contents |
| V0915VgmParser.Pass | v0.915/vgm_parser.c:168-235 | one pass of the loop reports the end of the file exactly when no opcode is left; otherwise it does what StepAt describes, and a pass that goes on leaves the stream at the next command |
| V0915VgmParser.Walk | v0.915/vgm_parser.c:159-236 | the loop's lines, total and way of stopping are those of WalkFrom from the data start |
| V0915VgmParser.ListFile | v0.915/vgm_parser.c:134-159 | a file shorter than the 0x40 header bytes fails. Any other file yields its version, the data start, and the walk from that start |
| V0903VgmParser.DataStartAgreesWithLister915 | v0.903/vgm_parser.c:24-31 | the data start, 0x40 before version 1.50 or for a zero field and 0x34 plus the field otherwise, is the one the v0.915 lister computes |
| V0903VgmParser.Operands | v0.903/vgm_parser.c:58-181 | both tables skip two operand bytes after the 16-bit wait, and the corrected table skips the VGM format's operand count for every opcode |
| V0903VgmParser.SkippedAgainstFormat | v0.903/vgm_parser.c:58-181 | the switch skips the format's operand count for the writes it prints, the waits, the end, 0x30, 0x4F and 0xE0. It skips a different count for 0x40..0x4E, 0x50..0x53, 0xB0..0xBF, 0xC0..0xC8 and 0xD0..0xD4 |
| V0903VgmParser.Getc | v0.903/vgm_parser.c:60-61 | operand bytes read with `fgetc` are the file's bytes, and 0xFF for every read past its end |
| V0903VgmParser.Wait | v0.903/vgm_parser.c:86-129 | a command adds less than 65536 samples, and only 0x61, 0x62, 0x63 and 0x70..0x7F add any |
| V0903VgmParser.StepAt | v0.903/vgm_parser.c:49-182 | a pass past the end time stops before its command. A pass moves the stream forward and adds less than 65536 samples; one that ends the walk adds none. Its line, if any, carries the current total, no later than the window's end, and no earlier than its start unless it is the end command |
| V0903VgmParser.WalkFrom | v0.903/vgm_parser.c:48-183 | every line lies at or before the window's end, and at or after its start except the end command's. The total only grows, and a walk stopped by the end time has passed it |
| V0903VgmParser.EndStep | v0.903/vgm_parser.c:102-107 | within the window's end, 0x66 ends the walk without adding samples |
| V0903VgmParser.WalkSong | v0.903/vgm_parser.c:86-129 | with the corrected operand counts, a song body closed by 0x66 that ends within the window is walked to its end command, with exactly the body's samples added (735 for 0x62, 882 for 0x63) |
| V0903VgmParser.SameStep | v0.903/vgm_parser.c:58-181 | at an opcode whose operand counts agree, the as-written and the corrected pass are the same |
| V0903VgmParser.AsWrittenRightOnCountedSongs | v0.903/vgm_parser.c:58-181 | on a song body of YM2151, YM2203, YM2608 and AY8910 writes and waits, the as-written walk is the corrected one |
| V0903VgmParser.AsWrittenMiscounts | v0.903/vgm_parser.c:58-181 | the as-written walk over 0x52 0x62 0x00 0x66 adds 735 samples, where the song, one YM2612 write, lasts none and the corrected walk adds none |
| V0903VgmParser.GetBytes | v0.903/vgm_parser.c:109-111 | successive `fgetc` calls return the bytes left and then 0xFF, and stop moving the stream at its end |
| V0903VgmParser.Pass | v0.903/vgm_parser.c:49-182 | one pass reports the end of the file exactly when no opcode is left; otherwise it does what StepAt describes for the operand table it is given (the source's switch is `AsWritten`), and a pass that goes on leaves the stream at the next command |
| V0903VgmParser.Walk | v0.903/vgm_parser.c:48-183 | the loop's lines, total and way of stopping are those of WalkFrom from the data start, for the operand table it is given; with `AsWritten` that is the source's count, 735 samples on 0x52 0x62 0x00 0x66 (AsWrittenMiscounts) |
| V0903VgmParser.ParseCommands | v0.903/vgm_parser.c:17-36 | a file shorter than the 0x40 header bytes yields nothing; any other yields the walk from its data start with the operand table it is given, the source's own with `AsWritten` |
| V0888VgmParser.SlotDigits | v0.888/vgm_parser.c:8-15 | `read_le32` and `read_le16` assemble bytes least significant first: the bytes of a field are the base-256 digits of its value, and the value fits the field's width |
| V0888VgmParser.SlotOf | v0.888/vgm_parser.c:204-291 | every field the header reader knows ends within the 0xE4 bytes the newest version reads |
| V0888VgmParser.HeaderOf | v0.888/vgm_parser.c:170-294 | parsing fails exactly on a file shorter than 0x40 bytes or without "Vgm "; on success the ident is "Vgm ", the version is the file's, every field introduced after the file's version is 0, the data offset is never 0 and is 0x40 before 1.50 or for a zero field, and the extra-header offset is 0 before 1.70 or for a zero field |
| V0888VgmParser.ReadLenMonotone | v0.888/vgm_parser.c:189-194 | a later version reads at least as much of the header |
| V0888VgmParser.FieldInsideReadLength | v0.888/vgm_parser.c:189-291 | every field a version reads lies inside the bytes that version reads from the file |
| V0888VgmParser.ReadLenIsLastField | v0.888/vgm_parser.c:189-194 | from 1.51 on, the read length ends exactly at the last byte of a field the version reads (for 1.70, of the extra-header offset) |
| V0888VgmParser.FieldsFromFile | v0.888/vgm_parser.c:203-291 | once the file holds what its version reads, each field the version reads is the file's own value at the field's offset, and the loop and extra-header offsets are the file's relative fields resolved by `read_rel_ofs` |
| V0888VgmParser.HeaderIgnoresStale | v0.888/vgm_parser.c:171-201 | a file holding what its version reads gives the same header whatever the uncleared buffer held |
| V0888VgmParser.StaleBytesReachHeader | v0.888/vgm_parser.c:196-234 | as written, a 0x40-byte file claiming 1.51 or later only warns, and its YM2203 clock is whatever the buffer held at 0x44 |
| V0888VgmParser.AgreesWithPlayer | v0.888/vgm_parser.c:203-252 | the version, the loop and data offsets and the thirteen fields the v0.903 player also reads come out the same from both readers |
| V0888VgmParser.ParseVgmHeader | v0.888/vgm_parser.c:170-294 | `parse_vgm_header` on a stream succeeds exactly when `HeaderOf` does and then returns that header; on failure the header is all zero |
| V0084Vgm.DataStartAgreesWithPlayer | v0.84/console_player/vgm.c:66-85 | the commands start at 0x40 before version 1.50 or for a zero data-offset field, else at 0x34 plus the field as a wrapping `uint32_t`; this is the v0.903 player's data offset except for the one field value whose sum wraps to 0 |
| V0084Vgm.Playback.ParseHeader | v0.84/console_player/vgm.c:66-85 | reading the header fails exactly when fewer than 0x100 bytes are left; otherwise the header holds those bytes and the stream is positioned at the data start |
| V0084Vgm.WriteCall | v0.84/console_player/vgm.c:147-193 | only opcode 0x50 (SN76489) sends a lone data byte; every other register-write opcode sends an address and a value to its chip |
| V0084Vgm.AdpcmBlock | v0.84/console_player/vgm.c:87-133 | a sample-memory block that is read in full makes at most one memory write and then flushes and pauses 50 ms; a short read makes no call; the stream never moves back |
| V0084Vgm.RamBlockWrites | v0.84/console_player/vgm.c:87-133 | a complete type-0x81 block writes its data after the 8-byte prefix at the prefix's start address and leaves the stream just past the block |
| V0084Vgm.Playback.AdpcmWrite | v0.84/console_player/vgm.c:87-133 | reading a block from the stream makes exactly the calls of the block model and leaves the stream where it says |
| V0084Vgm.WaitOverride | v0.84/console_player/vgm.c:204-208 | 0x64 sets the 0x62 length when its target is 0x62, the 0x63 length when it is 0x63 and neither otherwise; it waits for nothing and consumes four bytes |
| V0084Vgm.EndOfDataLoops | v0.84/console_player/vgm.c:209-217 | end of data jumps to the loop offset plus 0x1C every time it is reached when the header has a loop offset, and stops playback otherwise |
| V0084Vgm.BadBlockStops | v0.84/console_player/vgm.c:218-223 | a data block whose second byte is not 0x66 stops playback with no call and no flush |
| V0084Vgm.TruncatedCommandStops | v0.84/console_player/vgm.c:141-222 | a command cut off by the end of the stream stops playback with no wait and no call, not even the flush |
| V0084Vgm.UnknownOpcodeSkipsOneByte | v0.84/console_player/vgm.c:226-236 | an unknown opcode consumes one byte, waits for nothing and makes no call but the flush of flush mode 2 |
| V0084Vgm.Perform | v0.84/console_player/vgm.c:147-232 | the register writes and waits of the `switch` make the calls, wait lengths and wait of the command model and neither stop playback nor read further |
| V0084Vgm.Playback.Execute | v0.84/console_player/vgm.c:145-237 | once the operands are read, the `switch` and the flush of flush mode 2 have exactly the effect of the command model |
| V0084Vgm.Playback.ProcessCommand | v0.84/console_player/vgm.c:135-238 | processing a command returns its wait, updates the wait lengths, moves the stream, clears the playing flag and makes the calls exactly as the command model says |
| V0084Vgm.Chunk | v0.84/console_player/vgm.c:264-276 | a pass sleeps for at most 1000 samples and at most the pending wait, and for at least one sample while a wait is pending |
| V0084Vgm.Step | v0.84/console_player/vgm.c:259-283 | a pass with a wait pending moves samples from pending to waited without processing a command; a pass without one processes exactly one command and takes its wait |
| V0084Vgm.Run | v0.84/console_player/vgm.c:259-283 | the calls made before the loop are a prefix of the calls made after it |
| V0084Vgm.Drains | v0.84/console_player/vgm.c:264-283 | a pending wait of w samples takes exactly one pass per started thousand samples, processes no command, leaves the stream and wait lengths alone, adds w to the samples waited and makes only sleep calls |
| V0084Vgm.Playback.SleepChunk | v0.84/console_player/vgm.c:264-276 | a waiting pass moves one chunk from pending to waited and sleeps for it when the sleep is at least a microsecond |
| V0084Vgm.Playback.PlayLoop | v0.84/console_player/vgm.c:254-287 | the loop from the default wait lengths 735 and 882 ends where the loop model ends, followed by a flush, with the playing flag cleared |
| V0084Vgm.Playback.VgmPlay | v0.84/console_player/vgm.c:240-288 | playing fails with no call when the header cannot be read; otherwise it plays from the data start and ends with a flush and the playing flag cleared |
| V0086Vgm.ModeOf | v0.86/console_player/vgm.c:261-270 | timer mode 3 selects the VGMPlay loop and mode 7 the optimised loop, exactly; every other mode plays with the compensated sleep |
| V0086Vgm.Trunc | v0.86/console_player/vgm.c:367 | the `(int)` of the backlog is its integer part, dropping the fraction towards zero on either side of 0 |
| V0086Vgm.Backlog | v0.86/console_player/vgm.c:359-364 | in the optimised mode the backlog after adding the samples due never exceeds 44100 / 60 and is the plain sum when that fits; in the other modes it is always the plain sum |
| V0086Vgm.Drain | v0.86/console_player/vgm.c:366-373 | the drain stops only once the samples processed reach the target, after a command that stops playback, or when its command budget is spent; it processes nothing when the target is already met, and the samples processed and the calls only grow |
| V0086Vgm.DrainDone | v0.86/console_player/vgm.c:367 | a drain whose target is already met processes no command |
| V0086Vgm.DrainOvershoot | v0.86/console_player/vgm.c:366-373 | the samples processed overshoot the target by less than one 16-bit wait |
| V0086Vgm.RemainderCarried | v0.86/console_player/vgm.c:359-374 | the remainder carried to the next pass is the capped backlog less the samples processed; it never exceeds the old backlog plus the samples due, and after a drain that reached its target from a non-negative backlog it lies strictly between -65536 and 1; in the optimised mode a pass aims at no more than 735 samples |
| V0086Vgm.Ticks | v0.86/console_player/vgm.c:349-375 | the calls made before the outer loop are a prefix of the calls made after it |
| V0086Vgm.DrainLoop | v0.86/console_player/vgm.c:366-373 | the inner loop on the player processes exactly the commands of the drain model and returns its samples processed and wait lengths |
| V0086Vgm.TickOn | v0.86/console_player/vgm.c:349-375 | one pass on the player leaves the stream, the playing flag, the wait lengths, the backlog and the calls as the pass model says |
| V0086Vgm.VgmPlay | v0.86/console_player/vgm.c:202-382 | playing fails with no call when the header cannot be read or, in modes 3 and 7, the timer cannot be created; otherwise it starts at the data start with wait lengths 735 and 882 and a zero backlog, runs the passes of its mode, and ends with a flush and the playing flag cleared |
| V0087VgmCache.StepAt | v0.87/console_player/vgm.c:403-433 | a step stops exactly when an OPN write or a 0x61 lacks one of its two operand bytes, and otherwise moves past the opcode |
| V0087VgmCache.Convert | v0.87/console_player/vgm.c:401-435 | the converter's loop emits, in order, what the walk from the first byte emits |
| V0087VgmCache.OpnWriteConverted | v0.87/console_player/vgm.c:405-411 | a complete OPN write reaches the transcoder with its register and value, on port 1 exactly for 0x53 and 0x57, and the walk moves three bytes on |
| V0087VgmCache.WaitReemitted | v0.87/console_player/vgm.c:412-419 | a complete 0x61 wait reaches the cache as the same three bytes |
| V0087VgmCache.OneByteCommandsCopied | v0.87/console_player/vgm.c:420-431 | 0x62, 0x63, 0x66 and 0x70..0x7F are copied as one byte each |
| V0087VgmCache.OthersSkipped | v0.87/console_player/vgm.c:423-432 | every other opcode emits nothing and moves the walk on by 7 (0x67, whatever the block size), 5 (0xE0), 2 (0x80..0x8F) or 1 |
| V0087VgmCache.TruncatedCommandEnds | v0.87/console_player/vgm.c:406-413 | a write or a 0x61 cut off by the end of the data ends the walk with nothing more emitted |
| V0087VgmCache.NoEndAdded | v0.87/console_player/vgm.c:401-436 | the converter appends no end marker: an 0x66 reaches the cache only from an 0x66 byte in the data |
| V0087VgmCache.OperandReadAsOpcode | v0.87/console_player/vgm.c:429-432 | an SN76489 write's data byte is read as an opcode, so 50 80 61 10 00 loses its 16-sample wait, which the corrected walk keeps |
| V0087VgmCache.BlockBytesReadAsCommands | v0.87/console_player/vgm.c:423-425 | a data block's bytes are read as commands, so a one-byte block holding 0x66 puts an end marker in the cache, which the corrected walk does not |
| V0087VgmCache.AsWrittenConvertsOpnSong | v0.87/console_player/vgm.c:401-434 | on a body of OPN writes and waits the walk converts command by command, each as the corrected walk does |
| V0087VgmCache.IntendedConvertsSong | v0.87/console_player/vgm.c:401-434 | the corrected walk converts any encoded run of song commands command by command: OPN writes to the transcoder, waits copied, other writes dropped |
| V0087VgmCache.IntendedConvertsBody | v0.87/console_player/vgm.c:401-434 | a whole song body ending in 0x66 comes out as its commands' pieces and then the end marker |
| V0087VgmCache.IntendedSkipsBlock | v0.87/console_player/vgm.c:423-425 | the corrected walk steps over a whole data block, its size included, and emits nothing for it |
| V0087VgmCache.CacheHeaderHasNoLoop | v0.87/console_player/vgm.c:324-337 | the header written over the placeholder is the later builder's header with no converted loop |
| V0087VgmCache.CacheHeaderParses | v0.87/console_player/vgm.c:324-337 | read back, the cache header has the source's version and samples, end-of-file offset four short of the file size, no loop offset and no loop samples, and the GD3 offset where the block was copied |
| V0915OpnToOpm.KeyOnChannel | v0.915/console_player/opn_to_opm.c:97-103 | a key-on write is dropped exactly for OPN channel numbers 3 and 7 |
| V0915OpnToOpm.KeyOnMatchesChannel | v0.915/console_player/opn_to_opm.c:97-103 | a key-on for channel `nch` of a port addresses OPM channel `3·port + nch` and carries the slot mask from the data's high nibble |
| V0915OpnToOpm.OperatorRegFields | v0.915/console_player/opn_to_opm.c:107-115 | an operator register lands on the OPM register whose group, operator slot and channel are those of the OPN register |
| V0915OpnToOpm.OperatorRegInjective | v0.915/console_player/opn_to_opm.c:107-115 | distinct OPN operator registers (port 0's channel 3 excluded) reach distinct OPM registers |
| V0915OpnToOpm.EmittedChannel | v0.915/console_player/opn_to_opm.c:107-152 | every write for a per-channel register lands on the OPM channel of the OPN channel it came from |
| V0915OpnToOpm.RlSwapInvolution | v0.915/console_player/opn_to_opm.c:48-54 | on an OPN with pan, swapping the cached L/R bits twice gives them back |
| V0915OpnToOpm.PanSwapped | v0.915/console_player/opn_to_opm.c:124-138 | an L/R-AMS-PMS write sends AMS with a PMS of at most 7 to 0x38+ch, then 0x20+ch with OPM R from the OPN R bit and OPM L from the OPN L bit (both on for a YM2203) and the shadowed feedback and connection |
| V0915OpnToOpm.ScaledPms | v0.915/console_player/opn_to_opm.c:130-134 | the scaled PMS never exceeds 7 |
| V0915OpnToOpm.NoteOf | v0.915/console_player/opn_to_opm.c:39-46 | the key fraction of the pitch of an F-number pair fits in six bits |
| V0915OpnToOpm.PitchFromPair | v0.915/console_player/opn_to_opm.c:140-152 | a write to either half of an F-number pair sends the same KC to 0x28+ch and KF shifted left by two to 0x30+ch, computed from the shadow of both halves |
| V0915OpnToOpm.ZeroFnumSilent | v0.915/console_player/opn_to_opm.c:25-46 | an F-number whose bits 10..2 are zero gives KC = KF = 0 |
| V0915OpnToOpm.LfoRate | v0.915/console_player/opn_to_opm.c:93-96 | register 0x22 goes through the LFO table to 0x18 except on a YM2203, where it sends nothing; table entries 0..7 send 0 |
| V0915OpnToOpm.Transcoder.constructor | v0.915/console_player/opn_to_opm.c:8-19 | before any call the shadow is zero, no writer is installed and the LFO amplitude is 0.90 |
| V0915OpnToOpm.Transcoder.Init | v0.915/console_player/opn_to_opm.c:58-85 | init records chip, clock and ratio with divider 1 for the YM2203 and 2 otherwise, clears the shadow, sets every L/R entry to 3 and sends the three LFO writes when a writer is installed |
| V0915OpnToOpm.Transcoder.WriteReg | v0.915/console_player/opn_to_opm.c:87-153 | a write to port 2 or above, or with no writer, changes nothing, the shadow included; otherwise the shadow stores it, the L/R cache takes an L/R write and the writer receives exactly `Emitted`, with the cached L/R bits kept at most 3 |
| V0915OpnToOpm.Transcoder.SendSpecial | v0.915/console_player/opn_to_opm.c:92-105 | the port-0 LFO rate and key on/off writes are sent as `SpecialOut` says |
| V0915OpnToOpm.Transcoder.SendChannel | v0.915/console_player/opn_to_opm.c:107-152 | the per-channel registers are sent as `ChannelOut` says and only an L/R write changes the cache |
| V0915OpnToOpm.Transcoder.SendPan | v0.915/console_player/opn_to_opm.c:124-138 | an L/R-AMS-PMS write caches its L/R bits for its channel before the pan is sent from them |
| V0087SnToAy.SharedOut | v0.87/console_player/sn_to_ay.c:25-48 | the shared channel's update is a mixer write to register 7 followed by a volume write to register 10 |
| V0087SnToAy.NoisePeriod | v0.87/console_player/sn_to_ay.c:64-68 | the AY noise period sent is always below 32 |
| V0087SnToAy.Next | v0.87/console_player/sn_to_ay.c:99-120 | every byte keeps all frequencies below 1024 and all attenuations below 16, and leaves the noise channel's frequency alone |
| V0087SnToAy.Converter.constructor | v0.87/console_player/sn_to_ay.c:7-13 | the zero-initialised statics form a valid shadow, and no call has been made yet |
| V0087SnToAy.Converter.Init | v0.87/console_player/sn_to_ay.c:80-97 | frequencies and latch cleared, all four channels silenced, then the AY-to-OPM init for an AY8910 at 1789773 Hz and mixer 0x38 |
| V0087SnToAy.Converter.UpdateSharedChannel | v0.87/console_player/sn_to_ay.c:25-48 | appends the shared channel's mixer and volume |
| V0087SnToAy.Converter.UpdateAttenuation | v0.87/console_player/sn_to_ay.c:50-57 | stores the low four bits as the channel's attenuation and sends the shared channel for channels 2 and 3, otherwise the channel's volume |
| V0087SnToAy.Converter.UpdateNoise | v0.87/console_player/sn_to_ay.c:59-69 | sets the noise mode (periodic when bit 2 is clear), sends the shared channel and then the noise period |
| V0087SnToAy.Converter.UpdateFreq | v0.87/console_player/sn_to_ay.c:71-77 | a tone channel's period goes out as low byte then high nibble; nothing for channel 3 |
| V0087SnToAy.Converter.WriteReg | v0.87/console_player/sn_to_ay.c:99-120 | the new shadow and the calls appended are those of the byte's transition, and the shadow stays valid |
| V0087SnToAy.Converter.Latch | v0.87/console_player/sn_to_ay.c:100-112 | a latch byte moves the shadow and the calls as the transition says |
| V0087SnToAy.Converter.LatchAttenuation | v0.87/console_player/sn_to_ay.c:101-104 | an attenuation latch moves the shadow and the calls as the transition says |
| V0087SnToAy.Converter.LatchTone | v0.87/console_player/sn_to_ay.c:105-111 | a tone latch moves the shadow and the calls as the transition says |
| V0087SnToAy.Converter.LatchNoise | v0.87/console_player/sn_to_ay.c:105-111 | a noise latch moves the shadow and the calls as the transition says |
| V0087SnToAy.ToneRoundTrip | v0.87/console_player/sn_to_ay.c:99-120 | a latch and data byte pair for a tone channel leaves exactly the 10-bit value written in that channel, leaves the other frequencies alone, and sends it as the AY channel's period, low byte then high bits |
| V0087SnToAy.StrayDataIgnored | v0.87/console_player/sn_to_ay.c:113-119 | a data byte after an attenuation or a noise latch changes nothing and sends nothing |
| V0087SnToAy.AttenuationLatch | v0.87/console_player/sn_to_ay.c:100-104 | an attenuation latch stores its attenuation; channels 0 and 1 get the table volume, channels 2 and 3 the shared channel |
| V0087SnToAy.VolumeMonotone | v0.87/console_player/sn_to_ay.c:16 | the volume table never gets louder as the attenuation grows, and only attenuation 15 gives volume 0 |
| V0087SnToAy.SharedChannelMix | v0.87/console_player/sn_to_ay.c:25-48 | channels 0 and 1 always keep tone on and noise off; a sounding noise wins channel 2 (mixer 0x1C, noise volume); otherwise a sounding tone 2 plays (0x38); with both silent the mixer is 0x3C at volume 0 |
| V0087SnToAy.NoiseLatch | v0.87/console_player/sn_to_ay.c:59-69 | a noise latch sets the mode, keeps the frequencies, and sends the shared channel then the period 7, 15, 31 or tone 2's frequency mod 32 |
| V0888Ym2151.OrgKey | v0.888/console_player/ym2151.c:29-30 | the key read from a channel's registers is its note's semitone index times 256 plus the key fraction with the low two bits cleared |
| V0888Ym2151.AsWrittenInRange | v0.888/console_player/ym2151.c:32-49 | for a key difference in [-3072, 2820) the driver's single borrow or carry always lands inside `keyIndexToCode` |
| V0888Ym2151.TableIndexOverrun | v0.888/console_player/ym2151.c:34-49 | a key difference of -3073 from the bottom note of octave 1 borrows once and indexes `keyIndexToCode` at -1 |
| V0888Ym2151.Normalise | v0.888/console_player/ym2151.c:34-48 | the normalised key always lies in octave 0..7 and in 0..3071 |
| V0888Ym2151.NormaliseKeepsNote | v0.888/console_player/ym2151.c:34-48 | normalising keeps the absolute note when it lies within the chip's eight octaves, and clamps it to the bottom or top note otherwise |
| V0888Ym2151.Pitch | v0.888/console_player/ym2151.c:49-51 | the key code sent never uses an unused note code (3, 7, 11 or 15), and the key fraction's low two bits are clear |
| V0888Ym2151.CodeIndexRoundTrip | v0.888/console_player/ym2151.c:20-21 | `keyCodeToIndex` maps every code of `keyIndexToCode` back to its index |
| V0888Ym2151.KeyPairDecodes | v0.888/console_player/ym2151.c:49-52 | the key code and key fraction sent for a normalised key sound that key, down to the fraction's 4-step resolution |
| V0888Ym2151.PitchShifts | v0.888/console_player/ym2151.c:28-52 | transposition moves the note by exactly the key difference, down to the fraction's resolution, whenever the result is within range, and otherwise sends the bottom or top note |
| V0888Ym2151.PitchAgreesAsWritten | v0.888/console_player/ym2151.c:34-52 | wherever the driver's single step stays inside the table it sends what the normalised transposition sends |
| V0888Ym2151.Round | v0.888/console_player/ym2151.c:56 | C's `round` lies within one half of its argument and is non-negative for a non-negative argument |
| V0888Ym2151.NoiseData | v0.888/console_player/ym2151.c:55-57 | the rescaled noise register keeps the data's top three bits and carries the rounded, scaled frequency capped at 0x1F |
| V0888Ym2151.LfoData | v0.888/console_player/ym2151.c:58-60 | the LFO frequency moved by the LFO difference is clamped to 0..255 and unchanged inside that range |
| V0888Ym2151.PitchChannel | v0.888/console_player/ym2151.c:27-28 | a pitch register belongs to the channel whose key code or key fraction register it is |
| V0888Ym2151.PassThrough | v0.888/console_player/ym2151.c:26-67 | with ratio 1 or while OPN conversion is on, a write is sent unchanged, followed by a flush in register-level flush mode |
| V0888Ym2151.ConvertedPitchWrite | v0.888/console_player/ym2151.c:27-54 | under conversion a write to either pitch register of a channel sends the channel's transposed key code and key fraction, each to its own register |
| V0888Ym2151.MuteRegs | v0.888/console_player/ym2151.c:70-94 | the mute batch has 296 entries |
| V0888Ym2151.AfterBatchAppend | v0.888/console_player/ym2151.c:92-93 | applying two batches in a row is applying their concatenation |
| V0888Ym2151.ZeroFromClears | v0.888/console_player/ym2151.c:87-90 | zero writes to every register from `k` on, after registers below `k` are already 0, leave the whole chip at 0 |
| V0888Ym2151.MuteClearsChip | v0.888/console_player/ym2151.c:70-94 | whatever the chip held, the mute batch leaves every one of its registers at 0 |
| V0888Ym2151.ResetCalls | v0.888/console_player/ym2151.c:113-130 | the reset script is 297 writes |
| V0888Ym2151.Ym2151.constructor | v0.888/console_player/ym2151.c:14-17 | the statics start with a zero shadow, ratio 1.0 and no key or LFO difference |
| V0888Ym2151.Ym2151.WriteReg | v0.888/console_player/ym2151.c:23-68 | the shadow takes every write, and the calls appended are those of the conversion rules for the new shadow |
| V0888Ym2151.Ym2151.Mute | v0.888/console_player/ym2151.c:70-94 | one batch is sent with no wait: 32 SL/RR maxima, 8 key-offs and 256 zeroings, in that order |
| V0888Ym2151.Ym2151.Init | v0.888/console_player/ym2151.c:96-139 | the ratio and differences are reset, then derived from a clock mismatch only without OPN conversion; the shadow is zeroed; the reset script, the rescaled LFO frequency under conversion, and a flush are sent |
| V0888Ym2151.Ym2151.Reset | v0.888/console_player/ym2151.c:113-130 | the shadow ends all zero and the reset script is sent in order |
| V0087AyToOpm.TonePeriod | v0.87/console_player/ay_to_opm.c:133-135 | the tone period is 12 bits: its low byte is the fine register and its high bits the coarse register's low nibble |
| V0087AyToOpm.ToneFreq | v0.87/console_player/ay_to_opm.c:136-141 | a zero period gives frequency 0, and no period gives a negative frequency |
| V0087AyToOpm.ToneNote | v0.87/console_player/ay_to_opm.c:33-52 | a frequency that is not positive gives key code and key fraction 0, and the key fraction always fits its 6 bits |
| V0087AyToOpm.NoiseVol | v0.87/console_player/ay_to_opm.c:59-64 | the noise volume is a 4-bit AY volume |
| V0087AyToOpm.NoiseVolIsMax | v0.87/console_player/ay_to_opm.c:59-64 | the noise volume is the loudest volume among the channels with noise on: none is louder, and one reaches it unless it is 0 |
| V0087AyToOpm.NoiseFrequencyInverted | v0.87/console_player/ay_to_opm.c:65-66 | the OPM noise register has its enable bit set and carries the AY noise period's five bits inverted |
| V0087AyToOpm.ToneLevelSilences | v0.87/console_player/ay_to_opm.c:70-80 | a tone channel in envelope mode, with its tone off, or at volume 0 gets TL 127; otherwise its TL is the table's entry for its volume |
| V0087AyToOpm.VolumeTablesDecrease | v0.87/console_player/ay_to_opm.c:18-19 | in both volume tables a louder AY volume gives a strictly lower total level |
| V0087AyToOpm.ZeroPeriodSilentPitch | v0.87/console_player/ay_to_opm.c:133-137 | a write to either period register of a channel whose period is 0 sends key code and key fraction 0 to its OPM channel |
| V0087AyToOpm.EnvelopeIgnored | v0.87/console_player/ay_to_opm.c:142-153 | writes to registers 11..15 send nothing besides the flush |
| V0087AyToOpm.ToneSetups | v0.87/console_player/ay_to_opm.c:97-112 | the set-up of the three tone channels is 14 writes per channel |
| V0087AyToOpm.SnToneReachesAyPeriod | v0.87/console_player/ay_to_opm.c:129-135 | in the SN76489-to-AY-to-OPM chain, the two AY writes the SN converter sends for a tone leave the SN's 10-bit frequency as this shadow's tone period |
| V0087AyToOpm.Converter.constructor | v0.87/console_player/ay_to_opm.c:10-15 | the statics start zeroed, with no call made |
| V0087AyToOpm.Converter.Init | v0.87/console_player/ay_to_opm.c:84-127 | the source chip and clock are recorded, the ratio is 3579545 over the OPM clock, the divider is 2 for an AY8910 and 4 otherwise, the shadow is cleared, and the channel set-up and a flush are sent |
| V0087AyToOpm.Converter.SetUpChannels | v0.87/console_player/ay_to_opm.c:95-125 | sends the set-up and key-on of channels 4, 5 and 6 in turn, then of the noise operator of channel 7 |
| V0087AyToOpm.Converter.UpdateFreq | v0.87/console_player/ay_to_opm.c:50-56 | sends the key code and the key fraction shifted left by two to OPM channel `4 + ch` |
| V0087AyToOpm.Converter.UpdateNoise | v0.87/console_player/ay_to_opm.c:58-68 | sends the inverted noise frequency and the noise TL of the loudest noise-enabled channel |
| V0087AyToOpm.Converter.UpdateTone | v0.87/console_player/ay_to_opm.c:70-80 | sends the carrier TL of OPM channel `4 + ch` |
| V0087AyToOpm.Converter.WriteReg | v0.87/console_player/ay_to_opm.c:129-156 | a register above 15 changes nothing and sends nothing; otherwise the shadow takes the write, the pitch, levels or noise it affects are sent, then a flush |
| V0884AyToOpm.SegmentStart | v0.884/console_player/ay_to_opm.c:110-117 | a segment starts at level 31 exactly when it slides down or holds the top, and at 0 otherwise |
| V0884AyToOpm.EnvStep | v0.884/console_player/ay_to_opm.c:119-142 | after an envelope update the level stays in 0..31, the segment in 0..1 and the counter below the period, whatever the counter was before; before the period is reached the update only counts, and when it is reached the counter restarts at 0; period and shape are untouched |
| V0884AyToOpm.EnvWrite | v0.884/console_player/ay_to_opm.c:224-232 | a write to the envelope registers keeps the envelope well formed: the period at least 1, the shape a table index, the level 5 bits |
| V0884AyToOpm.ToneNote | v0.884/console_player/ay_to_opm.c:56-71 | a frequency that is not positive gives key code and key fraction 0, and the key fraction fits its 6 bits |
| V0884AyToOpm.ZeroPeriodSilentPitch | v0.884/console_player/ay_to_opm.c:205-213 | a write to either period register of a channel whose 12-bit period is 0 sends key code and key fraction 0 to its OPM channel |
| V0884AyToOpm.ToneMutedByMixer | v0.884/console_player/ay_to_opm.c:93-107 | a channel whose tone bit is set in the mixer gets TL 0x7F |
| V0884AyToOpm.ToneVolumeIndex | v0.884/console_player/ay_to_opm.c:96-104 | a sounding channel in envelope mode takes its TL from the envelope level shifted right by one, any other from its own 4-bit volume |
| V0884AyToOpm.EnvelopeLevelMonotone | v0.884/console_player/ay_to_opm.c:99-104 | in envelope mode a higher envelope level never gives a higher TL |
| V0884AyToOpm.EnvelopeRegistersSilent | v0.884/console_player/ay_to_opm.c:224-232 | writes to registers 11..15 send nothing |
| V0884AyToOpm.PeriodWrite | v0.884/console_player/ay_to_opm.c:224-226 | a write to 11 or 12 changes only the period, which is the 16-bit value of the pair, or 1 when that is 0 |
| V0884AyToOpm.ShapeStartFollowsAttack | v0.884/console_player/ay_to_opm.c:227-232 | a shape write takes the low nibble as the shape, zeroes counter and segment, keeps the period, and starts the level at 0 exactly when the shape's attack bit is set and at 31 otherwise |
| V0884AyToOpm.ShapeTableDecodesBits | v0.884/console_player/ay_to_opm.c:31-36 | each row of the shape table is the AY8910 decoding of the continue, attack, alternate and hold bits |
| V0884AyToOpm.HoldSegmentsStay | v0.884/console_player/ay_to_opm.c:138-141 | a hold segment leaves the level and the segment unchanged |
| V0884AyToOpm.SlideMovesByOne | v0.884/console_player/ay_to_opm.c:120-137 | when the counter reaches the period it restarts at 0 and a slide moves the level by one, or at the end of its range switches segment |
| V0884AyToOpm.CounterCounts | v0.884/console_player/ay_to_opm.c:119-122 | while the counter stays below the period an update only advances the counter |
| V0884AyToOpm.StepsOncePerPeriod | v0.884/console_player/ay_to_opm.c:119-142 | from a zero counter the first period minus one updates only count and the next one steps the envelope and restarts the count |
| V0884AyToOpm.EnvToneOutChannels | v0.884/console_player/ay_to_opm.c:143-148 | the envelope update's writes are exactly the TL writes of the envelope-mode channels, each at its current level |
| V0884AyToOpm.Converter.constructor | v0.884/console_player/ay_to_opm.c:9-22 | the statics start zeroed with no callback installed and the envelope at counter 0, period 1, shape 0, segment 0, level 0 |
| V0884AyToOpm.Converter.Init | v0.884/console_player/ay_to_opm.c:155-199 | the source and callback are recorded, the ratio is the source clock over the OPM clock, the divider 2 for an AY8910 and 4 otherwise, the shadow is cleared, the set-up goes out through the callback if one is installed, and the envelope is left as it was |
| V0884AyToOpm.Converter.SetUpChannels | v0.884/console_player/ay_to_opm.c:168-198 | the set-up of channels 4, 5 and 6 in turn and then of the noise operator, through the callback if one is installed |
| V0884AyToOpm.Converter.UpdateFreq | v0.884/console_player/ay_to_opm.c:73-79 | sends the key code and the key fraction shifted left by two to OPM channel `4 + ch` |
| V0884AyToOpm.Converter.UpdateNoise | v0.884/console_player/ay_to_opm.c:81-91 | sends the inverted noise frequency and the noise TL of the loudest noise-enabled channel |
| V0884AyToOpm.Converter.UpdateTone | v0.884/console_player/ay_to_opm.c:93-108 | sends the carrier TL of OPM channel `4 + ch`, using the envelope level in envelope mode |
| V0884AyToOpm.Converter.ResetSegment | v0.884/console_player/ay_to_opm.c:110-117 | the level becomes the start of the current segment |
| V0884AyToOpm.Converter.UpdateEnvelope | v0.884/console_player/ay_to_opm.c:119-150 | the envelope takes one step of the stepping function, keeping the converter valid; the envelope-mode channels' TLs are sent only when the step falls due |
| V0884AyToOpm.Converter.UpdateEnvelopeTones | v0.884/console_player/ay_to_opm.c:143-148 | sends the TL of each envelope-mode channel in channel order |
| V0884AyToOpm.Converter.WriteReg | v0.884/console_player/ay_to_opm.c:201-233 | a register above 15 changes nothing and sends nothing; otherwise the shadow takes the write, the envelope follows the envelope-register rules, and the pitch, levels or noise it affects are sent |
| V0884AyToOpm.Converter.WriteSound | v0.884/console_player/ay_to_opm.c:205-223 | a write to registers 0..10 sends the pitch, levels or noise it affects |
| V0884AyToOpm.Converter.WriteTonePeriod | v0.884/console_player/ay_to_opm.c:205-213 | a write to either period register of a channel sends its new pitch |
| V0884AyToOpm.Converter.WriteLevels | v0.884/console_player/ay_to_opm.c:214-223 | a noise-period, mixer or amplitude write sends the TLs and the noise it affects |
| V0884AyToOpm.Converter.WriteEnvelope | v0.884/console_player/ay_to_opm.c:224-232 | registers 11 and 12 set the period (at least 1), register 13 restarts the envelope with the new shape |
| V0087AyToOpm.VolumeTableBelowMute | v0.87/console_player/ay_to_opm.c:18-19 | every entry of both volume tables is at most 127, the largest 7-bit TL |
| V0888AyToOpm.PitchFreq | v0.888/console_player/ay_to_opm.c:212-253 | the frequency a channel is tuned to is never negative |
| V0888AyToOpm.KeyEventRules | v0.888/console_player/ay_to_opm.c:264-280 | with an envelope period below 200 an amplitude write keys the channel on exactly when the envelope bit rises and off exactly when it falls; with a longer period it sends no key event |
| V0888AyToOpm.MixerSendsNoKeyEvent | v0.888/console_player/ay_to_opm.c:284-290 | noise-period and mixer writes send no write to the key register 0x08 |
| V0888AyToOpm.WaveStepsFollowShapeTable | v0.888/console_player/ay_to_opm.c:216-237 | the waveform cycle is 0 steps exactly for shapes 0..7, 64 exactly for the two shapes whose second segment slides back, and 32 for the rest, which include the four shapes that hold after one slope |
| V0888AyToOpm.EnvelopePitch | v0.888/console_player/ay_to_opm.c:239-253 | a waveform of a repeating shape is tuned so that one envelope cycle (16 × period × steps source clocks) is one period of the note; any other channel is tuned from its tone period |
| V0888AyToOpm.ZeroPeriodSilentPitch | v0.888/console_player/ay_to_opm.c:246-249 | a channel tuned from its tone period sends key code and key fraction 0 when that period is 0 |
| V0888AyToOpm.WaveformFullVolume | v0.888/console_player/ay_to_opm.c:93-118 | a waveform channel gets TL 0 whatever its mixer bit; a channel with its tone off that is no waveform gets 0x7F |
| V0888AyToOpm.LongPeriodLevelsAsBefore | v0.888/console_player/ay_to_opm.c:93-118 | with an envelope period of 200 or more a channel's TL is the one v0.884 gives it |
| V0888AyToOpm.AmplitudeOut | v0.888/console_player/ay_to_opm.c:264-283 | an amplitude write sends, in order, its key event, the channel's TL, its pitch and the noise |
| V0888AyToOpm.Converter.constructor | v0.888/console_player/ay_to_opm.c:9-22 | the statics start zeroed with no callback installed and the envelope at counter 0, period 1, shape 0, segment 0, level 0 |
| V0888AyToOpm.Converter.Init | v0.888/console_player/ay_to_opm.c:166-210 | the source and callback are recorded, the ratio is the source clock over the OPM clock, the divider 2 for an AY8910 and 4 otherwise, the shadow is cleared, the set-up goes out through the callback if one is installed, and the envelope is left as it was |
| V0888AyToOpm.Converter.SetUpChannels | v0.888/console_player/ay_to_opm.c:179-209 | the set-up of channels 4, 5 and 6 in turn and then of the noise operator, through the callback if one is installed |
| V0888AyToOpm.Converter.UpdateFreq | v0.888/console_player/ay_to_opm.c:73-79 | sends the key code and the key fraction shifted left by two to OPM channel `4 + ch` |
| V0888AyToOpm.Converter.UpdateNoise | v0.888/console_player/ay_to_opm.c:81-91 | sends the inverted noise frequency and the noise TL of the loudest noise-enabled channel |
| V0888AyToOpm.Converter.UpdateTone | v0.888/console_player/ay_to_opm.c:93-119 | sends the carrier TL of OPM channel `4 + ch` under the waveform rule |
| V0888AyToOpm.Converter.RecalculateFreq | v0.888/console_player/ay_to_opm.c:212-254 | sends the pitch of channel `ch` from the envelope cycle or the tone period |
| V0888AyToOpm.Converter.RecalculateAll | v0.888/console_player/ay_to_opm.c:294-297 | sends the pitch of channels 0, 1 and 2 in turn |
| V0888AyToOpm.Converter.ResetSegment | v0.888/console_player/ay_to_opm.c:121-128 | the level becomes the start of the current segment |
| V0888AyToOpm.Converter.UpdateEnvelope | v0.888/console_player/ay_to_opm.c:130-161 | the envelope takes one step of the v0.884 stepping function, keeping the converter valid; the envelope-mode channels' TLs are sent only when the step falls due |
| V0888AyToOpm.Converter.UpdateEnvelopeTones | v0.888/console_player/ay_to_opm.c:154-159 | sends the TL of each envelope-mode channel in channel order |
| V0888AyToOpm.Converter.WriteReg | v0.888/console_player/ay_to_opm.c:256-308 | a register above 15 changes nothing and sends nothing; otherwise the shadow takes the write, the envelope follows the envelope-register rules, and the key event, pitch, levels or noise the write affects are sent |
| V0888AyToOpm.Converter.WriteAmplitude | v0.888/console_player/ay_to_opm.c:264-283 | sends the amplitude write's key event, TL, pitch and noise |
| V0888AyToOpm.Converter.SendKeyEvent | v0.888/console_player/ay_to_opm.c:268-279 | sends the key event of the envelope bit's change |
| V0888AyToOpm.Converter.WriteNoiseMixer | v0.888/console_player/ay_to_opm.c:284-290 | a noise-period write sends the noise, a mixer write the three TLs and the noise |
| V0888AyToOpm.Converter.WriteEnvelope | v0.888/console_player/ay_to_opm.c:291-307 | registers 11 and 12 set the period (at least 1), register 13 restarts the envelope with the new shape, and both resend the three pitches |
| V0911AyToOpm.ModeName | v0.911/console_player/ay_to_opm.c:385-390 | the name is "Invalid" exactly for a mode outside the four of the enumeration |
| V0911AyToOpm.PanMap | v0.911/console_player/ay_to_opm.c:96-103 | every channel is panned left, centre or right |
| V0911AyToOpm.PanSides | v0.911/console_player/ay_to_opm.c:113-118 | the left pan and the centre carry the left RL bit, the right pan and the centre the right one |
| V0911AyToOpm.PanFollowsModeName | v0.911/console_player/ay_to_opm.c:398-412 | in ABC, ACB and BAC the mode's name reads the channels from left to right and the three pans differ; mono and any value outside the enumeration centre all three channels |
| V0911AyToOpm.MonoMatchesFixedConnection | v0.911/console_player/ay_to_opm.c:408-418 | in mono each tone channel's connection write is the 0xFC the earlier versions sent at set-up |
| V0911AyToOpm.NoiseSideSome | v0.911/console_player/ay_to_opm.c:105-120 | the loop's side flag is set exactly when some channel with noise on is panned to that side |
| V0911AyToOpm.NoisePanUnion | v0.911/console_player/ay_to_opm.c:122-134 | the noise is panned to one side exactly when its channels sound on that side only, and centred when they sound on both or on neither |
| V0911AyToOpm.Restart | v0.911/console_player/ay_to_opm.c:326-328 | a restarted envelope is valid and keeps its period and shape |
| V0911AyToOpm.Retrigger | v0.911/console_player/ay_to_opm.c:323-330 | the retrigger keeps the envelope valid, its period and its shape |
| V0911AyToOpm.OneShotHolds | v0.911/console_player/ay_to_opm.c:324-325 | the shapes treated as one-shot are exactly those whose second segment holds a level |
| V0911AyToOpm.RetriggerRules | v0.911/console_player/ay_to_opm.c:323-330 | a channel in envelope mode with a holding shape restarts the envelope at counter 0, segment 0 and the first segment's start level (31 exactly when it slides down); otherwise the envelope is untouched |
| V0911AyToOpm.PeriodStep | v0.911/console_player/ay_to_opm.c:317-330 | a tone-period write keeps the envelope valid with its period and shape |
| V0911AyToOpm.KeyStep | v0.911/console_player/ay_to_opm.c:340-359 | one channel's mixer step keeps the envelope valid with its period and shape |
| V0911AyToOpm.KeySteps | v0.911/console_player/ay_to_opm.c:339-360 | the mixer's channel steps keep the envelope valid with its period and shape |
| V0911AyToOpm.KeyCodesMember | v0.911/console_player/ay_to_opm.c:340-359 | a channel's key-on code is among the expected codes exactly when its tone bit goes from set to clear, its key-off code exactly when it goes from clear to set |
| V0911AyToOpm.NoteHasNoKeys | v0.911/console_player/ay_to_opm.c:143-169 | a channel's pitch and TL writes send nothing to the key register 0x08 |
| V0911AyToOpm.NoiseHasNoKeys | v0.911/console_player/ay_to_opm.c:136-140 | the noise writes send nothing to the key register |
| V0911AyToOpm.KeyStepsKeys | v0.911/console_player/ay_to_opm.c:339-360 | the key-register writes of the mixer's channel steps are the expected key codes, in channel order |
| V0911AyToOpm.KeyStepKeys | v0.911/console_player/ay_to_opm.c:343-359 | one channel's mixer step writes the key register exactly once with its key-on code when its tone turns on, once with its key-off code when it turns off, and not at all otherwise |
| V0911AyToOpm.MixerKeyWrites | v0.911/console_player/ay_to_opm.c:338-365 | the key-register writes of a whole mixer write are exactly the expected key codes: the TLs and noise after them send none |
| V0911AyToOpm.MixerKeyEvents | v0.911/console_player/ay_to_opm.c:339-360 | a mixer write keys channel `i` on with all four operators exactly when its tone bit goes from set to clear, and off exactly when it goes from clear to set |
| V0911AyToOpm.OnlyMixerKeys | v0.911/console_player/ay_to_opm.c:317-382 | no register write other than the mixer sends anything to the key register |
| V0911AyToOpm.Converter.constructor | v0.911/console_player/ay_to_opm.c:9-23 | the statics start zeroed with no callback installed, stereo mode ABC and the envelope at counter 0, period 1, shape 0, segment 0, level 0 |
| V0911AyToOpm.Converter.Init | v0.911/console_player/ay_to_opm.c:216-265 | the source and callback are recorded, the ratio is the source clock over the OPM clock, the divider 2 for an AY8910 and 4 otherwise, the shadow is cleared, then the current stereo mode's pans and the noise go out, then the voice set-up; the mode and the envelope are left as they were |
| V0911AyToOpm.Converter.SetUpChannels | v0.911/console_player/ay_to_opm.c:233-264 | the 13-write set-up of channels 4, 5 and 6 in turn, then the noise operator, through the callback if one is installed |
| V0911AyToOpm.Converter.SetStereoMode | v0.911/console_player/ay_to_opm.c:392-423 | the mode is recorded; with a callback installed the three channels' connection writes with the mode's pans and then the noise are sent, and without one nothing is |
| V0911AyToOpm.Converter.UpdateFreq | v0.911/console_player/ay_to_opm.c:83-89 | sends the key code and the key fraction shifted left by two to OPM channel `4 + ch` |
| V0911AyToOpm.Converter.ScanNoise | v0.911/console_player/ay_to_opm.c:92-120 | gives the loudest noise-enabled volume and whether some noise channel sounds left and some right |
| V0911AyToOpm.Converter.UpdateNoise | v0.911/console_player/ay_to_opm.c:91-141 | sends the inverted noise frequency, the noise channel's connection with the noise pan, and the noise TL of the loudest noise-enabled channel |
| V0911AyToOpm.Converter.UpdateTone | v0.911/console_player/ay_to_opm.c:143-169 | sends the carrier TL of OPM channel `4 + ch` under the waveform rule |
| V0911AyToOpm.Converter.RecalculateFreq | v0.911/console_player/ay_to_opm.c:267-309 | sends the pitch of channel `ch` from the envelope cycle or the tone period |
| V0911AyToOpm.Converter.RecalculateAll | v0.911/console_player/ay_to_opm.c:370-372 | sends the pitch of channels 0, 1 and 2 in turn |
| V0911AyToOpm.Converter.ResetSegment | v0.911/console_player/ay_to_opm.c:171-178 | the level becomes the start of the current segment |
| V0911AyToOpm.Converter.RetriggerEnvelope | v0.911/console_player/ay_to_opm.c:323-330 | the envelope becomes its retrigger for channel `ch` |
| V0911AyToOpm.Converter.UpdateEnvelope | v0.911/console_player/ay_to_opm.c:180-211 | the envelope takes one step of the v0.884 stepping function, keeping the converter valid; the envelope-mode channels' TLs are sent only when the step falls due |
| V0911AyToOpm.Converter.UpdateEnvelopeTones | v0.911/console_player/ay_to_opm.c:204-210 | sends the TL of each envelope-mode channel in channel order |
| V0911AyToOpm.Converter.WriteReg | v0.911/console_player/ay_to_opm.c:311-383 | a register above 15 changes nothing and sends nothing; otherwise the shadow takes the write and the envelope and the writes sent are the write's step |
| V0911AyToOpm.Converter.WriteTonePeriod | v0.911/console_player/ay_to_opm.c:317-330 | sends the channel's pitch and TL, then retriggers a one-shot envelope the channel uses |
| V0911AyToOpm.Converter.WriteAmplitude | v0.911/console_player/ay_to_opm.c:331-335 | sends the channel's TL, its pitch and the noise, with no key event |
| V0911AyToOpm.Converter.WriteMixer | v0.911/console_player/ay_to_opm.c:338-365 | sends each channel's key event in turn with the retriggers, then the three TLs and the noise |
| V0911AyToOpm.Converter.MixerKeys | v0.911/console_player/ay_to_opm.c:339-360 | the mixer loop leaves the envelope and the writes of the three channels' key events, in channel order |
| V0911AyToOpm.Converter.MixerChannel | v0.911/console_player/ay_to_opm.c:340-359 | one channel's key-on with its pitch, TL and retrigger, or its key-off, or nothing |
| V0911AyToOpm.Converter.WriteEnvelope | v0.911/console_player/ay_to_opm.c:366-382 | registers 11 and 12 set the period (at least 1), register 13 restarts the envelope with the new shape, and both resend the three pitches |
| V0915WsToOpm.PeriodOf | v0.915/console_player/ws_to_opm.c:125-144 | the period is the low three bits of the high register over the low register, except that the all-ones value 0x7FF becomes 2048, so it never exceeds 2048 and is never 0x7FF |
| V0915WsToOpm.PeriodToFreq | v0.915/console_player/ws_to_opm.c:62-65 | the frequency is never negative, and is 0 exactly for periods of 2048 and above |
| V0915WsToOpm.WsNote | v0.915/console_player/ws_to_opm.c:44-60 | the key fraction fits in 6 bits |
| V0915WsToOpm.MaxVol | v0.915/console_player/ws_to_opm.c:189 | the louder side's volume: one of the two, at least both, below 16 |
| V0915WsToOpm.NoiseFreq | v0.915/console_player/ws_to_opm.c:202-214 | the noise frequency is one of 2, 6, 12, 18, 22, 24, 26, 28, 29, 30 and 31 |
| V0915WsToOpm.NoiseFreqMonotone | v0.915/console_player/ws_to_opm.c:199-214 | a longer period never gives a higher OPM noise value |
| V0915WsToOpm.PanRules | v0.915/console_player/ws_to_opm.c:254-260 | a tone is panned left exactly when only its right side is silent, right exactly when only its left side is, and centred otherwise; a channel that should sound gives the noise the same pan |
| V0915WsToOpm.NoiseUpdate | v0.915/console_player/ws_to_opm.c:180-229 | in noise mode the channel ends active exactly when it should sound, with nothing else of its state changed |
| V0915WsToOpm.LevelOutOfVolumes | v0.915/console_player/ws_to_opm.c:294-305 | the pan and TL writes depend on the two volumes alone |
| V0915WsToOpm.KeyOnUpdate | v0.915/console_player/ws_to_opm.c:240-271 | a key-on keeps the channel state within its ranges |
| V0915WsToOpm.SustainUpdate | v0.915/console_player/ws_to_opm.c:275-306 | a sounding note's update keeps the channel state within its ranges |
| V0915WsToOpm.ToneUpdate | v0.915/console_player/ws_to_opm.c:231-306 | a tone update keeps the channel state within its ranges |
| V0915WsToOpm.ChannelUpdate | v0.915/console_player/ws_to_opm.c:171-307 | an update keeps the channel within its ranges and never changes its period, volumes or enable bit |
| V0915WsToOpm.UpdateAll | v0.915/console_player/ws_to_opm.c:163-166 | updating the channels in turn keeps all four within their ranges |
| V0915WsToOpm.Enabled | v0.915/console_player/ws_to_opm.c:159-161 | setting the enable bits keeps all four channels within their ranges |
| V0915WsToOpm.WriteStep | v0.915/console_player/ws_to_opm.c:121-168 | a register write keeps all four channels within their ranges |
| V0915WsToOpm.ToneKeyEvents | v0.915/console_player/ws_to_opm.c:240-274 | a tone channel is keyed on exactly when it should sound, was silent and has a period below 2048, and keyed off exactly when it was sounding and should not; it ends active exactly when it should sound and was sounding or had a frequency, so a key-on without a frequency leaves it silent |
| V0915WsToOpm.NoiseKeyEvents | v0.915/console_player/ws_to_opm.c:180-228 | in noise mode the tone part of channel 7 is keyed off first; the noise is keyed on and its frequency set exactly when the channel should sound, and otherwise only muted; the channel ends active exactly when it should sound |
| V0915WsToOpm.OnlyChannel3Noise | v0.915/console_player/ws_to_opm.c:174-176 | only channel 3 with bit 7 of register 0x10 set ever writes the OPM noise frequency |
| V0915WsToOpm.PitchResend | v0.915/console_player/ws_to_opm.c:276-292 | a sounding tone's pitch is resent exactly when the delay has run out, its period is below 2048 and its note changed; the new note is remembered, and otherwise the state is unchanged |
| V0915WsToOpm.BendDelay | v0.915/console_player/ws_to_opm.c:279 | with 32-bit arithmetic the pitch is followed from 4410 samples after the start, except that a note started within 4410 samples of the counter's wrap is followed at once |
| V0915WsToOpm.UpdateAllKeeps | v0.915/console_player/ws_to_opm.c:163-166 | updating channels keeps every period, volume and enable bit, and leaves the channels not yet updated as they were |
| V0915WsToOpm.WriteStepRegisters | v0.915/console_player/ws_to_opm.c:121-168 | a frequency register sets only its channel's period, a volume register only its channel's right (low nibble) and left (high nibble) volumes, register 0x10 every enable bit; registers 0x0C, 0x0D, 0x0F and above 0x10 change no channel and send nothing |
| V0915WsToOpm.Converter.constructor | v0.915/console_player/ws_to_opm.c:28-34 | the statics start zeroed: every channel state zero, the sample clock 0, no callback |
| V0915WsToOpm.Converter.Init | v0.915/console_player/ws_to_opm.c:71-114 | the source and callback are recorded, the ratio is the source clock over the OPM clock, the shadow, channel states and sample clock are zeroed with every channel enabled, and the set-up of channels 4 to 7 and the noise goes out through the callback if one is installed |
| V0915WsToOpm.Converter.Update | v0.915/console_player/ws_to_opm.c:310-315 | the sample clock advances by the samples given, modulo 2^32 |
| V0915WsToOpm.Converter.WriteReg | v0.915/console_player/ws_to_opm.c:116-169 | a register above 0x1F changes nothing and sends nothing; otherwise the shadow takes the write and the channel states and writes sent are the write's step |
| V0915WsToOpm.Converter.WriteControl | v0.915/console_player/ws_to_opm.c:158-167 | every enable bit is set from the data, then the four channels are updated in turn |
| V0915WsToOpm.Converter.SetEnables | v0.915/console_player/ws_to_opm.c:159-161 | bit i of the control value becomes channel i's enable flag, every other field kept |
| V0915WsToOpm.Converter.UpdateChannel | v0.915/console_player/ws_to_opm.c:171-307 | the channel becomes its update (the noise update for channel 3 in noise mode, the tone update otherwise) and the update's writes are sent |
| V0915WsToOpm.Converter.UpdateTone | v0.915/console_player/ws_to_opm.c:231-306 | outside noise mode the channel becomes its tone update (key-on, key-off, sustain or nothing, after muting the noise on channel 3) and its writes are sent |
| V0915WsToOpm.Converter.UpdateNoise | v0.915/console_player/ws_to_opm.c:180-229 | channel 3 becomes its noise update and the noise writes are sent |
| V0915WsToOpm.Converter.KeyOn | v0.915/console_player/ws_to_opm.c:240-271 | the channel becomes its key-on update and the key-on writes are sent |
| V0915WsToOpm.Converter.Sustain | v0.915/console_player/ws_to_opm.c:275-306 | the channel becomes its sounding-note update and those writes are sent |
| V0915WsToOpm.Converter.SendLevels | v0.915/console_player/ws_to_opm.c:294-305 | sends the pan and TL of a sounding tone |
| V0086Browser.DirOf | v0.86/console_player/browser.c:116-122 | the directory of a song path is the part before its last '/', else before its last '\\', else "." |
| V0086Browser.StartPath | v0.86/console_player/browser.c:113-123 | with no song or the song "None" the browser opens where it was last; otherwise in the song's directory |
| V0086Browser.GoUp | v0.86/console_player/browser.c:162-169 | Enter on ".." cuts the path at its last '/', so the result is a proper prefix followed by that '/', and gives "." when there is no '/' |
| V0086Browser.BackUp | v0.86/console_player/browser.c:182-192 | Backspace goes up as Enter on ".." does when the path has a '/' and more than one character, and otherwise keeps the path |
| V0086Browser.JoinLastSlash | v0.86/console_player/browser.c:172 | the '/' put between a path and a plain name is the last one of the joined path |
| V0086Browser.GoUpUndoesGoDown | v0.86/console_player/browser.c:161-173 | entering a directory and then ".." returns to the path the browser was in, "." included |
| V0086Browser.BackUpOfJoin | v0.86/console_player/browser.c:182-187 | Backspace after entering a directory also returns to where the browser was |
| V0086Browser.BackUpAtTop | v0.86/console_player/browser.c:184-189 | Backspace keeps a path with no '/' or of one character, where Enter on ".." goes to "." |
| V0086Browser.StartPathOfChosen | v0.86/console_player/browser.c:114-122 | opened again on the path it returned for a song, the browser starts in the directory that song was chosen in |
| V0086Browser.StartPathOfBareName | v0.86/console_player/browser.c:116-122 | a song path without any separator opens the browser in "." |
| V0086Browser.Clamp | v0.86/console_player/browser.c:85-87 | the page shown is below the page count, never negative, and unchanged when it already exists |
| V0086Browser.BlankTable | v0.86/console_player/browser.c:25 | the static entry table starts as 512 empty file entries |
| V0086Browser.Nav.constructor | v0.86/console_player/browser.c:25-33 | the browser starts in "." with a blank table, no entries, slot 0 selected, on page 0 |
| V0086Browser.Nav.Populate | v0.86/console_player/browser.c:44-81 | the entries kept from a listing overwrite the front of the table and set the count; slots beyond it keep an earlier listing's entries |
| V0086Browser.Nav.Display | v0.86/console_player/browser.c:85-87 | showing the list clamps the page below the page count |
| V0086Browser.Nav.Open | v0.86/console_player/browser.c:112-126 | opening moves to the song's directory and reads it, keeps the previous selection and clamps the previous page |
| V0086Browser.Nav.Up | v0.86/console_player/browser.c:137-140 | key 72 selects the previous entry, wrapping to the last, and shows its page |
| V0086Browser.Nav.Down | v0.86/console_player/browser.c:141-144 | key 80 selects the next entry, wrapping to the first, and shows its page |
| V0086Browser.Nav.Left | v0.86/console_player/browser.c:145-150 | key 75 moves to the previous page and selects its first slot, and does nothing on the first page |
| V0086Browser.Nav.Right | v0.86/console_player/browser.c:151-159 | key 77 moves to the next page and selects its first entry, which exists, and does nothing on the last page |
| V0086Browser.Nav.Enter | v0.86/console_player/browser.c:160-181 | Enter acts on the selected slot even when the list is empty: a file returns `path/name`; a directory moves up or down, rereads the list, selects slot 0 and only clamps the page |
| V0086Browser.Nav.Backspace | v0.86/console_player/browser.c:182-193 | Backspace moves to `BackUp` of the path, rereads the list, selects slot 0 and clamps the page |

## Left out

- Serial and USB I/O: the FTDI transport (`spfm_init`, `spfm_identify`, `spfm_reset`, `FT_*`) becomes a function from the bytes sent to a status and a count written.
- Files and directories: `fopen`, `fseek` and `fread` become a byte sequence with a cursor; `opendir`, `readdir` and `stat` become a listing passed in; the cache directory's `mkdir` is not modelled.
- Time: sleeping, spinning and timer callbacks are not modelled; `yasp_usleep` is modelled only as its split of a wait into a sleep and a spin.
- Threads, the keyboard loop's console output and screen rendering are not modelled.
- Floating point: the `log2` of the pitch formulas is a parameter, and the model starts after it. `isinf` has no counterpart, because reals have no infinity. The S98 scan's conversion of syncs to samples through `double` is not modelled, and the scan's result is the sync count.
- Memory: a failed `malloc` is not modelled.
- S98.Player.Step and S98.PassAt: operand bytes read past the end of the buffer (which C reads past the allocation) read as 0.
- Spfm.Interface.WaitAndWriteRegister takes the corrected wait of the Findings row: with the handle closed the C code still appends the 0x80 bytes and can overrun its 65536-byte buffer, which the class's fixed array cannot hold. The as-written wait is `Spfm.WaitAsWritten`, and `Spfm.ClosedWaitsOverrun` shows the overrun.
- V0888Ym2151.Ym2151.WriteReg sends the normalised transposition where the C code's single octave step can leave `keyIndexToCode` and read past it; `V0888Ym2151.PitchAgreesAsWritten` shows the two agree wherever the C code stays in the table.
- V0903VgmHeader.ReadHeaderBuffer returns a buffer cleared beyond the bytes read, where the C buffer holds indeterminate stack bytes; `V0903VgmHeader.HeaderIgnoresStale` shows the header read from it is the same whatever those bytes are.
- Util.ReadVarint: a shift of 64 or more is undefined in C; the model lets it wrap as the 64-bit value would.
- Spfm.Interface.WriteRegisters requires a wait no larger than the buffer, which the source does not check; with a larger wait the C code overruns the buffer.
- Browser.Nav.Enter and Browser.Nav.Backspace keep the entries in listing order. The `qsort` that follows is stated only through `Browser.CompareIsOrder`, because the order `qsort` leaves equal entries in is unspecified.
- Browser.Nav.Up and Browser.Nav.Down require a non-empty list; on an empty list the source divides by zero.
- V0086Browser.Nav.Up and V0086Browser.Nav.Down require a non-empty list; on an empty list the source divides by zero.
- V0086Browser.Nav.Populate keeps the entries in listing order; the `qsort` that follows is stated only through `Browser.CompareIsOrder`.
- V0086Browser.GoDown: going down writes `path/name` into the buffer it reads `path` from; the model gives the result that copy intends.
- V0086Browser.Nav: the screen output of `display_file_list` and the key reading of `get_single_char` are I/O; only the page clamp is modelled.
- Browser: when `opendir` fails, the browser falls back to "." and the drive list of Windows; neither is modelled, because both depend on the file system.
- Play.PlayFileV0911: the value `vgm_play` returns is ignored by the source, so it is not a parameter.
- S98: `addr & 0x100` is always 0 for the byte `addr`, so the port of a write is always 0; this is stated as a property instead of modelled as a computation.
- V0915VgmParser: argument parsing, the conversion of the `-s` and `-e` seconds to samples through `double`, and the text of each line (command names, operand bytes) are not modelled. The window is given in samples, and a line keeps its time in samples, its offset, its opcode and whether it was cut off.
- V0915VgmParser.SkipBlock: a size field cut short by the end of the file counts as 0, where `fread` leaves it partly filled; the next read ends the walk either way, so no line depends on it.
- V0903VgmParser: the `-start` and `-end` seconds become samples through `double`; the window is given in samples, and the end test on seconds becomes a test of the total against the end sample. The printed text is not modelled: a line keeps its total and its opcode.
- V0903VgmParser.GetBytes: the two `fgetc` calls inside one compound literal may run in either order in C; the model reads them in order.
- V0888VgmParser: `print_header` and `main` only print the header and are not modelled. The header reader never reads `gd3_offset` or the reserved bytes, which keep the 0 of the initial `memset`. The bytes of the uncleared header buffer are a parameter.
- V0084Vgm: pausing (its 100 ms sleeps), `update_ui` and the log messages are not modelled. The next- and previous-track flags, set by the keyboard thread, become a number of passes after which the loop ends.
- V0084Vgm.AdpcmBlock: the OKIM6258 data of a type-0x04 block is recorded as a write of the raw bytes at the start address, where the source writes the result of decoding and re-encoding them (modelled apart in `Adpcm`); a failed decode or encode, which writes nothing, is not modelled.
- V0086Vgm: the performance counter, the multimedia timer, the speed multiplier and `double` rounding are not modelled. The samples due at each pass are a parameter, and the backlog is a real. Pausing and the flags that end the loop (next, previous, stop, quit) become the number of entries of that parameter.
- V0086Vgm.Drain: the inner loop processes at most a given number of commands, where the source keeps going; a stream whose loop holds no wait would make the source spin forever.
- V0084Vgm.Playback.ParseHeader: a seek to the data start never fails, because the offset is never negative; a seek past the end leaves the next read empty.
- V0087VgmCache: the conversion path of v0.87's `vgm_play` (reading the file into memory, opening the cache, copying the GD3 block, reopening the cache) is v0.903's with a different converter, so it is not modelled again; the transcoder behind `OpnCall` is the OPN-to-OPM module's concern.
- V0087VgmCache.WaitReemitted: the wait is written with `fwrite` of a `uint16_t`, which the model takes to be little-endian as on the player's hosts.
- V0087VgmCache: the playback thread of v0.87 (process a command, then sleep its samples scaled by the speed multiplier) is a sleep loop around `vgm_process_command` and is not modelled.
- V0915OpnToOpm.Transcoder.Init: the clock ratio `OPM_CLOCK / get_chip_default_clock(YM2151)` is a parameter, because the default-clock table is not part of this model; the unused `_opm_slot` lookup is left out.
- V0915OpnToOpm.NoteOf: the `isinf` test is left out, because the frequency of a register pair is always finite here.
- V0915OpnToOpm.ScaledPms: a product of 256 or more, for which C's conversion to `uint8_t` is undefined, is taken modulo 256.
- V0915OpnToOpm.Transcoder: `g_opn_lfo_amplitude` is a field of the transcoder; the key handler that adjusts it is part of the user interface.
- V0087SnToAy.Converter.Init: `sn_to_ay_init`'s chip type and clock arguments are unused by the C code and are left out; the AY-to-OPM transcoder it initialises is recorded as a call, not modelled.
- V0888Ym2151.Ym2151.Init: `log2` is a parameter of the class, the hardware clock (`get_chip_default_clock(CHIP_TYPE_YM2151)`) a parameter that must be positive, and the log message is left out.
- V0888Ym2151.Ym2151.WriteReg: the flags `g_opn_to_opm_conversion_enabled` and `g_flush_mode` are parameters; the clock ratio is an exact real rather than a double.
- V0087AyToOpm.Converter.Init: `get_slot_for_chip` and the slot passed to `ym2151_write_reg` are left out (every call goes to the one YM2151); the OPM default clock is a positive parameter, and the pitch conversion's `log2` a parameter of the class.
- V0087AyToOpm.Converter.WriteReg: requires `ay_to_opm_init` to have run, since before it the divider is 0 and the C code divides by it.
- V0884AyToOpm.Converter.Init: the write callback is modelled as a flag and a record of the writes it receives; `get_slot_for_chip` is left out; the OPM default clock is a positive parameter.
- V0884AyToOpm.ToneNote: `isinf` has no counterpart, since the model's frequencies are exact reals.
- V0888AyToOpm.Converter.Init: as in v0.884, the write callback is a flag plus a record of its writes, and the OPM default clock a positive parameter.
- V0911AyToOpm.Converter.Init: as in v0.884, the write callback is a flag plus a record of its writes, and the OPM default clock a positive parameter.
- V0915WsToOpm.Converter.Init: the write callback is a flag plus a record of its writes, the OPM default clock a positive parameter, and the debug log line is left out.
- V0915WsToOpm.WsNote: `12·log2` is the `OpmPitch.Semitones` parameter, so the note is only known to have a 6-bit key fraction.

## Findings

| source | as written | input that shows it | evidently intended | confidence | as-written member | corrected member |
|---|---|---|---|---|---|---|
| v0.83/console_player/adpcm.c:68 | `out << 4` is stored in an `int16_t` and wraps | the bytes 77 77 77: the accumulator reaches 2424 and the stored sample is -26752 | the sample saturates at the 16-bit bounds and keeps the accumulator's sign | high, not executed | Adpcm.DecodeWrapsAsWritten | Adpcm.DecSampleSaturates |
| v0.83/console_player/spfm.c:35-53 | after cleanup the type stays SPFM_Light with no handle, so waits keep appending 0x80 bytes while the flush does nothing | 7282 waits of 9 samples after cleanup pass the 65536-byte buffer | hardware waits are buffered only while a handle is open | high, not executed | Spfm.ClosedWaitsOverrun | Spfm.WaitAndWriteFits |
| v0.903/console_player/vgm.c:112-139 | the extended header is read into an uninitialised buffer, and a short read leaves stale bytes in it | a 0x40-byte file claiming version 1.51 | bytes the file does not have read as 0 | high, not executed | V0903VgmHeader.StaleBytesReachHeader | V0903VgmHeader.ParsedHeaderIsPadded |
| v0.903/console_player/vgm.c:348-350 | the data size is the header's claimed end less the data offset, never checked against the file | a 0x80-byte file whose eof field claims 0x1000 bytes | the data stops at the end of the file | high, not executed | V0903VgmCache.DataSizeOverrunsFile | V0903VgmCache.SongDataAgreesOnWholeFiles |
| v0.903/console_player/vgm.c:353-361 | the GD3 block's length is read, and the block copied, wherever the 0x14 field points | a 0x80-byte file whose 0x14 field is 0x1000 | the block is copied only when it lies inside the file | high, not executed | V0903VgmCache.Gd3LengthOutsideFile | V0903VgmCache.Gd3Block |
| v0.911/console_player/play.c:331-335 | the length of a run of 0x01 bytes is counted in a `uint8_t` | a run of 256 0x01 bytes counts 0 syncs | the run counts its full length | high, not executed | Play.RunCounterWraps | Play.ScanS98 |
| v0.903/vgm_parser.c:58-181 | the switch skips no operand after 0x50..0x53, one after 0xB0..0xBF and 0x40..0x4E, and two after 0xC0..0xC4, against the VGM format's lengths | the bytes 0x52 0x62 0x00 0x66, a YM2612 write of 0 to register 0x62, count 735 samples | every opcode skips the operands the format gives it (the lengths of the v0.915 table), so the write adds nothing | medium, not executed | V0903VgmParser.AsWrittenMiscounts | V0903VgmParser.WalkSong |
| v0.87/console_player/vgm.c:429-432 | an opcode the converter does not know is consumed alone, so the operand bytes of 0x50, 0x54, 0xA0 and the like are read as opcodes | 50 80 61 10 00: the SN write's data byte 0x80 swallows the 0x61 of a 16-sample wait, and the cache loses the wait | every command is stepped over with the operands the format gives it (the lengths of the v0.915 table) | high, not executed | V0087VgmCache.OperandReadAsOpcode | V0087VgmCache.IntendedConvertsSong |
| v0.87/console_player/vgm.c:423-425 | a data block is stepped over by its seven header bytes only, whatever its size field says | 67 66 00 01 00 00 00 66 62: the block's sample byte 0x66 is copied to the cache as an end marker | the walk steps over the whole block, as v0.903's builder does | high, not executed | V0087VgmCache.BlockBytesReadAsCommands | V0087VgmCache.IntendedSkipsBlock |
| v0.888/console_player/ym2151.c:34-49 | one borrow or carry of an octave, then `keyIndexToCode[newKey >> 8]` | key difference -3073 on key code 0x10, key fraction 0: the key after the borrow is -1 and the table is read at index -1 | the key is brought into one octave (or clamped at octave 0 or 7) before the table is read | high, not executed | V0888Ym2151.TableIndexOverrun | V0888Ym2151.PitchShifts |
