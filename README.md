# AWG control stack, modelled in Dafny

This project models the software that drives a two-channel, eight-tone
arbitrary waveform generator (AWG) on a Zynq board. Every layer of the
stack ends in the same 32-bit control word. The word has:

- a 4-bit command (1 = phase-table index, 2 = gain, 0xF = commit);
- a 1-bit channel;
- a 3-bit tone;
- four zero bits;
- a 20-bit payload.

The word is written to a GPIO data bus and latched by a write-enable
(WEN) strobe.

What is modelled:

- **Control word** (`ControlWord`, `Words`): packing, field extraction,
  the zero-output and zero-gain frames, and big-endian byte order.
- **Cores** (`AwgCores`, `GpioLines`). These are the two memory-mapped C
  cores, the libgpiod C core, and the Python cores that push words onto
  the bus. The bus is a class whose latched words and strobes are fields.
- **Hex codecs** (`HexCodec`, `HexFrames`). These cover the four hex
  block strings that `awg_send_hex4` takes per frame (an index block and
  a gain block for each channel). An index block holds a 3-digit field per
  tone, and a gain block holds an 18-digit field per tone, of which only the
  low 5 digits are read. The codecs also cover the hex frames built by
  the UDP, WebSocket and C test clients.
- **The queue engines.**
  - `FrameStore` holds the two frame lists.
  - `QueueProtocol` holds the byte protocol: commands, and the Q and S
    replies.
  - `QueueEngine` / `QueueEngineSpec` model `petalinux_web/awg_server_raw_queue.c`.
  - `RawQueueEngine` / `RawQueueSpec` model the variant in `awg_raw_tcp/`.

  Each engine is a class whose methods are proved equal to a step
  function on an abstract state. The properties are proved about those
  step functions.
- **Notifications** (`Notify`, `QueueListener`): the status-update
  deduplication of the notifying server, and the client that listens
  for it.
- **Python front ends** (`PyText`, `PyForms`, `PyAwg`). These cover the
  JSON/form normalisers of `awg_server_python.py` and `awg_apply.py`,
  Python's `int()` on text, the table-to-word builders, and the LED
  toggler's GPIO line logic.
- **Clients** (`QueueClients`, `QueueSessions`, `RawClients`). These are
  the encoders and decoders of the queue test clients, and the command
  sessions they send.

The engines keep the code as written. Where the code departs from what
its own comments promise, the corrected definition sits beside the
as-written one, with the intended property proved about it (see
"## Findings").

Sockets, sleeps, threads and the hardware itself are not modelled. They
are replaced by parameters or by event sequences; see "## Left out".

## Model

| member | source | states |
|---|---|---|
| Words.ToBE | petalinux_web/awg_server_raw_queue.c:453-458 | an n-byte big-endian store of a value leaves exactly n bytes |
| Words.FromBE | petalinux_web/awg_server_raw_queue.c:385-390 | the value read from an n-byte big-endian field is below 256^n |
| Words.FromToBE | petalinux_web/awg_server_raw_queue.c:474-477 | reading back a big-endian store gives the value reduced modulo 256^n, the truncation of a fixed-width field |
| Words.ToFromBE | petalinux_web/awg_server_raw_queue.c:385-390 | re-encoding the value decoded from a byte string gives the same bytes |
| Words.RoundTripFits | petalinux_web/awg_server_raw_queue.c:453-458 | a value that fits its field round-trips exactly |
| Words.ToBEAt | petalinux_web/awg_server_raw_queue.c:474-477 | byte k of the encoding is `(x >> (8*(n-1-k))) & 0xFF`, the shift-and-mask loop of the stats reply |
| Words.FromBEConcat | petalinux_web/awg_raw_tcp/test_awg_raw_queue.py:90-98 | the value of a concatenation is the front's value shifted left by the back's width plus the back's value, so fields can be read off one at a time |
| ControlWord.UnpackPack | petalinux_web/awg_raw_tcp/awg_server_raw_queue.c:32-38 | unpacking a packed word returns each input masked to its width (4, 1, 3, 20 bits), and bits 23..20 are zero |
| ControlWord.PackUnpack | petalinux_web/awg_raw_tcp/awg_server_raw_queue.c:32-38 | a word with zero reserved bits is rebuilt by packing its own fields, so packing is onto the well-formed words |
| ControlWord.CommitWordFields | petalinux_web/awg_raw_tcp/awg_server_raw_queue.c:38 | the commit word has command 0xF and every other field zero |
| ControlWord.ZeroOutputWords | petalinux_web/awg_server_raw_queue.c:213-231 | the zero-output sequence has 17 words |
| ControlWord.ZeroOutputWordsFields | petalinux_web/awg_server_raw_queue.c:213-231 | word 8*ch+tone is a gain word with payload 0 for that channel and tone, channel 0 first, and word 16 is the commit |
| ControlWord.BuildZeroOutput | petalinux_web/awg_raw_tcp/awg_core_mmap.c:259-280 | the channel loop around the tone loop fills the 17-word buffer with exactly the zero-output sequence |
| ControlWord.ZeroGainFrame | petalinux_web/awg_raw_tcp/awg_server_raw_queue.c:40-67 | the zero-gain frame has 33 words |
| ControlWord.ZeroGainFrameFields | petalinux_web/awg_raw_tcp/awg_server_raw_queue.c:40-67 | word 2k sets the index of tone k%8 on channel k/8 to 0, word 2k+1 sets its gain to 0, and the last word is the commit |
| AwgCores.WenEdgeLevels | petalinux_web/awg_raw_tcp/awg_core_mmap.c:149-158 | the `on` value drives WEN bit 0 to the active level and the `off` value to the inactive one; both keep every other bit of the register that was read |
| AwgCores.WenEdgeSteady | petalinux_web/awg_raw_tcp/awg_core_mmap.c:149-158 | after one edge the register rests at the inactive level, so every later edge writes the same two values as the first |
| AwgCores.WenStrobes | petalinux_web/awg_raw_tcp/awg_core_mmap.c:149-158 | k edges write 2k register values |
| AwgCores.WenStrobesAdd | petalinux_web/awg_raw_tcp/awg_core_mmap.c:149-158 | a edges followed by b edges, starting where the first a left the register, are the same writes and final register as a+b edges |
| AwgCores.WenChain | petalinux_web/awg_raw_tcp/awg_core_mmap.c:251-254 | a recorded history of strobes extended by b more edges equals the history extended by a+b edges |
| AwgCores.WenStrobesAt | petalinux_web/awg_raw_tcp/awg_core_mmap.c:149-158 | in any run of edges, even-numbered writes are the active level and odd-numbered writes the inactive level |
| AwgCores.MmapCore.constructor | petalinux_web/awg_raw_tcp/awg_core_mmap.c:161-196 | a core starts with the given mapping state and WEN register and no writes on either bus |
| AwgCores.MmapCore.WenEdge | petalinux_web/awg_raw_tcp/awg_core_mmap.c:149-158 | one edge appends the active then the inactive level, computed from the register value read, and leaves the data bus alone |
| AwgCores.MmapCore.Emit | petalinux_web/awg_raw_tcp/awg_core_mmap.c:145-158 | one word appended to the data bus and one edge to WEN |
| AwgCores.MmapCore.EmitAll | petalinux_web/awg_raw_tcp/awg_core_mmap.c:251-254 | each word in order on the data bus, with exactly one edge per word |
| AwgCores.MmapCore.SendIndexBlock | petalinux_web/awg_raw_tcp/awg_core_mmap.c:214-218 | one channel's index loop writes that channel's 8 index words (each tone's 3 hex digits, masked to 20 bits) with 8 edges |
| AwgCores.MmapCore.SendGainBlock | petalinux_web/awg_raw_tcp/awg_core_mmap.c:219-223 | one channel's gain loop writes that channel's 8 gain words (the low 5 hex digits of each tone's 18) with 8 edges |
| AwgCores.MmapCore.SendHex4 | petalinux_web/awg_raw_tcp/awg_core_mmap.c:206-242 | -1 when the registers are unmapped, -2 when a block pointer is null, and no write in either case; 0 exactly when mapped with all four blocks present, and then the 33 words of the hex4 frame, each strobed once |
| AwgCores.MmapCore.SendWords32 | petalinux_web/awg_raw_tcp/awg_core_mmap.c:245-256 | -1 when unmapped and -2 for a null array or count <= 0, with no write; otherwise exactly the first count words, in order, each strobed once, with no commit added |
| AwgCores.MmapCore.SendWords32Fixed | petalinux_web/awg_core_mmap.c:245-258 | -2 unless count is exactly 32, with no write; otherwise the 32 words followed by one commit, 33 strobes |
| AwgCores.FixedCoreRefusesZeroOutput | petalinux_web/awg_server_raw_queue.c:213-232 | the 17 words `send_zero_output` passes to the top-level core's `awg_send_words32` come back -2, and no word reaches the DATA register |
| AwgCores.FixedCoreRefusesFrame | petalinux_web/awg_core_mmap.c:245-250 | the top-level core refuses with -2, writing nothing, every frame whose length is not exactly 32, so every queue-server tick frame of another length as well |
| AwgCores.FlexibleCoreSendsZeroOutput | petalinux_web/awg_raw_tcp/awg_core_mmap.c:245-255 | the awg_raw_tcp core takes the same 17 words with 0 and writes exactly the zero-output sequence, one strobe per word |
| AwgCores.MmapCore.ZeroOutput | petalinux_web/awg_raw_tcp/awg_core_mmap.c:259-280 | -1 with no write when unmapped; otherwise 0, the 17-word zero-output sequence on the bus, and 17 edges |
| AwgCores.IndexWordAt | petalinux_web/awg_raw_tcp/awg_core_mmap.c:214-218 | the word the index loop builds for tone t is word t of the channel's index words |
| AwgCores.GainWordAt | petalinux_web/awg_raw_tcp/awg_core_mmap.c:219-223 | the word the gain loop builds for tone t is word t of the channel's gain words |
| AwgCores.LinesOf | petalinux_web/awg_core_libgpiod.c:121-124 | one line vector per word written, and each line vector decodes back to its word |
| AwgCores.StrobesAdd | petalinux_web/awg_core_libgpiod.c:126-135 | a WEN line strobes followed by b strobes are a+b strobes |
| AwgCores.GpiodCore.constructor | petalinux_web/awg_core_libgpiod.c:137-196 | a core starts with the given request state, a 32-entry value buffer and no writes |
| AwgCores.GpiodCore.MapWordToValues | petalinux_web/awg_core_libgpiod.c:81-85 | line i is ACTIVE exactly when bit i of the word is set, for all 32 lines |
| AwgCores.GpiodCore.Emit | petalinux_web/awg_core_libgpiod.c:121-135 | the word's 32 line values are set on the data lines, then WEN goes active and back |
| AwgCores.GpiodCore.SendIndexBlock | petalinux_web/awg_core_libgpiod.c:214-218 | one channel's 8 index words, as line vectors, with 8 strobes |
| AwgCores.GpiodCore.SendGainBlock | petalinux_web/awg_core_libgpiod.c:219-223 | one channel's 8 gain words, as line vectors, with 8 strobes |
| AwgCores.GpiodCore.SendHex4 | petalinux_web/awg_core_libgpiod.c:206-241 | the same guards and codes as the mmap core (-1 not requested, -2 null block, no write on failure), and on success the lines of the same 33 words with 33 strobes |
| FrameStore.GrowFromSteps | petalinux_web/awg_server_raw_queue.c:178-187 | the growth loop ends at a capacity of at least `want`, reached from the start by whole 4096-word steps, and the step before it was still short |
| FrameStore.GrownCapMeaning | petalinux_web/awg_server_raw_queue.c:178-187 | after `ensure_words_cap` the capacity covers `want`. It is unchanged when it already did. Otherwise it grows from the old capacity (4096 when there was none) by whole 4096-word steps to the first step that suffices |
| FrameStore.PushedOk | petalinux_web/awg_server_raw_queue.c:190-203 | an accepted push keeps the list well formed (no more frames than announced, 1..64 words each, packed without gaps into the buffer). It adds exactly this frame at the end, leaves the earlier frames unchanged and frees one slot |
| FrameStore.BeginsAreOk | petalinux_web/awg_server_raw_queue.c:365-376 | a begin (keeping the word buffer), a prepare and a clear each leave a well-formed list with no frame loaded, and the begin frees exactly `total` slots |
| FrameStore.SumLensZeroGain | petalinux_web/awg_raw_tcp/awg_server_raw_queue.c:189-201 | n zero-gain frames occupy 33n words |
| FrameStore.ZeroGainLoadedOk | petalinux_web/awg_raw_tcp/awg_server_raw_queue.c:189-201 | a completed zero-gain load holds exactly n frames, each the zero-gain frame, and is ready with no free slot |
| FrameStore.GrowCapacity | petalinux_web/awg_server_raw_queue.c:181-183 | the `while (cap < want)` loop returns the capacity `ensure_words_cap` is specified to reach |
| FrameStore.CopyInto | petalinux_web/awg_server_raw_queue.c:195-196 | the `memcpy` puts the frame at the offset and moves no other word of the buffer |
| FrameStore.SliceFrames | petalinux_web/awg_server_raw_queue.c:109-122 | the first n frames that the offset and count tables lay out in the word buffer, n of them |
| FrameStore.SliceFramesPrefix | petalinux_web/awg_server_raw_queue.c:184-185 | frames that lie inside the used words read the same after `realloc`, which keeps those words |
| FrameStore.SliceFramesSnoc | petalinux_web/awg_server_raw_queue.c:198-201 | recording one more offset and count, with the earlier table entries unchanged, adds exactly that frame at the end |
| FrameStore.FrameList.Frame | petalinux_web/awg_server_raw_queue.c:264-267 | the words the player reads for frame f (`words + offsets[f]`, `counts[f]` of them) are the f-th loaded frame |
| FrameStore.FrameList.constructor | petalinux_web/awg_server_raw_queue.c:205-210 | a zeroed list: nothing announced, nothing loaded, no buffers |
| FrameStore.FrameList.Clear | petalinux_web/awg_server_raw_queue.c:152-159 | `free_list` / `clear_list_fully` leave the empty list: every field zero, not ready, no capacity |
| FrameStore.FrameList.ForgetFrames | petalinux_web/awg_server_raw_queue.c:369-371 | nothing loaded, no word used and not ready; the announced total and the capacity stay |
| FrameStore.FrameList.NewTables | petalinux_web/awg_server_raw_queue.c:168-176 | fresh offset and count tables sized for `total` frames; nothing else changes |
| FrameStore.FrameList.DropWords | petalinux_web/awg_raw_tcp/awg_server_raw_queue.c:137-143 | the word buffer is freed, leaving capacity 0 and everything else as it was |
| FrameStore.FrameList.BeginKeepWords | petalinux_web/awg_server_raw_queue.c:365-376 | `do_preload_begin` after its checks: `total` slots, nothing loaded, not ready, and the word capacity kept for reuse |
| FrameStore.FrameList.SetReady | petalinux_web/awg_server_raw_queue.c:412-430 | only the ready flag changes, to true |
| FrameStore.FrameList.SetMaxFrames | petalinux_web/awg_server_raw_queue.c:355-363 | only the INIT hint changes |
| FrameStore.FrameList.Prepare | petalinux_web/awg_raw_tcp/awg_server_raw_queue.c:146-160 | succeeds exactly when both `calloc`s do. Success leaves an empty list announcing `total` frames; failure leaves the fully cleared list |
| FrameStore.FrameList.EnsureWordsCap | petalinux_web/awg_server_raw_queue.c:178-187 | succeeds exactly when the buffer already has room or the `realloc` succeeds. On success the capacity is the grown capacity. On failure the buffer is untouched. The frames and tables never change |
| FrameStore.FrameList.PushFrame | petalinux_web/awg_server_raw_queue.c:190-203 | accepts exactly when a slot is left, the frame has 1..64 words and the buffer has or gets room. Acceptance appends the frame at the old `words_used` and records its offset and count; refusal changes nothing |
| FrameStore.FrameList.Append | petalinux_web/awg_server_raw_queue.c:194-202 | the copy and the bookkeeping of `push_frame`: the frame lands at `words_used`, and its offset and count are recorded at `loaded_frames` |
| FrameStore.FrameList.LoadZeroGain | petalinux_web/awg_raw_tcp/awg_server_raw_queue.c:189-201 | succeeds exactly when the tables are allocated and (for n > 0) the word buffer can grow. Success leaves n zero-gain frames, ready; any failure leaves the cleared list |
| FrameStore.FrameList.PushZeroGains | petalinux_web/awg_raw_tcp/awg_server_raw_queue.c:193-198 | the push loop fills the prepared list with n zero-gain frames, or clears the list when a push fails |
| GpioLines.Lines | petalinux_web/awg_core.py:63-64 | the first n line values of a word, one per line |
| GpioLines.WordToLines | petalinux_web/awg_core.py:63-64 | `_write_word` drives exactly 32 data lines |
| GpioLines.LinesToWord | petalinux_web/awg_apply.py:119-125 | the word latched from n line values (line i weighing 2^i) is below 2^n |
| GpioLines.WordLinesRoundTrip | petalinux_web/awg_core.py:63-64 | reading the 32 lines back gives the word, so the bus carries every bit of it |
| GpioLines.LinesOfLinesToWord | petalinux_web/awg_core_libgpiod.c:81-85 | driving the lines of a latched value reproduces the same line values |
| GpioLines.LineBus.constructor | petalinux_web/awg_apply.py:100-109 | freshly requested lines carry no writes |
| GpioLines.LineBus.Latched | petalinux_web/awg_apply.py:119-125 | one latched word per data write |
| GpioLines.LineBus.WriteWord | petalinux_web/awg_apply.py:119-125 | one `set_values` call of the word's 32 line values; the latched words grow by exactly that word and WEN is untouched |
| GpioLines.LineBus.WenEdge | petalinux_web/awg_apply.py:111-117 | WEN is set to the active level and then to the inactive one (ACTIVE then INACTIVE when active-high, the reverse when active-low); the data lines are untouched |
| GpioLines.LineBus.WenPulse | petalinux_web/awg_apply.py:111-117 | `wen_pulse` raises exactly when the pulse width is negative (`time.sleep` refuses it), and then WEN is left at its active level; otherwise the active level then the inactive one; the data lines are untouched |
| GpioLines.Strobes | petalinux_web/awg_core.py:54-61 | k strobes write 2k values on WEN, alternating the active and the inactive level |
| HexCodec.NibbleValue | petalinux_web/awg_raw_tcp/awg_core_mmap.c:130 | the value of a hex digit, computed as `(c <= '9') ? c - '0' : (c \| 32) - 'a' + 10`, is below 16 |
| HexCodec.NibbleValueMeaning | petalinux_web/awg_raw_tcp/awg_core_mmap.c:130 | that expression gives the usual value of a digit of either case: '0'..'9' to 0..9, and 'a'..'f' and 'A'..'F' to 10..15 |
| HexCodec.HexValue | petalinux_web/awg_raw_tcp/awg_core_mmap.c:126-134 | n hex digits have a value below 16^n |
| HexCodec.ShiftInNibble | petalinux_web/awg_raw_tcp/awg_core_mmap.c:131 | the 32-bit step `v = (v << 4) \| h` equals shifting in the digit and reducing modulo 2^32 |
| HexCodec.ParseHexN | petalinux_web/awg_raw_tcp/awg_core_mmap.c:126-134 | `parse_hex_n` returns the base-16 value of the n digits reduced to 32 bits |
| HexCodec.HexValueFits | petalinux_web/awg_raw_tcp/awg_core_mmap.c:126-134 | at most eight digits never overflow the accumulator |
| HexCodec.FieldBounds | petalinux_web/awg_raw_tcp/awg_core_mmap.c:137-142 | an index field is at most 0xFFF and a gain field at most 0xFFFFF, so the later `& 0xFFFFF` never changes them |
| HexCodec.GainIgnoresPrefix | petalinux_web/awg_raw_tcp/awg_core_mmap.c:140-142 | the first 13 characters of an 18-digit gain field have no effect on its value |
| HexCodec.ParseIdx3 | petalinux_web/awg_raw_tcp/awg_core_mmap.c:137-139 | `parse_idx3_fast` returns the value of the three digits, at most 0xFFF |
| HexCodec.ParseGain18Low5 | petalinux_web/awg_raw_tcp/awg_core_mmap.c:140-142 | `parse_gain18_low5_fast` returns the value of the five digits at offset 13, at most 0xFFFFF |
| HexCodec.IndexWords | petalinux_web/awg_raw_tcp/awg_core_mmap.c:214-218 | one index word per tone, 8 of them |
| HexCodec.GainWords | petalinux_web/awg_raw_tcp/awg_core_mmap.c:219-223 | one gain word per tone, 8 of them |
| HexCodec.Hex4Words | petalinux_web/awg_raw_tcp/awg_core_mmap.c:206-242 | `awg_send_hex4` streams 33 words |
| HexCodec.IndexWordsFields | petalinux_web/awg_raw_tcp/awg_core_mmap.c:214-218 | index word t of a block reads back as command 1, the channel, tone t and the value of the tone's three digits |
| HexCodec.GainWordsFields | petalinux_web/awg_raw_tcp/awg_core_mmap.c:219-223 | gain word t of a block reads back as command 2, the channel, tone t and the value of the last five digits of the tone's 18 |
| HexCodec.PackFields | petalinux_web/awg_raw_tcp/awg_core_mmap.c:110-121 | a word packed from fields that fit reads back exactly those fields |
| HexCodec.Hex4WordsFields | petalinux_web/awg_raw_tcp/awg_core_mmap.c:206-242 | word k of the 33 read back field by field is: channel A index tone k (k < 8), A gain tone k-8, B index tone k-16, B gain tone k-24, then the commit |
| HexFrames.Digit | petalinux_web/test_awg.c:31 | the digit `%X` writes for a nibble is a hex digit whose value is the nibble |
| HexFrames.HexDigits | petalinux_web/test_awg_udp_c.py:8 | `format(n, 'X')` yields at least one digit, all of them hex |
| HexFrames.HexDigitsValue | petalinux_web/test_awg_udp_c.py:8 | the upper-case digits of n read back as n |
| HexFrames.HexDigitsLength | petalinux_web/test_awg_udp_c.py:8 | n takes at most k digits exactly when n < 16^k |
| HexFrames.HexValueLeadingZeros | petalinux_web/test_awg.c:31 | zero padding in front does not change the value of a digit string |
| HexFrames.Pad | petalinux_web/test_awg.c:31 | the `0` flag pads to the width and never shortens |
| HexFrames.Hex03 | petalinux_web/test_awg.c:31 | `%03X` of a non-negative number is at least three hex digits |
| HexFrames.Hex03Value | petalinux_web/test_awg.c:31 | a number below 0x1000 takes exactly three digits, which read back as the number |
| HexFrames.Format03 | petalinux_web/test_awg_udp_c.py:8 | Python's `f"{v:03X}"` is at least three characters wide |
| HexFrames.Format03Width | petalinux_web/test_awg_udp_c.py:8 | the field is exactly three characters wide exactly for -0xFF..0xFFF |
| HexFrames.Format03Negative | petalinux_web/test_awg_udp_c.py:8 | a negative index is written with a leading '-', which is not a hex digit |
| HexFrames.Rep | petalinux_web/test_awg_udp_c.py:15 | Python `x * n` on a string has n times the length |
| HexFrames.IdxPeak | petalinux_web/test_awg_udp_c.py:6-9 | an index block holding v on tone 0 and "000" on tones 1..7 is well formed and carries v, then seven zeros |
| HexFrames.GainPeak | petalinux_web/test_awg_udp_c.py:11-15 | a gain block holding the five digits at offset 13 of tone 0, and zeros elsewhere, is well formed and carries their value, then seven zeros |
| HexFrames.Peak | petalinux_web/test_awg_udp_c.py:6-9 | a tone table with v on tone 0 and zero on tones 1..7 |
| HexFrames.GainHex | petalinux_web/test_awg_udp_c.py:11-15 | `gain_hex()` is 144 characters long |
| HexFrames.FramesDefined | petalinux_web/test_awg_udp_c.py:17-24 | `assert len(frame) == 336` passes exactly for indices -0xFF..0xFFF. The WebSocket client's `build_frame(i)` equals the UDP client's `build_frame(i, i)` |
| HexFrames.PeakWords | petalinux_web/test_awg_udp_c.py:17-24 | the 33 words meant by a single-peak frame |
| HexFrames.UdpFrameWords | petalinux_web/test_awg_udp_c.py:17-24 | for indices 0..0xFFF the frame's four slices are well-formed blocks. `awg_send_hex4` streams for them each index with full gain on tone 0 of its channel, zero on every other tone, then the commit |
| HexFrames.FrameSlices | petalinux_web/test_awg_udp_c.py:22 | the slices 0..24, 24..168, 168..192 and 192..336 of the frame are its four blocks |
| HexFrames.IdxHexBlock | petalinux_web/test_awg_udp_c.py:6-9 | `idx_hex(v)` for v in 0..0xFFF is a block holding v on tone 0 and zero elsewhere |
| HexFrames.GainHexBlock | petalinux_web/test_awg_udp_c.py:11-15 | `gain_hex()` is a block holding full gain 0x1FFFF on tone 0 and zero elsewhere |
| HexFrames.WsFrameWords | petalinux_web/awg_ws/test_awg_ws_c.py:10-23 | the WebSocket frame for an index in 0..0xFFF makes the core stream that index with full gain on tone 0 of both channels, and zero elsewhere |
| HexFrames.CopyAt | petalinux_web/test_awg.c:38 | `memcpy(p, piece, n)` writes the piece at p and keeps every byte before it |
| HexFrames.FillFrom | petalinux_web/test_awg.c:39-40 | from offset p, `count` copies of the piece and then the terminating NUL |
| HexFrames.BuildSinglePeakHex | petalinux_web/test_awg.c:24-50 | channel A's index string is `%03X` of `idxA & 0xFFF` then seven "000", and its gain string is the full gain then seven zero fields. Channel B's strings are all zeros. Each is NUL-terminated |
| HexFrames.FillIdxA | petalinux_web/test_awg.c:30-33 | `snprintf(p, 4, "%03X", idxA & 0xFFF)` followed by seven "000" and a NUL |
| HexFrames.PeakBlocks | petalinux_web/test_awg.c:27-40 | channel A's strings are well-formed blocks carrying v on tone 0 of the index block and full gain on tone 0 of the gain block |
| HexFrames.ZeroBlocks | petalinux_web/test_awg.c:42-49 | channel B's strings are well-formed blocks carrying zero everywhere |
| HexFrames.SinglePeakWords | petalinux_web/test_awg.c:24-50 | the four strings are well-formed blocks, for which `awg_send_hex4` streams `idxA & 0xFFF` and full gain on tone 0 of channel A, zero everywhere else, then the commit |
| HexFrames.SinglePeakSend | petalinux_web/test_awg.c:69-70 | build and send returns 0 on a mapped core and streams exactly those 33 words, each strobed once |
| HexFrames.PassWords | petalinux_web/test_awg.c:67-79 | one pass of the loop streams 66 words |
| HexFrames.PeakRounds | petalinux_web/test_awg.c:67-79 | n passes stream 66n words |
| HexFrames.SinglePeakPass | petalinux_web/test_awg.c:68-78 | one pass streams the 1 kHz frame and then the 20 kHz frame, both calls returning 0, with 66 strobes |
| HexFrames.SinglePeakMain | petalinux_web/test_awg.c:52-82 | exit status 1 with no write when the core cannot be mapped. Otherwise, after any number of passes, the loop is still running, every send returned 0, and the bus holds the 1 kHz and 20 kHz frames alternately |
| Notify.Code | petalinux_web/awg_raw_tcp/awg_server_raw_notify.c:42-43 | a status's enum value indexes the three status names |
| Notify.RecordFits | petalinux_web/awg_raw_tcp/awg_server_raw_notify.c:44-45 | a record `LIST<id>:<STATUS>\n` is 11 to 14 bytes, so it fits the 32-byte buffer with its terminator and `snprintf` never truncates it |
| Notify.RecordsDiffer | petalinux_web/awg_raw_tcp/awg_server_raw_notify.c:45 | two records are equal only when they name the same list and the same status |
| Notify.UpdateMeaning | petalinux_web/awg_raw_tcp/awg_server_raw_notify.c:37-56 | one call does nothing for a bad list id or without a listener. Otherwise it emits at most one record, and only the record of that list's current status. After a successful send that status counts as announced; a failed send drops the listener and announces nothing. Statuses never change |
| Notify.UpdateIdempotent | petalinux_web/awg_raw_tcp/awg_server_raw_notify.c:41 | calling again without a status change emits nothing more |
| Notify.Updates | petalinux_web/awg_raw_tcp/awg_server_raw_notify.c:37-56 | any number of calls in a row keep the notifier state well formed |
| Notify.UpdatesOnce | petalinux_web/awg_raw_tcp/awg_server_raw_notify.c:41 | n >= 1 calls in a row without a status change leave what the first left, so they emit at most one record |
| Notify.ListenAnnounces | petalinux_web/awg_raw_tcp/awg_server_raw_notify.c:69-75 | a new listener whose sends succeed receives list 0's status and then list 1's, and both count as announced |
| Notify.Notifier.constructor | petalinux_web/awg_raw_tcp/awg_server_raw_notify.c:29-34 | both lists IDLE, nothing announced (-1), no listener |
| Notify.Notifier.SetStatus | petalinux_web/awg_raw_tcp/awg_server_raw_queue.c:268-283 | storing a list's status, under the notify mutex, changes only that entry |
| Notify.Notifier.SendStatusUpdate | petalinux_web/awg_raw_tcp/awg_server_raw_notify.c:37-56 | the arrays and the listener end as the step function `Update` specifies |
| Notify.Notifier.NewListener | petalinux_web/awg_raw_tcp/awg_server_raw_notify.c:69-75 | the new listener replaces the old one, both lists count as never announced, and both statuses are sent, as `Listen` specifies |
| Notify.Notifier.PeerCloses | petalinux_web/awg_raw_tcp/awg_server_raw_notify.c:46-48 | the listener goes away, so later sends to it fail; nothing else changes |
| PyAwg.BlockWords | petalinux_web/awg_core.py:66-72 | eight words of one command and channel, word t packing tone t with `vals[t]` |
| PyAwg.TableWords | petalinux_web/awg_core.py:66-72 | the table is 32 words |
| PyAwg.AppendBlock | petalinux_web/awg_core.py:68 | one `for t in range(8): words.append(...)` loop appends exactly that block |
| PyAwg.BuildWords | petalinux_web/awg_core.py:66-72 | `build_words` returns A index, A gain, B index, B gain, in that order |
| PyAwg.TableWordAt | petalinux_web/awg_core.py:66-72 | tone t of block b (0 A index, 1 A gain, 2 B index, 3 B gain) is word 8b+t of the table |
| PyAwg.TableWordsFields | petalinux_web/awg_core.py:24-27 | every table word reads back as its block's command and channel, its tone, zero reserved bits and its value masked to 20 bits |
| PyAwg.IdxValues | petalinux_web/awg_raw_tcp/awg_core_mmap.c:137-139 | the eight index values of a hex index block |
| PyAwg.GainValues | petalinux_web/awg_raw_tcp/awg_core_mmap.c:140-142 | the eight gain values of a hex gain block |
| PyAwg.TableMatchesHex4 | petalinux_web/awg_raw_tcp/awg_core_mmap.c:206-242 | the C hex path and the Python table agree: the core's 33 words for four hex blocks are the Python table of the blocks' values, then the commit |
| PyAwg.IndexBlockMatches | petalinux_web/awg_raw_tcp/awg_core_mmap.c:214-218 | the C index loop builds the Python index block of the parsed values |
| PyAwg.GainBlockMatches | petalinux_web/awg_raw_tcp/awg_core_mmap.c:219-223 | the C gain loop builds the Python gain block of the parsed values |
| PyAwg.SentWords | petalinux_web/awg_core.py:74-78 | `send_words` latches the words, plus one commit when asked for |
| PyAwg.Strobe | petalinux_web/awg_core.py:76 | one word latched by one strobe, on top of everything sent before |
| PyAwg.SendWords | petalinux_web/awg_core.py:74-78 | each word written and strobed, then the commit when `do_commit`. The return value is the number of words latched, `len(words) + (1 if do_commit else 0)` |
| PyAwg.SendAwgTable | petalinux_web/awg_apply.py:111-172 | with a pulse width of 0 or more, the four blocks and the commit, each word written and strobed as it is built, the 33 words returned being exactly the words latched; with a negative width it raises after latching the A tone-0 index word, WEN left active |
| PyAwg.PayloadWordsMeaning | petalinux_web/awg_server_python.py:63-87 | a payload is applied exactly when its pulse width reads as an integer (a false value, the empty object included, reading as the default) and, on the float path, the gains convert. What is applied is 33 words ending in the commit, and word k < 8 is the index word of tone k on channel A |
| PyAwg.BadPulseWritesNothing | petalinux_web/awg_server_python.py:70 | `{"wen_pulse_us": "x"}` raises in `int()` before any word is written |
| PyAwg.EmptyObjectPulseApplies | petalinux_web/awg_server_python.py:70 | `{"wen_pulse_us": {}}` is applied with the default width, since `{}` is false to `or`; a non-empty object makes `int()` raise and nothing is applied |
| PyAwg.FormWordsMeaning | petalinux_web/awg_apply.py:180-221 | the CGI replies ok exactly when every integer field parses, the pulse width is not negative and, on the float path, the gains convert; the bus then latches the 33 words of the reply. An error reply with a word latched comes only from a negative pulse width and latches the A tone-0 index word alone. A bad `wen_offset` latches nothing |
| PyAwg.FormTableFirstWord | petalinux_web/awg_apply.py:135-138 | the first word `send_awg_table` writes is `make_index_word(0, 0, idxA[0])` |
| PyAwg.BadOffsetLatchesNothing | petalinux_web/awg_apply.py:182 | `wen_offset=x` makes `int()` raise inside the try, so the CGI gives the error reply and latches nothing |
| PyAwg.NegativePulseLatchesOneWord | petalinux_web/awg_apply.py:113-116 | a form with a negative `wen_pulse_us` gets the error reply after one index word (channel 0, tone 0, index 0) was latched |
| PyAwg.ApplyPayload | petalinux_web/awg_server_python.py:63-87 | when the payload raises before the first write, the bus is untouched. Otherwise the bus latches exactly the payload's 33 words, with one strobe each at the payload's WEN polarity |
| PyAwg.PayloadFloatFails | petalinux_web/awg_server_python.py:76-80 | on the float path, gains that do not convert mean nothing is applied |
| PyAwg.PayloadWordsOf | petalinux_web/awg_server_python.py:73-86 | the lists `_apply_payload` normalises are the ones its 33 words come from |
| PyAwg.ApplyForm | petalinux_web/awg_apply.py:175-221 | the result is None (the error reply) when a field fails to parse, and then nothing is written, or when the pulse width is negative, and then one word is latched with WEN left active. Otherwise it is the 33 words sent, each latched and strobed once |
| PyForms.FitTo | petalinux_web/awg_apply.py:77-79 | the list padded with the default up to n entries or cut to its first n: exactly n entries, entry k being the list's k-th where there is one and the default otherwise |
| PyForms.PadAndCut | petalinux_web/awg_apply.py:77-79 | the `while len(out) < n: out.append(default)` loop followed by `out[:n]` gives exactly that list |
| PyForms.ParseTokens | petalinux_web/awg_apply.py:71-76 | the token loop returns the values of the non-blank stripped tokens in order, and fails (the ValueError) exactly when some token does not parse |
| PyForms.ToIntList | petalinux_web/awg_apply.py:67-79 | `_to_int_list` returns the specified list, which has exactly n entries when it does not raise |
| PyForms.FailureSticks | petalinux_web/awg_apply.py:76 | once a token fails the whole list fails, whatever follows |
| PyForms.DecStrs | petalinux_web/awg_apply.py:67-68 | `str(x)` for each element, as a client writes a list of ints |
| PyForms.DecStrToken | petalinux_web/awg_apply.py:72-76 | the decimal text of an int is its own strip, holds no comma, and is read back in base 10 as the int |
| PyForms.NoHexPrefix | petalinux_web/awg_apply.py:75 | text starting with a minus sign, or whose second character is a digit, is not taken as `0x`-prefixed |
| PyForms.TokenValuesOfDecStrs | petalinux_web/awg_apply.py:71-76 | the decimal texts of a list of ints read back as that list |
| PyForms.IntListRoundTrip | petalinux_web/awg_apply.py:67-79 | a list written as `",".join(str(x) for x in xs)` reads back through `_to_int_list` as xs padded with the default or cut to n |
| PyForms.NonBlankItems | petalinux_web/awg_server_python.py:44 | the items kept from a comma-split string are stripped and non-blank |
| PyForms.CastAll | petalinux_web/awg_server_python.py:50-55 | one entry per item: the item cast by `int()`, or the default where the cast raises |
| PyForms.CastItems | petalinux_web/awg_server_python.py:50-55 | the `for x in items` loop computes exactly that |
| PyForms.NormalizeList | petalinux_web/awg_server_python.py:35-61 | `normalize_list` returns exactly n entries: the cast items padded or cut |
| PyForms.NormalizeInts | petalinux_web/awg_server_python.py:45-61 | a JSON list of ints is kept as it is, padded or cut to n |
| PyForms.NormalizeRefused | petalinux_web/awg_server_python.py:47-48 | a value that is neither a string nor a list gives the default in every position |
| PyForms.DecStrItems | petalinux_web/awg_server_python.py:44 | one item per element of the list written out |
| PyForms.NormalizeRoundTrip | petalinux_web/awg_server_python.py:35-61 | the text a client writes for a list of ints reads back through `normalize_list` as the list, padded or cut to n |
| PyForms.HexText | petalinux_web/awg_apply.py:68 | `0x` followed by hex digits, at least three characters |
| PyForms.HexTextShape | petalinux_web/awg_apply.py:72-75 | such a text has no comma, is its own strip and starts with `0x` in lower case |
| PyForms.IntListHex | petalinux_web/awg_apply.py:75-76 | `_to_int_list` reads a `0x`-prefixed item in base 16 |
| PyForms.NormalizeHexRefused | petalinux_web/awg_server_python.py:53-55 | `normalize_list` casts with `int(x)` in base 10, so the same `0x` item falls back to the default |
| PyForms.AsBoolMeaning | petalinux_web/awg_server_python.py:29-33 | `_as_bool` gives the default for a missing value, is true for an int exactly when it is not zero, and returns a boolean as it is |
| PyForms.ToBit | petalinux_web/led_toggle.py:42-47 | a present field reads as 0 or 1 |
| PyForms.ToBitMeaning | petalinux_web/led_toggle.py:42-47 | a present field reads as 1 exactly when its stripped, lower-cased text is one of "1", "true", "on", "yes", and otherwise as 0; a missing field gives the default |
| PyForms.PayloadDefaults | petalinux_web/awg_server_python.py:73-83 | every table has 8 entries, a missing idxA is all 0 and a missing idxB all 8, a missing integer gain is all 0, and the float path is taken exactly when a float gain key is present |
| PyForms.PayloadWenDefault | petalinux_web/awg_server_python.py:69 | a payload without `wen_active` keeps WEN active-high |
| PyForms.PayloadIntMeaning | petalinux_web/awg_server_python.py:70 | `int(payload.get(k, d) or d)`: a missing key, a zero, an empty string or an empty object give d, any other int is taken as it is, and a list or a non-empty object makes `int()` raise |
| PyForms.PayloadIntText | petalinux_web/awg_server_python.py:70 | a decimal text reads back as its number; a text that is no number makes `int()` raise |
| PyForms.FormIntMeaning | petalinux_web/awg_apply.py:183-185 | `int(form.get(k, d) or d)`: a missing or empty field gives d, a decimal text its number, and a text that is no number raises |
| PyForms.FormWenMeaning | petalinux_web/awg_apply.py:184 | a missing field keeps the default polarity and a padded `0` turns WEN active-low, but `FALSE` keeps the CGI's WEN active-high while `_as_bool` reads it as false |
| PyForms.FormDefaults | petalinux_web/awg_apply.py:188-199 | when the form parses, every table has 8 entries, a missing idxA is all 0 and a missing idxB all 8, and the float path is taken exactly when a float gain key is present |
| PyForms.LedOf | petalinux_web/led_toggle.py:68-72 | an LED's three bits are each 0 or 1 |
| PyForms.AddLed | petalinux_web/led_toggle.py:68-77 | nothing for an LED whose three fields are all absent; otherwise its three bits are merged into the targets and its tag is recorded |
| PyForms.BuildTargets | petalinux_web/led_toggle.py:49-90 | `_build_targets` returns the chip path, the offset-to-bit targets and the tags that the specification functions give for the form |
| PyForms.ApplyLeds | petalinux_web/led_toggle.py:79-88 | the two `add_led` calls and the all-off fallback give exactly the specified targets and tags |
| PyForms.LedTargetsMeaning | petalinux_web/led_toggle.py:79-88 | with neither LED given, all six lines go off under the tag "LED0+LED1:default_off". Otherwise the driven lines are exactly 2, 1, 0 for a present LED0 and 5, 4, 3 for a present LED1, each with its LED's bits |
| PyForms.TargetsAreBits | petalinux_web/led_toggle.py:65-88 | every target is one of the six offsets and holds 0 or 1 |
| PyForms.TargetsDefaultOff | petalinux_web/led_toggle.py:82-88 | a form naming no LED field at all turns all six lines off |
| PyForms.PresentLedDriven | petalinux_web/led_toggle.py:68-74 | a present LED drives all three of its offsets, a missing colour reading as 0 |
| PyForms.LegacyKeys | petalinux_web/led_toggle.py:60-63 | `r`, `g`, `b` drive LED0 only when none of `r0`, `g0`, `b0` is given |
| PyForms.NonZeroDecStr | petalinux_web/awg_server_python.py:29-33 | the text of a nonzero int, lowered, is none of the false words, so `_as_bool` reads every nonzero int as true |
| PyText.LStrip | petalinux_web/awg_apply.py:72 | removing leading whitespace never lengthens the text |
| PyText.RStrip | petalinux_web/awg_apply.py:72 | removing trailing whitespace never lengthens the text |
| PyText.LStripMeaning | petalinux_web/awg_apply.py:72 | the left strip is a suffix of the text that does not start with whitespace, and everything removed is whitespace |
| PyText.RStripMeaning | petalinux_web/awg_apply.py:72 | the right strip is a prefix of the text that does not end with whitespace, and everything removed is whitespace |
| PyText.StripMeaning | petalinux_web/awg_apply.py:72 | `tok.strip()` is a contiguous slice of the token with only whitespace cut from either side |
| PyText.StripEnds | petalinux_web/awg_server_python.py:44 | a stripped text is empty or starts and ends with a non-whitespace character |
| PyText.StripUnspaced | petalinux_web/awg_server_python.py:44 | a text that does not start or end with whitespace is its own strip |
| PyText.StripIdempotent | petalinux_web/awg_server_python.py:44 | stripping twice is stripping once, so `x.strip() != ""` and the stored `x.strip()` agree |
| PyText.Lower | petalinux_web/awg_server_python.py:32 | `lower()` keeps the length and lowers each character on its own |
| PyText.Split | petalinux_web/awg_apply.py:71 | `split(',')` yields at least one piece |
| PyText.SplitPiecesFree | petalinux_web/awg_apply.py:71 | no piece of a split contains the separator |
| PyText.JoinSplit | petalinux_web/awg_server_python.py:44 | joining the pieces of a split with the separator gives back the text |
| PyText.SplitJoin | petalinux_web/awg_server_python.py:44 | splitting pieces that hold no separator, after joining them, gives back the pieces |
| PyText.SplitNoSep | petalinux_web/awg_apply.py:71 | text without the separator splits into itself alone |
| PyText.SplitPrefix | petalinux_web/awg_apply.py:71 | a separator-free prefix followed by the separator is the first piece |
| PyText.SplitAppend | petalinux_web/awg_apply.py:71 | splitting a concatenation splits the front and continues its last piece with the back |
| PyText.DigitChar | petalinux_web/awg_apply.py:76 | the digit character written for d reads back as d |
| PyText.ToDigits | petalinux_web/awg_server_python.py:70 | the digits of a number are never empty |
| PyText.ToDigitsAll | petalinux_web/awg_apply.py:76 | every digit written is a digit of the base |
| PyText.ToDigitsValue | petalinux_web/awg_apply.py:76 | the digits of n in any base 2..36 read back as n |
| PyText.DecStr | petalinux_web/awg_apply.py:76 | `str(i)` is never empty |
| PyText.PyIntUnspaced | petalinux_web/awg_apply.py:76 | `int()` of text that starts with a digit or a minus and ends with a digit is `int()` of the text as it is, with no strip |
| PyText.SignedDigits | petalinux_web/awg_apply.py:76 | a run of digits with or without a minus reads as its value, negated for the minus |
| PyText.PyIntDigits | petalinux_web/awg_apply.py:76 | `int(ds, 10)` of decimal digits is their value |
| PyText.PyIntMinusDigits | petalinux_web/awg_apply.py:76 | `int("-" + ds, 10)` is minus their value |
| PyText.PyIntDecStr | petalinux_web/awg_server_python.py:70 | `int(str(i))` is i for every int |
| PyText.PyIntHex | petalinux_web/awg_apply.py:75-76 | the base-16 digits of n, read with `int(tok, 16)`, give n back |
| PyText.PyIntHexPrefixed | petalinux_web/awg_apply.py:75-76 | `int("0x" + digits of n, 16)` gives n: Python accepts the prefix in base 16 |
| QueueProtocol.DecodeWords | petalinux_web/awg_server_raw_queue.c:389-390 | the payload of a P reads as one word per four bytes |
| QueueProtocol.EncodeWords | petalinux_web/awg_raw_tcp/test_awg_raw_queue.py:79 | the client's payload is four bytes per word |
| QueueProtocol.DecodeEncodeWords | petalinux_web/awg_server_raw_queue.c:389-390 | the server reads back every word the client packed with `struct.pack(">I")` |
| QueueProtocol.ParseEncodeField | petalinux_web/awg_server_raw_queue.c:505-519 | an I or B with its list byte and big-endian u32 reads back as that command, the following bytes untouched |
| QueueProtocol.ParseEncodePush | petalinux_web/awg_server_raw_queue.c:378-390 | a P whose header passes the check reads back with all its words |
| QueueProtocol.ParseEncodePeriod | petalinux_web/awg_server_raw_queue.c:531-535 | a T reads back its big-endian period |
| QueueProtocol.ParseEncode | petalinux_web/awg_server_raw_queue.c:490-548 | every command a client encodes (`test_awg_raw_queue.py` lines 75-84) is read back by `serve_client` as exactly that command, leaving the rest of the stream for the next one |
| QueueProtocol.ParseBadPush | petalinux_web/awg_server_raw_queue.c:386 | a P naming a list above 1 or a count of 0 or over 64 is refused on its header, whatever follows |
| QueueProtocol.ParseShrinks | petalinux_web/awg_server_raw_queue.c:490-492 | every parsed command consumes at least its opcode, so the loop over a stream ends |
| QueueProtocol.QueryReply | petalinux_web/awg_server_raw_queue.c:440-461 | the Q reply is always 16 bytes |
| QueueProtocol.DecodeQueryReply | petalinux_web/awg_raw_tcp/test_awg_raw_queue.py:88-90 | the client reads back playing, the current list, the current frame and both free counts, each cut to its field width, and bytes 14 and 15 are zero |
| QueueProtocol.QueryPadding | petalinux_web/awg_server_raw_queue.c:456-459 | byte 13 carries the low byte of `free1` and only bytes 14-15 are padding |
| QueueProtocol.StatsReply | petalinux_web/awg_server_raw_queue.c:463-481 | the S reply is the four counters as big-endian u64s, in the order bytes_rx, frames_pushed, switches, holds |
| QueueProtocol.PutU64 | petalinux_web/awg_server_raw_queue.c:475 | one byte loop writes `(x >> (56 - 8*i)) & 0xFF` at `off + i` for i in 0..7, the big-endian bytes of x, and no other byte |
| QueueProtocol.FieldOfStats | petalinux_web/awg_server_raw_queue.c:464-468 | counter k sits at bytes `8k..8k+8` |
| QueueProtocol.DecodeStatsReply | petalinux_web/awg_raw_tcp/test_awg_raw_queue.py:95-98 | the client reads back each counter modulo 2^64 |
| QueueEngineSpec.ServeParsed | petalinux_web/awg_server_raw_queue.c:490-548 | a command that parses and that its handler accepts is applied, and `serve_client` goes on with the bytes after it |
| QueueEngineSpec.ServeEnds | petalinux_web/awg_server_raw_queue.c:492-494 | the session ends where the bytes run out (peer closed or timeout) or a handler refuses (`goto drop`), with the state left as it was |
| QueueEngineSpec.ServeGoesOn | petalinux_web/awg_server_raw_queue.c:490 | the words and replies of a session are those of its first commands followed by those of the rest |
| QueueEngineSpec.ServeStops | petalinux_web/awg_server_raw_queue.c:550-556 | a session that stops keeps everything sent and replied before it stopped |
| QueueEngineSpec.TickStepOk | petalinux_web/awg_server_raw_queue.c:253-306 | a wake-up of the player keeps the list ids in {0, 1}, the frame index within the current list and both lists well formed |
| QueueEngineSpec.ApplyOk | petalinux_web/awg_server_raw_queue.c:330-438 | every handler, on a command the client encodes, keeps the engine well formed |
| QueueEngineSpec.PushCmdOk | petalinux_web/awg_server_raw_queue.c:378-410 | `do_preload_push` keeps the engine well formed whether it succeeds or not |
| QueueEngineSpec.RunOk | petalinux_web/awg_server_raw_queue.c:235-311 | any interleaving of player wake-ups and client commands from a well-formed engine keeps it well formed |
| QueueEngineSpec.StepCountersGrow | petalinux_web/awg_server_raw_queue.c:280 | no single step lowers a counter |
| QueueEngineSpec.ApplyCountersGrow | petalinux_web/awg_server_raw_queue.c:336 | no handler lowers a counter |
| QueueEngineSpec.RunCountersGrow | petalinux_web/awg_server_raw_queue.c:140-145 | the counters never go down over a run |
| QueueEngineSpec.StatsFirstFieldsZero | petalinux_web/awg_server_raw_queue.c:471 | as written, `bytes_rx` and `frames_pushed` stay 0 over every run, so the first 16 bytes of every S reply are zero |
| QueueEngineSpec.IdleTickSendsNothing | petalinux_web/awg_server_raw_queue.c:255-258 | an idle player wakes, sends nothing and changes nothing |
| QueueEngineSpec.OnlyListZeroStarts | petalinux_web/awg_server_raw_queue.c:396-405 | playback starts from idle only on an E on list 0 or a P that completes list 0, and then plays list 0 from frame 0, READY and not empty |
| QueueEngineSpec.RefusedChangesNothing | petalinux_web/awg_server_raw_queue.c:507-547 | a refused command changes nothing and replies nothing, and only I, B, P and E can be refused |
| QueueEngineSpec.ResetAndAbort | petalinux_web/awg_server_raw_queue.c:330-353 | Z and X stop the player, make list 0 current at frame 0, free both lists, keep the period, only count up and reply nothing; Z sends no word, and X sends exactly the 17 zero-output words |
| QueueEngineSpec.AbortZeroesOutput | petalinux_web/awg_server_raw_queue.c:213-232 | the words X hands to the core write gain 0 to every tone of both channels, channel 0 first and tones in order, and then commit; the engine state is that of Z but for the counter |
| QueueEngineSpec.SetPeriodStores | petalinux_web/awg_server_raw_queue.c:432-438 | T stores its period, 0 taken as 1, and changes nothing else |
| QueueEngineSpec.BeginResets | petalinux_web/awg_server_raw_queue.c:365-376 | B succeeds exactly for list 0 or 1 and a non-zero total, and then leaves that list with room for `total` frames, none loaded, not READY, the other list and the player untouched |
| QueueEngineSpec.PushAppends | petalinux_web/awg_server_raw_queue.c:190-203 | P succeeds exactly when the frame is 1..64 words, the list is not full and its word buffer fits or grows; it appends the frame, leaves the other list alone, makes the list READY when it is complete and starts playback only when list 0 completes while idle |
| QueueEngineSpec.EndMarksReady | petalinux_web/awg_server_raw_queue.c:412-430 | E succeeds exactly on a non-empty list 0 or 1, marks it READY, and starts the player only for list 0 |
| QueueEngineSpec.PlaysRestOfList | petalinux_web/awg_server_raw_queue.c:263-292 | a playing engine sends the rest of its current list frame by frame in load order, then switches to the other list when it is READY and not empty, otherwise stops; the finished list is cleared either way |
| QueueEngineSpec.EndThenPlaysListZero | petalinux_web/awg_server_raw_queue.c:412-426 | after E on list 0 from idle the player sends every frame of list 0 in order, clears it, and then plays list 1 exactly when list 1 is READY and not empty |
| QueueEngineSpec.QueryReportsState | petalinux_web/awg_server_raw_queue.c:440-461 | Q changes nothing and the client reads back the player state, the current list and frame and both free counts exactly |
| QueueEngineSpec.QueryStatusOf | petalinux_web/awg_server_raw_queue.c:444-458 | values that fit their fields come back unchanged |
| QueueEngineSpec.StatsReportsCounters | petalinux_web/awg_server_raw_queue.c:463-481 | S changes nothing and the client reads back the four counters modulo 2^64 |
| QueueEngineSpec.EndOnListOneStaysIdle | petalinux_web/awg_server_raw_queue.c:255-258 | as written, E on a loaded list 1 while idle marks it READY but the player stays idle, and no later wake-up sends or changes anything |
| QueueEngineSpec.IdleTicks | petalinux_web/awg_server_raw_queue.c:255-258 | any number of idle wake-ups send nothing and change nothing |
| QueueEngineSpec.PickingUpPlaysList | petalinux_web/awg_server_raw_queue.c:36-37 | the corrected E, which lets an idle player pick up whichever list becomes READY, plays every frame of that list in load order, and on list 0 is the code's own E |
| QueueEngineSpec.CountedServeCounts | petalinux_web/awg_server_raw_queue.c:140-141 | with the counters incremented as their names say, a session served to its end grows `bytes_rx` by the bytes sent and `frames_pushed` by the P commands in them |
| QueueEngine.QueueServer.constructor | petalinux_web/awg_server_raw_queue.c:205-210 | `init_lists` gives the initial engine: both lists empty, list 0 current, idle, nothing sent |
| QueueEngine.QueueServer.ClearList | petalinux_web/awg_server_raw_queue.c:162-166 | `clear_list_id` empties exactly that list |
| QueueEngine.QueueServer.Rewind | petalinux_web/awg_server_raw_queue.c:333 | the player is placed at frame 0 of list `cur`, the other list next |
| QueueEngine.QueueServer.SwitchToNext | petalinux_web/awg_server_raw_queue.c:276-282 | the lists trade places, the new list plays from frame 0, a switch is counted and the finished list is cleared |
| QueueEngine.QueueServer.StopAtListEnd | petalinux_web/awg_server_raw_queue.c:284-290 | the player stops at frame 0, counts a hold and clears the finished list |
| QueueEngine.QueueServer.PlayerTick | petalinux_web/awg_server_raw_queue.c:253-308 | one wake-up leaves the engine as the player's step function says and appends exactly the words of the frame it plays |
| QueueEngine.QueueServer.PlayFrame | petalinux_web/awg_server_raw_queue.c:263-292 | with a frame left: send it, and after the last frame switch or stop |
| QueueEngine.QueueServer.SendFrame | petalinux_web/awg_server_raw_queue.c:265-273 | the words of the current frame are sent, in order, and `cur_frame` moves on by one |
| QueueEngine.QueueServer.DoReset | petalinux_web/awg_server_raw_queue.c:330-339 | Z stops the player, frees both lists, counts a reset and sends nothing |
| QueueEngine.QueueServer.DoAbort | petalinux_web/awg_server_raw_queue.c:341-353 | X does what Z does, counting an abort instead, and then appends the 17 words `send_zero_output` builds to the words handed to `awg_send_words32` |
| QueueEngine.QueueServer.DoInitList | petalinux_web/awg_server_raw_queue.c:355-363 | I succeeds exactly for list 0 or 1, and then frees that list and records its frame hint |
| QueueEngine.QueueServer.DoPreloadBegin | petalinux_web/awg_server_raw_queue.c:365-376 | B succeeds exactly for list 0 or 1 and a non-zero total, and then gives that list room for `total` frames, none loaded, not READY, its word buffer kept for reuse |
| QueueEngine.QueueServer.MarkListReady | petalinux_web/awg_server_raw_queue.c:417-426 | the list becomes READY, and list 0 starts playback from frame 0 when the player is idle |
| QueueEngine.QueueServer.DoPreloadPush | petalinux_web/awg_server_raw_queue.c:378-410 | P gives the result and state of the push specification: header check, append, auto-finalize and auto-start |
| QueueEngine.QueueServer.PushInto | petalinux_web/awg_server_raw_queue.c:190-203 | `push_frame` appends the frame exactly when the list accepts it, and otherwise changes nothing |
| QueueEngine.QueueServer.DoPreloadEnd | petalinux_web/awg_server_raw_queue.c:412-430 | E succeeds exactly on a non-empty list 0 or 1 and then marks it READY |
| QueueEngine.QueueServer.DoSetPeriod | petalinux_web/awg_server_raw_queue.c:432-438 | T stores the period, 0 taken as 1 |
| QueueEngine.QueueServer.DoQuery | petalinux_web/awg_server_raw_queue.c:440-461 | the reply is the Q reply of the specification on the current state |
| QueueEngine.QueueServer.DoStatsReply | petalinux_web/awg_server_raw_queue.c:463-481 | the reply is the S reply of the specification on the current counters |
| QueueEngine.QueueServer.Handle | petalinux_web/awg_server_raw_queue.c:496-548 | each opcode's handler leaves the state, words and reply the specification gives |
| QueueEngine.QueueServer.ServeClient | petalinux_web/awg_server_raw_queue.c:484-557 | serving a client's bytes leaves the engine, the words sent, the replies and whether the client was dropped as the session specification says |
| QueueEngine.QueueServer.ServeStep | petalinux_web/awg_server_raw_queue.c:490-549 | one pass of the loop keeps the session invariant: what was done so far followed by serving the rest is the whole session |
| QueueEngine.QueueServer.ServeCommand | petalinux_web/awg_server_raw_queue.c:491-548 | one command read and handled is the first step of the session specification, and the input shrinks |
| RawQueueSpec.AnnounceOk | petalinux_web/awg_raw_tcp/awg_server_raw_queue.c:242-245 | setting and announcing one list's status keeps the engine well formed and leaves the other list's status alone |
| RawQueueSpec.ApplyShaped | petalinux_web/awg_raw_tcp/awg_server_raw_queue.c:371-384 | every handler keeps two lists and two status slots |
| RawQueueSpec.TickStepOk | petalinux_web/awg_raw_tcp/awg_server_raw_queue.c:222-256 | a wake-up of the player keeps the engine well formed |
| RawQueueSpec.ApplyOk | petalinux_web/awg_raw_tcp/awg_server_raw_queue.c:285-363 | every handler keeps the engine well formed |
| RawQueueSpec.BeginCmdOk | petalinux_web/awg_raw_tcp/awg_server_raw_queue.c:301-316 | B keeps the engine well formed whether or not its allocation succeeds |
| RawQueueSpec.PushCmdOk | petalinux_web/awg_raw_tcp/awg_server_raw_queue.c:318-344 | P keeps the engine well formed |
| RawQueueSpec.CancelOk | petalinux_web/awg_raw_tcp/awg_server_raw_queue.c:268-283 | cancelling a preload empties that list, clears its loading flag and sets it IDLE, leaving the other list, its flag and status and the player alone |
| RawQueueSpec.DisconnectCancels | petalinux_web/awg_raw_tcp/awg_server_raw_queue.c:386-388 | when a client goes, exactly the lists still loading are emptied and set IDLE, the others are kept, and the player is untouched |
| RawQueueSpec.ServeOk | petalinux_web/awg_raw_tcp/awg_server_raw_queue.c:365-392 | a whole client session keeps the engine well formed and leaves no list loading |
| RawQueueSpec.OnlyBPEZ | petalinux_web/awg_raw_tcp/awg_server_raw_queue.c:383 | any opcode but B, P, E and Z drops the client at once, changing only what the disconnect changes |
| RawQueueSpec.IdleTickSendsNothing | petalinux_web/awg_raw_tcp/awg_server_raw_queue.c:224-227 | an idle player wakes, sends nothing and changes nothing |
| RawQueueSpec.FinishingTick | petalinux_web/awg_raw_tcp/awg_server_raw_queue.c:230-246 | the wake-up after a list's last frame sends nothing, clears the list and announces it IDLE, and switches to the other list exactly when that one is READY and not empty |
| RawQueueSpec.PlaysRestOfList | petalinux_web/awg_raw_tcp/awg_server_raw_queue.c:229-256 | a playing engine sends the rest of its current list frame by frame in load order, and one wake-up later finishes the list |
| RawQueueSpec.BeginPrepares | petalinux_web/awg_raw_tcp/awg_server_raw_queue.c:301-316 | B on list 0 or 1 with a non-zero total succeeds exactly when the allocation does; then the list has room for `total` frames, is LOADING and loading; otherwise it is left empty and the notifier is untouched |
| RawQueueSpec.CompletingPush | petalinux_web/awg_raw_tcp/awg_server_raw_queue.c:331-341 | the P that completes a list appends its frame, makes the list READY and announces it, and starts an idle player on list 0 from frame 0 |
| RawQueueSpec.EndMarksReady | petalinux_web/awg_raw_tcp/awg_server_raw_queue.c:346-363 | E succeeds exactly on a non-empty list 0 or 1; it then marks it READY, announces it, ends its loading and starts the player only for list 0; a refused E changes nothing |
| RawQueueSpec.ResetClears | petalinux_web/awg_raw_tcp/awg_server_raw_queue.c:285-299 | Z stops the player at frame 0 of list 0, empties both lists, sets both IDLE, clears both loading flags and keeps the period |
| RawQueueSpec.PrimingPlaysListOneFirst | petalinux_web/awg_raw_tcp/awg_server_raw_queue.c:438-466 | as written, both waits for IDLE pass at once, so priming ends with both lists loaded and list 1, not list 0, playing first |
| RawQueueSpec.PrimeListOk | petalinux_web/awg_raw_tcp/awg_server_raw_queue.c:442-447 | loading a list with zero-gain frames and starting it keeps the engine well formed |
| RawQueueSpec.TicksOk | petalinux_web/awg_raw_tcp/awg_server_raw_queue.c:214-257 | any number of wake-ups keep the engine well formed |
| RawQueueSpec.PrimeWaitingPlaysInOrder | petalinux_web/awg_raw_tcp/awg_server_raw_queue.c:450-471 | with each wait lasting until the list is played out, priming sends the zero-gain frames of list 0 and then of list 1, and ends idle with both lists empty and IDLE, as the comments at lines 450 and 470 say |
| RawQueueSpec.DrainOne | petalinux_web/awg_raw_tcp/awg_server_raw_queue.c:450-451 | a list played from frame 0 with the other list empty is sent in full, and one wake-up later the player is idle, both lists empty and that list IDLE |
| RawQueueSpec.StepOk | petalinux_web/awg_raw_tcp/awg_server_raw_queue.c:210-259 | a wake-up or a client session keeps the engine well formed |
| RawQueueSpec.RunOk | petalinux_web/awg_raw_tcp/awg_server_raw_queue.c:395-423 | any interleaving of wake-ups and client sessions keeps the engine well formed |
| RawQueueEngine.RawQueueServer.constructor | petalinux_web/awg_raw_tcp/awg_server_raw_queue.c:203-208 | `init_lists`: both lists empty, period 1000 us, list 0 current, idle, both statuses IDLE, nothing sent |
| RawQueueEngine.RawQueueServer.ClearList | petalinux_web/awg_raw_tcp/awg_server_raw_queue.c:137-143 | `clear_list_fully` empties exactly that list, its word buffer included |
| RawQueueEngine.RawQueueServer.Announce | petalinux_web/awg_raw_tcp/awg_server_raw_queue.c:242-245 | the list's status is set and `send_status_update` records it as announced when it changed |
| RawQueueEngine.RawQueueServer.PlayerTick | petalinux_web/awg_raw_tcp/awg_server_raw_queue.c:222-256 | one wake-up leaves the engine as the player's step function says and appends exactly the words of the frame it plays |
| RawQueueEngine.RawQueueServer.EndOfList | petalinux_web/awg_raw_tcp/awg_server_raw_queue.c:230-246 | a played-out list: switch or stop, clear the finished list, set it IDLE and announce it |
| RawQueueEngine.RawQueueServer.Rotate | petalinux_web/awg_raw_tcp/awg_server_raw_queue.c:233-239 | the next list becomes current from frame 0 exactly when it is READY and not empty, otherwise the player stops |
| RawQueueEngine.RawQueueServer.SendFrame | petalinux_web/awg_raw_tcp/awg_server_raw_queue.c:248-254 | the words of the current frame are sent, in order, and `cur_frame` moves on by one |
| RawQueueEngine.RawQueueServer.CancelPreload | petalinux_web/awg_raw_tcp/awg_server_raw_queue.c:268-283 | the list is cleared, no longer loading, set IDLE and announced |
| RawQueueEngine.RawQueueServer.SetLoading | petalinux_web/awg_raw_tcp/awg_server_raw_queue.c:312 | only the loading flag of that list changes |
| RawQueueEngine.RawQueueServer.Drop | petalinux_web/awg_raw_tcp/awg_server_raw_queue.c:386-388 | every list still loading when the client goes is cancelled |
| RawQueueEngine.RawQueueServer.DoReset | petalinux_web/awg_raw_tcp/awg_server_raw_queue.c:285-299 | Z stops the player, clears both lists, sets both IDLE, announces both and clears both loading flags |
| RawQueueEngine.RawQueueServer.ResetPlayer | petalinux_web/awg_raw_tcp/awg_server_raw_queue.c:286-290 | the player stops with list 0 current at frame 0 and both lists empty |
| RawQueueEngine.RawQueueServer.ResetNotes | petalinux_web/awg_raw_tcp/awg_server_raw_queue.c:291-297 | both statuses IDLE, list 0 then list 1 announced, neither loading |
| RawQueueEngine.RawQueueServer.MarkBothIdle | petalinux_web/awg_raw_tcp/awg_server_raw_queue.c:291-295 | both statuses IDLE, then list 0 and list 1 announced in that order |
| RawQueueEngine.RawQueueServer.SetNoteStatus | petalinux_web/awg_raw_tcp/awg_server_raw_queue.c:308 | only that list's status changes |
| RawQueueEngine.RawQueueServer.SendUpdate | petalinux_web/awg_raw_tcp/awg_server_raw_queue.c:310 | the notifier's announcement for that list, and nothing else |
| RawQueueEngine.RawQueueServer.Play | petalinux_web/awg_raw_tcp/awg_server_raw_queue.c:338 | the player is placed at frame 0 of list `id`, the other list next |
| RawQueueEngine.RawQueueServer.PrepareList | petalinux_web/awg_raw_tcp/awg_server_raw_queue.c:146-160 | the list is cleared and, when both `calloc`s succeed, has room for `total` frames; otherwise it stays empty and the call fails |
| RawQueueEngine.RawQueueServer.DoPreloadBegin | petalinux_web/awg_raw_tcp/awg_server_raw_queue.c:301-316 | B gives the result and state of the begin specification: list 0 or 1, non-zero total, prepared list, status LOADING announced and loading set |
| RawQueueEngine.RawQueueServer.PushInto | petalinux_web/awg_raw_tcp/awg_server_raw_queue.c:174-186 | `push_frame` appends the frame exactly when the list accepts it, and otherwise changes nothing |
| RawQueueEngine.RawQueueServer.SetListReady | petalinux_web/awg_raw_tcp/awg_server_raw_queue.c:332 | only that list's READY flag is set |
| RawQueueEngine.RawQueueServer.StartIfIdle | petalinux_web/awg_raw_tcp/awg_server_raw_queue.c:337-340 | an idle player starts list 0 from frame 0 when the list is 0, and nothing changes otherwise |
| RawQueueEngine.RawQueueServer.DoPreloadPush | petalinux_web/awg_raw_tcp/awg_server_raw_queue.c:318-344 | P gives the result and state of the push specification |
| RawQueueEngine.RawQueueServer.CompleteIfFull | petalinux_web/awg_raw_tcp/awg_server_raw_queue.c:331-341 | a list that has just reached its total becomes READY, is announced READY and, for list 0, starts an idle player |
| RawQueueEngine.RawQueueServer.MarkListReady | petalinux_web/awg_raw_tcp/awg_server_raw_queue.c:351-355 | the list is READY and announced READY |
| RawQueueEngine.RawQueueServer.DoPreloadEnd | petalinux_web/awg_raw_tcp/awg_server_raw_queue.c:346-363 | E gives the result and state of the end specification |
| RawQueueEngine.RawQueueServer.Handle | petalinux_web/awg_raw_tcp/awg_server_raw_queue.c:371-384 | B, P, E and Z are handled as the specification says, and any other opcode is refused |
| RawQueueEngine.RawQueueServer.ServeClient | petalinux_web/awg_raw_tcp/awg_server_raw_queue.c:365-392 | serving a client's bytes leaves the engine as the session specification says, and sends nothing |
| RawQueueEngine.RawQueueServer.ServeStep | petalinux_web/awg_raw_tcp/awg_server_raw_queue.c:367-385 | one pass of the loop is the first step of the session specification, and the input shrinks |
| RawQueueEngine.RawQueueServer.PrimeLists | petalinux_web/awg_raw_tcp/awg_server_raw_queue.c:443-466 | the start-up priming gives the state the priming specification gives |
| RawQueueEngine.RawQueueServer.PrimeOne | petalinux_web/awg_raw_tcp/awg_server_raw_queue.c:443-450 | one list loaded with the zero-gain frames and, when that succeeds, played from its first frame |
| RawQueueEngine.RawQueueServer.LoadZeroGainList | petalinux_web/awg_raw_tcp/awg_server_raw_queue.c:189-201 | the list holds the flush frames and is READY exactly when both allocations succeed, and is empty otherwise |
| QueueClients.DemoFrame | petalinux_web/awg_raw_tcp/test_awg_raw_queue.py:102-114 | a demo frame is three words |
| QueueClients.DemoFrameFields | petalinux_web/awg_raw_tcp/test_awg_raw_queue_v3.py:28-33 | read back, a demo frame is an index word and a full-gain word for channel 0 tone 0, then the commit |
| QueueClients.PackBE | petalinux_web/awg_raw_tcp/test_awg_raw_queue.py:75-84 | `struct.pack` of an unsigned big-endian field succeeds exactly when the value fits, and then its n bytes read back as the value |
| QueueClients.Mask32 | petalinux_web/awg_raw_tcp/test_awg_raw_queue.py:79 | masking keeps one word per value |
| QueueClients.MaskedEncodes | petalinux_web/awg_raw_tcp/test_awg_raw_queue.py:72-86 | an `op_*` of the masked clients raises exactly when a field does not fit, and otherwise sends the protocol's bytes of its command |
| QueueClients.MaskedParses | petalinux_web/awg_raw_tcp/test_awg_raw_queue.py:74-84 | the server reads the masked command back, leaving what follows; the id it sees is always 0 or 1 and the period at least 1 |
| QueueClients.MaskedPushRefused | petalinux_web/awg_raw_tcp/test_awg_raw_queue.py:78-80 | a masked P of no words or of more than 64 is refused on its header |
| QueueClients.PackWords | petalinux_web/awg_raw_tcp/test_awg_raw_queue_v3.py:45 | the unmasked payload packs exactly when every word is in 0..2^32-1, and is then the protocol's payload |
| QueueClients.PackByte | petalinux_web/awg_raw_tcp/test_awg_raw_queue_v3.py:47 | `struct.pack(">B", x)` of a byte is that byte |
| QueueClients.PlainEncodes | petalinux_web/awg_raw_tcp/test_awg_raw_queue_v3.py:42-47 | a v3 `op_*` raises exactly when a field does not fit, and otherwise sends the protocol's bytes of the unmasked command |
| QueueClients.PlainPushEncodes | petalinux_web/awg_raw_tcp/test_awg_raw_queue_v3.py:44-46 | the same for the v3 P |
| QueueClients.Mask32Fits | petalinux_web/awg_raw_tcp/test_awg_raw_queue.py:79 | words that fit 32 bits are unchanged by the mask |
| QueueClients.PlainParses | petalinux_web/awg_raw_tcp/test_awg_raw_queue_v3.py:42-47 | the server reads the v3 command back with the id as sent, and refuses a P to a list other than 0 or 1 on its header |
| QueueClients.EncodeAllAppend | petalinux_web/awg_raw_tcp/test_awg_raw_queue_v3.py:70 | the bytes of two command runs are the bytes of each, one after the other |
| QueueClients.ParseAllOne | petalinux_web/awg_server_raw_queue.c:490-548 | one well-formed command is read off the stream, the rest following |
| QueueClients.ParseAllEncodeAll | petalinux_web/awg_server_raw_queue.c:490-548 | the server reads a stream of well-formed commands back one by one and carries on with what follows |
| QueueClients.PushRun | petalinux_web/awg_raw_tcp/test_awg_raw_queue.py:133-134 | n frames give n P commands |
| QueueClients.PushRunSnoc | petalinux_web/awg_raw_tcp/test_awg_raw_queue_v3.py:56-58 | one more frame appends one P, of the even or odd demo frame by its index |
| QueueClients.PushRunBytes | petalinux_web/awg_raw_tcp/test_awg_raw_queue_v3.py:64 | a P of a three-word frame is 16 bytes, so n of them are 16n |
| QueueClients.PushRunParses | petalinux_web/awg_raw_tcp/test_awg_raw_queue_v3.py:56-70 | a run of pushes for list 0 or 1 is read back push by push |
| QueueClients.PushPacket | petalinux_web/awg_raw_tcp/test_awg_raw_queue_v3.py:61-64 | the packet built in the batch loop is the protocol's P of the frame |
| QueueClients.EncodeWordsSnoc | petalinux_web/awg_raw_tcp/test_awg_raw_queue_v3.py:61 | joining one more packed word appends its four bytes |
| QueueClients.BuildPCommandBatch | petalinux_web/awg_raw_tcp/test_awg_raw_queue_v3.py:50-70 | the batch raises exactly when a frame is built for an id that is not a byte; otherwise it is the P commands of the alternating demo frames, 16 bytes each, and empty for no frames |
| QueueClients.RefillCommands | petalinux_web/awg_raw_tcp/test_awg_raw_queue_v3.py:160-167 | a refill is n + 2 commands: B, n pushes, E |
| QueueClients.RefillWellFormed | petalinux_web/awg_raw_tcp/test_awg_raw_queue_v3.py:160-167 | every command of a refill of list 0 or 1 passes the server's header checks |
| QueueClients.RefillParses | petalinux_web/awg_raw_tcp/awg_server_raw_queue.c:365-385 | the server reads a refill of list 0 or 1 back as B, the pushes and E |
| QueueClients.RefillV3 | petalinux_web/awg_raw_tcp/test_awg_raw_queue_v3.py:139-147 | one refill raises before anything is sent exactly when the id is not a byte, and otherwise sends B, the batch and E |
| QueueClients.ServedCount | petalinux_web/awg_raw_tcp/test_awg_raw_queue_v3.py:151-157 | the client serves every entry up to the first sentinel or unpackable id, and stops there |
| QueueClients.ServedSnoc | petalinux_web/awg_raw_tcp/test_awg_raw_queue_v3.py:151-167 | serving one more entry appends its refill to what was sent |
| QueueClients.ClientV3 | petalinux_web/awg_raw_tcp/test_awg_raw_queue_v3.py:113-180 | the v3 client sends Z and then a refill per entry served, and ends as the first unserved entry says |
| QueueClients.AllWellFormedAppend | petalinux_web/awg_raw_tcp/test_awg_raw_queue_v3.py:151-167 | well-formed runs stay well formed when joined |
| QueueClients.RefillsWellFormed | petalinux_web/awg_raw_tcp/test_awg_raw_queue_v3.py:151-167 | refills of ids 0 and 1 are well formed |
| QueueClients.ClientV3Parses | petalinux_web/awg_raw_tcp/awg_server_raw_queue.c:365-385 | when the listener only hands over ids 0 and 1, the server reads the v3 session back as Z and then B, 20 pushes and E per id, in order |
| QueueSessions.RecvExact | petalinux_web/awg_raw_tcp/test_awg_raw_queue.py:62-69 | however `recv` cuts the bytes, `recv_exact` returns exactly the next n of them and leaves the rest, or raises when the server closes first |
| QueueSessions.QueryOp | petalinux_web/awg_raw_tcp/test_awg_raw_queue.py:85-91 | `op_Q_query` sends Q and decodes the next 16 bytes of the reply stream, or raises when there are fewer |
| QueueSessions.StatsOp | petalinux_web/awg_raw_tcp/test_awg_raw_queue.py:92-99 | `op_S_stats` sends S and decodes the next 32 bytes, or raises when there are fewer |
| QueueSessions.SendFixed | petalinux_web/awg_raw_tcp/test_awg_raw_queue.py:86 | the Q and S requests are their one opcode byte |
| QueueSessions.QueryHeard | petalinux_web/awg_raw_tcp/test_awg_raw_queue.py:87-90 | the client reads back the server's Q values, counts cut to 32 bits, and leaves the bytes after the reply |
| QueueSessions.StatsHeard | petalinux_web/awg_raw_tcp/test_awg_raw_queue.py:94-98 | the client reads back the server's counters modulo 2^64 and leaves the bytes after the reply |
| QueueSessions.MaskedPush | petalinux_web/awg_raw_tcp/test_awg_raw_queue.py:78-80 | a masked P of a frame of control words is the protocol's P of the frame for the id's low bit |
| QueueSessions.PushesMasked | petalinux_web/awg_raw_tcp/test_awg_raw_queue.py:133-134 | the push loop sends the P commands of the alternating demo frames for the id's low bit |
| QueueSessions.RefillMasked | petalinux_web/awg_raw_tcp/test_awg_raw_queue_v1.py:171-175 | a refill sends B, the pushes and E for the id's low bit |
| QueueSessions.RefillBytes | petalinux_web/awg_raw_tcp/test_awg_raw_queue_v1.py:171-175 | the bytes of a refill are B's, then the pushes', then E's |
| QueueSessions.SwitchBytes | petalinux_web/awg_raw_tcp/test_awg_raw_queue_v1.py:158-179 | a Q whose reply shows the server on list `1 - next` is followed by the refill of list next, and the loop goes on with the other list |
| QueueSessions.PollBytes | petalinux_web/awg_raw_tcp/test_awg_raw_queue_v1.py:158-167 | any other reply is followed only by the next Q |
| QueueSessions.V1PrimeBytes | petalinux_web/awg_raw_tcp/test_awg_raw_queue_v1.py:126-146 | the v1 client starts with Z, T(1000), the refill of list 0 and the refill of list 1 with the frames in reverse alternation |
| QueueSessions.ClientV1 | petalinux_web/awg_raw_tcp/test_awg_raw_queue_v1.py:118-189 | the v1 client, over the replies it gets before the connection closes, sends exactly the bytes of its session |
| QueueSessions.PrimeV1 | petalinux_web/awg_raw_tcp/test_awg_raw_queue_v1.py:126-146 | the set-up part sends the priming commands |
| QueueSessions.LoopV1 | petalinux_web/awg_raw_tcp/test_awg_raw_queue_v1.py:149-179 | the `while True` loop, starting with list 0 to reload, sends the session's loop commands |
| QueueSessions.RoundV1 | petalinux_web/awg_raw_tcp/test_awg_raw_queue_v1.py:155-179 | one round consumes at least one reply and sends what the session specification sends for those replies |
| QueueSessions.ReloadV1 | petalinux_web/awg_raw_tcp/test_awg_raw_queue_v1.py:159-175 | the Q that ends the wait, then the refill of list next |
| QueueSessions.ReloadStep | petalinux_web/awg_raw_tcp/test_awg_raw_queue_v1.py:163-179 | the polls, that Q and the refill are the start of the rest of the session |
| QueueSessions.PollStep | petalinux_web/awg_raw_tcp/test_awg_raw_queue_v1.py:159-167 | a Q whose reply shows the server still on list next keeps the loop invariant |
| QueueSessions.PollUntil | petalinux_web/awg_raw_tcp/test_awg_raw_queue_v1.py:158-167 | the inner loop polls until a reply shows the server on list `1 - next`, or the replies run out |
| QueueSessions.ReloadsSafe | petalinux_web/awg_raw_tcp/test_awg_raw_queue_v1.py:152-179 | the v1 client reloads the lists in turn starting with list 0, each reload on a reply showing the server playing the other list, in reply order |
| QueueSessions.ReloadsBegin | petalinux_web/awg_raw_tcp/test_awg_raw_queue_v1.py:171 | the B commands of the loop are exactly its reloads, in order |
| QueueSessions.BeginIdsRefill | petalinux_web/awg_raw_tcp/test_awg_raw_queue_v1.py:171-175 | a refill holds one B, for its own list |
| QueueSessions.V1FromWellFormed | petalinux_web/awg_raw_tcp/test_awg_raw_queue_v1.py:152-179 | every command of the loop passes the server's header checks |
| QueueSessions.V1SessionParses | petalinux_web/awg_server_raw_queue.c:490-548 | the server reads the whole v1 session back, command by command |
| QueueSessions.Queries | petalinux_web/awg_raw_tcp/test_awg_raw_queue.py:147-150 | n polls are n Q commands |
| QueueSessions.ClientBase | petalinux_web/awg_raw_tcp/test_awg_raw_queue.py:117-156 | the base client sends its priming, a Q per poll and then S |
| QueueSessions.PollBase | petalinux_web/awg_raw_tcp/test_awg_raw_queue.py:146-150 | the polling loop sends one Q per pass |
| QueueSessions.PrimeBase | petalinux_web/awg_raw_tcp/test_awg_raw_queue.py:123-143 | Z, T(1000), and I, B, the pushes and E for list 0 and then for list 1 |
| QueueSessions.BasePrimeBytes | petalinux_web/awg_raw_tcp/test_awg_raw_queue.py:123-143 | the priming bytes in their order, list 1's frames in reverse alternation |
| QueueSessions.BaseSessionParses | petalinux_web/awg_server_raw_queue.c:490-548 | the server reads the whole base session back, command by command |
| QueueSessions.PushesOfSession | petalinux_web/awg_raw_tcp/test_awg_raw_queue.py:131-143 | every P of the base session is a three-word frame for list 0 or 1 |
| QueueListener.IdleIdsAppend | petalinux_web/awg_raw_tcp/test_awg_raw_queue_v3.py:88-103 | the ids picked from two runs of lines are those of each run, in order |
| QueueListener.IndexOf | petalinux_web/awg_raw_tcp/test_awg_raw_queue_v3.py:89 | `split(b'\n', 1)` cuts at the first newline: the position holds one and none comes before it |
| QueueListener.DrainLines | petalinux_web/awg_raw_tcp/test_awg_raw_queue_v3.py:88-103 | the inner loop queues the IDLE ids of the complete lines of the buffer, in order, and keeps the unterminated tail |
| QueueListener.CutLine | petalinux_web/awg_raw_tcp/test_awg_raw_queue_v3.py:89 | cutting the first line off the buffer moves it to the lines done and leaves the rest to split |
| QueueListener.Entries | petalinux_web/awg_raw_tcp/test_awg_raw_queue_v3.py:101 | one queue entry per id, in order |
| QueueListener.Listener | petalinux_web/awg_raw_tcp/test_awg_raw_queue_v3.py:73-110 | over the chunks `recv` returns, the listener queues the IDLE id of every complete line of the whole text, in order, then the sentinel |
| QueueListener.ReceiveStep | petalinux_web/awg_raw_tcp/test_awg_raw_queue_v3.py:82-89 | receiving a chunk queues the ids of the lines before it and then those the buffered tail and the chunk complete together |
| QueueListener.LinesAppend | petalinux_web/awg_raw_tcp/test_awg_raw_queue_v3.py:87-89 | more text completes the buffered tail: the complete lines stay, and the tail with the text is split on its own |
| QueueListener.RecordBody | petalinux_web/awg_raw_tcp/awg_server_raw_notify.c:45 | a record is its `LIST<id>:<STATE>` text and a newline |
| QueueListener.RecordLine | petalinux_web/awg_raw_tcp/awg_server_raw_notify.c:45 | a record is one complete line and leaves nothing buffered |
| QueueListener.NoNewline | petalinux_web/awg_raw_tcp/awg_server_raw_notify.c:42-45 | the text of a record holds no newline |
| QueueListener.BodyIdle | petalinux_web/awg_raw_tcp/test_awg_raw_queue_v3.py:90-101 | the listener picks a record's id exactly when it says IDLE |
| QueueListener.BodyUnspaced | petalinux_web/awg_raw_tcp/test_awg_raw_queue_v3.py:90 | a record needs no strip: it neither starts nor ends with whitespace, and its colon sits at position 5 |
| QueueListener.BodyParts | petalinux_web/awg_raw_tcp/test_awg_raw_queue_v3.py:96-98 | a record splits on ':' into `LIST<id>` and the status name |
| QueueListener.NameIdle | petalinux_web/awg_raw_tcp/test_awg_raw_queue_v3.py:98 | a status name equals "IDLE" exactly for the IDLE status |
| QueueListener.RecordTexts | petalinux_web/awg_raw_tcp/awg_server_raw_notify.c:45-46 | one text per record sent |
| QueueListener.RecordsHeard | petalinux_web/awg_raw_tcp/test_awg_raw_queue_v3.py:80-103 | however the notifier's records are cut into chunks, the listener queues exactly the ids of the IDLE records, in order, and leaves nothing buffered |
| QueueListener.ConnectHeard | petalinux_web/awg_raw_tcp/awg_server_raw_notify.c:69-75 | a client that connects hears list 0's and then list 1's status, and queues each list that is IDLE |
| QueueListener.Announced | petalinux_web/awg_raw_tcp/awg_server_raw_notify.c:74-75 | the two records of a connection are for lists 0 and 1 |
| QueueListener.AnnouncedTexts | petalinux_web/awg_raw_tcp/awg_server_raw_notify.c:74-75 | their texts are the record of list 0, then of list 1 |
| QueueListener.AnnouncedIdles | petalinux_web/awg_raw_tcp/awg_server_raw_notify.c:74-75 | their IDLE ids are 0 when list 0 is IDLE, then 1 when list 1 is |
| RawClients.WFrame | petalinux_web/awg_raw_tcp/test_awg_raw.py:40-45 | `send_frame` raises exactly when the count does not fit 16 bits, and otherwise sends 2 + 4 * count bytes |
| RawClients.ReadWFrame | petalinux_web/awg_raw_tcp/awg_server_raw_mmap.c:164-185 | a W-frame is read exactly when the bytes announced by its count are there, giving that many words and the bytes after it |
| RawClients.WFrameRoundTrip | petalinux_web/awg_raw_tcp/test_awg_raw.py:42-44 | a frame the client sends reads back as its words masked to 32 bits, the bytes after it untouched |
| RawClients.SendFrame | petalinux_web/awg_raw_tcp/test_awg_raw.py:40-45 | the header followed by the payload joined word by word is the W-frame |
| RawClients.WStreamRoundTrip | petalinux_web/awg_raw_tcp/awg_server_raw_mmap.c:160-190 | a stream of frames of 32-bit words reads back as exactly those frames |
| RawClients.WStreamSnoc | petalinux_web/awg_raw_tcp/test_awg_raw.py:84 | one more frame sent appends its bytes to the stream |
| RawClients.Toggles | petalinux_web/awg_raw_tcp/test_awg_raw.py:66-85 | n steps give n frames, each of which fits a W-frame |
| RawClients.WClient | petalinux_web/awg_raw_tcp/test_awg_raw.py:58-88 | after n steps the W client has written the W-frames of the first n toggle frames |
| RawClients.WClientStep | petalinux_web/awg_raw_tcp/test_awg_raw.py:66-85 | one step of the loop appends the frame of its toggle and flips the toggle to the next step's parity |
| RawClients.TogglesSnoc | petalinux_web/awg_raw_tcp/test_awg_raw.py:67-81 | step i adds the 1 kHz frame at even i and the 20 kHz frame at odd i |
| RawClients.NextParity | petalinux_web/awg_raw_tcp/test_awg_raw.py:85 | `toggle ^= 1` keeps the toggle equal to the step's parity |
| RawClients.WClientHeard | petalinux_web/awg_raw_tcp/test_awg_raw.py:66-85 | a receiver reads the toggle frames back in order, step i carrying the 1 kHz index at even i and the 20 kHz index at odd i, full gain and a commit |
| RawClients.CIndexWord | petalinux_web/test_awg_single_channel.c:15-21 | the C test's index word is the same word as the Python clients' `make_index_word` |
| RawClients.CGainWord | petalinux_web/test_awg_single_channel.c:15-24 | the C test's gain word is the same word as the Python clients' `make_gain_word` |
| RawClients.CFrame | petalinux_web/test_awg_single_channel.c:51-54 | the C test's frame for an index is the Python clients' demo frame |
| RawClients.TogglesPair | petalinux_web/test_awg_single_channel.c:48-68 | two toggle steps send the 1 kHz frame and then the 20 kHz frame |
| RawClients.FlattenTogglesAt | petalinux_web/awg_raw_tcp/test_awg_raw.py:66-85 | n toggle frames are 3n words, word k being word k % 3 of frame k / 3 |
| RawClients.AllAreAppend | petalinux_web/test_awg_single_channel.c:55-65 | return codes all equal to one value stay so when joined |
| RawClients.SingleChannelPass | petalinux_web/test_awg_single_channel.c:50-67 | one pass writes the 1 kHz frame and then the 20 kHz frame to the data register, strobing each of the six words once, and both sends return 0 |
| RawClients.PassStrobes | petalinux_web/awg_raw_tcp/awg_core_mmap.c:149-158 | the strobes of i passes followed by six more are the strobes of i + 1 passes |
| RawClients.PassesWordsToggles | petalinux_web/test_awg_single_channel.c:48-68 | n passes of the C test write the first 2n toggle frames of the W client, in order |
| RawClients.PassWordsStep | petalinux_web/test_awg_single_channel.c:48-68 | the words of i passes followed by one pass are the words of i + 1 passes |
| RawClients.SingleChannelMain | petalinux_web/test_awg_single_channel.c:36-68 | on the awg_raw_tcp core: exit 1 with nothing written when `awg_init` fails; otherwise 2 sends per round, all returning 0, writing the toggle frames in order with one strobe per word |
| RawClients.SingleChannelMainFixed | petalinux_web/awg_core_mmap.c:245-258 | on the top-level core, whose `awg_send_words32` takes only 32 words: every send of the C test returns -2 and no word reaches the registers |

## Left out

- QueueEngine.QueueServer.DoPreloadBegin: the allocation failure of `ensure_frame_meta` (petalinux_web/awg_server_raw_queue.c:365-376) is not modelled. In the source, a failed B returns false after `words_used` and `ready` were already reset, and it leaves the stale `total_frames`/`loaded_frames` in place. The model always allocates the frame table, so B fails only for a bad id or a zero total. QueueEngineSpec.BeginResets states the same always-allocated step. The `awg_raw_tcp` engine models the failure as the `metaOk` parameter of RawQueueEngine.RawQueueServer.DoPreloadBegin.
- QueueEngineSpec.PushAppends: `words_used` is a uint32 and the capacity request `want` can wrap. The model's word counts are unbounded, so a list of more than 2^32 words has no wrap-around here. The allocation outcome itself is the `allocOk` parameter.
- FrameStore.FrameList.EnsureWordsCap: the growth of `words_cap` in 4096-word steps and the byte size `want*4` passed to `realloc` are uint32/size_t quantities in the source. The model does not capture their overflow.
- QueueProtocol.ParseCommand: the u16 `count` of a P header and the u32 totals, ids and periods are read at their own widths, so these fields are modelled exactly. The stats are u64 and the Q fields u32 in the replies, and they are written modulo 2^64 and 2^32 (QueueProtocol.StatsReply, QueueProtocol.QueryReply). Only the internal counters listed above are unbounded.
- QueueEngine.QueueServer.ServeClient: the player thread runs beside the client handler under `G.mtx`. The model runs the session with the player asleep and interleaves whole commands and whole ticks as atomic events (QueueEngineSpec.Run, RawQueueSpec.RunOk), so the lock windows, partial reads and tearing between the two threads are not modelled.
- RawQueueEngine.RawQueueServer.ServeClient: the same atomic-event abstraction of the player thread, the accept thread and `g_list_status` updates. The busy-wait loops of `start_queue_server` and `stop_queue_server` (petalinux_web/awg_raw_tcp/awg_server_raw_queue.c:451, 466, 537, 547) appear only as the order of events in RawQueueSpec. The shutdown flush of `stop_queue_server` (490-560) is not modelled.
- Notify.Notifier.NewListener: the notifier's own socket, its accept loop and the thread that writes to it are left out. The model keeps the last status sent per list and the text each listener hears.
- HexFrames.SinglePeakMain: the `sleep_ns` pauses between frames (petalinux_web/test_awg.c:72, 78) are left out. The model records the frames and return codes in order, with no time.
- RawClients.WClient: the `GAP_MS` pause between W frames is left out; only the order of frames is modelled.
- PyAwg.SendAwgTable: a pulse width of 0 or more (`wen_pulse_us`) is timing only. The model records the level sequence of the WEN line, not its durations. Only the sign of the width is modelled, because a negative one makes `time.sleep` raise.
- QueueEngineSpec.Run: the tick period (`period_us`, `clock_nanosleep`) is not a time here. A tick is the `Wake` event, and T only stores the period that Q reports.
- QueueSessions.ClientBase: the five seconds the base client polls for are the number `polls` of Q commands it gets through.
- QueueClients.ClientV3: the 5.0-second `queue.get` timeout is an entry of `None` in the listener queue, which ends the loop the same way.
- PyAwg.ApplyPayload: Python floats are left out. `_gain_f_to_q17` and the `gainA_f`/`gainB_f` lists are abstracted as the `floatGains` parameter, the already-converted gain tables. The float path is taken exactly when a `_f` key is present. JSON floats are not among the `Value`s.
- PyAwg.ApplyForm: in the same way, `gain_f_to_q17` and `_to_float_list` (petalinux_web/awg_apply.py:80-95) are the `floatGains` parameter. A float token that `float()` rejects is modelled as a failed `floatGains` (`None`), which writes nothing.
- PyText.PyInt: Python's `int()` is modelled for optional surrounding whitespace, an optional sign, and decimal digits (base 10) or hex digits with an optional `0x` prefix (base 16). Other bases and non-ASCII digits are not modelled.
- PyForms.Value: a JSON object is `DictValue` with only an emptiness flag and no contents, because the code only tests whether a value is a dict and, through `or`, whether it is empty.
- PyAwg.ApplyForm: a `wen_offset` that is no line of the WEN chip makes `gpiod.request_lines` raise before the first write. Line requests are left out, so the model writes the table for any integer offset.
- QueueListener.Listener: `.decode()` of the received bytes is left out. The chunks are text already, so the listener ending on invalid UTF-8 is not modelled.
- AwgCores.MmapCore.SendWords32Fixed: the top-level awg_core_mmap.c:247 tests `g_data_req` and `g_wen_req`, which that file never declares. The guard is modelled on the mapped registers, the way the `awg_raw_tcp` core guards its sends.
- AwgCores.MmapCore: `/dev/mem`, `mmap`, memory barriers and `gpio_write`/`gpio_read` are replaced by the sequences of data words and WEN levels written to the two registers.
- AwgCores.GpiodCore: libgpiod chips and line requests are replaced by the values set on the 33 lines.
- QueueSessions.RecvExact: sockets are left out. This covers `read_n_timeout`, the `poll`/`recv` loops, the accept loops, `setsockopt`, `connect` and mDNS. A reply is a sequence of byte chunks, and a session is the byte sequence sent.
- Transport-only files are not part of this model: `awg_raw_tcp/awg_server_raw_direct.c`, both `awg_server_raw_mmap.c`, both `awg_server_raw_top.c`, both `awg_server_udp_mmap.py`, and `awg_ws/awg_server_ws_mmap.py`. They check a length and forward to the cores. Their 336-character slices are taken as given by HexCodec.
- HexCodec.ParseHexN: every byte it reads must be a hex digit (`requires IsHexDigit`/`AllHex`), and so must every byte read by NibbleValue, ParseIdx3, ParseGain18Low5, IndexWords, GainWords, Hex4Words and the cores' SendHex4. `parse_hex_n` performs no validation (petalinux_web/awg_raw_tcp/awg_core_mmap.c:123-125), and the transport servers pass any 336-byte payload to it. A non-hex byte, which the C expression turns into an arbitrary nibble that is OR-ed into the accumulator, is outside the model.
- `awg_raw_tcp/test_awg_raw_queue_reset.py` only sends Z. It is not modelled separately, because QueueProtocol.ParseEncode covers its one command.
- The Flask routes, the CGI header printing, the websockets server and the JSON response assembly are left out. The model starts from the decoded payload or form.

## Findings

| source | as written | input that shows it | evidently intended | confidence | as-written member | corrected member |
|---|---|---|---|---|---|---|
| petalinux_web/awg_server_raw_queue.c:255-258 | an idle player skips every tick (`if (!G.playing) continue;`), and only P/E completing list 0 restarts it | list 0 played out and the player idle, then B 1, P for every frame of list 1, E 1: list 1 is READY, but every later tick sends nothing | the header comment at lines 36-37: when the other list becomes READY, an idle player picks it up at the next tick | high, not executed | QueueEngineSpec.EndOnListOneStaysIdle | QueueEngineSpec.PickingUpPlaysList |
| petalinux_web/awg_server_raw_queue.c:140-141 | `bytes_rx` and `frames_pushed` are declared and reported by S (line 471), but nothing ever increments them | any session with P commands followed by S: the first 16 reply bytes are zero | `bytes_rx` grows by the bytes each client sends, and `frames_pushed` by each accepted P | high, not executed | QueueEngineSpec.StatsFirstFieldsZero | QueueEngineSpec.CountedServeCounts |
| petalinux_web/awg_raw_tcp/awg_server_raw_queue.c:450-451 | the wait for list 0 to go IDLE passes at once, because loading a priming list never moves its status off IDLE; list 1 is then loaded and made current | server start-up with every allocation succeeding: list 1 plays first, and list 0 waits behind it | the comments at lines 450 and 470: the player finishes list 0, then list 1, and is idle before a client is accepted | medium, not executed | RawQueueSpec.PrimingPlaysListOneFirst | RawQueueSpec.PrimeWaitingPlaysInOrder |
| petalinux_web/awg_server_raw_queue.c:213-232 | `send_zero_output` builds 16 gain-0 words and a commit, and hands all 17 to `awg_send_words32`; the top-level core's version accepts exactly 32 (petalinux_web/awg_core_mmap.c:248) and returns -2 | any X with the top-level core linked (which also refuses every tick frame not 32 words long, petalinux_web/awg_core_mmap.c:248): nothing is written to the hardware, and the output keeps its last gains | the comment at lines 19 and 212 ("actively zero output"): X writes a gain of 0 for every tone of both channels, then commits, as it does with the awg_raw_tcp core, which takes any positive count | low, not executed | AwgCores.FixedCoreRefusesZeroOutput | AwgCores.FlexibleCoreSendsZeroOutput |
