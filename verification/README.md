# tvwsdr: a verified model

tvwsdr drives a USB television bridge and its TDA18271 silicon tuner as a software radio. This project models the
parts of the driver that carry its protocols and its arithmetic, and proves what they are for:

* `Deframer.dfy`: the in-place work buffer that cuts the isochronous byte stream into boundary sections. It refines one
  pure parse of the whole stream, however USB splits it, and it is lossless exactly when
  gap + 31 + packet size fits the buffer.
* `Codec.dfy`, `UsbPipe.dfy`: the register operations as they go over the wire, and the trace decoder of
  `docs/ati-array.pl`. The decoder inverts the driver exactly on the legal lists of operations.
* `Mailbox.dfy`: service calls to the 8051, over all interleavings of host and micro.
* `Firmware.dfy`: the firmware upload in blocks to a 16-bit address that wraps around.
* `I2c.dfy`: I2C transfers in chunks of 29 or 30 bytes, against a model of the bridge's master and of the chip.
* `Tables.dfy`, `Lookup.dfy`, `Pll.dfy`: the tuner's tables, the lookup loops over any well-formed table, and the
  divider arithmetic in 32-bit words.
* `Bands.dfy`: the arithmetic of the tracking-filter calibration and of the correction computed from it.
* `Tuner.dfy`, `Calibration.dfy`, `Tuning.dfy`: the tuner with its shadow registers: register scripts, power scan,
  calibration of a frequency, a band and all bands, correction, channel configuration and `tda18271_tune`.
* `Words.dfy`: bytes, 32-bit words and C division.

## How the environment is modelled

Whatever the driver does not control is arbitrary: every byte the chip or the device answers, whether a transfer
succeeds, how USB cuts the stream, when the 8051 takes its steps. Three constants of the I2C bridge name the
assumptions that some statements need. `reliable`: no transfer fails and the I2C master finishes within the polls.
`honest`: bits 7 to 5 of EP3 are read back as the chip holds them. `echo`: so are EP2, EP3 and EP4 as a whole; the
driver copies every answer into its shadow and writes these registers again from there. A statement that does not
mention one of them does not need it. `Chip()` is the chip's register file as the bytes accepted on the bus have left
it. The bridge counts the reads of the chip in `asked`, and `Said(k, r)` is what the chip answers for register `r` to
read number `k`: an arbitrary script, except for the bits that an honest or echoing chip answers as it holds them.

What is said about measuring is said about these answers. A tuner keeps three ghost records: `log` of its power
measurements (number of the read, EB10 as answered, set-up of the chip at the launch), `launches` of its calibrations
(the registers at the launch, pumps and lock before it, and the number of the read to come), and `origins`, which names
for every anchor of every band the samples, the launch and the read it comes from. `Genuine` says what such a finding
must be: samples, launch and read in this order. Two more, `rejections` and `pulses`, hold the steps of the image
rejection calibration and the charge pumps released elsewhere. What the bus carried is `m.chunks`; `Wire` is one write
of registers on it.

The driver's objects are classes whose methods update the same fields and arrays; loops of the source are loops here.
Sleeps have no effect in the model, and messages to stderr are dropped.

## What turned out differently than the code suggests

* The slopes `rf_a1` and `rf_a2` are always stored as 0: a difference of bytes is at most 510 in magnitude and the
  divisor is at least 66692 (`SlopeVanishes`). So the correction is a constant offset on each side of RF2. A band with
  two anchors meets its second anchor exactly when the dividend of the lost slope is 0, or the byte is at the end of its
  range that the slope would have left (`TwoPointRf2Exactly`); it misses it for anchors a scan can return
  (`TwoPointMisses`).
* The corrected byte is cast to eight bits without clamping. `CorrectedExactly` gives the temperatures between which it
  does not wrap; `CorrectionWraps` shows a C2 for which it does: calibrated cold and tuned hot, 257 is stored as 1.
* After a poll timed out, the next service call may take the completion of the earlier one for its own. A true return
  can be trusted exactly when the micro is quiet (`TrustedExactly`). The host cannot see that after a false return:
  whatever it was returned since, some run with the same returns leaves a request waiting (`TrustedByReturns`), although
  others recover (`RecoversUnseen`).
* Every read overwrites the shadow. So from the second reading of a scan on EP2, and after a calibration EP3, are
  written as the chip answered them; and the second read of the thermometer finds it on only if the first answer said
  so (`Sense`).
* Firmware files of more than 65536 bytes overwrite their own beginning: the memory holds the file exactly when the
  bytes that share an address agree (`HoldsFileExactly`).
* A write of more than 58 bytes or a read of more than 60 sends a stop condition before its last chunk, and a read of at
  most 30 bytes sends none (`WriteStopsLast`, `ReadStopsLast`). The driver writes at most 40 bytes; it reads 16 or 39.
* The result of `tda18271c2_rf_cal_init` is ignored by `tda18271_init`, and that of the correction by `tda18271_tune`.
  A tune that reports success is in normal mode all the same (`Tune`).

## Model

| member | source | states |
|---|---|---|
| Deframer.ParsePartitions | src/libtvwsdr.c:2343-2370 | serialising the frames of the parse and appending its left-over gives the stream back |
| Deframer.ParseWellFormed | src/libtvwsdr.c:2345-2356 | every frame found is a run without 0xff followed by 32 bytes that start with 0xff, and the left-over holds no complete section |
| Deframer.ParseUnique | src/libtvwsdr.c:2343-2370 | the parse is the only such partition: parsing serialised well-formed frames with an incomplete tail returns both |
| Deframer.ParseResumes | src/libtvwsdr.c:2339-2374 | parsing a prefix and resuming on its left-over equals one parse of the whole |
| Deframer.RunIsParse | src/libtvwsdr.c:2330-2375 | in a run without resets the callbacks and the pending bytes are those of one greedy parse of the concatenated packets |
| Deframer.SplitIndependent | src/libtvwsdr.c:2330-2375 | two packetisations of the same stream without resets are observed alike |
| Deframer.BytesConserved | src/libtvwsdr.c:2335-2374 | in every run, with or without resets, bytes received = bytes consumed by callbacks + bytes discarded + bytes pending |
| Deframer.SinceLastReset | src/libtvwsdr.c:2335-2374 | in every run: since the last packet that did not fit behind the pending bytes, callbacks and pending bytes are those of one parse of what arrived from then on; a reset drops what was pending and nothing else |
| Deframer.PendingIncomplete | src/libtvwsdr.c:2343-2374 | in every run the pending bytes hold no complete section |
| Deframer.PendingWithin | src/libtvwsdr.c:2345-2374 | with gaps of at most `gap` bytes and no reset, at most gap + 31 bytes are pending |
| Deframer.Lossless | src/libtvwsdr.c:2335-2337 | the reset never fires if gap + 31 + packet size is at most 8192, for any packetisation |
| Deframer.TooSmallLoses | src/libtvwsdr.c:2335-2337 | otherwise there is a stream with such gaps, and a packetisation, for which it fires |
| Deframer.LosslessExactly | src/libtvwsdr.c:2335-2337 | both together: the exact condition for losing nothing |
| Deframer.RoundTrip | src/libtvwsdr.c:2330-2400 | frames with payloads of at most 5089 bytes, serialised, cut into packets of at most 3072 bytes anyhow and deframed, come back unchanged |
| Deframer.Device.Scan | src/libtvwsdr.c:2343-2370 | the in-place scan hands out exactly the frames of the pure parse of the buffer and stops at its left-over |
| Deframer.Device.Accept | src/libtvwsdr.c:2335-2341 | the buffer then holds what was kept followed by the new data; what the overflow check drops is counted |
| Deframer.Device.DeframeIsochData | src/libtvwsdr.c:2330-2375 | one call has the effect of the pure step, without passing the end of the buffer |
| Deframer.Device.XferCb | src/libtvwsdr.c:2377-2400 | one completed transfer has the effect of a run over all its packets, although empty ones are skipped; without callback or completion nothing changes |
| Deframer.EmptyPacket | src/libtvwsdr.c:2392-2394 | deframing an empty packet would change nothing |
| Codec.HeaderFields | src/util.c:36-48 | the four words put into a header are read back from its bytes by the decoder's joins, and its last two words are the complements of register and page |
| Codec.MicroOnWire | src/util.c:202-250 | byte by byte the headers of an access to the micro, and the word written to it: command, register and value |
| Codec.ReadOnWire | src/util.c:30-48 | a read asks with bit 15 of the flags and no other, except after the firmware upload, when the flags are 0xbfc1 and four bytes come |
| Codec.DecodeTrace | docs/ati-array.pl:18-80 | the loop over the lines computes the same output and states as the step function |
| Codec.DecodeConcat | docs/ati-array.pl:21-80 | decoding two traces in turn is decoding them at once |
| Codec.DecodeReg | docs/ati-array.pl:26-51 | a plain read or write comes back as its entry if and only if it does not look like the micro (0x4400, length 4) |
| Codec.DecodeUcRead | docs/ati-array.pl:52-79 | a read of the micro, four lines, comes back as its entry |
| Codec.DecodeUcWrite | docs/ati-array.pl:52-61 | a write of the micro comes back as its entry |
| Codec.DecodeUcSeqRead | docs/ati-array.pl:62-69 | a sequential read is closed at once after a read of the micro; otherwise the decoder waits for two more lines |
| Codec.RoundTrip | docs/ati-array.pl:18-80 | for every legal list of operations the decoder prints the list, and is ready for the next header |
| Codec.IllegalOp | docs/ati-array.pl:33-69 | an illegal operation is not decoded to its entry |
| Codec.RoundTripExactly | docs/ati-array.pl:18-80 | the decoder stays in step after every operation exactly for the legal lists |
| Codec.ListingTells | docs/ati-array.pl:72-78 | the listing gives the list of operations back, up to what an entry records |
| Codec.TraceTells | docs/ati-array.pl:18-80 | two legal lists whose traces decode to the same output agree in everything the output records |
| UsbPipe.FillHeader | src/util.c:39-49 | the twelve bytes are address, page, length, flags, and the complements of address and page, little endian |
| UsbPipe.Pipe.InternalReadReg | src/util.c:24-60 | a successful read puts on the wire what the codec prescribes for it, the read after the firmware upload included |
| UsbPipe.Pipe.InternalWriteReg | src/util.c:62-90 | so does a successful write |
| UsbPipe.Pipe.UcReadReg | src/util.c:202-230 | so does a read of the micro, whose value is the first byte of the answer |
| UsbPipe.Pipe.UcWriteReg | src/util.c:232-250 | so does a write of the micro |
| UsbPipe.Pipe.UcRmwReg | src/util.c:252-265 | a read and the write of the masked and changed value, in this order |
| Mailbox.NeverClobbers | src/util.c:286-310 | from any state and for any schedule no argument and no id is written while busy is set; at most ten polls are made; a call that finds busy set returns false after this one access |
| Mailbox.TrueExactlyInTime | src/util.c:300-310 | a call to a quiet micro returns true if and only if the micro takes its two steps between the write of the id and the tenth poll; one that returns false has polled ten times |
| Mailbox.TrueMeansCompleted | src/util.c:280-313 | on a quiet micro a true return means that this very id with these arguments was completed and acknowledged, and that the micro is quiet again |
| Mailbox.AllTrueMeansAllCompleted | src/util.c:280-313 | if every call of a list returned true, the micro served exactly these requests, in order |
| Mailbox.StaleCompletion | src/util.c:301-310 | if the micro is not quiet, whatever it is doing, some schedule makes a call return true for a request that was not completed |
| Mailbox.TrustedExactly | src/util.c:280-313 | from any state, a true return can be trusted exactly when the micro is quiet |
| Mailbox.ReturnTellsQuiet | src/util.c:301-312 | what the host sees tells it: a call to a quiet micro returns true exactly when it leaves the micro quiet |
| Mailbox.EveryListReturned | src/util.c:280-313 | every list of returns is that of some run from a quiet micro; unless all are true, of one that leaves a request waiting |
| Mailbox.TrustedByReturns | src/util.c:280-313 | of all runs from a quiet micro that go on whatever is returned and return a given list, the next true return can be trusted in every one exactly when all values of the list are true; requests and list are arbitrary |
| Mailbox.TrustedWhileTrue | src/util.c:280-313 | in runs that stop at the first false return the next true return can be trusted exactly while there was none |
| Mailbox.RecoversUnseen | src/util.c:280-313 | a false return does not tell the opposite: a run returns false and true, the second from the completion of the first request, and leaves the micro quiet |
| Mailbox.Host.ServiceCall | src/util.c:280-313 | the driver's code is the call of the two-party model |
| Firmware.BlocksFit | src/util.c:372-383 | block j is the file from 512 * j on, 512 bytes or what is left, sent to that address modulo 65536; it is not empty and does not cross the end of the address space |
| Firmware.WholeFileSent | src/util.c:372-383 | the blocks put together are the file |
| Firmware.AddressesDistinct | src/util.c:372-383 | up to 65536 bytes block j goes to address 512 * j, so no address repeats |
| Firmware.StoreExtends | src/util.c:379 | storing the next block turns the memory after a prefix of the file into the memory after the longer prefix |
| Firmware.HoldsFileExactly | src/util.c:372-383 | after the upload the memory holds the file if and only if bytes 65536 apart agree |
| Firmware.SmallFileHeld | src/util.c:372-383 | a file of at most 65536 bytes lies at the start of the memory, and the rest is untouched |
| Firmware.Loader.LoadFw | src/util.c:354-395 | success: all blocks were sent and the memory is the uploaded one; failure: exactly a prefix of the blocks was; an empty file is refused |
| I2c.WriteChunksFit | src/util.c:571-578 | every GO of a write covers exactly its announced bytes, at most 29 |
| I2c.WriteChunksPartition | src/util.c:587-638 | the chunks of a write put together are the buffer |
| I2c.WriteSlaveRegs | src/util.c:587-653 | the chunks amount to one transaction: the chip's registers are those after one message of the first 58 bytes |
| I2c.WriteStopsLast | src/util.c:554-556 | the stop condition comes with the last chunk and no other, exactly for at most 58 bytes |
| I2c.RegistersSet | src/util.c:580-638 | a message of an index and data sets that many registers from the index on and no others |
| I2c.ReadChunksFit | src/util.c:431-438 | every GO of a read covers exactly its announced bytes, at most 30 |
| I2c.ReadChunksPartition | src/util.c:459-514 | the chunks of a read put together are the answer |
| I2c.ReadStopsLast | src/util.c:459-508 | exactly the reads of 31 to 60 bytes end with the only stop condition |
| I2c.Bridge.WaitClear0 | src/util.c:315-332 | a wait changes nothing but that the master may finish; after a successful wait for GO it is idle; with no failing transfer the wait succeeds |
| I2c.Bridge.WriteI2c | src/util.c:519-654 | success: the chunks are those of the split and the chip took the whole message (up to 58 bytes); failure: it took a prefix; no GO ever disagrees with its announcement, and the first one carries the write address |
| I2c.Bridge.ReadI2c | src/util.c:397-517 | success: the buffer holds the answer; failure: every byte is the answer's or the old one; the registers do not change; no GO disagrees with its announcement, and the first one carries the address with its read bit |
| Lookup.SlotIsLeast | src/tda18271-maps.c:1102-1112 | in a well-formed table the slot is the least entry that covers the frequency, else the last real one; it is unique and never the sentinel |
| Lookup.LookupEntry | src/tda18271-maps.c:1102-1112 | the loop finds the slot, and reports -ERANGE exactly beyond the last entry |
| Lookup.LookupPllMap | src/tda18271-maps.c:1067-1118 | post-divider and divider are those of the slot |
| Lookup.LookupMap | src/tda18271-maps.c:1120-1189 | the value is that of the slot |
| Lookup.LookupCidTarget | src/tda18271-maps.c:978-996 | target and limit are those of the slot |
| Lookup.LookupRfBand | src/tda18271-maps.c:1019-1047 | although it runs into the sentinel, it succeeds for the same frequencies as the lookup in the RF band table, with the same band |
| Lookup.LookupThermometer | src/tda18271-maps.c:932-952 | the loop finds the row of the nibble |
| Lookup.TemperatureRange | src/tda18271-maps.c:912-930 | every reading is a temperature from 60 to 122 |
| Lookup.ThermometerCode | src/tda18271-maps.c:912-952 | a reading is 60, or 92 in the high range, plus twice the number that the nibble is the Gray code of |
| Lookup.SaturatedIsEnd | src/tda18271-fe.c:230-231 | 90 in the low and 92 in the high range are the readings closest to the other range: no byte of the same range reads closer |
| Lookup.SaturatedNibble | src/tda18271-fe.c:230-231 | the bytes the driver tests for are exactly those readings |
| Pll.PllExact | src/tda18271-common.c:483-489 | in range of a PLL table nothing overflows 32 bits, the divider word has at most 23 bits, the three bytes lose nothing, and they determine the frequency to the kHz |
| Pll.PllDivides | src/tda18271-common.c:483-489 | the three bytes, most significant first, are 128 * d / 125 times the frequency in kHz, rounded down |
| Pll.PllInjective | src/tda18271-common.c:483-489 | two frequencies that leave the same post-divider and the same three bytes agree to the kHz, in whatever rows they are: the post-divider encodes the divider |
| Pll.C1MainTable | src/tda18271-maps.c:36-78 | the C1 main PLL table is such a table |
| Pll.C2MainTable | src/tda18271-maps.c:80-122 | so is the C2 main PLL table |
| Pll.C1CalTable | src/tda18271-maps.c:124-161 | so is the C1 calibration PLL table |
| Pll.C2CalTable | src/tda18271-maps.c:163-199 | so is the C2 calibration PLL table |
| Pll.VcoWindow | src/tda18271-maps.c:80-122 | above 33.125 MHz and up to 994 MHz the divider of the C2 main PLL keeps the oscillator between 7064 and 7952 MHz |
| Bands.DivisorLarge | src/tda18271-fe.c:624-634 | no divisor is zero: between anchors near their defaults it is at least 66692 |
| Bands.SlopeVanishes | src/tda18271-fe.c:622-635 | the quotient of the dividend by such a divisor is 0 |
| Bands.FitExtends | src/tda18271-fe.c:615-638 | one more anchor: the division is defined, the slopes stay 0 and the anchors determine the record |
| Bands.FittedIsCalibrated | src/tda18271-fe.c:593-640 | with an anchor for every default: rf1 is not 0, rf2 and rf3 are 0 exactly where the defaults are, and rf1 < rf2 < rf3 |
| Bands.AnchorInBand | src/tda18271-maps.c:1000-1017 | an anchor within 4000 Hz of its default is looked up in its own band |
| Bands.ApproxIsOffset | src/tda18271-fe.c:288-299 | the interpolation adds a constant offset on each side of RF2, clamped to a byte |
| Bands.ThroughRf1 | src/tda18271-fe.c:288-294 | at the first anchor it is the measured byte |
| Bands.ThroughRf2 | src/tda18271-fe.c:291-294 | at the second anchor it is, if the band has three |
| Bands.TwoPointRf2Exactly | src/tda18271-fe.c:288-290 | in a band of two the second anchor is met exactly when the dividend of the lost slope is 0, or the byte is 255 and the slope would have to fall, or 0 and it would have to rise |
| Bands.Rf3Exactly | src/tda18271-fe.c:291-294 | likewise at the third anchor, with the slope from the second one |
| Bands.CompensationBound | src/tda18271-fe.c:303-304 | between any two thermometer readings the temperature compensation is at most 9 |
| Bands.CorrectedExactly | src/tda18271-fe.c:303-306 | the stored byte is the compensated one exactly when the slope times the rise in temperature stays below 1000 * (256 - approx), and times the fall below 1000 * (approx + 1); otherwise the cast wraps |
| Bands.CorrectedMoves | src/tda18271-fe.c:303-306 | the stored byte is the interpolated one moved by dc * (change in temperature) / 1000, rounded toward 0, in the direction of the change; beyond an end of the byte it is that value moved by 256 |
| Bands.CompensatedOnce | src/tda18271-fe.c:303-306 | there is only one such byte |
| Tuner.C1LayoutOk | src/tda18271-maps.c:1261-1272 | the C1 layout meets what the model assumes of a layout, whatever its unlisted tables, if all but its calibration table reach 865 MHz |
| Tuner.C2LayoutOk | src/tda18271-maps.c:1274-1287 | so does the C2 layout, if all its unlisted tables reach 865 MHz |
| Tuner.MessageStores | src/tda18271-common.c:177-182 | what any prefix of a register message does to each register |
| Tuner.Fe.constructor | src/tda18271-fe.c:1292-1333 | a new tuner: not calibrated, the calibration state copied from the template |
| Tuner.Fe.WriteRegs | src/tda18271-common.c:170-190 | success sets exactly the registers idx..idx+len-1 of the chip to the shadow; after a failure each of them is new or old; the bus carried that one message and nothing else; write-only registers stay in agreement |
| Tuner.Fe.ReadRegs | src/tda18271-common.c:123-139 | one read: the first 16 registers of the shadow take the chip's answer to it, after a failure some of them, and no others change |
| Tuner.Fe.ReadExtended | src/tda18271-common.c:141-168 | one read: on success every register but EB9, EB16, EB17, EB19 and EB20 takes the chip's answer to it; those five never change |
| Tuner.Fe.LaunchMeasurement | src/tda18271-fe.c:481-482 | the write of EP2 that launches a power measurement; the set-up of the chip at that moment (EP2 to EP4, main PLL, EB14, gains and filter) is what the next sample belongs to |
| Tuner.Fe.TakeSample | src/tda18271-fe.c:484-487 | one read per sample: the sample holds the number of the read, EB10 as the chip answered it, and the set-up at the launch |
| Tuner.Fe.ChargePumpSource | src/tda18271-common.c:194-206 | bit 5 of EB4 or EB7, in shadow and chip, is set to force the pump and clear otherwise; nothing else changes |
| Tuner.Fe.SetStandbyMode | src/tda18271-common.c:455-470 | bits 7, 6 and 5 of EP3, in shadow and chip, are the three flags; nothing else changes |
| Tuner.Fe.InitRegs | src/tda18271-common.c:208-435 | every register of the shadow afterwards; on a reliable bus the chip holds all of it, and detection and optimization of the image rejection were launched in the three bands in order with their registers on the chip, by a C2 after its main charge pump was forced and released; EP3 on the chip never gets a standby bit, even if writes fail |
| Tuner.Fe.CalcMainPll | src/tda18271-common.c:474-495 | in range the post-divider is that of the row, with bit 7 clear, and MD1 to MD3 are 128 * d / 125 times the frequency in kHz; out of range no register changes |
| Tuner.Fe.CalcCalPll | src/tda18271-common.c:497-518 | likewise for the calibration PLL, whose post-divider keeps bit 7 |
| Tuner.MainPllTells | src/tda18271-common.c:474-495 | the four registers of the main PLL stand for one frequency only, to the kHz, although bit 7 of MPD is not the PLL's |
| Tuner.CalPllTells | src/tda18271-common.c:497-518 | so do those of the calibration PLL |
| Tuner.Fe.CalcBpFilter | src/tda18271-common.c:522-537 | the field takes the table's bits, the other bits stay; nothing changes out of range |
| Tuner.Fe.CalcKm | src/tda18271-common.c:539-554 | likewise |
| Tuner.Fe.CalcRfBand | src/tda18271-common.c:556-571 | likewise |
| Tuner.Fe.CalcGainTaper | src/tda18271-common.c:573-588 | likewise |
| Tuner.Fe.CalcIrMeasure | src/tda18271-common.c:590-605 | likewise |
| Tuner.Fe.CalcRfCal | src/tda18271-common.c:607-627 | EB14 takes the table's byte in range and stays out of range |
| Calibration.OffsetWithin | src/tda18271-fe.c:485-528 | for a limit of 200 or more every offset tried is a multiple of 200 within the limit, and there are at most 2 * (limit / 200) + 2 readings |
| Calibration.OffsetOnce | src/tda18271-fe.c:485-528 | every such multiple is tried, and none twice after the first look |
| Calibration.Advance | src/tda18271-fe.c:513-527 | the bookkeeping of count and sign goes through the readings in order and ends after the last one |
| Calibration.PrepareScan | src/tda18271-fe.c:459-479 | on a reliable bus EP2 and EB14 on the chip are those of the start of the scan, the main PLL is one MHz above it and detection mode is on; standard, gains and filter are not touched |
| Calibration.HitIsAtLeast | src/tda18271-fe.c:495 | a hit is a power of at least the target, as numbers, in the low six bits |
| Calibration.Search | src/tda18271-fe.c:489-528 | the loop ends with a hit, after all readings or with a failed read; no earlier reading was a hit; every reading is what the chip answered, on a reliable bus to a measurement launched in detection mode at its frequency with the start's EB14 and an untouched set-up |
| Calibration.Powerscan | src/tda18271-fe.c:448-540 | bcal is 1 exactly when the chip reported the target power at some reading; on a reliable bus, by the frequency the main PLL stood at for each reading: a frequency above the start is the lowest one with a hit, and every multiple of 200 Hz below it down to the start was missed; one below the start is the highest one with a hit, and every multiple up to the limit was missed before; freq_in is returned without a hit after a miss at every multiple within the limit; a failed read ends the scan; EP2 is the start's at the first reading, and at all if the chip echoes it |
| Calibration.ScanOrder | src/tda18271-fe.c:490-527 | this order follows for every sequence of samples that the loop can leave behind, whatever wraps around |
| Calibration.ScanNear | src/tda18271-fe.c:529-533 | a scan moves the frequency by a multiple of 200 of magnitude at most the limit |
| Calibration.CalibrationInRange | src/tda18271-fe.c:391-401 | every frequency a calibration on the C2 uses is in range of both PLL tables and of every other table it is looked up in |
| Calibration.ReadingsInRange | src/tda18271-fe.c:489-500 | at every reading of a scan from a default frequency the local oscillator is in range of the main PLL |
| Calibration.CalibrateRf | src/tda18271-fe.c:345-446 | exactly one calibration is launched, with the chip in calibration mode, set up and locked for this frequency, pumps released and lock enabled after both had been the other way; the result is the byte the chip answered to the read that came next after the launch; at the end normal mode with pumps released, and a detector that was set up for scans still is |
| Calibration.MeasureAnchor | src/tda18271-fe.c:602-614 | an anchor is genuinely found: the frequency is the outcome of a scan on samples of this call; after a hit a calibration was launched after the samples, in this call, on a reliable bus for that frequency as it has to be, and the byte is the chip's answer to the next read; otherwise it is the table's byte at the default |
| Calibration.StoreAnchor | src/tda18271-fe.c:615-644 | only the band's record changes, and the anchors determine it |
| Calibration.AddAnchors | src/tda18271-fe.c:593-647 | the loop measures one anchor for each default in turn, stops at the first missing default or failed scan, and the record follows from the anchors found in this call, one after the other |
| Calibration.RfTrackingFiltersInit | src/tda18271-fe.c:578-650 | success calibrates the band of the frequency from anchors genuinely found in this call, one for each default, and records their origin; no other band changes; the number of power measurements is bounded; if the detector was set up it was so at every sample |
| Calibration.BandOfMaximum | src/tda18271-fe.c:668-671 | the maximum of a band is looked up in that band, so the loop visits every band once |
| Calibration.ReadingsRise | src/tda18271-fe.c:668-674 | the measurements the bands can take add up to 456 |
| Calibration.CalcRfFilterCurve | src/tda18271-fe.c:652-679 | success calibrates all seven bands from findings made in this call, with lowest gains and filter at every sample (and the digital standard if the chip echoes EP3), and records the temperature of the chip's last answer, given with the thermometer on; at most 456 power measurements are made, whatever the chip answers |
| Calibration.ReadThermometer | src/tda18271-fe.c:217-257 | the temperature of the TM byte the chip answered to the last read, 60 to 122, with the thermometer on when it was read; a second read in the other range is made exactly when the first reading is 90 in the low or 92 in the high range; afterwards thermometer off and normal calibration mode; the standby bits stay clear |
| Calibration.Sense | src/tda18271-fe.c:223-246 | on a reliable bus the chip is read once with the thermometer on, and once more with the range bit the other way exactly when the first reading is 90 in the low or 92 in the high range; the second time the thermometer bit is as it was answered |
| Calibration.PowerscanInit | src/tda18271-fe.c:542-576 | success leaves the chip in normal mode with standard, gains and filter of the scan |
| Calibration.Por | src/tda18271-fe.c:312-343 | success leaves the chip in standby with the gains restored and the filter off |
| Calibration.C2RfCalInit | src/tda18271-fe.c:683-712 | a missing mark or a clear bit 4 of EP1 leads to a calibration of all bands in this call, whose success is the new mark and ends with the power-on reset; otherwise nothing is touched; a tuner marked as calibrated has all bands calibrated from genuine findings |
| Tuning.CorrectionNear | src/tda18271-fe.c:303-306 | any byte so compensated between two thermometer readings is within 9 of the interpolated one, if that is at least 9 from the ends |
| Tuning.RfTrackingFiltersCorrection | src/tda18271-fe.c:261-310 | success: EB14 on the chip is the interpolated byte moved by dc * (temperature of the chip's last answer - temperature of the calibration) / 1000, with its wrap at the ends, answered with the thermometer on; an error exactly beyond the last band if no transfer fails; the standby bits are clear whatever happened |
| Tuning.CorrectionMeetsAnchors | src/tda18271-fe.c:276-294 | after a calibration every band has a genuine anchor for each default, looked up in its own band; there the correction returns the byte the chip answered after the launch exactly when it can do without the lost slope: always at the first anchor and at the second of three |
| Tuning.TwoPointMisses | src/tda18271-fe.c:288-290 | with the bytes of the C2 table at 70.1 and 136.8 MHz, two anchors a scan can return, fitted by the anchor loop: the chip answered 150, the correction returns 145 |
| Tuning.CorrectionWraps | src/tda18271-fe.c:303-306 | on the C2 at 697.5 MHz, calibrated at the lowest and tuned at the highest thermometer reading: 255 and a compensation of 2 store 1 |
| Tuning.ModeBits | src/tda18271-fe.c:102-120 | the values for EP3 keep the standby bits, and those for EP4 mean normal calibration mode |
| Tuning.SetIfNotch | src/tda18271-fe.c:77-90 | bit 7 of MPD by mode and no other bit; nothing while the mode is unset |
| Tuning.ChannelConfiguration | src/tda18271-fe.c:92-215 | success: bit by bit, EB1 says main oscillator for a master and calibration oscillator for a slave, EP3 the agc mode, the standard and, on a C2, normal rfagc speed except for FM, EP4 the IF level, FM and normal mode, EB22 the rfagc top; the other bits of EP3, EP4 and EB1 are as before; the thermometer is off and the frequency fields are on the chip; on a reliable bus every register it changed is, the PLL of the role stands for the oscillator frequency with the IF notch of the mode, a slave's main post-divider is that of its calibration PLL, and the charge pump of the role was released after it had been forced, with the rfagc of a C2 at high speed |
| Tuning.ConfiguredIsOnChannel | src/tda18271-fe.c:99-171 | whatever the registers were before, each bit of EP3, EP4, EB1 and EB22 that standard and role decide has its value afterwards, and the others are kept |
| Tuning.TunableInRange | src/tda18271-fe.c:173-189 | from 45 to 864 MHz, for every standard of either map, the oscillator frequency is in range of the PLL of either role on either chip |
| Tuning.C1RfTrackingFilterCalibration | src/tda18271-fe.c:714-811 | success launches exactly one calibration; on a reliable bus it is launched in calibration mode with fields and PLLs of the frequency, pumps released and lock enabled after both had been the other way, and ends in normal mode with the table's byte where there is one; EP3 is not changed |
| Tuning.C1SignalFrequencies | src/tda18271-fe.c:744-764 | analog: calibration signal and main PLL 1.25 and 0.25 MHz below the channel; digital: half a bandwidth above it and one MHz more; 0 while the mode is unset |
| Tuning.C1OneMhzAbove | src/tda18271-fe.c:744-764 | once a mode is set the main PLL is one MHz above the calibration signal |
| Tuning.IrCalInit | src/tda18271-fe.c:815-830 | after one read, all registers are set up again, with the image rejection calibrations, exactly when the chip answered EP1 with bit 3 clear; otherwise the chip is left alone; a tuner that is awake stays awake |
| Tuning.Init | src/tda18271-fe.c:832-859 | on a reliable bus it succeeds and leaves a C2 calibrated, in this call if the chip answered EP1 without both OK bits; the calibration state is usable in any case |
| Tuning.Attach | src/tda18271-fe.c:1312-1341 | establishes what every later call keeps: write-only registers agree with the chip, and the calibration state is usable |
| Tuning.Tune | src/tda18271-fe.c:917-953 | a tune that reports success is on the channel (fields of standard, role and frequency on the chip) and in normal mode (EP3 bits 7 to 5, EP4 bits 1 to 0 and TM bit 4 clear), whether calibration ran, was skipped or failed; it keeps the invariants and makes at most 456 power measurements; on a reliable bus it succeeds, calibrates all bands of a C2 anew and repeats the image rejection when the chip's answer lacks the OK bit for it, the PLL of the role stands for the oscillator with the notch of the mode, and EB14 is the table's byte after a calibration of the C1 launched for the frequency, or the C2's corrected byte for the temperature of the chip's last answer; the pump of its PLL was forced and then released |
| Tuning.TuneTelevision | src/tda18271-fe.c:917-953 | on a reliable bus, for every standard of either map and 45 to 864 MHz, no table is left without an entry: PLL and fields are those of the channel, and a C2 stores a byte within 9 of its record's |

## Left out

- The register scripts of `src/libtvwsdr.c`, `tvwsdr_open` and `src/tvw-reg.h`: opaque constants without a stated meaning.
- Submission of libusb transfers, opening and reading files, sleeps, messages, `tda18271_dump_*`, everything under `#if 0`.
- `src/isoch.c` and `src/tvw_fm.c`: the first repeats the deframer with a check that does not match what it consumes; the second parses arguments and passes audio on.
- `tda18271_toggle_output`, `tda18271_sleep`, `tda18271_agc` (its result is ignored), getters, `tda18271_update_std_map`, `tda18271_get_id`, `tda18271_setup_configuration`, the branch of `tda18271_attach` for a known tuner: they add no property beyond what the operations they use have.
- Big-endian hosts: words are little-endian byte sequences.
- The tables for the calibration byte, band-pass filter, K and M, gain taper and image rejection are not listed: a layout has any well-formed tables in their place, which reach 865 MHz as those do, except the C1's for the calibration byte. `TwoPointMisses` names the two rows of the C2's calibration table that it uses.
- tda18271_lookup_map on a C1 is never asked for the temperature table, which that layout does not have.
- Codec.DecodeTrace: works on bytes and prints pieces; the hexadecimal text of the lines, the column layout and Perl's output are not modelled.
- UsbPipe.Pipe.InternalReadReg: of an operation that fails nothing is said about the trace, and the answer is taken to have the requested length.
- Mailbox.Host.ServiceCall: register accesses are taken to succeed; the micro is taken to see the arguments as they are when it picks the request up, to clear busy then and to set done later, and to do nothing else.
- Firmware.Loader.LoadFw: a failed transfer is taken to store nothing; errors of opening and reading the file are not modelled.
- I2c.Bridge.WriteI2c: a transfer that fails is taken not to reach the master, a reset to empty its buffers, the count to read 0 once a chunk is done, and the low byte of CNTL_0 to read 0xc0 from a reset to the next GO; a write after which the answer is lost is not modelled.
- I2c.Bridge.ReadI2c: the chip is taken to answer from its first register on, with bytes that may be anything; the waits for DONE and for the address bit between chunks only delay the host, and what a GO without them would do is not modelled.
- Tuner.Fe.InitRegs: that the first write of all registers and the steps of the gain registers come in this order is stated by the contracts of its parts, not by its own.
- Tuner.Fe.ReadExtended: when the transfer fails, the uninitialised rest of the local buffer is any bytes.
- Calibration.Powerscan: the flag that lengthens one sleep after the change of direction is dropped with the sleeps.
- Calibration.CalibrateRf: what the chip does between launch and read-back is not modelled; the byte it answers may be anything. When the read-back fails, which the driver does not check, the result is whatever the shadow holds.
