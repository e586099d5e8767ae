# MCP3424 expansion-board readers, modelled in Dafny

The repository holds three scripts that read the MCP3424 18-bit
delta-sigma converters on a Raspberry Pi expansion board. Each board
carries two chips with four channels each, and up to four boards share one
I2C bus, which gives 32 logical ports:

- `Read_mcp3424.py` talks to the chips directly over SMBus. It parses the
  address and port lists from the command line, primes a per-port table
  (`Setup`), reads and decodes samples (`readADC`, `adc2volt`), describes a
  configuration byte (`printCfg`), keeps a rolling average (`class avg`)
  and retunes the gain (`AutoTune`, 1% margin).
- `ReadADC.js` uses the Linux IIO driver's sysfs attribute files. `setup`
  scans the chips and maps the sampling-frequency and scale texts to a
  resolution and a gain through the chip's option lists. `GetVal`,
  `showVal` and `AutoTune` (5% margin, written back through `setPGA`) run
  in a polling loop. Before that, when port 1 is not at 18 bits, `setBits` resets it to 18 bits.
- `ReadADC_i2c.js` talks to the chips directly through `i2c-bus`. `readADC`
  marks a port invalid when the transfer fails. `adc2volt` looks up the
  calibration table and exits with status 112 when a pair is missing.
  `setOpt` and `setup` maintain the record table, and a short sample loop
  prints the ports that answered.

## Modules

- `Register`: configuration-byte encoding and field decoding, sample decoding,
  `printCfg`.
- `Calibration`: the shape of the trim table and its lookup.
- `Addressing`: port, board, chip and channel arithmetic of both address
  schemes.
- `AutoGain`: the gain stepping of both `AutoTune`s.
- `Text` and `CommandLine`: splitting, Python `int()` and the address and
  port-list parsers.
- `Rolling`: the ring-buffer average, as a class.
- `Bus`: the bus as a map from a request to its reply.
- `PyMonitor`, `BusMonitor` and `Sysfs`: the three scripts' record tables
  as classes. Their methods are proved against a specification function of
  the old state, and lemmas prove what those functions keep.

Measured quantities are modelled at the level of the raw code. The
voltage arithmetic of the source is floating point, so it appears only as
symbolic terms that name the inputs each value is computed from. The bus, the sysfs files and the
console are state or inputs; see "Left out".

Where the scripts and the written design disagree, the model follows the
scripts:

- The Python `AutoTune` uses a 1% margin and `ReadADC.js` uses 5%. Both
  constants are modelled, as `AutoGain.PythonMargin` and
  `AutoGain.SysfsMargin`.
- `ReadADC.js` stores an `"unknown: "` setting when a file's text matches
  no option, instead of rejecting the port. The model keeps that setting
  as `Sysfs.Setting.Unknown`.
- `ReadADC_i2c.js` builds the request byte from table lookups that give
  `undefined`, hence 0, on an illegal value. It does not reject the value
  (`Register.RequestByte`).

Behaviour of the scripts as written, stated as lemmas:

- `ReadADC.js` resets only port 1 to 18 bits. The sampling frequency is
  shared by that chip's four channels (`Sysfs.SetBitsSameChip`). Every
  other chip keeps its resolution (`Sysfs.SetBitsOtherChip`).
- The `ReadADC_i2c.js` sample loop re-reads each valid port but never decodes it
  again. The printed `adcV`/`trueV` are the values from `setup`
  (`BusMonitor.MainRecordSpec`), whether or not the new transfer succeeds.

## Model

| member | source | states |
|---|---|---|
| Addressing.ChipIndex | ReadADC_i2c.js:278 | the chip index of port p is the i whose block of four ports 4i+1..4i+4 contains p |
| Addressing.ChannelOf | ReadADC_i2c.js:289-299 | the channel is 1..4 and the port is 4*chip index + channel |
| Addressing.ChipOnBoard | ReadADC_i2c.js:289-299 | the chip on its board is 1 or 2 |
| Addressing.BoardOf | ReadADC_i2c.js:289-299 | board b holds exactly the ports 8(b-1)+1..8b |
| Addressing.AddressIndexIsChipIndex | Read_mcp3424.py:182 | the table index board*2+chip-3 of a port's own board and chip is its chip index (p-1) div 4 |
| Addressing.NextPort | ReadADC_i2c.js:289-299 | the counter step moves to the next channel, to chip 2 after channel 4 of chip 1, or to the next board after chip 2 |
| Addressing.Counters | Read_mcp3424.py:198-204 | the counters reached after p-1 steps from (1,1,1) stay in board >= 1, chip 1..2, channel 1..4 |
| Addressing.CountersTrackPort | Read_mcp3424.py:174-204 | after p-1 steps the counters equal (BoardOf(p), ChipOnBoard(p), ChannelOf(p)) |
| Addressing.SysfsPortAddressing | ReadADC.js:74-111 | the port the nested loops give to address addr and channel ch has chip index addr-1 and channel ch+1 |
| Addressing.SysfsPortOnto | ReadADC.js:74-111 | every port >= 1 is the one the loops number at slot (chip index+1, channel-1) |
| Addressing.SysfsSlot | ReadADC.js:74-75 | the slot of a port has address >= 1 and channel 0..3 |
| Addressing.SysfsSlotTracksPort | ReadADC.js:74-111 | the slot the loops hold at port p is (ChipIndex(p)+1, ChannelOf(p)-1) and maps back to p |
| AutoGain.Decide | Read_mcp3424.py:408-429 | the gain goes down iff gain > 1 and the code is past either threshold, and up iff gain < 8 and the code is strictly inside half of them |
| AutoGain.Step | ReadADC.js:169-189 | the new gain is lower iff the down condition holds, higher iff the up condition holds, and equal iff the decision is Hold |
| AutoGain.HeadroomExcludesEdge | Read_mcp3424.py:408-419 | no code is both near the edge and inside the half range, so the two branches never compete |
| AutoGain.StepOneNotch | Read_mcp3424.py:408-429 | a legal gain stays legal and moves at most one notch in 1,2,4,8 (to g/2, g or 2g) |
| AutoGain.StepBounds | ReadADC.js:169-187 | gain 1 is never lowered and gain 8 is never raised |
| AutoGain.EdgeLowersOneNotchPerCycle | ReadADC.js:169-177 | a code past the upper threshold halves any gain above 1 |
| AutoGain.Thresholds18 | Read_mcp3424.py:402-403 | at 18 bits the upper threshold is 128450.56 with the Python 1% margin and 117964.8 with the sysfs 5% margin |
| AutoGain.ThresholdsReachable | Read_mcp3424.py:400-429 | for both margins, every legal resolution and every legal gain, some code in the converter's range lowers a gain above 1, some raises a gain below 8, and some holds the gain |
| Calibration.TrimConstant | ReadADC_i2c.js:88-157 | the table has an entry exactly for the 16 legal (bits, gain) pairs |
| Calibration.LookupTrim | ReadADC_i2c.js:219-234 | the lookup fails iff the pair is not in the table, the failure is exit status 112, and a success returns the table's entry |
| Register.ChannelField | Read_mcp3424.py:140-145 | the channel field exists iff the channel is 1..4, and is (ch-1)*0x20 |
| Register.BitsField | Read_mcp3424.py:147-152 | the resolution field exists iff bits is 12/14/16/18, and is (bits-12)*2 |
| Register.GainField | Read_mcp3424.py:153-158 | the gain field exists iff gain is 1/2/4/8, and is the k in 0..3 with 2^k = gain |
| Register.DecodeCfg | Read_mcp3424.py:227-294 | every byte decodes to a legal channel, resolution and gain, so no byte reaches a BUG branch |
| Register.EncodeConfig | Read_mcp3424.py:217 | encoding succeeds iff channel, bits and gain are all legal; the byte has RDY and the conversion-mode bit set; a failure is the KeyError of the first illegal key in evaluation order |
| Register.AssembledFields | Read_mcp3424.py:139-158 | OR-ing RDY, OC and one value of each field gives a byte from which each field reads back unchanged |
| Register.EncodeConfigDecodes | Read_mcp3424.py:217 | decoding an encoded byte gives back channel, bits and gain with the ready and continuous flags set |
| Register.EncodeConfigInjective | Read_mcp3424.py:139-158 | distinct legal settings give distinct bytes |
| Register.RequestByteSpec | ReadADC_i2c.js:175 | the JS request byte always has RDY and OC, equals the Python byte when all keys are legal, and has a zero field for each illegal key |
| Register.RequestByteIllegalGainIsGainOne | ReadADC_i2c.js:175 | an illegal gain produces the same request byte as gain 1 |
| Register.ResponseLength | Read_mcp3424.py:216-221 | a read asks for the data bytes plus one status byte: 4 at 18 bits, else 3 |
| Register.DecodeRawReadsDataBytes | Read_mcp3424.py:305-312 | the code depends on the DataBytes(bits) data bytes only: responses that agree on them decode alike, whatever follows |
| Register.StatusByte | Read_mcp3424.py:218-221 | the status is the last byte of the reply: raw[3] at 18 bits, raw[2] otherwise |
| Register.Mantissa | Read_mcp3424.py:305-312 | the masked code is defined iff the resolution is legal |
| Register.DecodeRaw | Read_mcp3424.py:304-317 | the signed code is defined iff the resolution is legal |
| Register.MantissaRange | Read_mcp3424.py:305-312 | the masked code lies in [0, 2^bits) |
| Register.DecodeRawRange | Read_mcp3424.py:314-315 | the signed code lies in [-2^bits, 2^bits), is negative iff the first byte has bit 7 set, and at 16 bits lies in [-32768, 32768) |
| Register.DecodeRawCongruent | ReadADC_i2c.js:196-209 | the sign correction changes the code by a multiple of 2^bits |
| Register.SampleBytes | Read_mcp3424.py:304-315 | the converter's two's-complement encoding of a code in range has DataBytes(bits) bytes |
| Register.DecodeSampleBytes | Read_mcp3424.py:304-315 | decoding the converter's encoding of any in-range code gives that code back, at every resolution |
| Register.ChannelMessageDecodes | Read_mcp3424.py:237-251 | the channel line names the decoded channel |
| Register.BitsMessageDecodes | Read_mcp3424.py:262-276 | the resolution line names the decoded resolution |
| Register.GainMessageDecodes | Read_mcp3424.py:279-293 | the gain line names the decoded gain |
| Register.PrintCfgDescribesFields | Read_mcp3424.py:227-294 | the whole description equals the one built from the decoded fields |
| Register.PrintCfgOfEncoded | Read_mcp3424.py:227-294 | the description of an encoded byte reports ready, continuous, and the channel, resolution and gain that were encoded |
| Text.Split | Read_mcp3424.py:68 | splitting gives at least one piece and no piece contains the separator |
| Text.JoinSplit | Read_mcp3424.py:68 | joining the pieces with the separator gives back the text |
| Text.SplitJoin | Read_mcp3424.py:109 | splitting a join of separator-free pieces gives back the pieces |
| Text.DigitValue | Read_mcp3424.py:70 | a character has a digit value iff it is 0-9, a-z or A-Z, and that value is below 36 |
| Text.NatToDigitsRoundTrip | Read_mcp3424.py:70 | reading back the digits of n in base 10 or 16 gives n |
| Text.HexString | Read_mcp3424.py:70 | the hex text of n is "0x" followed by at least one digit |
| CommandLine.PyInt | Read_mcp3424.py:70-72 | a failure is BadLiteral of the text; "", "-" and "+" fail; a negative result needs a leading '-' |
| CommandLine.NotDigitAnywhere | Read_mcp3424.py:70-72 | a text int() accepts as digits of a base contains no character that is not a digit at all |
| CommandLine.DecimalRoundTrip | Read_mcp3424.py:109 | int() of the decimal text of any n >= 0 gives n back, and that text holds no ',', '-' or '+' |
| CommandLine.HexRoundTrip | Read_mcp3424.py:70-72 | int(hex(n), 16) and int(hex(n), 0) both give n back |
| CommandLine.HasHexLetter | Read_mcp3424.py:67 | the look-ahead matches iff a letter a-f or A-F occurs before the first newline |
| CommandLine.ParseAddresses | Read_mcp3424.py:66-72 | succeeds iff every comma-separated piece parses in the one base; each value is its piece's int(); a failure is the first failing piece's error |
| CommandLine.HexAddresses | Read_mcp3424.py:66-72 | "6e,6f" gives 0x6e, 0x6f with no 0x prefix |
| CommandLine.DecimalAddresses | Read_mcp3424.py:66-72 | a list without hex letters is read with base 0, so "68,69" gives decimal 68 and 69 |
| CommandLine.ParseAll | Read_mcp3424.py:68-72 | parsing a list of entries in one base succeeds iff every entry parses, giving one value per entry, each that entry's int() |
| CommandLine.BareHexRoundTrip | Read_mcp3424.py:30 | int(d, 16) of the bare hex digits d of n is n, and d holds no comma |
| CommandLine.HexAddressListRoundTrip | Read_mcp3424.py:30 | with every entry read as hex, any address list written as bare hex digits joined by commas reads back as itself |
| CommandLine.HexAddressListPair | Read_mcp3424.py:30 | with every entry read as hex, "68,69" gives 0x68 and 0x69 |
| CommandLine.PyRangeElements | Read_mcp3424.py:109 | the i-th element of range(start, stop, step) is start + i*step, every element is short of stop, and the next one would reach it |
| CommandLine.ParseBounds | Read_mcp3424.py:109 | the bounds parse iff every piece parses, and a failure is the first failing piece's error |
| CommandLine.ParseBoundsValues | Read_mcp3424.py:109 | bound i is the i-th piece's value plus i |
| CommandLine.PortItems | Read_mcp3424.py:109-110 | the list parses iff every item parses, and a failing first item gives that item's error |
| CommandLine.PortRangeItem | Read_mcp3424.py:109 | an item "a-b" lists range(a, b+1) |
| CommandLine.PortRangeText | Read_mcp3424.py:108-110 | "a-b" lists a..b inclusive, in order, and nothing when b < a |
| CommandLine.PortSingleText | Read_mcp3424.py:110 | "n" lists exactly n |
| CommandLine.PortListConcat | Read_mcp3424.py:109-110 | a comma list gives the concatenation of its items' lists |
| Rolling.Last | Read_mcp3424.py:82 | the window holds min(count, n) values, the most recent ones, in order |
| Rolling.LastAppend | Read_mcp3424.py:94-99 | pushing onto a full window drops the oldest value and appends the new one |
| Rolling.RingLength | Read_mcp3424.py:91-101 | the list holds as many values as were added, up to maxlen |
| Rolling.RingAppend | Read_mcp3424.py:91-93 | appending while there is room keeps the list equal to the last values |
| Rolling.RingOverwrite | Read_mcp3424.py:94-99 | overwriting the slot after head in a full list keeps the list equal to the last maxlen values |
| Rolling.Avg.constructor | Read_mcp3424.py:85-88 | the average starts empty with the given maximum length |
| Rolling.Avg.Add | Read_mcp3424.py:90-101 | the value is added to the history, the returned count is min(count, maxlen), head holds the new value, no other slot changes, and the list read from the slot after head is the last maxlen values |
| Rolling.Avg.Average | Read_mcp3424.py:103-104 | the mean of the list is the mean of the last maxlen values added |
| PyMonitor.PortRequest | Read_mcp3424.py:215-220 | a read goes to the port's chip, asks for ResponseLength(bits) bytes, and sends a byte with RDY and OC set |
| PyMonitor.SetupRecordSpec | Read_mcp3424.py:174-204 | the record of an answering port p has board (p-1) div 8 + 1, chip ((p-1) div 4) mod 2 + 1, channel (p-1) mod 4 + 1 and chip address addresses[(p-1) div 4], the given bits, gain, R1 and R2, the reply's bytes as raw and their decoded code as rawVal; the setup read is the read readADC issues for that record |
| PyMonitor.AnswersUpTo | Read_mcp3424.py:182 | on a bus where every transfer succeeds, port p answers iff p <= 4 * number of addresses (otherwise the index is out of range) |
| PyMonitor.SetupRunPrefix | Read_mcp3424.py:174-192 | Setup stops at the first port that does not answer: every port 1..maxport answers and port maxport+1, if within the limit, does not |
| PyMonitor.SetupRunTable | Read_mcp3424.py:174-196 | the table has exactly the keys 1..maxport, each holding its setup record |
| PyMonitor.SetupRunStays | Read_mcp3424.py:190-192 | after the loop has stopped, a higher limit changes nothing |
| PyMonitor.SetupRunValid | Read_mcp3424.py:176-196 | every record Setup keeps has legal fields |
| PyMonitor.SetupCount | Read_mcp3424.py:190-192 | with every transfer succeeding, maxport becomes min(4 * number of addresses, limit) |
| PyMonitor.NextCounters | Read_mcp3424.py:198-204 | the counter update is the shared step Advance |
| PyMonitor.Monitor.constructor | Read_mcp3424.py:160-161 | the table starts empty with maxport 32 |
| PyMonitor.Monitor.Setup | Read_mcp3424.py:166-204 | the new (maxport, data) is the setup run from the old maxport |
| PyMonitor.Monitor.SetupStep | Read_mcp3424.py:176-204 | one pass either extends the run by the port and steps the counters, or stops it with the table unchanged |
| PyMonitor.Monitor.FirstRead | Read_mcp3424.py:182-189 | the first read succeeds iff the port answers, and returns its chip address and reply bytes |
| PyMonitor.Monitor.SetupPort | Read_mcp3424.py:176-196 | a port that answers is stored with its setup record; otherwise the table is unchanged |
| PyMonitor.Monitor.ReadAdc | Read_mcp3424.py:213-223 | a failed transfer changes nothing; a successful one stores the reply and returns StatusByte of it |
| PyMonitor.Monitor.Adc2Volt | Read_mcp3424.py:301-317 | the port's rawVal becomes the decoded code, within [-2^bits, 2^bits), and nothing else changes |
| PyMonitor.Monitor.AutoTune | Read_mcp3424.py:401-434 | the port's gain becomes Step with the 1% margin, one of g/2, g, 2g, and nothing else changes |
| BusMonitor.Request | ReadADC_i2c.js:164-175 | the request goes to the port's chip with the JS request byte, asking for 4 bytes iff the port is at 18 bits, else 3 |
| BusMonitor.Buffer | ReadADC_i2c.js:166-183 | the raw buffer is 4 bytes long: the bytes read followed by zeros, or all zeros after a failure |
| BusMonitor.ReadRecordSpec | ReadADC_i2c.js:164-184 | readADC changes only valid and raw; valid iff the transfer succeeded; raw starts with the reply, or is zeros after a failure |
| BusMonitor.DecodedSpec | ReadADC_i2c.js:190-249 | adc2volt exits iff bits or gain is not legal, with status 112; rawVal is in range; with R1 <= 0, volt and trueV equal adcV; with R1 > 0, volt is the divider value and trueV the load-corrected value, both of the port's current R1 and R2; nothing else changes |
| BusMonitor.SetFieldSpec | ReadADC_i2c.js:254-259 | setOpt sets the named field only, and the LSB only when the field is bits |
| BusMonitor.Fresh | ReadADC_i2c.js:273-285 | a fresh record has 18 bits, gain 1 and the chip address at index board*2+chip-3 |
| BusMonitor.SetupRecordSpec | ReadADC_i2c.js:265-301 | setup's record for port p has its board, chip, channel and address Addresses[ChipIndex(p)], 18 bits, gain 1, R1 and R2; it is valid iff the chip answered; its volt is the divider value and its trueV the load-corrected value of its code at R1 and R2 |
| BusMonitor.SetupRunAt | ReadADC_i2c.js:272-300 | after setup the ports 1..n hold their setup records and every other key keeps its old value |
| BusMonitor.SetupDoneStep | ReadADC_i2c.js:272-300 | storing port n's record extends the invariant from n-1 ports to n |
| BusMonitor.SetupDoneRun | ReadADC_i2c.js:272-300 | a table meeting the loop invariant at n is the setup run to n |
| BusMonitor.MainRecordSpec | ReadADC_i2c.js:308-314 | the sample loop sets gain 1 and 18 bits, re-reads only ports that were valid, and keeps the adcV, trueV, volt and rawVal from setup |
| BusMonitor.MainRunLines | ReadADC_i2c.js:308-316 | the lines printed are those of the ports valid after setup, with setup's values |
| BusMonitor.MainRunAt | ReadADC_i2c.js:308-314 | after the loop each port 1..n holds its sample-loop record and the other keys are unchanged |
| BusMonitor.MainRunKeys | ReadADC_i2c.js:308-316 | the sample loop adds and drops no key |
| BusMonitor.ShownOrder | ReadADC_i2c.js:308-316 | every printed line is for a valid port in 1..n, in increasing port order |
| BusMonitor.NextCounters | ReadADC_i2c.js:289-299 | the counter update is the shared step Advance |
| BusMonitor.Monitor.constructor | ReadADC_i2c.js:161 | the table and the output start empty |
| BusMonitor.Monitor.ReadAdc | ReadADC_i2c.js:164-184 | the port's record becomes ReadRecord of the old one and nothing else changes |
| BusMonitor.Monitor.Adc2Volt | ReadADC_i2c.js:190-249 | the port's record and exit status are Decoded of the old record |
| BusMonitor.Monitor.SetOpt | ReadADC_i2c.js:254-259 | the port's record becomes SetField of the old one |
| BusMonitor.Monitor.SetupPort | ReadADC_i2c.js:273-287 | the port gets its setup record and nothing else changes |
| BusMonitor.Monitor.Setup | ReadADC_i2c.js:265-301 | the table becomes the setup run over all 32 ports |
| BusMonitor.Monitor.SetupPass | ReadADC_i2c.js:272-300 | one loop pass keeps the setup invariant and moves the counters to the next port's |
| BusMonitor.Monitor.Sample | ReadADC_i2c.js:308-316 | the table and the output become those of the sample-loop run |
| BusMonitor.Monitor.SampleStep | ReadADC_i2c.js:309-315 | one pass extends the sample-loop run by one port |
| BusMonitor.Monitor.Script | ReadADC_i2c.js:307-316 | the whole script's table and output are setup followed by the sample loop |
| Sysfs.Chomp | ReadADC.js:85 | removing a final newline gives a text that is the file, or the file minus its last "\n" |
| Sysfs.ChompNewline | ReadADC.js:85 | a text ending in "\n" loses exactly that newline |
| Sysfs.Words | ReadADC.js:84 | each word is non-empty and has no whitespace |
| Sysfs.Options | ReadADC.js:84 | the options are the file's words, or [""] when it has none, as trim().split(/\s+/) gives |
| Sysfs.WordsChomp | ReadADC.js:84 | removing the final newline does not change the words |
| Sysfs.WordsJoin | ReadADC.js:84 | splitting space-joined words gives back the words |
| Sysfs.OptionsOfFile | ReadADC.js:84 | the options read from a file of space-separated words and a newline are those words |
| Sysfs.TablesLegal | ReadADC.js:87-106 | the resolution and gain tables each hold the four legal values, all distinct |
| Sysfs.Position | ReadADC.js:87-94 | the match is the first of the four options equal to the text, or none if no option matches |
| Sysfs.FromOption | ReadADC.js:87-106 | the setting is the table value at the matched position, or "unknown: " + text when nothing matches |
| Sysfs.TablePosition | ReadADC.js:129-133 | the position is defined iff the setting is a table value, and points at it |
| Sysfs.OptionFor | ReadADC.js:147-155 | an option is chosen iff the setting is a table value, and it is one of the chip's options |
| Sysfs.WriteThenRead | ReadADC.js:146-159 | writing a legal setting's option and reading the file back gives the same setting |
| Sysfs.ReadThenWrite | ReadADC.js:128-141 | writing back the setting read from a matching text writes that text |
| Sysfs.JsNumber | ReadADC.js:169 | "" is 0; any other text is a number iff it is a decimal integer |
| Sysfs.JsNumberDecimal | ReadADC.js:169 | the decimal text of n, and of -n, is read as that number |
| Sysfs.SetupRecord | ReadADC.js:76-109 | setup's record for a channel has legal settings, and its bits and pga come from matching the chomped speed and scale texts against the chip's options |
| Sysfs.SetupReads | ReadADC.js:84-97 | setup reads five files per port, the raw value third and the scale fifth, so raw is read before scale |
| Sysfs.ChipCount | ReadADC.js:74 | the loop visits enough chips for maxPort ports |
| Sysfs.ChipBound | ReadADC.js:74 | address addr is visited iff addr < maxPort/4 + 1 in floating point |
| Sysfs.ChipsPresentPorts | ReadADC.js:74-83 | when every visited chip has its files, every port the loops reach has its files |
| Sysfs.PortRecord | ReadADC.js:76-111 | the record setup builds for a port has its files and legal settings |
| Sysfs.SetupLogOrder | ReadADC.js:95-97 | in the whole setup log of 5n reads, port p's fifth-window has the raw read third and the scale read fifth |
| Sysfs.BuiltAgain | ReadADC.js:219 | running setup again after port 1 was changed gives the table setup would build from the new files |
| Sysfs.SetBitsFile | ReadADC.js:215-217 | the reset writes exactly the chip's speed file, with its fourth option |
| Sysfs.Bits18Write | ReadADC.js:146-158 | setBits at 18 bits writes one speed file with the fourth option |
| Sysfs.SetBitsSameChip | ReadADC.js:215-219 | after the reset, every port on port 1's chip reads back 18 bits |
| Sysfs.SetBitsOtherChip | ReadADC.js:215-219 | after the reset, every port on another chip reads back its old record |
| Sysfs.SetupRecordElsewhere | ReadADC.js:76-97 | a write to another chip's file does not change a port's setup record |
| Sysfs.PgaWrite | ReadADC.js:128-141 | setPGA changes only scale; it writes the scale file iff pga is a table value, with that option; otherwise scale becomes "undef" and nothing is written |
| Sysfs.BitsWrite | ReadADC.js:146-159 | setBits changes only sps; it writes the speed file iff bits is a table value, with that option; otherwise sps becomes "undef" and nothing is written |
| Sysfs.TuneSpec | ReadADC.js:164-190 | the tuned pga stays in the table, moves at most one notch, is written iff it changed, and nothing but pga and scale changes |
| Sysfs.GotValSpec | ReadADC.js:116-118 | GetVal changes only the values read, and keeps setup fields and pga |
| Sysfs.ReadAllSpec | ReadADC.js:226-228 | the read pass applies GetVal to ports 1..n and keeps setup fields, pga and the other keys |
| Sysfs.ReadLogSpec | ReadADC.js:226-228 | the read pass reads, for each port in order, its raw file and then its scale file |
| Sysfs.ShowLogSpec | ReadADC.js:230-232 | the show pass prints each port 1..n in order with its raw value, scale and pga |
| Sysfs.TuneAllSpec | ReadADC.js:233-235 | the tune pass applies AutoTune to ports 1..n and keeps everything else |
| Sysfs.TuneLogSpec | ReadADC.js:233-235 | the tune pass writes only scale files |
| Sysfs.TuneOneWrite | ReadADC.js:164-190 | AutoTune writes at most once, to the port's own scale file |
| Sysfs.TuneKeeps | ReadADC.js:233-235 | the tune pass adds no file and keeps every record's files and settings legal |
| Sysfs.CycleRun | ReadADC.js:225-236 | a cycle keeps the keys of the table and the files, the setup fields, and legal settings |
| Sysfs.PollRun | ReadADC.js:224-240 | any number of cycles keeps the same |
| Sysfs.CycleLog | ReadADC.js:226-235 | a cycle's log is the read log, then the show log of the new values, then the tune log |
| Sysfs.CycleOrder | ReadADC.js:224-240 | in a cycle every read comes before every print or write, and every print precedes every write |
| Sysfs.CycleParts | ReadADC.js:226-232 | the first 2n entries are the read log and the next n the show log |
| Sysfs.SetupLoops | ReadADC.js:68-114 | the nested loops build the setup table over all reached ports and log the setup reads |
| Sysfs.SetupChips | ReadADC.js:74-113 | the outer loop keeps the setup invariant over every chip |
| Sysfs.SetupChannels | ReadADC.js:75-112 | the inner loop adds a chip's four ports and leaves the slot at the next chip's channel 0 |
| Sysfs.SetupPort | ReadADC.js:76-111 | one port's pass stores its record and extends the log |
| Sysfs.ReadPort | ReadADC.js:76-109 | reads a port's five files in source order and returns its setup record |
| Sysfs.AutoTuneGain | ReadADC.js:165-189 | the new gain is Step with the 5% margin, stays legal within one notch, and differs iff the decision is not Hold |
| Sysfs.AutoTunePga | ReadADC.js:164-190 | the new pga setting is the tuned one |
| Sysfs.ReadOne | ReadADC.js:116-124 | GetVal on a record reads its raw and then its scale file |
| Sysfs.PgaOne | ReadADC.js:128-141 | computes setPGA's record and writes |
| Sysfs.BitsOne | ReadADC.js:146-159 | computes setBits' record and writes |
| Sysfs.TuneOne | ReadADC.js:164-190 | computes AutoTune's record and writes |
| Sysfs.WriteAll | ReadADC.js:140 | applies the writes to the files |
| Sysfs.ReadNext | ReadADC.js:226-228 | one read-loop pass extends the read pass by one port |
| Sysfs.ReadLoop | ReadADC.js:226-228 | the read loop gives the read pass and its log |
| Sysfs.ShowLoop | ReadADC.js:230-232 | the show loop gives the show log |
| Sysfs.TuneNext | ReadADC.js:233-235 | one tune-loop pass extends the tune pass by one port |
| Sysfs.TuneLoop | ReadADC.js:233-235 | the tune loop gives the tune pass, its writes and the new files |
| Sysfs.CycleStep | ReadADC.js:225-236 | one cycle gives CycleRun |
| Sysfs.PollLoop | ReadADC.js:224-240 | the polling loop gives PollRun |
| Sysfs.Reset18 | ReadADC.js:215-217 | port 1 gets bits 18 and the speed write, and every port keeps its files |
| Sysfs.Rescan | ReadADC.js:215-220 | after the reset, setup runs again and its table is built from the new files |
| Sysfs.SetupAgain | ReadADC.js:219 | the second setup rebuilds the table from the current files |
| Sysfs.Start | ReadADC.js:214-220 | the start-up sequence ends with the table built from the files after the port-1 reset |
| Sysfs.CheckPort1 | ReadADC.js:215-220 | the port-1 check leaves the table built from the files after the reset |
| Sysfs.Monitor.constructor | ReadADC.js:36-50 | the monitor starts with the given ports, chips and files, no records and no I/O |
| Sysfs.Monitor.ReadFile | ReadADC.js:84 | reading a file returns its text and logs the read |
| Sysfs.Monitor.WriteFile | ReadADC.js:140 | writing a file replaces its text and logs the write |
| Sysfs.Monitor.Setup | ReadADC.js:68-114 | setup builds the table from the files and logs its reads |
| Sysfs.Monitor.GetVal | ReadADC.js:116-124 | the port's record becomes GotVal of the old one, after reading its raw and then its scale file |
| Sysfs.Monitor.ShowVal | ReadADC.js:193-199 | showVal prints the port's raw value, scale and pga and changes nothing else |
| Sysfs.Monitor.Commit | ReadADC.js:140 | stores a record and applies its writes, keeping the invariant |
| Sysfs.Monitor.SetPga | ReadADC.js:128-141 | the record and files become those of PgaWrite |
| Sysfs.Monitor.SetBits | ReadADC.js:146-159 | the record and files become those of BitsWrite, and no file is added |
| Sysfs.Monitor.AutoTune | ReadADC.js:164-190 | the record and files become those of Tune |
| Sysfs.Monitor.Cycle | ReadADC.js:225-236 | the new state is CycleRun of the old one |
| Sysfs.Monitor.Poll | ReadADC.js:224-240 | the new state is PollRun of the old one |
| Sysfs.Monitor.Normalise | ReadADC.js:214-220 | the start-up reset leaves the table built from the reset files |
| Sysfs.Monitor.Run | ReadADC.js:214-240 | the whole script is the start-up sequence followed by the polling cycles |

## Left out

- Floating-point voltage arithmetic is not modelled: LSB, adcV, mV, Rl, trueR2, trueI, trueV, and the 2500000/pga load in `GetVal`. Those values are symbolic terms (`BusMonitor.Volts`) or uninterpreted functions of the raw code and the settings they are computed from (resolution, gain, R1, R2), so the model proves which inputs each is computed from, not its value.
- The calibration coefficients themselves are treated as opaque numbers; only which (bits, gain) pairs have an entry is modelled.
- Bus and file I/O are not modelled as devices. The bus (smbus, i2c-bus) is a fixed map from request to reply for one phase. The sysfs files are a map from file to text. The driver is not modelled, so a written text reads back as written.
- Glob path discovery is not modelled. Each port's files are addressed by chip and channel.
- argparse, the debug flags and console formatting are not modelled. Printed output becomes a log of lines or I/O events, and the screen clear is not modelled.
- Timing is not modelled: sleep, await, the `setTimeout` delays and the settle time after a write.
- KeyboardInterrupt and process exit(0) are not modelled. Exit status 112 is modelled as a returned value.
- PyMonitor: the ready-bit busy-wait in the Python main loop has no termination bound in the source, so it is not modelled.
- PyMonitor: the calibration mode of `adc2volt` and the external `CalibrationConstants` module are not modelled.
- PyMonitor: `showData`, the Python main sample loop and its per-port `raTrueV` averages are not modelled as a loop. The average itself is `Rolling.Avg`.
- PyMonitor.Monitor.Adc2Volt: models only decoding the code. The Python lookup at line 326 reads an unbound `gain`, and the voltage maths is floating point.
- PyMonitor.Monitor.Setup: the Python loop stores a partial record for the port whose read fails, before the `break`. The model drops that record because the port is beyond `maxport` and is never used again.
- CommandLine.PyInt: accepts no surrounding whitespace and no underscores, and only ASCII digits and letters (`Text.DigitValue`), while Python's `int()` also accepts every other Unicode decimal digit.
- Sysfs.JsNumber: reads decimal integers only. JavaScript's other numerals, NaN and `undefined` comparisons are not modelled.
- PyMonitor.Monitor.ReadAdc: the OSError the bus raises at Read_mcp3424.py:217 escapes `readADC` uncaught; the model represents it by a `None` return with `data` unchanged, the state the exception leaves, and does not model the exception's propagation.
- BusMonitor.Buffer: `Buffer(4)` is taken as zero-filled, as Node.js 8 and later do.
- Sysfs.TextOf: follows Node.js 8 to 13, where `writeFileSync` writes `undefined` (an option position the list lacks, in `setPGA` and `setBits`) as the text "undefined". From Node.js 14 that write throws a TypeError and ends the run; the model does not capture that error path.
- Sysfs.Monitor.Setup, Sysfs.Start and Sysfs.Monitor.Run: require every attribute file of every scanned port to exist (`PortsPresent`). In the script a missing file makes `glob.sync(...)[0]` undefined, and `readFileSync` then throws a TypeError that ends the run (ReadADC.js:44 expects such a throw); that error path is not modelled.
- Sysfs.IsSpace: ASCII whitespace only. JavaScript's `\s` and `trim()` also match Unicode spaces such as U+00A0 and U+FEFF; texts with those are not modelled faithfully.
- BusMonitor.Monitor.SetOpt: the keys are limited to the record's integer fields.
- Rolling.Avg: the Python list is a `seq` field that the methods reassign.

## Findings

| source | as written | input that shows it | evidently intended | confidence | as-written member | corrected member |
|---|---|---|---|---|---|---|
| Read_mcp3424.py:30, 66-72 | the `-a` entries are read as hex only when some entry has a hex letter, and otherwise with int(a, 0), i.e. as decimal | `-a 68,69` selects chips 68 and 69 (0x44 and 0x45) | the help text calls the entries hex addresses, like "68,69,6a,6b", so "68,69" should select 0x68 and 0x69 | not executed; medium, a user could mean 0x-prefixed entries when no letter appears | CommandLine.DecimalAddresses | CommandLine.HexAddressListPair |
