/**
 * The i2c-bus variant of the Node script: the global `data` array of port
 * records, `readADC`, the decoding half of `adc2volt` with its calibration
 * lookup, `setOpt`, `setup`, and the sample loop of the main part.
 */
module BusMonitor {
  import opened Wrappers
  import opened Register
  import opened Addressing
  import opened Calibration
  import Bus

  /** The defaults every port starts with. */
  const DefaultBits: int := 18
  const DefaultGain: int := 1

  /** The chip addresses, two chips per board on four boards. */
  const Addresses: seq<int> := [0x68, 0x69, 0x6a, 0x6b, 0x6c, 0x6d, 0x6e, 0x6f]

  /** The voltage divider in front of every input. */
  const R1: int := 120000
  const R2: int := 20000

  const MaxPort: int := 32

  /**
   * A voltage field, kept symbolic: `AdcV(code, bits, gain)` stands for
   * code * ((2 * 2.048) / 2^bits) / gain as the script computes it,
   * `Divider(code, bits, gain, r1, r2)` for `volt`, adcV / R2 * (R1 + R2),
   * `LoadCorrected(code, bits, gain, r1, r2)` for `trueV`, the same divider
   * with R2 in parallel with the load Rl that the trim constants of (bits,
   * gain) give for adcV, `Sentinel` for the -999999 `setup` stores, and
   * `Undefined` for a field not yet assigned.
   */
  datatype Volts =
    | Undefined
    | Sentinel
    | AdcV(code: Option<int>, bits: int, gain: int)
    | Divider(code: Option<int>, bits: int, gain: int, r1: int, r2: int)
    | LoadCorrected(code: Option<int>, bits: int, gain: int, r1: int, r2: int)

  /**
   * The fields of `data[port]`. `lsbBits` is the resolution the stored `LSB`
   * was computed from (LSB = (2 * 2.048) / 2^lsbBits); `raw` is the four-byte
   * buffer of the last read.
   */
  datatype Port = Port(
    bits: int, gain: int, board: int, chip: int, chipaddr: int, channel: int,
    r1: int, r2: int, lsbBits: int,
    valid: bool, raw: seq<Byte>, rawVal: Option<int>,
    adcV: Volts, volt: Volts, trueV: Volts)

  /** The fields `setOpt` is used on. */
  datatype Key = BitsKey | GainKey | BoardKey | ChipKey | ChipaddrKey | ChannelKey | R1Key | R2Key

  /** One line the sample loop prints: the port, its `adcV` and its `trueV`. */
  datatype Line = Line(port: int, adcV: Volts, trueV: Volts)

  /** The block read `readADC` issues: the request byte of the port's settings, 4 bytes at 18 bits, else 3. */
  function Request(q: Port): (r: Bus.Request)
    ensures r.addr == q.chipaddr && r.cmd == RequestByte(q.channel, q.bits, q.gain)
    ensures r.size == 4 <==> q.bits == 18
    ensures r.size == 3 <==> q.bits != 18
  {
    Bus.Request(q.chipaddr, RequestByte(q.channel, q.bits, q.gain), ResponseLength(q.bits))
  }

  function Zeros(n: nat): (z: seq<Byte>)
    ensures |z| == n && forall i :: 0 <= i < n ==> z[i] == 0
  {
    seq(n, i => 0)
  }

  /**
   * `Buffer(4)` after the block read: zero-filled, with the bytes delivered
   * at its start. A read that raises leaves it as it was.
   */
  function Buffer(reply: Bus.Reply): (b: seq<Byte>)
    requires reply.Block? ==> |reply.bytes| <= 4
    ensures |b| == 4
    ensures reply.Block? ==> b[..|reply.bytes|] == reply.bytes && b[|reply.bytes|..] == Zeros(4 - |reply.bytes|)
    ensures reply.IoError? ==> b == Zeros(4)
  {
    match reply
    case Block(bytes) => bytes + Zeros(4 - |bytes|)
    case IoError => Zeros(4)
  }

  /** The record after `readADC`. */
  function ReadRecord(q: Port, bus: Bus.Bus): Port
    requires Bus.WellFormed(bus)
  {
    var reply := Bus.Transfer(bus, Request(q));
    q.(valid := reply.Block?, raw := Buffer(reply))
  }

  /**
   * `readADC` changes only `valid` and `raw`: `valid` says whether the bus
   * answered, and `raw` holds the 4 or 3 bytes delivered, or zeros after an error.
   */
  lemma ReadRecordSpec(q: Port, bus: Bus.Bus)
    requires Bus.WellFormed(bus)
    ensures var r := ReadRecord(q, bus);
      && r == q.(valid := r.valid, raw := r.raw)
      && (r.valid <==> Bus.Transfer(bus, Request(q)).Block?)
      && |r.raw| == 4
      && (r.valid ==> r.raw[..ResponseLength(q.bits)] == Bus.Transfer(bus, Request(q)).bytes)
      && (!r.valid ==> r.raw == Zeros(4))
  {
  }

  /**
   * The record after `adc2volt`, and the exit status when the calibration
   * lookup aborts. The code, `adcV` and `mV` are stored before the lookup, so
   * an abort leaves them assigned and `volt`/`trueV` as they were. The
   * lookup fails exactly outside the pairs the table covers (`LookupTrim`).
   */
  function Decoded(q: Port): (Port, Option<int>)
    requires |q.raw| == 4
  {
    var code := DecodeRaw(q.bits, q.raw);
    var q1 := q.(rawVal := code, adcV := AdcV(code, q.bits, q.gain));
    if !Covered(q.bits, q.gain) then (q1, Some(AbortStatus))
    else
      if q.r1 > 0 then
        (q1.(volt := Divider(code, q.bits, q.gain, q.r1, q.r2),
             trueV := LoadCorrected(code, q.bits, q.gain, q.r1, q.r2)), None)
      else (q1.(volt := q1.adcV, trueV := q1.adcV), None)
  }

  /**
   * `adc2volt` aborts with status 112 exactly when (bits, gain) is outside
   * the sixteen pairs the trim table covers; otherwise it stores the decoded
   * code, which lies in [-2^bits, 2^bits); with R1 <= 0 it assigns `adcV`
   * unchanged to `volt` and `trueV`, and with R1 > 0 the divider value to
   * `volt` and the load-corrected value to `trueV`, both from the port's
   * current R1 and R2.
   */
  lemma DecodedSpec(q: Port)
    requires |q.raw| == 4
    ensures var (r, exit) := Decoded(q);
      && (exit.Some? <==> !(LegalBits(q.bits) && LegalGain(q.gain)))
      && (exit.Some? ==> exit.value == AbortStatus && r.volt == q.volt && r.trueV == q.trueV)
      && r.rawVal == DecodeRaw(q.bits, q.raw) && r.adcV == AdcV(r.rawVal, q.bits, q.gain)
      && (LegalBits(q.bits) ==> -(Pow2(q.bits) as int) <= r.rawVal.value < Pow2(q.bits))
      && (exit.None? && q.r1 <= 0 ==> r.volt == r.adcV && r.trueV == r.adcV)
      && (exit.None? && q.r1 > 0 ==>
            && r.volt == Divider(r.rawVal, q.bits, q.gain, q.r1, q.r2)
            && r.trueV == LoadCorrected(r.rawVal, q.bits, q.gain, q.r1, q.r2))
      && r == q.(rawVal := r.rawVal, adcV := r.adcV, volt := r.volt, trueV := r.trueV)
  {
    if LegalBits(q.bits) {
      DecodeRawRange(q.bits, q.raw);
    }
  }

  /** The value of an option field. */
  function Get(q: Port, k: Key): int {
    match k
    case BitsKey => q.bits
    case GainKey => q.gain
    case BoardKey => q.board
    case ChipKey => q.chip
    case ChipaddrKey => q.chipaddr
    case ChannelKey => q.channel
    case R1Key => q.r1
    case R2Key => q.r2
  }

  /** `setOpt` on a record: store the value, and recompute LSB when the field is `bits`. */
  function SetField(q: Port, k: Key, v: int): Port {
    match k
    case BitsKey => q.(bits := v, lsbBits := v)
    case GainKey => q.(gain := v)
    case BoardKey => q.(board := v)
    case ChipKey => q.(chip := v)
    case ChipaddrKey => q.(chipaddr := v)
    case ChannelKey => q.(channel := v)
    case R1Key => q.(r1 := v)
    case R2Key => q.(r2 := v)
  }

  /**
   * `setOpt` changes the named field to the value, with no check on it, and no
   * other field; LSB follows the new value exactly when the field is `bits`.
   */
  lemma SetFieldSpec(q: Port, k: Key, v: int)
    ensures Get(SetField(q, k, v), k) == v
    ensures forall k' :: k' != k ==> Get(SetField(q, k, v), k') == Get(q, k')
    ensures SetField(q, k, v).lsbBits == if k == BitsKey then v else q.lsbBits
    ensures var r := SetField(q, k, v);
      r.valid == q.valid && r.raw == q.raw && r.rawVal == q.rawVal
      && r.adcV == q.adcV && r.volt == q.volt && r.trueV == q.trueV
  {
  }

  /** The record `setup` creates for a port before reading it. */
  function Fresh(board: int, chip: int, channel: int): (q: Port)
    requires 0 <= AddressIndex(board, chip) < |Addresses|
    ensures q.bits == DefaultBits && q.gain == DefaultGain && q.lsbBits == DefaultBits
    ensures q.chipaddr == Addresses[AddressIndex(board, chip)]
  {
    Port(DefaultBits, DefaultGain, board, chip, Addresses[board * 2 + chip - 3], channel,
         R1, R2, DefaultBits, false, [], None, Undefined, Sentinel, Undefined)
  }

  /** The record `setup` leaves for port p: created from the loop's counters at p, read, decoded. */
  ghost function SetupRecord(bus: Bus.Bus, p: int): Port
    requires 1 <= p <= MaxPort && Bus.WellFormed(bus)
  {
    AddressIndexIsChipIndex(p);
    Decoded(ReadRecord(Fresh(BoardOf(p), ChipOnBoard(p), ChannelOf(p)), bus)).0
  }

  /**
   * Port p gets board (p-1) div 8 + 1, chip ((p-1) div 4) mod 2 + 1, channel
   * (p-1) mod 4 + 1 and the address `addresses[(p-1) div 4]`, starts at 18 bits
   * and gain 1, and is valid exactly when its chip answered.
   */
  lemma SetupRecordSpec(bus: Bus.Bus, p: int)
    requires 1 <= p <= MaxPort && Bus.WellFormed(bus)
    ensures var q := SetupRecord(bus, p);
      && q.board == BoardOf(p) && q.chip == ChipOnBoard(p) && q.channel == ChannelOf(p)
      && q.chipaddr == Addresses[ChipIndex(p)]
      && q.bits == 18 && q.gain == 1 && q.lsbBits == 18 && q.r1 == R1 && q.r2 == R2
      && (q.valid <==> Bus.Transfer(bus, Request(q)).Block?)
      && q.volt == Divider(q.rawVal, 18, 1, R1, R2)
      && q.trueV == LoadCorrected(q.rawVal, 18, 1, R1, R2)
  {
    AddressIndexIsChipIndex(p);
    var q0 := Fresh(BoardOf(p), ChipOnBoard(p), ChannelOf(p));
    ReadRecordSpec(q0, bus);
    DecodedSpec(ReadRecord(q0, bus));
  }

  /** Table d0 with the entries of ports 1..n taken from `recs`. */
  ghost function Overlay<V>(d0: map<int, V>, recs: map<int, V>, n: int): map<int, V>
    requires forall p :: 1 <= p <= n ==> p in recs
    decreases n, |d0| // naming the table too keeps a literal n from unrolling the recursion
  {
    if n <= 0 then d0 else Overlay(d0, recs, n - 1)[n := recs[n]]
  }

  /** Port p of the overlay is there when d0 or 1..n has it, with the entry of `recs` for 1..n. */
  lemma {:induction false} OverlayAt<V>(d0: map<int, V>, recs: map<int, V>, n: int, p: int)
    requires forall p :: 1 <= p <= n ==> p in recs
    ensures p in Overlay(d0, recs, n) <==> p in d0 || 1 <= p <= n
    ensures p in Overlay(d0, recs, n) ==> Overlay(d0, recs, n)[p] == if 1 <= p <= n then recs[p] else d0[p]
    decreases n
  {
    if n > 0 && p != n {
      OverlayAt(d0, recs, n - 1, p);
    }
  }

  /** The record `setup` leaves for every port. */
  ghost function SetupRecords(bus: Bus.Bus): (r: map<int, Port>)
    requires Bus.WellFormed(bus)
    ensures forall p :: p in r <==> 1 <= p <= MaxPort
  {
    map p | 1 <= p <= MaxPort :: SetupRecord(bus, p)
  }

  /** The table after the first n passes of `setup` over table d0. */
  ghost function SetupRun(d0: map<int, Port>, bus: Bus.Bus, n: int): map<int, Port>
    requires n <= MaxPort && Bus.WellFormed(bus)
  {
    Overlay(d0, SetupRecords(bus), n)
  }

  /** After n passes, ports 1..n hold their `SetupRecord` and every other port keeps what d0 had. */
  lemma SetupRunAt(d0: map<int, Port>, bus: Bus.Bus, n: int, p: int)
    requires n <= MaxPort && Bus.WellFormed(bus)
    ensures p in SetupRun(d0, bus, n) <==> p in d0 || 1 <= p <= n
    ensures p in SetupRun(d0, bus, n) ==> SetupRun(d0, bus, n)[p] == if 1 <= p <= n then SetupRecord(bus, p) else d0[p]
  {
    OverlayAt(d0, SetupRecords(bus), n, p);
  }

  /** The ports `setup` has passed are in the table, as are those it started with. */
  lemma SetupRunKeys(d0: map<int, Port>, bus: Bus.Bus, n: int)
    requires n <= MaxPort && Bus.WellFormed(bus)
    ensures forall p :: p in SetupRun(d0, bus, n) <==> p in d0 || 1 <= p <= n
  {
    forall p {
      SetupRunAt(d0, bus, n, p);
    }
  }

  /**
   * Table d after the first n passes of `setup` over table d0, key by key: it
   * has d0's ports and 1..n, ports 1..n hold their `SetupRecord`, and every
   * other port keeps what d0 had.
   */
  ghost predicate SetupDone(d0: map<int, Port>, d: map<int, Port>, bus: Bus.Bus, n: int)
    requires n <= MaxPort && Bus.WellFormed(bus)
  {
    && (forall p :: p in d <==> p in d0 || 1 <= p <= n)
    && (forall p {:trigger SetupRecord(bus, p)} :: 1 <= p <= n ==> p in d && d[p] == SetupRecord(bus, p))
    && (forall p :: p in d0 && !(1 <= p <= n) ==> d[p] == d0[p])
  }

  /** Pass n of `setup` stores port n's record. */
  lemma SetupDoneStep(d0: map<int, Port>, d: map<int, Port>, bus: Bus.Bus, n: int)
    requires 1 <= n <= MaxPort && Bus.WellFormed(bus) && SetupDone(d0, d, bus, n - 1)
    ensures SetupDone(d0, d[n := SetupRecord(bus, n)], bus, n)
  {
  }

  /** Port p of a table described key by key is port p of `SetupRun`. */
  lemma SetupDoneAt(d0: map<int, Port>, d: map<int, Port>, bus: Bus.Bus, n: int, p: int)
    requires n <= MaxPort && Bus.WellFormed(bus) && SetupDone(d0, d, bus, n)
    ensures p in d <==> p in SetupRun(d0, bus, n)
    ensures p in d ==> d[p] == SetupRun(d0, bus, n)[p]
  {
    SetupRunAt(d0, bus, n, p);
  }

  /** The key-by-key description is `SetupRun`. */
  lemma SetupDoneRun(d0: map<int, Port>, d: map<int, Port>, bus: Bus.Bus, n: int)
    requires n <= MaxPort && Bus.WellFormed(bus) && SetupDone(d0, d, bus, n)
    ensures d == SetupRun(d0, bus, n)
  {
    forall p {
      SetupDoneAt(d0, d, bus, n, p);
    }
  }

  /** One pass of the sample loop on a record: gain 1 and 18 bits, then a read when it is valid. */
  function MainRecord(q: Port, bus: Bus.Bus): (r: Port)
    requires Bus.WellFormed(bus)
  {
    var q1 := SetField(SetField(q, GainKey, 1), BitsKey, 18);
    if q1.valid then ReadRecord(q1, bus) else q1
  }

  /**
   * A port the sample loop passed is at gain 1 and 18 bits with LSB to match;
   * one `setup` found invalid stays invalid and unread; a valid one is read
   * again with the new settings, which changes only its `valid` and `raw`.
   */
  lemma MainRecordSpec(q: Port, bus: Bus.Bus)
    requires Bus.WellFormed(bus)
    ensures var r := MainRecord(q, bus);
      && r.gain == 1 && r.bits == 18 && r.lsbBits == 18
      && r.adcV == q.adcV && r.trueV == q.trueV && r.volt == q.volt && r.rawVal == q.rawVal
      && (!q.valid ==> !r.valid && r.raw == q.raw)
      && (q.valid ==> (r.valid <==> Bus.Transfer(bus, Request(q.(gain := 1, bits := 18, lsbBits := 18))).Block?))
  {
    SetFieldSpec(q, GainKey, 1);
    SetFieldSpec(SetField(q, GainKey, 1), BitsKey, 18);
    var q1 := SetField(SetField(q, GainKey, 1), BitsKey, 18);
    assert q1 == q.(gain := 1, bits := 18, lsbBits := 18);
    if q1.valid {
      ReadRecordSpec(q1, bus);
    }
  }

  /** The records of ports 1..n after the sample loop passed them, and the lines it printed. */
  ghost function MainRun(d: map<int, Port>, bus: Bus.Bus, n: int): (r: (map<int, Port>, seq<Line>))
    requires Bus.WellFormed(bus) && forall p :: 1 <= p <= n ==> p in d
    decreases n, |d| // as for `SetupRun`
  {
    if n <= 0 then (d, [])
    else
      var prev := MainRun(d, bus, n - 1);
      var q := MainRecord(d[n], bus);
      (prev.0[n := q], if d[n].valid then prev.1 + [Line(n, q.adcV, q.trueV)] else prev.1)
  }

  /**
   * The lines of the sample loop as a function of the table it starts from:
   * one per port `setup` marked valid, in port order, with that port's `adcV`
   * and `trueV` from `setup` (the loop reads again but neither decodes nor
   * looks at whether the new read failed).
   */
  ghost function Shown(d: map<int, Port>, n: int): seq<Line>
    requires forall p :: 1 <= p <= n ==> p in d
    decreases n, |d| // as for `SetupRun`
  {
    if n <= 0 then []
    else Shown(d, n - 1) + (if d[n].valid then [Line(n, d[n].adcV, d[n].trueV)] else [])
  }

  /** The loop prints `Shown`: the values `setup` computed, not ones from the new reads. */
  lemma {:induction false} MainRunLines(d: map<int, Port>, bus: Bus.Bus, n: int)
    requires Bus.WellFormed(bus) && forall p :: 1 <= p <= n ==> p in d
    ensures MainRun(d, bus, n).1 == Shown(d, n)
    decreases n
  {
    if n > 0 {
      MainRunLines(d, bus, n - 1);
      MainRecordSpec(d[n], bus);
    }
  }

  /** Port p of the table after the loop passed port n: its pass's record, or the record it had. */
  lemma {:induction false} MainRunAt(d: map<int, Port>, bus: Bus.Bus, n: int, p: int)
    requires Bus.WellFormed(bus) && forall p :: 1 <= p <= n ==> p in d
    requires p in d
    ensures p in MainRun(d, bus, n).0
    ensures MainRun(d, bus, n).0[p] == if 1 <= p <= n then MainRecord(d[p], bus) else d[p]
    decreases n
  {
    if n > 0 && p != n {
      MainRunAt(d, bus, n - 1, p);
    }
  }

  /** The loop does not add or drop ports. */
  lemma {:induction false} MainRunKeys(d: map<int, Port>, bus: Bus.Bus, n: int)
    requires Bus.WellFormed(bus) && forall p :: 1 <= p <= n ==> p in d
    ensures MainRun(d, bus, n).0.Keys == d.Keys
    decreases n
  {
    if n > 0 {
      MainRunKeys(d, bus, n - 1);
    }
  }

  /** The printed lines name ports `setup` found valid, each once, in increasing order. */
  lemma {:induction false} ShownOrder(d: map<int, Port>, n: int)
    requires forall p :: 1 <= p <= n ==> p in d
    ensures forall i :: 0 <= i < |Shown(d, n)| ==>
      1 <= Shown(d, n)[i].port <= n && d[Shown(d, n)[i].port].valid
    ensures forall i, j :: 0 <= i < j < |Shown(d, n)| ==> Shown(d, n)[i].port < Shown(d, n)[j].port
    decreases n
  {
    if n > 0 {
      ShownOrder(d, n - 1);
    }
  }

  /** The table and the printed lines after `setup` on one bus and the sample loop on another. */
  ghost function ScriptRun(d0: map<int, Port>, setupBus: Bus.Bus, sampleBus: Bus.Bus): (r: (map<int, Port>, seq<Line>))
    requires Bus.WellFormed(setupBus) && Bus.WellFormed(sampleBus)
  {
    SetupRunKeys(d0, setupBus, MaxPort);
    MainRun(SetupRun(d0, setupBus, MaxPort), sampleBus, MaxPort)
  }

  /** The counter updates at the end of a `setup` pass. */
  method NextCounters(board: int, chip: int, channel: int) returns (board': int, chip': int, channel': int)
    requires 1 <= chip <= 2 && 1 <= channel <= 4
    ensures (board', chip', channel') == Advance((board, chip, channel))
  {
    board', chip', channel' := board, chip, channel;
    if channel == 4 {
      channel' := 1;
      if chip == 2 {
        chip' := 1;
        board' := board + 1;
      } else {
        chip' := 2;
      }
    } else {
      channel' := channel + 1;
    }
  }

  class Monitor {
    var data: map<int, Port>
    /** The console lines printed so far. */
    var shown: seq<Line>

    constructor ()
      ensures data == map[] && shown == []
    {
      data := map[];
      shown := [];
    }

    /**
     * `readADC`: request 4 bytes at 18 bits and 3 otherwise, mark the port
     * valid, mark it invalid when the bus raises, and store the buffer either way.
     */
    method ReadAdc(port: int, bus: Bus.Bus)
      requires port in data && Bus.WellFormed(bus)
      modifies this
      ensures data == old(data)[port := ReadRecord(old(data)[port], bus)] && shown == old(shown)
    {
      var q := data[port];
      var size := if q.bits == 18 then 4 else 3;
      var cmd := RDY + OC + FieldOrZero(ChannelField(q.channel)) + FieldOrZero(BitsField(q.bits)) + FieldOrZero(GainField(q.gain));
      assert cmd == RequestByte(q.channel, q.bits, q.gain);
      var valid := true;
      var i2cdata := Zeros(4);
      var reply := Bus.Transfer(bus, Bus.Request(q.chipaddr, cmd, size));
      assert reply == Bus.Transfer(bus, Request(q));
      if reply.IoError? {
        valid := false;
      } else {
        i2cdata := reply.bytes + Zeros(4 - |reply.bytes|);
      }
      data := data[port := q.(valid := valid, raw := i2cdata)];
    }

    /**
     * The decoding half of `adc2volt`, with its calibration lookup. `exit` is
     * the status the script exits with when the lookup fails.
     */
    method Adc2Volt(port: int) returns (exit: Option<int>)
      requires port in data && |data[port].raw| == 4
      modifies this
      ensures port in data && (data[port], exit) == Decoded(old(data)[port])
      ensures data == old(data)[port := data[port]] && shown == old(shown)
    {
      var q := data[port];
      var rawVal := DecodeRaw(q.bits, q.raw);
      q := q.(rawVal := rawVal, adcV := AdcV(rawVal, q.bits, q.gain));
      data := data[port := q];
      var trim := LookupTrim(q.bits, q.gain);
      if trim.Failure? {
        return Some(AbortStatus);
      }
      if q.r1 > 0 {
        q := q.(volt := Divider(rawVal, q.bits, q.gain, q.r1, q.r2),
                trueV := LoadCorrected(rawVal, q.bits, q.gain, q.r1, q.r2));
      } else {
        q := q.(volt := q.adcV, trueV := q.adcV);
      }
      data := data[port := q];
      exit := None;
    }

    /** `setOpt`: no check, just store the value; LSB follows when the field is `bits`. */
    method SetOpt(port: int, option: Key, val: int)
      requires port in data
      modifies this
      ensures data == old(data)[port := SetField(old(data)[port], option, val)] && shown == old(shown)
    {
      var q := data[port];
      match option {
        case BitsKey => q := q.(bits := val);
        case GainKey => q := q.(gain := val);
        case BoardKey => q := q.(board := val);
        case ChipKey => q := q.(chip := val);
        case ChipaddrKey => q := q.(chipaddr := val);
        case ChannelKey => q := q.(channel := val);
        case R1Key => q := q.(r1 := val);
        case R2Key => q := q.(r2 := val);
      }
      if option == BitsKey {
        q := q.(lsbBits := q.bits);
      }
      data := data[port := q];
    }

    /** One pass of the `setup` loop: create port `port`'s record from the counters, read it, decode it. */
    method SetupPort(bus: Bus.Bus, port: int, board: int, chip: int, channel: int)
      requires 1 <= port <= MaxPort && Bus.WellFormed(bus)
      requires board == BoardOf(port) && chip == ChipOnBoard(port) && channel == ChannelOf(port)
      modifies this
      ensures data == old(data)[port := SetupRecord(bus, port)] && shown == old(shown)
    {
      AddressIndexIsChipIndex(port);
      data := data[port := Fresh(board, chip, channel)];
      ReadAdc(port, bus);
      ghost var read := data[port];
      var exit := Adc2Volt(port);
      assert exit == None && data[port] == Decoded(read).0;
    }

    /**
     * `setup`: walk ports 1..32 with board/chip/channel counters and give each
     * a fresh record, read and decoded. The lookup cannot abort here, as every
     * port is at 18 bits and gain 1.
     */
    method Setup(bus: Bus.Bus)
      requires Bus.WellFormed(bus)
      modifies this
      ensures data == SetupRun(old(data), bus, MaxPort) && shown == old(shown)
    {
      var board, chip, channel := 1, 1, 1;
      var port := 1;
      while port <= MaxPort
        invariant 1 <= port <= MaxPort + 1
        invariant board == Counters(port).0 && chip == Counters(port).1 && channel == Counters(port).2
        invariant SetupDone(old(data), data, bus, port - 1) && shown == old(shown)
      {
        board, chip, channel := SetupPass(bus, port, board, chip, channel, old(data));
        port := port + 1;
      }
      SetupDoneRun(old(data), data, bus, MaxPort);
    }

    /** One pass of the `setup` loop with its counter updates. */
    method SetupPass(bus: Bus.Bus, port: int, board: int, chip: int, channel: int, ghost d0: map<int, Port>)
      returns (board': int, chip': int, channel': int)
      requires 1 <= port <= MaxPort && Bus.WellFormed(bus)
      requires board == Counters(port).0 && chip == Counters(port).1 && channel == Counters(port).2
      requires SetupDone(d0, data, bus, port - 1)
      modifies this
      ensures board' == Counters(port + 1).0 && chip' == Counters(port + 1).1 && channel' == Counters(port + 1).2
      ensures SetupDone(d0, data, bus, port) && shown == old(shown)
    {
      CountersTrackPort(port);
      ghost var d := data;
      SetupPort(bus, port, board, chip, channel);
      SetupDoneStep(d0, d, bus, port);
      board', chip', channel' := NextCounters(board, chip, channel);
      assert Counters(port + 1) == Advance(Counters(port));
    }

    /**
     * The sample loop of the main part: for each port, `setOpt` gain 1 and
     * bits 18, skip it when `setup` found it invalid, else read it and print
     * its `adcV` and `trueV`.
     */
    method Sample(bus: Bus.Bus)
      requires Bus.WellFormed(bus) && forall p :: 1 <= p <= MaxPort ==> p in data
      modifies this
      ensures (data, shown) == (MainRun(old(data), bus, MaxPort).0, old(shown) + MainRun(old(data), bus, MaxPort).1)
    {
      var port := 1;
      assert MainRun(old(data), bus, 0) == (old(data), []) && old(shown) + [] == old(shown);
      while port <= MaxPort
        invariant 1 <= port <= MaxPort + 1
        invariant (data, shown) == (MainRun(old(data), bus, port - 1).0, old(shown) + MainRun(old(data), bus, port - 1).1)
      {
        SampleStep(port, bus, old(data), old(shown));
        port := port + 1;
      }
    }

    /** One pass of the sample loop. */
    method SampleStep(port: int, bus: Bus.Bus, ghost d0: map<int, Port>, ghost shown0: seq<Line>)
      requires 1 <= port <= MaxPort && Bus.WellFormed(bus) && forall p :: 1 <= p <= MaxPort ==> p in d0
      requires (data, shown) == (MainRun(d0, bus, port - 1).0, shown0 + MainRun(d0, bus, port - 1).1)
      modifies this
      ensures (data, shown) == (MainRun(d0, bus, port).0, shown0 + MainRun(d0, bus, port).1)
    {
      MainRunAt(d0, bus, port - 1, port);
      ghost var prev := data;
      SetOpt(port, GainKey, 1);
      SetOpt(port, BitsKey, 18);
      assert data == prev[port := SetField(SetField(d0[port], GainKey, 1), BitsKey, 18)];
      if !data[port].valid {
        return;
      }
      ReadAdc(port, bus);
      assert data == prev[port := MainRecord(d0[port], bus)];
      var line := Line(port, data[port].adcV, data[port].trueV);
      assert shown0 + (MainRun(d0, bus, port - 1).1 + [line]) == shown + [line];
      shown := shown + [line];
    }

    /** The whole script: `setup`, then the sample loop. */
    method Script(setupBus: Bus.Bus, sampleBus: Bus.Bus)
      requires Bus.WellFormed(setupBus) && Bus.WellFormed(sampleBus)
      modifies this
      ensures var (d, lines) := ScriptRun(old(data), setupBus, sampleBus);
        data == d && shown == old(shown) + lines
    {
      Setup(setupBus);
      SetupRunKeys(old(data), setupBus, MaxPort);
      ghost var d := data;
      Sample(sampleBus);
      assert ScriptRun(old(data), setupBus, sampleBus) == MainRun(d, sampleBus, MaxPort);
    }
  }
}
