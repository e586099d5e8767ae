/**
 * The per-port state of the Python script (the global `data` dict and
 * `maxport`) and the operations that fill and update it: `Setup`, `readADC`,
 * the decoding half of `adc2volt`, and `AutoTune`.
 */
module PyMonitor {
  import opened Wrappers
  import opened Register
  import opened Addressing
  import opened AutoGain
  import Bus

  /** The fields of `data[port]` that are not floating point. */
  datatype Port = Port(
    bits: int, gain: int, board: int, chip: int, chipaddr: int, channel: int,
    r1: int, r2: int,
    raw: seq<Byte>,       // the last block read: data bytes, then the status byte
    status: Option<Byte>, // set by readADC only
    rawVal: Option<int>)  // the signed code adc2volt decoded

  ghost predicate PortValid(q: Port) {
    LegalChannel(q.channel) && LegalBits(q.bits) && LegalGain(q.gain)
    && |q.raw| == ResponseLength(q.bits) && q.rawVal.Some?
  }

  ghost predicate AllValid(d: map<int, Port>) {
    forall p :: p in d ==> PortValid(d[p])
  }

  /** The block read `readADC` issues for a port: the configuration byte of its settings, 4 or 3 bytes. */
  function PortRequest(q: Port): (r: Bus.Request)
    requires LegalChannel(q.channel) && LegalBits(q.bits) && LegalGain(q.gain)
    ensures r.addr == q.chipaddr && r.size == ResponseLength(q.bits)
    ensures NotReady(r.cmd) && Continuous(r.cmd)
  {
    Bus.Request(q.chipaddr, EncodeConfig(q.channel, q.bits, q.gain).value, ResponseLength(q.bits))
  }

  /** The block read `Setup` issues for port p, from the loop's counters at p. */
  function SetupRequest(addresses: seq<int>, bits: int, pga: int, p: int): Bus.Request
    requires p >= 1 && AddressIndex(Counters(p).0, Counters(p).1) < |addresses| && LegalBits(bits) && LegalGain(pga)
  {
    var (board, chip, channel) := Counters(p);
    Bus.Request(addresses[AddressIndex(board, chip)], EncodeConfig(channel, bits, pga).value, ResponseLength(bits))
  }

  /** Port p has an address and its chip answers the setup read. */
  ghost predicate Answers(addresses: seq<int>, bits: int, pga: int, bus: Bus.Bus, p: int)
    requires p >= 1 && LegalBits(bits) && LegalGain(pga)
  {
    AddressIndex(Counters(p).0, Counters(p).1) < |addresses| && Bus.Transfer(bus, SetupRequest(addresses, bits, pga, p)).Block?
  }

  /** The record `Setup` leaves for a port that answered. */
  ghost function SetupRecord(addresses: seq<int>, bits: int, pga: int, r1: int, r2: int,
                             bus: Bus.Bus, p: int): (q: Port)
    requires p >= 1 && LegalBits(bits) && LegalGain(pga) && Bus.WellFormed(bus)
    requires Answers(addresses, bits, pga, bus, p)
    ensures PortValid(q)
  {
    var (board, chip, channel) := Counters(p);
    var raw := Bus.Transfer(bus, SetupRequest(addresses, bits, pga, p)).bytes;
    Port(bits, pga, board, chip, addresses[AddressIndex(board, chip)], channel, r1, r2,
         raw, None, DecodeRaw(bits, raw))
  }

  /**
   * The record `Setup` stores for port p: board (p-1) div 8 + 1, chip
   * ((p-1) div 4) mod 2 + 1, channel (p-1) mod 4 + 1 and the address
   * `addresses[(p-1) div 4]`; the resolution, gain and divider it was given;
   * the bytes the chip answered, decoded. The setup read is the read
   * `readADC` later issues for the same record.
   */
  lemma SetupRecordSpec(addresses: seq<int>, bits: int, pga: int, r1: int, r2: int, bus: Bus.Bus, p: int)
    requires p >= 1 && LegalBits(bits) && LegalGain(pga) && Bus.WellFormed(bus)
    requires Answers(addresses, bits, pga, bus, p)
    ensures var q := SetupRecord(addresses, bits, pga, r1, r2, bus, p);
      && q.board == BoardOf(p) && q.chip == ChipOnBoard(p) && q.channel == ChannelOf(p)
      && ChipIndex(p) < |addresses| && q.chipaddr == addresses[ChipIndex(p)]
      && q.bits == bits && q.gain == pga && q.r1 == r1 && q.r2 == r2
      && SetupRequest(addresses, bits, pga, p) == PortRequest(q)
      && q.raw == Bus.Transfer(bus, PortRequest(q)).bytes
      && q.status == None && q.rawVal == DecodeRaw(bits, q.raw)
  {
    CountersTrackPort(p);
    AddressIndexIsChipIndex(p);
  }

  /** Every chip with an address answers: the ports that answer are the first 4 per address. */
  lemma {:induction false} AnswersUpTo(addresses: seq<int>, bits: int, pga: int, bus: Bus.Bus, p: int)
    requires p >= 1 && LegalBits(bits) && LegalGain(pga)
    requires forall q :: Bus.Transfer(bus, q).Block?
    ensures Answers(addresses, bits, pga, bus, p) <==> p <= 4 * |addresses|
  {
    CountersTrackPort(p);
    AddressIndexIsChipIndex(p);
    assert ChipIndex(p) < |addresses| <==> p <= 4 * |addresses|;
  }

  /** Ports 1..n all answer the setup read. */
  ghost predicate AllAnswer(addresses: seq<int>, bits: int, pga: int, bus: Bus.Bus, n: int)
    requires LegalBits(bits) && LegalGain(pga)
  {
    forall p :: 1 <= p <= n ==> Answers(addresses, bits, pga, bus, p)
  }

  /**
   * The scan `Setup` performs over ports 1..n: the count of ports it set up
   * and the table it filled. The scan stops at the first port that does not
   * answer and never resumes.
   */
  ghost function SetupRun(addresses: seq<int>, bits: int, pga: int, r1: int, r2: int,
                          bus: Bus.Bus, n: int): (int, map<int, Port>)
    requires LegalBits(bits) && LegalGain(pga) && Bus.WellFormed(bus)
    decreases n
  {
    if n <= 0 then (0, map[])
    else
      var prev := SetupRun(addresses, bits, pga, r1, r2, bus, n - 1);
      if prev.0 == n - 1 && Answers(addresses, bits, pga, bus, n) then
        (n, prev.1[n := SetupRecord(addresses, bits, pga, r1, r2, bus, n)])
      else prev
  }

  /**
   * The scan over ports 1..n sets up a prefix 1..c of them: every port of it
   * answers and the next one (if the scan got that far) does not.
   */
  lemma {:induction false} SetupRunPrefix(addresses: seq<int>, bits: int, pga: int, r1: int, r2: int,
                                          bus: Bus.Bus, n: int)
    requires LegalBits(bits) && LegalGain(pga) && Bus.WellFormed(bus) && n >= 0
    ensures var c := SetupRun(addresses, bits, pga, r1, r2, bus, n).0;
      0 <= c <= n && AllAnswer(addresses, bits, pga, bus, c)
      && (c < n ==> !Answers(addresses, bits, pga, bus, c + 1))
  {
    if n > 0 {
      SetupRunPrefix(addresses, bits, pga, r1, r2, bus, n - 1);
      var prev := SetupRun(addresses, bits, pga, r1, r2, bus, n - 1);
      var c := SetupRun(addresses, bits, pga, r1, r2, bus, n).0;
      if prev.0 == n - 1 && Answers(addresses, bits, pga, bus, n) {
        assert c == n;
        forall p | 1 <= p <= c
          ensures Answers(addresses, bits, pga, bus, p)
        {
          if p < n {
            assert AllAnswer(addresses, bits, pga, bus, prev.0);
          }
        }
      } else {
        assert c == prev.0;
      }
    }
  }

  /** The table the scan fills holds exactly the records of the ports it set up, under their numbers. */
  lemma {:induction false} SetupRunTable(addresses: seq<int>, bits: int, pga: int, r1: int, r2: int,
                                         bus: Bus.Bus, n: int)
    requires LegalBits(bits) && LegalGain(pga) && Bus.WellFormed(bus) && n >= 0
    ensures var (c, d) := SetupRun(addresses, bits, pga, r1, r2, bus, n);
      (forall p :: p in d <==> 1 <= p <= c)
      && (forall p :: p in d ==> p >= 1 && Answers(addresses, bits, pga, bus, p)
                                 && d[p] == SetupRecord(addresses, bits, pga, r1, r2, bus, p))
  {
    if n > 0 {
      SetupRunTable(addresses, bits, pga, r1, r2, bus, n - 1);
      var (c, d) := SetupRun(addresses, bits, pga, r1, r2, bus, n - 1);
      if c == n - 1 && Answers(addresses, bits, pga, bus, n) {
        var q := SetupRecord(addresses, bits, pga, r1, r2, bus, n);
        assert SetupRun(addresses, bits, pga, r1, r2, bus, n) == (n, d[n := q]);
      } else {
        assert SetupRun(addresses, bits, pga, r1, r2, bus, n) == (c, d);
      }
    }
  }

  /** Once the scan has stopped short, scanning further ports changes nothing. */
  lemma {:induction false} SetupRunStays(addresses: seq<int>, bits: int, pga: int, r1: int, r2: int,
                                         bus: Bus.Bus, m: int, n: int)
    requires LegalBits(bits) && LegalGain(pga) && Bus.WellFormed(bus)
    requires 0 <= m <= n && SetupRun(addresses, bits, pga, r1, r2, bus, m).0 < m
    ensures SetupRun(addresses, bits, pga, r1, r2, bus, n) == SetupRun(addresses, bits, pga, r1, r2, bus, m)
  {
    if n > m {
      SetupRunStays(addresses, bits, pga, r1, r2, bus, m, n - 1);
    }
  }

  /** Every record the scan stores is a complete port record. */
  lemma {:induction false} SetupRunValid(addresses: seq<int>, bits: int, pga: int, r1: int, r2: int,
                                         bus: Bus.Bus, n: int)
    requires LegalBits(bits) && LegalGain(pga) && Bus.WellFormed(bus)
    ensures AllValid(SetupRun(addresses, bits, pga, r1, r2, bus, n).1)
  {
    if n > 0 {
      SetupRunValid(addresses, bits, pga, r1, r2, bus, n - 1);
    }
  }

  /**
   * What `Setup` leaves in `maxport` when every bus transfer succeeds: the
   * scan stops right after the last port of the last address, or at n.
   */
  lemma {:induction false} SetupCount(addresses: seq<int>, bits: int, pga: int, r1: int, r2: int,
                                      bus: Bus.Bus, n: int)
    requires LegalBits(bits) && LegalGain(pga) && Bus.WellFormed(bus) && n >= 0
    requires forall q :: Bus.Transfer(bus, q).Block?
    ensures SetupRun(addresses, bits, pga, r1, r2, bus, n).0 == if 4 * |addresses| < n then 4 * |addresses| else n
  {
    SetupRunPrefix(addresses, bits, pga, r1, r2, bus, n);
    var c := SetupRun(addresses, bits, pga, r1, r2, bus, n).0;
    if c < n {
      AnswersUpTo(addresses, bits, pga, bus, c + 1);
    }
    if c > 0 {
      AnswersUpTo(addresses, bits, pga, bus, c);
    }
  }

  /** The counter updates at the end of a `Setup` pass: channel, then chip, then board. */
  method NextCounters(board: int, chip: int, channel: int) returns (board': int, chip': int, channel': int)
    ensures (board', chip', channel') == Advance((board, chip, channel))
  {
    board', chip', channel' := board, chip, channel + 1;
    if channel' == 5 {
      channel' := 1;
      chip' := chip' + 1;
    }
    if chip' == 3 {
      chip' := 1;
      board' := board' + 1;
    }
  }

  class Monitor {
    var data: map<int, Port>
    var maxport: int

    ghost predicate Valid()
      reads this
    {
      AllValid(data)
    }

    constructor ()
      ensures Valid() && data == map[] && maxport == 32
    {
      data := map[];
      maxport := 32;
    }

    /**
     * `Setup`: walk ports 1..maxport with board/chip/channel counters, read
     * each port once with the command-line resolution and gain, and stop with
     * maxport = port - 1 at the first port without an address (IndexError) or
     * whose chip does not answer (OSError).
     */
    method Setup(addresses: seq<int>, bits: int, pga: int, r1: int, r2: int, bus: Bus.Bus)
      requires data == map[] && maxport >= 0
      requires LegalBits(bits) && LegalGain(pga) && Bus.WellFormed(bus)
      modifies this
      ensures Valid()
      ensures (maxport, data) == SetupRun(addresses, bits, pga, r1, r2, bus, old(maxport))
    {
      var board, chip, channel := 1, 1, 1;
      var port := 1;
      var last := maxport;
      while port <= last
        invariant 1 <= port <= last + 1 && maxport == last
        invariant (board, chip, channel) == Counters(port)
        invariant SetupRun(addresses, bits, pga, r1, r2, bus, port - 1) == (port - 1, data)
        invariant Valid()
      {
        var ok;
        ok, board, chip, channel := SetupStep(addresses, bits, pga, r1, r2, bus, port, board, chip, channel);
        if !ok {
          maxport := port - 1;
          SetupRunStays(addresses, bits, pga, r1, r2, bus, port, last);
          assert (maxport, data) == SetupRun(addresses, bits, pga, r1, r2, bus, last);
          return;
        }
        port := port + 1;
      }
      assert port == last + 1;
    }

    /** One pass of the `Setup` loop: the try block, then the counter updates. */
    method SetupStep(addresses: seq<int>, bits: int, pga: int, r1: int, r2: int, bus: Bus.Bus,
                     port: int, board: int, chip: int, channel: int)
      returns (ok: bool, board': int, chip': int, channel': int)
      requires Valid() && port >= 1
      requires LegalBits(bits) && LegalGain(pga) && Bus.WellFormed(bus)
      requires (board, chip, channel) == Counters(port)
      requires SetupRun(addresses, bits, pga, r1, r2, bus, port - 1) == (port - 1, data)
      modifies this
      ensures Valid() && maxport == old(maxport)
      ensures ok == Answers(addresses, bits, pga, bus, port)
      ensures ok ==> SetupRun(addresses, bits, pga, r1, r2, bus, port) == (port, data)
      ensures ok ==> (board', chip', channel') == Counters(port + 1)
      ensures !ok ==> SetupRun(addresses, bits, pga, r1, r2, bus, port) == (port - 1, data) && data == old(data)
    {
      ok := SetupPort(addresses, bits, pga, r1, r2, bus, port, board, chip, channel);
      board', chip', channel' := board, chip, channel;
      if !ok {
        return;
      }
      board', chip', channel' := NextCounters(board, chip, channel);
      assert Counters(port + 1) == Advance(Counters(port));
    }

    /**
     * The try block of one `Setup` pass: the chip address from the counters and
     * the first block read. None when the address list is too short
     * (IndexError) or the bus raises (OSError).
     */
    method FirstRead(addresses: seq<int>, bits: int, pga: int, bus: Bus.Bus,
                     port: int, board: int, chip: int, channel: int) returns (r: Option<(int, seq<Byte>)>)
      requires port >= 1 && LegalBits(bits) && LegalGain(pga)
      requires (board, chip, channel) == Counters(port)
      ensures r.Some? <==> Answers(addresses, bits, pga, bus, port)
      ensures r.Some? ==> r.value == (addresses[AddressIndex(board, chip)], Bus.Transfer(bus, SetupRequest(addresses, bits, pga, port)).bytes)
    {
      var index := board * 2 + chip - 3;
      if index >= |addresses| {
        return None;
      }
      var chipaddr := addresses[index];
      var cmd := EncodeConfig(channel, bits, pga).value;
      var reply := Bus.Transfer(bus, Bus.Request(chipaddr, cmd, if bits == 18 then 4 else 3));
      assert reply == Bus.Transfer(bus, SetupRequest(addresses, bits, pga, port));
      if reply.IoError? {
        return None;
      }
      return Some((chipaddr, reply.bytes));
    }

    /** One pass of the `Setup` loop body: fill in port `port` from the current counters, or fail. */
    method SetupPort(addresses: seq<int>, bits: int, pga: int, r1: int, r2: int, bus: Bus.Bus,
                     port: int, board: int, chip: int, channel: int) returns (ok: bool)
      requires Valid() && port >= 1
      requires LegalBits(bits) && LegalGain(pga) && Bus.WellFormed(bus)
      requires (board, chip, channel) == Counters(port)
      modifies this
      ensures Valid() && maxport == old(maxport)
      ensures ok == Answers(addresses, bits, pga, bus, port)
      ensures ok ==> data == old(data)[port := SetupRecord(addresses, bits, pga, r1, r2, bus, port)]
      ensures !ok ==> data == old(data)
    {
      var read := FirstRead(addresses, bits, pga, bus, port, board, chip, channel);
      if read.None? {
        return false;
      }
      var (chipaddr, raw) := read.value;
      data := data[port := Port(bits, pga, board, chip, chipaddr, channel, r1, r2, raw, None, None)];
      Adc2Volt(port);
      ok := true;
    }

    /**
     * `readADC`: request the port's configuration, store the block read and
     * return its last byte, the status. A bus error propagates and leaves the
     * record as it was.
     */
    method ReadAdc(port: int, bus: Bus.Bus) returns (status: Option<Byte>)
      requires Valid() && port in data && Bus.WellFormed(bus)
      modifies this
      ensures Valid() && maxport == old(maxport)
      ensures Bus.Transfer(bus, PortRequest(old(data)[port])).IoError? ==> status.None? && data == old(data)
      ensures Bus.Transfer(bus, PortRequest(old(data)[port])).Block? ==>
        var bytes := Bus.Transfer(bus, PortRequest(old(data)[port])).bytes;
        status == Some(StatusByte(old(data)[port].bits, bytes))
        && data == old(data)[port := old(data)[port].(raw := bytes, status := status)]
    {
      var q := data[port];
      var cmd := EncodeConfig(q.channel, q.bits, q.gain).value;
      var reply: Bus.Reply;
      if q.bits == 18 {
        reply := Bus.Transfer(bus, Bus.Request(q.chipaddr, cmd, 4));
      } else {
        reply := Bus.Transfer(bus, Bus.Request(q.chipaddr, cmd, 3));
      }
      assert reply == Bus.Transfer(bus, PortRequest(q));
      if reply.IoError? {
        return None;
      }
      var raw := reply.bytes;
      status := Some(if q.bits == 18 then raw[3] else raw[2]);
      data := data[port := q.(raw := raw, status := status)];
    }

    /** The decoding half of `adc2volt`: the signed code of the block last read. */
    method Adc2Volt(port: int)
      requires port in data
      requires LegalBits(data[port].bits) && |data[port].raw| >= DataBytes(data[port].bits)
      requires forall p :: p in data && p != port ==> PortValid(data[p])
      requires LegalChannel(data[port].channel) && LegalGain(data[port].gain)
      requires |data[port].raw| == ResponseLength(data[port].bits)
      modifies this
      ensures Valid() && maxport == old(maxport)
      ensures data == old(data)[port := old(data)[port].(rawVal := DecodeRaw(old(data)[port].bits, old(data)[port].raw))]
      ensures -(Pow2(data[port].bits) as int) <= data[port].rawVal.value < Pow2(data[port].bits)
    {
      var q := data[port];
      DecodeRawRange(q.bits, q.raw);
      data := data[port := q.(rawVal := DecodeRaw(q.bits, q.raw))];
    }

    /**
     * `AutoTune` with the 1% margin: one notch down near either end of the
     * range, one notch up with room to spare, else unchanged.
     */
    method AutoTune(port: int)
      requires Valid() && port in data
      modifies this
      ensures Valid() && maxport == old(maxport)
      ensures var q := old(data)[port];
        data == old(data)[port := q.(gain := Step(q.gain, q.rawVal.value, q.bits, PythonMargin))]
      ensures data[port].gain in {old(data)[port].gain / 2, old(data)[port].gain, 2 * old(data)[port].gain}
    {
      var q := data[port];
      var margin := Pow2(q.bits) as real * 0.01;
      var upper := Pow2(q.bits - 1) as real - margin;
      var lower := -upper;
      var rawval := q.rawVal.value as real;
      var gain := q.gain;
      if q.gain > 1 && (rawval > upper || rawval < lower) {
        if q.gain == 8 {
          gain := 4;
        } else if q.gain == 4 {
          gain := 2;
        } else {
          gain := 1;
        }
      } else if q.gain < 8 && (rawval < upper / 2.0 && rawval > lower / 2.0) {
        if q.gain == 1 {
          gain := 2;
        } else if q.gain == 2 {
          gain := 4;
        } else {
          gain := 8;
        }
      }
      assert gain == Step(q.gain, q.rawVal.value, q.bits, PythonMargin);
      StepOneNotch(q.gain, q.rawVal.value, q.bits, PythonMargin);
      data := data[port := q.(gain := gain)];
    }
  }
}
