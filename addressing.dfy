/**
 * Port numbering shared by the three scripts: ports are numbered from 1,
 * four channels per chip and two chips per board, so port p is channel
 * (p-1) mod 4 + 1 of chip (p-1) div 4, counted from 0 over all boards.
 */
module Addressing {

  /** Index of the port's chip in the address list, from 0. */
  function ChipIndex(port: int): (i: int)
    requires port >= 1
    ensures 0 <= i && 4 * i < port <= 4 * i + 4
  {
    (port - 1) / 4
  }

  /** Channel of the port on its chip, 1..4. */
  function ChannelOf(port: int): (ch: int)
    requires port >= 1
    ensures 1 <= ch <= 4 && port == 4 * ChipIndex(port) + ch
  {
    (port - 1) % 4 + 1
  }

  /** Which of the two chips of its board serves the port, 1 or 2. */
  function ChipOnBoard(port: int): (c: int)
    requires port >= 1
    ensures 1 <= c <= 2
  {
    ChipIndex(port) % 2 + 1
  }

  /** The board the port is on, from 1. */
  function BoardOf(port: int): (b: int)
    requires port >= 1
    ensures b >= 1 && 8 * (b - 1) < port <= 8 * b
  {
    (port - 1) / 8 + 1
  }

  /** The index expression the Python and bus scripts use, `board*2 + chip - 3`. */
  function AddressIndex(board: int, chip: int): int {
    board * 2 + chip - 3
  }

  /** Board and chip counters select the port's chip in the address list. */
  lemma {:induction false} AddressIndexIsChipIndex(port: int)
    requires port >= 1
    ensures AddressIndex(BoardOf(port), ChipOnBoard(port)) == ChipIndex(port)
  {
    var i := ChipIndex(port);
    assert BoardOf(port) - 1 == i / 2 by {
      assert (port - 1) / 8 == ((port - 1) / 4) / 2;
    }
  }

  /**
   * How the three counters move from one port to the next: the channel cycles
   * 1..4, the chip moves on after channel 4 and cycles 1..2, the board moves on
   * after chip 2.
   */
  lemma {:induction false} NextPort(port: int)
    requires port >= 1
    ensures ChannelOf(port + 1) == if ChannelOf(port) == 4 then 1 else ChannelOf(port) + 1
    ensures ChipOnBoard(port + 1) == if ChannelOf(port) < 4 then ChipOnBoard(port)
                                     else if ChipOnBoard(port) == 2 then 1 else 2
    ensures BoardOf(port + 1) == if ChannelOf(port) == 4 && ChipOnBoard(port) == 2 then BoardOf(port) + 1
                                 else BoardOf(port)
  {
    var i := ChipIndex(port);
    if ChannelOf(port) == 4 {
      assert ChipIndex(port + 1) == i + 1;
      assert (port - 1) / 8 == i / 2 && port / 8 == (i + 1) / 2;
    } else {
      assert ChipIndex(port + 1) == i;
      assert (port - 1) / 8 == i / 2 && port / 8 == i / 2;
    }
  }

  /** One pass of the counter updates at the end of the Python and bus scripts' setup loops. */
  function Advance(c: (int, int, int)): (int, int, int) {
    var (board, chip, channel) := c;
    var (chip1, channel1) := if channel + 1 == 5 then (chip + 1, 1) else (chip, channel + 1);
    if chip1 == 3 then (board + 1, 1, channel1) else (board, chip1, channel1)
  }

  /** The (board, chip, channel) counters when the loop reaches `port`, starting from (1, 1, 1). */
  function Counters(port: int): (r: (int, int, int))
    requires port >= 1
    ensures r.0 >= 1 && 1 <= r.1 <= 2 && 1 <= r.2 <= 4
  {
    if port == 1 then (1, 1, 1) else Advance(Counters(port - 1))
  }

  /** The counters always name the port's board, chip and channel. */
  lemma {:induction false} CountersTrackPort(port: int)
    requires port >= 1
    ensures Counters(port) == (BoardOf(port), ChipOnBoard(port), ChannelOf(port))
  {
    if port > 1 {
      CountersTrackPort(port - 1);
      NextPort(port - 1);
    }
  }

  /** The port the sysfs script numbers for chip entry `addr` (from 1) and sysfs channel `ch` (from 0). */
  function SysfsPort(addr: int, ch: int): int {
    (addr - 1) * 4 + ch + 1
  }

  /** The sysfs numbering agrees with the shared one, and every port has exactly one (addr, ch). */
  lemma SysfsPortAddressing(addr: int, ch: int)
    requires addr >= 1 && 0 <= ch < 4
    ensures SysfsPort(addr, ch) >= 1
    ensures ChipIndex(SysfsPort(addr, ch)) == addr - 1
    ensures ChannelOf(SysfsPort(addr, ch)) == ch + 1
  {
  }

  lemma SysfsPortOnto(port: int)
    requires port >= 1
    ensures SysfsPort(ChipIndex(port) + 1, ChannelOf(port) - 1) == port
  {
  }

  /** The (chip entry, sysfs channel) the sysfs script's nested loops are at when they reach `port`. */
  function SysfsSlot(port: int): (r: (int, int))
    requires port >= 1
    ensures r.0 >= 1 && 0 <= r.1 < 4
  {
    if port == 1 then (1, 0)
    else
      var (addr, ch) := SysfsSlot(port - 1);
      if ch == 3 then (addr + 1, 0) else (addr, ch + 1)
  }

  /** The nested loops reach port p at chip entry (p-1) div 4 + 1 and channel (p-1) mod 4. */
  lemma {:induction false} SysfsSlotTracksPort(port: int)
    requires port >= 1
    ensures SysfsSlot(port) == (ChipIndex(port) + 1, ChannelOf(port) - 1)
    ensures SysfsPort(SysfsSlot(port).0, SysfsSlot(port).1) == port
  {
    if port > 1 {
      SysfsSlotTracksPort(port - 1);
      if ChannelOf(port - 1) == 4 {
        assert ChipIndex(port) == ChipIndex(port - 1) + 1;
      } else {
        assert ChipIndex(port) == ChipIndex(port - 1);
      }
    }
  }
}
