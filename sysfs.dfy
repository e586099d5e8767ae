/**
 * The sysfs variant (ReadADC.js): the kernel driver exposes each chip as a
 * directory of text attributes. The script reads a port's sampling speed and
 * scale and finds them in the chip's lists of available options, writes an
 * option back to change the resolution or the gain, and polls the ports.
 */
module Sysfs {
  import opened Wrappers
  import opened Register
  import opened Addressing
  import opened AutoGain
  import CommandLine
  import Text

  // ---------------------------------------------------------------- text

  /** What `\s` matches among the ASCII characters: space, tab, newline, vertical tab, form feed, return. */
  predicate IsSpace(c: char) {
    c == ' ' || 9 <= c as int <= 13
  }

  predicate NoSpace(w: string) {
    forall i :: 0 <= i < |w| ==> !IsSpace(w[i])
  }

  /** `text.replace(/\n$/, '')`: one final newline removed, if there is one. */
  function Chomp(text: string): (r: string)
    ensures text == r || text == r + "\n"
  {
    if |text| > 0 && text[|text| - 1] == '\n' then text[..|text| - 1] else text
  }

  /** A text written with a final newline reads back as written. */
  lemma ChompNewline(s: string)
    ensures Chomp(s + "\n") == s
  {
    assert (s + "\n")[..|s|] == s;
  }

  /** A text without a final newline is read unchanged. */
  lemma ChompPlain(s: string)
    requires |s| == 0 || s[|s| - 1] != '\n'
    ensures Chomp(s) == s
  {
  }

  /** The length of the run of non-space characters at the start of `s`. */
  function WordLength(s: string): (n: nat)
    ensures n <= |s| && NoSpace(s[..n]) && (n < |s| ==> IsSpace(s[n]))
  {
    if s == [] || IsSpace(s[0]) then 0
    else
      var m := WordLength(s[1..]);
      assert s[..m + 1] == [s[0]] + s[1..][..m];
      m + 1
  }

  /** The whitespace-separated words of `s`, in order. */
  function Words(s: string): (r: seq<string>)
    ensures forall i :: 0 <= i < |r| ==> |r[i]| > 0 && NoSpace(r[i])
    decreases |s|
  {
    if s == [] then []
    else if IsSpace(s[0]) then Words(s[1..])
    else
      var n := WordLength(s);
      [s[..n]] + Words(s[n..])
  }

  /**
   * An option list as the script reads it,
   * `text.replace(/\n$/, '').trim().split(/\s+/)`: the words, or a single
   * empty string when there are none.
   */
  function Options(text: string): (r: seq<string>)
    ensures Words(text) != [] ==> r == Words(text)
    ensures Words(text) == [] ==> r == [""]
    ensures forall i :: 0 <= i < |r| ==> NoSpace(r[i])
  {
    var w := Words(Chomp(text));
    WordsChomp(text);
    if w == [] then [""] else w
  }

  /** Removing a final newline does not change the words. */
  lemma {:induction false} WordsChomp(s: string)
    ensures Words(Chomp(s)) == Words(s)
    decreases |s|
  {
    if |s| > 0 && s[|s| - 1] == '\n' {
      WordsDropSpace(s[..|s| - 1], s[|s| - 1]);
      assert s[..|s| - 1] + [s[|s| - 1]] == s;
    }
  }

  /** A trailing space character adds no word. */
  lemma {:induction false} WordsDropSpace(s: string, c: char)
    requires IsSpace(c)
    ensures Words(s + [c]) == Words(s)
    decreases |s|
  {
    if s == [] {
      assert Words([c]) == Words([c][1..]);
    } else if IsSpace(s[0]) {
      assert (s + [c])[1..] == s[1..] + [c];
      WordsDropSpace(s[1..], c);
    } else {
      var n := WordLength(s);
      WordLengthUpTo(s, [c]);
      assert (s + [c])[..n] == s[..n];
      assert (s + [c])[n..] == s[n..] + [c];
      WordsDropSpace(s[n..], c);
    }
  }

  /** The first word is not changed by what follows a space that ends it. */
  lemma {:induction false} WordLengthUpTo(s: string, t: string)
    requires t == [] || IsSpace(t[0]) || WordLength(s) < |s|
    ensures WordLength(s + t) == WordLength(s)
    decreases |s|
  {
    if s == [] {
      assert s + t == t;
    } else if !IsSpace(s[0]) {
      assert (s + t)[1..] == s[1..] + t;
      WordLengthUpTo(s[1..], t);
    }
  }

  /** A word followed by nothing or by a space starts with a run exactly its length. */
  lemma {:induction false} WordLengthOfWord(w: string, t: string)
    requires NoSpace(w) && (t == [] || IsSpace(t[0]))
    ensures WordLength(w + t) == |w|
    decreases |w|
  {
    if w == [] {
      assert w + t == t;
    } else {
      assert (w + t)[1..] == w[1..] + t;
      WordLengthOfWord(w[1..], t);
    }
  }

  /** Words joined by single spaces split back into those words. */
  lemma {:induction false} WordsJoin(ws: seq<string>)
    requires |ws| >= 1
    requires forall i :: 0 <= i < |ws| ==> |ws[i]| > 0 && NoSpace(ws[i])
    ensures Words(Text.Join(ws, ' ')) == ws
    decreases |ws|
  {
    var w := ws[0];
    if |ws| == 1 {
      WordLengthOfWord(w, []);
      assert w + [] == w;
      assert w[..|w|] == w && w[|w|..] == [];
    } else {
      var rest := Text.Join(ws[1..], ' ');
      var t := [' '] + rest;
      var s := Text.Join(ws, ' ');
      assert s == w + t;
      WordLengthOfWord(w, t);
      assert s[..|w|] == w && s[|w|..] == t;
      assert Words(t) == Words(rest) by {
        assert t[1..] == rest;
      }
      WordsJoin(ws[1..]);
      assert ws == [w] + ws[1..];
    }
  }

  /** An option file the driver writes, words and a newline, reads back as those words. */
  lemma OptionsOfFile(ws: seq<string>)
    requires |ws| >= 1
    requires forall i :: 0 <= i < |ws| ==> |ws[i]| > 0 && NoSpace(ws[i])
    ensures Options(Text.Join(ws, ' ') + "\n") == ws
  {
    ChompNewline(Text.Join(ws, ' '));
    WordsJoin(ws);
  }

  // ---------------------------------------------------------------- option positions

  /** A field of `port_data` that holds a number, or an "unknown: " message when no option matched. */
  datatype Setting = Known(value: int) | Unknown(message: string)

  /** A text field, or JavaScript's undefined (an option position the list does not have). */
  datatype Value = Str(s: string) | Undefined

  /**
   * The text a value becomes when written to a file. The model follows
   * Node.js 8 to 13, whose `writeFileSync` converts undefined to the text
   * "undefined"; Node.js 14 and later throw a TypeError there instead.
   */
  function TextOf(v: Value): (t: string)
    ensures v.Str? ==> t == v.s
  {
    match v
    case Str(s) => s
    case Undefined => "undefined"
  }

  /** The resolutions and gains at option positions 0..3. */
  const BitsTable: seq<int> := [12, 14, 16, 18]
  const PgaTable: seq<int> := [1, 2, 4, 8]

  predicate DistinctTable(table: seq<int>) {
    |table| == 4 && forall i, j :: 0 <= i < j < 4 ==> table[i] != table[j]
  }

  /** The first four options are present and pairwise different. */
  predicate Distinct4(opts: seq<string>) {
    |opts| >= 4 && forall i, j :: 0 <= i < j < 4 ==> opts[i] != opts[j]
  }

  /** The two tables list exactly the legal resolutions and gains, each once. */
  lemma TablesLegal()
    ensures DistinctTable(BitsTable) && DistinctTable(PgaTable)
    ensures forall v :: v in BitsTable <==> LegalBits(v)
    ensures forall v :: v in PgaTable <==> LegalGain(v)
  {
  }

  /**
   * The position a switch over `opts[0]`..`opts[3]` selects for `text`: the
   * first that equals it. A position the list does not have is undefined and
   * equals no text.
   */
  function Position(text: string, opts: seq<string>): (r: Option<nat>)
    ensures r.Some? ==> r.value < 4 && r.value < |opts| && opts[r.value] == text
    ensures r.Some? ==> forall j :: 0 <= j < r.value ==> opts[j] != text
    ensures r.None? <==> forall j :: 0 <= j < 4 && j < |opts| ==> opts[j] != text
  {
    if 0 < |opts| && opts[0] == text then Some(0)
    else if 1 < |opts| && opts[1] == text then Some(1)
    else if 2 < |opts| && opts[2] == text then Some(2)
    else if 3 < |opts| && opts[3] == text then Some(3)
    else None
  }

  /**
   * The setting `setup` derives from an attribute: the table value at the
   * matched position, or "unknown: " and the attribute's text.
   */
  function FromOption(text: string, opts: seq<string>, table: seq<int>): (r: Setting)
    requires |table| == 4
    ensures r.Known? <==> Position(text, opts).Some?
    ensures r.Known? ==> r.value == table[Position(text, opts).value]
    ensures r.Unknown? ==> r.message == "unknown: " + text
  {
    match Position(text, opts)
    case Some(i) => Known(table[i])
    case None => Unknown("unknown: " + text)
  }

  /** The position a switch over the table's numbers selects for a setting (strict equality). */
  function TablePosition(v: Setting, table: seq<int>): (r: Option<nat>)
    requires |table| == 4
    ensures r.Some? ==> r.value < 4 && v.Known? && table[r.value] == v.value
    ensures r.None? <==> !(v.Known? && v.value in table)
  {
    if v.Known? && v.value == table[0] then Some(0)
    else if v.Known? && v.value == table[1] then Some(1)
    else if v.Known? && v.value == table[2] then Some(2)
    else if v.Known? && v.value == table[3] then Some(3)
    else None
  }

  /**
   * What `setBits`/`setPGA` store for a setting: the option at its position,
   * to be written; None for a setting outside the table (the default branch,
   * which stores 'undef' and writes nothing).
   */
  function OptionFor(v: Setting, opts: seq<string>, table: seq<int>): (r: Option<Value>)
    requires |table| == 4
    ensures r.Some? <==> v.Known? && v.value in table
    ensures r.Some? && r.value.Str? ==> r.value.s in opts
  {
    match TablePosition(v, table)
    case None => None
    case Some(i) => Some(if i < |opts| then Str(opts[i]) else Undefined)
  }

  /** Writing a legal setting and reading it back gives the setting, when the four options differ. */
  lemma WriteThenRead(v: Setting, opts: seq<string>, table: seq<int>)
    requires DistinctTable(table) && Distinct4(opts)
    requires v.Known? && v.value in table
    ensures OptionFor(v, opts, table).Some? && OptionFor(v, opts, table).value.Str?
    ensures FromOption(OptionFor(v, opts, table).value.s, opts, table) == v
  {
    var i := TablePosition(v, table).value;
    assert Position(opts[i], opts) == Some(i);
  }

  /** Reading an attribute that matches an option and writing the setting back writes that text. */
  lemma ReadThenWrite(text: string, opts: seq<string>, table: seq<int>)
    requires DistinctTable(table) && Position(text, opts).Some?
    ensures OptionFor(FromOption(text, opts, table), opts, table) == Some(Str(text))
  {
    var i := Position(text, opts).value;
    assert TablePosition(Known(table[i]), table) == Some(i);
  }

  /**
   * JavaScript's conversion of an attribute's text to a number in a
   * comparison, for decimal numerals; None stands for NaN.
   */
  function JsNumber(s: string): (r: Option<int>)
    ensures s == "" ==> r == Some(0)
    ensures s != "" ==> (r.Some? <==> CommandLine.PyInt(s, 10).Success?)
  {
    if s == "" then Some(0)
    else match CommandLine.PyInt(s, 10)
      case Success(v) => Some(v)
      case Failure(_) => None
  }

  /** A raw attribute holding a decimal numeral, with or without a minus sign, compares as its value. */
  lemma JsNumberDecimal(n: nat)
    ensures JsNumber(Text.DecimalString(n)) == Some(n)
    ensures JsNumber("-" + Text.DecimalString(n)) == Some(-(n as int))
  {
    var s := Text.DecimalString(n);
    CommandLine.DecimalRoundTrip(n);
    assert CommandLine.SignSplit("-" + s) == (true, s);
    assert s[0] in s;
    assert ("-" + s)[1..] == s;
  }

  // ---------------------------------------------------------------- the driver's files

  /** The attributes the script uses in a chip's iio directory. */
  datatype Attr =
    | SampleOpt       // sampling_frequency_available
    | SampleSpeed     // in_voltage_sampling_frequency
    | ScaleOpt        // in_voltage_scale_available
    | Raw(ch: int)    // in_voltage<ch>_raw
    | Scale(ch: int)  // in_voltage<ch>_scale

  /** An attribute of the chip whose address is written `chip` (the directory 1-00<chip>). */
  datatype File = File(chip: string, attr: Attr)

  /**
   * What the script does that can be observed, in order: a file read or
   * written, a port's raw value, scale and gain shown on the console.
   */
  datatype Io = Read(file: File) | Write(file: File, text: string) | Show(port: int, rawval: string, scale: Value, pga: Setting)

  /** The voltage divider resistors every port starts with, in ohms. */
  const R1: int := 120000
  const R2: int := 20000

  /** `port_data[port]` without the floating-point fields; the paths are the chip and channel. */
  datatype Port = Port(
    chip: string, channel: int,
    sampleopt: seq<string>, sps: Value, bits: Setting,
    rawval: string,
    scaleopt: seq<string>, scale: Value, pga: Setting,
    r1: int, r2: int)

  function RawFile(q: Port): File { File(q.chip, Raw(q.channel)) }
  function ScaleFile(q: Port): File { File(q.chip, Scale(q.channel)) }
  function SpeedFile(q: Port): File { File(q.chip, SampleSpeed) }

  /** The five attributes the script reads for channel `ch` of a chip exist. */
  predicate HasFiles(files: map<File, string>, chip: string, ch: int) {
    && File(chip, SampleOpt) in files && File(chip, SampleSpeed) in files
    && File(chip, ScaleOpt) in files && File(chip, Raw(ch)) in files && File(chip, Scale(ch)) in files
  }

  /** A setting is a table value whenever it is a number. */
  predicate InTable(v: Setting, table: seq<int>) {
    v.Known? ==> v.value in table
  }

  predicate SettingsOk(q: Port) {
    InTable(q.bits, BitsTable) && InTable(q.pga, PgaTable)
  }

  predicate RecordOk(files: map<File, string>, q: Port) {
    HasFiles(files, q.chip, q.channel) && SettingsOk(q)
  }

  ghost predicate AllOk(files: map<File, string>, d: map<int, Port>) {
    forall p :: p in d ==> RecordOk(files, d[p])
  }

  /** Writing an existing attribute keeps every record's files in place. */
  lemma AllOkWrite(files: map<File, string>, d: map<int, Port>, f: File, t: string)
    requires AllOk(files, d) && f in files
    ensures AllOk(files[f := t], d)
  {
    forall p | p in d
      ensures RecordOk(files[f := t], d[p])
    {
      assert RecordOk(files, d[p]);
    }
  }

  /**
   * The record `setup` builds from the texts of the five attributes: the
   * option lists, the sampling speed and scale with the settings they match,
   * the raw value, and the divider resistors.
   */
  function Record(chip: string, ch: int, optText: string, speedText: string, rawText: string,
                  scaleOptText: string, scaleText: string): Port
  {
    var sampleopt := Options(optText);
    var scaleopt := Options(scaleOptText);
    Port(chip, ch, sampleopt, Str(Chomp(speedText)), FromOption(Chomp(speedText), sampleopt, BitsTable),
         Chomp(rawText), scaleopt, Str(Chomp(scaleText)), FromOption(Chomp(scaleText), scaleopt, PgaTable), R1, R2)
  }

  /** The record `setup` builds for channel `ch` of `chip`; its settings are table values or messages. */
  function SetupRecord(files: map<File, string>, chip: string, ch: int): (q: Port)
    requires HasFiles(files, chip, ch)
    ensures RecordOk(files, q) && q.chip == chip && q.channel == ch
    ensures q.bits == FromOption(Chomp(files[SpeedFile(q)]), Options(files[File(chip, SampleOpt)]), BitsTable)
    ensures q.pga == FromOption(Chomp(files[ScaleFile(q)]), Options(files[File(chip, ScaleOpt)]), PgaTable)
  {
    Record(chip, ch, files[File(chip, SampleOpt)], files[File(chip, SampleSpeed)], files[File(chip, Raw(ch))],
           files[File(chip, ScaleOpt)], files[File(chip, Scale(ch))])
  }

  /** The reads `setup` makes for one port, in order: the raw value comes before the scale. */
  function SetupReads(chip: string, ch: int): (r: seq<Io>)
    ensures |r| == 5 && r[2] == Read(File(chip, Raw(ch))) && r[4] == Read(File(chip, Scale(ch)))
  {
    [Read(File(chip, SampleOpt)), Read(File(chip, SampleSpeed)), Read(File(chip, Raw(ch))),
     Read(File(chip, ScaleOpt)), Read(File(chip, Scale(ch)))]
  }

  /** How many chip entries `setup` walks: `addr < maxPort/4 + 1`, from 1. */
  function ChipCount(maxPort: int): (n: nat)
    ensures 4 * n >= maxPort
  {
    if maxPort <= 0 then 0 else (maxPort + 3) / 4
  }

  /** The count is exactly the loop bound the script computes in floating point. */
  lemma ChipBound(maxPort: int, addr: int)
    requires addr >= 1
    ensures addr <= ChipCount(maxPort) <==> (addr as real) < (maxPort as real) / 4.0 + 1.0
  {
  }

  /** The chip entries 1..n are in the address table and their attributes exist for the four channels. */
  ghost predicate ChipsPresent(files: map<File, string>, addresses: map<int, string>, n: int) {
    forall addr :: 1 <= addr <= n ==>
      addr in addresses && forall ch :: 0 <= ch < 4 ==> HasFiles(files, addresses[addr], ch)
  }

  /** The chip entries of ports 1..n are in the address table. */
  ghost predicate Addressed(addresses: map<int, string>, n: int) {
    forall p :: 1 <= p <= n ==> SysfsSlot(p).0 in addresses
  }

  /** Ports 1..n have their chip entry and attributes. */
  ghost predicate PortsPresent(files: map<File, string>, addresses: map<int, string>, n: int) {
    Addressed(addresses, n) && forall p :: 1 <= p <= n ==> PortFiles(files, addresses, p)
  }

  /** Port p's chip entry is in the address table and its attributes exist. */
  predicate PortFiles(files: map<File, string>, addresses: map<int, string>, p: int) {
    p >= 1 && SysfsSlot(p).0 in addresses && HasFiles(files, addresses[SysfsSlot(p).0], SysfsSlot(p).1)
  }

  /** When every chip entry the loops walk has its attributes, so does every port they number. */
  lemma ChipsPresentPorts(files: map<File, string>, addresses: map<int, string>, n: int)
    requires ChipsPresent(files, addresses, n)
    ensures PortsPresent(files, addresses, 4 * n)
  {
    forall p | 1 <= p <= 4 * n
      ensures PortFiles(files, addresses, p)
    {
      SysfsSlotTracksPort(p);
      assert 1 <= ChipIndex(p) + 1 <= n;
    }
    forall p | 1 <= p <= 4 * n
      ensures SysfsSlot(p).0 in addresses
    {
      assert PortFiles(files, addresses, p);
    }
  }

  /** The record `setup` leaves for port p. */
  function PortRecord(files: map<File, string>, addresses: map<int, string>, p: int): (q: Port)
    requires PortFiles(files, addresses, p)
    ensures RecordOk(files, q)
  {
    SetupRecord(files, addresses[SysfsSlot(p).0], SysfsSlot(p).1)
  }

  /**
   * `d` is `d0` with the records of ports 1..n-1 set as `setup` builds them
   * and every other entry kept.
   */
  ghost predicate Built(files: map<File, string>, addresses: map<int, string>, d0: map<int, Port>, d: map<int, Port>, n: int) {
    Extended(d0, d, n) && Scanned(files, addresses, d, n) && Kept(d0, d, n)
  }

  /** The keys of `d` are those of `d0` and ports 1..n-1. */
  ghost predicate Extended<T>(d0: map<int, T>, d: map<int, T>, n: int) {
    forall p :: p in d <==> p in d0 || 1 <= p < n
  }

  /** Ports 1..n-1 hold the records `setup` builds. */
  ghost predicate Scanned(files: map<File, string>, addresses: map<int, string>, d: map<int, Port>, n: int) {
    forall p :: 1 <= p < n ==> PortFiles(files, addresses, p) && p in d && d[p] == PortRecord(files, addresses, p)
  }

  /** Every other key of `d0` keeps its entry. */
  ghost predicate Kept<T>(d0: map<int, T>, d: map<int, T>, n: int) {
    forall p :: p in d0 && !(1 <= p < n) ==> p in d && d[p] == d0[p]
  }

  /** `d` is `d0` with the entries of ports 1..n-1 taken from `want` and every other entry kept. */
  ghost predicate Overlay(d0: map<int, Port>, d: map<int, Port>, want: map<int, Port>, n: int) {
    && (forall p :: p in d <==> p in d0 || 1 <= p < n)
    && (forall p :: 1 <= p < n ==> p in want && d[p] == want[p])
    && (forall p :: p in d0 && !(1 <= p < n) ==> d[p] == d0[p])
  }

  /** `want` holds the record `setup` builds for each of ports 1..m. */
  ghost predicate Wanted(files: map<File, string>, addresses: map<int, string>, want: map<int, Port>, m: int) {
    forall p {:trigger PortRecord(files, addresses, p)} :: 1 <= p <= m ==>
      PortFiles(files, addresses, p) && p in want && want[p] == PortRecord(files, addresses, p)
  }

  /** Setting port n's entry to its wanted record extends the overlay by one port. */
  lemma OverlayStep(files: map<File, string>, d0: map<int, Port>, d: map<int, Port>,
                    want: map<int, Port>, n: int, q: Port)
    requires AllOk(files, d) && Overlay(d0, d, want, n) && n >= 1
    requires n in want && q == want[n] && RecordOk(files, q)
    ensures AllOk(files, d[n := q]) && Overlay(d0, d[n := q], want, n + 1)
  {
  }

  /** The records wanted for ports 1..m are the ones `setup` builds. */
  lemma OverlayBuilt(files: map<File, string>, addresses: map<int, string>, d0: map<int, Port>, d: map<int, Port>,
                     want: map<int, Port>, m: int)
    requires PortsPresent(files, addresses, m) && Overlay(d0, d, want, m + 1)
    requires want == map p | 1 <= p <= m :: PortRecord(files, addresses, p)
    ensures Built(files, addresses, d0, d, m + 1)
  {
    forall p | 1 <= p < m + 1
      ensures PortFiles(files, addresses, p) && d[p] == PortRecord(files, addresses, p)
    {
      assert PortFiles(files, addresses, p);
      assert d[p] == want[p];
    }
  }

  /** The reads `setup` makes for ports 1..n. */
  ghost function SetupLog(addresses: map<int, string>, n: int): seq<Io>
    requires Addressed(addresses, n)
    decreases n
  {
    if n <= 0 then []
    else SetupLog(addresses, n - 1) + SetupReads(addresses[SysfsSlot(n).0], SysfsSlot(n).1)
  }

  /** In the reads of `setup`, every port's raw value is read two reads before its scale. */
  lemma {:induction false} SetupLogOrder(addresses: map<int, string>, n: int, p: int)
    requires Addressed(addresses, n)
    requires 1 <= p <= n
    ensures |SetupLog(addresses, n)| == 5 * n
    ensures var (chip, ch) := (addresses[SysfsSlot(p).0], SysfsSlot(p).1);
      SetupLog(addresses, n)[5 * (p - 1) + 2] == Read(File(chip, Raw(ch)))
      && SetupLog(addresses, n)[5 * (p - 1) + 4] == Read(File(chip, Scale(ch)))
    decreases n
  {
    SetupLogLength(addresses, n - 1);
    if p < n {
      SetupLogOrder(addresses, n - 1, p);
    }
  }

  /** Port n's reads extend the reads of ports 1..n-1. */
  lemma LogStep(addresses: map<int, string>, log0: seq<Io>, n: int, m: int)
    requires Addressed(addresses, m) && 1 <= n <= m
    ensures log0 + SetupLog(addresses, n - 1) + SetupReads(addresses[SysfsSlot(n).0], SysfsSlot(n).1)
      == log0 + SetupLog(addresses, n)
  {
    AppendAssoc(log0, SetupLog(addresses, n - 1), SetupReads(addresses[SysfsSlot(n).0], SysfsSlot(n).1));
  }

  lemma {:induction false} SetupLogLength(addresses: map<int, string>, n: int)
    requires Addressed(addresses, n)
    ensures |SetupLog(addresses, n)| == if n <= 0 then 0 else 5 * n
    decreases n
  {
    if n > 0 {
      SetupLogLength(addresses, n - 1);
    }
  }

  // ---------------------------------------------------------------- the main part's start

  /** Attributes keep their names when only their texts change. */
  lemma PortsPresentKeys(files: map<File, string>, files': map<File, string>, addresses: map<int, string>, n: int)
    requires PortsPresent(files, addresses, n) && files'.Keys == files.Keys
    ensures PortsPresent(files', addresses, n)
  {
    forall p | 1 <= p <= n
      ensures PortFiles(files', addresses, p)
    {
      assert PortFiles(files, addresses, p);
    }
  }

  /** A second `setup` over the ports of the first leaves every other entry as it was before the first. */
  lemma BuiltAgain(files: map<File, string>, files': map<File, string>, addresses: map<int, string>,
                   d0: map<int, Port>, d1: map<int, Port>, x: Port, d: map<int, Port>, n: int)
    requires 1 < n
    requires Built(files, addresses, d0, d1, n) && Built(files', addresses, d1[1 := x], d, n)
    ensures Built(files', addresses, d0, d, n)
  {
    forall p | p in d0 && !(1 <= p < n)
      ensures d[p] == d0[p]
    {
      assert p in d1[1 := x] && d1[1 := x][p] == d1[p];
    }
  }

  /** An option word has no final newline, so `setup` reads it back unchanged. */
  lemma ChompWord(w: string)
    requires NoSpace(w)
    ensures Chomp(w) == w
  {
    if |w| > 0 {
      assert !IsSpace(w[|w| - 1]);
    }
  }

  /** The record of port 1 after `setup`, set to 18 bits as the main part does. */
  function Port1At18(files: map<File, string>, addresses: map<int, string>): (q: Port)
    requires PortFiles(files, addresses, 1)
    ensures q == PortRecord(files, addresses, 1).(bits := Known(18))
  {
    PortRecord(files, addresses, 1).(bits := Known(18))
  }

  /** `setBits(1)` for 18 bits writes one attribute: port 1's chip's sampling speed, with option 3 when there is one. */
  lemma SetBitsFile(files: map<File, string>, addresses: map<int, string>)
    requires PortFiles(files, addresses, 1)
    ensures var q := Port1At18(files, addresses);
      && BitsWrite(q).1 == [Write(SpeedFile(q), TextOf(BitsWrite(q).0.sps))]
      && Apply(files, BitsWrite(q).1) == files[SpeedFile(q) := TextOf(BitsWrite(q).0.sps)]
      && (|q.sampleopt| >= 4 ==> BitsWrite(q).0.sps == Str(q.sampleopt[3]))
  {
    var q := Port1At18(files, addresses);
    Bits18Write(q);
    ApplyWrite(files, SpeedFile(q), TextOf(BitsWrite(q).0.sps));
  }

  /** `setBits` for 18 bits writes the sampling speed, with option 3 when there is one. */
  lemma Bits18Write(q: Port)
    requires q.bits == Known(18)
    ensures BitsWrite(q).1 == [Write(SpeedFile(q), TextOf(BitsWrite(q).0.sps))]
    ensures |q.sampleopt| >= 4 ==> BitsWrite(q).0.sps == Str(q.sampleopt[3])
  {
    assert TablePosition(q.bits, BitsTable) == Some(3);
  }

  /** The attributes after the main part's start: `setBits(1)` applied when port 1 was not at 18 bits. */
  ghost function StartFiles(files: map<File, string>, addresses: map<int, string>): map<File, string>
    requires PortFiles(files, addresses, 1)
  {
    var r := PortRecord(files, addresses, 1);
    if r.bits == Known(18) then files else Apply(files, BitsWrite(r.(bits := Known(18))).1)
  }

  /** The main part's start: the reads of `setup`, and when port 1 was not at 18 bits the write and the reads again. */
  ghost function StartLog(files: map<File, string>, addresses: map<int, string>, n: int): seq<Io>
    requires PortFiles(files, addresses, 1) && Addressed(addresses, n)
  {
    var r := PortRecord(files, addresses, 1);
    if r.bits == Known(18) then SetupLog(addresses, n)
    else SetupLog(addresses, n) + BitsWrite(r.(bits := Known(18))).1 + SetupLog(addresses, n)
  }

  /** The log of the two scans and the write between them, joined in one. */
  lemma StartLogJoin(io0: seq<Io>, scan: seq<Io>, w: seq<Io>, io: seq<Io>)
    requires io == io0 + scan + w + scan
    ensures io == io0 + (scan + w + scan)
  {
  }

  /**
   * What the second `setup` reads after `setBits(1)` for 18 bits on port 1's
   * chip: the sampling speed at option position 3, which is 18 bits when the
   * chip's four options differ.
   */
  lemma SetBitsSameChip(files: map<File, string>, addresses: map<int, string>, n: int, p: int)
    requires PortsPresent(files, addresses, n) && 1 <= p <= n
    requires addresses[SysfsSlot(p).0] == Port1At18(files, addresses).chip
    requires Distinct4(Port1At18(files, addresses).sampleopt)
    ensures var files' := Apply(files, BitsWrite(Port1At18(files, addresses)).1);
      PortFiles(files', addresses, p) && PortRecord(files', addresses, p).bits == Known(18)
  {
    assert PortFiles(files, addresses, 1) && PortFiles(files, addresses, p);
    var q := Port1At18(files, addresses);
    SetBitsFile(files, addresses);
    var text := q.sampleopt[3];
    var files' := files[SpeedFile(q) := text];
    var chip := addresses[SysfsSlot(p).0];
    assert files'[File(chip, SampleOpt)] == files[File(chip, SampleOpt)];
    assert q.sampleopt == Options(files[File(chip, SampleOpt)]);
    TablesLegal();
    WriteThenRead(q.bits, q.sampleopt, BitsTable);
    ChompWord(text);
    assert Chomp(files'[File(chip, SampleSpeed)]) == text;
  }

  /** A port on another chip than port 1's reads the record it read before `setBits(1)`. */
  lemma SetBitsOtherChip(files: map<File, string>, addresses: map<int, string>, n: int, p: int)
    requires PortsPresent(files, addresses, n) && 1 <= p <= n
    requires addresses[SysfsSlot(p).0] != Port1At18(files, addresses).chip
    ensures var files' := Apply(files, BitsWrite(Port1At18(files, addresses)).1);
      PortFiles(files', addresses, p) && PortRecord(files', addresses, p) == PortRecord(files, addresses, p)
  {
    assert PortFiles(files, addresses, 1) && PortFiles(files, addresses, p);
    SetBitsFile(files, addresses);
    var q := Port1At18(files, addresses);
    var files' := files[SpeedFile(q) := TextOf(BitsWrite(q).0.sps)];
    SetupRecordElsewhere(files, addresses[SysfsSlot(p).0], SysfsSlot(p).1, SpeedFile(q), TextOf(BitsWrite(q).0.sps));
  }

  /** A write to another chip's attribute leaves the record `setup` builds unchanged. */
  lemma SetupRecordElsewhere(files: map<File, string>, chip: string, ch: int, f: File, t: string)
    requires HasFiles(files, chip, ch) && f.chip != chip
    ensures HasFiles(files[f := t], chip, ch) && SetupRecord(files[f := t], chip, ch) == SetupRecord(files, chip, ch)
  {
    var files' := files[f := t];
    assert files'[File(chip, SampleOpt)] == files[File(chip, SampleOpt)];
    assert files'[File(chip, SampleSpeed)] == files[File(chip, SampleSpeed)];
    assert files'[File(chip, Raw(ch))] == files[File(chip, Raw(ch))];
    assert files'[File(chip, ScaleOpt)] == files[File(chip, ScaleOpt)];
    assert files'[File(chip, Scale(ch))] == files[File(chip, Scale(ch))];
  }

  // ---------------------------------------------------------------- polling

  lemma AppendAssoc<T>(a: seq<T>, b: seq<T>, c: seq<T>)
    ensures a + b + c == a + (b + c)
  {
  }

  /** `GetVal`: the raw value and the scale read again from their attributes. */
  function GotVal(q: Port, files: map<File, string>): Port
    requires HasFiles(files, q.chip, q.channel)
  {
    q.(rawval := Chomp(files[RawFile(q)]), scale := Str(Chomp(files[ScaleFile(q)])))
  }

  /** The files after the writes among `log`, in order. */
  function Apply(files: map<File, string>, log: seq<Io>): map<File, string>
    decreases |log|
  {
    if log == [] then files
    else Apply(if log[0].Write? then files[log[0].file := log[0].text] else files, log[1..])
  }

  /** Storing a sound record keeps every record sound. */
  lemma AllOkSet(files: map<File, string>, d: map<int, Port>, p: int, q: Port)
    requires AllOk(files, d) && RecordOk(files, q)
    ensures AllOk(files, d[p := q])
  {
    forall p' | p' in d && p' != p
      ensures RecordOk(files, d[p := q][p'])
    {
      assert RecordOk(files, d[p']);
    }
  }

  /**
   * `setPGA` on a record: the scale option at its gain's position, and the
   * write of it; for any other gain 'undef' and no write.
   */
  function PgaWrite(q: Port): (r: (Port, seq<Io>))
    ensures r.0 == q.(scale := r.0.scale)
    ensures r.1 != [] <==> q.pga.Known? && q.pga.value in PgaTable
    ensures r.1 != [] ==> r.1 == [Write(ScaleFile(q), TextOf(r.0.scale))]
    ensures r.1 == [] ==> r.0.scale == Str("undef")
  {
    match OptionFor(q.pga, q.scaleopt, PgaTable)
    case None => (q.(scale := Str("undef")), [])
    case Some(v) => (q.(scale := v), [Write(ScaleFile(q), TextOf(v))])
  }

  /**
   * `setBits` on a record: the sampling option at its resolution's position,
   * and the write of it; for any other resolution 'undef' and no write.
   */
  function BitsWrite(q: Port): (r: (Port, seq<Io>))
    ensures r.0 == q.(sps := r.0.sps)
    ensures r.1 != [] <==> q.bits.Known? && q.bits.value in BitsTable
    ensures r.1 != [] ==> r.1 == [Write(SpeedFile(q), TextOf(r.0.sps))]
    ensures r.1 == [] ==> r.0.sps == Str("undef")
  {
    match OptionFor(q.bits, q.sampleopt, BitsTable)
    case None => (q.(sps := Str("undef")), [])
    case Some(v) => (q.(sps := v), [Write(SpeedFile(q), TextOf(v))])
  }

  /**
   * The gain `AutoTune` picks with the 5% margin. A field that is not a
   * number (a message, or a raw value that is not a numeral) makes every
   * comparison false, so the gain holds.
   */
  function TunedPga(q: Port): Setting
    requires SettingsOk(q)
  {
    if q.bits.Known? && q.pga.Known? && JsNumber(q.rawval).Some? then
      Known(Step(q.pga.value, JsNumber(q.rawval).value, q.bits.value, SysfsMargin))
    else q.pga
  }

  /** `AutoTune` on a record: the new gain, and `setPGA` when it changed. */
  function Tune(q: Port): (Port, seq<Io>)
    requires SettingsOk(q)
  {
    var g := TunedPga(q);
    if g == q.pga then (q, []) else PgaWrite(q.(pga := g))
  }

  /** A legal gain moves by at most one notch and stays legal; setPGA is called exactly when it moves. */
  lemma TuneSpec(q: Port)
    requires SettingsOk(q)
    ensures InTable(TunedPga(q), PgaTable)
    ensures q.pga.Known? ==>
      TunedPga(q).Known? && TunedPga(q).value in {q.pga.value / 2, q.pga.value, 2 * q.pga.value}
    ensures Tune(q).1 != [] <==> TunedPga(q) != q.pga
    ensures Tune(q).0 == q.(pga := TunedPga(q), scale := Tune(q).0.scale)
  {
    TablesLegal();
    if q.bits.Known? && q.pga.Known? && JsNumber(q.rawval).Some? {
      StepOneNotch(q.pga.value, JsNumber(q.rawval).value, q.bits.value, SysfsMargin);
    }
  }

  /** What a cycle may change in a record: the raw value, the scale and the gain. */
  predicate SameSetup(q: Port, q0: Port) {
    q.chip == q0.chip && q.channel == q0.channel && q.sampleopt == q0.sampleopt && q.sps == q0.sps
    && q.bits == q0.bits && q.scaleopt == q0.scaleopt && q.r1 == q0.r1 && q.r2 == q0.r2
  }

  /** Ports 1..n have records. */
  ghost predicate Numbered(d: map<int, Port>, n: int) {
    forall p :: 1 <= p <= n ==> p in d
  }

  /** Records stay sound when the set of attributes is the same. */
  lemma AllOkKeys(files: map<File, string>, files': map<File, string>, d: map<int, Port>)
    requires AllOk(files, d) && files'.Keys == files.Keys
    ensures AllOk(files', d)
  {
    forall p | p in d
      ensures RecordOk(files', d[p])
    {
      assert RecordOk(files, d[p]);
    }
  }

  /** A single write applied. */
  lemma ApplyWrite(files: map<File, string>, f: File, t: string)
    ensures Apply(files, [Write(f, t)]) == files[f := t]
  {
    assert [Write(f, t)][1..] == [];
  }

  /** Applying two logs one after the other is applying them joined. */
  lemma {:induction false} ApplyConcat(files: map<File, string>, a: seq<Io>, b: seq<Io>)
    ensures Apply(files, a + b) == Apply(Apply(files, a), b)
    decreases |a|
  {
    if a == [] {
      assert a + b == b;
    } else {
      assert (a + b)[1..] == a[1..] + b;
      ApplyConcat(if a[0].Write? then files[a[0].file := a[0].text] else files, a[1..], b);
    }
  }

  /** Every write in `log` is to a file of `files`. */
  ghost predicate WritesExisting(files: map<File, string>, log: seq<Io>) {
    forall i :: 0 <= i < |log| && log[i].Write? ==> log[i].file in files
  }

  /** Writing existing files never adds or removes one. */
  lemma {:induction false} ApplyKeys(files: map<File, string>, log: seq<Io>)
    requires WritesExisting(files, log)
    ensures Apply(files, log).Keys == files.Keys
    decreases |log|
  {
    if log != [] {
      var files' := if log[0].Write? then files[log[0].file := log[0].text] else files;
      assert files'.Keys == files.Keys;
      assert WritesExisting(files', log[1..]) by {
        forall i | 0 <= i < |log[1..]| && log[1..][i].Write?
          ensures log[1..][i].file in files'
        {
          assert log[1..][i] == log[i + 1];
        }
      }
      ApplyKeys(files', log[1..]);
    }
  }

  /** `d` with the entries of ports 1..n replaced, in order, by those of `e`. */
  ghost function Sweep<T>(d: map<int, T>, e: map<int, T>, n: int): (r: map<int, T>)
    requires forall p :: 1 <= p <= n ==> p in e
    decreases n
  {
    if n <= 0 then d else Sweep(d, e, n - 1)[n := e[n]]
  }

  /** After the sweep, ports 1..n hold their e entries and every other key its old one. */
  lemma {:induction false} SweepSpec<T>(d: map<int, T>, e: map<int, T>, n: int)
    requires forall p :: 1 <= p <= n ==> p in e
    ensures forall p :: p in Sweep(d, e, n) <==> p in d || 1 <= p <= n
    ensures forall p :: 1 <= p <= n ==> Sweep(d, e, n)[p] == e[p]
    ensures forall p :: p in d && !(1 <= p <= n) ==> Sweep(d, e, n)[p] == d[p]
    decreases n
  {
    if n > 0 {
      SweepSpec(d, e, n - 1);
    }
  }

  /** Every record read again. */
  ghost function Reread(files: map<File, string>, d: map<int, Port>): (r: map<int, Port>)
    requires AllOk(files, d)
  {
    map p | p in d :: GotVal(d[p], files)
  }

  /** The records after the read loop of a cycle has read ports 1..n. */
  ghost function ReadAll(files: map<File, string>, d: map<int, Port>, n: int): (r: map<int, Port>)
    requires AllOk(files, d) && Numbered(d, n)
    ensures r.Keys == d.Keys
  {
    var r := Sweep(d, Reread(files, d), n);
    SweepSpec(d, Reread(files, d), n);
    assert forall p :: p in r <==> p in d;
    assert r.Keys == d.Keys;
    r
  }

  /** `GetVal` keeps a record's setup and gain, and its soundness. */
  lemma GotValSpec(q: Port, files: map<File, string>)
    requires RecordOk(files, q)
    ensures SameSetup(GotVal(q, files), q) && GotVal(q, files).pga == q.pga
    ensures RecordOk(files, GotVal(q, files))
  {
  }

  /**
   * The read loop gives ports 1..n the raw value and scale just read and
   * keeps every other record; each record keeps its setup and gain, and
   * stays sound.
   */
  lemma ReadAllSpec(files: map<File, string>, d: map<int, Port>, n: int)
    requires AllOk(files, d) && Numbered(d, n)
    ensures forall p :: 1 <= p <= n ==> ReadAll(files, d, n)[p] == GotVal(d[p], files)
    ensures forall p :: p in d && !(1 <= p <= n) ==> ReadAll(files, d, n)[p] == d[p]
    ensures forall p :: p in d ==> SameSetup(ReadAll(files, d, n)[p], d[p]) && ReadAll(files, d, n)[p].pga == d[p].pga
    ensures AllOk(files, ReadAll(files, d, n))
  {
    var e := Reread(files, d);
    SweepSpec(d, e, n);
    var r := ReadAll(files, d, n);
    forall p | p in d
      ensures SameSetup(r[p], d[p]) && r[p].pga == d[p].pga && RecordOk(files, r[p])
    {
      assert RecordOk(files, d[p]);
      GotValSpec(d[p], files);
    }
  }

  /** Reading port n after ports 1..n-1 gives the records of ports 1..n read. */
  lemma ReadAllNext(files: map<File, string>, d: map<int, Port>, n: int)
    requires AllOk(files, d) && Numbered(d, n) && n >= 1
    ensures n in ReadAll(files, d, n - 1) && ReadAll(files, d, n - 1)[n] == d[n]
    ensures ReadAll(files, d, n - 1)[n := GotVal(ReadAll(files, d, n - 1)[n], files)] == ReadAll(files, d, n)
  {
    ReadAllSpec(files, d, n - 1);
    assert Sweep(d, Reread(files, d), n) == Sweep(d, Reread(files, d), n - 1)[n := Reread(files, d)[n]];
  }

  /** The reads of the read loop: each port's raw value, then its scale. */
  ghost function ReadLog(d: map<int, Port>, n: int): seq<Io>
    requires Numbered(d, n)
    decreases n
  {
    if n <= 0 then [] else ReadLog(d, n - 1) + [Read(RawFile(d[n])), Read(ScaleFile(d[n]))]
  }

  /** The read loop makes two reads per port, the raw value and then the scale, in port order. */
  lemma {:induction false} ReadLogSpec(d: map<int, Port>, n: int)
    requires Numbered(d, n)
    ensures |ReadLog(d, n)| == if n <= 0 then 0 else 2 * n
    ensures forall i :: 0 <= i < |ReadLog(d, n)| ==> ReadLog(d, n)[i].Read?
    ensures forall p :: 1 <= p <= n ==> ReadLog(d, n)[2 * p - 2] == Read(RawFile(d[p])) && ReadLog(d, n)[2 * p - 1] == Read(ScaleFile(d[p]))
    decreases n
  {
    if n > 0 {
      ReadLogSpec(d, n - 1);
    }
  }

  /** The console reports of the show loop: ports 1..n in order, with their values. */
  ghost function ShowLog(d: map<int, Port>, n: int): seq<Io>
    requires Numbered(d, n)
    decreases n
  {
    if n <= 0 then [] else ShowLog(d, n - 1) + [Show(n, d[n].rawval, d[n].scale, d[n].pga)]
  }

  /** The show loop reports ports 1..n in order, each with its raw value, scale and gain. */
  lemma {:induction false} ShowLogSpec(d: map<int, Port>, n: int)
    requires Numbered(d, n)
    ensures |ShowLog(d, n)| == if n <= 0 then 0 else n
    ensures forall i :: 0 <= i < |ShowLog(d, n)| ==> ShowLog(d, n)[i] == Show(i + 1, d[i + 1].rawval, d[i + 1].scale, d[i + 1].pga)
    decreases n
  {
    if n > 0 {
      ShowLogSpec(d, n - 1);
    }
  }

  /** Ports 1..n have records whose settings are table values. */
  ghost predicate Tunable(d: map<int, Port>, n: int) {
    forall p :: 1 <= p <= n ==> p in d && SettingsOk(d[p])
  }

  /** Every record whose settings are table values, tuned. */
  ghost function Retuned(d: map<int, Port>): (r: map<int, Port>)
  {
    map p | p in d && SettingsOk(d[p]) :: Tune(d[p]).0
  }

  /** The records after the tune loop of a cycle has tuned ports 1..n. */
  ghost function TuneAll(d: map<int, Port>, n: int): (r: map<int, Port>)
    requires Tunable(d, n)
    ensures r.Keys == d.Keys
  {
    var r := Sweep(d, Retuned(d), n);
    SweepSpec(d, Retuned(d), n);
    assert forall p :: p in r <==> p in d;
    assert r.Keys == d.Keys;
    r
  }

  /**
   * The tune loop gives ports 1..n the gain `AutoTune` picks and keeps every
   * other record; each record keeps its setup and raw value.
   */
  lemma TuneAllSpec(d: map<int, Port>, n: int)
    requires Tunable(d, n)
    ensures forall p :: 1 <= p <= n ==> TuneAll(d, n)[p] == Tune(d[p]).0
    ensures forall p :: p in d && !(1 <= p <= n) ==> TuneAll(d, n)[p] == d[p]
    ensures forall p :: p in d ==> SameSetup(TuneAll(d, n)[p], d[p]) && TuneAll(d, n)[p].rawval == d[p].rawval
  {
    var e := Retuned(d);
    SweepSpec(d, e, n);
    var r := TuneAll(d, n);
    forall p | p in d
      ensures SameSetup(r[p], d[p]) && r[p].rawval == d[p].rawval
    {
      if 1 <= p <= n {
        TuneSpec(d[p]);
      }
    }
  }

  /** Tuning port n after ports 1..n-1 gives the records of ports 1..n tuned. */
  lemma TuneAllNext(d: map<int, Port>, n: int)
    requires Tunable(d, n) && n >= 1
    ensures n in TuneAll(d, n - 1) && TuneAll(d, n - 1)[n] == d[n]
    ensures TuneAll(d, n - 1)[n := Tune(TuneAll(d, n - 1)[n]).0] == TuneAll(d, n)
  {
    TuneAllSpec(d, n - 1);
    assert Sweep(d, Retuned(d), n) == Sweep(d, Retuned(d), n - 1)[n := Retuned(d)[n]];
  }

  /** The writes of the tune loop: `setPGA` for each port whose gain moved, in port order. */
  ghost function TuneLog(d: map<int, Port>, n: int): seq<Io>
    requires Tunable(d, n)
    decreases n
  {
    if n <= 0 then [] else TuneLog(d, n - 1) + Tune(d[n]).1
  }

  /** Every entry of the log is a write to a scale attribute. */
  ghost predicate ScaleWrites(log: seq<Io>) {
    forall i :: 0 <= i < |log| ==> log[i].Write? && log[i].file.attr.Scale?
  }

  lemma ScaleWritesConcat(a: seq<Io>, b: seq<Io>)
    requires ScaleWrites(a) && ScaleWrites(b)
    ensures ScaleWrites(a + b)
  {
    forall i | 0 <= i < |a + b|
      ensures (a + b)[i].Write? && (a + b)[i].file.attr.Scale?
    {
      if i < |a| {
        assert (a + b)[i] == a[i];
      } else {
        assert (a + b)[i] == b[i - |a|];
      }
    }
  }

  /** The tune loop only writes, and only scale attributes. */
  lemma {:induction false} TuneLogSpec(d: map<int, Port>, n: int)
    requires Tunable(d, n)
    ensures ScaleWrites(TuneLog(d, n))
    decreases n
  {
    if n > 0 {
      TuneLogSpec(d, n - 1);
      TuneOneWrite(d[n]);
      ScaleWritesConcat(TuneLog(d, n - 1), Tune(d[n]).1);
    }
  }

  /** `AutoTune` of one port makes at most one write, to the port's own scale attribute. */
  lemma TuneOneWrite(q: Port)
    requires SettingsOk(q)
    ensures |Tune(q).1| <= 1
    ensures forall i :: 0 <= i < |Tune(q).1| ==> Tune(q).1[i].Write? && Tune(q).1[i].file == ScaleFile(q)
    ensures ScaleWrites(Tune(q).1)
  {
  }

  /** The tune loop writes only attributes that exist, and leaves every record sound. */
  lemma TuneKeeps(files: map<File, string>, d: map<int, Port>, n: int)
    requires AllOk(files, d) && Numbered(d, n)
    ensures Tunable(d, n)
    ensures Apply(files, TuneLog(d, n)).Keys == files.Keys
    ensures AllOk(Apply(files, TuneLog(d, n)), TuneAll(d, n))
  {
    assert Tunable(d, n) by {
      forall p | 1 <= p <= n
        ensures p in d && SettingsOk(d[p])
      {
        assert RecordOk(files, d[p]);
      }
    }
    TuneWrites(files, d, n);
    ApplyKeys(files, TuneLog(d, n));
    var t := TuneAll(d, n);
    TuneAllSpec(d, n);
    forall p | p in t
      ensures RecordOk(files, t[p])
    {
      assert RecordOk(files, d[p]);
      if 1 <= p <= n {
        TuneSpec(d[p]);
      }
    }
    AllOkKeys(files, Apply(files, TuneLog(d, n)), t);
  }

  lemma WritesExistingConcat(files: map<File, string>, a: seq<Io>, b: seq<Io>)
    requires WritesExisting(files, a) && WritesExisting(files, b)
    ensures WritesExisting(files, a + b)
  {
    forall i | 0 <= i < |a + b| && (a + b)[i].Write?
      ensures (a + b)[i].file in files
    {
      if i < |a| {
        assert (a + b)[i] == a[i];
      } else {
        assert (a + b)[i] == b[i - |a|];
      }
    }
  }

  /** The tune loop writes the scale attributes of ports whose records exist. */
  lemma {:induction false} TuneWrites(files: map<File, string>, d: map<int, Port>, n: int)
    requires AllOk(files, d) && Tunable(d, n)
    ensures WritesExisting(files, TuneLog(d, n))
    decreases n
  {
    if n > 0 {
      TuneWrites(files, d, n - 1);
      assert RecordOk(files, d[n]);
      TuneWritesOne(files, d[n]);
      WritesExistingConcat(files, TuneLog(d, n - 1), Tune(d[n]).1);
    }
  }

  /** `AutoTune` of one port writes, if anything, the port's own scale attribute. */
  lemma TuneWritesOne(files: map<File, string>, q: Port)
    requires RecordOk(files, q)
    ensures WritesExisting(files, Tune(q).1)
    ensures forall i :: 0 <= i < |Tune(q).1| ==> Tune(q).1[i].file == ScaleFile(q)
  {
  }

  /**
   * One pass of the main loop over ports 1..n: every port read, then every
   * port shown, then every port tuned. The records, the files and the log of
   * the pass.
   */
  ghost function CycleRun(files: map<File, string>, d: map<int, Port>, n: int): (r: (map<int, Port>, map<File, string>, seq<Io>))
    requires AllOk(files, d) && Numbered(d, n)
    ensures AllOk(r.1, r.0) && r.0.Keys == d.Keys && r.1.Keys == files.Keys
    ensures forall p :: p in d ==> SameSetup(r.0[p], d[p])
  {
    ReadAllSpec(files, d, n);
    var d1 := ReadAll(files, d, n);
    TuneKeeps(files, d1, n);
    TuneAllSpec(d1, n);
    (TuneAll(d1, n), Apply(files, TuneLog(d1, n)), ReadLog(d, n) + ShowLog(d1, n) + TuneLog(d1, n))
  }

  /** `k` passes of the main loop. */
  ghost function PollRun(files: map<File, string>, d: map<int, Port>, n: int, k: nat): (r: (map<int, Port>, map<File, string>, seq<Io>))
    requires AllOk(files, d) && Numbered(d, n)
    ensures AllOk(r.1, r.0) && r.0.Keys == d.Keys && r.1.Keys == files.Keys
    ensures forall p :: p in d ==> SameSetup(r.0[p], d[p])
    decreases k
  {
    if k == 0 then (d, files, [])
    else
      var c := CycleRun(files, d, n);
      var r := PollRun(c.1, c.0, n, k - 1);
      (r.0, r.1, c.2 + r.2)
  }

  /** In `a + b + c`, every element of `a` comes before any of `b`, and every element of `b` before any of `c`. */
  lemma LogOrder(a: seq<Io>, b: seq<Io>, c: seq<Io>)
    requires forall i :: 0 <= i < |a| ==> a[i].Read?
    requires forall i :: 0 <= i < |b| ==> b[i].Show?
    requires forall i :: 0 <= i < |c| ==> c[i].Write?
    ensures var log := a + b + c;
      && (forall i, j :: 0 <= i < |log| && 0 <= j < |log| && log[i].Read? && !log[j].Read? ==> i < j)
      && (forall i, j :: 0 <= i < |log| && 0 <= j < |log| && log[i].Show? && log[j].Write? ==> i < j)
  {
    var log := a + b + c;
    forall i | 0 <= i < |log|
      ensures log[i].Read? <==> i < |a|
      ensures log[i].Show? <==> |a| <= i < |a| + |b|
    {
      if i < |a| {
        assert log[i] == a[i];
      } else if i < |a| + |b| {
        assert log[i] == b[i - |a|];
      } else {
        assert log[i] == c[i - |a| - |b|];
      }
    }
  }

  /** Records that are sound have table settings. */
  lemma AllOkTunable(files: map<File, string>, d: map<int, Port>, n: int)
    requires AllOk(files, d) && Numbered(d, n)
    ensures Tunable(d, n)
  {
    forall p | 1 <= p <= n
      ensures p in d && SettingsOk(d[p])
    {
      assert RecordOk(files, d[p]);
    }
  }

  /** The log of a pass is the reads, then the reports of the records just read, then the writes of their tuning. */
  lemma CycleLog(files: map<File, string>, d: map<int, Port>, n: int)
    requires AllOk(files, d) && Numbered(d, n)
    ensures Numbered(ReadAll(files, d, n), n) && Tunable(ReadAll(files, d, n), n)
    ensures CycleRun(files, d, n).2 == ReadLog(d, n) + ShowLog(ReadAll(files, d, n), n) + TuneLog(ReadAll(files, d, n), n)
  {
    ReadAllSpec(files, d, n);
    AllOkTunable(files, ReadAll(files, d, n), n);
  }

  /** In the log of a pass, the reads of every port come before any port is shown, and every write after the last report. */
  lemma CycleOrder(files: map<File, string>, d: map<int, Port>, n: int)
    requires AllOk(files, d) && Numbered(d, n)
    ensures var log := CycleRun(files, d, n).2;
      && (forall i, j :: 0 <= i < |log| && 0 <= j < |log| && log[i].Read? && !log[j].Read? ==> i < j)
      && (forall i, j :: 0 <= i < |log| && 0 <= j < |log| && log[i].Show? && log[j].Write? ==> i < j)
  {
    CycleLog(files, d, n);
    var d1 := ReadAll(files, d, n);
    var a, b, c := ReadLog(d, n), ShowLog(d1, n), TuneLog(d1, n);
    ReadLogSpec(d, n);
    ShowLogSpec(d1, n);
    TuneLogSpec(d1, n);
    LogOrder(a, b, c);
  }

  /** The first two parts of `a + b + c`, cut out again. */
  lemma ConcatParts<T>(a: seq<T>, b: seq<T>, c: seq<T>)
    ensures (a + b + c)[..|a|] == a && (a + b + c)[|a|..|a| + |b|] == b
  {
    assert (a + b + c)[..|a|] == a;
    assert (a + b + c)[|a|..|a| + |b|] == b;
  }

  /** A pass starts with the reads of ports 1..n and goes on with the reports of ports 1..n. */
  lemma CycleParts(files: map<File, string>, d: map<int, Port>, n: int)
    requires AllOk(files, d) && Numbered(d, n) && n >= 1
    ensures var log := CycleRun(files, d, n).2;
      |log| >= 3 * n && log[..2 * n] == ReadLog(d, n) && log[2 * n..3 * n] == ShowLog(ReadAll(files, d, n), n)
  {
    CycleLog(files, d, n);
    var d1 := ReadAll(files, d, n);
    var a, b, c := ReadLog(d, n), ShowLog(d1, n), TuneLog(d1, n);
    ReadLogSpec(d, n);
    ShowLogSpec(d1, n);
    ConcatParts(a, b, c);
  }

  /**
   * The loops of `setup`: for chip entries addr = 1, 2, ... while
   * addr < maxPort/4 + 1, and channels 0..3, port (addr-1)*4 + ch + 1 gets
   * the record built from the chip's attributes, read in order.
   */
  method SetupLoops(maxPort: int, addresses: map<int, string>, files: map<File, string>,
                    d0: map<int, Port>, log0: seq<Io>) returns (d: map<int, Port>, log: seq<Io>)
    requires AllOk(files, d0) && PortsPresent(files, addresses, 4 * ChipCount(maxPort))
    ensures AllOk(files, d) && Built(files, addresses, d0, d, 4 * ChipCount(maxPort) + 1)
    ensures log == log0 + SetupLog(addresses, 4 * ChipCount(maxPort))
  {
    var last := 4 * ChipCount(maxPort);
    ghost var want := map p | 1 <= p <= last :: PortRecord(files, addresses, p);
    assert Wanted(files, addresses, want, last);
    d, log := SetupChips(maxPort, addresses, files, d0, log0, want);
    OverlayBuilt(files, addresses, d0, d, want, last);
  }

  /** After ports 1..n: their records are in `d` as wanted, and their reads follow `log0`. */
  ghost predicate SetupDone(files: map<File, string>, addresses: map<int, string>, want: map<int, Port>,
                            d0: map<int, Port>, log0: seq<Io>, d: map<int, Port>, log: seq<Io>, n: int) {
    && Addressed(addresses, n)
    && AllOk(files, d) && Overlay(d0, d, want, n + 1)
    && log == log0 + SetupLog(addresses, n)
  }

  /** The outer loop of `setup`, over chip entries, with the records it is to build. */
  method SetupChips(maxPort: int, addresses: map<int, string>, files: map<File, string>,
                    d0: map<int, Port>, log0: seq<Io>, ghost want: map<int, Port>) returns (d: map<int, Port>, log: seq<Io>)
    requires AllOk(files, d0) && PortsPresent(files, addresses, 4 * ChipCount(maxPort))
    requires Wanted(files, addresses, want, 4 * ChipCount(maxPort))
    ensures SetupDone(files, addresses, want, d0, log0, d, log, 4 * ChipCount(maxPort))
  {
    var last := 4 * ChipCount(maxPort);
    d := d0;
    log := log0;
    var port := 1;
    var addr := 1;
    ChipBound(maxPort, 1);
    assert SetupDone(files, addresses, want, d0, log0, d, log, 0);
    while (addr as real) < (maxPort as real) / 4.0 + 1.0
      invariant 1 <= addr <= ChipCount(maxPort) + 1 && port == 4 * (addr - 1) + 1
      invariant SysfsSlot(port) == (addr, 0)
      invariant SetupDone(files, addresses, want, d0, log0, d, log, port - 1)
      decreases ChipCount(maxPort) + 1 - addr
    {
      ChipBound(maxPort, addr);
      d, log := SetupChannels(addresses, files, addr, port, last, d, log, d0, log0, want);
      port := port + 4;
      addr := addr + 1;
    }
    ChipBound(maxPort, addr);
    assert port == last + 1;
  }

  /** The inner loop of `setup`: channels 0..3 of chip entry `addr`, which are ports `first` to `first + 3`. */
  method SetupChannels(addresses: map<int, string>, files: map<File, string>, addr: int, first: int, last: int,
                       d1: map<int, Port>, log1: seq<Io>,
                       ghost d0: map<int, Port>, ghost log0: seq<Io>, ghost want: map<int, Port>)
    returns (d: map<int, Port>, log: seq<Io>)
    requires first >= 1 && SysfsSlot(first) == (addr, 0) && first + 3 <= last
    requires PortsPresent(files, addresses, last) && Wanted(files, addresses, want, last)
    requires SetupDone(files, addresses, want, d0, log0, d1, log1, first - 1)
    ensures SysfsSlot(first + 4) == (addr + 1, 0)
    ensures SetupDone(files, addresses, want, d0, log0, d, log, first + 3)
  {
    d, log := d1, log1;
    var port := first;
    var ch := 0;
    while ch < 4
      invariant 0 <= ch <= 4 && port == first + ch
      invariant SysfsSlot(port) == if ch < 4 then (addr, ch) else (addr + 1, 0)
      invariant SetupDone(files, addresses, want, d0, log0, d, log, port - 1)
    {
      d, log := SetupPort(addresses, files, addr, ch, port, last, d, log, d0, log0, want);
      port := port + 1;
      ch := ch + 1;
    }
    assert ch == 4;
  }

  /** One turn of the inner loop: port `port`'s record is built and its reads are logged. */
  method SetupPort(addresses: map<int, string>, files: map<File, string>, addr: int, ch: int, port: int, ghost last: int,
                   d1: map<int, Port>, log1: seq<Io>,
                   ghost d0: map<int, Port>, ghost log0: seq<Io>, ghost want: map<int, Port>)
    returns (d: map<int, Port>, log: seq<Io>)
    requires 1 <= port <= last && SysfsSlot(port) == (addr, ch)
    requires PortsPresent(files, addresses, last) && Wanted(files, addresses, want, last)
    requires SetupDone(files, addresses, want, d0, log0, d1, log1, port - 1)
    ensures SetupDone(files, addresses, want, d0, log0, d, log, port)
  {
    var q, got := ReadPort(files, addresses, port, addr, ch, last, want);
    OverlayStep(files, d0, d1, want, port, q);
    LogStep(addresses, log0, port, last);
    d := d1[port := q];
    log := log1 + got;
  }

  /**
   * The body of `setup`'s inner loop for port `port`, channel `ch` of chip
   * entry `addr`: the five attributes read in order, the raw value before
   * the scale, and the record built from their texts.
   */
  method ReadPort(files: map<File, string>, addresses: map<int, string>, port: int, addr: int, ch: int,
                  ghost last: int, ghost want: map<int, Port>) returns (q: Port, got: seq<Io>)
    requires 1 <= port <= last && SysfsSlot(port) == (addr, ch)
    requires PortsPresent(files, addresses, last) && Wanted(files, addresses, want, last)
    ensures port in want && q == want[port] && RecordOk(files, q)
    ensures got == SetupReads(addresses[addr], ch)
  {
    assert PortFiles(files, addresses, port);
    var chip := addresses[addr];
    var optText := files[File(chip, SampleOpt)];
    var speedText := files[File(chip, SampleSpeed)];
    var rawText := files[File(chip, Raw(ch))];
    var scaleOptText := files[File(chip, ScaleOpt)];
    var scaleText := files[File(chip, Scale(ch))];
    got := SetupReads(chip, ch);
    q := Record(chip, ch, optText, speedText, rawText, scaleOptText, scaleText);
    assert q == PortRecord(files, addresses, port);
  }

  /**
   * The comparisons of `AutoTune` for a numeric resolution, gain and raw
   * value: the 5% margin of 2^bits, the threshold below 2^(bits-1), a notch
   * down past it, a notch up within half of it.
   */
  method AutoTuneGain(pga: int, rawval: int, bits: int) returns (gain: int)
    requires bits >= 1
    ensures gain == Step(pga, rawval, bits, SysfsMargin)
    ensures LegalGain(pga) ==> LegalGain(gain) && gain in {pga / 2, pga, 2 * pga}
    ensures gain != pga <==> Decide(pga, rawval, bits, SysfsMargin) != Hold
  {
    var margin := Pow2(bits) as real * 0.05;
    var upper := Pow2(bits - 1) as real - margin;
    var lower := -upper;
    var raw := rawval as real;
    assert upper == Upper(bits, SysfsMargin);
    gain := pga;
    if pga > 1 && (raw > upper || raw < lower) {
      assert Decide(pga, rawval, bits, SysfsMargin) == Down;
      if pga == 8 {
        gain := 4;
      } else if pga == 4 {
        gain := 2;
      } else {
        gain := 1;
      }
    } else if pga < 8 && (raw < upper / 2.0 && raw > lower / 2.0) {
      assert Decide(pga, rawval, bits, SysfsMargin) == Up;
      if pga == 1 {
        gain := 2;
      } else if pga == 2 {
        gain := 4;
      } else {
        gain := 8;
      }
    } else {
      assert Decide(pga, rawval, bits, SysfsMargin) == Hold;
    }
    if LegalGain(pga) {
      StepOneNotch(pga, rawval, bits, SysfsMargin);
    }
  }

  /**
   * The gain `AutoTune` leaves in a record: the comparisons when the
   * resolution, the gain and the raw value are numbers; otherwise every
   * comparison is false and the gain holds.
   */
  method AutoTunePga(q: Port) returns (gain: Setting)
    requires SettingsOk(q)
    ensures gain == TunedPga(q)
  {
    var raw := JsNumber(q.rawval);
    gain := q.pga;
    if q.bits.Known? && q.pga.Known? && raw.Some? {
      var g := AutoTuneGain(q.pga.value, raw.value, q.bits.value);
      gain := Known(g);
    }
  }

  /** `GetVal` on a record, as `GotVal` describes it: the raw value, then the scale, read from the port's attributes. */
  method ReadOne(files: map<File, string>, q: Port) returns (q': Port, got: seq<Io>)
    requires RecordOk(files, q)
    ensures q' == GotVal(q, files) && got == [Read(RawFile(q)), Read(ScaleFile(q))]
  {
    var rawText := files[RawFile(q)];
    var scaleText := files[ScaleFile(q)];
    q' := q.(rawval := Chomp(rawText), scale := Str(Chomp(scaleText)));
    got := [Read(RawFile(q)), Read(ScaleFile(q))];
  }

  /** `setPGA` on a record: the new scale and the write, as `PgaWrite` describes them. */
  method PgaOne(q: Port) returns (q': Port, w: seq<Io>)
    ensures (q', w) == PgaWrite(q)
  {
    match OptionFor(q.pga, q.scaleopt, PgaTable)
    case None =>
      q', w := q.(scale := Str("undef")), [];
    case Some(v) =>
      q', w := q.(scale := v), [Write(ScaleFile(q), TextOf(v))];
  }

  /** `setBits` on a record: the new sampling speed and the write, as `BitsWrite` describes them. */
  method BitsOne(q: Port) returns (q': Port, w: seq<Io>)
    ensures (q', w) == BitsWrite(q)
  {
    match OptionFor(q.bits, q.sampleopt, BitsTable)
    case None =>
      q', w := q.(sps := Str("undef")), [];
    case Some(v) =>
      q', w := q.(sps := v), [Write(SpeedFile(q), TextOf(v))];
  }

  /** `AutoTune` on a record, as `Tune` describes it: the gain it picks, and `setPGA` when the gain moved. */
  method TuneOne(q: Port) returns (q': Port, w: seq<Io>)
    requires SettingsOk(q)
    ensures (q', w) == Tune(q)
  {
    var gain := AutoTunePga(q);
    if gain != q.pga {
      q', w := PgaOne(q.(pga := gain));
    } else {
      q', w := q, [];
    }
  }

  /** The writes of `log`, at most one, made to `files`. */
  method WriteAll(files: map<File, string>, log: seq<Io>) returns (files': map<File, string>)
    requires |log| <= 1
    ensures files' == Apply(files, log)
  {
    files' := files;
    if log != [] && log[0].Write? {
      files' := files[log[0].file := log[0].text];
      ApplyWrite(files, log[0].file, log[0].text);
    } else if log != [] {
      assert log[1..] == [];
    }
  }

  /** One turn of the read loop: `GetVal` for the port after ports 1..done. */
  method ReadNext(files: map<File, string>, d0: map<int, Port>, done: int, d: map<int, Port>, log: seq<Io>)
    returns (d': map<int, Port>, log': seq<Io>)
    requires done >= 0 && AllOk(files, d0) && Numbered(d0, done + 1)
    requires d == ReadAll(files, d0, done) && log == ReadLog(d0, done)
    ensures d' == ReadAll(files, d0, done + 1) && log' == ReadLog(d0, done + 1)
  {
    var port := done + 1;
    ReadAllNext(files, d0, port);
    assert RecordOk(files, d0[port]);
    var q, got := ReadOne(files, d[port]);
    d' := d[port := q];
    log' := log + got;
  }

  /** The read loop of a pass: `GetVal` for ports 1..maxPort. */
  method ReadLoop(maxPort: int, files: map<File, string>, d0: map<int, Port>, io0: seq<Io>)
    returns (d: map<int, Port>, io: seq<Io>)
    requires maxPort >= 1 && AllOk(files, d0) && Numbered(d0, maxPort)
    ensures d == ReadAll(files, d0, maxPort) && io == io0 + ReadLog(d0, maxPort)
  {
    d := d0;
    var log := [];
    var done := 0;
    while done < maxPort
      invariant 0 <= done <= maxPort
      invariant d == ReadAll(files, d0, done) && log == ReadLog(d0, done)
    {
      d, log := ReadNext(files, d0, done, d, log);
      done := done + 1;
    }
    assert done == maxPort;
    assert d == ReadAll(files, d0, maxPort) && log == ReadLog(d0, maxPort);
    io := io0 + log;
  }

  /** The show loop of a pass: `showVal` for ports 1..maxPort. */
  method ShowLoop(maxPort: int, d: map<int, Port>, io0: seq<Io>) returns (io: seq<Io>)
    requires maxPort >= 1 && Numbered(d, maxPort)
    ensures io == io0 + ShowLog(d, maxPort)
  {
    var log := [];
    var done := 0;
    while done < maxPort
      invariant 0 <= done <= maxPort
      invariant log == ShowLog(d, done)
    {
      var port := done + 1;
      log := log + [Show(port, d[port].rawval, d[port].scale, d[port].pga)];
      done := port;
    }
    assert done == maxPort;
    assert log == ShowLog(d, maxPort);
    io := io0 + log;
  }

  /** The tune loop after `n` ports: the records, the attributes and the writes so far. */
  ghost predicate TuneDone(files0: map<File, string>, d0: map<int, Port>, n: int,
                           d: map<int, Port>, files: map<File, string>, log: seq<Io>) {
    n >= 0 && Tunable(d0, n) && d == TuneAll(d0, n) && log == TuneLog(d0, n) && files == Apply(files0, log)
  }

  /** One turn of the tune loop: `AutoTune` for the port after ports 1..done. */
  method TuneNext(files0: map<File, string>, d0: map<int, Port>, done: int,
                  d: map<int, Port>, files: map<File, string>, log: seq<Io>)
    returns (d': map<int, Port>, files': map<File, string>, log': seq<Io>)
    requires Tunable(d0, done + 1) && TuneDone(files0, d0, done, d, files, log)
    ensures TuneDone(files0, d0, done + 1, d', files', log')
  {
    var port := done + 1;
    TuneAllNext(d0, port);
    var q, w := TuneOne(d[port]);
    ApplyConcat(files0, log, w);
    d' := d[port := q];
    files' := WriteAll(files, w);
    log' := log + w;
  }

  /** The tune loop of a pass: `AutoTune` for ports 1..maxPort. */
  method TuneLoop(maxPort: int, files0: map<File, string>, d0: map<int, Port>, io0: seq<Io>)
    returns (d: map<int, Port>, files: map<File, string>, io: seq<Io>)
    requires maxPort >= 1 && Tunable(d0, maxPort)
    ensures d == TuneAll(d0, maxPort) && files == Apply(files0, TuneLog(d0, maxPort))
    ensures io == io0 + TuneLog(d0, maxPort)
  {
    d, files := d0, files0;
    var log := [];
    var done := 0;
    assert TuneDone(files0, d0, 0, d, files, log);
    while done < maxPort
      invariant done <= maxPort && TuneDone(files0, d0, done, d, files, log)
    {
      d, files, log := TuneNext(files0, d0, done, d, files, log);
      done := done + 1;
    }
    assert done == maxPort;
    assert d == TuneAll(d0, maxPort) && log == TuneLog(d0, maxPort);
    io := io0 + log;
  }

  /** One pass of the main loop: read every port, then show every port, then tune every port. */
  method CycleStep(maxPort: int, files0: map<File, string>, d0: map<int, Port>, io0: seq<Io>)
    returns (d: map<int, Port>, files: map<File, string>, io: seq<Io>)
    requires maxPort >= 1 && AllOk(files0, d0) && Numbered(d0, maxPort)
    ensures var r := CycleRun(files0, d0, maxPort); d == r.0 && files == r.1 && io == io0 + r.2
  {
    ReadAllSpec(files0, d0, maxPort);
    var d1, io1 := ReadLoop(maxPort, files0, d0, io0);
    var io2 := ShowLoop(maxPort, d1, io1);
    AllOkTunable(files0, d1, maxPort);
    d, files, io := TuneLoop(maxPort, files0, d1, io2);
    AppendAssoc(io0, ReadLog(d0, maxPort), ShowLog(d1, maxPort));
    AppendAssoc(io0, ReadLog(d0, maxPort) + ShowLog(d1, maxPort), TuneLog(d1, maxPort));
  }

  /** The main loop: `cycles` passes, counting down as the script does. */
  method PollLoop(cycles: nat, maxPort: int, files0: map<File, string>, d0: map<int, Port>, io0: seq<Io>)
    returns (d: map<int, Port>, files: map<File, string>, io: seq<Io>)
    requires maxPort >= 1 && AllOk(files0, d0) && Numbered(d0, maxPort)
    ensures var r := PollRun(files0, d0, maxPort, cycles); d == r.0 && files == r.1 && io == io0 + r.2
  {
    d, files, io := d0, files0, io0;
    var i: nat := cycles;
    ghost var all := PollRun(files0, d0, maxPort, cycles);
    while i > 0
      invariant AllOk(files, d) && Numbered(d, maxPort)
      invariant var r := PollRun(files, d, maxPort, i); all.0 == r.0 && all.1 == r.1 && io0 + all.2 == io + r.2
    {
      ghost var c := CycleRun(files, d, maxPort);
      ghost var rest := PollRun(c.1, c.0, maxPort, i - 1);
      assert PollRun(files, d, maxPort, i) == (rest.0, rest.1, c.2 + rest.2);
      ghost var before := io;
      d, files, io := CycleStep(maxPort, files, d, io);
      AppendAssoc(before, c.2, rest.2);
      i := i - 1;
    }
  }

  /**
   * `port_data[1]['bits'] = 18` and `setBits(1)`, right after `setup`: the
   * new record of port 1 and the attributes after its write.
   */
  method Reset18(files0: map<File, string>, addresses: map<int, string>, n: int, d1: map<int, Port>)
    returns (q: Port, files: map<File, string>, w: seq<Io>)
    requires AllOk(files0, d1) && PortsPresent(files0, addresses, n) && n >= 1
    requires 1 in d1
    ensures (q, w) == BitsWrite(d1[1].(bits := Known(18)))
    ensures files == Apply(files0, w) && AllOk(files, d1[1 := q]) && PortsPresent(files, addresses, n)
  {
    var q1 := d1[1].(bits := Known(18));
    TablesLegal();
    q, w := BitsOne(q1);
    AllOkSet(files0, d1, 1, q);
    ApplyKeys(files0, w);
    files := WriteAll(files0, w);
    AllOkKeys(files0, files, d1[1 := q]);
    PortsPresentKeys(files0, files, addresses, n);
  }

  /** The branch of the main part's start taken when `setup` found port 1 not at 18 bits: reset, then `setup` again. */
  method Rescan(maxPort: int, addresses: map<int, string>, files0: map<File, string>,
                ghost d0: map<int, Port>, d1: map<int, Port>, io1: seq<Io>, ghost io0: seq<Io>)
    returns (d: map<int, Port>, files: map<File, string>, io: seq<Io>)
    requires maxPort >= 1 && AllOk(files0, d1) && PortsPresent(files0, addresses, 4 * ChipCount(maxPort))
    requires Built(files0, addresses, d0, d1, 4 * ChipCount(maxPort) + 1)
    requires io1 == io0 + SetupLog(addresses, 4 * ChipCount(maxPort))
    ensures AllOk(files, d) && PortsPresent(files, addresses, 4 * ChipCount(maxPort))
    ensures Built(files, addresses, d0, d, 4 * ChipCount(maxPort) + 1)
    ensures 1 in d1
    ensures var scan, w := SetupLog(addresses, 4 * ChipCount(maxPort)), BitsWrite(d1[1].(bits := Known(18))).1;
      files == Apply(files0, w) && io == io0 + (scan + w + scan)
  {
    var last := 4 * ChipCount(maxPort);
    assert 1 in d1;
    var q, w;
    q, files, w := Reset18(files0, addresses, last, d1);
    d, io := SetupAgain(maxPort, addresses, files0, files, d0, d1, q, io1 + w);
    StartLogJoin(io0, SetupLog(addresses, last), w, io);
  }

  /** The second `setup` of the main part's start, over the records of the first with port 1 replaced. */
  method SetupAgain(maxPort: int, addresses: map<int, string>, ghost files0: map<File, string>, files: map<File, string>,
                    ghost d0: map<int, Port>, d1: map<int, Port>, q: Port, io1: seq<Io>)
    returns (d: map<int, Port>, io: seq<Io>)
    requires maxPort >= 1 && AllOk(files, d1[1 := q]) && PortsPresent(files, addresses, 4 * ChipCount(maxPort))
    requires Built(files0, addresses, d0, d1, 4 * ChipCount(maxPort) + 1)
    ensures AllOk(files, d) && Built(files, addresses, d0, d, 4 * ChipCount(maxPort) + 1)
    ensures io == io1 + SetupLog(addresses, 4 * ChipCount(maxPort))
  {
    d, io := SetupLoops(maxPort, addresses, files, d1[1 := q], io1);
    BuiltAgain(files0, files, addresses, d0, d1, q, d, 4 * ChipCount(maxPort) + 1);
  }

  /**
   * The main part's start: `setup`, and when port 1 is not at 18 bits the
   * reset and `setup` again.
   */
  method Start(maxPort: int, addresses: map<int, string>, files0: map<File, string>, d0: map<int, Port>, io0: seq<Io>)
    returns (d: map<int, Port>, files: map<File, string>, io: seq<Io>)
    requires maxPort >= 1 && AllOk(files0, d0) && PortsPresent(files0, addresses, 4 * ChipCount(maxPort))
    ensures PortFiles(files0, addresses, 1) && Addressed(addresses, 4 * ChipCount(maxPort))
    ensures AllOk(files, d) && PortsPresent(files, addresses, 4 * ChipCount(maxPort))
    ensures Built(files, addresses, d0, d, 4 * ChipCount(maxPort) + 1)
    ensures files == StartFiles(files0, addresses)
    ensures io == io0 + StartLog(files0, addresses, 4 * ChipCount(maxPort))
  {
    var d1, io1 := SetupLoops(maxPort, addresses, files0, d0, io0);
    d, files, io := CheckPort1(maxPort, addresses, files0, d0, d1, io1, io0);
  }

  /** After the first `setup`: keep the scan when port 1 is at 18 bits, otherwise reset it and scan again. */
  method CheckPort1(maxPort: int, addresses: map<int, string>, files0: map<File, string>,
                    ghost d0: map<int, Port>, d1: map<int, Port>, io1: seq<Io>, ghost io0: seq<Io>)
    returns (d: map<int, Port>, files: map<File, string>, io: seq<Io>)
    requires maxPort >= 1 && AllOk(files0, d1) && PortsPresent(files0, addresses, 4 * ChipCount(maxPort))
    requires Built(files0, addresses, d0, d1, 4 * ChipCount(maxPort) + 1)
    requires io1 == io0 + SetupLog(addresses, 4 * ChipCount(maxPort))
    ensures PortFiles(files0, addresses, 1) && Addressed(addresses, 4 * ChipCount(maxPort))
    ensures AllOk(files, d) && PortsPresent(files, addresses, 4 * ChipCount(maxPort))
    ensures Built(files, addresses, d0, d, 4 * ChipCount(maxPort) + 1)
    ensures files == StartFiles(files0, addresses)
    ensures io == io0 + StartLog(files0, addresses, 4 * ChipCount(maxPort))
  {
    assert PortFiles(files0, addresses, 1) && d1[1] == PortRecord(files0, addresses, 1);
    if d1[1].bits != Known(18) {
      d, files, io := Rescan(maxPort, addresses, files0, d0, d1, io1, io0);
    } else {
      d, files, io := d1, files0, io1;
    }
  }

  class Monitor {
    /** The ports polled; 8 in the script. */
    const maxPort: int
    /** The address text of chip entries 1, 2, ...; "68", "69", "6a", ... in the script. */
    const addresses: map<int, string>
    /** `port_data`. */
    var portData: map<int, Port>
    /** The driver's attributes, by file. */
    var files: map<File, string>
    /** Every read, write and console report, in order. */
    var io: seq<Io>

    ghost predicate Valid()
      reads this
    {
      maxPort >= 1 && AllOk(files, portData)
    }

    constructor (ports: int, chips: map<int, string>, attributes: map<File, string>)
      requires ports >= 1
      ensures Valid() && maxPort == ports && addresses == chips && files == attributes
      ensures portData == map[] && io == []
    {
      maxPort := ports;
      addresses := chips;
      files := attributes;
      portData := map[];
      io := [];
    }

    /** `fs.readFileSync`: the attribute's text. */
    method ReadFile(f: File) returns (text: string)
      requires f in files
      modifies this
      ensures files == old(files) && portData == old(portData)
      ensures text == files[f] && io == old(io) + [Read(f)]
    {
      text := files[f];
      io := io + [Read(f)];
    }

    /** `fs.writeFileSync`: the attribute now holds `text`. */
    method WriteFile(f: File, text: string)
      requires f in files
      modifies this
      ensures files == old(files)[f := text] && io == old(io) + [Write(f, text)]
      ensures portData == old(portData)
    {
      files := files[f := text];
      io := io + [Write(f, text)];
    }

    /**
     * `setup`: for chip entries addr = 1, 2, ... while addr < maxPort/4 + 1,
     * and channels 0..3, read port (addr-1)*4 + ch + 1 from the chip's attributes.
     */
    method Setup()
      requires Valid() && PortsPresent(files, addresses, 4 * ChipCount(maxPort))
      modifies this
      ensures Valid() && files == old(files)
      ensures Built(files, addresses, old(portData), portData, 4 * ChipCount(maxPort) + 1)
      ensures io == old(io) + SetupLog(addresses, 4 * ChipCount(maxPort))
    {
      portData, io := SetupLoops(maxPort, addresses, files, portData, io);
    }

    /** `GetVal`: the port's raw value, then its scale, read again. */
    method GetVal(port: int)
      requires Valid() && port in portData
      modifies this
      ensures Valid() && files == old(files)
      ensures portData == old(portData)[port := GotVal(old(portData)[port], files)]
      ensures io == old(io) + [Read(RawFile(old(portData)[port])), Read(ScaleFile(old(portData)[port]))]
    {
      var q := portData[port];
      assert RecordOk(files, q);
      GotValSpec(q, files);
      var rawText := ReadFile(RawFile(q));
      var scaleText := ReadFile(ScaleFile(q));
      portData := portData[port := q.(rawval := Chomp(rawText), scale := Str(Chomp(scaleText)))];
    }

    /** `showVal`: the port's raw value, scale and gain on the console. */
    method ShowVal(port: int)
      requires port in portData
      modifies this
      ensures portData == old(portData) && files == old(files)
      ensures io == old(io) + [Show(port, portData[port].rawval, portData[port].scale, portData[port].pga)]
    {
      var q := portData[port];
      io := io + [Show(port, q.rawval, q.scale, q.pga)];
    }

    /** Store a record and make its writes. */
    method Commit(port: int, q: Port, w: seq<Io>)
      requires Valid() && RecordOk(files, q) && |w| <= 1 && WritesExisting(files, w)
      modifies this
      ensures Valid()
      ensures portData == old(portData)[port := q] && files == Apply(old(files), w) && io == old(io) + w
      ensures files.Keys == old(files).Keys
    {
      AllOkSet(files, portData, port, q);
      portData := portData[port := q];
      ApplyKeys(files, w);
      AllOkKeys(files, Apply(files, w), portData);
      if w != [] && w[0].Write? {
        assert w == [Write(w[0].file, w[0].text)];
        ApplyWrite(files, w[0].file, w[0].text);
        WriteFile(w[0].file, w[0].text);
      } else {
        assert w != [] ==> w[1..] == [];
        io := io + w;
      }
    }

    /**
     * `setPGA`: the scale option at the gain's position, written to the
     * port's scale attribute; 'undef' and no write for a gain outside 1, 2, 4, 8.
     */
    method SetPga(port: int)
      requires Valid() && port in portData
      modifies this
      ensures Valid()
      ensures portData == old(portData)[port := PgaWrite(old(portData)[port]).0]
      ensures files == Apply(old(files), PgaWrite(old(portData)[port]).1)
      ensures io == old(io) + PgaWrite(old(portData)[port]).1
    {
      assert RecordOk(files, portData[port]);
      var q, w := PgaOne(portData[port]);
      Commit(port, q, w);
    }

    /**
     * `setBits`: the sampling option at the resolution's position, written to
     * the chip's sampling speed attribute; 'undef' and no write for a
     * resolution outside 12, 14, 16, 18.
     */
    method SetBits(port: int)
      requires Valid() && port in portData
      modifies this
      ensures Valid()
      ensures portData == old(portData)[port := BitsWrite(old(portData)[port]).0]
      ensures files == Apply(old(files), BitsWrite(old(portData)[port]).1)
      ensures io == old(io) + BitsWrite(old(portData)[port]).1
      ensures files.Keys == old(files).Keys
    {
      assert RecordOk(files, portData[port]);
      var q, w := BitsOne(portData[port]);
      Commit(port, q, w);
    }

    /**
     * `AutoTune` with the 5% margin: a notch down near either end of the
     * range, a notch up with room to spare, and `setPGA` after either.
     */
    method AutoTune(port: int)
      requires Valid() && port in portData
      modifies this
      ensures Valid()
      ensures portData == old(portData)[port := Tune(old(portData)[port]).0]
      ensures files == Apply(old(files), Tune(old(portData)[port]).1)
      ensures io == old(io) + Tune(old(portData)[port]).1
    {
      assert RecordOk(files, portData[port]);
      TuneSpec(portData[port]);
      TuneWritesOne(files, portData[port]);
      var q, w := TuneOne(portData[port]);
      Commit(port, q, w);
    }

    /** One pass of the main loop: read every port, then show every port, then tune every port. */
    method Cycle()
      requires Valid() && Numbered(portData, maxPort)
      modifies this
      ensures Valid() && Numbered(portData, maxPort)
      ensures var r := CycleRun(old(files), old(portData), maxPort);
        portData == r.0 && files == r.1 && io == old(io) + r.2
    {
      portData, files, io := CycleStep(maxPort, files, portData, io);
    }

    /** The main loop: `cycles` passes (15 in the script). */
    method Poll(cycles: nat)
      requires Valid() && Numbered(portData, maxPort)
      modifies this
      ensures Valid() && Numbered(portData, maxPort)
      ensures var r := PollRun(old(files), old(portData), maxPort, cycles);
        portData == r.0 && files == r.1 && io == old(io) + r.2
    {
      portData, files, io := PollLoop(cycles, maxPort, files, portData, io);
    }

    /**
     * The start of the main part: `setup`, and when port 1 is not at 18 bits,
     * port 1 set to 18 bits, `setBits(1)` and `setup` again. The pause for the
     * driver to take the new resolution is left out.
     */
    method Normalise()
      requires Valid() && PortsPresent(files, addresses, 4 * ChipCount(maxPort))
      modifies this
      ensures PortFiles(old(files), addresses, 1) && Addressed(addresses, 4 * ChipCount(maxPort))
      ensures Valid() && PortsPresent(files, addresses, 4 * ChipCount(maxPort))
      ensures Built(files, addresses, old(portData), portData, 4 * ChipCount(maxPort) + 1)
      ensures files == StartFiles(old(files), addresses)
      ensures io == old(io) + StartLog(old(files), addresses, 4 * ChipCount(maxPort))
    {
      ghost var d0 := portData;
      portData, files, io := Start(maxPort, addresses, files, portData, io);
      assert Built(files, addresses, d0, portData, 4 * ChipCount(maxPort) + 1);
    }

    /**
     * The main part: `Normalise`, then the polling passes (15 in the script)
     * from the state it leaves, given in the ghost results.
     */
    method Run(cycles: nat) returns (ghost d1: map<int, Port>, ghost files1: map<File, string>, ghost io1: seq<Io>)
      requires Valid() && PortsPresent(files, addresses, 4 * ChipCount(maxPort))
      modifies this
      ensures PortFiles(old(files), addresses, 1) && Addressed(addresses, 4 * ChipCount(maxPort))
      ensures Built(files1, addresses, old(portData), d1, 4 * ChipCount(maxPort) + 1)
      ensures AllOk(files1, d1) && Numbered(d1, maxPort)
      ensures files1 == StartFiles(old(files), addresses)
      ensures io1 == old(io) + StartLog(old(files), addresses, 4 * ChipCount(maxPort))
      ensures Valid() && Numbered(portData, maxPort)
      ensures var r := PollRun(files1, d1, maxPort, cycles);
        portData == r.0 && files == r.1 && io == io1 + r.2
    {
      Normalise();
      d1, files1, io1 := portData, files, io;
      assert Numbered(portData, maxPort);
      Poll(cycles);
    }
  }
}
