/**
 * The two command-line list parsers of the Python script: the chip-address
 * list (`-a`) and the port list (`-p`, items like "3" or "1-8"), together
 * with the subset of Python's `int(text, base)` they rely on.
 */
module CommandLine {
  import opened Wrappers
  import opened Text

  /** Why a list could not be parsed (Python's ValueError and TypeError). */
  datatype ParseError =
    | BadLiteral(text: string)     // int() refused the text
    | ZeroStep(part: string)       // range() with a step of zero
    | TooManyBounds(part: string)  // range() given more than three arguments

  /** The sign Python's int() accepts in front of the digits, and what follows it. */
  function SignSplit(s: string): (r: (bool, string))
    ensures r.1 == if |s| > 0 && (s[0] == '-' || s[0] == '+') then s[1..] else s
  {
    if |s| > 0 && s[0] == '-' then (true, s[1..])
    else if |s| > 0 && s[0] == '+' then (false, s[1..])
    else (false, s)
  }

  /** The base a `0x`, `0o` or `0b` prefix selects, or 0 when there is none. */
  function PrefixBase(s: string): (b: nat)
    ensures b in {0, 2, 8, 16}
    ensures b != 0 ==> |s| >= 2
  {
    if |s| >= 2 && s[0] == '0' then
      if s[1] == 'x' || s[1] == 'X' then 16
      else if s[1] == 'o' || s[1] == 'O' then 8
      else if s[1] == 'b' || s[1] == 'B' then 2
      else 0
    else 0
  }

  /** A non-empty run of digits of `base`, and its value. */
  function Unsigned(s: string, base: nat): (r: Option<nat>)
    ensures r.Some? <==> |s| > 0 && AllDigits(s, base)
  {
    if |s| > 0 && AllDigits(s, base) then Some(DigitsValue(s, base)) else None
  }

  predicate AllZeros(s: string) {
    forall i :: 0 <= i < |s| ==> s[i] == '0'
  }

  /**
   * Python's `int(s, base)` for base 0 or 2..36, without surrounding
   * whitespace and digit-group underscores. With an explicit base a matching
   * prefix may precede the digits; with base 0 the prefix picks the base, and
   * a decimal literal may not start with 0 unless it is all zeros.
   */
  function PyInt(s: string, base: nat): (r: Result<int, ParseError>)
    requires base == 0 || 2 <= base <= 36
    ensures r.Failure? ==> r.error == BadLiteral(s)
    ensures s == [] || s == "-" || s == "+" ==> r.Failure?
    ensures r.Success? && r.value < 0 ==> s[0] == '-'
  {
    var (negative, body) := SignSplit(s);
    var pb := PrefixBase(body);
    var magnitude :=
      if base == 0 then
        if pb != 0 then Unsigned(body[2..], pb)
        else if |body| > 0 && body[0] == '0' then (if AllZeros(body) then Some(0) else None)
        else Unsigned(body, 10)
      else if pb == base then Unsigned(body[2..], base)
      else Unsigned(body, base);
    match magnitude
    case None => Failure(BadLiteral(s))
    case Some(m) => Success(if negative then -(m as int) else m)
  }

  lemma NotDigitAnywhere(s: string, base: nat, c: char)
    requires AllDigits(s, base) && DigitValue(c).None?
    ensures c !in s
  {
    forall i | 0 <= i < |s| ensures s[i] != c {
      assert IsDigitIn(s[i], base);
    }
  }

  /** `int(str(n))` is `n`, and the text holds neither a separator nor a sign. */
  lemma DecimalRoundTrip(n: nat)
    ensures PyInt(DecimalString(n), 10) == Success(n)
    ensures ',' !in DecimalString(n) && '-' !in DecimalString(n) && '+' !in DecimalString(n)
  {
    var s := DecimalString(n);
    NatToDigitsRoundTrip(n, 10);
    NotDigitAnywhere(s, 10, ',');
    NotDigitAnywhere(s, 10, '-');
    NotDigitAnywhere(s, 10, '+');
    assert s[0] in s;
  }

  /** `int(hex(n), 16)` and `int(hex(n), 0)` are both `n`. */
  lemma HexRoundTrip(n: nat)
    ensures PyInt(HexString(n), 16) == Success(n)
    ensures PyInt(HexString(n), 0) == Success(n)
  {
    var s := HexString(n);
    NatToDigitsRoundTrip(n, 16);
    assert s[2..] == NatToDigits(n, 16);
    assert SignSplit(s).1 == s;
    assert PrefixBase(s) == 16;
  }

  /** A character `re.match('(?=.*[a-fA-F])', s)` looks for. */
  predicate IsHexLetter(c: char) {
    'a' <= c <= 'f' || 'A' <= c <= 'F'
  }

  /**
   * Whether the lookahead at the start of `s` succeeds: `.` does not cross a
   * newline, so only the first line is searched.
   */
  function HasHexLetter(s: string): (r: bool)
    ensures r <==> exists i :: 0 <= i < |s| && IsHexLetter(s[i]) && '\n' !in s[..i]
  {
    if s == [] || s[0] == '\n' then
      assert forall i :: 0 < i < |s| ==> s[0] in s[..i];
      false
    else if IsHexLetter(s[0]) then
      assert '\n' !in s[..0];
      true
    else
      var r := HasHexLetter(s[1..]);
      assert forall i :: 0 < i <= |s| ==> s[..i] == [s[0]] + s[1..][..i - 1];
      assert r ==> exists i :: 1 <= i < |s| && IsHexLetter(s[i]) && '\n' !in s[..i] by {
        if r {
          var j :| 0 <= j < |s[1..]| && IsHexLetter(s[1..][j]) && '\n' !in s[1..][..j];
          assert IsHexLetter(s[j + 1]) && '\n' !in s[..j + 1];
        }
      }
      r
  }

  /** The base every address is parsed with: 16 when a hex letter is present, else 0. */
  function AddressBase(text: string): (b: nat)
    ensures b == 16 <==> HasHexLetter(text)
    ensures b == 0 <==> !HasHexLetter(text)
  {
    if HasHexLetter(text) then 16 else 0
  }

  /**
   * The `-a` list: split on ',' and parse every entry with the one base the
   * whole text selects; the first entry int() refuses ends the parse.
   */
  method ParseAddresses(text: string) returns (r: Result<seq<int>, ParseError>)
    ensures r.Success? <==>
      forall i :: 0 <= i < |Split(text, ',')| ==> PyInt(Split(text, ',')[i], AddressBase(text)).Success?
    ensures r.Success? ==> (|r.value| == |Split(text, ',')| &&
      forall i :: 0 <= i < |r.value| ==> PyInt(Split(text, ',')[i], AddressBase(text)) == Success(r.value[i]))
    ensures r.Failure? ==>
      exists k :: 0 <= k < |Split(text, ',')| && PyInt(Split(text, ',')[k], AddressBase(text)) == Failure(r.error) &&
        forall i :: 0 <= i < k ==> PyInt(Split(text, ',')[i], AddressBase(text)).Success?
  {
    var hexflag := HasHexLetter(text);
    var parts := Split(text, ',');
    var addresses: seq<int> := [];
    var i := 0;
    while i < |parts|
      invariant 0 <= i <= |parts| && |addresses| == i
      invariant forall j :: 0 <= j < i ==> PyInt(parts[j], AddressBase(text)) == Success(addresses[j])
    {
      var a := if hexflag then PyInt(parts[i], 16) else PyInt(parts[i], 0);
      assert a == PyInt(parts[i], AddressBase(text));
      if a.Failure? {
        assert !PyInt(Split(text, ',')[i], AddressBase(text)).Success?;
        return Failure(a.error);
      }
      addresses := addresses + [a.value];
      i := i + 1;
    }
    return Success(addresses);
  }

  /** A two-digit entry with a non-zero leading digit, read by int() in `base`. */
  lemma TwoDigits(hi: char, lo: char, base: nat)
    requires base == 0 || base == 10 || base == 16
    requires IsDigitIn(hi, if base == 16 then 16 else 10) && IsDigitIn(lo, if base == 16 then 16 else 10)
    requires hi != '0'
    ensures PyInt([hi, lo], base) ==
      Success(DigitValue(hi).value * (if base == 16 then 16 else 10) + DigitValue(lo).value)
  {
    var s := [hi, lo];
    var b := if base == 16 then 16 else 10;
    assert SignSplit(s).1 == s;
    assert PrefixBase(s) == 0;
    assert AllDigits(s, b);
    assert s[..1] == [hi] && [hi][..0] == [];
    assert DigitsValue([hi], b) == DigitValue(hi).value;
    assert DigitsValue(s, b) == DigitsValue([hi], b) * b + DigitValue(lo).value;
  }

  /** Two entries without commas, joined by a comma, split back into the two. */
  lemma SplitTwo(x: string, y: string)
    requires ',' !in x && ',' !in y
    ensures Split(x + "," + y, ',') == [x, y]
  {
    SplitNoSeparator(y, ',');
    SplitPrefix(x, y, ',');
    assert x + "," + y == x + [','] + y;
  }

  /**
   * An example of the hex branch: with a hex letter in the text every entry
   * is hexadecimal, so "6e,6f" gives 0x6e and 0x6f. `ParseAddresses` states
   * this for every text.
   */
  lemma HexAddresses()
    ensures AddressBase("6e,6f") == 16
    ensures Split("6e,6f", ',') == ["6e", "6f"]
    ensures PyInt("6e", 16) == Success(0x6e) && PyInt("6f", 16) == Success(0x6f)
  {
    assert IsHexLetter("6e,6f"[1]) && '\n' !in "6e,6f"[..1];
    assert "6e,6f" == "6e" + "," + "6f";
    SplitTwo("6e", "6f");
    TwoDigits('6', 'e', 16);
    TwoDigits('6', 'f', 16);
  }

  /** "68,69" holds no hex letter. */
  lemma DecimalBase()
    ensures AddressBase("68,69") == 0
  {
    var s := "68,69";
    assert forall i :: 0 <= i < |s| ==> !IsHexLetter(s[i]);
  }

  /** Without a hex letter the same entries are decimal: "68,69" gives 68 and 69. */
  lemma DecimalAddresses()
    ensures AddressBase("68,69") == 0
    ensures Split("68,69", ',') == ["68", "69"]
    ensures PyInt("68", 0) == Success(68) && PyInt("69", 0) == Success(69)
  {
    DecimalBase();
    assert "68,69" == "68" + "," + "69";
    SplitTwo("68", "69");
    TwoDigits('6', '8', 0);
    TwoDigits('6', '9', 0);
  }

  /** Every entry parsed with `base`, in order; the first entry int() refuses ends the parse. */
  function ParseAll(pieces: seq<string>, base: nat): (r: Result<seq<int>, ParseError>)
    requires base == 0 || 2 <= base <= 36
    ensures r.Success? <==> forall i :: 0 <= i < |pieces| ==> PyInt(pieces[i], base).Success?
    ensures r.Success? ==> |r.value| == |pieces|
    ensures r.Success? ==> forall i :: 0 <= i < |pieces| ==> PyInt(pieces[i], base) == Success(r.value[i])
    decreases |pieces|
  {
    if pieces == [] then Success([])
    else
      var first := PyInt(pieces[0], base);
      var rest := ParseAll(pieces[1..], base);
      assert forall i :: 1 <= i < |pieces| ==> pieces[i] == pieces[1..][i - 1];
      if first.Failure? then Failure(first.error)
      else if rest.Failure? then Failure(rest.error)
      else Success([first.value] + rest.value)
  }

  /**
   * The `-a` list as its help text describes it, "hex addresses separated by
   * commas": every entry hexadecimal, with or without a 0x prefix, whether or
   * not some entry has a hex letter.
   */
  function HexAddressList(text: string): Result<seq<int>, ParseError> {
    ParseAll(Split(text, ','), 16)
  }

  /** The bare hex digits of each address, as the help text writes them. */
  function BareHex(addrs: seq<nat>): (r: seq<string>)
    ensures |r| == |addrs| && forall i :: 0 <= i < |addrs| ==> r[i] == NatToDigits(addrs[i], 16)
  {
    seq(|addrs|, i requires 0 <= i < |addrs| => NatToDigits(addrs[i], 16))
  }

  /** `int(d, 16)` of the bare hex digits d of n is n, and d holds no comma. */
  lemma BareHexRoundTrip(n: nat)
    ensures PyInt(NatToDigits(n, 16), 16) == Success(n)
    ensures ',' !in NatToDigits(n, 16)
  {
    var s := NatToDigits(n, 16);
    NatToDigitsRoundTrip(n, 16);
    NotDigitAnywhere(s, 16, ',');
    assert IsDigitIn(s[0], 16);
    if |s| >= 2 {
      assert IsDigitIn(s[1], 16);
    }
    assert SignSplit(s).1 == s;
    assert PrefixBase(s) != 16;
  }

  /** Any list of addresses written as bare hex digits joined by commas reads back as the same list. */
  lemma HexAddressListRoundTrip(addrs: seq<nat>)
    requires |addrs| >= 1
    ensures HexAddressList(Join(BareHex(addrs), ',')) == Success(addrs)
  {
    var parts := BareHex(addrs);
    forall i | 0 <= i < |parts|
      ensures PyInt(parts[i], 16) == Success(addrs[i] as int) && ',' !in parts[i]
    {
      BareHexRoundTrip(addrs[i]);
    }
    SplitJoin(parts, ',');
    var r := ParseAll(parts, 16);
    assert r.value == addrs;
  }

  /**
   * An example: read as the help text describes it, "68,69" names chips
   * 0x68 and 0x69. `HexAddressListRoundTrip` states the reading for every list.
   */
  lemma HexAddressListPair()
    ensures HexAddressList("68,69") == Success([0x68, 0x69])
  {
    assert "68,69" == "68" + "," + "69";
    SplitTwo("68", "69");
    TwoDigits('6', '8', 16);
    TwoDigits('6', '9', 16);
    var r := ParseAll(["68", "69"], 16);
    assert r.value == [0x68, 0x69];
  }

  lemma MulStep(i: int, step: int)
    ensures (i + 1) * step == i * step + step
  {
  }

  /**
   * Python's `range(start, stop, step)`: the arithmetic progression from
   * `start` that stays below `stop` (above it for a negative step).
   */
  function PyRange(start: int, stop: int, step: int): seq<int>
    requires step != 0
    decreases if step > 0 then stop - start else start - stop
  {
    if (step > 0 && start < stop) || (step < 0 && start > stop) then [start] + PyRange(start + step, stop, step)
    else []
  }

  /**
   * The progression's i-th element is start + i*step, every element is on the
   * near side of `stop`, and one more step would reach or pass it.
   */
  lemma {:induction false} PyRangeElements(start: int, stop: int, step: int)
    requires step != 0
    ensures var r := PyRange(start, stop, step);
      (forall i :: 0 <= i < |r| ==> r[i] == start + i * step)
      && (forall i :: 0 <= i < |r| ==> if step > 0 then r[i] < stop else r[i] > stop)
      && (if step > 0 then start + |r| * step >= stop else start + |r| * step <= stop)
    decreases if step > 0 then stop - start else start - stop
  {
    if (step > 0 && start < stop) || (step < 0 && start > stop) {
      PyRangeElements(start + step, stop, step);
      var rest := PyRange(start + step, stop, step);
      var r := [start] + rest;
      forall i | 0 < i < |r|
        ensures r[i] == start + i * step
      {
        MulStep(i - 1, step);
      }
      MulStep(|rest|, step);
    }
  }

  /** `int(j)` of every piece between the '-' characters, in order. */
  function PieceInts(pieces: seq<string>): (r: seq<Result<int, ParseError>>)
    ensures |r| == |pieces| && forall i :: 0 <= i < |r| ==> r[i] == PyInt(pieces[i], 10)
  {
    seq(|pieces|, i requires 0 <= i < |pieces| => PyInt(pieces[i], 10))
  }

  /**
   * The bounds of a ranged port item from the pieces' parsed values, the k-th
   * increased by k (so "a-b" means stop b+1 and "a-b-c" means step c+2); the
   * first piece int() refuses raises its error.
   */
  function ParseBounds(vals: seq<Result<int, ParseError>>, k: nat): (r: Result<seq<int>, ParseError>)
    ensures r.Success? <==> forall i :: 0 <= i < |vals| ==> vals[i].Success?
    ensures r.Failure? ==> exists j :: 0 <= j < |vals| && vals[j] == Failure(r.error) &&
                                      (forall i :: 0 <= i < j ==> vals[i].Success?)
    decreases |vals|
  {
    if vals == [] then Success([])
    else match vals[0]
      case Failure(e) => Failure(e)
      case Success(v) =>
        match ParseBounds(vals[1..], k + 1)
        case Failure(e) => Failure(e)
        case Success(rest) => Success([v + k] + rest)
  }

  /** Bound i is the value of piece i plus k + i: one is added to the end of a range. */
  lemma {:induction false} ParseBoundsAt(vals: seq<Result<int, ParseError>>, k: nat, i: nat)
    requires ParseBounds(vals, k).Success? && i < |vals|
    ensures |ParseBounds(vals, k).value| == |vals|
    ensures vals[i] == Success(ParseBounds(vals, k).value[i] - (k + i))
    decreases |vals|
  {
    var rest := ParseBounds(vals[1..], k + 1);
    assert vals[0].Success? && rest.Success?;
    assert ParseBounds(vals, k).value == [vals[0].value + k] + rest.value;
    if |vals| > 1 {
      ParseBoundsAt(vals[1..], k + 1, if i == 0 then 0 else i - 1);
    }
    if i > 0 {
      assert vals[i] == vals[1..][i - 1];
    }
  }

  /** All bounds at once, with as many bounds as pieces. */
  lemma ParseBoundsValues(vals: seq<Result<int, ParseError>>, k: nat)
    requires ParseBounds(vals, k).Success?
    ensures var b := ParseBounds(vals, k).value;
      |b| == |vals| && forall i :: 0 <= i < |vals| ==> vals[i] == Success(b[i] - (k + i))
  {
    if vals != [] {
      ParseBoundsAt(vals, k, 0);
    }
    forall i | 0 <= i < |vals|
      ensures vals[i] == Success(ParseBounds(vals, k).value[i] - (k + i))
    {
      ParseBoundsAt(vals, k, i);
    }
  }

  /** One comma-separated port item: "n" gives [n], an item with '-' gives a range. */
  function PortItem(item: string): Result<seq<int>, ParseError> {
    if '-' in item then
      match ParseBounds(PieceInts(Split(item, '-')), 0)
      case Failure(e) => Failure(e)
      case Success(b) =>
        if |b| == 2 then Success(PyRange(b[0], b[1], 1))
        else if |b| == 3 then
          if b[2] == 0 then Failure(ZeroStep(item)) else Success(PyRange(b[0], b[1], b[2]))
        else Failure(TooManyBounds(item))
    else
      match PyInt(item, 10)
      case Failure(e) => Failure(e)
      case Success(v) => Success([v])
  }

  /** The items' lists concatenated in order; the first failing item ends the parse. */
  function PortItems(items: seq<string>): (r: Result<seq<int>, ParseError>)
    ensures r.Success? <==> forall i :: 0 <= i < |items| ==> PortItem(items[i]).Success?
    ensures items != [] && PortItem(items[0]).Failure? ==> r == Failure(PortItem(items[0]).error)
  {
    if items == [] then Success([])
    else match PortItem(items[0])
      case Failure(e) => Failure(e)
      case Success(xs) =>
        match PortItems(items[1..])
        case Failure(e) => Failure(e)
        case Success(ys) => Success(xs + ys)
  }

  /** The `-p` option, the function `f` of the Python script. */
  function PortList(text: string): Result<seq<int>, ParseError> {
    PortItems(Split(text, ','))
  }

  /** An item "x-y" of two decimal numerals is split into exactly those two pieces. */
  lemma RangeItemPieces(a: nat, b: nat)
    ensures '-' in DecimalString(a) + "-" + DecimalString(b)
    ensures ',' !in DecimalString(a) + "-" + DecimalString(b)
    ensures Split(DecimalString(a) + "-" + DecimalString(b), '-') == [DecimalString(a), DecimalString(b)]
  {
    var x, y := DecimalString(a), DecimalString(b);
    DecimalRoundTrip(a);
    DecimalRoundTrip(b);
    assert (x + "-" + y)[|x|] == '-';
    assert x + "-" + y == x + ['-'] + y;
    SplitPrefix(x, y, '-');
    SplitNoSeparator(y, '-');
  }

  /** The bounds of "a-b" are a and b + 1. */
  lemma RangeItemBounds(a: nat, b: nat)
    ensures ParseBounds(PieceInts([DecimalString(a), DecimalString(b)]), 0) == Success([a, b + 1])
  {
    DecimalRoundTrip(a);
    DecimalRoundTrip(b);
    var vals := PieceInts([DecimalString(a), DecimalString(b)]);
    assert vals == [Success(a), Success(b)];
    var r := ParseBounds(vals, 0);
    ParseBoundsValues(vals, 0);
    assert r.Success? && |r.value| == 2;
    assert r.value[0] == a && r.value[1] == b + 1;
    assert r.value == [a, b + 1];
  }

  /** The item "a-b" is the range from a up to b + 1. */
  lemma PortRangeItem(a: nat, b: nat)
    ensures PortItem(DecimalString(a) + "-" + DecimalString(b)) == Success(PyRange(a, b + 1, 1))
  {
    RangeItemPieces(a, b);
    RangeItemBounds(a, b);
  }

  /** "a-b" lists a, a+1, ..., b, and nothing when b < a. */
  lemma PortRangeText(a: nat, b: nat)
    ensures PortList(DecimalString(a) + "-" + DecimalString(b)).Success?
    ensures var ps := PortList(DecimalString(a) + "-" + DecimalString(b)).value;
      |ps| == (if a <= b then b - a + 1 else 0) && forall i :: 0 <= i < |ps| ==> ps[i] == a + i
  {
    var item := DecimalString(a) + "-" + DecimalString(b);
    RangeItemPieces(a, b);
    SplitNoSeparator(item, ',');
    PortRangeItem(a, b);
    var ps := PyRange(a, b + 1, 1);
    PyRangeElements(a, b + 1, 1);
    if |ps| > 0 {
      assert ps[|ps| - 1] == a + (|ps| - 1) * 1;
    }
    assert [item][1..] == [];
    assert PortItems([item]) == Success(ps + []);
    assert ps + [] == ps;
  }

  /** "n" lists n alone. */
  lemma PortSingleText(n: nat)
    ensures PortList(DecimalString(n)) == Success([n])
  {
    var s := DecimalString(n);
    DecimalRoundTrip(n);
    SplitNoSeparator(s, ',');
    assert PortItem(s) == Success([n]);
    assert [s][1..] == [];
    assert PortItems([s]) == Success([n] + []);
    assert [n] + [] == [n];
  }

  /** Comma-separated items are concatenated in order. */
  lemma PortListConcat(x: string, y: string)
    requires ',' !in x
    ensures PortItem(x).Failure? ==> PortList(x + "," + y) == Failure(PortItem(x).error)
    ensures PortItem(x).Success? && PortList(y).Success? ==>
      PortList(x + "," + y) == Success(PortItem(x).value + PortList(y).value)
    ensures PortItem(x).Success? && PortList(y).Failure? ==> PortList(x + "," + y) == PortList(y)
  {
    assert x + "," + y == x + [','] + y;
    SplitPrefix(x, y, ',');
    var items := Split(x + "," + y, ',');
    assert items[0] == x && items[1..] == Split(y, ',');
  }
}
