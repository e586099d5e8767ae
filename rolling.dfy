/**
 * The rolling average of the Python script (`class avg`): a list of at most
 * `maxlen` values used as a ring once full, with `head` at the newest value.
 */
module Rolling {

  function Sum(s: seq<real>): real {
    if s == [] then 0.0 else s[0] + Sum(s[1..])
  }

  lemma {:induction false} SumConcat(a: seq<real>, b: seq<real>)
    ensures Sum(a + b) == Sum(a) + Sum(b)
    decreases |a|
  {
    if a != [] {
      assert (a + b)[1..] == a[1..] + b;
      SumConcat(a[1..], b);
    } else {
      assert a + b == b;
    }
  }

  /** The last `n` elements of `h` (all of them when there are fewer). */
  function Last(h: seq<real>, n: nat): (r: seq<real>)
    ensures |r| == if |h| <= n then |h| else n
    ensures forall i :: 0 <= i < |r| ==> r[i] == h[|h| - |r| + i]
  {
    if |h| <= n then h else h[|h| - n..]
  }

  /** `s` read from position `k` round to the position before it. */
  function Rotate(s: seq<real>, k: nat): (r: seq<real>)
    requires k <= |s|
    ensures |r| == |s|
  {
    s[k..] + s[..k]
  }

  /** The two halves of a rotation, put back in order, give the sequence again. */
  lemma RotateHalves(s: seq<real>, k: nat)
    requires k <= |s|
    ensures Rotate(s, k) == s[k..] + s[..k] && s[..k] + s[k..] == s
  {
  }

  /** A rotation keeps the sum. */
  lemma RotateSum(s: seq<real>, k: nat)
    requires k <= |s|
    ensures Sum(Rotate(s, k)) == Sum(s)
  {
    RotateHalves(s, k);
    SumConcat(s[k..], s[..k]);
    SumConcat(s[..k], s[k..]);
  }

  /** Overwriting the oldest slot of a full ring and advancing drops the oldest value and appends the new one. */
  lemma RotateOverwrite(s: seq<real>, h: nat, x: real)
    requires h < |s|
    ensures Rotate(s[h := x], if h + 1 >= |s| then 0 else h + 1) == Rotate(s, h)[1..] + [x]
  {
    var t := s[h := x];
    if h + 1 >= |s| {
      assert t == s[..h] + [x];
      assert Rotate(s, h)[1..] == s[..h];
    } else {
      assert t[h + 1..] == s[h + 1..];
      assert t[..h + 1] == s[..h] + [x];
      assert Rotate(s, h)[1..] == s[h + 1..] + s[..h];
    }
  }

  /** Pushing past the window drops the oldest value. */
  lemma LastAppend(h: seq<real>, n: nat, x: real)
    requires n >= 1 && |h| >= n
    ensures Last(h + [x], n) == Last(h, n)[1..] + [x]
  {
    assert (h + [x])[|h| + 1 - n..] == h[|h| - n..][1..] + [x];
  }

  /** Where the oldest value of the list sits. */
  function Start(head: int, values: seq<real>): (k: nat)
    requires 0 <= head
    ensures k <= |values|
  {
    if head + 1 >= |values| then 0 else head + 1
  }

  /**
   * The ring invariant: the list holds the last `maxlen` values added, read
   * oldest first from the slot after `head`; it grows by appending until full.
   */
  ghost predicate Ring(maxlen: int, head: int, values: seq<real>, history: seq<real>) {
    && maxlen >= 1
    && 0 <= head
    && |values| <= maxlen
    && (|values| == 0 ==> head == 0)
    && (|values| > 0 ==> head < |values|)
    && (|values| < maxlen ==> head + 1 >= |values|)
    && Rotate(values, Start(head, values)) == Last(history, maxlen)
  }

  /** The list holds as many values as were added, up to `maxlen`. */
  lemma RingLength(maxlen: int, head: int, values: seq<real>, history: seq<real>)
    requires Ring(maxlen, head, values, history)
    ensures |values| == if |history| <= maxlen then |history| else maxlen
  {
    assert |Rotate(values, Start(head, values))| == |values|;
  }

  /** Appending to a list with room keeps the ring invariant, with `head` at the new last slot. */
  lemma RingAppend(maxlen: int, head: int, values: seq<real>, history: seq<real>, x: real)
    requires Ring(maxlen, head, values, history) && |values| < maxlen
    ensures Ring(maxlen, |values|, values + [x], history + [x])
  {
    assert |history| == |values|;
    assert Rotate(values + [x], Start(|values|, values + [x])) == values + [x];
  }

  /** Overwriting the slot after `head` in a full list keeps the ring invariant. */
  lemma RingOverwrite(maxlen: int, head: int, values: seq<real>, history: seq<real>, x: real)
    requires Ring(maxlen, head, values, history) && |values| == maxlen
    ensures var h := if head >= maxlen - 1 then 0 else head + 1;
      Ring(maxlen, h, values[h := x], history + [x])
  {
    var h := if head >= maxlen - 1 then 0 else head + 1;
    assert h == Start(head, values);
    RotateOverwrite(values, h, x);
    assert Start(h, values[h := x]) == if h + 1 >= |values| then 0 else h + 1;
    LastAppend(history, maxlen, x);
  }

  class Avg {
    const maxlen: int
    var head: int
    var values: seq<real>
    /** Every value ever added, oldest first. */
    ghost var history: seq<real>

    /** The values in the order they were added. */
    function Contents(): seq<real>
      reads this
      requires 0 <= head
    {
      Rotate(values, Start(head, values))
    }

    ghost predicate Valid()
      reads this
    {
      Ring(maxlen, head, values, history)
    }

    constructor (maxlength: int)
      requires maxlength >= 1
      ensures Valid() && maxlen == maxlength
      ensures values == [] && head == 0 && history == []
    {
      maxlen := maxlength;
      head := 0;
      values := [];
      history := [];
    }

    /**
     * `add`: append while there is room, otherwise advance `head` round the
     * ring and overwrite that slot. Returns the number of values held.
     */
    method Add(x: real) returns (n: int)
      requires Valid()
      modifies this
      ensures Valid()
      ensures history == old(history) + [x]
      ensures n == |values| && n == if |history| <= maxlen then |history| else maxlen
      ensures 0 <= head < |values| && values[head] == x
      ensures forall i :: 0 <= i < |old(values)| && i != head ==> values[i] == old(values)[i]
      ensures Contents() == Last(history, maxlen)
    {
      if |values| < maxlen {
        RingAppend(maxlen, head, values, history, x);
        values := values + [x];
        head := |values| - 1;
        assert Ring(maxlen, head, values, history + [x]);
      } else {
        RingOverwrite(maxlen, head, values, history, x);
        if head >= maxlen - 1 {
          head := 0;
        } else {
          head := head + 1;
        }
        values := values[head := x];
        assert Ring(maxlen, head, values, history + [x]);
      }
      history := history + [x];
      RingLength(maxlen, head, values, history);
      n := |values|;
    }

    /** `get_avg`: the mean of the values held, which are the last `maxlen` added. */
    function Average(): (r: real)
      reads this
      requires Valid() && |values| > 0
      ensures r == Sum(Last(history, maxlen)) / (|Last(history, maxlen)| as real)
    {
      RotateSum(values, Start(head, values));
      Sum(values) / (|values| as real)
    }
  }
}
