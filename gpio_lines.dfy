/**
 * The 32 data lines of the GPIO bus.  Line i is driven ACTIVE exactly when
 * bit i of the word is set (`(w >> i) & 1` in Python, `w & (1u << i)` in
 * C); a line value is modelled as a bool, true for ACTIVE.
 */
module GpioLines {
  import opened Words

  function Pow2(n: nat): (r: nat)
    ensures r >= 1
  {
    if n == 0 then 1 else 2 * Pow2(n - 1)
  }

  /** Bit i of w, as `(w >> i) & 1 == 1`. */
  function BitSet(w: nat, i: nat): bool
  {
    (w / Pow2(i)) % 2 == 1
  }

  /** The first n line values for word w (line i at index i). */
  function Lines(w: nat, n: nat): (r: seq<bool>)
    ensures |r| == n
  {
    seq(n, i requires 0 <= i < n => BitSet(w, i))
  }

  /** The 32 line values `_write_word`/`write_word`/`map_word_to_values` drive for a word. */
  function WordToLines(w: Word): (r: seq<bool>)
    ensures |r| == 32
  {
    Lines(w, 32)
  }

  /** The word the hardware latches from a set of line values, line i weighing 2^i. */
  function LinesToWord(ls: seq<bool>): (r: nat)
    ensures r < Pow2(|ls|)
  {
    if ls == [] then 0 else (if ls[0] then 1 else 0) + 2 * LinesToWord(ls[1..])
  }

  lemma Pow2Of32()
    ensures Pow2(32) == TwoTo32
  {
    assert Pow2(4) == 16;
    assert Pow2(8) == 256 by { Pow2Add(4, 4); }
    assert Pow2(16) == 0x1_0000 by { Pow2Add(8, 8); }
    Pow2Add(16, 16);
  }

  lemma {:induction false} Pow2Add(a: nat, b: nat)
    ensures Pow2(a + b) == Pow2(a) * Pow2(b)
  {
    if a > 0 {
      Pow2Add(a - 1, b);
      assert Pow2(a + b) == 2 * Pow2(a - 1 + b);
      assert 2 * (Pow2(a - 1) * Pow2(b)) == (2 * Pow2(a - 1)) * Pow2(b);
    }
  }

  lemma BitSetShift(w: nat, i: nat)
    ensures BitSet(w, i + 1) == BitSet(w / 2, i)
  {
    DivDiv(w, 2, Pow2(i));
  }

  lemma {:induction false} LinesToWordOfLines(w: nat, n: nat)
    ensures LinesToWord(Lines(w, n)) == w % Pow2(n)
  {
    if n > 0 {
      LinesTail(w, n);
      var ls, tail := Lines(w, n), Lines(w / 2, n - 1);
      assert ls[1..] == tail;
      LinesToWordOfLines(w / 2, n - 1);
      assert LinesToWord(ls) == w % 2 + 2 * ((w / 2) % Pow2(n - 1));
      ModDouble(w, Pow2(n - 1));
    }
  }

  /** Splitting off the low bit of a remainder modulo 2p. */
  lemma ModDouble(w: nat, p: nat)
    requires p > 0
    ensures w % (2 * p) == w % 2 + 2 * ((w / 2) % p)
  {
    var q := w / 2;
    var t, u := q / p, q % p;
    assert q == p * t + u;
    assert w == 2 * q + w % 2;
    assert 2 * q == (2 * p) * t + 2 * u by {
      assert 2 * (p * t) == (2 * p) * t;
    }
    DivModUnique(w, 2 * p, t, 2 * u + w % 2);
  }

  lemma LinesTail(w: nat, n: nat)
    requires n > 0
    ensures Lines(w, n) == [w % 2 == 1] + Lines(w / 2, n - 1)
  {
    var ls, rs := Lines(w, n), [w % 2 == 1] + Lines(w / 2, n - 1);
    forall i | 0 <= i < n ensures ls[i] == rs[i] {
      if i > 0 {
        BitSetShift(w, i - 1);
      }
    }
  }

  /** Reading the lines back gives the word: the bus carries every bit of it. */
  lemma WordLinesRoundTrip(w: Word)
    ensures LinesToWord(WordToLines(w)) == w
  {
    LinesToWordOfLines(w, 32);
    Pow2Of32();
  }

  /** Driving the lines of a latched value reproduces the same line values. */
  lemma {:induction false} LinesOfLinesToWord(ls: seq<bool>)
    ensures Lines(LinesToWord(ls), |ls|) == ls
  {
    if ls != [] {
      var w := LinesToWord(ls);
      var rest := LinesToWord(ls[1..]);
      DivModUnique(w, 2, rest, if ls[0] then 1 else 0);
      LinesOfLinesToWord(ls[1..]);
      forall i | 0 <= i < |ls| ensures Lines(w, |ls|)[i] == ls[i] {
        if i > 0 {
          BitSetShift(w, i - 1);
          assert Lines(rest, |ls| - 1)[i - 1] == ls[1..][i - 1];
        }
      }
    }
  }

  /**
   * A GPIO line request pair as the Python cores and the libgpiod core use
   * it: the 32-line data request and the one-line WEN request.  Every
   * `set_values` call is recorded, in order.
   */
  class LineBus {
    var dataWrites: seq<seq<bool>>
    var wenWrites: seq<bool>

    constructor ()
      ensures dataWrites == [] && wenWrites == []
    {
      dataWrites := [];
      wenWrites := [];
    }

    /** The words latched from the data lines so far. */
    function Latched(): (r: seq<nat>)
      reads this
      ensures |r| == |dataWrites|
    {
      seq(|dataWrites|, k requires 0 <= k < |dataWrites| reads this => LinesToWord(dataWrites[k]))
    }

    /** `_write_word` / `write_word`: one set_values call on the data lines. */
    method WriteWord(w: Word)
      modifies this
      ensures dataWrites == old(dataWrites) + [WordToLines(w)]
      ensures wenWrites == old(wenWrites)
      ensures Latched() == old(Latched()) + [w]
    {
      dataWrites := dataWrites + [WordToLines(w)];
      WordLinesRoundTrip(w);
    }

    /** `_wen_edge` / `wen_pulse` / the libgpiod `wen_edge`: the WEN line is
      * set ACTIVE then INACTIVE when active-high, the reverse when
      * active-low; the pulse width is a delay and is not modelled. */
    method WenEdge(activeHigh: bool)
      modifies this
      ensures wenWrites == old(wenWrites) + [activeHigh, !activeHigh]
      ensures dataWrites == old(dataWrites)
    {
      wenWrites := wenWrites + [activeHigh];
      wenWrites := wenWrites + [!activeHigh];
    }

    /** `wen_pulse` of the CGI: the active level, a `time.sleep` of the
      * pulse width, then the inactive level.  A negative width makes
      * `time.sleep` raise, and the line is left at its active level. */
    method WenPulse(activeHigh: bool, pulseUs: int) returns (raised: bool)
      modifies this
      ensures raised == (pulseUs < 0)
      ensures wenWrites == old(wenWrites) + (if raised then [activeHigh] else [activeHigh, !activeHigh])
      ensures dataWrites == old(dataWrites)
    {
      wenWrites := wenWrites + [activeHigh];
      if pulseUs < 0 {
        return true;
      }
      wenWrites := wenWrites + [!activeHigh];
      raised := false;
    }
  }

  /** Each of k strobes writes the active level then the inactive level. */
  function Strobes(activeHigh: bool, k: nat): (r: seq<bool>)
    ensures |r| == 2 * k
    ensures forall j :: 0 <= j < |r| ==> r[j] == (if j % 2 == 0 then activeHigh else !activeHigh)
  {
    if k == 0 then [] else Strobes(activeHigh, k - 1) + [activeHigh, !activeHigh]
  }
}
