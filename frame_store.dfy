/**
 * The frame list (`awg_list_t`) both queue engines keep two of: a flat word
 * buffer `words` of capacity `words_cap`, of which `words_used` are filled,
 * and per-frame `offsets`/`counts` arrays sized for `total_frames`, of which
 * the first `loaded_frames` describe pushed frames.
 *
 * `ListView` is the abstract content of a list; the `FrameList` class keeps
 * the arrays and every method is proved against a function on `ListView`.
 * A null pointer is an empty array: every null buffer in the source goes
 * with `total_frames == 0` or `words_cap == 0`.
 */
module FrameStore {
  import opened Words
  import opened ControlWord
  import opened Wrappers

  /** MAX_WORDS_PER_FRAME and GROW_WORDS_STEP (the same in both engines). */
  const MaxWordsPerFrame: nat := 64
  const GrowWordsStep: nat := 4096

  datatype ListView = ListView(
    maxFrames: nat,          // the INIT hint (engine of the top-level server only)
    total: nat,              // total_frames
    ready: bool,
    frames: seq<seq<Word>>,  // the loaded frames, in push order
    wordsUsed: nat,
    cap: nat)                // words_cap

  /** `free_list` / `clear_list_fully`: everything zero, every buffer freed. */
  const EmptyList: ListView := ListView(0, 0, false, [], 0, 0)

  function Loaded(l: ListView): nat { |l.frames| }

  /** The free count of a Q reply: total - loaded, or 0 if loaded is not below total. */
  function FreeFrames(l: ListView): nat
  {
    if l.total > Loaded(l) then l.total - Loaded(l) else 0
  }

  predicate FrameOk(w: seq<Word>)
  {
    1 <= |w| <= MaxWordsPerFrame
  }

  function SumLens(fs: seq<seq<Word>>): nat
  {
    if fs == [] then 0 else SumLens(fs[..|fs| - 1]) + |fs[|fs| - 1]|
  }

  /** The words of the frames `fs`, one frame after the other. */
  function Flatten(fs: seq<seq<Word>>): seq<Word>
  {
    if fs == [] then [] else fs[0] + Flatten(fs[1..])
  }

  /** What every list reachable through the operations below satisfies:
    * no more frames than announced, each of 1..64 words, packed without gaps
    * into a buffer large enough for them. */
  predicate ListOk(l: ListView)
  {
    Loaded(l) <= l.total && l.wordsUsed == SumLens(l.frames) && l.wordsUsed <= l.cap &&
    forall i :: 0 <= i < |l.frames| ==> FrameOk(l.frames[i])
  }

  /** The capacity loop of `ensure_words_cap`, from a nonzero start. */
  function GrowFrom(c: nat, want: nat): (r: nat)
    requires c > 0
    decreases want - c
  {
    if c >= want then c else GrowFrom(c + GrowWordsStep, want)
  }

  /** The capacity `ensure_words_cap` leaves when `want` words are needed. */
  function GrownCap(cap: nat, want: nat): nat
  {
    if want <= cap then cap else GrowFrom(if cap == 0 then GrowWordsStep else cap, want)
  }

  /** The growth loop stops at the first step that reaches `want`. */
  lemma {:induction false} GrowFromSteps(c: nat, want: nat)
    requires c > 0
    ensures GrowFrom(c, want) >= want && GrowFrom(c, want) >= c
    ensures (GrowFrom(c, want) - c) % GrowWordsStep == 0
    ensures GrowFrom(c, want) > c ==> GrowFrom(c, want) - GrowWordsStep < want
    decreases want - c
  {
    if c < want {
      GrowFromSteps(c + GrowWordsStep, want);
    }
  }

  /** `ensure_words_cap`: afterwards the capacity covers `want`; it is left
    * alone when it already did, and otherwise grows from the old capacity
    * (4096 when there was none) by whole 4096-word steps, stopping at the
    * first one that suffices. */
  lemma GrownCapMeaning(cap: nat, want: nat)
    ensures GrownCap(cap, want) >= want && GrownCap(cap, want) >= cap
    ensures want <= cap ==> GrownCap(cap, want) == cap
    ensures want > cap ==>
      var base := if cap == 0 then GrowWordsStep else cap;
      (GrownCap(cap, want) - base) % GrowWordsStep == 0 &&
      GrownCap(cap, want) - GrowWordsStep < want
  {
    if want > cap {
      GrowFromSteps(if cap == 0 then GrowWordsStep else cap, want);
    }
  }

  /** Whether `push_frame` accepts a frame: a slot is left and the frame has
    * 1..64 words; growing the buffer must also succeed when it is needed. */
  predicate PushAccepts(l: ListView, w: seq<Word>, allocOk: bool)
  {
    Loaded(l) < l.total && FrameOk(w) && (l.wordsUsed + |w| <= l.cap || allocOk)
  }

  /** The list after `push_frame` succeeds. */
  function Pushed(l: ListView, w: seq<Word>): ListView
  {
    l.(frames := l.frames + [w], wordsUsed := l.wordsUsed + |w|, cap := GrownCap(l.cap, l.wordsUsed + |w|))
  }

  lemma SumLensSnoc(fs: seq<seq<Word>>, w: seq<Word>)
    ensures SumLens(fs + [w]) == SumLens(fs) + |w|
  {
    assert (fs + [w])[..|fs|] == fs;
  }

  /** A successful push keeps the list well formed, adds exactly one frame
    * at the end and leaves every earlier frame as it was. */
  lemma PushedOk(l: ListView, w: seq<Word>, allocOk: bool)
    requires ListOk(l) && PushAccepts(l, w, allocOk)
    ensures ListOk(Pushed(l, w))
    ensures Loaded(Pushed(l, w)) == Loaded(l) + 1 && Pushed(l, w).frames[Loaded(l)] == w
    ensures Pushed(l, w).frames[..Loaded(l)] == l.frames
    ensures FreeFrames(Pushed(l, w)) + 1 == FreeFrames(l)
  {
    SumLensSnoc(l.frames, w);
    GrownCapMeaning(l.cap, l.wordsUsed + |w|);
    assert Pushed(l, w).frames[..Loaded(l)] == l.frames;
  }

  /** `do_preload_begin` of the top-level engine: the frame table is
    * reallocated for `total` frames, the words are dropped but their buffer
    * (and the INIT hint) kept for reuse. */
  function BegunKeepWords(l: ListView, total: nat): ListView
  {
    l.(total := total, ready := false, frames := [], wordsUsed := 0)
  }

  /** `prepare_list_for_preload`: a clean list with room for `total` frames,
    * or a clean empty list when the frame table cannot be allocated. */
  function Prepared(total: nat, metaOk: bool): ListView
  {
    if metaOk then EmptyList.(total := total) else EmptyList
  }

  /** The buffer capacity after k zero-gain frames were pushed into a fresh list. */
  function ZeroGainCap(k: nat): nat
  {
    if k == 0 then 0 else GrownCap(ZeroGainCap(k - 1), k * ZeroGainFrameCount)
  }

  /** A zero-gain load of n frames after its first k pushes. */
  function ZeroGainPartial(n: nat, k: nat): ListView
  {
    ListView(0, n, false, seq(k, i => ZeroGainFrame()), k * ZeroGainFrameCount, ZeroGainCap(k))
  }

  /** `load_zero_gain_list` on success: n copies of the zero-gain frame, ready. */
  function ZeroGainLoaded(n: nat): ListView
  {
    ZeroGainPartial(n, n).(ready := true)
  }

  lemma BeginsAreOk(l: ListView, total: nat, metaOk: bool)
    requires ListOk(l)
    ensures ListOk(BegunKeepWords(l, total)) && Loaded(BegunKeepWords(l, total)) == 0
    ensures FreeFrames(BegunKeepWords(l, total)) == total
    ensures ListOk(Prepared(total, metaOk)) && Loaded(Prepared(total, metaOk)) == 0
    ensures ListOk(EmptyList) && FreeFrames(EmptyList) == 0
  {
  }

  /** The N frames of a zero-gain load are packed 33 words apiece. */
  lemma {:induction false} SumLensZeroGain(n: nat)
    ensures SumLens(seq(n, i => ZeroGainFrame())) == n * ZeroGainFrameCount
  {
    if n > 0 {
      var fs := seq(n, i => ZeroGainFrame());
      assert fs[..n - 1] == seq(n - 1, i => ZeroGainFrame());
      SumLensZeroGain(n - 1);
    }
  }

  lemma {:induction false} ZeroGainCapCovers(k: nat)
    ensures ZeroGainCap(k) >= k * ZeroGainFrameCount
  {
    if k > 0 {
      GrownCapMeaning(ZeroGainCap(k - 1), k * ZeroGainFrameCount);
    }
  }

  /** A successful zero-gain load holds exactly n frames, each the zero-gain
    * frame, and is ready; no frame slot is left free. */
  lemma ZeroGainLoadedOk(n: nat)
    ensures ListOk(ZeroGainLoaded(n)) && Loaded(ZeroGainLoaded(n)) == n
    ensures ZeroGainLoaded(n).ready && FreeFrames(ZeroGainLoaded(n)) == 0
    ensures forall i :: 0 <= i < n ==> ZeroGainLoaded(n).frames[i] == ZeroGainFrame()
  {
    SumLensZeroGain(n);
    ZeroGainCapCovers(n);
  }

  /** The capacity loop of `ensure_words_cap`, for a buffer that is too small. */
  method GrowCapacity(cap0: nat, want: nat) returns (cap: nat)
    requires want > cap0
    ensures cap == GrownCap(cap0, want)
  {
    cap := if cap0 > 0 then cap0 else GrowWordsStep;
    while cap < want
      invariant cap > 0
      invariant GrowFrom(cap, want) == GrownCap(cap0, want)
      decreases want - cap
    {
      cap := cap + GrowWordsStep;
    }
  }

  /** The `memcpy` of `push_frame`: w lands at `off`, nothing else moves. */
  method CopyInto(buf: array<Word>, off: nat, w: seq<Word>)
    requires off + |w| <= buf.Length
    modifies buf
    ensures buf[..off] == old(buf[..off]) && buf[off..off + |w|] == w
    ensures buf[off + |w|..] == old(buf[off + |w|..])
  {
    var i := 0;
    while i < |w|
      invariant 0 <= i <= |w|
      invariant buf[..off] == old(buf[..off]) && buf[off..off + i] == w[..i]
      invariant buf[off + |w|..] == old(buf[off + |w|..])
    {
      buf[off + i] := w[i];
      i := i + 1;
    }
  }

  /** The first n frames laid out by `offs` and `cnts` in `ws`. */
  function SliceFrames(offs: seq<nat>, cnts: seq<nat>, ws: seq<Word>, n: nat): (r: seq<seq<Word>>)
    requires n <= |offs| && n <= |cnts|
    requires forall f :: 0 <= f < n ==> offs[f] + cnts[f] <= |ws|
    ensures |r| == n
  {
    seq(n, f requires 0 <= f < n => ws[offs[f]..offs[f] + cnts[f]])
  }

  /** Frames that lie within the first `used` words read the same from two
    * buffers that agree on those words. */
  lemma SliceFramesPrefix(offs: seq<nat>, cnts: seq<nat>, a: seq<Word>, b: seq<Word>, n: nat, used: nat)
    requires n <= |offs| && n <= |cnts| && used <= |a| && used <= |b|
    requires forall f :: 0 <= f < n ==> offs[f] + cnts[f] <= used
    requires a[..used] == b[..used]
    ensures SliceFrames(offs, cnts, a, n) == SliceFrames(offs, cnts, b, n)
  {
    forall f | 0 <= f < n
      ensures a[offs[f]..offs[f] + cnts[f]] == b[offs[f]..offs[f] + cnts[f]]
    {
      assert a[offs[f]..offs[f] + cnts[f]] == a[..used][offs[f]..offs[f] + cnts[f]];
      assert b[offs[f]..offs[f] + cnts[f]] == b[..used][offs[f]..offs[f] + cnts[f]];
    }
  }

  /** Recording one more frame, with the earlier entries of the tables
    * unchanged, adds exactly that frame at the end. */
  lemma SliceFramesSnoc(offs: seq<nat>, cnts: seq<nat>, offs2: seq<nat>, cnts2: seq<nat>, ws: seq<Word>, n: nat)
    requires n < |offs2| && n < |cnts2| && n <= |offs| && n <= |cnts|
    requires offs2[..n] == offs[..n] && cnts2[..n] == cnts[..n]
    requires forall f :: 0 <= f <= n ==> offs2[f] + cnts2[f] <= |ws|
    ensures forall f :: 0 <= f < n ==> offs[f] + cnts[f] <= |ws|
    ensures SliceFrames(offs2, cnts2, ws, n + 1) == SliceFrames(offs, cnts, ws, n) + [ws[offs2[n]..offs2[n] + cnts2[n]]]
  {
    forall f | 0 <= f < n
      ensures offs[f] == offs2[f] && cnts[f] == cnts2[f]
    {
      assert offs[f] == offs[..n][f] && offs2[f] == offs2[..n][f];
      assert cnts[f] == cnts[..n][f] && cnts2[f] == cnts2[..n][f];
    }
  }

  /**
   * One `awg_list_t`.  `offsets` and `counts` have `total_frames` entries;
   * frame f is `words[offsets[f] .. offsets[f] + counts[f]]`, and the ghost
   * field `frames` keeps the frames so laid out.
   */
  class FrameList {
    var offsets: array<nat>
    var counts: array<nat>
    var words: array<Word>
    var maxFrames: nat
    var totalFrames: nat
    var loadedFrames: nat
    var ready: bool
    var wordsUsed: nat
    ghost var frames: seq<seq<Word>>
    ghost var Repr: set<object>

    ghost predicate Valid()
      reads this, Repr
    {
      Repr == {this, offsets, counts, words} && offsets != counts &&
      offsets.Length == totalFrames && counts.Length == totalFrames &&
      loadedFrames <= totalFrames && wordsUsed <= words.Length &&
      (forall f :: 0 <= f < loadedFrames ==> 1 <= counts[f] <= MaxWordsPerFrame && offsets[f] + counts[f] <= wordsUsed) &&
      frames == SliceFrames(offsets[..], counts[..], words[..], loadedFrames)
    }

    /** Frame f as `player_thread` reads it. */
    function Frame(f: nat): (r: seq<Word>)
      requires Valid() && f < loadedFrames
      reads this, Repr
      ensures r == frames[f]
    {
      words[offsets[f]..offsets[f] + counts[f]]
    }

    ghost function View(): ListView
      reads this
    {
      ListView(maxFrames, totalFrames, ready, frames, wordsUsed, words.Length)
    }

    /** Each buffer is the one from before or a newly allocated one. */
    twostate predicate Renewed()
      reads this
    {
      (offsets == old(offsets) || fresh(offsets)) && (counts == old(counts) || fresh(counts)) &&
      (words == old(words) || fresh(words))
    }

    constructor ()
      ensures Valid() && View() == EmptyList && fresh(Repr)
    {
      offsets := new nat[0];
      counts := new nat[0];
      words := new Word[0];
      maxFrames, totalFrames, loadedFrames, ready, wordsUsed := 0, 0, 0, false, 0;
      frames := [];
      Repr := {this, offsets, counts, words};
    }

    /** `free_list` (top-level engine) and `clear_list_fully` (raw-TCP
      * engine): free the three buffers and zero every field. */
    method Clear()
      requires Valid()
      modifies Repr
      ensures Valid() && Renewed() && View() == EmptyList
    {
      ForgetFrames();
      NewTables(0);
      DropWords();
      maxFrames := 0;
    }

    /** Nothing loaded, no word used, not ready; the buffers stay. */
    method ForgetFrames()
      requires Valid()
      modifies this
      ensures Valid() && Repr == old(Repr) && Renewed() && loadedFrames == 0
      ensures View() == old(View()).(ready := false, frames := [], wordsUsed := 0)
    {
      loadedFrames, wordsUsed, ready, frames := 0, 0, false, [];
    }

    /** Fresh zero-filled `offsets` and `counts` tables for `total` frames. */
    method NewTables(total: nat)
      requires Valid() && loadedFrames == 0
      modifies this
      ensures Valid() && Renewed() && loadedFrames == 0
      ensures View() == old(View()).(total := total)
    {
      offsets := new nat[total];
      counts := new nat[total];
      totalFrames := total;
      Repr := {this, offsets, counts, words};
    }

    /** The word buffer freed: capacity 0. */
    method DropWords()
      requires Valid() && wordsUsed == 0
      modifies this
      ensures Valid() && Renewed()
      ensures View() == old(View()).(cap := 0)
    {
      ghost var offs, cnts := offsets[..], counts[..];
      words := new Word[0];
      Repr := {this, offsets, counts, words};
      assert offsets[..] == offs && counts[..] == cnts;
    }

    /** `do_preload_begin` of the top-level engine, after its argument checks. */
    method BeginKeepWords(total: nat)
      requires Valid()
      modifies Repr
      ensures Valid() && Renewed()
      ensures View() == BegunKeepWords(old(View()), total)
    {
      ForgetFrames();
      NewTables(total);
    }

    /** The READY flag set by an E or a completing P. */
    method SetReady()
      requires Valid()
      modifies this
      ensures Valid() && Repr == old(Repr) && Renewed() && View() == old(View()).(ready := true)
    {
      ready := true;
    }

    /** The INIT hint stored after `free_list`. */
    method SetMaxFrames(m: nat)
      requires Valid()
      modifies this
      ensures Valid() && Repr == old(Repr) && Renewed() && View() == old(View()).(maxFrames := m)
    {
      maxFrames := m;
    }

    /** `prepare_list_for_preload`; `metaOk` is whether both `calloc`s succeed. */
    method Prepare(total: nat, metaOk: bool) returns (ok: bool)
      requires Valid()
      modifies Repr
      ensures Valid() && Renewed()
      ensures ok == metaOk && View() == Prepared(total, metaOk)
    {
      Clear();
      if !metaOk {
        Clear();
        return false;
      }
      NewTables(total);
      ok := true;
    }

    /** `ensure_words_cap`; `allocOk` is whether the `realloc` succeeds. */
    method EnsureWordsCap(need: nat, allocOk: bool) returns (ok: bool)
      requires Valid()
      modifies this
      ensures Valid() && Renewed()
      ensures ok <==> old(wordsUsed) + need <= old(words.Length) || allocOk
      ensures ok ==> words.Length == GrownCap(old(words.Length), old(wordsUsed) + need)
      ensures !ok ==> words == old(words)
      ensures View() == old(View()).(cap := words.Length)
      ensures offsets == old(offsets) && counts == old(counts) && loadedFrames == old(loadedFrames)
    {
      ghost var offs, cnts, ws := offsets[..], counts[..], words[..];
      var want := wordsUsed + need;
      if want <= words.Length {
        return true;
      }
      var cap := GrowCapacity(words.Length, want);
      if !allocOk {
        return false;
      }
      GrowFromSteps(if words.Length == 0 then GrowWordsStep else words.Length, want);
      var nw := new Word[cap];
      forall i | 0 <= i < words.Length {
        nw[i] := words[i];
      }
      assert nw[..wordsUsed] == words[..wordsUsed];
      SliceFramesPrefix(offs, cnts, ws, nw[..], loadedFrames, wordsUsed);
      words := nw;
      Repr := {this, offsets, counts, words};
      assert offsets[..] == offs && counts[..] == cnts && words[..] == nw[..];
      ok := true;
    }

    /** `push_frame`: on success the frame's words are copied in at the old
      * `words_used` and recorded as frame `loaded_frames`. */
    method PushFrame(w: seq<Word>, allocOk: bool) returns (ok: bool)
      requires Valid()
      modifies Repr
      ensures Valid() && Renewed()
      ensures ok == PushAccepts(old(View()), w, allocOk)
      ensures ok ==> View() == Pushed(old(View()), w)
      ensures !ok ==> View() == old(View())
      ensures ok ==> offsets[old(loadedFrames)] == old(wordsUsed) && counts[old(loadedFrames)] == |w|
      ensures ok ==> words[old(wordsUsed)..wordsUsed] == w
    {
      if loadedFrames >= totalFrames {
        return false;
      }
      if |w| == 0 || |w| > MaxWordsPerFrame {
        return false;
      }
      ok := EnsureWordsCap(|w|, allocOk);
      if !ok {
        return false;
      }
      GrownCapMeaning(old(words.Length), old(wordsUsed) + |w|);
      Append(w);
    }

    /** The part of `push_frame` after its checks: copy the words in at
      * `words_used` and record the frame at `offsets`/`counts[loaded_frames]`. */
    method Append(w: seq<Word>)
      requires Valid() && loadedFrames < totalFrames && FrameOk(w) && wordsUsed + |w| <= words.Length
      modifies Repr
      ensures Valid() && Repr == old(Repr) && Renewed()
      ensures View() == old(View()).(frames := old(frames) + [w], wordsUsed := old(wordsUsed) + |w|)
      ensures offsets[old(loadedFrames)] == old(wordsUsed) && counts[old(loadedFrames)] == |w|
      ensures words[old(wordsUsed)..wordsUsed] == w
    {
      ghost var oldOffs, oldCnts, oldWs := offsets[..], counts[..], words[..];
      var n := loadedFrames;
      var off := wordsUsed;
      CopyInto(words, off, w);
      wordsUsed := wordsUsed + |w|;
      offsets[n] := off;
      counts[n] := |w|;
      loadedFrames := n + 1;
      assert offsets[..][..n] == oldOffs[..n] && counts[..][..n] == oldCnts[..n];
      assert words[..][..off] == oldWs[..off];
      SliceFramesPrefix(oldOffs, oldCnts, oldWs, words[..], n, off);
      SliceFramesSnoc(oldOffs, oldCnts, offsets[..], counts[..], words[..], n);
      frames := frames + [w];
    }

    /** `load_zero_gain_list`: prepare for n frames, push the zero-gain frame
      * n times, mark ready; any failure leaves the list cleared.  `growOk`
      * is whether every `realloc` of the word buffer succeeds. */
    method LoadZeroGain(n: nat, metaOk: bool, growOk: bool) returns (ok: bool)
      requires Valid()
      modifies Repr
      ensures Valid() && Renewed()
      ensures ok <==> metaOk && (growOk || n == 0)
      ensures ok ==> View() == ZeroGainLoaded(n)
      ensures !ok ==> View() == EmptyList
    {
      ok := Prepare(n, metaOk);
      if !ok {
        return;
      }
      ok := PushZeroGains(n, growOk);
      if ok {
        SetReady();
      }
    }

    /** The push loop of `load_zero_gain_list` on a freshly prepared list. */
    method PushZeroGains(n: nat, growOk: bool) returns (ok: bool)
      requires Valid() && View() == Prepared(n, true)
      modifies Repr
      ensures Valid() && Renewed()
      ensures ok <==> growOk || n == 0
      ensures ok ==> View() == ZeroGainPartial(n, n)
      ensures !ok ==> View() == EmptyList
    {
      var z := ZeroGainFrame();
      var i := 0;
      while i < n
        invariant 0 <= i <= n
        invariant Valid() && Renewed()
        invariant View() == ZeroGainPartial(n, i)
        invariant !growOk ==> i == 0
      {
        var pushed := PushFrame(z, growOk);
        if !pushed {
          Clear();
          return false;
        }
        assert seq(i, j => ZeroGainFrame()) + [z] == seq(i + 1, j => ZeroGainFrame());
        i := i + 1;
      }
      ok := true;
    }
  }
}
