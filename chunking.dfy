/** Fixed-window chunking of a transcript: the list comprehension
    `[text[i:i+900] for i in range(0, len(text), 900)]` of `generate_with_prompt`. */
module Chunking {
  import opened Text

  /** Characters per window handed to the generator. */
  const Window: nat := 900

  /** Python's `range(start, stop, step)` for a positive step. */
  function Range(start: nat, stop: nat, step: nat): seq<nat>
    requires step > 0
    decreases if start < stop then stop - start else 0
  {
    if start < stop then [start] + Range(start + step, stop, step) else []
  }

  /** Python's slice `s[lo:hi]` for non-negative bounds: both ends are clamped
      to the length, and an empty or inverted range gives "". */
  function Slice(s: string, lo: nat, hi: nat): string
  {
    if lo >= |s| || hi <= lo then "" else s[lo..if hi < |s| then hi else |s|]
  }

  /** The windows of `text`, in order. */
  function Chunks(text: string): seq<string>
  {
    var starts := Range(0, |text|, Window);
    seq(|starts|, k requires 0 <= k < |starts| => Slice(text, starts[k], starts[k] + Window))
  }

  /** `range(start, stop, 900)` holds ceil((stop - start) / 900) values, the k-th
      being start + 900 * k, all below stop. */
  lemma {:induction false} RangeWindow(start: nat, stop: nat)
    ensures |Range(start, stop, Window)| == if start < stop then (stop - start + Window - 1) / Window else 0
    ensures forall k :: 0 <= k < |Range(start, stop, Window)| ==>
              Range(start, stop, Window)[k] == start + Window * k < stop
    decreases if start < stop then stop - start else 0
  {
    if start < stop {
      var rest := Range(start + Window, stop, Window);
      RangeWindow(start + Window, stop);
      assert Range(start, stop, Window) == [start] + rest;
      forall k | 0 < k < |Range(start, stop, Window)|
        ensures Range(start, stop, Window)[k] == start + Window * k
      {
        assert Range(start, stop, Window)[k] == rest[k - 1];
      }
    }
  }

  /** Chunk k is the slice of 900 characters starting at 900 * k, cut short by
      the end of the text; there are ceil(L / 900) of them. */
  lemma ChunkAt(text: string, k: nat)
    ensures |Chunks(text)| == (|text| + Window - 1) / Window
    ensures k < |Chunks(text)| ==>
              && Window * k < |text|
              && Chunks(text)[k] == text[Window * k .. if Window * k + Window < |text| then Window * k + Window else |text|]
  {
    RangeWindow(0, |text|);
  }

  /** A text of length L gives ceil(L / 900) chunks; the empty text gives none. */
  lemma ChunkCount(text: string)
    ensures |Chunks(text)| == (|text| + Window - 1) / Window
    ensures text == "" <==> Chunks(text) == []
  {
    ChunkAt(text, 0);
  }

  /** Every chunk is non-empty and at most 900 characters long; every chunk
      but the last is exactly 900 long. */
  lemma ChunkSizes(text: string)
    ensures forall k :: 0 <= k < |Chunks(text)| ==> 0 < |Chunks(text)[k]| <= Window
    ensures forall k :: 0 <= k < |Chunks(text)| - 1 ==> |Chunks(text)[k]| == Window
  {
    forall k | 0 <= k < |Chunks(text)|
      ensures 0 < |Chunks(text)[k]| <= Window
      ensures k < |Chunks(text)| - 1 ==> |Chunks(text)[k]| == Window
    {
      ChunkAt(text, k);
      ChunkAt(text, k + 1);
    }
  }

  /** The first k chunks, glued together, are the first min(900 * k, L) characters. */
  lemma {:induction false} ChunksPrefix(text: string, k: nat)
    requires k <= |Chunks(text)|
    ensures Concat(Chunks(text)[..k]) == text[..if Window * k < |text| then Window * k else |text|]
  {
    if k > 0 {
      var c := Chunks(text);
      var lo := Window * (k - 1);
      var hi := if Window * k < |text| then Window * k else |text|;
      assert lo < |text| && c[k - 1] == text[lo .. hi] by {
        ChunkAt(text, k - 1);
        Distribute(k - 1, 1);
      }
      ChunksPrefix(text, k - 1);
      assert c[..k] == c[..k - 1] + [c[k - 1]];
      ConcatAppend(c[..k - 1], c[k - 1]);
      PrefixThenSlice(text, lo, hi);
    }
  }

  lemma PrefixThenSlice(s: string, lo: nat, hi: nat)
    requires lo <= hi <= |s|
    ensures s[..lo] + s[lo .. hi] == s[..hi]
  {
  }

  /** Gluing the chunks back together in order gives the text exactly: no gap,
      no overlap. */
  lemma Reassemble(text: string)
    ensures Concat(Chunks(text)) == text
  {
    var n := |Chunks(text)|;
    ChunksPrefix(text, n);
    ChunkCount(text);
    assert Chunks(text)[..n] == Chunks(text);
  }

  /** A text of whole windows has exactly L / 900 chunks. */
  lemma WholeWindows(text: string)
    requires |text| % Window == 0
    ensures Window * |Chunks(text)| == |text|
  {
    ChunkCount(text);
  }

  /** Text after n whole windows adds its own chunk count to n. */
  lemma CountShifted(t1: string, t2: string, n1: nat)
    requires Window * n1 == |t1|
    ensures |Chunks(t1 + t2)| == n1 + |Chunks(t2)|
  {
    ChunkCount(t1 + t2);
    ChunkCount(t2);
  }

  /** Appending text after whole windows leaves the earlier chunks as they were. */
  lemma ChunkKept(t1: string, t2: string, n1: nat, k: nat)
    requires Window * n1 == |t1| && k < n1
    ensures k < |Chunks(t1)| && k < |Chunks(t1 + t2)| && Chunks(t1 + t2)[k] == Chunks(t1)[k]
  {
    CountShifted(t1, "", n1);
    assert t1 + "" == t1;
    CountShifted(t1, t2, n1);
    var lo := Window * k;
    assert lo + Window <= |t1| by { Distribute(k, 1); }
    assert Chunks(t1)[k] == t1[lo .. lo + Window] by { ChunkAt(t1, k); }
    assert Chunks(t1 + t2)[k] == (t1 + t2)[lo .. lo + Window] by { ChunkAt(t1 + t2, k); }
    assert (t1 + t2)[lo .. lo + Window] == t1[lo .. lo + Window];
  }

  lemma SliceAfter(a: string, b: string, lo: nat, hi: nat)
    requires lo <= hi <= |b|
    ensures (a + b)[|a| + lo .. |a| + hi] == b[lo .. hi]
  {
  }

  lemma Distribute(a: nat, b: nat)
    ensures Window * (a + b) == Window * a + Window * b
  {
  }

  /** Chunk n + j of a text whose first n windows are `t1` starts 900 * j
      characters into what follows `t1`. */
  lemma ChunkAfter(t1: string, t2: string, n1: nat, j: nat)
    requires Window * n1 == |t1| && Window * j < |t2|
    ensures n1 + j < |Chunks(t1 + t2)|
    ensures Chunks(t1 + t2)[n1 + j]
            == (t1 + t2)[|t1| + Window * j .. |t1| + if Window * j + Window < |t2| then Window * j + Window else |t2|]
  {
    CountShifted(t1, t2, n1);
    ChunkCount(t2);
    ChunkAt(t1 + t2, n1 + j);
    Distribute(n1, j);
  }

  /** Appending text after whole windows chunks the new text as if on its own. */
  lemma ChunkShifted(t1: string, t2: string, n1: nat, j: nat)
    requires Window * n1 == |t1| && j < |Chunks(t2)|
    ensures n1 + j < |Chunks(t1 + t2)| && Chunks(t1 + t2)[n1 + j] == Chunks(t2)[j]
  {
    ChunkAt(t2, j);
    ChunkAfter(t1, t2, n1, j);
    SliceAfter(t1, t2, Window * j, if Window * j + Window < |t2| then Window * j + Window else |t2|);
  }

  /** When the first text fills whole windows, chunking the concatenation is
      chunking each text and listing the first's chunks before the second's. */
  lemma ChunksAppend(t1: string, t2: string)
    requires |t1| % Window == 0
    ensures Chunks(t1 + t2) == Chunks(t1) + Chunks(t2)
  {
    var c, c1, c2 := Chunks(t1 + t2), Chunks(t1), Chunks(t2);
    var n1 := |c1|;
    WholeWindows(t1);
    CountShifted(t1, t2, n1);
    forall k | 0 <= k < |c| ensures c[k] == (c1 + c2)[k] {
      if k < n1 {
        ChunkKept(t1, t2, n1, k);
      } else {
        ChunkShifted(t1, t2, n1, k - n1);
      }
    }
  }
}
