/** Splitting a text into messages of at most `size` characters by plain
    character slicing, as both the training and the description handlers do. */
module Chunking {
  import opened Text

  function Min(a: int, b: int): int {
    if a <= b then a else b
  }

  /** `len(range(0, n, size))`: how many slice starts there are below `n`. */
  function CeilDiv(n: nat, size: nat): nat
    requires size > 0
    decreases n
  {
    if n == 0 then 0 else if n <= size then 1 else 1 + CeilDiv(n - size, size)
  }

  /** The count is `ceil(n / size)`: the last start lies below `n`, and all
      starts together cover `n`. */
  lemma {:induction false} CeilDivIsCeiling(n: nat, size: nat)
    requires size > 0
    ensures n == 0 <==> CeilDiv(n, size) == 0
    ensures n > 0 ==> (CeilDiv(n, size) - 1) * size < n <= CeilDiv(n, size) * size
    decreases n
  {
    if n > size {
      CeilDivIsCeiling(n - size, size);
      var q := CeilDiv(n - size, size);
      assert (q + 1) * size == q * size + size;
      assert q * size == (q - 1) * size + size;
    }
  }

  lemma {:induction false} StartInRange(n: nat, size: nat, k: nat)
    requires size > 0 && k < CeilDiv(n, size)
    ensures k * size < n
    ensures k + 1 < CeilDiv(n, size) ==> k * size + size < n
    decreases n
  {
    if k > 0 {
      StartInRange(n - size, size, k - 1);
      assert k * size == (k - 1) * size + size;
    } else if 1 < CeilDiv(n, size) {
      assert n > size;
    }
  }

  /** The `k`-th slice `s[k * size : k * size + size]` (Python clamps the end). */
  function Chunk(s: string, size: nat, k: nat): (c: string)
    requires size > 0 && k < CeilDiv(|s|, size)
    ensures 0 < |c| <= size
    ensures k + 1 < CeilDiv(|s|, size) ==> |c| == size
  {
    StartInRange(|s|, size, k);
    s[k * size..Min(k * size + size, |s|)]
  }

  /** `[s[i:i + size] for i in range(0, len(s), size)]`. */
  function Chunks(s: string, size: nat): (r: seq<string>)
    requires size > 0
    ensures |r| == CeilDiv(|s|, size)
    ensures forall k :: 0 <= k < |r| ==> 0 < |r[k]| <= size
    ensures forall k :: 0 <= k < |r| - 1 ==> |r[k]| == size
  {
    seq(CeilDiv(|s|, size), k requires 0 <= k < CeilDiv(|s|, size) => Chunk(s, size, k))
  }

  /** A slice of a suffix is a slice of the whole, shifted by where the suffix starts. */
  lemma SliceOfSuffix(s: string, d: nat, i: nat, j: nat)
    requires d <= |s| && i <= j <= |s| - d
    ensures s[d..][i..j] == s[d + i..d + j]
  {
  }

  /** Past the first message, the `k`-th message of `s` is the `k - 1`-th of the rest. */
  lemma ChunkShift(s: string, size: nat, k: nat)
    requires size > 0 && |s| > size && 0 < k < CeilDiv(|s|, size)
    ensures k - 1 < CeilDiv(|s| - size, size)
    ensures Chunk(s, size, k) == Chunk(s[size..], size, k - 1)
  {
    var t := s[size..];
    StartInRange(|s|, size, k);
    StartInRange(|t|, size, k - 1);
    var i := (k - 1) * size;
    assert k * size == size + i;
    var j := Min(i + size, |t|);
    assert Min(k * size + size, |s|) == size + j;
    SliceOfSuffix(s, size, i, j);
  }

  /** The first message takes the first `size` characters; the rest is chunked alike. */
  lemma ChunksUnfold(s: string, size: nat)
    requires size > 0 && |s| > 0
    ensures var m := Min(size, |s|); Chunks(s, size) == [s[..m]] + Chunks(s[m..], size)
  {
    var m := Min(size, |s|);
    if |s| <= size {
      assert Chunk(s, size, 0) == s[..m];
    } else {
      var a := Chunks(s, size);
      var b := [s[..m]] + Chunks(s[m..], size);
      forall k | 0 <= k < |a| ensures a[k] == b[k] {
        if k == 0 {
          assert a[0] == Chunk(s, size, 0) == s[..m];
        } else {
          ChunkShift(s, size, k);
        }
      }
    }
  }

  /** Chunking is lossless: the messages, read one after another, are the text. */
  lemma {:induction false} ChunksConcat(s: string, size: nat)
    requires size > 0
    ensures Concat(Chunks(s, size)) == s
    decreases |s|
  {
    if |s| > 0 {
      var m := Min(size, |s|);
      ChunksUnfold(s, size);
      ChunksConcat(s[m..], size);
      assert s[..m] + s[m..] == s;
    }
  }

  /** A non-empty text that fits in one message is sent as exactly that message. */
  lemma ChunksOfShortText(s: string, size: nat)
    requires 0 < |s| <= size
    ensures Chunks(s, size) == [s]
  {
    ChunksUnfold(s, size);
    assert s[..|s|] == s;
    assert |Chunks(s[|s|..], size)| == 0;
  }
}
