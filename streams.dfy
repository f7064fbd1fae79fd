/** The read-write loop `YandexService` runs for every download: read a chunk, write it,
    and report `(int)(totalRead * 100 / totalBytes)` when the expected size is positive.

    A response body is the sequence of chunks its `ReadAsync` calls give back; the first
    empty chunk, or the end of the sequence, ends the body. */
module Streams {
  /** The chunks the loop consumes: those before the first empty one. */
  function ReadChunks(chunks: seq<seq<bv8>>): (r: seq<seq<bv8>>)
    ensures |r| <= |chunks| && r == chunks[..|r|]
    ensures forall k :: 0 <= k < |r| ==> r[k] != []
    ensures |r| < |chunks| ==> chunks[|r|] == []
  {
    if chunks == [] || chunks[0] == [] then []
    else [chunks[0]] + ReadChunks(chunks[1..])
  }

  /** The bytes of `chunks`, in order. */
  function Flatten(chunks: seq<seq<bv8>>): seq<bv8> {
    if chunks == [] then [] else Flatten(chunks[..|chunks| - 1]) + chunks[|chunks| - 1]
  }

  /** The `(int)` cast of a `long`: its low 32 bits, read as two's complement. */
  function Int32(x: int): (r: int)
    ensures -0x8000_0000 <= r < 0x8000_0000
    ensures -0x8000_0000 <= x < 0x8000_0000 ==> r == x
  {
    var m := x % 0x1_0000_0000;
    if m >= 0x8000_0000 then m - 0x1_0000_0000 else m
  }

  /** The values reported while `chunks` are read; none when the size is not positive. */
  function Progress(chunks: seq<seq<bv8>>, totalBytes: int): seq<int> {
    if totalBytes <= 0 || chunks == [] then []
    else Progress(chunks[..|chunks| - 1], totalBytes) + [Int32(|Flatten(chunks)| * 100 / totalBytes)]
  }

  /** The loop: the bytes written and the values reported. */
  method CopyStream(chunks: seq<seq<bv8>>, totalBytes: int) returns (written: seq<bv8>, reports: seq<int>)
    ensures written == Flatten(ReadChunks(chunks))
    ensures reports == Progress(ReadChunks(chunks), totalBytes)
  {
    written := [];
    reports := [];
    var totalRead := 0;
    var i := 0;
    while i < |chunks| && chunks[i] != []
      invariant 0 <= i <= |chunks|
      invariant forall k :: 0 <= k < i ==> chunks[k] != []
      invariant written == Flatten(chunks[..i]) && totalRead == |written|
      invariant reports == Progress(chunks[..i], totalBytes)
    {
      var buffer := chunks[i];
      written := written + buffer;
      totalRead := totalRead + |buffer|;
      if totalBytes > 0 {
        reports := reports + [Int32((totalRead * 100) / totalBytes)];
      }
      assert chunks[..i + 1][..i] == chunks[..i];
      i := i + 1;
    }
    ReadChunksPrefix(chunks, i);
  }

  /** A run of non-empty chunks ended by an empty one or by the end is what is read. */
  lemma {:induction false} ReadChunksPrefix(chunks: seq<seq<bv8>>, i: nat)
    requires i <= |chunks| && forall k :: 0 <= k < i ==> chunks[k] != []
    requires i < |chunks| ==> chunks[i] == []
    ensures ReadChunks(chunks) == chunks[..i]
  {
    if i > 0 {
      ReadChunksPrefix(chunks[1..], i - 1);
      assert chunks[..i] == [chunks[0]] + chunks[1..][..i - 1];
    }
  }

  /** The bytes read so far never shrink. */
  lemma {:induction false} FlattenGrows(chunks: seq<seq<bv8>>, i: nat, j: nat)
    requires i <= j <= |chunks|
    ensures |Flatten(chunks[..i])| <= |Flatten(chunks[..j])|
    decreases j
  {
    if i < j {
      assert chunks[..j][..j - 1] == chunks[..j - 1];
      FlattenGrows(chunks, i, j - 1);
    }
  }

  lemma DivBounds(x: nat, d: nat)
    requires d > 0
    ensures (x / d) * d <= x < (x / d) * d + d
  {
  }

  lemma MulMonotone(p: nat, q: nat, d: nat)
    requires p <= q
    ensures p * d <= q * d
  {
  }

  /** Integer division by a positive number keeps order. */
  lemma DivMonotone(x: nat, y: nat, d: nat)
    requires x <= y && d > 0
    ensures x / d <= y / d
  {
    DivBounds(x, d);
    DivBounds(y, d);
    if y / d < x / d {
      MulMonotone(y / d + 1, x / d, d);
    }
  }

  /** The whole is 100 percent. */
  lemma PercentWhole(total: nat)
    requires total > 0
    ensures total * 100 / total == 100
  {
    var q := total * 100 / total;
    DivBounds(total * 100, total);
    if q < 100 {
      MulMonotone(q + 1, 100, total);
    } else if q > 100 {
      MulMonotone(101, q, total);
    }
  }

  /** Less than the whole is less than 100 percent. */
  lemma PercentPart(b: nat, total: nat)
    requires b < total
    ensures b * 100 / total < 100
  {
    var q := b * 100 / total;
    DivBounds(b * 100, total);
    MulMonotone(b + 1, total, 100);
    if q >= 100 {
      MulMonotone(100, q, total);
    }
  }

  /** Percentages of a size: between 0 and 100, growing with the part, and 100 only for
      the whole. */
  lemma Percent(a: nat, b: nat, total: nat)
    requires a <= b <= total && total > 0
    ensures 0 <= a * 100 / total <= b * 100 / total <= 100
    ensures b * 100 / total == 100 <==> b == total
  {
    MulMonotone(a, b, 100);
    MulMonotone(b, total, 100);
    DivMonotone(a * 100, b * 100, total);
    DivMonotone(b * 100, total * 100, total);
    PercentWhole(total);
    if b < total {
      PercentPart(b, total);
    }
  }

  /** The `i`-th report is the percentage read once chunk `i` was written. */
  lemma {:induction false} ProgressAt(chunks: seq<seq<bv8>>, totalBytes: int, i: nat)
    requires totalBytes > 0 && i < |chunks|
    ensures |Progress(chunks, totalBytes)| == |chunks|
    ensures Progress(chunks, totalBytes)[i] == Int32(|Flatten(chunks[..i + 1])| * 100 / totalBytes)
    decreases |chunks|
  {
    var front := chunks[..|chunks| - 1];
    if i < |chunks| - 1 {
      ProgressAt(front, totalBytes, i);
      assert front[..i + 1] == chunks[..i + 1];
    } else {
      assert chunks[..i + 1] == chunks;
      if front != [] {
        ProgressAt(front, totalBytes, 0);
      }
    }
  }

  /** Without an expected size nothing is reported. */
  lemma ProgressSilent(chunks: seq<seq<bv8>>, totalBytes: int)
    requires totalBytes <= 0
    ensures Progress(chunks, totalBytes) == []
  {
  }

  /** When no more arrives than announced, the reports are percentages that never go
      down and end at 100 exactly when everything announced has arrived. */
  lemma ProgressPercentages(chunks: seq<seq<bv8>>, totalBytes: int)
    requires totalBytes > 0 && |Flatten(chunks)| <= totalBytes
    ensures |Progress(chunks, totalBytes)| == |chunks|
    ensures var p := Progress(chunks, totalBytes);
      forall i :: 0 <= i < |p| ==> 0 <= p[i] <= 100
    ensures var p := Progress(chunks, totalBytes);
      forall i, j :: 0 <= i <= j < |p| ==> p[i] <= p[j]
    ensures var p := Progress(chunks, totalBytes);
      chunks != [] ==> (p[|p| - 1] == 100 <==> |Flatten(chunks)| == totalBytes)
  {
    if chunks != [] {
      var p := Progress(chunks, totalBytes);
      ProgressAt(chunks, totalBytes, 0);
      assert chunks[..|chunks|] == chunks;
      forall i, j | 0 <= i <= j < |p|
        ensures 0 <= p[i] <= p[j] <= 100
        ensures p[j] == 100 <==> |Flatten(chunks[..j + 1])| == totalBytes
      {
        ProgressStep(chunks, totalBytes, i, j);
      }
      assert chunks[..|p| - 1 + 1] == chunks;
    }
  }

  lemma ProgressStep(chunks: seq<seq<bv8>>, totalBytes: int, i: nat, j: nat)
    requires totalBytes > 0 && |Flatten(chunks)| <= totalBytes && i <= j < |chunks|
    ensures |Progress(chunks, totalBytes)| == |chunks|
    ensures var p := Progress(chunks, totalBytes);
      0 <= p[i] <= p[j] <= 100 && (p[j] == 100 <==> |Flatten(chunks[..j + 1])| == totalBytes)
  {
    ProgressAt(chunks, totalBytes, i);
    ProgressAt(chunks, totalBytes, j);
    assert chunks[..|chunks|] == chunks;
    FlattenGrows(chunks, i + 1, j + 1);
    FlattenGrows(chunks, j + 1, |chunks|);
    Percent(|Flatten(chunks[..i + 1])|, |Flatten(chunks[..j + 1])|, totalBytes);
  }
}
