/** How stochastic gradient descent orders and cuts its training data: the
    erase-based shuffle and the slicing of a list into mini-batches. Both are
    generic in the element type (the source's elements are labelled images). */
module Minibatch {

  // ------------------------------------------------------------------ shuffle

  /** The order `shuffleImages` produces: with k images left, the next draw
      `ran` picks image ran % k, which moves to the end of the output and is
      erased from the input. Draws are the successive results of `rand()`. */
  function Shuffled<T>(items: seq<T>, draws: seq<nat>): seq<T>
    requires |items| <= |draws|
    decreases |items|
  {
    if |items| == 0 then []
    else
      var ran := draws[0] % |items|;
      [items[ran]] + Shuffled(items[..ran] + items[ran + 1..], draws[1..])
  }

  /** Erasing element i leaves the multiset without that one element. */
  lemma EraseAt<T>(items: seq<T>, i: nat)
    requires i < |items|
    ensures multiset(items) == multiset{items[i]} + multiset(items[..i] + items[i + 1..])
  {
    assert items == items[..i] + [items[i]] + items[i + 1..];
  }

  /** Whatever the draws, the shuffle is a permutation of its input. */
  lemma {:induction false} ShuffledIsPermutation<T>(items: seq<T>, draws: seq<nat>)
    requires |items| <= |draws|
    ensures |Shuffled(items, draws)| == |items|
    ensures multiset(Shuffled(items, draws)) == multiset(items)
    decreases |items|
  {
    if |items| > 0 {
      var ran := draws[0] % |items|;
      ShuffledIsPermutation(items[..ran] + items[ran + 1..], draws[1..]);
      EraseAt(items, ran);
    }
  }

  lemma ShuffledStep<T>(items: seq<T>, draws: seq<nat>, step: nat)
    requires 0 < |items| && step + |items| <= |draws|
    ensures Shuffled(items, draws[step..])
         == [items[draws[step] % |items|]]
            + Shuffled(items[..draws[step] % |items|] + items[draws[step] % |items| + 1..], draws[step + 1..])
  {
    assert draws[step..][1..] == draws[step + 1..];
  }

  /** The source's `shuffleImages`: repeatedly moves a drawn image from the
      input to the output, erasing it from the input, until none is left. */
  method ShuffleImages<T>(images: seq<T>, draws: seq<nat>) returns (shuffled: seq<T>)
    requires |images| <= |draws|
    ensures shuffled == Shuffled(images, draws)
    ensures |shuffled| == |images| && multiset(shuffled) == multiset(images)
  {
    var remaining := images;
    shuffled := [];
    var size := |images|;
    var step := 0;
    while size != 0
      invariant size == |remaining| && step + size == |images|
      invariant shuffled + Shuffled(remaining, draws[step..]) == Shuffled(images, draws)
    {
      var ran := draws[step] % size;
      var oneImage := remaining[ran];
      ShuffledStep(remaining, draws, step);
      shuffled := shuffled + [oneImage];
      remaining := remaining[..ran] + remaining[ran + 1..];
      size := size - 1;
      step := step + 1;
    }
    ShuffledIsPermutation(images, draws);
  }

  // ------------------------------------------------------------ mini-batches

  /** ceil(n / m), the number of batches the loop of `SGD` runs: it tests
      i < ceil((double) n / m). A negative m gives a non-positive bound and
      so no batch at all; m == 0 gives none only when n == 0 (0.0/0 is NaN),
      and callers are required not to pass m == 0 with images. */
  function NumBatches(n: nat, m: int): nat {
    if m <= 0 then 0 else (n + m - 1) / m
  }

  /** Batch i starts at i*m, which lies inside the list. */
  lemma BatchStartInRange(n: nat, m: int, i: nat)
    requires m > 0 && i < NumBatches(n, m)
    ensures i * m < n
  {
    var q := (n + m - 1) / m;
    assert q * m + (n + m - 1) % m == n + m - 1;
    MulMonotone(i + 1, q, m);
    assert (i + 1) * m == i * m + m;
  }

  /** Multiplying by a natural number keeps the order. */
  lemma MulMonotone(a: int, b: int, m: nat)
    requires a <= b
    ensures a * m <= b * m
  {
  }

  /** The batches together reach the end of the list. */
  lemma BatchesReachEnd(n: nat, m: int)
    requires m > 0
    ensures n <= NumBatches(n, m) * m
  {
    var q := (n + m - 1) / m;
    assert n + m - 1 == q * m + (n + m - 1) % m;
  }

  /** Batch i: the elements from i*m up to (i+1)*m, or up to the end of the
      list when fewer than m remain. */
  function Batch<T>(items: seq<T>, m: int, i: nat): seq<T>
    requires m > 0 && i < NumBatches(|items|, m)
  {
    BatchStartInRange(|items|, m, i);
    var start := i * m;
    items[start .. if start + m > |items| then |items| else start + m]
  }

  /** The mini-batches `SGD` cuts, in order. */
  function Batches<T>(items: seq<T>, m: int): seq<seq<T>> {
    seq(NumBatches(|items|, m), i requires 0 <= i < NumBatches(|items|, m) => Batch(items, m, i))
  }

  /** The concatenation of a list of lists, in order. */
  function Flatten<T>(parts: seq<seq<T>>): seq<T> {
    if |parts| == 0 then [] else Flatten(parts[..|parts| - 1]) + parts[|parts| - 1]
  }

  /** Every batch but the last holds m elements; the last holds the
      remainder, and no batch is empty. */
  lemma BatchSizes<T>(items: seq<T>, m: int)
    requires m > 0
    ensures forall i :: 0 <= i < |Batches(items, m)| ==> |Batches(items, m)[i]| > 0
    ensures forall i :: 0 <= i < |Batches(items, m)| - 1 ==> |Batches(items, m)[i]| == m
    ensures |items| > 0 ==>
              |Batches(items, m)| > 0 &&
              |Batches(items, m)[|Batches(items, m)| - 1]| == |items| - (|Batches(items, m)| - 1) * m
  {
    var k := NumBatches(|items|, m);
    forall i | 0 <= i < k
      ensures |Batches(items, m)[i]| > 0
      ensures i < k - 1 ==> |Batches(items, m)[i]| == m
    {
      BatchLength(items, m, i);
      if i < k - 1 {
        InnerBatchFull(items, m, i);
      }
    }
    if |items| > 0 {
      LastBatchRemainder(items, m);
    }
  }

  /** A batch with another one after it is full. */
  lemma InnerBatchFull<T>(items: seq<T>, m: int, i: nat)
    requires m > 0 && i + 1 < NumBatches(|items|, m)
    ensures |Batches(items, m)[i]| == m
  {
    BatchLength(items, m, i);
    BatchStartInRange(|items|, m, i + 1);
    assert (i + 1) * m == i * m + m;
  }

  /** The last batch holds what the full ones before it leave. */
  lemma LastBatchRemainder<T>(items: seq<T>, m: int)
    requires m > 0 && |items| > 0
    ensures NumBatches(|items|, m) > 0
    ensures |Batches(items, m)[NumBatches(|items|, m) - 1]| == |items| - (NumBatches(|items|, m) - 1) * m
  {
    var k := NumBatches(|items|, m);
    BatchesReachEnd(|items|, m);
    assert k > 0;
    BatchLength(items, m, k - 1);
    assert k * m == (k - 1) * m + m;
  }

  /** Batch i holds m elements, or what is left of the list when fewer
      remain, and never none. */
  lemma BatchLength<T>(items: seq<T>, m: int, i: nat)
    requires m > 0 && i < NumBatches(|items|, m)
    ensures |Batches(items, m)[i]| == if i * m + m > |items| then |items| - i * m else m
    ensures |Batches(items, m)[i]| > 0
  {
    BatchAsSlice(items, m, i);
  }

  /** Batch i as a slice of the list. */
  lemma BatchAsSlice<T>(items: seq<T>, m: int, i: nat)
    requires m > 0 && i < NumBatches(|items|, m)
    ensures i * m < |items|
    ensures Batches(items, m)[i] == items[i * m .. if i * m + m > |items| then |items| else i * m + m]
  {
    BatchStartInRange(|items|, m, i);
  }

  /** Where the batch loop of `SGD` cuts batch i when it keeps the start of
      the batch in `start`: it runs from start = i*m up to start + m, or to
      the end of the list, and the next batch starts at (i+1)*m. */
  lemma BatchCut<T>(items: seq<T>, m: int, i: nat, start: int)
    requires i < NumBatches(|items|, m) && start == i * m
    ensures m > 0 && 0 <= start < |items| && start + m == (i + 1) * m
    ensures Batches(items, m)[i] == items[start .. if start + m > |items| then |items| else start + m]
  {
    BatchAsSlice(items, m, i);
  }

  /** How the batch loop of `SGD` cuts batch i out of the list: from `start`
      (which it keeps equal to i*m) up to start + m, or to the end of the
      list when fewer elements remain. */
  method CutBatch<T>(items: seq<T>, m: int, i: nat, start: int) returns (batch: seq<T>)
    requires i < NumBatches(|items|, m) && start == i * m
    ensures batch == Batches(items, m)[i]
    ensures 0 < |batch| <= m && start + m == (i + 1) * m
  {
    BatchCut(items, m, i, start);
    var end;
    if start + m > |items| {
      end := |items|;
    } else {
      end := start + m;
    }
    batch := items[start..end];
  }

  lemma {:induction false} FlattenPrefix<T>(items: seq<T>, m: int, i: nat)
    requires m > 0 && i <= NumBatches(|items|, m)
    ensures Flatten(Batches(items, m)[..i]) == items[..if i * m > |items| then |items| else i * m]
  {
    var bs := Batches(items, m);
    if i > 0 {
      var start := (i - 1) * m;
      assert i * m == start + m;
      var end := if start + m > |items| then |items| else start + m;
      FlattenPrefix(items, m, i - 1);
      BatchAsSlice(items, m, i - 1);
      assert Flatten(bs[..i - 1]) == items[..start];
      assert bs[..i][..i - 1] == bs[..i - 1];
      assert Flatten(bs[..i]) == Flatten(bs[..i - 1]) + bs[i - 1];
      assert bs[i - 1] == items[start..end];
      assert items[..end] == items[..start] + items[start..end];
    }
  }

  /** Concatenating the batches in order gives back the list exactly. */
  lemma BatchesConcatenate<T>(items: seq<T>, m: int)
    requires m > 0
    ensures Flatten(Batches(items, m)) == items
  {
    var k := NumBatches(|items|, m);
    FlattenPrefix(items, m, k);
    BatchesReachEnd(|items|, m);
    assert Batches(items, m)[..k] == Batches(items, m);
  }

  /** 15 images in batches of 4 give batches of 4, 4, 4 and 3. */
  lemma BatchExample<T>(items: seq<T>)
    requires |items| == 15
    ensures |Batches(items, 4)| == 4
    ensures |Batches(items, 4)[0]| == 4 && |Batches(items, 4)[1]| == 4
    ensures |Batches(items, 4)[2]| == 4 && |Batches(items, 4)[3]| == 3
  {
    assert NumBatches(15, 4) == 4;
  }
}
