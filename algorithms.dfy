/**
 The instrumented array engine atn::Algorithms. Every read or write of the
 working array goes through CompareGt and Swap, which also keep the counters
 and the highlight state that the visualizer draws; fill, shuffle,
 check_sorted, bubble_sort and the run loop are built on top of them.

 The pacing waits inside the primitives are cross-thread synchronisation and
 are no-ops here; rand() is the stream `rand` of values the C library
 produces after srand(seed), read through the cursor `drawn`.
 */
module Atn {
  import opened AlgorithmsSpec

  /** Sentinel for "no swap highlighted". */
  const INVALID_INDEX: int := -1

  const FILL_NAME: string := "Filling..."
  const SHUFFLE_NAME: string := "Shuffling..."
  const CHECK_NAME: string := "Checking..."
  const BUBBLE_SORT_NAME: string := "Bubble Sort"

  /** The sorts the run loop can be handed; bubble sort is the only one implemented. */
  datatype Sort = Bubble

  /** The positions check_sorted highlights after it has compared c adjacent pairs. */
  function CheckedIndices(c: nat): (r: set<nat>)
    ensures forall j: nat :: j in r <==> 0 < c && j <= c
  {
    if c == 0 then {} else if c == 1 then {0, 1} else CheckedIndices(c - 1) + {c}
  }

  /** Comparing one more pair (c, c + 1) adds exactly those two positions. */
  lemma CheckedIndicesStep(c: nat)
    ensures CheckedIndices(c + 1) == CheckedIndices(c) + {c, c + 1}
  {
  }

  class Algorithms {
    const arraySize: nat
    /** rand(k) is the k-th value rand() returns after srand(seed). */
    const rand: nat -> nat
    /** How many values rand() has returned since the last srand(seed). */
    var drawn: nat
    var name: string
    var arr: array<nat>
    var comparisons: nat
    var comparisonIndices: set<nat>
    var swaps: nat
    var swapIndex1: int
    var swapIndex2: int

    /** The array has the configured size, as it does from fill on. */
    ghost predicate Filled()
      reads this
    {
      arr.Length == arraySize
    }

    /** Nothing is highlighted. */
    ghost predicate Idle()
      reads this
    {
      comparisonIndices == {} && swapIndex1 == INVALID_INDEX && swapIndex2 == INVALID_INDEX
    }

    /** Exactly these positions are highlighted. */
    ghost predicate Highlights(c: set<nat>, i1: int, i2: int)
      reads this
    {
      comparisonIndices == c && swapIndex1 == i1 && swapIndex2 == i2
    }

    constructor (arraySize: nat, rand: nat -> nat)
      ensures this.arraySize == arraySize && this.rand == rand
      ensures name == FILL_NAME && fresh(arr) && arr.Length == 0
      ensures comparisons == 0 && swaps == 0 && drawn == 0 && Idle()
    {
      this.arraySize := arraySize;
      this.rand := rand;
      name := FILL_NAME;
      arr := new nat[0];
      new;
      Reset();
    }

    /** One call of rand(): the next value of the stream. */
    method Rand() returns (r: nat)
      modifies this`drawn
      ensures r == rand(old(drawn)) && drawn == old(drawn) + 1
    {
      r := rand(drawn);
      drawn := drawn + 1;
    }

    /** Exchange two elements and count one swap; the highlights are cleared on return. */
    method Swap(index1: nat, index2: nat)
      requires index1 < arr.Length && index2 < arr.Length
      modifies this`swapIndex1, this`swapIndex2, this`swaps, this`comparisonIndices, arr
      ensures arr[..] == Swapped(old(arr[..]), index1, index2)
      ensures swaps == old(swaps) + 1 && comparisons == old(comparisons)
      ensures Idle()
    {
      swapIndex1 := index1;
      swapIndex2 := index2;
      swaps := swaps + 1;
      var temp := arr[index1];
      arr[index1] := arr[index2];
      arr[index2] := temp;
      ClearSwapIndices();
      ClearCompIndices();
    }

    /** Compare two elements, highlight both and count one comparison. */
    method CompareGt(index1: nat, index2: nat) returns (r: bool)
      requires index1 < arr.Length && index2 < arr.Length
      modifies this`comparisonIndices, this`comparisons
      ensures r <==> arr[index1] > arr[index2]
      ensures comparisonIndices == old(comparisonIndices) + {index1, index2}
      ensures comparisons == old(comparisons) + 1
    {
      comparisonIndices := comparisonIndices + {index1, index2};
      comparisons := comparisons + 1;
      r := arr[index1] > arr[index2];
    }

    method ClearSwapIndices()
      modifies this`swapIndex1, this`swapIndex2
      ensures swapIndex1 == INVALID_INDEX && swapIndex2 == INVALID_INDEX
    {
      swapIndex1 := INVALID_INDEX;
      swapIndex2 := INVALID_INDEX;
    }

    method ClearCompIndices()
      modifies this`comparisonIndices
      ensures comparisonIndices == {}
    {
      comparisonIndices := {};
    }

    /** Re-seed the generator, zero the counters and clear the highlights; the array is kept. */
    method Reset()
      modifies this`drawn, this`comparisons, this`swaps, this`comparisonIndices, this`swapIndex1, this`swapIndex2
      ensures drawn == 0 && comparisons == 0 && swaps == 0 && Idle()
    {
      drawn := 0;
      comparisons := 0;
      swaps := 0;
      ClearCompIndices();
      ClearSwapIndices();
    }

    /** Allocate the array afresh and write 1..arraySize into it. */
    method Fill()
      modifies this`arr
      ensures fresh(arr) && Filled()
      ensures forall i :: 0 <= i < arraySize ==> arr[i] == i + 1
      ensures arr[..] == Identity(arraySize)
    {
      arr := new nat[arraySize];
      for i := 0 to arraySize
        invariant fresh(arr) && Filled()
        invariant forall k :: 0 <= k < i ==> arr[k] == k + 1
      {
        arr[i] := i + 1;
      }
    }

    /**
     Fisher-Yates from the last index down to 0: index i is swapped with
     rand() % (i + 1). The source counts i down as a size_t until it wraps
     to size_t(-1); `downto` visits the same indices.
     */
    method Shuffle()
      requires Filled()
      modifies this`name, this`drawn, this`swapIndex1, this`swapIndex2, this`swaps, this`comparisonIndices, arr
      ensures name == SHUFFLE_NAME
      ensures arr[..] == Shuffled(old(arr[..]), rand, old(drawn))
      ensures drawn == old(drawn) + arraySize
      ensures swaps == old(swaps) + arraySize && comparisons == old(comparisons)
      ensures arraySize > 0 ==> Idle()
      ensures arraySize == 0 ==> Highlights(old(comparisonIndices), old(swapIndex1), old(swapIndex2))
    {
      name := SHUFFLE_NAME;
      ghost var goal := Shuffled(arr[..], rand, drawn);
      ghost var d0, s0, h0, h1, h2 := drawn, swaps, comparisonIndices, swapIndex1, swapIndex2;
      for i := arraySize downto 0
        invariant ShuffleFrom(arr[..], i, rand, drawn) == goal
        invariant drawn == d0 + (arraySize - i) && swaps == s0 + (arraySize - i)
        invariant if i < arraySize then Idle() else Highlights(h0, h1, h2)
        invariant name == SHUFFLE_NAME
      {
        ghost var s, k := arr[..], drawn;
        var draw := Rand();
        var randIndex := draw % (i + 1);
        assert randIndex <= i < arraySize;
        Swap(i, randIndex);
        ShuffleFromStep(s, i, rand, k);
      }
    }

    /**
     Compare each adjacent pair (i + 1, i) from the left; report false at the
     first pair that is not strictly increasing, true when there is none.
     The source falls off the end of the function when the scan completes;
     that path is taken to return true.
     */
    method CheckSorted() returns (sorted: bool)
      requires arraySize >= 1 && Filled()
      modifies this`name, this`comparisons, this`comparisonIndices
      ensures name == CHECK_NAME
      ensures sorted <==> StrictlyIncreasing(arr[..])
      ensures comparisons == old(comparisons) + PairsChecked(arr[..], 0)
      ensures comparisonIndices == old(comparisonIndices) + CheckedIndices(PairsChecked(arr[..], 0))
    {
      name := CHECK_NAME;
      ghost var s, c0, h0 := arr[..], comparisons, comparisonIndices;
      for i := 0 to arraySize - 1
        invariant forall k :: 0 <= k < i ==> s[k] < s[k + 1]
        invariant PairsChecked(s, 0) == i + PairsChecked(s, i)
        invariant comparisons == c0 + i
        invariant comparisonIndices == h0 + CheckedIndices(i)
        invariant name == CHECK_NAME
      {
        var result := CompareGt(i + 1, i);
        CheckedIndicesStep(i);
        if !result {
          assert PairsChecked(s, i) == 1;
          return false;
        }
      }
      assert PairsChecked(s, arraySize - 1) == 0;
      return true;
    }

    /**
     Bubble sort as written: arraySize outer passes, pass `iteration`
     comparing each pair (index, index + 1) below arraySize - iteration - 1 and
     swapping it when out of order, with no early exit.
     */
    method BubbleSort()
      requires Filled()
      modifies this`name, this`comparisons, this`comparisonIndices, this`swaps, this`swapIndex1, this`swapIndex2, arr
      ensures name == BUBBLE_SORT_NAME
      ensures arr[..] == BubbleSorted(old(arr[..]))
      ensures comparisons == old(comparisons) + arraySize * (arraySize - 1) / 2
      ensures old(swaps) <= swaps <= old(swaps) + arraySize * (arraySize - 1) / 2
      ensures Idle()
    {
      name := BUBBLE_SORT_NAME;
      ghost var start, c0, s0 := arr[..], comparisons, swaps;
      for iteration := 0 to arraySize
        invariant arr[..] == AfterPasses(start, iteration)
        invariant comparisons == c0 + ComparisonsBefore(arraySize, iteration)
        invariant s0 <= swaps <= s0 + (comparisons - c0)
        invariant name == BUBBLE_SORT_NAME
      {
        ghost var before, passStart := arr[..], comparisons;
        for index := 0 to arraySize - iteration - 1
          invariant BubblePass(arr[..], index, arraySize - iteration - 1)
            == BubblePass(before, 0, arraySize - iteration - 1)
          invariant comparisons == passStart + index
          invariant s0 <= swaps <= s0 + (comparisons - c0)
          invariant name == BUBBLE_SORT_NAME
        {
          var result := CompareGt(index, index + 1);
          if result {
            Swap(index, index + 1);
          }
        }
      }
      ClearCompIndices();
      ClearSwapIndices();
    }

    /**
     One round of the run loop: shuffle, reset, sort, reset, assert that
     check_sorted holds, and reset. Whatever the draws, the sort gives back
     1..arraySize, so the assertion always holds; `shuffled` is the
     permutation the shuffle produced.
     */
    method SortRound(sort: Sort) returns (ghost shuffled: seq<nat>)
      requires arraySize >= 1 && Filled() && arr[..] == Identity(arraySize)
      modifies this`name, this`drawn, this`comparisons, this`comparisonIndices, this`swaps,
        this`swapIndex1, this`swapIndex2, arr
      ensures arr[..] == Identity(arraySize)
      ensures shuffled == Shuffled(Identity(arraySize), rand, old(drawn))
      ensures name == CHECK_NAME && drawn == 0 && comparisons == 0 && swaps == 0 && Idle()
    {
      ghost var cursor := drawn;
      Shuffle();
      shuffled := arr[..];
      BubbleSortUndoesShuffle(arraySize, rand, cursor);
      Reset();
      match sort {
        case Bubble => BubbleSort();
      }
      Reset();
      var sorted := CheckSorted();
      assert sorted;
      Reset();
    }

    /**
     The run loop: fill once, then one round per sort. Every shuffle after
     the first starts from 1..arraySize with a freshly re-seeded generator, so
     all of them produce the same permutation; `shuffles` records each one.
     */
    method RunSorts(sorts: seq<Sort>) returns (ghost shuffles: seq<seq<nat>>)
      requires arraySize >= 1 || sorts == []
      modifies this`name, this`drawn, this`comparisons, this`comparisonIndices, this`swaps,
        this`swapIndex1, this`swapIndex2, this`arr
      ensures fresh(arr) && arr[..] == Identity(arraySize)
      ensures |shuffles| == |sorts|
      ensures forall k :: 0 <= k < |sorts| ==>
        shuffles[k] == Shuffled(Identity(arraySize), rand, if k == 0 then old(drawn) else 0)
      ensures sorts != [] ==> name == CHECK_NAME && drawn == 0 && comparisons == 0 && swaps == 0 && Idle()
      ensures sorts == [] ==> (name == old(name) && drawn == old(drawn) && comparisons == old(comparisons)
        && swaps == old(swaps) && Highlights(old(comparisonIndices), old(swapIndex1), old(swapIndex2)))
    {
      Fill();
      shuffles := [];
      for i := 0 to |sorts|
        invariant fresh(arr) && Filled() && arr[..] == Identity(arraySize)
        invariant |shuffles| == i
        invariant forall k :: 0 <= k < i ==>
          shuffles[k] == Shuffled(Identity(arraySize), rand, if k == 0 then old(drawn) else 0)
        invariant i == 0 ==> (name == old(name) && drawn == old(drawn) && comparisons == old(comparisons)
          && swaps == old(swaps) && Highlights(old(comparisonIndices), old(swapIndex1), old(swapIndex2)))
        invariant i > 0 ==> name == CHECK_NAME && drawn == 0 && comparisons == 0 && swaps == 0 && Idle()
      {
        ghost var shuffled := SortRound(sorts[i]);
        shuffles := shuffles + [shuffled];
      }
    }
  }
}
