# Instrumented sorting engine (`atn::Algorithms`)

This project models the execution engine of a sorting visualizer: the class
`atn::Algorithms` in `src/algorithms.hpp`.

The engine holds four pieces of state:

- a working array of `size_t`;
- the counters `comparisons` and `swaps`;
- the highlight state the renderer draws: the set `comparison_indicies`, and
  the pair `swap_index_1` / `swap_index_2`, where `INVALID_INDEX` (-1) means
  nothing is highlighted;
- the label `name` of the running phase.

Every access to the array goes through two primitives:

- `swap` exchanges two elements, counts one swap, and clears the highlights
  on return.
- `compare_gt` highlights two positions, counts one comparison, and returns
  whether the first element is larger.

The rest is built on top of them:

- `reset` re-seeds the generator, zeroes the counters and clears the highlights.
- `fill` writes `1..n`.
- `shuffle` is a Fisher-Yates shuffle from the last index down to 0.
- `check_sorted` scans adjacent pairs.
- `bubble_sort` does `n` fixed passes.
- `main` runs the phases: fill, then for each sort shuffle, reset, sort, reset,
  `assert(check_sorted())`, reset.

The Dafny project has two modules:

- `AlgorithmsSpec` (`algorithms_spec.dfy`) holds the pure specification:
  - the exchange `Swapped`;
  - the shuffle `ShuffleFrom` / `Shuffled` as a function of the random stream;
  - one bubble pass `BubblePass`, the passes done so far `AfterPasses`, and the
    whole sort `BubbleSorted`;
  - the ordering predicates;
  - the lemmas that state what the source promises about these.
- `Atn` (`algorithms.dfy`) holds the class `Algorithms`:
  - one field per field of the source, with the array as an `array<nat>`;
  - one method per member function, with the source's loops and their
    invariants;
  - each method's `ensures` ties the new array to the specification function
    of the old one, and states the new counters and highlights.

`rand()` is modelled as follows:

- The constant `rand: nat -> nat` is the stream of values the C library returns
  after `srand(seed)`.
- The field `drawn` counts how many values have been taken since the last
  `srand`.
- `Reset`, which calls `srand(seed)`, sets `drawn` back to 0.

The waits on the condition variable happen inside the primitives and `fill`.
They only pace the engine against the drawing thread, so here they are no-ops.

## Notes on the source

- `fill` does not set `name`. The label "Filling..." comes from the
  constructor.
- `check_sorted` tests strict increase: `compare_gt(i + 1, i)` must hold for
  every adjacent pair, so equal neighbours fail the check.
- Bubble sort is the plain version. It always makes `n` outer passes, the
  inner bound is `n - iteration - 1`, and there is no early exit and no
  shrinking boundary. Every `swap` clears the highlights on return, and
  `bubble_sort`'s own body clears them once more, at the end.
- Bubble sort is the only sort that exists. The other names defined in
  `src/algorithms.hpp:22-26` have no implementation, so the datatype `Sort`
  has the single case `Bubble`.

## Model

| member | source | states |
|---|---|---|
| Atn.Algorithms.constructor | src/algorithms.hpp:158-169 | the label starts as "Filling...", the array is empty, both counters are 0, the generator is freshly seeded and nothing is highlighted (the constructor ends with `reset`) |
| Atn.Algorithms.Rand | src/algorithms.hpp:136 | one call of `rand()` returns the next value of the seeded stream and advances the stream by one |
| Atn.Algorithms.Swap | src/algorithms.hpp:46-65 | the new array is the old one with positions `index1` and `index2` exchanged; `swaps` grows by exactly one; `comparisons` is unchanged; on return both swap indices are `INVALID_INDEX` and the comparison set is empty |
| AlgorithmsSpec.Swapped | src/algorithms.hpp:53-55 | the array after exchanging positions `i` and `j`, as `swap` leaves it; it has the length of the input |
| AlgorithmsSpec.SwappedIsExchange | src/algorithms.hpp:53-55 | the exchange puts `s[j]` at `i` and `s[i]` at `j`, leaves every other position unchanged, keeps the length and keeps the multiset, so a swap never breaks the permutation |
| Atn.Algorithms.CompareGt | src/algorithms.hpp:66-81 | returns true exactly when `arr[index1] > arr[index2]`; adds both indices to the comparison set; `comparisons` grows by exactly one; the array, `swaps` and the swap indices are not touched (they are outside its frame) |
| Atn.Algorithms.ClearSwapIndices | src/algorithms.hpp:82-91 | both swap indices become `INVALID_INDEX` and nothing else changes |
| Atn.Algorithms.ClearCompIndices | src/algorithms.hpp:92-100 | the comparison set becomes empty and nothing else changes |
| Atn.Algorithms.Reset | src/algorithms.hpp:101-113 | the stream restarts from its first value (`srand(seed)`), both counters are 0, nothing is highlighted, and the array is unchanged (it is outside the frame) |
| Atn.Algorithms.Fill | src/algorithms.hpp:114-129 | the array is newly allocated with `arraySize` elements and `arr[i] == i + 1` at every position, i.e. it equals `Identity(arraySize)` |
| AlgorithmsSpec.Identity | src/algorithms.hpp:118-120 | the sequence `fill` writes has length `n` and holds `i + 1` at position `i` |
| AlgorithmsSpec.IdentityStrictlyIncreasing | src/algorithms.hpp:118-120 | the filled array is strictly increasing and sorted, so it passes `check_sorted` |
| Atn.Algorithms.Shuffle | src/algorithms.hpp:130-142 | the new array is `Shuffled(old array, rand, old drawn)`; every `rand() % (i + 1)` it computes lies in `0..i`, since the in-bounds requirement of each `Swap` is discharged; exactly `arraySize` values are drawn and `arraySize` swaps counted; `comparisons` is unchanged; the label is "Shuffling..."; for a non-empty array the highlights are clear on exit, and for an empty one they are unchanged |
| AlgorithmsSpec.ShuffleFrom | src/algorithms.hpp:135-137 | shuffling the first `m` positions keeps the length of the array |
| AlgorithmsSpec.ShuffleFromStep | src/algorithms.hpp:135-137 | one iteration of the loop exchanges index `i` with the `k`-th draw modulo `i + 1` and leaves the remaining `i` positions to shuffle with the next draw |
| AlgorithmsSpec.ShuffleFromPermutes | src/algorithms.hpp:135-137 | whatever the draws, shuffling any prefix keeps the multiset of the array |
| AlgorithmsSpec.Shuffled | src/algorithms.hpp:130-142 | the array the whole shuffle leaves, from the last index down to 0, starting at the given draw; it has the length of the input |
| AlgorithmsSpec.ShuffledIsPermutation | src/algorithms.hpp:130-142 | the whole shuffle returns a permutation of its input (same length, same multiset) for every random stream |
| AlgorithmsSpec.StrictlyIncreasing | src/algorithms.hpp:148-150 | the test `check_sorted` applies to each adjacent pair (each element exceeds its predecessor) holds exactly when every element is smaller than every later one |
| Atn.Algorithms.CheckSorted | src/algorithms.hpp:143-155 | returns true exactly when the array is strictly increasing; the label is "Checking..."; `comparisons` grows by `PairsChecked(arr, 0)`, which is the number of pairs up to and including the first failing one, or all `arraySize - 1` pairs when none fails; the positions `0..PairsChecked` are added to the comparison set |
| AlgorithmsSpec.PairsChecked | src/algorithms.hpp:148-151 | the scan compares at most `|s| - 1 - i` pairs, and exactly that many when every remaining pair is increasing |
| AlgorithmsSpec.PairsCheckedStopsAtFirstFailure | src/algorithms.hpp:148-151 | every pair the scan passed before its last comparison is strictly increasing, and the scan either ends on a pair that is not, where `check_sorted` returns false, or no remaining pair fails |
| Atn.CheckedIndices | src/algorithms.hpp:149 | after `c > 0` comparisons `compare_gt(i + 1, i)` have highlighted exactly the positions `0..c`; after none, no position |
| Atn.CheckedIndicesStep | src/algorithms.hpp:70-71 | one more comparison of the pair `(c + 1, c)` adds exactly `c` and `c + 1` to the highlighted set |
| Atn.Algorithms.BubbleSort | src/algorithms.hpp:187-205 | the new array is `BubbleSorted(old array)`, i.e. `n` passes where pass `iteration` compares `(index, index + 1)` for `index < n - iteration - 1` and swaps when out of order; `comparisons` grows by exactly `n(n-1)/2`; `swaps` grows by at most that; the label is "Bubble Sort"; the highlights are clear on exit |
| AlgorithmsSpec.BubblePass | src/algorithms.hpp:193-198 | one inner pass keeps the length of the array |
| AlgorithmsSpec.BubblePassPermutes | src/algorithms.hpp:193-198 | one inner pass keeps the multiset |
| AlgorithmsSpec.BubblePassKeepsTail | src/algorithms.hpp:193 | a pass never touches the positions after its bound |
| AlgorithmsSpec.BubblePassBubblesMax | src/algorithms.hpp:193-198 | a pass carries the largest value of the unsorted prefix to its bound, extending the sorted suffix of largest values by one position |
| AlgorithmsSpec.AfterPasses | src/algorithms.hpp:192-199 | any number of outer passes keeps the length of the array |
| AlgorithmsSpec.AfterPassesPermutes | src/algorithms.hpp:192-199 | any number of outer passes keeps the multiset |
| AlgorithmsSpec.AfterPassesSortsTail | src/algorithms.hpp:192-199 | after `k` outer passes the last `k` positions hold the `k` largest values in ascending order |
| AlgorithmsSpec.AfterPassesKeepTail | src/algorithms.hpp:192-199 | once `k` passes are done, later passes never change the last `k` positions: those values are final |
| AlgorithmsSpec.ComparisonsBefore | src/algorithms.hpp:192-194 | the first `iteration` outer passes over `n` elements make `iteration(2n - iteration - 1)/2` comparisons, which is `n(n-1)/2` for all `n` passes |
| AlgorithmsSpec.BubbleSorted | src/algorithms.hpp:187-205 | the array `bubble_sort` leaves after all `n` outer passes; it has the length of the input |
| AlgorithmsSpec.BubbleSortedIsSortedPermutation | src/algorithms.hpp:187-205 | bubble sort leaves a sorted permutation of its input |
| AlgorithmsSpec.SortedPermutationUnique | src/algorithms.hpp:181 | two sorted sequences with the same multiset are equal, which is why every sort of a shuffled `1..n` gives back `1..n` |
| AlgorithmsSpec.SortedPermutationOfIdentity | src/algorithms.hpp:172-181 | a sorted permutation of `1..n` is `1..n` itself |
| AlgorithmsSpec.BubbleSortUndoesShuffle | src/algorithms.hpp:174-181 | for every random stream, bubble sort applied to the shuffle of `1..n` gives back `1..n`, which is strictly increasing, so `assert(check_sorted())` holds |
| Atn.Algorithms.SortRound | src/algorithms.hpp:174-183 | one round of the loop shuffles, resets, sorts, resets, checks and resets; `check_sorted` returns true, proved at the `assert`, for every random stream; the array is `1..n` again at the end; the recorded shuffle is the shuffle of `1..n` by the stream from its position on entry; on exit the label is "Checking...", the counters are 0, the stream is rewound and nothing is highlighted |
| Atn.Algorithms.RunSorts | src/algorithms.hpp:171-185 | the run loop fills once, then runs one round per sort; on exit the array is `1..n` again; each shuffle is the shuffle of `1..n` by the stream from its current position, which is the freshly seeded stream for every shuffle after the first, so all of those shuffles are the same permutation; after at least one sort the label is "Checking...", the counters are 0, the stream is rewound and nothing is highlighted; with no sorts, everything but the array is as it was |

## Left out

- The condition-variable waits in `swap`, `compare_gt` and `fill`
  (`src/algorithms.hpp:56-59`, `73-76`, `121-124`), the mutex, and the thread
  that runs `main` are left out. They pace the engine against the drawing
  thread, so here they are no-ops. For the same reason, the highlight values
  that are visible only while a primitive waits are not modelled. The model
  states the highlights on return.
- The `sleep_for` delays in `main` (`src/algorithms.hpp:173-183`) are left
  out: they only affect timing.
- `srand`, `rand` and `time(NULL)` are not modelled as such:
  - the seed, and the C library generator itself, are replaced by the
    parameter `rand`;
  - the model relies only on `srand(seed)` restarting the same stream.
- All `#ifdef DEBUG` logging to stderr is left out: it is output only.
- `src/visualizer_drawing_area.hpp`, `src/visualizer_window.hpp` and
  `src/main.cpp` are not part of this model. They hold GTK drawing,
  floating-point bar geometry, the refresh timer and the application shell.
  The drawing area passes the list `{&Algorithms::bubble_sort}`
  (`src/visualizer_drawing_area.hpp:49`), which `RunSorts` models as a
  sequence of `Sort` tags.
- `assert(check_sorted())` in `main` disappears when the program is built
  with `NDEBUG`. The model always performs the check, which changes the label
  and the counters just before the final `reset`.
- The `size_t` counters and indices are unbounded naturals. Wrap-around of
  `comparisons` or `swaps` is not modelled. The narrowing of `size_t` indices
  into the `int` fields `swap_index_1` and `swap_index_2` is not modelled
  either.
- Atn.Algorithms.BubbleSort: the number of swaps is stated only as a bound
  (at most `n(n-1)/2`). Its exact value, the number of inversions of the
  input, is not stated.
- Atn.Algorithms.CheckSorted requires `arraySize >= 1`. With an empty array
  the source computes `array_size - 1` as `size_t`, which wraps around, and
  it would read past the end. When the scan completes, the source reaches the
  end of a function that returns `bool` without a `return` statement, which
  is undefined behaviour; the model returns true on that path. For the same
  reason `SortRound` requires a non-empty array, and so does `RunSorts`
  when it is given sorts.
- Atn.Algorithms.Shuffle, Atn.Algorithms.CheckSorted and
  Atn.Algorithms.BubbleSort require the array to have `arraySize` elements,
  as it does once `fill` has run. Before `fill` the vector is empty, and the
  source would index past its end.
