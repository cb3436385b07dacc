# Dot-product microbenchmark: kernels, chunking and warm-up averaging

This project models the computational core of a small benchmark suite that
times a single-precision dot product of two all-ones vectors of length N,
repeated M times:

- `svw2112/dp1.c` — the plain kernel `dp`, the chunked driver `dp_chunked`
  (runs of at most 2^24 = 16777216 elements), `initialize_vectors`, and a
  `main` that dispatches on N and averages the second half of the timings;
- `svw2112/dp2.c` — the 4-way unrolled kernel `dpunroll`, its chunked driver
  `dpunroll_chunked`, the same fixture, dispatch and averaging;
- `svw2112/dp4.py` — the plain kernel in Python and the same averaging rule.

Element values are exact integers, not floats: the model is about which
indices each loop reads, how the chunked loop tiles `[0, N)`, when each loop
stays in bounds, and whether the chunked and unrolled sums equal the plain
sum. It says nothing about rounding. The C pointer offset `pA + i` passed to
the inner kernel is an index offset `off` into the same array. Sample
durations are an input sequence of naturals, so no clock is read; M is its
length.

Modules: `DotProduct` (`dot.dfy`, the reference sum `DotRange`), `Chunking`
(`chunks.dfy`, `CHUNK_SIZE` and the chunk plan both drivers walk), `WarmUp`
(`warmup.dfy`, the accumulate/average rule all three programs share),
`Vectors` (`vectors.dfy`, `initialize_vectors`, which `dp1.c:30-37` and
`dp2.c:32-39` define identically), and `Dp1`, `Dp2`, `Dp4`, one per program.
Each program's `main` loop is its `Benchmark` method. The warm-up rule of
`dp2.c:84-85,96` and `dp4.py:40-41,46` is the same rule as in `dp1.c:82-83,94`.
Those lines are modelled once, in `WarmUp`, and used by all three `Benchmark`
methods.

In two places the code behaves differently from what its design describes.
The model follows the code:

- For N not a multiple of 4, `dpunroll` does not drop the trailing elements.
  Its loop runs while `j < N` and reads `j .. j+3`, so it reads up to three
  elements past the end (`Dp2.UnrollInBounds`, `Dp2.DpUnroll`).
- The average is not guarded. For M <= 1 the divisor `M / 2` is 0. C then
  divides a double by 0.0 and prints inf or NaN, and Python raises
  ZeroDivisionError. Both are the `DivisionByZero` outcome of
  `WarmUp.AverageTime`.

## Model

| member | source | states |
|---|---|---|
| `DotProduct.DotSplit` | svw2112/dp1.c:21-25 | the sum over `[lo, hi)` is the sum over `[lo, mid)` plus the sum over `[mid, hi)`, which is why adding per-chunk results gives the whole sum |
| `DotProduct.DotReadsOnlyRange` | svw2112/dp1.c:11-12 | the sum over `[lo, hi)` depends on the two vectors only at indices in `[lo, hi)` |
| `DotProduct.DotAllOnes` | svw2112/dp1.c:32-36 | where both vectors hold 1 on `[lo, hi)`, the dot product over that range is `hi - lo` |
| `DotProduct.DotStep4` | svw2112/dp2.c:14-15 | adding the four products `j .. j+3` at once extends the sum from `[lo, j)` to `[lo, j+4)` |
| `Chunking.ChunksFromShape` | svw2112/dp1.c:21-24 | from offset `i`, the driver visits `ceil((N-i)/C)` chunks, and chunk `k` is `(i + k*C, min(C, N - i - k*C))` |
| `Chunking.ChunkPlanShape` | svw2112/dp1.c:21-23 | the driver visits `ceil(N/C)` chunks, with `(count-1)*C < N <= count*C`; chunk `k` starts at `k*C`; every length is in `1..C`; every chunk but the last has length exactly `C`; the last ends at `N` |
| `Chunking.ChunkPlanTiles` | svw2112/dp1.c:21-24 | the first chunk starts at 0, each chunk starts where the previous one ends, and the chunk starts are exactly the multiples of `C` below `N` |
| `Chunking.ChunkContaining` | svw2112/dp1.c:21-24 | every index `x` in `[0, N)` lies in chunk `x / C` and in no other chunk (no gap, no overlap) |
| `Chunking.VisitStep` | svw2112/dp1.c:21-24 | one driver step at `i < N` records chunk `(i, min(C, N-i))` and continues from `i + C` |
| `Vectors.InitializeVectors` | svw2112/dp1.c:30-37 | afterwards every index in `[0, N)` of both arrays holds 1, and every other element is unchanged |
| `Dp1.Dp` | svw2112/dp1.c:8-14 | returns the exact sum of `a[off+j]*b[off+j]` for `j` in `[0, N)`, reading only those indices, and returns 0 for `N <= 0` |
| `Dp1.DpChunked` | svw2112/dp1.c:17-27 | visits exactly the chunk plan for `N` and returns the plain sum over `[0, N)`, so `dp_chunked == dp` under exact arithmetic |
| `Dp1.Dispatch` | svw2112/dp1.c:70-73 | takes the chunked path iff `N > 16777216`; either branch returns the plain sum over `[0, N)` |
| `Dp1.Benchmark` | svw2112/dp1.c:58-94 | with all-ones vectors, each of the M results is `N`, and the average is the total of samples `M/2 .. M-1` divided by `M/2`, or `DivisionByZero` |
| `Dp2.Padded` | svw2112/dp2.c:13-15 | the end of the range `dpunroll` reads is the least multiple of 4 that is `>= N`, and 0 for `N <= 0` |
| `Dp2.UnrollInBounds` | svw2112/dp2.c:13-15 | the reads stay below `N` iff `N <= 0` or `N % 4 == 0`; otherwise they run 1 to 3 elements past `N` |
| `Dp2.PaddedStep` | svw2112/dp2.c:13 | a step of `j += 4` taken from a multiple of 4 below `N` stays within `Padded(N)` |
| `Dp2.PaddedExit` | svw2112/dp2.c:13 | the loop `j = 0, 4, 8, ...` stops exactly at `Padded(N)` |
| `Dp2.PaddedShift` | svw2112/dp2.c:25-26 | padding a chunk that starts at a multiple of 4 ends where padding the whole prefix ends, and never beyond `Padded(N)` |
| `Dp2.ChunkReadEnd` | svw2112/dp2.c:23-26 | the unrolled call on a chunk reads up to the next chunk's start or, for the final chunk, up to `Padded(N)`, and never beyond |
| `Dp2.ChunkLoopExit` | svw2112/dp2.c:23 | when the chunked loop stops, the reads have covered exactly `[0, Padded(N))` |
| `Dp2.DpUnroll` | svw2112/dp2.c:9-17 | needs `Padded(N)` readable elements and `N <= 2^31 - 4` so the `int` counter cannot overflow; returns the sum over `[0, Padded(N))`, which is the plain sum when `N % 4 == 0` |
| `Dp2.DpUnrollChunked` | svw2112/dp2.c:20-29 | visits exactly the chunk plan for `N` and passes each call a length of at most `CHUNK_SIZE`, so no call's counter overflows; returns the sum over `[0, Padded(N))`, which equals `dpunroll` over the whole range and the plain sum when `N % 4 == 0` |
| `Dp2.OnlyFinalChunkOverReads` | svw2112/dp2.c:23-26 | chunk `k`'s reads go past `N` iff `k` is the final chunk and `N % 4 != 0` |
| `Dp2.Dispatch` | svw2112/dp2.c:72-75 | takes the chunked path iff `N > CHUNK_SIZE`, and calls `dpunroll` directly only with `N <= 2^24`; both branches return the sum over `[0, Padded(N))` |
| `Dp2.Benchmark` | svw2112/dp2.c:60-96 | for `N % 4 == 0` with all-ones vectors, each of the M results is `N`, and the average is the second-half total divided by `M/2`, or `DivisionByZero` |
| `Dp2.DpUnrollWithTail` | svw2112/dp2.c:9-17 | corrected kernel: four products per step while four elements remain, then one per step; it reads only `[off, off+N)` and returns the plain sum for every `N` |
| `Dp4.Dp` | svw2112/dp4.py:5-9 | needs `N <= len(A)` and `N <= len(B)`; returns the sum of `A[j]*B[j]` over `range(0, N)`, and 0 for `N <= 0` |
| `Dp4.Ones` | svw2112/dp4.py:32-33 | the fixture array has length `N` and holds 1 everywhere |
| `Dp4.Benchmark` | svw2112/dp4.py:32-46 | each of the M results is `N`, and the mean is the second-half total divided by `M // 2`, or `DivisionByZero` where Python raises |
| `WarmUp.AccumulateStep` | svw2112/dp1.c:82-83 | iteration `i` adds its duration to the running total iff `i >= M/2`, and otherwise leaves the total unchanged |
| `WarmUp.AccumulatedPrefixIsSlice` | svw2112/dp1.c:82-83 | after the first `k` iterations, the accumulated samples are exactly samples `min(k, M/2) .. k-1`, in order |
| `WarmUp.AccumulatedIsSecondHalf` | svw2112/dp1.c:82-94 | over the whole run the accumulated samples are the last `M - M/2`; the divisor `M/2` is 0 iff `M <= 1`, is one less than that count when `M` is odd, and equals it when `M` is even |
| `WarmUp.AverageTime` | svw2112/dp1.c:94 | the average is `DivisionByZero` iff `M <= 1`; otherwise, multiplied by `M/2`, it gives back the accumulated total |
| `WarmUp.OddCountOverstatesMean` | svw2112/dp1.c:94 | for `M >= 2` equal durations `c > 0`, the reported average is `(M - M/2)*c / (M/2)`; it equals `c` iff `M` is even and exceeds `c` when `M` is odd |
| `WarmUp.KeptMean` | svw2112/dp1.c:94 | corrected average: the total divided by the number of accumulated samples `M - M/2`; `DivisionByZero` only for `M == 0` |
| `WarmUp.KeptMeanOfConstant` | svw2112/dp1.c:94 | for any `M >= 1` equal durations `c`, the corrected average is exactly `c` |

## Findings

| source | as written | input that shows it | evidently intended | confidence | as-written member | corrected member |
|---|---|---|---|---|---|---|
| svw2112/dp2.c:13-15 | `for (j = 0; j < N; j += 4)` reads `pA[j+1..j+3]` with no remainder loop | N = 5: the loop reads indices 5, 6 and 7 of a 5-element allocation (`Padded(5) == 8`) | sum `[0, N)` and read nothing past `N-1` | not executed; high | `Dp2.DpUnroll` | `Dp2.DpUnrollWithTail` |
| svw2112/dp1.c:94 | `cumulative_time / (num_measurements / 2)` after accumulating `M - M/2` samples (same in svw2112/dp2.c:96 and svw2112/dp4.py:46) | M = 3, every sample 1 s: two samples are accumulated, the divisor is 1, and the reported average is 2 s; M = 1 divides by 0 | divide by the number of accumulated samples | not executed; high | `WarmUp.OddCountOverstatesMean` | `WarmUp.KeptMeanOfConstant` |

The drivers, dispatch methods and `Benchmark` methods model the programs as
written. So `Dp2.DpUnrollChunked`, `Dp2.Dispatch` and `Dp2.Benchmark` use
`Dp2.DpUnroll`, and the three `Benchmark` methods report `WarmUp.AverageTime`.
The corrected members stand beside them and state the intended behaviour.

## Left out

- Floating-point rounding, and any claim that chunking bounds the rounding error: all sums are exact integer sums.
- Timing: `clock_gettime` and `time.monotonic` (svw2112/dp1.c:67-79, svw2112/dp4.py:11-16). Durations are an input sequence.
- Bandwidth and FLOP-rate computations (svw2112/dp1.c:86-87, 95-96; svw2112/dp4.py:18-21): float divisions with no integer content. In svw2112/dp4.py a zero `elapsed_time` (line 43) or `mean_time` (line 47) makes `bandwidth` raise ZeroDivisionError and end the run, where the C programs print inf; `Dp4.Benchmark` accepts zero durations and returns normally, so it does not capture that abort.
- Argument parsing, usage message, `malloc`/`free` and all printing: I/O glue. `Benchmark` allocates its vectors with Dafny arrays that cannot fail.
- svw2112/dp3.c and svw2112/dp5.py: their kernels are calls into a vendor BLAS and NumPy, which are not part of this model. Their harnesses repeat the same warm-up rule.
- Dp1.Benchmark, Dp2.Benchmark, Dp4.Benchmark: N and M are naturals. A negative count from `atol`/`atoi` or `argparse` is not modelled.
- Dp1.DpChunked, Dp2.DpUnrollChunked: the `long` counter `i` is unbounded. The wrap of `i += chunk_size` for N within 2^24 of 2^63 is not modelled, since a 4N-byte allocation of that size fails first.
- Dp2.Benchmark: requires `N % 4 == 0`. For other N the program reads past its allocation, which is undefined behaviour in C, so the model gives that run no meaning. The over-read itself is stated by `Dp2.DpUnroll` and `Dp2.OnlyFinalChunkOverReads`.
- WarmUp.AverageTime: the C programs yield inf or NaN for M <= 1, and Python raises. The model does not tell these apart; both are `DivisionByZero`.
