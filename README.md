# HIPI covariance example and downloader record reader, modelled in Dafny

This project models two parts of the HIPI example programs.

The first is the covariance example, a pair of Hadoop jobs run one after the other:

- **Phase 1, the mean job.** `MeanMap` samples a fixed 10 x 10 grid of N x N grayscale patches from every image that is strictly larger than a patch. It writes the mean of those patches under key 0. `MeanReduce` averages whatever it receives, and it is installed both as the combiner and as the reducer.
- **Phase 2, the covariance job.** `CovarianceMap.setup` builds a Gaussian mask and normalises it so that its weights add up to N·N. It also loads the phase-1 mean. `CovarianceMap.map` centres each grid patch on that mean and masks it. It then writes the N²-by-N² sum of the outer products of the 100 resulting vectors. `CovarianceReduce` is also both combiner and reducer, and it adds these matrices elementwise.
- **The driver.** `run` starts phase 2 only when phase 1 did not fail. `main` then exits.

The second is `DownloaderRecordReader`. It turns a split of a text file into a single record. The key is the split's first line number. The value is the split's lines, each followed by `'\n'`.

Modules:

- `Vectors`: `FloatImage` buffers as `seq<real>`, with `add` and `scale`, sums over lists, and row-major indices.
- `PatchGrid`: the image abstraction, the skip rule, the grid offsets and the list of patches.
- `MeanJob`: phase 1.
- `CovarianceJob`: phase 2. Its class `CovarianceMapper` holds the mapper's fields `gaussianArray` and `mean`, which `Setup` assigns. The per-image patch array is an `array2` and the covariance buffer an `array`, both filled by the source's loops.
- `Pipeline`: `run` and `main`. The outcome of each Hadoop job is an input.
- `Downloader`: the record reader, as a class with the source's three fields. The file is a sequence of lines.

How the model differs from the Java:

- The patch size N (48 in the source) is a parameter `n`. Stated with `n`, the properties hold for every patch size, and so for 48.
- The image library is not part of this model. An `Image` carries its width, its height and a crop function that stands for `crop(x, y, N, N).convert(RGB2GRAY).getData()`. `Fits` states the one fact about it the model relies on: an in-bounds crop yields N·N samples.
- A null image is `None`.
- `run` returns 1 when a job fails (Covariance.java:224, 259, 271-272), but `main` discards that result and calls `System.exit(0)` (Covariance.java:277-278). The model follows the code and records the difference under Findings, next to a second one about the mean job's combiner (Covariance.java:205).

## Model

| member | source | states |
|---|---|---|
| PatchGrid.Usable | examples/hipi/examples/covariance/Covariance.java:41 | the skip rule of both mappers (also at line 130), defined as a non-null image strictly wider and taller than N: an image it accepts yields the full 10 x 10 grid of patches |
| PatchGrid.Offset | examples/hipi/examples/covariance/Covariance.java:50 | the offset `(W - N) * i / count` of lines 50, 52, 136 and 138 is the truncated quotient: non-negative, with `offset * count <= (W - N) * i < offset * count + count` |
| PatchGrid.GridPatches | examples/hipi/examples/covariance/Covariance.java:49-53 | the grid has exactly `xCount * yCount` patches |
| PatchGrid.OffsetInBounds | examples/hipi/examples/covariance/Covariance.java:50-52 | for every grid index the offset `(W - N) * i / count` is non-negative, leaves room for a whole patch, and is 0 for the first index |
| PatchGrid.OffsetMonotone | examples/hipi/examples/covariance/Covariance.java:50 | offsets never decrease along the grid |
| PatchGrid.GridPatchLengths | examples/hipi/examples/covariance/Covariance.java:53 | every patch of a usable image is a whole N·N window |
| PatchGrid.GridPatchAt | examples/hipi/examples/covariance/Covariance.java:135-143 | slot `i * 10 + j` holds the crop at the offsets of grid cell `(i, j)` |
| Vectors.Zeros | examples/hipi/examples/covariance/Covariance.java:48 | a freshly allocated image (`new FloatImage` at lines 48, 68 and 170) has the given number of samples, all zero |
| Vectors.Add | examples/hipi/examples/covariance/Covariance.java:54 | `add` (lines 54, 71 and 173) keeps the buffer size; the definition adds the two buffers sample by sample |
| Vectors.Scale | examples/hipi/examples/covariance/Covariance.java:57 | `scale` (lines 57 and 75) keeps the buffer size; the definition multiplies every sample by the factor |
| Vectors.FlatIndexBound | examples/hipi/examples/covariance/Covariance.java:148-151 | a row-major index `i * w + j` with `i < h` and `j < w` lies inside an `h * w` buffer, so every covariance index is below N⁴ |
| Vectors.FlatIndexDecode | examples/hipi/examples/covariance/Covariance.java:151 | a row-major index decodes back to its row and its column |
| Vectors.FlatIndexOnto | examples/hipi/examples/covariance/Covariance.java:148-151 | every index `s` of the buffer is the row-major index of the pair `(s / w, s % w)` |
| Vectors.FlatIndexRange | examples/hipi/examples/covariance/Covariance.java:148-151 | the row `s / w` and the column `s % w` of every index of an `h * w` buffer are in range |
| Vectors.FlatIndexInjective | examples/hipi/examples/covariance/Covariance.java:143 | distinct (row, column) pairs get distinct slots, so slots `i * 10 + j` never collide |
| Vectors.SumVectorsAppend | examples/hipi/examples/covariance/Covariance.java:172-174 | adding in a concatenation of two batches equals adding the two partial sums |
| Vectors.SumVectorsFlatten | examples/hipi/examples/covariance/Covariance.java:238-239 | summing the sums of any grouping equals summing all the values |
| Vectors.SumVectorsCopies | examples/hipi/examples/covariance/Covariance.java:70-75 | adding `m` copies of a vector gives the vector scaled by `m` |
| Vectors.AddSymmetric | examples/hipi/examples/covariance/Covariance.java:173 | the elementwise sum of two symmetric matrices is symmetric |
| Vectors.SumVectorsSymmetric | examples/hipi/examples/covariance/Covariance.java:170-174 | any sum of symmetric matrices, including the zero matrix, is symmetric |
| MeanJob.GenerateMeanImage | examples/hipi/examples/covariance/Covariance.java:47-59 | the nested loop produces the sum of the grid patches scaled by one over their number |
| MeanJob.AddGridRow | examples/hipi/examples/covariance/Covariance.java:51-55 | the inner loop adds exactly the patches of one grid row, in slot order, to the running sum |
| MeanJob.GridMeanIsMeanOfPatches | examples/hipi/examples/covariance/Covariance.java:47-59 | that result is the mean of the `xCount * yCount` grid patches |
| MeanJob.MeanMap | examples/hipi/examples/covariance/Covariance.java:41-44 | it writes nothing exactly when the image is null or not strictly larger than a patch in both directions; otherwise it writes the 10 x 10 grid mean under key 0 |
| MeanJob.MeanReduce | examples/hipi/examples/covariance/Covariance.java:68-77 | it writes nothing exactly when no value arrives; otherwise it writes the elementwise mean of the values under the same key |
| MeanJob.MeanOfCopies | examples/hipi/examples/covariance/Covariance.java:68-77 | averaging copies of one image gives that image back |
| MeanJob.MeanOfZeroAndOne | examples/hipi/examples/covariance/Covariance.java:68-77 | an all-zero and an all-one image average to 0.5 at every pixel |
| MeanJob.MeanCombinerRegroups | examples/hipi/examples/covariance/Covariance.java:205-206 | with the reducer as combiner, the written mean depends on grouping: means 0, 0 and 3 average to 1, but 1.5 after combining the first two |
| MeanJob.CombineSummarize | examples/hipi/examples/covariance/Covariance.java:205 | merging (sum, count) summaries of two batches gives the summary of both |
| MeanJob.SummaryGrouping | examples/hipi/examples/covariance/Covariance.java:205-206 | with (sum, count) summaries, any grouping finishes to the mean of all values |
| CovarianceJob.CovarianceMapper.Setup | examples/hipi/examples/covariance/Covariance.java:88-107 | the mask holds each raw Gaussian weight times N·N over their sum; the mean is the loaded artifact |
| CovarianceJob.StoreWeights | examples/hipi/examples/covariance/Covariance.java:91-101 | the first loop pair stores every weight at `i * N + j` and leaves `gaussianSum` equal to their total |
| CovarianceJob.NormalizeWeights | examples/hipi/examples/covariance/Covariance.java:102-107 | the second loop pair multiplies every weight by `N * N / gaussianSum` and changes nothing else |
| CovarianceJob.SumRealsPositive | examples/hipi/examples/covariance/Covariance.java:96-99 | the sum of positive weights is positive, so the normalising division is defined |
| CovarianceJob.Normalized | examples/hipi/examples/covariance/Covariance.java:105 | the normalisation keeps one weight per pixel; the definition multiplies weight `k` by `N·N / gaussianSum`, and `NormalizedSum` proves what the result adds up to |
| CovarianceJob.NormalizedSum | examples/hipi/examples/covariance/Covariance.java:102-107 | the normalised mask adds up to N·N and every weight stays positive |
| CovarianceJob.CovarianceMapper.CollectPatches | examples/hipi/examples/covariance/Covariance.java:132-146 | row `i * 10 + j` of the patch array is grid patch `(i, j)` centred on the mean and multiplied by the mask |
| CovarianceJob.Window | examples/hipi/examples/covariance/Covariance.java:143 | centring and masking keep one sample per pixel, and the mean patch itself centres to the zero vector; the definition makes sample `k` equal to `(pels[k] - mean[k]) * gaussianArray[k]` |
| CovarianceJob.StoreWindow | examples/hipi/examples/covariance/Covariance.java:141-144 | the `k` loop fills one row with `(pels[k] - mean[k]) * gaussianArray[k]` and leaves the other rows alone |
| CovarianceJob.CovarianceMapper.AccumulateCovariance | examples/hipi/examples/covariance/Covariance.java:148-157 | entry `i * N * N + j` of the buffer is the sum over the 100 patches of `patch[i] * patch[j]` |
| CovarianceJob.AccumulateEntry | examples/hipi/examples/covariance/Covariance.java:151-155 | one entry is reset and then accumulates the products of columns `i` and `j`; the other entries are unchanged |
| CovarianceJob.CovarianceMapper.Map | examples/hipi/examples/covariance/Covariance.java:128-160 | the same skip rule as phase 1; otherwise it writes, under key 0, the outer-product sum of the centred, masked grid patches, and that matrix is symmetric |
| CovarianceJob.OuterSumSymmetric | examples/hipi/examples/covariance/Covariance.java:154 | swapping `i` and `j` does not change an accumulated entry |
| CovarianceJob.CovarianceSymmetric | examples/hipi/examples/covariance/Covariance.java:148-157 | the per-image covariance buffer is a symmetric matrix |
| CovarianceJob.CovarianceOfCopies | examples/hipi/examples/covariance/Covariance.java:148-157 | `m` equal vectors `v` give entries `m * v[p] * v[q]` |
| CovarianceJob.MeanPatchAddsNothing | examples/hipi/examples/covariance/Covariance.java:143 | a patch equal to the mean is centred to the zero vector and leaves the matrix unchanged |
| CovarianceJob.CentredSumAt | examples/hipi/examples/covariance/Covariance.java:143 | pixel `k` of the sum of centred, masked patches is `(sum of the patches at k - count * mean[k]) * mask[k]` |
| CovarianceJob.CentredOnOwnMean | examples/hipi/examples/covariance/Covariance.java:135-143 | 100 patches centred on their own mean and masked add up to the zero vector, whatever the mask |
| CovarianceJob.CentredGridSumsToZero | examples/hipi/examples/covariance/Covariance.java:135-143 | both phases sample the same grid: centred on the image's own phase-1 mean, the 100 patches sum to zero at every pixel |
| CovarianceJob.CovarianceReduce | examples/hipi/examples/covariance/Covariance.java:170-176 | it always writes, under the same key, the elementwise sum of the values, which is the zero matrix when none arrives |
| CovarianceJob.CovarianceCombinerGrouping | examples/hipi/examples/covariance/Covariance.java:238-239 | as a combiner it is transparent: reducing the sums of any grouping gives the sum of all values |
| CovarianceJob.CovarianceReduceOrder | examples/hipi/examples/covariance/Covariance.java:172-174 | the order in which batches of values arrive does not change the sum |
| CovarianceJob.ReducedCovarianceSymmetric | examples/hipi/examples/covariance/Covariance.java:170-176 | reducing symmetric per-image matrices gives a symmetric matrix |
| Pipeline.RunJob | examples/hipi/examples/covariance/Covariance.java:208-224 | an unknown format exits with 0 and submits nothing; otherwise the job is submitted and 0 is returned exactly on success, 1 otherwise |
| Pipeline.Run | examples/hipi/examples/covariance/Covariance.java:262-274 | fewer than three arguments exit with 0 and start nothing; the covariance job starts only after a successful mean job; 0 is returned exactly when the format is right and both jobs succeed |
| Pipeline.RunStopsAfterFailedMean | examples/hipi/examples/covariance/Covariance.java:270-272 | a failed mean job makes `run` return 1 without starting the covariance job |
| Pipeline.RunReturnsCovarianceResult | examples/hipi/examples/covariance/Covariance.java:270-273 | after a successful mean job, `run` returns the covariance job's result |
| Pipeline.MainExitStatus | examples/hipi/examples/covariance/Covariance.java:276-279 | on every path on which `run` returns or calls `System.exit`, the process exits with status 0 |
| Pipeline.MainHidesFailure | examples/hipi/examples/covariance/Covariance.java:276-279 | `run` can return 1 while the process still exits with 0 |
| Pipeline.MainExitStatusPropagated | examples/hipi/examples/covariance/Covariance.java:276-279 | exiting with `run`'s status gives 1 exactly when the format is right and a job failed |
| Downloader.FirstKept | examples/hipi/examples/downloader/DownloaderRecordReader.java:38-41 | the skip loop's stopping line is never past the end of the file |
| Downloader.EndKept | examples/hipi/examples/downloader/DownloaderRecordReader.java:45-47 | the append loop stops between the first kept line and the end of the file |
| Downloader.DownloaderRecordReader.Initialize | examples/hipi/examples/downloader/DownloaderRecordReader.java:27-50 | the value is the split's lines, each followed by `'\n'`; the start line is the split's start and the record is not yet emitted |
| Downloader.DownloaderRecordReader.NextKeyValue | examples/hipi/examples/downloader/DownloaderRecordReader.java:82-89 | it returns true exactly on the first call, and the record counts as emitted from then on |
| Downloader.DownloaderRecordReader.GetProgress | examples/hipi/examples/downloader/DownloaderRecordReader.java:57-63 | the progress is 1 exactly when the record was emitted, and 0 before |
| Downloader.ToInt32 | examples/hipi/examples/downloader/DownloaderRecordReader.java:72 | the `(int)` cast keeps the value modulo 2³² in the 32-bit range, and leaves in-range values alone |
| Downloader.DownloaderRecordReader.GetCurrentKey | examples/hipi/examples/downloader/DownloaderRecordReader.java:71-73 | the key is a 32-bit value, equal to the start line whenever that fits |
| Downloader.DownloaderRecordReader.GetCurrentValue | examples/hipi/examples/downloader/DownloaderRecordReader.java:77-79 | the value is the joined lines, read without change |
| Downloader.ReadOneSplit | examples/hipi/examples/downloader/DownloaderRecordReader.java:56-89 | on a fresh reader: progress 0, one record with the start line and the joined lines, then no more records and progress 1 |
| Downloader.StartPastEnd | examples/hipi/examples/downloader/DownloaderRecordReader.java:38-47 | a start at or past the end of the file gives an empty value |
| Downloader.SelectedCount | examples/hipi/examples/downloader/DownloaderRecordReader.java:38-47 | the split holds `min(length, max(0, lines - max(start, 0)))` lines, none for a non-positive length, and they are the file's lines from the start on |
| Downloader.JoinLinesNewlines | examples/hipi/examples/downloader/DownloaderRecordReader.java:45-47 | the value holds one `'\n'` per kept line and ends with one |
| Downloader.ReadJoinedLines | examples/hipi/examples/downloader/DownloaderRecordReader.java:45-47 | reading the value back line by line gives exactly the kept lines |

## Left out

- The Hadoop framework is not modelled: job configuration, input and output formats, compression, speculative execution and the `Context` objects. A mapper's or reducer's output is its return value: `None` when nothing is written, and one (key, value) pair otherwise. Each job's success is a boolean input of `Pipeline.Run`.
- `mkdir`, `rmdir`, the output paths and the distributed-cache URI are file-system effects. They are not modelled, and neither is the `URISyntaxException` that building the URI can throw.
- Loading the mean artifact in `setup`, including the 4 skipped bytes, `readFields` and the swallowed `IOException`, is not modelled. The loaded mean is a parameter of `Setup`, with N·N samples.
- The two-dimensional Gaussian formula with `Math.exp` and sigma 10 is not modelled. Its values are a parameter of `Setup`, required to be positive, as every `exp` value is.
- CovarianceJob.CovarianceMapper.Setup: uses exact real arithmetic, so it does not capture 32-bit float rounding. The "sum is N·N" property is exact only in the model. The same holds for every `float` computation in both jobs.
- The `FloatImage` library, the image decoding and the RGB-to-gray conversion are not part of this model. They are abstracted by `Image.crop`, and an out-of-bounds crop is never taken, because `OffsetInBounds` holds.
- The mappers' `int` arithmetic `(W - N) * i` is not modelled with overflow. It cannot overflow for any image whose pixel count fits in an `int`.
- A call of `map` before `setup` is not modelled: `Map` requires the state `Setup` establishes.
- `Downloader.DownloaderRecordReader.Initialize`: the Java loop counter `i` is an `int` compared with `long` bounds, so it could wrap after 2³¹ lines. The model counts without wrapping.
- `Downloader.DownloaderRecordReader.Initialize` also leaves out the `FileSystem` and `BufferedReader` plumbing and `reader.close()`. The file arrives as its sequence of lines, without terminators, and every `readLine` is the next element.
- `urls` is null between construction and `initialize` in Java. The model's constructor sets it to the empty string.
- `close` of the record reader does nothing, so it has no model.
- An `IOException` or an `InterruptedException` from the framework is not modelled.
- Pipeline.MainExitStatus: covers only the paths on which `run` returns or calls `System.exit`. `run` and `main` are declared `throws Exception`, and an exception that escapes `main` ends the JVM with a non-zero status. Examples are an input directory that does not exist, for which `waitForCompletion` throws, and an output path with a space in it, for which `new URI("hdfs://" + args[1] + ...)` at Covariance.java:232 throws `URISyntaxException` after the mean job has succeeded. Exceptions are not modelled, so "always 0" holds only on the paths the model has.
- The usage text that `run` prints is not modelled. Only its exit status is.
- `ToolRunner.run`'s parsing of Hadoop's generic options (`-D`, `-conf` and the like) is not modelled. The `args` of `Pipeline.Run` and `Pipeline.MainExitStatus` are the arguments left after that parsing, not the ones `main` received.

## Findings

| source | as written | input that shows it | evidently intended | confidence | as-written member | corrected member |
|---|---|---|---|---|---|---|
| examples/hipi/examples/covariance/Covariance.java:205 | `MeanReduce` is also the combiner. It averages its inputs, so the reducer averages partial means as if each were a single image, and the result depends on how values are grouped. | per-image means `[0]`, `[0]`, `[3]`, with the first two combined on one node: the output is `[1.5]` instead of `[1]` | a grouping-independent combiner that carries each partial sum together with its count | medium, not executed | MeanJob.MeanCombinerRegroups | MeanJob.SummaryGrouping |
| examples/hipi/examples/covariance/Covariance.java:277-278 | `main` discards the status that `run` returns and exits with 0 on every path on which `run` returns, so a failed job is reported as success (an exception escaping `run` is not modelled and still ends the process with a non-zero status) | arguments `in out hib` with a failing mean job: `run` returns 1 and the process exits with 0 | exit with the status that `run` returned | high, not executed | Pipeline.MainHidesFailure | Pipeline.MainExitStatusPropagated |
