# ParticleMotionTools, modelled in Dafny

ParticleMotionTools estimates time-varying particle-motion ellipses of
three-component (3C) seismograms, using a multiwavelet transform. It also
ships a set of Unix-style filters that edit serialized 3C ensembles. This
project models the structural logic of that code in Dafny and proves its
properties. The logic covered is validation, index arithmetic, loops,
counters, tables and output layout. The numerics are left abstract.

What is modelled, one Dafny module per source file:

- **libmwtpp**
  - `MWTWaveform`, `MWTMatrix`, `MWTBundle`: the band × wavelet table of transformed waveforms. Covers the row-major layout, range tests, per-band getters and the ensemble constructor's sample-rate check.
  - `PMTimeSeries`: both particle-motion series constructors, with their validation and loops. Also the range-checked accessors, the derived scalar series and `zero_gaps`, which is kept as an in-place class method.
  - `ParticleMotionEllipse`, `ParticleMotionError`: the ellipse and error records. Covers major/minor selection, sign resolution against an up vector, rectilinearity, `points` and `operator<<`.
  - `Vector3DBootstrapError`: the bootstrap angular confidence estimate. Covers resampling, the componentwise median, the sort (module `Sorting`) and the quantile index.
  - `RegularizeAngle`: angle reduction, in degrees and radians.
  - `HFArray`: the station coordinate table and plane-wave moveout.
- **libseispp_io**
  - `SeisppIOStream`: the `TextIOStreamReader` and `TextIOStreamWriter` framing. Covers the object counters, the tags between objects and the 64-byte end-of-file trailer.
- **VTK writers**
  - `ParticleMotionData`: raw and cooked particle motion and the amplitude maxima.
  - `VtpPolyData`: the shared VTK XML PolyData layout.
  - `PMTseriesVtpWriter`: the ellipse writer.
  - `ParaviewVtpWriter`: the time-window writer.
- **seispp filters**
  - `SetMetadata`, `ListHdr`, `Sort1`, `Gather`, `SetCoords`;
  - `Zeropad`, `LinearMoveout`, `Sphdiv`, `PeakScaling`.
- **programs**
  - `SU3CEnsembleConverter`;
  - `Mwpm`: parameter checks, the constructor choice and the output file rule.

Shared modules:

- `Failures` holds the `Result` type. A C++ `throw` is `Throw(message)` and `exit(n)` is `Exit(n)`.
- `MetadataMaps` holds typed attribute maps and the Metadata getters.
- `Seismograms` holds 3C seismograms and ensembles. Component c of sample j is stored at `u[3*j + c]`.
- `Geometry`, `Numerics`, `TextTokens` and `DecimalText` hold vectors, numeric oracles, output tokens and integer text.

Library routines whose source is not part of this model become parameters. They are given only the contracts the code relies on:

- square root, trigonometry, `pow` and `dnrm2`;
- the SVD, the multiwavelet transform and `ComputePMStats`;
- `random_array_index` and `nint`/`sample_number`;
- `PeakAmplitude`, rotation and UTM conversion;
- matrix printing and number formatting.

A value-like C++ class becomes a datatype, so its copy constructor and assignment are value copies. An object the source updates in place stays a class with `modifies` clauses. Examples are `PMTimeSeries`, the reader and writer, `ParticleMotionData`, `MDTable` and `EnsembleCoordinates`.

Where the code does something its authors evidently did not intend, two members exist:

- one models the code as written;
- the other models the intended behaviour.

The rest of the model uses the corrected member. See "## Findings".

## Model

| member | source | states |
|---|---|---|
| Seismograms.Scaled | bin/seispp_filters/sphdiv/sphdiv.cc:101 | dscal(n, s, u): the first n samples multiplied by s, the rest unchanged, the length kept |
| Seismograms.ScaleSamples | bin/seispp_filters/sphdiv/sphdiv.cc:101 | the dscal loop computes the scaled buffer |
| PMTimeSeries.PostedReadable | lib/libmwtpp/PMTimeSeries.cc:33-43 | the posted header reads back averaging_length, f0, fw, decfac and nsamp with their types, and samprate as 1/dt whenever dt is non-zero |
| PMTimeSeries.LoadedInOrder | lib/libmwtpp/PMTimeSeries.cc:86-91 | the component load succeeds exactly when every x, y and z lookup of wavelets 0..n-1 succeeds, and then holds those n waveforms per component in wavelet order |
| PMTimeSeries.LoadComponents | lib/libmwtpp/PMTimeSeries.cc:193-198 | the load loop returns the three component vectors of the band, or the error of the first lookup that throws |
| PMTimeSeries.LoadedFailurePersists | lib/libmwtpp/PMTimeSeries.cc:86-91 | once a lookup has thrown, loading more wavelets returns that same error |
| PMTimeSeries.SampleCheck | lib/libmwtpp/PMTimeSeries.cc:208-227 | no message exactly when every wavelet checked has x, y and z of ns samples starting at t0 |
| PMTimeSeries.CheckSamples | lib/libmwtpp/PMTimeSeries.cc:208-227 | the sample-by-sample sanity loop reports the first wavelet with a size or start-time mismatch, or nothing when all agree |
| PMTimeSeries.SampleCheckFailurePersists | lib/libmwtpp/PMTimeSeries.cc:208-227 | the first mismatch found stays the reported one however many more wavelets are checked |
| PMTimeSeries.CongruentHasSamples | lib/libmwtpp/PMTimeSeries.cc:202-227 | components that pass the check hold ns samples each, so the per-sample loop reads inside every waveform |
| PMTimeSeries.SampleEllipses | lib/libmwtpp/PMTimeSeries.cc:234-237 | sample i yields one ellipse per wavelet |
| PMTimeSeries.SampleData | lib/libmwtpp/PMTimeSeries.cc:232-242 | the per-sample loop produces exactly ns averages and ns error estimates |
| PMTimeSeries.SampleLoop | lib/libmwtpp/PMTimeSeries.cc:228-242 | the loop over samples builds the same averages and errors as the per-sample statistics of the wavelet ellipses |
| PMTimeSeries.SampleBySampleErrors | lib/libmwtpp/PMTimeSeries.cc:171-177 | a band at or above the band count throws the band message; a negative band fails; a bundle with fewer than three members throws operator()'s member range message for the first missing member |
| PMTimeSeries.SampleBySampleShape | lib/libmwtpp/PMTimeSeries.cc:179-245 | a built series has one sample per input sample, each the statistics of the nw analytic ellipses at that sample, averaging length 1, and the band's f0, fw, decimation and sample interval recorded |
| PMTimeSeries.AverageCheck | lib/libmwtpp/PMTimeSeries.cc:106-122 | no message exactly when every wavelet checked has components of equal length starting at t0 |
| PMTimeSeries.CheckAverages | lib/libmwtpp/PMTimeSeries.cc:106-122 | the time-averaged sanity loop reports the first mismatching wavelet, or nothing |
| PMTimeSeries.AverageCheckFailurePersists | lib/libmwtpp/PMTimeSeries.cc:106-122 | the first mismatch found stays the reported one |
| PMTimeSeries.SampleSpanIsNsMinusOne | lib/libmwtpp/PMTimeSeries.cc:125-126 | the span (endtime - t0)/dt of a waveform is ns - 1 samples |
| PMTimeSeries.AcceptedWindowsShape | lib/libmwtpp/PMTimeSeries.cc:143-158 | window k starts k steps after the centred t0, every accepted window ends before the data end time, at most ns of them are taken, and when fewer are taken the next would not end in time |
| PMTimeSeries.AcceptedWindowsStep | lib/libmwtpp/PMTimeSeries.cc:144-157 | a window that ends in time is taken and the scan moves on one step |
| PMTimeSeries.WindowEllipses | lib/libmwtpp/PMTimeSeries.cc:150-151 | the windowed estimate of every wavelet over one window, succeeding exactly when each one does |
| PMTimeSeries.EstimateWindow | lib/libmwtpp/PMTimeSeries.cc:150-151 | the inner wavelet loop returns the windowed ellipses of all wavelets, or the first estimate's error |
| PMTimeSeries.WindowEllipsesFailurePersists | lib/libmwtpp/PMTimeSeries.cc:150-151 | the first failing estimate ends the inner loop with its error |
| PMTimeSeries.WindowAveragesInOrder | lib/libmwtpp/PMTimeSeries.cc:144-158 | succeeds exactly when every window's estimates do; sample k is the statistics of the k-th window's ellipses, in window order |
| PMTimeSeries.AcceptedWindowsCount | lib/libmwtpp/PMTimeSeries.cc:144-158 | the loop accepts at most as many windows as it has steps, and stops early only at the first window whose end reaches the end of the data |
| PMTimeSeries.AcceptedWindowsAt | lib/libmwtpp/PMTimeSeries.cc:144-158 | the k-th accepted window starts k steps after the first and is averaging-length long, and its end lies before the end of the data |
| PMTimeSeries.AverageWindow | lib/libmwtpp/PMTimeSeries.cc:148-156 | averaging one window onto the samples averaged so far gives the averages over the windows with that one appended |
| PMTimeSeries.AverageStep | lib/libmwtpp/PMTimeSeries.cc:146-156 | one pass over an accepted window: a failure is the result over all accepted windows, since no later window is averaged; a success is the averages over the windows so far with this one appended, and the windows still to come lose this one |
| PMTimeSeries.WindowAveragesExtend | lib/libmwtpp/PMTimeSeries.cc:148-156 | averaging one more window appends its statistics or fails with its estimate's error |
| PMTimeSeries.WindowAveragesFailurePersists | lib/libmwtpp/PMTimeSeries.cc:148-156 | a failure in an early window stays the result however many windows follow |
| PMTimeSeries.AverageLoop | lib/libmwtpp/PMTimeSeries.cc:143-158 | the averaging loop equals the statistics over the accepted windows |
| PMTimeSeries.AveragedBuild | lib/libmwtpp/PMTimeSeries.cc:104-164 | the work after the load equals the time-averaged series: mismatch, averaging-length and empty-result errors, then the averaged data |
| PMTimeSeries.AveragedWindowsBuild | lib/libmwtpp/PMTimeSeries.cc:140-164 | the windowed stage equals its specification, including the throw when no window fits |
| PMTimeSeries.AveragedWindowsShape | lib/libmwtpp/PMTimeSeries.cc:140-164 | a result holds between 1 and ns/decfac samples, dt is the parent dt0 times decfac, t0 is centred half an averaging length in, and sample k averages the k-th window, which ends before the data end time |
| PMTimeSeries.TimeAveragedErrors | lib/libmwtpp/PMTimeSeries.cc:57-97 | a bundle of other than three members throws the member-count message first, then a band at or above the band count throws the band message; a negative band fails; timesteps 0 makes ns / decfac a division by zero once the components load, and a negative timesteps always fails |
| PMTimeSeries.NoStepNoSeries | lib/libmwtpp/PMTimeSeries.cc:97-160 | with a negative decfac the C quotient ns / decfac leaves no window, so the constructor cannot succeed and the averaging stage throws the too-short message |
| PMTimeSeries.TimeAveragedShape | lib/libmwtpp/PMTimeSeries.cc:52-166 | for any timesteps, a built series has decimation, at least 1, equal to the band's times timesteps, an averaging length that fits in the data, and equals the windowed averaging of the loaded components |
| PMTimeSeries.PMTimeSeries.SampleBySampleBuild | lib/libmwtpp/PMTimeSeries.cc:167-246 | the object built holds the sample-by-sample series, or the constructor throws its error |
| PMTimeSeries.PMTimeSeries.TimeAveragedBuild | lib/libmwtpp/PMTimeSeries.cc:52-166 | the object built holds the time-averaged series, or the constructor throws its error |
| PMTimeSeries.PMTimeSeries.Init | lib/libmwtpp/PMTimeSeries.cc:44-50 | a fresh object holding the given fields |
| PMTimeSeries.PMTimeSeries.Copy | lib/libmwtpp/PMTimeSeries.cc:247-256 | the copy holds every field of the parent |
| PMTimeSeries.PMTimeSeries.Assign | lib/libmwtpp/PMTimeSeries.cc:258-272 | after assignment the object holds every field the parent had, self-assignment included |
| PMTimeSeries.EllipseOf | lib/libmwtpp/PMTimeSeries.cc:287-299 | ellipse(i) succeeds exactly for 0 <= i < the number of stored ellipses, returning the i-th, and otherwise throws the range message |
| PMTimeSeries.PMTimeSeries.EllipseAt | lib/libmwtpp/PMTimeSeries.cc:287-299 | the object's ellipse(i) is that of its fields |
| PMTimeSeries.PMTimeSeries.ErrorsAt | lib/libmwtpp/PMTimeSeries.cc:300-312 | errors(i) succeeds exactly inside the stored errors, returning the i-th, and otherwise throws the range message |
| PMTimeSeries.PMTimeSeries.GapSpan | lib/libmwtpp/PMTimeSeries.cc:396-409 | the gap is skipped when it ends before t0 or starts after the last sample; otherwise its first and last sample, clipped to the record |
| PMTimeSeries.GapIndicesInRange | lib/libmwtpp/PMTimeSeries.cc:396-409 | the first and last sample a gap touches lie within 0..ns-1 |
| PMTimeSeries.Cleared | lib/libmwtpp/PMTimeSeries.cc:410-415 | clearing a span keeps the length |
| PMTimeSeries.ClearedTwice | lib/libmwtpp/PMTimeSeries.cc:410-415 | clearing the same span twice is clearing it once, which is why the triple loop over i changes nothing further |
| PMTimeSeries.PMTimeSeries.ClearSpan | lib/libmwtpp/PMTimeSeries.cc:411-415 | the ellipses and errors of samples lo..hi are zeroed and every other field is kept |
| PMTimeSeries.PMTimeSeries.ZeroGap | lib/libmwtpp/PMTimeSeries.cc:400-415 | one gap's pass zeroes the samples it covers and nothing else |
| PMTimeSeries.ZeroedBy | lib/libmwtpp/PMTimeSeries.cc:391-417 | zeroing gaps changes only the sample vectors and keeps their lengths |
| PMTimeSeries.ZeroedBySamples | lib/libmwtpp/PMTimeSeries.cc:391-417 | sample j ends zeroed exactly when some gap covers it, and is otherwise unchanged |
| PMTimeSeries.ZeroedTwice | lib/libmwtpp/PMTimeSeries.cc:391-417 | zero_gaps is idempotent |
| PMTimeSeries.PMTimeSeries.ZeroGaps | lib/libmwtpp/PMTimeSeries.cc:391-417 | the object's new state is the zero_gaps effect of every gap on its old state |
| PMTimeSeries.DerivedSeriesSamples | lib/libmwtpp/PMTimeSeries.cc:424-604 | a derived series exists exactly when ns does not exceed the stored ellipses (else ellipse(i) throws); it is live, keeps the time base, holds the chosen attribute of each ellipse in order and records which attribute it is |
| PMTimeSeries.DerivedRectilinearityBounded | lib/libmwtpp/PMTimeSeries.cc:424-448 | every rectilinearity sample lies in [0, 1) when each ellipse's major norm is at least its minor norm |
| PMTimeSeries.PMTimeSeries.Derived | lib/libmwtpp/PMTimeSeries.cc:424-604 | each of the seven derived-series methods returns the derived series of the object |
| PMTimeSeries.PMTimeSeries.WriteLine | lib/libmwtpp/PMTimeSeries.cc:610-626 | succeeds exactly when sample i has both an ellipse and an error; then its line, otherwise the ellipse(i) or errors(i) range error |
| PMTimeSeries.LineValues | lib/libmwtpp/PMTimeSeries.cc:613-626 | one output line carries eighteen values |
| PMTimeSeries.LineReadsBack | lib/libmwtpp/PMTimeSeries.cc:613-626 | the line holds the six scaled axis components followed by all twelve error attributes, delta_rect among them, separated by blanks and without a newline inside |
| PMTimeSeries.LineHasOneNewline | lib/libmwtpp/PMTimeSeries.cc:626 | each sample line ends with its only newline |
| PMTimeSeries.LinesCount | lib/libmwtpp/PMTimeSeries.cc:609-627 | the output holds one line per sample |
| PMTimeSeries.PMTimeSeries.Write | lib/libmwtpp/PMTimeSeries.cc:605-629 | operator<< writes the header and then one line per sample, or throws as ellipse(i) or errors(i) does |
| ParticleMotionEllipse.FromAxes | lib/libmwtpp/ParticleMotionEllipse.cc:25-34 | the axis lengths are the Euclidean norms of the inputs, and each direction scaled back by its length gives the input axis whenever that length is non-zero |
| ParticleMotionEllipse.Oriented | lib/libmwtpp/ParticleMotionEllipse.cc:129-133 | the chosen direction has a non-negative projection on up, is the input or its negation, and is the input whenever that already projects non-negatively |
| ParticleMotionEllipse.Arranged | lib/libmwtpp/ParticleMotionEllipse.cc:115-133 | the longer candidate becomes the major axis (the second on a tie), major norm >= minor norm, and both directions point into the half-space of up |
| ParticleMotionEllipse.FromPhasors | lib/libmwtpp/ParticleMotionEllipse.cc:88-133 | the ellipse of three phasors has major norm >= minor norm and both axes projecting non-negatively on up |
| ParticleMotionEllipse.Analytic | lib/libmwtpp/ParticleMotionEllipse.cc:68-134 | negligible phasors give the zero ellipse; otherwise the axes are ordered by length and both point into the half-space of up |
| ParticleMotionEllipse.AnalyticIgnoresX | lib/libmwtpp/ParticleMotionEllipse.cc:82-86 | the guard as written zeroes the ellipse of x = 1, y = z = 0, although x is not negligible |
| ParticleMotionEllipse.LoadWorkMatrix | lib/libmwtpp/ParticleMotionEllipse.cc:155-164 | the work matrix has 3 ntw entries and column i holds the x, y and z samples at time i |
| ParticleMotionEllipse.WorkMatrixUnique | lib/libmwtpp/ParticleMotionEllipse.cc:155-164 | any matrix laid out that way is the work matrix |
| ParticleMotionEllipse.Windowed | lib/libmwtpp/ParticleMotionEllipse.cc:135-193 | the time-window constructor succeeds exactly when the SVD reports info 0, and then builds the analytic ellipse of the principal singular vector |
| ParticleMotionEllipse.RectilinearityBounds | lib/libmwtpp/ParticleMotionEllipse.cc:222-228 | for an ellipse whose major norm is at least its minor norm, rectilinearity lies in [0, 1) |
| ParticleMotionEllipse.AnalyticRectilinearity | lib/libmwtpp/ParticleMotionEllipse.cc:222-228 | every ellipse the analytic constructor builds has rectilinearity in [0, 1) |
| ParticleMotionEllipse.Points | lib/libmwtpp/ParticleMotionEllipse.cc:245-265 | points(n) returns n rows, row i the point at phase 2 pi i / n |
| ParticleMotionEllipse.FirstPointOnMajorAxis | lib/libmwtpp/ParticleMotionEllipse.cc:256-261 | the first point is the end of the major semi-axis |
| ParticleMotionError.AttributeValues | lib/libmwtpp/ParticleMotionError.h:15-38 | the twelve attributes as values, in declaration order |
| ParticleMotionError.ValuesOfSeparated | lib/libmwtpp/ParticleMotionError.cc:22-32 | values separated by blanks read back unchanged and no line end is added |
| ParticleMotionError.PrintedOmitsDeltaRect | lib/libmwtpp/ParticleMotionError.cc:20-34 | operator<< as written prints eleven values, the declared attributes with delta_rect dropped, so the seventh value read back is ndgf_major; no newline is written |
| ParticleMotionError.PrintedInOrderReadsBack | lib/libmwtpp/ParticleMotionError.h:45-50 | the documented line reads back as all twelve attributes in declaration order, with no newline |
| RegularizeAngle.RegularizeAsWritten | lib/libmwtpp/regularize_angle.cc:15-56 | throws exactly for angles beyond 100000; otherwise returns an angle in the same direction, unchanged when in range, in (-half, half] from above, but in [half, 3 half) from below the range |
| RegularizeAngle.Regularize | lib/libmwtpp/regularize_angle.cc:2-13 | throws exactly for absurd angles; otherwise returns the angle in [-half turn, half turn] pointing the same way, unchanged when already in range |
| RegularizeAngle.MinusOneNinetyDegrees | lib/libmwtpp/regularize_angle.cc:47-53 | for -190 degrees the as-written loop can only return 530, outside the range, where the documented reduction returns 170 |
| Vector3DBootstrapError.ArrayIndex | lib/libmwtpp/random_array_index.cc:16-25 | a die outcome in 1..range becomes a C array index in 0..range-1, one less than the outcome |
| Vector3DBootstrapError.Trials | lib/libmwtpp/Vector3DBootstrapError.cc:25-32 | one resampled column per draw |
| Vector3DBootstrapError.Resample | lib/libmwtpp/Vector3DBootstrapError.cc:26-32 | the corrected copy loop makes column i of the trials the input column the i-th draw picks |
| Vector3DBootstrapError.CopyLoopNeverAdvancesK | lib/libmwtpp/Vector3DBootstrapError.cc:30-31 | the copy loop as written, entered with k = 0, keeps k = 0 < 3 after any number of steps while the column index grows without bound, so k never advances and the loop can leave only through an out-of-range access of trials(0, i) |
| Vector3DBootstrapError.ComponentRow | lib/libmwtpp/Vector3DBootstrapError.cc:39-42 | row k of the trials has one entry per trial |
| Vector3DBootstrapError.MedianCentre | lib/libmwtpp/Vector3DBootstrapError.cc:37-49 | the median loop returns the median of each row divided by the length of the median vector |
| Vector3DBootstrapError.CentreIsUnit | lib/libmwtpp/Vector3DBootstrapError.cc:47-49 | the centre is a unit vector when the median vector is not zero and the square root is exact |
| Vector3DBootstrapError.CentreAlongMedian | lib/libmwtpp/Vector3DBootstrapError.cc:47-49 | the centre points along the median vector: scaled by its length it gives back the median vector |
| Vector3DBootstrapError.DotProduct | lib/libmwtpp/Vector3DBootstrapError.cc:55-58 | the accumulated product is the dot product |
| Vector3DBootstrapError.Angles | lib/libmwtpp/Vector3DBootstrapError.cc:52-61 | one angle per trial |
| Vector3DBootstrapError.AngleList | lib/libmwtpp/Vector3DBootstrapError.cc:52-61 | the angle loop fills a fresh work vector with the acos of each trial's dot product with the centre, in trial order |
| Vector3DBootstrapError.Rint | lib/libmwtpp/Vector3DBootstrapError.cc:66 | rint rounds to the nearest integer, ties to even |
| Vector3DBootstrapError.QuantileIndexInRange | lib/libmwtpp/Vector3DBootstrapError.cc:66-69 | with at least one trial and a legal confidence the quantile position indexes the angle list |
| Vector3DBootstrapError.EmptyTrialsPassGuard | lib/libmwtpp/Vector3DBootstrapError.cc:66-70 | with no trials the position is pulled back to -1 and the guard as written lets it through to work[-1] |
| Vector3DBootstrapError.Bootstrap | lib/libmwtpp/Vector3DBootstrapError.cc:12-71 | an illegal confidence throws; no trials throws the bound error; otherwise the estimate holds the centre and the angle at the quantile position of the sorted angles, with the confidence |
| MWTBundle.PostTransformationEntries | lib/libmwtpp/MWTBundle.cc:7-16 | the header as written keeps only the later put to U21 and to U31, so tmatrix[1][0] and tmatrix[2][0] are not recorded, and U12 and U13 are left as the input had them |
| MWTBundle.PostTransformationAsWrittenLosesEntries | lib/libmwtpp/MWTBundle.cc:7-16 | for a horizontal rotation the as-written header overwrites tmatrix[1][0] = 1 in U21 with tmatrix[0][1] = -1 and posts no U12, while the corrected header keeps -1 as U21 and records 1 as U12 |
| MWTBundle.PostTransformationRecordsMatrix | lib/libmwtpp/MWTBundle.cc:7-16 | the corrected header, which changes only the first two puts (to U12 and U13) and keeps the source's convention U(r)(c) = tmatrix[c-1][r-1] for the other seven, holds every tmatrix[j][i] under U(i+1)(j+1) and keeps every other attribute of the seismogram |
| MWTBundle.From3C | lib/libmwtpp/MWTBundle.cc:4-40 | the three-component constructor succeeds exactly when all three component transforms do, fails with the first failing component's error, and otherwise holds the three transforms in component order, the processor's wavelet and band counts, and the corrected posted header |
| MWTBundle.LastLiveDt | lib/libmwtpp/MWTBundle.cc:52-58 | the remembered dt exists exactly when a live member came earlier |
| MWTBundle.LastLiveDtIsLiveDt | lib/libmwtpp/MWTBundle.cc:52-58 | a remembered dt is the dt of an earlier live member |
| MWTBundle.RateTestAsWritten | lib/libmwtpp/MWTBundle.cc:52-66 | the loop as written passes exactly when no dead member after a live one has a dt other than the last live one's |
| MWTBundle.RateTest | lib/libmwtpp/MWTBundle.cc:52-66 | the corrected loop passes exactly when no live member has a dt other than the live one before it |
| MWTBundle.LiveDtsAgree | lib/libmwtpp/MWTBundle.cc:52-66 | when the corrected test passes up to i, every live member before i has the remembered dt |
| MWTBundle.RateTestMeansCommonRate | lib/libmwtpp/MWTBundle.cc:52-66 | the corrected test passes exactly when all live members share one sample rate, the common rate the error message demands |
| MWTBundle.RateTestsDisagree | lib/libmwtpp/MWTBundle.cc:52-66 | two live members with dt 1 and 2 pass the test as written though their rates differ, and a dead member with dt 2 after a live one with dt 1 fails it though the live rates agree |
| MWTBundle.SurvivorsAreTransformedLiveMembers | lib/libmwtpp/MWTBundle.cc:67-81 | a matrix survives exactly when it is the successful transform of a live member |
| MWTBundle.FromEnsemble | lib/libmwtpp/MWTBundle.cc:41-86 | an empty ensemble throws "No data - ensemble is empty." and a live member whose dt differs from the live one before it throws the sample-rate mismatch message (the corrected test), each after the constructor's prefix; otherwise the bundle exists exactly when some live member's transform succeeds, and holds those transforms in ensemble order, and throws "All ensemble members were either dead or failed processing" when none survives; a bundle is built only from an ensemble whose live members share one rate |
| MWTBundle.BandValidTest | lib/libmwtpp/MWTBundle.cc:105-116 | "ok" exactly for a band in [0, nb); otherwise the invalid-band explanation |
| MWTBundle.F0 | lib/libmwtpp/MWTBundle.cc:119-128 | a rejected band throws "MWTBundle::get_f0:  " followed by band_valid_test's explanation; a valid band is answered by member 0 |
| MWTBundle.Fw | lib/libmwtpp/MWTBundle.cc:129-138 | a rejected band throws "MWTBundle::get_fw:  " followed by band_valid_test's explanation; a valid band is answered by member 0 |
| MWTBundle.DecFac | lib/libmwtpp/MWTBundle.cc:139-148 | a rejected band throws "MWTBundle::get_decfac:  " followed by band_valid_test's explanation; a valid band is answered by member 0 |
| MWTBundle.SampleInterval | lib/libmwtpp/MWTBundle.cc:149-158 | a rejected band throws "MWTBundle::sample_interval:  " followed by band_valid_test's explanation; a valid band is answered by member 0 |
| MWTBundle.GettersSucceedOnValidBands | lib/libmwtpp/MWTBundle.cc:117-158 | on a bundle whose members share its grid each getter succeeds exactly for a band in [0, nb) |
| MWTBundle.Element | lib/libmwtpp/MWTBundle.cc:159-175 | a member index outside the bundle throws the message naming the requested member and the bundle size; otherwise the member's matrix answers the band and wavelet lookup |
| MWTBundle.ElementSucceeds | lib/libmwtpp/MWTBundle.cc:159-175 | a lookup succeeds exactly for a member, band and wavelet all in range |
| MWTBundle.Sample | lib/libmwtpp/MWTBundle.cc:176-187 | sample iz of the looked-up waveform; a failed lookup passes its failure on, and an iz outside the samples is undefined behaviour |
| MWTWaveform.Converted | lib/libmwtpp/MWTwaveform.cc:2-39 | the converted waveform is well formed, holds nz samples and sample i is the trace's i-th value |
| MWTWaveform.FromTrace | lib/libmwtpp/MWTwaveform.cc:2-39 | the conversion constructor builds that waveform, live, with absolute time reference, t0 the trace start time and dt recomputed as dt0 times the decimation factor |
| MWTWaveform.ConvertedAttributesReadable | lib/libmwtpp/MWTwaveform.cc:34-38 | dt0, decimation_factor, f0, fw and wavelet_length_in_samples read back from the posted header |
| MWTMatrix.Empty | lib/libmwtpp/MWTMatrix.cc:2-6 | the default matrix is valid and holds no waveforms |
| MWTMatrix.EmptyRejectsAll | lib/libmwtpp/MWTMatrix.cc:2-6 | the default matrix rejects every index |
| MWTMatrix.RangeTest | lib/libmwtpp/MWTMatrix.cc:182-195 | "ok" exactly for a band and wavelet inside the grid; otherwise the out-of-range explanation |
| MWTMatrix.FlatIndexInRange | lib/libmwtpp/MWTMatrix.cc:78 | a grid position maps inside nb * nw |
| MWTMatrix.FlatIndex | lib/libmwtpp/MWTMatrix.cc:78 | position (ib, iw) is stored at ib * nwavelets + iw, inside the data |
| MWTMatrix.Get | lib/libmwtpp/MWTMatrix.cc:72-79 | the lookup succeeds exactly when range_test says "ok", throws "MWTMatrix::operator():  " followed by range_test's explanation otherwise, and then returns the waveform at the flat index |
| MWTMatrix.Row | lib/libmwtpp/MWTMatrix.cc:26-30 | the conversions of one row of the C array, in wavelet order |
| MWTMatrix.GridLength | lib/libmwtpp/MWTMatrix.cc:15-30 | the constructed grid holds nb * nw waveforms |
| MWTMatrix.GridAt | lib/libmwtpp/MWTMatrix.cc:25-30 | draw[i][j] lands at flat index i * nw + j |
| MWTMatrix.GridElement | lib/libmwtpp/MWTMatrix.cc:28-29 | every stored waveform is a well-formed conversion |
| MWTMatrix.Build | lib/libmwtpp/MWTMatrix.cc:10-31 | the constructor converts and appends draw[i][j] band-major, wavelet-minor, and keeps the header and the counts |
| MWTMatrix.BuiltValid | lib/libmwtpp/MWTMatrix.cc:10-31 | a constructed matrix is valid whenever its bands have wavelets |
| MWTMatrix.BuiltGet | lib/libmwtpp/MWTMatrix.cc:10-31 | reading (band, wavelet) of a constructed matrix gives the conversion of draw[band][wavelet] |
| MWTMatrix.RealPart | lib/libmwtpp/MWTMatrix.cc:38-54 | real() succeeds exactly for an index in range, throws "MWTMatrix::real:  " followed by range_test's explanation otherwise, and returns the real part of every sample in order |
| MWTMatrix.ImagPart | lib/libmwtpp/MWTMatrix.cc:55-71 | imag() succeeds exactly for an index in range, throws "MWTMatrix::imag:  " followed by range_test's explanation otherwise, and returns the imaginary part of every sample in order |
| MWTMatrix.BandHead | lib/libmwtpp/MWTMatrix.cc:93-101 | the band's first waveform, for a band in [0, nbands); otherwise the getter's illegal-band message |
| MWTMatrix.F0 | lib/libmwtpp/MWTMatrix.cc:91-111 | get_f0 succeeds exactly for a band in range, throws its illegal-band message otherwise, and reports the f0 of the band's first waveform |
| MWTMatrix.Fw | lib/libmwtpp/MWTMatrix.cc:112-129 | get_fw succeeds exactly for a band in range, throws its illegal-band message otherwise, and reports the fw of the band's first waveform |
| MWTMatrix.DecFac | lib/libmwtpp/MWTMatrix.cc:130-147 | get_decfac succeeds exactly for a band in range, throws its illegal-band message otherwise, and reports the decimation factor of the band's first waveform |
| MWTMatrix.SampleInterval | lib/libmwtpp/MWTMatrix.cc:148-165 | sample_interval succeeds exactly for a band in range, throws its illegal-band message otherwise, and is dt0 times the decimation factor of the band's first waveform |
| MWTMatrix.WaveletLength | lib/libmwtpp/MWTMatrix.cc:166-181 | get_wavelet_length succeeds exactly for a band in range, throws its illegal-band message otherwise, and reads the waveform at flat index band, not the band's first waveform |
| MWTMatrix.BuiltBandGetters | lib/libmwtpp/MWTMatrix.cc:91-181 | on a constructed matrix the band getters report draw[band][0], and the wavelet-length getter the length of draw[0][band] |
| HFArray.Scanned | lib/libmwtpp/HFArray.cc:35-42 | the read loop consumes every record before the first unreadable one, and stops there |
| HFArray.InsertedKeys | lib/libmwtpp/HFArray.cc:35-42 | the stations in the map are exactly the names the lines carry |
| HFArray.InsertedKeepsFirst | lib/libmwtpp/HFArray.cc:41 | a station's coordinates are those of the first line naming it: map insert ignores later duplicates |
| HFArray.FromText | lib/libmwtpp/HFArray.cc:9-53 | a file that cannot be opened throws the open message; otherwise the array holds the scanned stations and the origin from the header line |
| HFArray.X | lib/libmwtpp/HFArray.cc:55-68 | x(sta) succeeds exactly for a station in the array and returns its stored coordinates, otherwise throws "location not defined" |
| HFArray.VerticalSlowness | lib/libmwtpp/HFArray.cc:76-80 | zero for a mode evanescent at the surface velocity, otherwise the square root of u0^2 - ul2n^2 |
| HFArray.Moveout | lib/libmwtpp/HFArray.cc:69-88 | moveout succeeds exactly for a known station and is the dot product of the 3-D slowness with its position; an unknown station throws the x() error |
| HFArray.PropagatingSlownessLength | lib/libmwtpp/HFArray.cc:73-84 | for a propagating mode the 3-D slowness vector has length 1/v0 |
| HFArray.EvanescentMoveoutHorizontal | lib/libmwtpp/HFArray.cc:77-85 | for an evanescent mode the moveout is the horizontal plane-wave delay alone |
| HFArray.GeographicLocation | lib/libmwtpp/HFArray.cc:93-99 | succeeds exactly for a known station and converts its position with the array's coordinate system |
| SeisppIOStream.TrailerBlock | lib/libseispp_io/SeisppIOStream.cc:137-148 | the writer's destructor emits exactly 64 characters, starting with the eof tag and the object count |
| SeisppIOStream.TrailerAt | lib/libseispp_io/SeisppIOStream.cc:30-35 | after a seek to a position of the file, the trailer reads successfully exactly when the first word there is the eof tag; otherwise the file is rejected as not a valid serialization file |
| SeisppIOStream.OpenAsWrittenAlwaysFails | lib/libseispp_io/SeisppIOStream.cc:30 | the seek as written, to ios::end - 64, lands before the start of every file, so no file opens |
| SeisppIOStream.WordsOfTrailer | lib/libseispp_io/SeisppIOStream.cc:140 | the trailer's words are the eof tag, then the count's digits |
| SeisppIOStream.TrailerRoundTrip | lib/libseispp_io/SeisppIOStream.cc:18-39 | a file ending with the block the writer emits for n objects reads back a count of n |
| SeisppIOStream.FramedAppend | lib/libseispp_io/SeisppIOStream.cc:152-170 | writing one more object adds its separator and its text to the output |
| SeisppIOStream.FramedSplit | lib/libseispp_io/SeisppIOStream.cc:152-170 | a writer's output splits after any object into what came before and what follows |
| SeisppIOStream.FileTags | lib/libseispp_io/SeisppIOStream.cc:155-161 | one tag follows each object: more-data after all but the last, the eof tag after the last |
| SeisppIOStream.TagAfterObject | lib/libseispp_io/SeisppIOStream.cc:57-61 | in a writer's output the first word after the k-th object is the tag a reader expects there |
| SeisppIOStream.ReadStep | lib/libseispp_io/SeisppIOStream.cc:45-80 | a read succeeds exactly when the guard lets it through and the archive extraction succeeds; it counts one more object and sets the more-data flag exactly when the tag is more-data; every failure is the one read-failed error |
| SeisppIOStream.GoodIsNotEof | lib/libseispp_io/seispp_io.h:78-84 | for a file reader good() and eof() are complements |
| SeisppIOStream.ReadsWholeFile | lib/libseispp_io/SeisppIOStream.cc:45-99 | the corrected reader reads all n objects of a file: every read succeeds and eof() holds after the n-th read and not before |
| SeisppIOStream.LastObjectRefusedAsWritten | lib/libseispp_io/SeisppIOStream.cc:52-54 | as written, after n - 1 reads eof() is still false yet the guard throws on the last object |
| SeisppIOStream.StdinEofFollowsTag | lib/libseispp_io/SeisppIOStream.cc:58-65 | a stdin reader never refuses; eof() after a read depends only on the tag that followed |
| SeisppIOStream.TextIOStreamReader.Stdin | lib/libseispp_io/SeisppIOStream.cc:7-17 | the stdin reader counts one object, none read, with parent name STDIN |
| SeisppIOStream.TextIOStreamReader.Init | lib/libseispp_io/SeisppIOStream.cc:27-29 | a file reader with the given name, object count and none read |
| SeisppIOStream.TextIOStreamReader.Open | lib/libseispp_io/SeisppIOStream.cc:18-39 | the file constructor throws when the file does not open or its trailer is invalid, and otherwise holds the trailer's object count and none read |
| SeisppIOStream.TextIOStreamReader.Read | lib/libseispp_io/SeisppIOStream.cc:45-80 | on success returns the extracted object and steps the reader state; on failure throws the read-failed error and leaves the state as it was |
| SeisppIOStream.TextIOStreamReader.IsEof | lib/libseispp_io/SeisppIOStream.cc:81-99 | eof() is the flag test on stdin and "read >= count" on a file |
| SeisppIOStream.TextIOStreamReader.Rewind | lib/libseispp_io/SeisppIOStream.cc:100-109 | rewind fails exactly on stdin |
| SeisppIOStream.TextIOStreamReader.NumberAvailable | lib/libseispp_io/seispp_io.h:69 | the object count |
| SeisppIOStream.TextIOStreamReader.NumberAlreadyRead | lib/libseispp_io/seispp_io.h:77 | the number of objects read |
| SeisppIOStream.TextIOStreamWriter.Stdout | lib/libseispp_io/SeisppIOStream.cc:110-120 | the stdout writer has written nothing |
| SeisppIOStream.TextIOStreamWriter.Init | lib/libseispp_io/SeisppIOStream.cc:130-132 | a file writer with the given name that has written nothing |
| SeisppIOStream.TextIOStreamWriter.Open | lib/libseispp_io/SeisppIOStream.cc:121-136 | a file that does not open throws the open message; otherwise a fresh writer that has written nothing |
| SeisppIOStream.TextIOStreamWriter.Write | lib/libseispp_io/SeisppIOStream.cc:152-170 | the more-data tag goes out before every object but the first; a successful archive write appends the object and counts it, a failed one throws and still leaves the tag behind |
| SeisppIOStream.TextIOStreamWriter.Close | lib/libseispp_io/SeisppIOStream.cc:137-151 | the destructor appends the 64-byte trailer and changes no count |
| SeisppIOStream.TextIOStreamWriter.NumberAlreadyWritten | lib/libseispp_io/seispp_io.h:137 | the number of objects written |
| SeisppIOStream.WrittenFileReadsBack | lib/libseispp_io/SeisppIOStream.cc:137-148 | whatever objects a valid writer wrote, the closed file's trailer reads back as their number |
| SeisppIOStream.ReadObject | lib/libseispp_io/seispp_io.h:170-185 | read_object returns the archived object, and any archive failure becomes one SeisppError |
| SeisppIOStream.WriteObject | lib/libseispp_io/seispp_io.h:156-167 | write_object returns the archive's text, and any archive failure becomes one SeisppError |
| ParticleMotionData.Located | bin/ParticleMotionVTKConverter/ParticleMotionData.cc:10-21 | the station position exists exactly when site.lat, site.lon and site.elev are all present; latitude and longitude are converted to radians, the radius is the ellipsoid radius plus the elevation, and the Cartesian point is the coordinate system's conversion of it |
| ParticleMotionData.Samples | bin/ParticleMotionVTKConverter/ParticleMotionData.cc:84-86 | n consecutive samples starting at lo, in order |
| ParticleMotionData.RawMotion | bin/ParticleMotionVTKConverter/ParticleMotionData.cc:59-94 | raw_motion(tw) succeeds exactly when the start sample is not before the data and the end sample is inside it, throwing the start message or the end message otherwise, and returns the samples from start to end inclusive |
| ParticleMotionData.FullSpanIsWholeRecord | bin/ParticleMotionVTKConverter/ParticleMotionData.cc:95-101 | with a rounding nint, raw_motion() over t0..endtime returns every sample of the record |
| ParticleMotionData.Cooked | bin/ParticleMotionVTKConverter/ParticleMotionData.cc:103-114 | each point becomes scale times itself plus the station position |
| ParticleMotionData.CookedIdentity | bin/ParticleMotionVTKConverter/ParticleMotionData.cc:103-114 | with scale 1 and the station at the origin cooking changes nothing |
| ParticleMotionData.ParticleMotionPoints | bin/ParticleMotionVTKConverter/ParticleMotionData.cc:115-122 | particle_motion(tw) fails exactly as raw_motion(tw) does, and point j is the station position plus scale times the j-th sample of the window |
| ParticleMotionData.MaxNormBounds | bin/ParticleMotionVTKConverter/ParticleMotionData.cc:133-139 | the running maximum is at least 0 and at least every norm |
| ParticleMotionData.MaxNormAttained | bin/ParticleMotionVTKConverter/ParticleMotionData.cc:133-139 | the running maximum is 0 or the norm of one of the points |
| ParticleMotionData.MaxAmplitudeInCases | bin/ParticleMotionVTKConverter/ParticleMotionData.cc:143-157 | the windowed maximum fails as raw_motion(tw) does, and otherwise is the largest norm of the window's samples times the scale |
| ParticleMotionData.MaxAmplitudeInBoundsWindow | bin/ParticleMotionVTKConverter/ParticleMotionData.cc:143-157 | for a non-negative scale the windowed maximum is non-negative and bounds the scaled norm of every sample in the window |
| ParticleMotionData.ScaledMaxNormBounds | bin/ParticleMotionVTKConverter/ParticleMotionData.cc:140 | scaling by a non-negative factor keeps the maximum the largest scaled norm |
| ParticleMotionData.MaxAmplitudeInAsWrittenReadsWrongSamples | bin/ParticleMotionVTKConverter/ParticleMotionData.cc:150-153 | as written the loop reads the record's first columns instead of the window's: for a silent sample followed by a moving one and a window on the second, it returns 0 where the window's maximum is 1 |
| ParticleMotionData.ParticleMotionData.Init | bin/ParticleMotionVTKConverter/ParticleMotionData.cc:4-8 | an object holding the given fields |
| ParticleMotionData.ParticleMotionData.Build | bin/ParticleMotionVTKConverter/ParticleMotionData.cc:4-33 | the seismogram constructor fails as the header lookup does, and otherwise holds the seismogram, scale 1, the coordinate system and the derived station position |
| ParticleMotionData.ParticleMotionData.Copy | bin/ParticleMotionVTKConverter/ParticleMotionData.cc:34-41 | the copy holds every field of the parent |
| ParticleMotionData.ParticleMotionData.Assign | bin/ParticleMotionVTKConverter/ParticleMotionData.cc:42-56 | after assignment the object holds the parent's fields, self-assignment included |
| ParticleMotionData.ParticleMotionData.SetScale | bin/paraview/ParticleMotionVTKConverter/ParticleMotionData.h:47-50 | only the scale changes |
| ParticleMotionData.ParticleMotionData.GetScale | bin/paraview/ParticleMotionVTKConverter/ParticleMotionData.h:51 | the scale |
| ParticleMotionData.ParticleMotionData.Center | bin/paraview/ParticleMotionVTKConverter/ParticleMotionData.h:19-25 | the Cartesian station position |
| ParticleMotionData.ParticleMotionData.GeographicCenter | bin/paraview/ParticleMotionVTKConverter/ParticleMotionData.h:27-30 | the geographic station position |
| ParticleMotionData.ParticleMotionData.TimeSpan | bin/paraview/ParticleMotionVTKConverter/ParticleMotionData.h:56-59 | the window from t0 to the end time |
| ParticleMotionData.ColumnPoints | bin/ParticleMotionVTKConverter/ParticleMotionData.cc:82-86 | the points held in the columns of a 3 x n matrix, column by column |
| ParticleMotionData.ParticleMotionData.RawMotionMatrix | bin/ParticleMotionVTKConverter/ParticleMotionData.cc:59-94 | a fresh 3 x n matrix whose columns are raw_motion(tw)'s samples, or its error |
| ParticleMotionData.ParticleMotionData.Cook | bin/ParticleMotionVTKConverter/ParticleMotionData.cc:103-114 | every entry becomes scale times itself plus the station coordinate of its row, so the columns are the cooked points |
| ParticleMotionData.ParticleMotionData.ParticleMotionMatrix | bin/ParticleMotionVTKConverter/ParticleMotionData.cc:115-122 | a fresh matrix whose columns are the cooked window, or raw_motion(tw)'s error |
| ParticleMotionData.ParticleMotionData.WholeParticleMotion | bin/ParticleMotionVTKConverter/ParticleMotionData.cc:123-128 | the whole record's figure, which cannot fail |
| ParticleMotionData.ParticleMotionData.MaxAmplitude | bin/ParticleMotionVTKConverter/ParticleMotionData.cc:129-142 | the largest sample norm over the record times the scale |
| ParticleMotionData.ParticleMotionData.MaxAmplitudeInWindow | bin/ParticleMotionVTKConverter/ParticleMotionData.cc:143-157 | the corrected windowed maximum, over the window's own samples |
| ParticleMotionData.CopyWindow | bin/ParticleMotionVTKConverter/ParticleMotionData.cc:84-86 | column j, component i of the result is the sample ss+j, component i, of the data |
| VtpPolyData.RowsOf | bin/paraview/ParticleMotionVTKConverter/vtp_writer.cc:62-64 | an n x 3 matrix whose row i is point i |
| VtpPolyData.ColumnsOf | bin/paraview/ParticleMotionVTKConverter/vtp_writer.cc:21-22 | a 3 x n matrix whose column j is point j |
| VtpPolyData.Transposed | bin/paraview/ParticleMotionVTKConverter/vtp_writer.cc:63 | tr(m) swaps rows and columns entry by entry |
| VtpPolyData.TransposedColumnsAreRows | bin/paraview/ParticleMotionVTKConverter/vtp_writer.cc:60-65 | transposing a matrix of point columns gives the matrix of point rows, one point per output row |
| VtpPolyData.ColumnPointsOfColumnsOf | bin/paraview/ParticleMotionVTKConverter/vtp_writer.cc:21-22 | the columns of the 3 x n matrix read back as the points |
| VtpPolyData.Norms | bin/paraview/ParticleMotionVTKConverter/vtp_writer.cc:26-31 | the dnrm2 norm of every point of a curve |
| VtpPolyData.TrackedBounds | bin/paraview/ParticleMotionVTKConverter/vtp_writer.cc:25-31 | after the update every norm of the curve lies within the range, the range only widens, and RangeMin stays non-negative when the norms are |
| VtpPolyData.RangeBoundsAllPoints | bin/paraview/ParticleMotionVTKConverter/vtp_writer.cc:17-41 | with non-negative norms, RangeMin and RangeMax bound the norm of every point of every curve, and RangeMin is non-negative once a curve has been seen |
| VtpPolyData.TrackRange | bin/paraview/ParticleMotionVTKConverter/vtp_writer.cc:25-31 | the range loop for one curve performs the specified update: the first point's norm seeds RangeMin, then each norm widens the range |
| VtpPolyData.Counts | bin/paraview/ParticleMotionVTKConverter/vtp_writer.cc:23 | the point count of each curve |
| VtpPolyData.Consecutive | bin/paraview/ParticleMotionVTKConverter/vtp_writer.cc:78-87 | the integers start .. start+n-1 |
| VtpPolyData.CurveIndicesNumbers | bin/paraview/ParticleMotionVTKConverter/vtp_writer.cc:81-86 | one curve's connectivity entries are consecutive point numbers |
| VtpPolyData.ConnectivityNumbersPoints | bin/paraview/ParticleMotionVTKConverter/vtp_writer.cc:78-87 | the connectivity array numbers the points 0, 1, 2, ... in order, across all curves |
| VtpPolyData.WriteConnectivity | bin/paraview/ParticleMotionVTKConverter/vtp_writer.cc:78-87 | the connectivity loop writes that array, with a line break after every tenth entry of a curve |
| VtpPolyData.OffsetsAsWritten | bin/paraview/ParticleMotionVTKConverter/vtp_writer.cc:96-105 | the offsets as written: one per curve, the first 1 and later ones the number of preceding points |
| VtpPolyData.CellEnds | bin/paraview/ParticleMotionVTKConverter/vtp_writer.cc:89-105 | one offset per curve |
| VtpPolyData.CellEndsArePrefixSums | bin/paraview/ParticleMotionVTKConverter/vtp_writer.cc:89-105 | offset k is the number of points in curves 0..k, the end of line k as VTK defines offsets |
| VtpPolyData.CellEndsDelimitCurves | bin/paraview/ParticleMotionVTKConverter/vtp_writer.cc:89-105 | with cell ends as offsets, line k covers exactly the connectivity entries of curve k, numbered from the count of points before it |
| VtpPolyData.OffsetsAsWrittenMisplaceLines | bin/paraview/ParticleMotionVTKConverter/vtp_writer.cc:95-105 | for two four-point curves the offsets as written are 1, 4 where the line ends are 4, 8 |
| VtpPolyData.WriteOffsets | bin/paraview/ParticleMotionVTKConverter/vtp_writer.cc:96-105 | the corrected offsets loop writes the cell ends, one per line |
| VtpPolyData.CurvesAppend | bin/paraview/ParticleMotionVTKConverter/vtp_writer.cc:18-41 | adding a curve extends the counts, the points text and the range by that curve |
| VtpPolyData.PreambleCounts | bin/paraview/ParticleMotionVTKConverter/vtp_writer.cc:44-50 | the header's NumberOfPoints is the total point count and NumberOfLines the curve count |
| VtpPolyData.WriteDocument | bin/paraview/ParticleMotionVTKConverter/vtp_writer.cc:42-112 | the writer emits the specified document: preamble, points, connectivity, offsets and closing tags |
| PMTseriesVtpWriter.RowPoints | bin/PMTseriesToVTK/vtp_writer.cc:17-29 | the points held in the rows of an n x 3 matrix |
| PMTseriesVtpWriter.Outline | bin/PMTseriesToVTK/vtp_writer.cc:59 | points(np) gives np points at equal phase steps |
| PMTseriesVtpWriter.ScaledAll | bin/PMTseriesToVTK/vtp_writer.cc:63 | scale*pm multiplies every point |
| PMTseriesVtpWriter.FigureIsClosedOutline | bin/PMTseriesToVTK/vtp_writer.cc:59-63 | a station's figure has np+1 points: the scaled ellipse points, then the first one again |
| PMTseriesVtpWriter.ZeroEllipseIsOrigin | bin/PMTseriesToVTK/vtp_writer.cc:47-59 | the zero ellipse drawn for a station outside its data is np+1 copies of the origin |
| PMTseriesVtpWriter.EllipseDrawn | bin/PMTseriesToVTK/vtp_writer.cc:46-58 | the ellipse at time t's sample; when ellipse(i) throws, the zero ellipse if the header names the station, and otherwise the handler's get_string("sta") throws MetadataGetError |
| PMTseriesVtpWriter.Figures | bin/PMTseriesToVTK/vtp_writer.cc:43-83 | one curve per station, in input order, each the closed scaled figure of the station's ellipse |
| PMTseriesVtpWriter.FiguresHaveClosedLength | bin/PMTseriesToVTK/vtp_writer.cc:59-61 | every station's curve has np+1 points |
| PMTseriesVtpWriter.EllipsesDocumentCounts | bin/PMTseriesToVTK/vtp_writer.cc:86-130 | the corrected header announces np+1 points per station and one line per station, and the connectivity numbers all of those points |
| PMTseriesVtpWriter.CountsAsWritten | bin/PMTseriesToVTK/vtp_writer.cc:65 | as written every station counts pm.columns(), 3 |
| PMTseriesVtpWriter.ColumnHeads | bin/PMTseriesToVTK/vtp_writer.cc:67-73 | as written the norms are taken of the first three entries of each of the 3 columns of the column-major figure matrix |
| PMTseriesVtpWriter.PreambleCountsAsWritten | bin/PMTseriesToVTK/vtp_writer.cc:86-92 | the header of the document as written carries the total of the counts it is given and the number of stations |
| PMTseriesVtpWriter.EllipsesDocumentAsWrittenCounts | bin/PMTseriesToVTK/vtp_writer.cc:65-92 | the document as written announces three points per station and one line per station, whatever the number of points drawn |
| PMTseriesVtpWriter.EllipsesDocumentAsWrittenDisagrees | bin/PMTseriesToVTK/vtp_writer.cc:65-92 | one station with np = 4 has a 5-point figure, all written, while the document as written announces 3 points and the corrected one 5 |
| PMTseriesVtpWriter.IndexArraysAsWrittenDisagree | bin/PMTseriesToVTK/vtp_writer.cc:113-147 | for one station with np = 4 the connectivity as written is 0 1 2 and the offsets 1 with RangeMax 2, where the five points need 0 .. 4 and the line end 5 |
| PMTseriesVtpWriter.OffsetsAsWrittenStepByThree | bin/PMTseriesToVTK/vtp_writer.cc:136-147 | the offsets as written are 1, 3, 6, 9, ...: the first 1, then 3 for every earlier station |
| PMTseriesVtpWriter.RangeAsWrittenMissesPoints | bin/PMTseriesToVTK/vtp_writer.cc:67-73 | a five-point figure whose last point has norm 2: the range as written tops out at 1, the range over every point at 2 |
| PMTseriesVtpWriter.RowMatrix | bin/PMTseriesToVTK/vtp_writer.cc:59 | a fresh n x 3 matrix holding the points in its rows |
| PMTseriesVtpWriter.CloseEllipse | bin/PMTseriesToVTK/vtp_writer.cc:17-29 | close_ellipse returns a fresh copy of dm with one more row repeating row 0 |
| PMTseriesVtpWriter.ScaleRow | bin/PMTseriesToVTK/vtp_writer.cc:63 | one point of the matrix is multiplied by s, in place, and every other point is unchanged |
| PMTseriesVtpWriter.ScaleEntries | bin/PMTseriesToVTK/vtp_writer.cc:63 | every entry multiplied by s, in place |
| PMTseriesVtpWriter.StationCurve | bin/PMTseriesToVTK/vtp_writer.cc:46-64 | the station loop's body builds the station's figure, and fails with the handler's MetadataGetError exactly when the station has no ellipse at t and no sta |
| PMTseriesVtpWriter.WriteEllipses | bin/PMTseriesToVTK/vtp_writer.cc:30-156 | the writer emits the corrected ellipses document for every station at time t, and throws MetadataGetError, writing nothing, exactly when some station without a name has no ellipse at t |
| ParaviewVtpWriter.Motions | bin/paraview/ParticleMotionVTKConverter/vtp_writer.cc:18-41 | at most one curve per station, each with at least one point; a failure is the MetadataGetError of the handler's get_string("sta") |
| ParaviewVtpWriter.MotionsStep | bin/paraview/ParticleMotionVTKConverter/vtp_writer.cc:20-40 | one more station adds its motion when particle_motion(tw) succeeds, nothing when it throws and the station has a sta, and makes the writer throw when it has none; an earlier throw stays |
| ParaviewVtpWriter.MotionsKeepSuccesses | bin/paraview/ParticleMotionVTKConverter/vtp_writer.cc:18-41 | with every station succeeding curve k is station k's motion; with every station throwing but named, nothing is drawn |
| ParaviewVtpWriter.MotionsFailIffUnreported | bin/paraview/ParticleMotionVTKConverter/vtp_writer.cc:18-41 | the curves fail exactly when some station's particle_motion(tw) throws and its header has no sta |
| ParaviewVtpWriter.MotionsPrefixFailure | bin/paraview/ParticleMotionVTKConverter/vtp_writer.cc:18-41 | once a prefix of the stations has thrown out of the loop, the later stations do not change the failure |
| ParaviewVtpWriter.WindowDocumentCounts | bin/paraview/ParticleMotionVTKConverter/vtp_writer.cc:42-112 | the header counts one line per drawn station and every drawn point, the connectivity numbers them all, and every norm lies within the range written |
| ParaviewVtpWriter.StationMotion | bin/paraview/ParticleMotionVTKConverter/vtp_writer.cc:21 | a station's curve is its particle_motion(tw) |
| ParaviewVtpWriter.WriteTimeWindow | bin/paraview/ParticleMotionVTKConverter/vtp_writer.cc:7-114 | the writer emits the window document over the stations whose particle_motion(tw) succeeds, and fails with the handler's throw exactly when the curves do |
| VtpPolyData.OffsetLinesValues | bin/paraview/ParticleMotionVTKConverter/vtp_writer.cc:96-105 | the integers of the offsets text, read in order, are exactly the offsets written |
| VtpPolyData.AddCurve | bin/paraview/ParticleMotionVTKConverter/vtp_writer.cc:20-31 | appending a station's curve keeps the drawn text, the point count, the line count and the norm range consistent with the curves drawn so far |
| VtpPolyData.WriteCurveIndices | bin/paraview/ParticleMotionVTKConverter/vtp_writer.cc:81-86 | the indices written for one curve are its consecutive point numbers from index, with a line break after every tenth |
| VtpPolyData.PointTotal | bin/paraview/ParticleMotionVTKConverter/vtp_writer.cc:18-23 | the total number of points is the sum of the curves' column counts |
| SetMetadata.Converted | bin/seispp_filters/set_metadata/set_metadata.cc:104-116 | a word stored as MDreal, MDint or MDstring yields a value of that type, and a string column keeps the word itself |
| SetMetadata.SetField | bin/seispp_filters/set_metadata/set_metadata.cc:85-125 | set(d, i, j) succeeds exactly when both indices are in range and column j has a storable type; then it stores the converted word j of row i under name j; each failure carries the message of the first check it fails, in the source's order |
| SetMetadata.SetFieldChangesOneAttribute | bin/seispp_filters/set_metadata/set_metadata.cc:95-123 | a successful set(d, i, j) adds or replaces just the attribute it names, with the column's type, and keeps every other attribute |
| SetMetadata.SetFieldNameAsWritten | bin/seispp_filters/set_metadata/set_metadata.cc:97-124 | the name returned as written is nm[j0+1], which exists only when j0 is not the last column |
| SetMetadata.SetFieldNameAsWrittenIsNextColumn | bin/seispp_filters/set_metadata/set_metadata.cc:97-124 | with names sta, evid, setting column 0 stores sta but returns evid as written, and column 1 reads past the name list |
| SetMetadata.SettableCount | bin/seispp_filters/set_metadata/set_metadata.cc:136-164 | the number of storable types, at most the number of attributes |
| SetMetadata.SettableCountAll | bin/seispp_filters/set_metadata/set_metadata.cc:269-275 | the count set(d, i) returns equals the number of attributes exactly when every type is storable, the test behind main's warning |
| SetMetadata.SetRow | bin/seispp_filters/set_metadata/set_metadata.cc:128-166 | set(d, i) succeeds exactly when row i exists, with the right error for a negative or too-large row, and returns the number of storable columns |
| SetMetadata.FilledRowValues | bin/seispp_filters/set_metadata/set_metadata.cc:136-164 | with distinct names each storable column k holds the word whose position is the number of storable columns before k, while skipped columns and other attributes keep their values |
| SetMetadata.SetRowReadsWrittenLine | bin/seispp_filters/set_metadata/set_metadata.cc:134-157 | a row written as blank-separated words, all string columns, reads back word for word into its named attributes |
| SetMetadata.MDTable.constructor | bin/seispp_filters/set_metadata/set_metadata.cc:69-84 | the names and types in list order, and the value lines in table order |
| SetMetadata.MDTable.SetOne | bin/seispp_filters/set_metadata/set_metadata.cc:85-125 | the loop reading words up to column j0 computes set(d, i0, j0), returning the name it set |
| SetMetadata.MDTable.SetAll | bin/seispp_filters/set_metadata/set_metadata.cc:128-166 | the loop over all columns computes set(d, i0) |
| SetMetadata.Apply | bin/seispp_filters/set_metadata/set_metadata.cc:256-279 | exit(-1) on a member-table size mismatch; a failure of the ensemble row is propagated; otherwise the ensemble gets row 0 and member i gets row i, with all other member fields unchanged |
| ListHdr.ObjectTypeOf | bin/seispp_filters/listhdr/listhdr.cc:168-182 | each of the three type names selects its object type, in both directions, and any other name is the fatal exit |
| ListHdr.BuildIndex | bin/seispp_filters/listhdr/listhdr.cc:46-67 | the index holds, in order, the end offsets of the objects read before the first archive exception, and stops early only at the limit of one million |
| ListHdr.TypeWord | bin/seispp_filters/listhdr/listhdr.cc:95-102 | each accepted type word maps to its type, in both directions, and no word maps to MDinvalid |
| ListHdr.FormatLine | bin/seispp_filters/listhdr/listhdr.cc:90-111 | a format line parses exactly when its second word is a known type word; otherwise it is the fatal exit |
| ListHdr.LinesRead | bin/seispp_filters/listhdr/listhdr.cc:87-88 | getline into a 128-byte buffer reads the lines up to the first one too long for it, and no further |
| ListHdr.Components | bin/seispp_filters/listhdr/listhdr.cc:86-113 | one component per line read, or the fatal exit |
| ListHdr.ComponentsPerLine | bin/seispp_filters/listhdr/listhdr.cc:88-112 | component k comes from line k, and the file parses exactly when every line's type word is known |
| ListHdr.FormatFileFailsAt | bin/seispp_filters/listhdr/listhdr.cc:88-109 | an unknown type word on any line read makes the whole format file exit with -1 |
| ListHdr.FormatLineReadsWritten | bin/seispp_filters/listhdr/listhdr.cc:92-110 | a line written as key, type word and undefined value reads back as that component |
| ListHdr.ParseCsvFormatFile | bin/seispp_filters/listhdr/listhdr.cc:76-114 | a format file that cannot be opened exits with -1; otherwise the line loop computes the parsed format file |
| ListHdr.Field | bin/seispp_filters/listhdr/listhdr.cc:133-161 | a present key of the listed type writes its value; a missing key, or one of another type, writes the undefined value; only a component of no listed type is the fatal exit |
| ListHdr.JoinedLayout | bin/seispp_filters/listhdr/listhdr.cc:130-163 | field k sits at position 2k with a comma after every field but the last |
| ListHdr.Fields | bin/seispp_filters/listhdr/listhdr.cc:130-163 | one field per component, and a count no larger than the number of components; it fails exactly when a component has no listed type |
| ListHdr.FieldsPerComponent | bin/seispp_filters/listhdr/listhdr.cc:130-161 | field k of the line is the field of component k |
| ListHdr.FieldsCountFound | bin/seispp_filters/listhdr/listhdr.cc:157 | the corrected count equals the number of components exactly when every key is present under its type |
| ListHdr.CsvLineLayout | bin/seispp_filters/listhdr/listhdr.cc:130-164 | the CSV line holds the fields in format order with commas between them, and ends with the newline |
| ListHdr.CsvCountAsWritten | bin/seispp_filters/listhdr/listhdr.cc:121-165 | the count as written, nsaved never initialised, fails exactly when the line does |
| ListHdr.CsvCountAsWrittenIsIndeterminate | bin/seispp_filters/listhdr/listhdr.cc:121-165 | with no key present the count should be 0, but as written it is whatever nsaved held |
| ListHdr.WriteToCsv | bin/seispp_filters/listhdr/listhdr.cc:117-166 | the field loop writes the CSV line and returns the corrected count of keys found |
| ListHdr.WriteField | bin/seispp_filters/listhdr/listhdr.cc:130-163 | writing one field keeps the output equal to the fields so far joined by commas, with a trailing comma exactly while more fields follow |
| ListHdr.FieldsFoundIffTyped | bin/seispp_filters/listhdr/listhdr.cc:150-155 | the line is produced exactly when every component has one of the four listed types; any other type ends the program |
| Sort1.KeyLessStrictTotalOrder | bin/seispp_filters/sort1/sort1.cc:86-119 | the key order used by both multimaps (int order, lexicographic string order) is asymmetric, transitive and total, as std::multimap demands of its comparator |
| Sort1.KeyOf | bin/seispp_filters/sort1/sort1.cc:91-136 | a seismogram has a sort key exactly when the attribute is present with the requested type, and the key is that attribute's value; otherwise the get throws and the seismogram is skipped |
| Sort1.SortKeys | bin/seispp_filters/sort1/sort1.cc:89-137 | one optional key per seismogram, in input order |
| Sort1.KeyedIndicesCount | bin/seispp_filters/sort1/sort1.cc:89-105 | every position that has a key occurs exactly once among the positions offered to the multimap, and no other number occurs |
| Sort1.OrderedSequencesUnique | bin/seispp_filters/sort1/sort1.cc:108-113 | two sequences of positions ordered by key, then by input position, that hold the same positions are equal |
| Sort1.StableSortUnique | bin/seispp_filters/sort1/sort1.cc:84-144 | exactly one output order is a stable sort of the given keys |
| Sort1.StableSortCounts | bin/seispp_filters/sort1/sort1.cc:84-144 | a stable sort writes every seismogram that has the key exactly once, and no other |
| Sort1.StableSortNondecreasing | bin/seispp_filters/sort1/sort1.cc:108-142 | the keys of the written seismograms never decrease |
| Sort1.Positions | bin/seispp_filters/sort1/sort1.cc:110-113 | the positions held by the multimap entries, in iteration order |
| Sort1.UpperBound | bin/seispp_filters/sort1/sort1.cc:94-127 | multimap::insert places a new entry after every entry whose key is not above its own and before every larger key |
| Sort1.InsertKeepsOrder | bin/seispp_filters/sort1/sort1.cc:94-127 | inserting at that place keeps the entries ordered by key, then by input position |
| Sort1.XrefStep | bin/seispp_filters/sort1/sort1.cc:91-94 | offering a seismogram that has the key keeps the multimap holding exactly the keyed positions seen so far, in order |
| Sort1.PositionsInsert | bin/seispp_filters/sort1/sort1.cc:94-127 | after an insertion the multimap holds its old positions plus the new one |
| Sort1.XrefSkip | bin/seispp_filters/sort1/sort1.cc:95-103 | a seismogram without the key leaves the multimap unchanged, and the invariant still holds for the positions seen so far |
| Sort1.MetadataSort | bin/seispp_filters/sort1/sort1.cc:84-144 | int_metadata_sort and string_metadata_sort return the positions of the seismograms that have the key, stably sorted on it |
| Sort1.SortProgram | bin/seispp_filters/sort1/sort1.cc:147-187 | the program fails with exit(-1) exactly when the arguments are invalid; otherwise it writes the seismograms in a stable sort order of their keys, using -i to read the key as an int |
| Sorting.Insert | lib/libmwtpp/Vector3DBootstrapError.cc:62 | inserting into an ascending sequence keeps it ascending and adds exactly that element |
| Sorting.SortedCopy | lib/libmwtpp/Vector3DBootstrapError.cc:62 | an ascending rearrangement of its input, of the same length |
| Sorting.AscendingPermutationUnique | lib/libmwtpp/Vector3DBootstrapError.cc:62 | two ascending sequences with the same elements are equal, so the sorted result is unique |
| Sorting.SortInPlace | lib/libmwtpp/Vector3DBootstrapError.cc:62 | the in-place sort leaves the array ascending and a permutation of its old contents |
| Sorting.Sink | lib/libmwtpp/Vector3DBootstrapError.cc:62 | moving a[i] left through the ascending prefix extends that prefix by one and permutes the array |
| Sorting.Sort | lib/libmwtpp/Vector3DBootstrapError.cc:62 | std::sort leaves the array holding the sorted copy of its old contents |
| Sorting.SortInPlaceIsSortedCopy | lib/libmwtpp/Vector3DBootstrapError.cc:62 | any ascending permutation of the input is the sorted copy |
| Gather.KeyValues | bin/seispp_filters/gather/gather.cc:158-169 | the key values of a seismogram exist exactly when every string key and every int key is present with its type; they are those values in list order, and a missing key throws |
| Gather.NotAllKeyed | bin/seispp_filters/gather/gather.cc:186-204 | a seismogram without one of the keys means that not every input seismogram is keyed |
| Gather.KeysMatch | bin/seispp_filters/gather/gather.cc:56-75 | keys_match is true exactly when the seismogram's key values equal the test values, and it throws only when a key is missing |
| Gather.TestValues | bin/seispp_filters/gather/gather.cc:86-95 | the push_back loops collect the key values of the seismogram |
| Gather.ResetEnsemble | bin/seispp_filters/gather/gather.cc:76-97 | reset_ensemble empties the members, keeps the ensemble metadata and returns the new test values, throwing when a key is missing |
| Gather.PutAllKeepsLast | bin/seispp_filters/gather/gather.cc:162-168 | after the puts every key is present, the last value put under a name wins, and other attributes are kept |
| Gather.GroupValuesPut | bin/seispp_filters/gather/gather.cc:158-169 | the values posted are the string values, then the int values, in list order |
| Gather.GroupMetadataPosts | bin/seispp_filters/gather/gather.cc:158-169 | the group metadata holds exactly the keys, each with its group value |
| Gather.AsWrittenDone | bin/seispp_filters/gather/gather.cc:186-196 | at end of input as written, the seismograms kept plus one per ensemble written account for the whole input, and every ensemble carries the first seismogram's keys |
| Gather.AsWrittenStep | bin/seispp_filters/gather/gather.cc:171-185 | one pass of the loop as written keeps its invariant, and a missing key means the input was not all keyed |
| Gather.GatherAsWritten | bin/seispp_filters/gather/gather.cc:153-199 | the loop as written succeeds exactly when every seismogram is keyed; the first seismogram and each seismogram that opens a new group are dropped (members plus ensembles equal the input count), and every ensemble carries the first seismogram's key values |
| Gather.GatherMatchStep | bin/seispp_filters/gather/gather.cc:173-176 | a matching seismogram extends the open ensemble and keeps the output gathered |
| Gather.GatherNewGroup | bin/seispp_filters/gather/gather.cc:177-184 | a seismogram that does not match opens its own ensemble, which posts its own key values |
| Gather.GatherStep | bin/seispp_filters/gather/gather.cc:153-199 | one pass of the corrected loop body keeps the invariant, and on a missing key what was written is a prefix of the input |
| Gather.GatherDone | bin/seispp_filters/gather/gather.cc:186-196 | at end of input the open ensemble is written, the ensembles concatenate to the whole input, and every ensemble holds matching seismograms under its own key values |
| Gather.Gather | bin/seispp_filters/gather/gather.cc:19-209 | the corrected grouping succeeds (status 0) exactly when every seismogram is keyed; then the ensembles concatenate to the input, and each groups consecutive seismograms with equal key values posted to its metadata; otherwise the status is -1 and a prefix of the input was written |
| Gather.FlattenPrefix | bin/seispp_filters/gather/gather.cc:200-204 | what was written before a failure is a prefix of the input |
| SetCoords.LineCoordinatesOfWrittenLine | bin/seispp_filters/set_coords/set_coords.cc:38-52 | a table line written as rx ry relev sx sy selev reads back as those six values, when the number conversion inverts the formatter |
| SetCoords.PostedReadsBack | bin/seispp_filters/set_coords/set_coords.cc:76-82 | after the puts each of the seven attributes reads back its value, the other attributes are kept and no others are added |
| SetCoords.EnsembleCoordinates.constructor | bin/seispp_filters/set_coords/set_coords.cc:29-57 | one row per table line, holding that line's six values, with the horizontal source-receiver distance as its offset |
| SetCoords.EnsembleCoordinates.SetCoords | bin/seispp_filters/set_coords/set_coords.cc:58-95 | a table whose length differs from the ensemble size throws the size-mismatch error; otherwise member i receives row i and its offset, and nothing else changes |
| Zeropad.PadSamples | bin/seispp_filters/zeropad/zeropad.cc:29-44 | the new buffer holds ns + npad columns: the first npad are zero, and column j + npad holds data column j times its taper weight |
| Zeropad.CopyColumns | bin/seispp_filters/zeropad/zeropad.cc:36-38 | column j of the data goes to column j + npad, and the zeroed columns before it stay as they were |
| Zeropad.TaperColumns | bin/seispp_filters/zeropad/zeropad.cc:40-44 | the running weight scales column j + npad by (j+1)/ntaper for j below ntaper - 1 and leaves later columns at weight 1 |
| Zeropad.WeightStep | bin/seispp_filters/zeropad/zeropad.cc:41-42 | after j steps the running weight wt0 + j*wt0 is the taper weight of column j |
| Zeropad.ScaleColumn | bin/seispp_filters/zeropad/zeropad.cc:43-44 | the three components of one column are multiplied by the weight and every other column is unchanged |
| Zeropad.TaperInsideData | bin/seispp_filters/zeropad/zeropad.cc:21-26 | a taper that passes the half-trace check covers no more columns than the data hold |
| Zeropad.Pad3CSeisAsWritten | bin/seispp_filters/zeropad/zeropad.cc:11-49 | as written: a dead seismogram is returned unchanged; a live one throws exactly when the pad or the taper is too long, the pad check first, each with its message; otherwise the result moves t0 back by plen and holds the padded and tapered buffer of 3*(ns+npad) samples, but ns keeps its old value, so it is the corrected result with ns lowered back and any result with npad > 0 is inconsistent |
| Zeropad.PaddedSamplesUnique | bin/seispp_filters/zeropad/zeropad.cc:30-44 | a buffer of the padded length whose first npad columns are zero and whose column j + npad is data column j under the taper is exactly the padded buffer |
| Zeropad.PaddedSamplesColumns | bin/seispp_filters/zeropad/zeropad.cc:30-44 | the padded buffer has 3(ns + npad) entries, its first npad columns are zero and its column j + npad is data column j under the taper |
| Zeropad.PadResultMeaning | bin/seispp_filters/zeropad/zeropad.cc:11-49 | a dead seismogram is unchanged; a live one is rejected exactly when the pad or the taper is too long, with the matching message; otherwise the result is well formed, npad samples longer, starts plen earlier, begins with npad zero samples and carries input sample j under the taper at sample j + npad |
| Zeropad.Pad3CSeis | bin/seispp_filters/zeropad/zeropad.cc:11-49 | corrected: the result is the padded result function's; a dead seismogram is unchanged; a live one fails exactly when the pad or taper is too long, with the matching message; otherwise it is consistent, ns grows by npad, t0 moves back by plen, the first npad samples are zero and sample j + npad is input sample j under the taper |
| Zeropad.PaddedSampleTime | bin/seispp_filters/zeropad/zeropad.cc:25-46 | input sample j lands at a time no later than its own, and earlier by less than one sample interval |
| Zeropad.PadEnsemble | bin/seispp_filters/zeropad/zeropad.cc:113-151 | the ensemble is padded exactly when no live member is rejected, and then member i is what pad_3cseis makes of input member i; otherwise the failure is that of the first member that throws, and nothing is written |
| LinearMoveout.MovedSamplesColumns | bin/seispp_filters/linearmoveout/linearmoveout.cc:102-115 | as written, when the block fits: the new buffer has nsout columns; column j < ncopy of the input lands at column j + lag, and every other column is zero |
| LinearMoveout.ShiftedSamplesColumns | bin/seispp_filters/linearmoveout/linearmoveout.cc:102-115 | corrected: column j of the new buffer is input column j - lag when the input has one, and zero otherwise |
| LinearMoveout.ShiftedAgreesWhenFits | bin/seispp_filters/linearmoveout/linearmoveout.cc:100-115 | whenever the dcopy as written stays inside the buffer, the corrected buffer is what it writes |
| LinearMoveout.ShiftSamples | bin/seispp_filters/linearmoveout/linearmoveout.cc:113-115 | the copy loop into the zeroed buffer, keeping each input value that lands inside, gives the shifted samples |
| LinearMoveout.MoveoutOfOutcome | bin/seispp_filters/linearmoveout/linearmoveout.cc:76-117 | a dead member is unchanged; a live one throws exactly when it has no offset, exits exactly when the shift is irrational, and otherwise changes only u, ns = nsout and t0 + t0 param, with nsout between 0 and 2ns and ncopy = min(ns, nsout) |
| LinearMoveout.UnshiftedMoveout | bin/seispp_filters/linearmoveout/linearmoveout.cc:45-115 | as written, with the default -t0 0 the copy stays inside the buffer exactly for a zero-sample shift; a positive shift ends ioffset columns past the buffer; a zero shift leaves the member as it went in |
| LinearMoveout.Moveout | bin/seispp_filters/linearmoveout/linearmoveout.cc:76-118 | the member loop body computes the moved-out member |
| LinearMoveout.MoveoutEnsemble | bin/seispp_filters/linearmoveout/linearmoveout.cc:68-120 | the run succeeds exactly when every member moves out; then member i is replaced by its moved-out version and the ensemble metadata is kept; otherwise the failure is that of the first member that fails |
| Sphdiv.LastPowerWins | bin/seispp_filters/sphdiv/sphdiv.cc:68-79 | of several -power options the last one is in force |
| Sphdiv.ParseOptions | bin/seispp_filters/sphdiv/sphdiv.cc:66-79 | the option loop accepts only -power value pairs and yields the last power, or 2.0 by default; anything else is the usage exit |
| Sphdiv.CorrectedScalesSamples | bin/seispp_filters/sphdiv/sphdiv.cc:88-104 | a live member without an offset throws; otherwise only the samples change, and only for a live member with offset > 0.001, each multiplied by pow(offset, power) |
| Sphdiv.SphdivEnsemble | bin/seispp_filters/sphdiv/sphdiv.cc:80-105 | the run succeeds exactly when every member is corrected; then member i is its corrected version and the ensemble metadata is kept; otherwise the get error is thrown and nothing is written |
| Zeropad.TaperStep | bin/seispp_filters/zeropad/zeropad.cc:42-44 | one more column of the taper is multiplied by its running weight, the padding and the columns past it are unchanged |
| PeakScaling.GainOf | bin/seispp_filters/peak_scaling/peak_scaling.cc:97-105 | the stored gain when it is present as a real, and 1.0 when the get fails |
| PeakScaling.NormalizedKeepsGainCorrectedSamples | bin/seispp_filters/peak_scaling/peak_scaling.cc:106-109 | the new gain is the old gain divided by the peak, every sample divided by the gain is unchanged, and the other attributes and fields are kept |
| PeakScaling.NormalizedHasUnitPeak | bin/seispp_filters/peak_scaling/peak_scaling.cc:96-109 | with a peak routine that scales with its argument, a member with a positive peak comes out with peak amplitude 1 |
| PeakScaling.PeakScale | bin/seispp_filters/peak_scaling/peak_scaling.cc:70-115 | any argument is the usage exit; otherwise every member is normalized in place, in order, and the ensemble metadata is kept |
| SU3CEnsembleConverter.ReadOrientation | bin/SU3CEnsembleConverter/SU3CEnsembleConverter.cc:108-130 | the table is accepted exactly when it has three lines listing channels 0, 1, 2 in order, and then hang and vang are those lines' angles; otherwise it is exit(-1) |
| SU3CEnsembleConverter.OrientationOf | bin/SU3CEnsembleConverter/SU3CEnsembleConverter.cc:114-120 | one hang and one vang per channel |
| SU3CEnsembleConverter.Tagged | bin/SU3CEnsembleConverter/SU3CEnsembleConverter.cc:163-165 | a trace of channel k carries hang[k] and vang[k], and nothing else about it changes |
| SU3CEnsembleConverter.SpreadScalesSamples | bin/SU3CEnsembleConverter/SU3CEnsembleConverter.cc:184-195 | with spreading on, a member without an offset throws; otherwise only the samples change, and only when abs(offset) > 0.01, each multiplied by pow(abs(offset), spow) |
| SU3CEnsembleConverter.BuildMember | bin/SU3CEnsembleConverter/SU3CEnsembleConverter.cc:166-196 | the k == 2 body builds the 3C member from the three tagged channels, rotates it, posts site.lat and site.lon and corrects spreading, as configured |
| SU3CEnsembleConverter.MembersUpToTriples | bin/SU3CEnsembleConverter/SU3CEnsembleConverter.cc:159-202 | member j is made from traces 3j, 3j+1 and 3j+2, tagged as channels 0, 1, 2, and the result fails exactly when one triple fails |
| SU3CEnsembleConverter.FailurePersists | bin/SU3CEnsembleConverter/SU3CEnsembleConverter.cc:208-211 | once a triple fails, the run ends with that failure and no later triple changes it |
| SU3CEnsembleConverter.ExtendMembers | bin/SU3CEnsembleConverter/SU3CEnsembleConverter.cc:166-197 | at channel 2 the new member joins those before it, or its failure becomes the failure of the run |
| SU3CEnsembleConverter.Bundle | bin/SU3CEnsembleConverter/SU3CEnsembleConverter.cc:141-207 | an empty first read is exit(-1); otherwise the ensemble holds one member per complete triple, in order, with trailing traces dropped, or the failure of the first failing triple |
| SU3CEnsembleConverter.Convert | bin/SU3CEnsembleConverter/SU3CEnsembleConverter.cc:101-207 | a bad orientation table or an empty first read is exit(-1); otherwise the run succeeds exactly when every complete triple builds, and member j is triple j |
| Mwpm.AbsentOptionKeepsDefault | bin/MultiWavelet/mwpm/mwpm.cc:87-106 | a flag never given keeps its default value |
| Mwpm.LastOptionWins | bin/MultiWavelet/mwpm/mwpm.cc:89-106 | of several pairs with the same flag, the last one's value is in force |
| Mwpm.ParseCommandLine | bin/MultiWavelet/mwpm/mwpm.cc:84-106 | the command line is accepted exactly when it names a database and the rest is -s/-pf pairs; then it holds the database, subset and parameter file (defaults none and mwpm.pf); otherwise it is the usage exit |
| Mwpm.ReadParams | bin/MultiWavelet/mwpm/mwpm.cc:117-164 | the parameters are read exactly when every required one is present and t0_offset is not negative when aligning on t0; each field is the value under its key, and any failure is exit(-1) |
| Mwpm.DtOkWithinTolerance | bin/MultiWavelet/mwpm/mwpm.cc:31-39 | for a positive target, dt passes exactly when it lies strictly within the relative tolerance of the target; a negative target lets every dt pass a positive tolerance, and a zero target passes nothing |
| Mwpm.PostedKeepsSource | bin/MultiWavelet/mwpm/mwpm.cc:17-202 | the attributes a constructor posts leave the header's sta and evid alone, so save_pmts still finds them |
| Mwpm.AveragedWindowsHeader | bin/MultiWavelet/mwpm/mwpm.cc:199-200 | the averaging constructor posts its attributes over the header of the bundle |
| Mwpm.AveragedChoice | bin/MultiWavelet/mwpm/mwpm.cc:199-200 | with avlen > 1 a band past the bundle's is rejected, and a built series keeps the averaging length, decimation, station and event |
| Mwpm.SampledChoice | bin/MultiWavelet/mwpm/mwpm.cc:201-202 | with avlen <= 1 a band past the bundle's is rejected, and a built series keeps the station and event with no averaging |
| Mwpm.BandSeriesChoice | bin/MultiWavelet/mwpm/mwpm.cc:198-202 | for either constructor, a band past the bundle's is rejected and a built series keeps the chosen averaging, decimation, station and event |
| Mwpm.FileNameAsWritten | bin/MultiWavelet/mwpm/mwpm.cc:17-20 | the name as written exists exactly when sta and evid can be read; otherwise the get error is thrown |
| Mwpm.FileName | bin/MultiWavelet/mwpm/mwpm.cc:12-20 | the corrected name, which includes the band index, exists exactly when sta and evid can be read |
| Mwpm.FileNameAsWrittenIgnoresBand | bin/MultiWavelet/mwpm/mwpm.cc:12-20 | every band of a series gets the same name as written |
| Mwpm.FileNameKeepsBand | bin/MultiWavelet/mwpm/mwpm.cc:12-20 | two bands never share a corrected file name |
| Mwpm.SavePmts | bin/MultiWavelet/mwpm/mwpm.cc:12-30 | save_pmts adds or replaces exactly the file it names, holding the series, and leaves every other file as it was |
| Mwpm.BandFailurePersists | bin/MultiWavelet/mwpm/mwpm.cc:196-221 | once a band throws, the band loop ends and later bands change nothing |
| Mwpm.BandsKeepFiles | bin/MultiWavelet/mwpm/mwpm.cc:196-204 | the band loop only adds or replaces files, and a completed loop built every band |
| Mwpm.CorrectedKeepsEveryBand | bin/MultiWavelet/mwpm/mwpm.cc:196-204 | with the band in the name, a completed band loop leaves every band's series in its own file |
| Mwpm.ConstructorsKeepSource | bin/MultiWavelet/mwpm/mwpm.cc:195-202 | the PMTimeSeries constructors keep the bundle's station and event in every band |
| Mwpm.AsWrittenKeepsLastBand | bin/MultiWavelet/mwpm/mwpm.cc:19-204 | with the name as written, a completed band loop leaves a single file for the row, holding the last band's series; every earlier band is overwritten |
| Mwpm.SaveBands | bin/MultiWavelet/mwpm/mwpm.cc:196-204 | the band loop over bands 0..nbands-1 in order, where an exception ends the loop |
| Mwpm.SaveOneBand | bin/MultiWavelet/mwpm/mwpm.cc:198-203 | one pass of the band loop: the constructor main chooses, then save_pmts |
| Mwpm.Aligned | bin/MultiWavelet/mwpm/mwpm.cc:188-189 | when aligning on t0, arrival.time is t0 + t0_offset and every other attribute is kept; otherwise the seismogram is unchanged |
| Mwpm.RowDoneEffects | bin/MultiWavelet/mwpm/mwpm.cc:181-221 | a row never removes a file; a row that fails before the band loop, or whose interval is off, leaves the files as they were; a row is written only when its interval passes |
| Mwpm.ProcessRow | bin/MultiWavelet/mwpm/mwpm.cc:181-221 | the body of the row loop, with its SeisppError handler, performs the row's step |
| Mwpm.RowsUpTo | bin/MultiWavelet/mwpm/mwpm.cc:179-222 | one log entry per row processed |
| Mwpm.RowsUpToLog | bin/MultiWavelet/mwpm/mwpm.cc:179-222 | every row gets the log entry its own pass reports, so a skipped row does not end the run |
| Mwpm.RowsKeepFiles | bin/MultiWavelet/mwpm/mwpm.cc:179-222 | no row of main removes a file |
| Mwpm.ProcessRows | bin/MultiWavelet/mwpm/mwpm.cc:179-222 | the row loop processes the rows in order |
| Mwpm.Run | bin/MultiWavelet/mwpm/mwpm.cc:107-236 | a failure in the parameter block is exit(-1); otherwise the run is the row loop over the working view with those parameters |

## Left out

- Boost text archives (`read_object`/`write_object`) are left out. An object read or written is a value, or an entry in a map standing for the file system.
- `usage()` text, and messages to standard output and standard error, are left out. Where the flow depends on them, they are `Result` failures, `Exit` codes or logged events.
- The Antelope database working view is left out: `build_working_view`, `pfread`, `get_mdlist` and the parameter-file objects. Control parameters are an attribute map.
- The multiwavelet transform itself (`MWTransform`) is left out. A transformed bundle is an input to the model.
- Argument parsing in the mains of set_metadata, set_coords, zeropad, linearmoveout, gather and listhdr is left out. Their options arrive already parsed as parameters. sphdiv, peak_scaling and mwpm keep their parsing.
- listhdr's seek-and-read loop over the input file is left out. Its input is the sequence of objects read.
- Opening listhdr's format file is not modelled. Its lines arrive already read, or `None` when it cannot be opened; `ListHdr.ParseCsvFormatFile` exits with -1 in that case.
- SeisppIOStream.TextIOStreamWriter.Close: requires `TrailerFits`: the trailer text and its NUL fit the 64-byte buffer. Otherwise the source's sprintf (SeisppIOStream.cc:140) writes past the buffer, which is undefined behaviour and is not modelled.
- sort1's `load_data` is left out. The ensemble arrives as a value.
- Copy constructors and `operator=` of value-like classes are datatype copies. This covers MWTMatrix, MWTwaveform, ParticleMotionEllipse, ParticleMotionError and HFArray.
- MWTBundle's copy constructor and `operator=` (MWTBundle.cc:88-103) are not modelled. The copy constructor initialises only mwtdata, nw and nb, so the copy's header starts empty; `operator=` assigns the same three fields and leaves the target's header as it was. A datatype copy would keep the header, so neither is written as one. No modelled caller copies or assigns a bundle.
- `ComputePMStats`/`pmvector_average` is the `Stats` parameter of `PMTimeSeries`. The index mistakes inside it are not modelled (PMTimeSeries.cc:357, 369 and 370).
- The SVD, `dnrm2`, `sqrt`, trigonometric functions and `pow` are the `Numerics` parameter. Only the identities the code relies on are stated.
- Floating point is modelled as `real`, so rounding, NaN and infinity are not captured.
- `HFArray.origin()` is not modelled; it is a trivial getter.
- HFArray.FromText: station names are whole words of the station file. The source reads them with `fscanf("%s")` into `char csta[20]` (HFArray.cc:33-35), so a name of 20 characters or more overruns the buffer; that undefined behaviour is not modelled.
- LinearMoveout.MoveoutEnsemble: requires `vreduce != 0`, to keep the division defined.
- Zeropad.Pad3CSeis: requires `plen >= 0` and `dt > 0`. The source does not check them.
- Zeropad.PadEnsemble: requires `plen >= 0` and `dt > 0`. The source does not check them.
- PeakScaling.PeakScale: requires every member's peak amplitude to be nonzero. The source divides by it unchecked.
- ParaviewVtpWriter.WriteTimeWindow: requires every station to cover the window (`AllCover`). The source reads the first curve of every station, so it cannot get past an empty one.
- PMTseriesVtpWriter.WriteEllipses: requires `np >= 1` and a nonzero sample interval in every series (`Sampled`). The source has no guard.
- ParticleMotionData.ParticleMotionData.RawMotionMatrix: requires `Ordered`: the window's end sample is no earlier than one before its start sample. Otherwise the source would allocate a matrix of negative size.
- ParticleMotionData.ParticleMotionData.MaxAmplitudeInWindow: requires `Ordered`, for the same reason.
- Mwpm.BandSeriesChoice: requires a bundle whose bands hold samples (`Usable`), parameters as main reads them (`ParamsSound`) and constructors that are PMTimeSeries' own (`Constructors`).
- HFArray.Moveout: requires `v0 != 0`. The source divides by it unchecked.
- SU3CEnsembleConverter:
  - `pfread`, the `sscanf` of the orientation lines and `ReadSegyTrace` are parameters;
  - the rotation and the UTM conversion are the `Ops` parameter;
  - the reference-ellipsoid constant is not modelled;
  - opening the output file is not modelled.
  - `Ops.build` stands for the ThreeComponentSeismogram constructor (SU3CEnsembleConverter.cc:168) and cannot fail; the SeisppError it may throw, which the handler at SU3CEnsembleConverter.cc:208 would log, is not modelled.
- Sphdiv: the usage text advertises `-decay`, while the code accepts `-power`; the model follows the code.
- SetCoords.LineCoordinatesOfWrittenLine: each value is its whole word passed to the conversion parameter. The source's `ss >> d` stops at the first character that cannot continue a number. Once one extraction fails, it stores 0, and the later extractions of that line leave d at 0. Each line has its own stringstream (set_coords.cc:37), so such a failure never reaches the next line.
- SetMetadata.SetRow: a real or integer field is its whole word passed to the `Conversions` parameter. The source's `ss >> dval` and `ss >> ival` (set_metadata.cc:143-156) stop at the first character that cannot continue the number, and leave the rest of the word to the next field. A failed extraction stores 0. The stream then stays failed, so every later field of the row gets its uninitialized local or an empty string. The model agrees with the source when every word of the row is a complete number or word of its column's type. `SetMetadata.FilledRow` and `SetMetadata.MDTable.SetAll` share this gap.
- SetMetadata.MDTable.SetAll: the same stream extraction gap as `SetMetadata.SetRow`.
- Mwpm:
  - the `catch(...)` at mwpm.cc:233 is not distinguished from the `SeisppError` handler;
  - serialization of a series is an entry in the file map;
  - standard-error warnings are `RowEvent` values.
- The text of the warnings printed by the VTK writers and by the MWTBundle ensemble constructor is not modelled. The `get_string("sta")` inside the writers' warnings is modelled: with no `sta` it throws out of the writer (`ParaviewVtpWriter.Motions`, `PMTseriesVtpWriter.EllipseDrawn`).
- The text of the ParticleMotionData constructor's debug output is not modelled. Its `get_string("sta")` is modelled: with no `sta` the constructor throws (`ParticleMotionData.ParticleMotionData.Build`).
- linearmoveout's DEBUG output is not modelled.
- Programs outside the modelled core are left out:
  - agc, rotate, rotate3D and rotate_dugl;
  - fragment, dismember, extract_component and display_ensemble;
  - the PMVisualizer GUI programs;
  - the ParticleMotionVTKConverter and PMTseriesToVTK drivers beyond their writers;
  - the test programs.

## Findings

| source | as written | input that shows it | evidently intended | confidence | as-written member | corrected member |
|---|---|---|---|---|---|---|
| lib/libmwtpp/MWTBundle.cc:7-16 | the 3C constructor puts tmatrix[0][1] under U21 and tmatrix[0][2] under U31, after U21 and U31 already received tmatrix[1][0] and tmatrix[2][0] | a rotation with tmatrix[1][0] = 1 and tmatrix[0][1] = -1 | the first two puts go to U12 and U13, matching the convention U(r)(c) = tmatrix[c-1][r-1] of the other seven, so all nine entries are recorded | not executed | MWTBundle.PostTransformationAsWrittenLosesEntries | MWTBundle.PostTransformationRecordsMatrix |
| lib/libmwtpp/MWTBundle.cc:52-66 | the rate check compares a dead member with the last live one and never compares two live members | live members with dt 1 and 2 are accepted; a dead member with dt 2 after a live one with dt 1 is rejected | all live members share a common sample rate | not executed | MWTBundle.RateTestsDisagree | MWTBundle.RateTestMeansCommonRate |
| lib/libmwtpp/Vector3DBootstrapError.cc:30 | the loop copying a drawn vector into the trials matrix never increments k | any number of steps from k = 0: k stays 0 and the column index grows, so the loop can leave only through an out-of-range access of trials(0, i) | copy the three components of each drawn vector once | not executed | Vector3DBootstrapError.CopyLoopNeverAdvancesK | Vector3DBootstrapError.Resample |
| lib/libmwtpp/Vector3DBootstrapError.cc:66-69 | the quantile guard rejects only a position at or past the end, so position -1 passes | T = 0 trials: the position is rint(0) - 1 = -1 | reject every position outside the work vector | not executed | Vector3DBootstrapError.EmptyTrialsPassGuard | Vector3DBootstrapError.Bootstrap |
| lib/libmwtpp/regularize_angle.cc:30-53 | an angle below -180 degrees (or below -pi) gets 360 (or 2 pi) added while it is below +180 (or +pi) | phi = -190 degrees gives 530, not 170 | result in [-180, 180] | not executed | RegularizeAngle.MinusOneNinetyDegrees | RegularizeAngle.Regularize |
| lib/libmwtpp/ParticleMotionEllipse.cc:82 | the negligible-amplitude test checks abs(z) twice and never abs(x) | x = 1+0i, y = z = 0 gives the zero ellipse | zero only when all three amplitudes are negligible | not executed | ParticleMotionEllipse.AnalyticIgnoresX | ParticleMotionEllipse.Analytic |
| lib/libmwtpp/ParticleMotionError.cc:20-34 | `operator<<` leaves out delta_rect and writes no newline | any record: the seventh value read back is ndgf_major | every declared attribute, in order | not executed | ParticleMotionError.PrintedOmitsDeltaRect | ParticleMotionError.PrintedInOrderReadsBack |
| lib/libseispp_io/SeisppIOStream.cc:52-53 | the reader's guard throws before the last object of a file | a file of n objects: the nth read is refused | all n objects can be read | not executed | SeisppIOStream.LastObjectRefusedAsWritten | SeisppIOStream.ReadsWholeFile |
| lib/libseispp_io/SeisppIOStream.cc:30 | the trailer seek goes to the absolute position ios_base::end - 64, which is negative | any file | seek 64 bytes back from the end of the file | not executed | SeisppIOStream.OpenAsWrittenAlwaysFails | SeisppIOStream.WrittenFileReadsBack |
| bin/paraview/ParticleMotionVTKConverter/vtp_writer.cc:96-105 | the offsets written are 1 for the first curve, then each curve's start index | two four-point curves: 1, 4 instead of 4, 8 | the cumulative end of each curve | not executed | VtpPolyData.OffsetsAsWrittenMisplaceLines | VtpPolyData.CellEndsDelimitCurves |
| bin/PMTseriesToVTK/vtp_writer.cc:65 | NumberOfPoints adds the closed figure's column count, 3, for every station | one station, np = 4: 5 points written, 3 announced | announce the number of points written | not executed | PMTseriesVtpWriter.EllipsesDocumentAsWrittenDisagrees | PMTseriesVtpWriter.EllipsesDocumentCounts |
| bin/PMTseriesToVTK/vtp_writer.cc:67-73 | the norm range is taken over dnrm2 of the first three entries of each of the 3 columns of the column-major figure matrix, not over the points | the figure (1,0,0), 0, 0, 0, (2,0,0): RangeMax 1 instead of 2 | RangeMin and RangeMax bound the norm of every point | not executed | PMTseriesVtpWriter.RangeAsWrittenMissesPoints | VtpPolyData.RangeBoundsAllPoints |
| bin/PMTseriesToVTK/vtp_writer.cc:113-147 | the connectivity and offsets loops run over the figure's 3 columns, so each station gets 3 indices, the offsets step 1, 3, 6, ... and the offsets RangeMax stays 2 | one station, np = 4: connectivity 0 1 2 and offset 1 for 5 points | number every point and end each line after its last point | not executed | PMTseriesVtpWriter.IndexArraysAsWrittenDisagree | PMTseriesVtpWriter.EllipsesDocumentCounts |
| bin/ParticleMotionVTKConverter/ParticleMotionData.cc:143-153 | `max_amplitude(tw)` takes the norms of the record's first samples, not of the window's | ns = 2, u = [0,0,0,1,0,0], window [1,1]: 0 instead of 1 | the largest amplitude inside the window | not executed | ParticleMotionData.MaxAmplitudeInAsWrittenReadsWrongSamples | ParticleMotionData.MaxAmplitudeInBoundsWindow |
| bin/seispp_filters/set_metadata/set_metadata.cc:97-124 | `set(d, i, j)` returns the name of column j + 1 as the name it set | names sta, evid: setting column 0 returns evid | return the name of the column set | not executed | SetMetadata.SetFieldNameAsWrittenIsNextColumn | SetMetadata.MDTable.SetOne |
| bin/seispp_filters/listhdr/listhdr.cc:121-165 | `WriteToCSVFile` increments nsaved without initializing it | no listed key in the header | return 0 | not executed | ListHdr.CsvCountAsWrittenIsIndeterminate | ListHdr.FieldsCountFound |
| bin/seispp_filters/gather/gather.cc:76-184 | the first seismogram and every seismogram that starts a new group are never added as members, and the ensemble metadata is never posted again after a group closes | any input: the first seismogram is in no gather | every seismogram in exactly one gather | not executed | Gather.GatherAsWritten | Gather.Gather |
| bin/seispp_filters/zeropad/zeropad.cc:45-47 | the padded buffer replaces u, but ns keeps its old value | ns = 3, dt = 1.0, plen = 1.0: 4 samples stored, ns says 3 | ns counts the padded samples | not executed | Zeropad.Pad3CSeisAsWritten | Zeropad.Pad3CSeis |
| bin/seispp_filters/linearmoveout/linearmoveout.cc:100-115 | the dcopy writes min(ns, nsout) columns from column lag of an nsout-column buffer; with the default -t0 0, lag equals ioffset, so any nonzero shift writes outside the buffer | ns = 4, ioffset = 1: nsout = 3, lag = 1, and columns 1 to 3 are written into a 3-column buffer | move each sample by lag columns, keeping those that land inside the buffer | not executed | LinearMoveout.UnshiftedMoveout | LinearMoveout.ShiftedSamplesColumns |
| bin/MultiWavelet/mwpm/mwpm.cc:19-20 | the output file name built by save_pmts does not depend on the band, so each band of the loop at 196-204 overwrites the one before | nbands = 2, both bands built: one file, holding band 1 | one file per band | not executed | Mwpm.AsWrittenKeepsLastBand | Mwpm.CorrectedKeepsEveryBand |
