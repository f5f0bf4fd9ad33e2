# OpenCLTools in Dafny

A model of the core of OpenCLTools: `checkOpenCL`, a command-line tool that lists the OpenCL devices of
a machine and runs a squaring test kernel, and SPIR binaries, on the selected devices, together with the
helpers it and the SYCL example use. Four modules:

- `StringTools` (`string_tools.dfy`): `tools::splitByWhitespace`, as the do-while loop of the original
  proved against a pure recursive definition of the words of a string.
- `OpenCLEnums` (`opencl_enums.dfy`): `tools::deviceType`, with each named type given its own name, and
  the six error-code decoders, each against a reference definition (the set of constants the decoder
  lists, and its fallback string).
- `DeviceSelector` (`device_selector.dfy`): the score `XeonPhiDeviceSelector` gives a SYCL device, and the
  preference order it induces.
- `CheckOpenCL` (`check_opencl.dfy`): the option handling of `main`, the default device selection, the
  SPIR loading, the program list, the repetition x device x program schedule with its native failures,
  the correct-result count, `formattedDeviceName`, and the exit code of the whole program.

`Wrappers` (`wrappers.dfy`) holds `Option` and `Result`.

The native OpenCL API appears only through what it answers. `NativeApi` says whether the per-device setup
fails, whether a program's run fails, and what the output buffer holds after a run. `std::stoi`, the
files that can be opened, `rand()` and the float comparison `results[i] == data[i]*data[i]` are likewise
parameters. The schedule produces a `Trace` of events: a skipped index ("There is no device numbered"),
or a report of one run's correct count. Any native error ends the run with exit code -2.

A comment at checkOpenCL.cpp:158 says that without `--device` the first device is used. The code on the
next line uses every device, and so does the usage text (line 78). The model follows the code: `Resolved`
selects all devices.

## Model

| member | source | states |
|---|---|---|
| `StringTools.FindFirstNotOf` | tools/stringTools.h:14 | `find_first_not_of(whitespace, from)`: the first non-whitespace index at or after `from`, every character before it is whitespace; `None` (npos) exactly when the rest is whitespace |
| `StringTools.FindFirstOf` | tools/stringTools.h:18 | `find_first_of(whitespace, from)`: the first whitespace index at or after `from`, nothing before it is whitespace; `None` when there is none |
| `StringTools.RunLength` | tools/stringTools.h:18-19 | the length of the leading non-whitespace run: no whitespace before it, whitespace (or the end) at it |
| `StringTools.Words` | tools/stringTools.h:11-27 | every element is non-empty and holds none of the four whitespace characters |
| `StringTools.Split` | tools/stringTools.h:3-30 | the result always has at least one element |
| `StringTools.SplitByWhitespace` | tools/stringTools.h:3-30 | the do-while loop returns exactly `Split(s)`: the maximal whitespace-free runs in order, or `[""]` when there are none |
| `StringTools.WordsSkipWhitespace` | tools/stringTools.h:14-15 | skipping whitespace does not change the words that follow |
| `StringTools.WordsAtRun` | tools/stringTools.h:18-20 | at the start of a run, the next word is exactly that run, up to the next whitespace or the end |
| `StringTools.NextWord` | tools/stringTools.h:18-20 | one loop step: the element pushed is the next word, and the words left after it complete the result |
| `StringTools.LastWord` | tools/stringTools.h:23-27 | when only whitespace follows the last element, the loop has produced every word |
| `StringTools.BlankSplit` | tools/stringTools.h:14-20 | a blank input gives the single empty element |
| `StringTools.WordsOfBlank` | tools/stringTools.h:5 | a string of space, tab, CR and LF has no words |
| `StringTools.BlankOfWords` | tools/stringTools.h:5 | a string without words consists of those four characters only |
| `StringTools.SplitBlankIff` | tools/stringTools.h:14-20 | the result is `[""]` if and only if the input is empty or all whitespace |
| `StringTools.SplitElementsAreWords` | tools/stringTools.h:18-20 | for input with a non-whitespace character, every element is non-empty and whitespace-free |
| `StringTools.RemoveWhitespace` | tools/stringTools.h:5 | the input with its whitespace dropped: whitespace-free and no longer than the input |
| `StringTools.RemoveWhitespaceOfRun` | tools/stringTools.h:18-19 | dropping whitespace keeps a leading whitespace-free run as it is |
| `StringTools.ConcatWords` | tools/stringTools.h:11-27 | the words concatenated are the input with its whitespace removed: no other character is lost, added or reordered |
| `StringTools.ConcatSplit` | tools/stringTools.h:3-30 | the same for the split result |
| `StringTools.RunCountOfRun` | tools/stringTools.h:18-25 | a run at the start counts once, then counting goes on after it |
| `StringTools.WordCountIsRunCount` | tools/stringTools.h:11-27 | there is one word per position where a whitespace-free run ends |
| `StringTools.RunLengthOfAppend` | tools/stringTools.h:18 | trailing whitespace does not change the first run |
| `StringTools.WordsOfAppendBlank` | tools/stringTools.h:23-25 | trailing whitespace adds no word |
| `StringTools.SplitIgnoresOuterWhitespace` | tools/stringTools.h:14-25 | leading and trailing whitespace do not change the split |
| `StringTools.SplitWord` | tools/stringTools.h:3-30 | a non-empty whitespace-free string splits into itself |
| `StringTools.SplitIdempotent` | tools/stringTools.h:3-30 | splitting any element of a split gives that element back |
| `StringTools.OnlyFourSeparators` | tools/stringTools.h:5 | vertical tab and form feed do not separate words |
| `StringTools.SplitJoinRoundTrip` | tools/stringTools.h:3-30 | splitting non-empty whitespace-free words joined by spaces gives the words back |
| `OpenCLEnums.ConstantName` | tools/OpenCLEnums.h:42-146 | each error constant's name, which starts with "CL_" and is longer than three characters |
| `OpenCLEnums.DeviceType` | tools/OpenCLEnums.h:21-40 | "<unknown>" exactly for a type that is none of the six named ones; a named type gives a "CL_..." name (distinct names: `DeviceTypeNamesDistinct`) |
| `OpenCLEnums.KernelEnqueError` | tools/OpenCLEnums.h:42-62 | the constant's name for the 14 codes clEnqueueNDRangeKernel lists, "<unknown>" otherwise |
| `OpenCLEnums.ContextCreateError` | tools/OpenCLEnums.h:64-80 | the constant's name for the 10 codes of clCreateContext, "<unknown>" otherwise |
| `OpenCLEnums.CreateProgramError` | tools/OpenCLEnums.h:82-93 | the constant's name for the 5 codes it lists, "<unknown>" otherwise |
| `OpenCLEnums.CreateKernelError` | tools/OpenCLEnums.h:95-109 | the constant's name for the 8 codes of clCreateKernel, "<unknown>" otherwise |
| `OpenCLEnums.SetKernelArgError` | tools/OpenCLEnums.h:111-126 | the constant's name for the 9 codes of clSetKernelArg, and "unknown" (without angle brackets) otherwise |
| `OpenCLEnums.EnqueKernelError` | tools/OpenCLEnums.h:128-148 | the same table as `kernelEnqueError` |
| `OpenCLEnums.DeviceTypeNamesDistinct` | tools/OpenCLEnums.h:25-36 | two different named device types never get the same name |
| `OpenCLEnums.NameRoundTrip` | tools/OpenCLEnums.h:46-146 | each constant's name leads back to that constant, through its length and last character |
| `OpenCLEnums.ConstantNamesDistinct` | tools/OpenCLEnums.h:46-146 | two different error constants never get the same name, so a decoder's answer identifies the code it was given |
| `OpenCLEnums.DecodedIsFallbackIff` | tools/OpenCLEnums.h:60 | a decoder answers its fallback if and only if it does not list the code |
| `OpenCLEnums.KernelEnqueAndEnqueKernelAgree` | tools/OpenCLEnums.h:42-62 | `kernelEnqueError` and `enqueKernelError` agree on every code |
| `OpenCLEnums.AllDecodeSuccess` | tools/OpenCLEnums.h:46 | every decoder names CL_SUCCESS (lines 46, 68, 86, 99, 115, 132) |
| `OpenCLEnums.NoDecoderIsEmpty` | tools/OpenCLEnums.h:21-148 | no decoder returns an empty string |
| `OpenCLEnums.CreateProgramErrorRecognises` | tools/OpenCLEnums.h:82-93 | `createProgramError` names exactly CL_SUCCESS, CL_INVALID_CONTEXT, CL_INVALID_VALUE, CL_OUT_OF_RESOURCES and CL_OUT_OF_HOST_MEMORY |
| `DeviceSelector.Substr` | helloWorld_SYCL.cpp:35 | `std::string::substr(pos, count)`: at most `count` characters, those at `pos` onwards |
| `DeviceSelector.Score` | helloWorld_SYCL.cpp:21-39 | negative exactly for a device without cl_khr_spir, and never zero |
| `DeviceSelector.IntelVendorIsPrefix` | helloWorld_SYCL.cpp:35 | the vendor test holds exactly when the vendor starts with "Intel" |
| `DeviceSelector.ScoreOrdersByPreference` | helloWorld_SYCL.cpp:24-38 | one device scores below another exactly when its class ranks lower in accelerator > GPU > Intel CPU > other CPU > other type > no SPIR, and equal exactly within a class |
| `DeviceSelector.OnlyNonSpirDevicesAreExcluded` | helloWorld_SYCL.cpp:24 | a device scores above zero exactly when it has cl_khr_spir; otherwise it scores -1 |
| `CheckOpenCL.ToSizeT` | checkOpenCL.cpp:123 | an `int` pushed into the `size_t` vector: the value modulo 2^64 |
| `CheckOpenCL.NegativeIndexIsHuge` | checkOpenCL.cpp:123 | a negative device number becomes an index past any realistic device list |
| `CheckOpenCL.FirstNonSpace` | checkOpenCL.cpp:49 | `find_first_not_of(' ')`: the first non-space index, only spaces before it; `None` exactly when only spaces follow |
| `CheckOpenCL.FormattedDeviceName` | checkOpenCL.cpp:46-50 | throws exactly when the name is empty or all spaces; otherwise the name without its leading spaces (tabs kept) |
| `CheckOpenCL.LastArgument` | checkOpenCL.cpp:130 | the option's argument list is the earlier arguments followed by the result, so it is the last one given |
| `CheckOpenCL.KeptIndices` | checkOpenCL.cpp:119-126 | at most one index per `--device` argument; order and completeness are in `KeptIndicesAppend` and `KeptIndicesOfOne` |
| `CheckOpenCL.RepeatCount` | checkOpenCL.cpp:128-132 | when the last `--repeat` parses, the count is its value; any count other than 1 comes from that argument |
| `CheckOpenCL.DataSizeOf` | checkOpenCL.cpp:134-144 | the size is positive and fits an `int`; when the last `--datasize` parses to a positive value the size is that value, and otherwise it is 4096 |
| `CheckOpenCL.Interpret` | checkOpenCL.cpp:107-144 | `--help` alone decides usage; the plan always has a positive data size; it prints when `--print` is given or when neither `--execute` nor `--spir` is |
| `CheckOpenCL.InterpretOptions` | checkOpenCL.cpp:88-144 | the option handling of `main`, with its loop over `--device` arguments, computes `Interpret` |
| `CheckOpenCL.KeptIndicesAllValid` | checkOpenCL.cpp:121-123 | when every `--device` argument parses, the indices are those values, in order |
| `CheckOpenCL.KeptIndicesAllInvalid` | checkOpenCL.cpp:124 | when none parses, no index is kept |
| `CheckOpenCL.KeptIndicesComeFromArguments` | checkOpenCL.cpp:123 | every kept index is the `size_t` value of some accepted argument |
| `CheckOpenCL.KeptIndicesAppend` | checkOpenCL.cpp:121-125 | the filter distributes over concatenation: every accepted argument is kept wherever it stands, in command-line order, among rejected ones |
| `CheckOpenCL.KeptIndicesOfOne` | checkOpenCL.cpp:123-124 | one argument is kept, as its `size_t` value, exactly when `stoi` accepts it |
| `CheckOpenCL.RepeatUsesLastOccurrence` | checkOpenCL.cpp:130 | two command lines whose last `--repeat` arguments agree give the same count, whatever came before |
| `CheckOpenCL.DataSizeUsesLastOccurrence` | checkOpenCL.cpp:136-141 | two command lines whose last `--datasize` arguments agree give the same size |
| `CheckOpenCL.RejectedLastDataSizeFallsBack` | checkOpenCL.cpp:139-143 | a last `--datasize` that does not parse or is not positive leaves 4096, even after a valid earlier one |
| `CheckOpenCL.AllIndices` | checkOpenCL.cpp:159 | 0 to n-1, ascending |
| `CheckOpenCL.Resolved` | checkOpenCL.cpp:158-159 | a non-empty selection is kept as it is; an empty one becomes every device index in order |
| `CheckOpenCL.ResolveDevices` | checkOpenCL.cpp:159 | its loop computes `Resolved` |
| `CheckOpenCL.OpenableFiles` | checkOpenCL.cpp:166-178 | no more files than requested, and every one of them opens; order and completeness are in `OpenableFilesAppend` and `OpenableFilesOfOne` |
| `CheckOpenCL.LoadBinaries` | checkOpenCL.cpp:166-178 | its loop computes `OpenableFiles` |
| `CheckOpenCL.OpenableFilesAppend` | checkOpenCL.cpp:167-177 | loading distributes over concatenation: the loaded files keep their order and repetitions |
| `CheckOpenCL.OpenableFilesOfOne` | checkOpenCL.cpp:169-177 | one file is loaded exactly when it opens |
| `CheckOpenCL.OpenableFilesMembers` | checkOpenCL.cpp:167-177 | a file is loaded if and only if it was requested and it opens |
| `CheckOpenCL.Programs` | checkOpenCL.cpp:212-226 | the source program first when `--execute` is given, then one program per binary in order |
| `CheckOpenCL.ProgramList` | checkOpenCL.cpp:212-226 | its loop computes `Programs` |
| `CheckOpenCL.MatchCount` | checkOpenCL.cpp:268-272 | at most the number of indices inspected |
| `CheckOpenCL.CountCorrect` | checkOpenCL.cpp:268-272 | the counting loop returns `MatchCount` over the shorter of input and output, never more than the data size |
| `CheckOpenCL.MatchCountIsMatchingIndices` | checkOpenCL.cpp:271 | the count is the number of indices whose result matches |
| `CheckOpenCL.AllMatchingCountsAll` | checkOpenCL.cpp:269-272 | when every result matches, every index counts |
| `CheckOpenCL.ProgramRun` | checkOpenCL.cpp:228-273 | one program on one device fails, with no event, exactly when the native API fails its build, kernel creation, argument setting, enqueueing or read-back; otherwise it gives one report for that run whose correct count is at most the data size |
| `CheckOpenCL.ProgramRuns` | checkOpenCL.cpp:228-274 | the programs in order on one device; the device completes exactly when no program's run fails |
| `CheckOpenCL.DeviceRun` | checkOpenCL.cpp:195-226 | an index past the device list gives one `NoSuchDevice` event and no failure; a name that cannot be formatted or a setup failure ends the run with no event; otherwise the programs run in order, and the index completes exactly when none of them fails |
| `CheckOpenCL.PassRuns` | checkOpenCL.cpp:191-275 | one repetition visits the selected indices in order and completes exactly when no visit fails |
| `CheckOpenCL.Repetitions` | checkOpenCL.cpp:189-276 | the repetitions in order; the run fails exactly when one of its passes fails |
| `CheckOpenCL.Passes` | checkOpenCL.cpp:188-189 | the loop `repetitionIndex != timesToRepeat` makes `timesToRepeat` passes when that is not negative, and otherwise runs until interrupted, after `passLimit` passes |
| `CheckOpenCL.ProgramOutcome` | checkOpenCL.cpp:86-286 | exit -1 exactly when the parser threw; otherwise exit 0 or -2, or an interruption, which happens only with a negative repetition count; events only when the options proceed and there are devices |
| `CheckOpenCL.RunSchedule` | checkOpenCL.cpp:186-276 | the repetition, device and program loops, with the skip and the early exit on a native error, produce exactly `Repetitions` |
| `CheckOpenCL.InputData` | checkOpenCL.cpp:182-184 | one generated input per element of the data size |
| `CheckOpenCL.PlanSetup` | checkOpenCL.cpp:186 | the schedule has no program exactly when `--execute` is absent and no SPIR file opened |
| `CheckOpenCL.PrintDevices` | checkOpenCL.cpp:63-69 | succeeds exactly when every device name can be formatted |
| `CheckOpenCL.CheckOpenCL` | checkOpenCL.cpp:86-286 | `main` produces `ProgramOutcome`: -1 on a parse error, 0 on `--help`, -2 without devices, on an unprintable name or on a native error, else 0 (or interrupted) with the schedule's events |
| `CheckOpenCL.ProgramRunsInOrder` | checkOpenCL.cpp:228-274 | on one device the programs report in order, one report each, unless one fails; each count is at most the data size |
| `CheckOpenCL.CorrectRunReportsAll` | checkOpenCL.cpp:268-273 | a run whose output all matches reports dataSize/dataSize correct |
| `CheckOpenCL.DeviceRunPlausible` | checkOpenCL.cpp:195-201 | a device's events belong to its repetition, name an existing device and a known program, and count at most the data size |
| `CheckOpenCL.PassRunsPlausible` | checkOpenCL.cpp:191-275 | the same for a whole pass over the selected devices |
| `CheckOpenCL.RepetitionsPlausible` | checkOpenCL.cpp:189-276 | every event of the schedule belongs to one of the repetitions made and is plausible |
| `CheckOpenCL.RepetitionsArePasses` | checkOpenCL.cpp:189 | without errors, the events of repetition r are exactly one pass when r is among the repetitions, and none otherwise |
| `CheckOpenCL.MorePassesExtend` | checkOpenCL.cpp:188-189 | one more repetition only extends the events, and adds nothing after an error |
| `CheckOpenCL.PassRunsAppend` | checkOpenCL.cpp:191 | a pass over two lists of devices is the first pass followed by the second |
| `CheckOpenCL.MissingDeviceIsSkipped` | checkOpenCL.cpp:195-199 | an index past the device list is reported and the pass goes on with the next index |
| `CheckOpenCL.FullPassReportsEveryRun` | checkOpenCL.cpp:191-275 | an error-free pass over existing devices reports devices x programs runs |
| `CheckOpenCL.HelpOnlyShowsUsage` | checkOpenCL.cpp:107-111 | `--help` exits with 0 and runs nothing, whatever else is given |
| `CheckOpenCL.NoDevicesFails` | checkOpenCL.cpp:155-156 | without devices the program exits with -2 and runs nothing |
| `CheckOpenCL.NothingToRunRunsNothing` | checkOpenCL.cpp:186 | without `--execute` and with no SPIR file that opens, nothing runs and the exit code is 0 or -2 |
| `CheckOpenCL.RejectedSelectionUsesAllDevices` | checkOpenCL.cpp:123-124 | when every `--device` argument is rejected, every device is used |
| `CheckOpenCL.ReportsAreBounded` | checkOpenCL.cpp:189-273 | every event of the program belongs to a repetition made; a skip names an index past the device list; a report names an existing device and counts at most the data size it reports |
| `CheckOpenCL.CompletedRunRepeatsExactly` | checkOpenCL.cpp:186-189 | a run ending with 0 holds, for each repetition r below `timesToRepeat`, exactly the events of one full pass `PassRuns(s, r, ...)`, and none for other r; with no program there are no events |

## Left out

- The native OpenCL and SYCL calls (device enumeration, contexts, buffers, program build, kernel enqueue, read-back): replaced by the answers of `NativeApi`, since their behaviour is not part of this repository.
- tools/CommandLineParser is not part of this model: its result is taken as `ParsedOptions`, and its exceptions as a `None` parse result.
- `std::stoi`: an oracle returning an `int` or `None`; its digit syntax and whitespace handling are not modelled.
- Floating point: the check `results[i] == data[i]*data[i]` is a `matches` parameter, and `rand()` a generator parameter.
- The SPIR file contents and sizes: only whether a file opens is modelled, since only that decides what runs.
- Printed text (usage, device information, diagnostics, "correct results" lines): only the events and exit codes are modelled.
- The `param_traits` specialisation in tools/OpenCLEnums.h (lines 8-17): a compile-time declaration with no behaviour.
- The numeric values of the OpenCL constants: error codes are named constants or `Other`, and device types are named types or `OtherType`, so a numeric code or bit pattern that equals a named constant's (an `OtherType` holding the CPU bits, say) is not modelled; such a value would decode to its name in the source, and `Other`/`OtherType` always decode to the fallback here.
- The work-group size and its clamp to the data size (lines 243-244): they affect only how the native API runs a kernel.
- `RunSchedule`: with a negative repetition count the program loops until interrupted; the model stops after `passLimit` whole passes, so neither an interruption inside a pass nor the overflow of the `int` repetition index is modelled.
- `RunSchedule`: context, queue, buffer and program creation are one `setupFails` answer per device and repetition, and building, naming, kernel creation, arguments, enqueue and read-back are one `runFails` answer per program, since each of these errors ends the run the same way (exit code -2).
- `NativeApi`: its answers are keyed by repetition, device index and program. When the same device index is selected twice (`--device 0 --device 0`), or the same SPIR file is given twice, both visits within one repetition get the same failure answer and the same output, whereas the source calls the native API afresh on each visit. Run-to-run differences are modelled only between repetitions.
- `deviceInformationString` (lines 52-61): only its call to `formattedDeviceName` can end the run; the type and platform strings it appends are not modelled.
