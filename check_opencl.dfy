/** The run planning and scheduling of checkOpenCL.cpp: how `main` turns the parsed command line into a
    plan, and the repetitions x selected devices x programs schedule it then runs, with the native
    OpenCL API seen only through what it answers. */
module CheckOpenCL {
  import opened Wrappers

  // ---------------------------------------------------------------------------------------------
  // Integer widths

  /** The source's `int`: 32 bits, two's complement. `std::stoi` throws rather than leave this range. */
  type Int32 = x: int | -0x8000_0000 <= x < 0x8000_0000

  const SizeTModulus: nat := 0x1_0000_0000_0000_0000

  /** The implicit conversion of an `int` to the 64-bit `size_t`: a negative value wraps to the top of the range. */
  function ToSizeT(v: Int32): (r: nat)
    ensures r < SizeTModulus && r == v % SizeTModulus
  {
    if v >= 0 then v else SizeTModulus + v
  }

  /** A negative `--device` argument becomes an index no device list reaches. */
  lemma NegativeIndexIsHuge(v: Int32, deviceCount: nat)
    requires v < 0 && deviceCount <= SizeTModulus - 0x8000_0000
    ensures ToSizeT(v) >= deviceCount
  {
  }

  // ---------------------------------------------------------------------------------------------
  // formattedDeviceName (line 49)

  /** `std::out_of_range`, thrown by `substr` when asked to start past the end. */
  datatype OutOfRange = OutOfRange

  /** `name.find_first_not_of(' ', from)`; `None` is `npos`. */
  function FirstNonSpace(name: string, from: nat): (r: Option<nat>)
    ensures r.Some? ==> from <= r.value < |name| && name[r.value] != ' '
    ensures r.Some? ==> forall j :: from <= j < r.value ==> name[j] == ' '
    ensures r.None? ==> forall j :: from <= j < |name| ==> name[j] == ' '
    decreases |name| - from
  {
    if from >= |name| then None
    else if name[from] != ' ' then Some(from)
    else FirstNonSpace(name, from + 1)
  }

  /** `formattedDeviceName`: the device name with its leading spaces removed (tabs and other characters
      stay). An empty or all-space name makes `substr(npos)` throw. */
  function FormattedDeviceName(name: string): (r: Result<string, OutOfRange>)
    ensures r.Failure? <==> forall i :: 0 <= i < |name| ==> name[i] == ' '
    ensures r.Success? ==>
      var k := |name| - |r.value|;
      && 0 <= k < |name|
      && r.value == name[k..]
      && r.value[0] != ' '
      && forall i :: 0 <= i < k ==> name[i] == ' '
  {
    match FirstNonSpace(name, 0)
    case None => Failure(OutOfRange)
    case Some(start) => Success(name[start..])
  }

  // ---------------------------------------------------------------------------------------------
  // The command line (lines 98-144)

  /** The options `main` declares. */
  datatype Flag = Help | Print | Execute | Spir | DeviceOption | Repeat | DataSize

  /** The options declared with `RequiredArgument`. */
  predicate TakesArgument(f: Flag) {
    f == Spir || f == DeviceOption || f == Repeat || f == DataSize
  }

  /** What the command-line parser hands `main`: the options that were given, and for each given option
      that takes an argument, its arguments, one per occurrence, in command-line order. */
  datatype ParsedOptions = ParsedOptions(present: set<Flag>, arguments: map<Flag, seq<string>>) {
    /** What the parser guarantees of its result. */
    predicate Valid() {
      && (forall f :: f in arguments ==> f in present && TakesArgument(f))
      && (forall f :: f in present && TakesArgument(f) ==> f in arguments && arguments[f] != [])
    }
  }

  /** `std::stoi`: an `int`, or `None` where it throws (no digits, out of range, ...). */
  type StoI = string -> Option<Int32>

  /** `optionArguments(f).back()`: the argument of the last occurrence of `f`. */
  function LastArgument(o: ParsedOptions, f: Flag): (arg: string)
    requires o.Valid() && f in o.present && TakesArgument(f)
    ensures o.arguments[f] == o.arguments[f][..|o.arguments[f]| - 1] + [arg]
  {
    o.arguments[f][|o.arguments[f]| - 1]
  }

  /** The plan `main` derives from its options. `devicesToUse` is the selection before the default of
      line 159 is applied. */
  datatype Plan = Plan(
    printDeviceInfo: bool,
    executeKernel: bool,
    spirFiles: seq<string>,
    devicesToUse: seq<nat>,
    timesToRepeat: Int32,
    dataSize: nat)

  datatype Interpretation = ShowUsage | Proceed(plan: Plan)

  const DefaultDataSize: nat := 4096

  /** The `--device` arguments that `stoi` accepts, as `size_t`, in command-line order; the others are
      dropped (with a diagnostic). */
  function KeptIndices(args: seq<string>, stoi: StoI): (r: seq<nat>)
    ensures |r| <= |args|
  {
    if args == [] then []
    else
      var kept := KeptIndices(args[..|args| - 1], stoi);
      match stoi(args[|args| - 1])
      case Some(v) => kept + [ToSizeT(v)]
      case None => kept
  }

  /** The repetition count: the last `--repeat` argument if `stoi` accepts it, else 1. */
  function RepeatCount(o: ParsedOptions, stoi: StoI): (times: Int32)
    requires o.Valid()
    ensures times != 1 ==> Repeat in o.present && stoi(LastArgument(o, Repeat)) == Some(times)
    ensures Repeat in o.present && stoi(o.arguments[Repeat][|o.arguments[Repeat]| - 1]).Some? ==>
      times == stoi(o.arguments[Repeat][|o.arguments[Repeat]| - 1]).value
  {
    if Repeat !in o.present then 1
    else match stoi(LastArgument(o, Repeat))
      case Some(v) => v
      case None => 1
  }

  /** The data size: the last `--datasize` argument if `stoi` accepts it and it is positive, else 4096. */
  function DataSizeOf(o: ParsedOptions, stoi: StoI): (n: nat)
    requires o.Valid()
    ensures 1 <= n < 0x8000_0000
    ensures n != DefaultDataSize ==>
      DataSize in o.present && stoi(LastArgument(o, DataSize)).Some? && stoi(LastArgument(o, DataSize)).value == n
    ensures (DataSize in o.present && stoi(o.arguments[DataSize][|o.arguments[DataSize]| - 1]).Some?
             && stoi(o.arguments[DataSize][|o.arguments[DataSize]| - 1]).value > 0) ==>
      n == stoi(o.arguments[DataSize][|o.arguments[DataSize]| - 1]).value
  {
    if DataSize !in o.present then DefaultDataSize
    else match stoi(LastArgument(o, DataSize))
      case Some(v) => if v <= 0 then DefaultDataSize else v
      case None => DefaultDataSize
  }

  /** Lines 107-144 as one value. `--help` wins over everything else; without `--print`, `--execute` or
      `--spir` the program only prints. */
  function Interpret(o: ParsedOptions, stoi: StoI): (r: Interpretation)
    requires o.Valid()
    ensures r.ShowUsage? <==> Help in o.present
    ensures r.Proceed? ==>
      && r.plan.dataSize >= 1
      && r.plan.executeKernel == (Execute in o.present)
      && (r.plan.printDeviceInfo <==> Print in o.present || (Execute !in o.present && Spir !in o.present))
  {
    if Help in o.present then ShowUsage
    else
      var execute := Execute in o.present;
      var spir := if Spir in o.present then o.arguments[Spir] else [];
      Proceed(Plan(
        Print in o.present || (!execute && spir == []),
        execute,
        spir,
        if DeviceOption in o.present then KeptIndices(o.arguments[DeviceOption], stoi) else [],
        RepeatCount(o, stoi),
        DataSizeOf(o, stoi)))
  }

  /** The option handling of `main`, lines 88-144: locals set to their defaults, then overwritten as
      the options are read. */
  method InterpretOptions(o: ParsedOptions, stoi: StoI) returns (r: Interpretation)
    requires o.Valid()
    ensures r == Interpret(o, stoi)
  {
    if Help in o.present {
      return ShowUsage;
    }
    var printDeviceInfo := false;
    var executeKernel := false;
    var executeSpirFiles: seq<string> := [];
    var devicesToUse: seq<nat> := [];
    var timesToRepeat: Int32 := 1;
    var dataSize: nat := DefaultDataSize;

    if Print in o.present {
      printDeviceInfo := true;
    }
    if Execute in o.present {
      executeKernel := true;
    }
    if Spir in o.present {
      executeSpirFiles := o.arguments[Spir];
    }
    if !printDeviceInfo && !executeKernel && executeSpirFiles == [] {
      printDeviceInfo := true;
    }

    if DeviceOption in o.present {
      var args := o.arguments[DeviceOption];
      for i := 0 to |args|
        invariant devicesToUse == KeptIndices(args[..i], stoi)
      {
        assert args[..i + 1][..i] == args[..i];
        match stoi(args[i]) {
          case Some(v) => devicesToUse := devicesToUse + [ToSizeT(v)];
          case None => // "is an invalid device number!"
        }
      }
      assert args[..|args|] == args;
    }

    if Repeat in o.present {
      match stoi(LastArgument(o, Repeat)) {
        case Some(v) => timesToRepeat := v;
        case None => // "is an invalid number of times to repeat execution!"
      }
    }

    if DataSize in o.present {
      var argument := LastArgument(o, DataSize);
      match stoi(argument) {
        case Some(newSize) =>
          if newSize > 0 {
            dataSize := newSize;
          }
        case None => // "must be a non zero positive integer for --datasize"
      }
    }

    r := Proceed(Plan(printDeviceInfo, executeKernel, executeSpirFiles, devicesToUse, timesToRepeat, dataSize));
  }

  /** Every `--device` argument that `stoi` accepts is kept, in command-line order, as its `size_t` value. */
  lemma {:induction false} KeptIndicesAllValid(args: seq<string>, stoi: StoI)
    requires forall i :: 0 <= i < |args| ==> stoi(args[i]).Some?
    ensures |KeptIndices(args, stoi)| == |args|
    ensures forall i :: 0 <= i < |args| ==> KeptIndices(args, stoi)[i] == ToSizeT(stoi(args[i]).value)
    decreases |args|
  {
    if args != [] {
      var init := args[..|args| - 1];
      KeptIndicesAllValid(init, stoi);
    }
  }

  /** When `stoi` rejects every `--device` argument, nothing is kept. */
  lemma {:induction false} KeptIndicesAllInvalid(args: seq<string>, stoi: StoI)
    requires forall i :: 0 <= i < |args| ==> stoi(args[i]).None?
    ensures KeptIndices(args, stoi) == []
    decreases |args|
  {
    if args != [] {
      KeptIndicesAllInvalid(args[..|args| - 1], stoi);
    }
  }

  /** Every kept index comes from an argument `stoi` accepts. */
  lemma {:induction false} KeptIndicesComeFromArguments(args: seq<string>, stoi: StoI, k: nat)
    requires k < |KeptIndices(args, stoi)|
    ensures exists i :: 0 <= i < |args| && stoi(args[i]).Some? && KeptIndices(args, stoi)[k] == ToSizeT(stoi(args[i]).value)
    decreases |args|
  {
    var init := args[..|args| - 1];
    var kept := KeptIndices(init, stoi);
    if k < |kept| {
      KeptIndicesComeFromArguments(init, stoi, k);
      var i :| 0 <= i < |init| && stoi(init[i]).Some? && kept[k] == ToSizeT(stoi(init[i]).value);
      assert init[i] == args[i];
    } else {
      assert stoi(args[|args| - 1]).Some?;
    }
  }

  /** Filtering distributes over concatenation: an accepted argument is kept wherever it stands, and
      the kept indices keep the command-line order. */
  lemma {:induction false} KeptIndicesAppend(a: seq<string>, b: seq<string>, stoi: StoI)
    ensures KeptIndices(a + b, stoi) == KeptIndices(a, stoi) + KeptIndices(b, stoi)
    decreases |b|
  {
    if b == [] {
      assert a + b == a;
    } else {
      var init := b[..|b| - 1];
      assert (a + b)[..|a + b| - 1] == a + init;
      assert (a + b)[|a + b| - 1] == b[|b| - 1];
      KeptIndicesAppend(a, init, stoi);
    }
  }

  /** One argument is kept, as its `size_t` value, exactly when `stoi` accepts it. */
  lemma KeptIndicesOfOne(x: string, stoi: StoI)
    ensures KeptIndices([x], stoi) == if stoi(x).Some? then [ToSizeT(stoi(x).value)] else []
  {
    assert [x][..0] == [];
  }

  /** Only the last `--repeat` counts: two command lines whose last `--repeat` arguments agree give the same
      count, whatever came before. */
  lemma RepeatUsesLastOccurrence(o: ParsedOptions, p: ParsedOptions, stoi: StoI, earlier: seq<string>, later: seq<string>, last: string)
    requires o.Valid() && p.Valid() && Repeat in o.present && Repeat in p.present
    requires o.arguments[Repeat] == earlier + [last] && p.arguments[Repeat] == later + [last]
    ensures RepeatCount(o, stoi) == RepeatCount(p, stoi)
  {
    assert LastArgument(o, Repeat) == last == LastArgument(p, Repeat);
  }

  /** Only the last `--datasize` counts, in the same way. */
  lemma DataSizeUsesLastOccurrence(o: ParsedOptions, p: ParsedOptions, stoi: StoI, earlier: seq<string>, later: seq<string>, last: string)
    requires o.Valid() && p.Valid() && DataSize in o.present && DataSize in p.present
    requires o.arguments[DataSize] == earlier + [last] && p.arguments[DataSize] == later + [last]
    ensures DataSizeOf(o, stoi) == DataSizeOf(p, stoi)
  {
    assert LastArgument(o, DataSize) == last == LastArgument(p, DataSize);
  }

  /** An earlier valid `--datasize` does not rescue a rejected last one: the size falls back to 4096. */
  lemma RejectedLastDataSizeFallsBack(o: ParsedOptions, stoi: StoI)
    requires o.Valid() && DataSize in o.present
    requires stoi(LastArgument(o, DataSize)).None? || stoi(LastArgument(o, DataSize)).value <= 0
    ensures DataSizeOf(o, stoi) == DefaultDataSize
  {
  }

  // ---------------------------------------------------------------------------------------------
  // Device selection (line 159)

  /** The indices 0, 1, ..., n - 1, ascending. */
  function AllIndices(n: nat): (r: seq<nat>)
    ensures |r| == n && forall i :: 0 <= i < n ==> r[i] == i
  {
    if n == 0 then [] else AllIndices(n - 1) + [n - 1]
  }

  /** The devices the schedule visits: the selection, or every device when none was selected (also when
      every `--device` argument was rejected). */
  function Resolved(devicesToUse: seq<nat>, deviceCount: nat): (r: seq<nat>)
    ensures devicesToUse != [] ==> r == devicesToUse
    ensures devicesToUse == [] ==> |r| == deviceCount && forall i :: 0 <= i < deviceCount ==> r[i] == i
  {
    if devicesToUse != [] then devicesToUse else AllIndices(deviceCount)
  }

  /** Line 159. */
  method ResolveDevices(devicesToUse: seq<nat>, deviceCount: nat) returns (r: seq<nat>)
    ensures r == Resolved(devicesToUse, deviceCount)
  {
    r := devicesToUse;
    if r == [] {
      for index := 0 to deviceCount
        invariant r == AllIndices(index)
      {
        r := r + [index];
      }
    }
  }

  // ---------------------------------------------------------------------------------------------
  // SPIR binaries (lines 166-178) and the programs built per device (lines 212-226)

  /** The SPIR files that open, in command-line order; the others only draw a diagnostic. */
  function OpenableFiles(files: seq<string>, openable: string -> bool): (r: seq<string>)
    ensures |r| <= |files|
    ensures forall i :: 0 <= i < |r| ==> openable(r[i])
  {
    if files == [] then []
    else
      var loaded := OpenableFiles(files[..|files| - 1], openable);
      if openable(files[|files| - 1]) then loaded + [files[|files| - 1]] else loaded
  }

  /** Lines 166-178: the loop that reads each requested SPIR file. */
  method LoadBinaries(files: seq<string>, openable: string -> bool) returns (binaries: seq<string>)
    ensures binaries == OpenableFiles(files, openable)
  {
    binaries := [];
    for i := 0 to |files|
      invariant binaries == OpenableFiles(files[..i], openable)
    {
      assert files[..i + 1][..i] == files[..i];
      if openable(files[i]) {
        binaries := binaries + [files[i]];
      } // else "Unable to open SPIR file"
    }
    assert files[..|files|] == files;
  }

  /** A file is loaded exactly when it was requested and opens. */
  lemma {:induction false} OpenableFilesMembers(files: seq<string>, openable: string -> bool, f: string)
    ensures f in OpenableFiles(files, openable) <==> f in files && openable(f)
    decreases |files|
  {
    if files != [] {
      var init := files[..|files| - 1];
      OpenableFilesMembers(init, openable, f);
      assert files == init + [files[|files| - 1]];
    }
  }

  /** Loading distributes over concatenation: the loaded files keep their order and their repetitions. */
  lemma {:induction false} OpenableFilesAppend(a: seq<string>, b: seq<string>, openable: string -> bool)
    ensures OpenableFiles(a + b, openable) == OpenableFiles(a, openable) + OpenableFiles(b, openable)
    decreases |b|
  {
    if b == [] {
      assert a + b == a;
    } else {
      var init := b[..|b| - 1];
      assert (a + b)[..|a + b| - 1] == a + init;
      assert (a + b)[|a + b| - 1] == b[|b| - 1];
      OpenableFilesAppend(a, init, openable);
    }
  }

  /** One file is loaded exactly when it opens. */
  lemma OpenableFilesOfOne(f: string, openable: string -> bool)
    ensures OpenableFiles([f], openable) == if openable(f) then [f] else []
  {
    assert [f][..0] == [];
  }

  /** A program the schedule runs: the embedded test kernel, or a loaded SPIR binary. */
  datatype Program = Source | Binary(file: string)

  /** The programs created for each device: the embedded source first when `--execute` is given,
      then each loaded binary in file order. */
  function Programs(executeKernel: bool, binaries: seq<string>): (r: seq<Program>)
    ensures var offset := if executeKernel then 1 else 0;
      && |r| == offset + |binaries|
      && (executeKernel ==> r[0] == Source)
      && forall k :: 0 <= k < |binaries| ==> r[offset + k] == Binary(binaries[k])
  {
    (if executeKernel then [Source] else []) + seq(|binaries|, k requires 0 <= k < |binaries| => Binary(binaries[k]))
  }

  /** Lines 212-226: the `openCLPrograms` list, source first, then one program per binary. */
  method ProgramList(executeKernel: bool, binaries: seq<string>) returns (programs: seq<Program>)
    ensures programs == Programs(executeKernel, binaries)
  {
    programs := [];
    if executeKernel {
      programs := programs + [Source];
    }
    var offset := |programs|;
    for k := 0 to |binaries|
      invariant |programs| == offset + k
      invariant programs[..offset] == (if executeKernel then [Source] else [])
      invariant forall j :: 0 <= j < k ==> programs[offset + j] == Binary(binaries[j])
    {
      programs := programs + [Binary(binaries[k])];
    }
  }

  // ---------------------------------------------------------------------------------------------
  // Checking the output (lines 268-273)

  /** How many of the first `n` indices hold a result that matches its input: `results[i] == data[i]*data[i]`,
      with the float comparison left to `matches`. */
  function MatchCount<T>(data: seq<T>, results: seq<T>, matches: (T, T) -> bool, n: nat): (count: nat)
    requires n <= |data| && n <= |results|
    ensures count <= n
  {
    if n == 0 then 0
    else MatchCount(data, results, matches, n - 1) + (if matches(results[n - 1], data[n - 1]) then 1 else 0)
  }

  function Min(a: nat, b: nat): nat {
    if a <= b then a else b
  }

  /** Lines 268-272: the `correctResults` counter. */
  method CountCorrect<T>(data: seq<T>, results: seq<T>, matches: (T, T) -> bool) returns (correct: nat)
    ensures correct == MatchCount(data, results, matches, Min(|data|, |results|))
    ensures correct <= |data|
  {
    correct := 0;
    var index := 0;
    while index < |data| && index < |results|
      invariant index <= Min(|data|, |results|)
      invariant correct == MatchCount(data, results, matches, index)
    {
      if matches(results[index], data[index]) {
        correct := correct + 1;
      }
      index := index + 1;
    }
  }

  /** The count is the number of indices whose result matches. */
  lemma {:induction false} MatchCountIsMatchingIndices<T>(data: seq<T>, results: seq<T>, matches: (T, T) -> bool, n: nat)
    requires n <= |data| && n <= |results|
    ensures MatchCount(data, results, matches, n) == |set i | 0 <= i < n && matches(results[i], data[i])|
  {
    if n > 0 {
      MatchCountIsMatchingIndices(data, results, matches, n - 1);
      var before := set i | 0 <= i < n - 1 && matches(results[i], data[i]);
      var now := set i | 0 <= i < n && matches(results[i], data[i]);
      if matches(results[n - 1], data[n - 1]) {
        assert now == before + {n - 1};
      } else {
        assert now == before;
      }
    }
  }

  /** When every result matches, every index counts. */
  lemma {:induction false} AllMatchingCountsAll<T>(data: seq<T>, results: seq<T>, matches: (T, T) -> bool, n: nat)
    requires n <= |data| && n <= |results|
    requires forall i :: 0 <= i < n ==> matches(results[i], data[i])
    ensures MatchCount(data, results, matches, n) == n
  {
    if n > 0 {
      AllMatchingCountsAll(data, results, matches, n - 1);
    }
  }

  // ---------------------------------------------------------------------------------------------
  // The schedule (lines 186-276)

  /** A device of the enumerated list; only its name matters to the model. */
  datatype Device = Device(name: string)

  /** One run of one program on one device in one repetition. */
  datatype RunId = RunId(repetition: nat, device: nat, program: Program)

  /** What the native API answers. `setupFails(repetition, device)`: creating the context, buffers, input
      copy or a program fails, which all happen before any program runs on that device;
      `runFails(run)`: building, kernel creation, argument setting, enqueueing or reading back fails for
      that program; `output(run, i)` is `results[i]` after the run. */
  datatype NativeApi<T> = NativeApi(setupFails: (nat, nat) -> bool, runFails: RunId -> bool, output: (RunId, nat) -> T)

  /** What a schedule works with: the enumerated devices, the programs, the input data, the comparison
      and the native API. */
  datatype Setup<!T> = Setup(devices: seq<Device>, programs: seq<Program>, data: seq<T>, matches: (T, T) -> bool, native: NativeApi<T>)

  /** What the schedule reports: a selected index with no device behind it, or a program run with its
      correct count and total ("correct/total correct results"). */
  datatype Event = NoSuchDevice(repetition: nat, index: nat) | Report(run: RunId, correct: nat, total: nat)

  /** Events so far, and whether a native error ended the run (an exception leading to exit code -2). */
  datatype Trace = Trace(events: seq<Event>, failed: bool)

  const Done: Trace := Trace([], false)

  /** `a` followed by `b`, unless `a` ended in an error. */
  function Then(a: Trace, b: Trace): Trace {
    if a.failed then a else Trace(a.events + b.events, b.failed)
  }

  lemma ThenAssociative(a: Trace, b: Trace, c: Trace)
    ensures Then(Then(a, b), c) == Then(a, Then(b, c))
  {
    if !a.failed && !b.failed {
      assert (a.events + b.events) + c.events == a.events + (b.events + c.events);
    }
  }

  lemma ThenDone(a: Trace)
    ensures Then(a, Done) == a && Then(Done, a) == a
  {
    assert a.events + [] == a.events;
    assert [] + a.events == a.events;
  }

  /** `results` after a run: the output buffer read back, one element per input. */
  function Results<T>(s: Setup<T>, run: RunId): (r: seq<T>)
    ensures |r| == |s.data|
  {
    seq(|s.data|, i requires 0 <= i < |s.data| => s.native.output(run, i))
  }

  /** One program on one device: a report of its correct count, or an error. */
  function ProgramRun<T>(s: Setup<T>, repetition: nat, device: nat, p: Program): (t: Trace)
    ensures t.failed <==> s.native.runFails(RunId(repetition, device, p))
    ensures t.failed ==> t.events == []
    ensures !t.failed ==>
      |t.events| == 1 && t.events[0].Report? && t.events[0].run == RunId(repetition, device, p)
      && t.events[0].correct <= t.events[0].total == |s.data|
  {
    var run := RunId(repetition, device, p);
    if s.native.runFails(run) then Trace([], true)
    else Trace([Report(run, MatchCount(s.data, Results(s, run), s.matches, |s.data|), |s.data|)], false)
  }

  /** The programs, in order, on one device. */
  function ProgramRuns<T>(s: Setup<T>, repetition: nat, device: nat, programs: seq<Program>): (t: Trace)
    ensures !t.failed <==> forall k :: 0 <= k < |programs| ==> !s.native.runFails(RunId(repetition, device, programs[k]))
    decreases |programs|
  {
    if programs == [] then Done
    else Then(ProgramRun(s, repetition, device, programs[0]), ProgramRuns(s, repetition, device, programs[1..]))
  }

  /** One selected index in one repetition: skipped when no device has it; otherwise the device's name
      is formatted (which may throw), its setup done, and its programs run. */
  function DeviceRun<T>(s: Setup<T>, repetition: nat, index: nat): (t: Trace)
    ensures index >= |s.devices| ==> t == Trace([NoSuchDevice(repetition, index)], false)
    ensures index < |s.devices| && (FormattedDeviceName(s.devices[index].name).Failure? || s.native.setupFails(repetition, index))
      ==> t.failed && t.events == []
    ensures !t.failed <==> (index >= |s.devices|
      || (FormattedDeviceName(s.devices[index].name).Success? && !s.native.setupFails(repetition, index)
          && forall k :: 0 <= k < |s.programs| ==> !s.native.runFails(RunId(repetition, index, s.programs[k]))))
  {
    if index >= |s.devices| then Trace([NoSuchDevice(repetition, index)], false)
    else if FormattedDeviceName(s.devices[index].name).Failure? || s.native.setupFails(repetition, index) then Trace([], true)
    else ProgramRuns(s, repetition, index, s.programs)
  }

  /** One repetition: the selected indices in order. */
  function PassRuns<T>(s: Setup<T>, repetition: nat, indices: seq<nat>): (t: Trace)
    ensures !t.failed <==> forall i :: 0 <= i < |indices| ==> !DeviceRun(s, repetition, indices[i]).failed
    decreases |indices|
  {
    if indices == [] then Done
    else Then(DeviceRun(s, repetition, indices[0]), PassRuns(s, repetition, indices[1..]))
  }

  /** Repetitions `from` to `to - 1`. */
  function Repetitions<T>(s: Setup<T>, indices: seq<nat>, from: nat, to: nat): (t: Trace)
    ensures t.failed ==> exists r :: from <= r < to && PassRuns(s, r, indices).failed
    ensures (exists r :: from <= r < to && PassRuns(s, r, indices).failed) ==> t.failed
    decreases if from < to then to - from else 0
  {
    if from >= to then Done
    else
      Then(PassRuns(s, from, indices), Repetitions(s, indices, from + 1, to))
  }

  /** The passes the repetition loop makes: exactly `timesToRepeat` when that is not negative. A negative
      count never ends the loop; `passLimit` stands for the passes made before the user interrupts it. */
  function Passes(timesToRepeat: Int32, passLimit: nat): (n: nat)
    ensures timesToRepeat >= 0 ==> n == timesToRepeat
    ensures timesToRepeat < 0 ==> n == passLimit
  {
    if timesToRepeat >= 0 then timesToRepeat else passLimit
  }

  /** Lines 189-276: for each repetition, for each selected index, for each program. Returns the events and
      whether a native error ended the run. */
  method RunSchedule<T>(s: Setup<T>, indices: seq<nat>, timesToRepeat: Int32, passLimit: nat)
    returns (events: seq<Event>, failed: bool)
    ensures Trace(events, failed) == Repetitions(s, indices, 0, Passes(timesToRepeat, passLimit))
  {
    events := [];
    ghost var passes := Passes(timesToRepeat, passLimit);
    ghost var whole := Repetitions(s, indices, 0, passes);
    ThenDone(whole);
    var repetition: nat := 0;
    while repetition != timesToRepeat && (timesToRepeat >= 0 || repetition < passLimit)
      invariant repetition <= passes
      invariant Then(Trace(events, false), Repetitions(s, indices, repetition, passes)) == whole
      decreases passes - repetition
    {
      ghost var afterPass := Repetitions(s, indices, repetition + 1, passes);
      assert indices[0..] == indices;
      ThenAssociative(Trace(events, false), PassRuns(s, repetition, indices), afterPass);
      for i := 0 to |indices|
        invariant Then(Trace(events, false), Then(PassRuns(s, repetition, indices[i..]), afterPass)) == whole
      {
        var deviceNumber := indices[i];
        ghost var afterDevice := Then(PassRuns(s, repetition, indices[i + 1..]), afterPass);
        assert indices[i..][1..] == indices[i + 1..];
        ThenAssociative(DeviceRun(s, repetition, deviceNumber), PassRuns(s, repetition, indices[i + 1..]), afterPass);
        if deviceNumber >= |s.devices| {
          // "There is no device numbered ..."
          ThenAssociative(Trace(events, false), Trace([NoSuchDevice(repetition, deviceNumber)], false), afterDevice);
          events := events + [NoSuchDevice(repetition, deviceNumber)];
          continue;
        }
        if FormattedDeviceName(s.devices[deviceNumber].name).Failure? || s.native.setupFails(repetition, deviceNumber) {
          return events, true;
        }
        assert s.programs[0..] == s.programs;
        for j := 0 to |s.programs|
          invariant Then(Trace(events, false), Then(ProgramRuns(s, repetition, deviceNumber, s.programs[j..]), afterDevice)) == whole
        {
          var run := RunId(repetition, deviceNumber, s.programs[j]);
          assert s.programs[j..][1..] == s.programs[j + 1..];
          ghost var rest := ProgramRuns(s, repetition, deviceNumber, s.programs[j + 1..]);
          ThenAssociative(ProgramRun(s, repetition, deviceNumber, s.programs[j]), rest, afterDevice);
          if s.native.runFails(run) {
            return events, true;
          }
          var results := Results(s, run);
          var correct := CountCorrect(s.data, results, s.matches);
          ThenAssociative(Trace(events, false), Trace([Report(run, correct, |s.data|)], false), Then(rest, afterDevice));
          events := events + [Report(run, correct, |s.data|)];
        }
        ThenDone(afterDevice);
      }
      ThenDone(afterPass);
      repetition := repetition + 1;
    }
    failed := false;
  }

  // ---------------------------------------------------------------------------------------------
  // The whole program

  /** Everything `main` gets from outside: `stoi`, the enumerated devices, which files open, the input
      data generator (`rand()`), the float comparison, the native API, and how many passes an unbounded
      repetition makes before the user interrupts it. */
  datatype Environment<!T> = Environment(
    stoi: StoI,
    devices: seq<Device>,
    openable: string -> bool,
    random: nat -> T,
    matches: (T, T) -> bool,
    native: NativeApi<T>,
    passLimit: nat)

  /** The exit code of `main`, or an interruption of an unbounded repetition. */
  datatype ExitStatus = Exit(code: int) | Interrupted

  datatype Outcome = Outcome(status: ExitStatus, events: seq<Event>)

  /** Line 184: the input data. */
  function InputData<T>(n: nat, random: nat -> T): (data: seq<T>)
    ensures |data| == n
  {
    seq(n, i requires 0 <= i < n => random(i))
  }

  /** `printDevices` formats every device name; one that throws ends the run. */
  predicate AllNamesPrintable(devices: seq<Device>) {
    forall i :: 0 <= i < |devices| ==> FormattedDeviceName(devices[i].name).Success?
  }

  /** What the schedule of a plan runs on: the enumerated devices, the source program and the SPIR
      files that open, and `dataSize` generated inputs. */
  function PlanSetup<T>(plan: Plan, env: Environment<T>): (s: Setup<T>)
    ensures s.programs == [] <==> !plan.executeKernel && OpenableFiles(plan.spirFiles, env.openable) == []
  {
    Setup(env.devices, Programs(plan.executeKernel, OpenableFiles(plan.spirFiles, env.openable)),
      InputData(plan.dataSize, env.random), env.matches, env.native)
  }

  /** What `main` does, given the parse result (`None` when the parser threw). */
  function ProgramOutcome<T>(parsed: Option<ParsedOptions>, env: Environment<T>): (out: Outcome)
    requires parsed.Some? ==> parsed.value.Valid()
    ensures out.status == Exit(-1) <==> parsed.None?
    ensures out.status.Exit? ==> out.status.code in {-1, 0, -2}
    ensures out.status.Interrupted? ==>
      parsed.Some? && Interpret(parsed.value, env.stoi).Proceed? && Interpret(parsed.value, env.stoi).plan.timesToRepeat < 0
    ensures out.events != [] ==> parsed.Some? && Interpret(parsed.value, env.stoi).Proceed? && env.devices != []
  {
    if parsed.None? then Outcome(Exit(-1), [])
    else match Interpret(parsed.value, env.stoi)
      case ShowUsage => Outcome(Exit(0), [])
      case Proceed(plan) =>
        if env.devices == [] then Outcome(Exit(-2), [])
        else if plan.printDeviceInfo && !AllNamesPrintable(env.devices) then Outcome(Exit(-2), [])
        else
          var s := PlanSetup(plan, env);
          if s.programs == [] then Outcome(Exit(0), [])
          else
            var t := Repetitions(s, Resolved(plan.devicesToUse, |env.devices|), 0, Passes(plan.timesToRepeat, env.passLimit));
            Outcome(if t.failed then Exit(-2) else if plan.timesToRepeat < 0 then Interrupted else Exit(0), t.events)
  }

  /** `printDevices` (lines 63-69): fails on the first name that cannot be formatted. */
  method PrintDevices(devices: seq<Device>) returns (ok: bool)
    ensures ok == AllNamesPrintable(devices)
  {
    for index := 0 to |devices|
      invariant forall i :: 0 <= i < index ==> FormattedDeviceName(devices[i].name).Success?
    {
      if FormattedDeviceName(devices[index].name).Failure? {
        return false;
      }
    }
    return true;
  }

  /** `main` (lines 86-286). */
  method CheckOpenCL<T>(parsed: Option<ParsedOptions>, env: Environment<T>) returns (outcome: Outcome)
    requires parsed.Some? ==> parsed.value.Valid()
    ensures outcome == ProgramOutcome(parsed, env)
  {
    if parsed.None? {
      return Outcome(Exit(-1), []);
    }
    var interpretation := InterpretOptions(parsed.value, env.stoi);
    if interpretation.ShowUsage? {
      return Outcome(Exit(0), []);
    }
    var plan := interpretation.plan;
    var devices := env.devices;
    if devices == [] {
      return Outcome(Exit(-2), []);
    }
    var devicesToUse := ResolveDevices(plan.devicesToUse, |devices|);
    if plan.printDeviceInfo {
      var printed := PrintDevices(devices);
      if !printed {
        return Outcome(Exit(-2), []);
      }
    }
    var binaries := LoadBinaries(plan.spirFiles, env.openable);
    var data := InputData(plan.dataSize, env.random);
    if binaries != [] || plan.executeKernel {
      var programs := ProgramList(plan.executeKernel, binaries);
      var s := Setup(devices, programs, data, env.matches, env.native);
      var events, failed := RunSchedule(s, devicesToUse, plan.timesToRepeat, env.passLimit);
      var status := if failed then Exit(-2) else if plan.timesToRepeat < 0 then Interrupted else Exit(0);
      return Outcome(status, events);
    }
    return Outcome(Exit(0), []);
  }

  // ---------------------------------------------------------------------------------------------
  // Properties of the schedule

  /** The repetition an event belongs to. */
  function RepetitionOf(e: Event): nat {
    match e
    case NoSuchDevice(repetition, _) => repetition
    case Report(run, _, _) => run.repetition
  }

  /** The events of one repetition, in order. */
  function EventsOf(events: seq<Event>, repetition: nat): (r: seq<Event>)
    ensures |r| <= |events|
    ensures forall k :: 0 <= k < |r| ==> RepetitionOf(r[k]) == repetition
  {
    if events == [] then []
    else (if RepetitionOf(events[0]) == repetition then [events[0]] else []) + EventsOf(events[1..], repetition)
  }

  lemma {:induction false} EventsOfAppend(a: seq<Event>, b: seq<Event>, repetition: nat)
    ensures EventsOf(a + b, repetition) == EventsOf(a, repetition) + EventsOf(b, repetition)
    decreases |a|
  {
    if a != [] {
      assert (a + b)[1..] == a[1..] + b;
      EventsOfAppend(a[1..], b, repetition);
    } else {
      assert a + b == b;
    }
  }

  lemma {:induction false} EventsOfOneRepetition(events: seq<Event>, of: nat, repetition: nat)
    requires forall k :: 0 <= k < |events| ==> RepetitionOf(events[k]) == of
    ensures EventsOf(events, repetition) == if repetition == of then events else []
    decreases |events|
  {
    if events != [] {
      EventsOfOneRepetition(events[1..], of, repetition);
    }
  }

  /** What an event may say given the devices and the data size: a report is about an existing device,
      one of the programs, and at most all elements correct; a skip is about an index past the end. */
  predicate Plausible<T>(s: Setup<T>, e: Event) {
    match e
    case NoSuchDevice(_, index) => index >= |s.devices|
    case Report(run, correct, total) =>
      run.device < |s.devices| && run.program in s.programs && correct <= total == |s.data|
  }

  /** Program order: the runs of one device report, one per program, in the order of the programs, and
      all of them do unless one fails. */
  lemma {:induction false} ProgramRunsInOrder<T>(s: Setup<T>, repetition: nat, device: nat, programs: seq<Program>)
    ensures |ProgramRuns(s, repetition, device, programs).events| <= |programs|
    ensures !ProgramRuns(s, repetition, device, programs).failed ==> |ProgramRuns(s, repetition, device, programs).events| == |programs|
    ensures forall k :: 0 <= k < |ProgramRuns(s, repetition, device, programs).events| ==>
      (var e := ProgramRuns(s, repetition, device, programs).events[k];
       e.Report? && e.run == RunId(repetition, device, programs[k]) && e.correct <= e.total == |s.data|)
    decreases |programs|
  {
    if programs != [] {
      ProgramRunsInOrder(s, repetition, device, programs[1..]);
      var first := ProgramRun(s, repetition, device, programs[0]);
      var rest := ProgramRuns(s, repetition, device, programs[1..]);
      if !first.failed {
        assert |first.events| == 1;
        var t := ProgramRuns(s, repetition, device, programs);
        assert t.events == first.events + rest.events;
        forall k | 1 <= k < |t.events|
          ensures t.events[k] == rest.events[k - 1] && programs[k] == programs[1..][k - 1]
        {
        }
      }
    }
  }

  /** When every output element matches its input, the run reports all of them correct. */
  lemma CorrectRunReportsAll<T>(s: Setup<T>, repetition: nat, device: nat, p: Program)
    requires !s.native.runFails(RunId(repetition, device, p))
    requires forall i :: 0 <= i < |s.data| ==> s.matches(s.native.output(RunId(repetition, device, p), i), s.data[i])
    ensures ProgramRun(s, repetition, device, p).events == [Report(RunId(repetition, device, p), |s.data|, |s.data|)]
  {
    var run := RunId(repetition, device, p);
    AllMatchingCountsAll(s.data, Results(s, run), s.matches, |s.data|);
  }

  /** Every event belongs to `repetition` and is plausible. */
  predicate PlausiblePass<T>(s: Setup<T>, repetition: nat, events: seq<Event>) {
    forall k :: 0 <= k < |events| ==> RepetitionOf(events[k]) == repetition && Plausible(s, events[k])
  }

  lemma PlausiblePassAppend<T>(s: Setup<T>, repetition: nat, a: seq<Event>, b: seq<Event>)
    requires PlausiblePass(s, repetition, a) && PlausiblePass(s, repetition, b)
    ensures PlausiblePass(s, repetition, a + b)
  {
    forall k | 0 <= k < |a + b|
      ensures RepetitionOf((a + b)[k]) == repetition && Plausible(s, (a + b)[k])
    {
      if k >= |a| {
        assert (a + b)[k] == b[k - |a|];
      }
    }
  }

  /** The events of one selected index belong to its repetition and are plausible. */
  lemma DeviceRunPlausible<T>(s: Setup<T>, repetition: nat, index: nat)
    ensures PlausiblePass(s, repetition, DeviceRun(s, repetition, index).events)
  {
    if index < |s.devices| && DeviceRun(s, repetition, index) == ProgramRuns(s, repetition, index, s.programs) {
      var events := ProgramRuns(s, repetition, index, s.programs).events;
      ProgramRunsInOrder(s, repetition, index, s.programs);
      forall k | 0 <= k < |events|
        ensures RepetitionOf(events[k]) == repetition && Plausible(s, events[k])
      {
        assert events[k].run.program == s.programs[k];
      }
    }
  }

  /** Every event of one repetition belongs to it and is plausible. */
  lemma {:induction false} PassRunsPlausible<T>(s: Setup<T>, repetition: nat, indices: seq<nat>)
    ensures PlausiblePass(s, repetition, PassRuns(s, repetition, indices).events)
    decreases |indices|
  {
    if indices != [] {
      PassRunsPlausible(s, repetition, indices[1..]);
      DeviceRunPlausible(s, repetition, indices[0]);
      var first := DeviceRun(s, repetition, indices[0]);
      if !first.failed {
        PlausiblePassAppend(s, repetition, first.events, PassRuns(s, repetition, indices[1..]).events);
      }
    }
  }

  /** Every event of a run of repetitions belongs to one of them and is plausible. */
  lemma {:induction false} RepetitionsPlausible<T>(s: Setup<T>, indices: seq<nat>, from: nat, to: nat)
    ensures forall k :: 0 <= k < |Repetitions(s, indices, from, to).events| ==>
      from <= RepetitionOf(Repetitions(s, indices, from, to).events[k]) < to
      && Plausible(s, Repetitions(s, indices, from, to).events[k])
    decreases if from < to then to - from else 0
  {
    if from < to {
      PassRunsPlausible(s, from, indices);
      RepetitionsPlausible(s, indices, from + 1, to);
    }
  }

  /** Each repetition makes one full pass over the same indices and programs: the events of repetition
      `r` are exactly those of the pass `PassRuns(s, r, indices)` when `r` is among the repetitions made,
      and there are none otherwise. */
  lemma {:induction false} RepetitionsArePasses<T>(s: Setup<T>, indices: seq<nat>, from: nat, to: nat, r: nat)
    requires !Repetitions(s, indices, from, to).failed
    ensures EventsOf(Repetitions(s, indices, from, to).events, r)
      == (if from <= r < to then PassRuns(s, r, indices).events else [])
    decreases if from < to then to - from else 0
  {
    if from < to {
      var pass := PassRuns(s, from, indices);
      var rest := Repetitions(s, indices, from + 1, to);
      RepetitionsArePasses(s, indices, from + 1, to, r);
      EventsOfAppend(pass.events, rest.events, r);
      PassRunsPlausible(s, from, indices);
      EventsOfOneRepetition(pass.events, from, r);
    }
  }

  /** One more pass only extends the events, and adds nothing after an error. */
  lemma {:induction false} MorePassesExtend<T>(s: Setup<T>, indices: seq<nat>, from: nat, to: nat)
    ensures Repetitions(s, indices, from, to).events <= Repetitions(s, indices, from, to + 1).events
    ensures Repetitions(s, indices, from, to).failed ==> Repetitions(s, indices, from, to + 1) == Repetitions(s, indices, from, to)
    decreases if from < to then to - from else 0
  {
    if from < to {
      MorePassesExtend(s, indices, from + 1, to);
    } else if from == to {
      ThenDone(PassRuns(s, from, indices));
    }
  }

  /** A pass over two lists of indices is the pass over the first followed by the pass over the second. */
  lemma {:induction false} PassRunsAppend<T>(s: Setup<T>, repetition: nat, xs: seq<nat>, ys: seq<nat>)
    ensures PassRuns(s, repetition, xs + ys) == Then(PassRuns(s, repetition, xs), PassRuns(s, repetition, ys))
    decreases |xs|
  {
    if xs == [] {
      assert xs + ys == ys;
      ThenDone(PassRuns(s, repetition, ys));
    } else {
      assert (xs + ys)[1..] == xs[1..] + ys;
      PassRunsAppend(s, repetition, xs[1..], ys);
      ThenAssociative(DeviceRun(s, repetition, xs[0]), PassRuns(s, repetition, xs[1..]), PassRuns(s, repetition, ys));
    }
  }

  /** An index with no device behind it is reported and skipped: the pass goes on with the next one. */
  lemma MissingDeviceIsSkipped<T>(s: Setup<T>, repetition: nat, xs: seq<nat>, index: nat, ys: seq<nat>)
    requires index >= |s.devices|
    ensures PassRuns(s, repetition, xs + [index] + ys)
      == Then(PassRuns(s, repetition, xs), Then(Trace([NoSuchDevice(repetition, index)], false), PassRuns(s, repetition, ys)))
  {
    PassRunsAppend(s, repetition, xs + [index], ys);
    PassRunsAppend(s, repetition, xs, [index]);
    ThenAssociative(PassRuns(s, repetition, xs), PassRuns(s, repetition, [index]), PassRuns(s, repetition, ys));
    assert [index][1..] == [];
    ThenDone(DeviceRun(s, repetition, index));
  }

  /** A pass without errors over existing devices reports every program on every selected device. */
  lemma {:induction false} FullPassReportsEveryRun<T>(s: Setup<T>, repetition: nat, indices: seq<nat>)
    requires !PassRuns(s, repetition, indices).failed
    requires forall i :: 0 <= i < |indices| ==> indices[i] < |s.devices|
    ensures |PassRuns(s, repetition, indices).events| == |indices| * |s.programs|
    decreases |indices|
  {
    if indices != [] {
      var index := indices[0];
      var first := DeviceRun(s, repetition, index);
      var rest := PassRuns(s, repetition, indices[1..]);
      assert !first.failed;
      assert first == ProgramRuns(s, repetition, index, s.programs);
      ProgramRunsInOrder(s, repetition, index, s.programs);
      assert |PassRuns(s, repetition, indices).events| == |first.events| + |rest.events|;
      FullPassReportsEveryRun(s, repetition, indices[1..]);
      MultiplySuccessor(|indices[1..]|, |s.programs|);
    }
  }

  lemma MultiplySuccessor(n: nat, p: nat)
    ensures (n + 1) * p == p + n * p
  {
  }

  // ---------------------------------------------------------------------------------------------
  // Properties of the whole program

  /** `--help` only prints the usage and exits with 0, whatever else is given. */
  lemma HelpOnlyShowsUsage<T>(o: ParsedOptions, env: Environment<T>)
    requires o.Valid() && Help in o.present
    ensures ProgramOutcome(Some(o), env) == Outcome(Exit(0), [])
  {
  }

  /** Without an OpenCL device the program exits with -2 before doing anything. */
  lemma NoDevicesFails<T>(o: ParsedOptions, env: Environment<T>)
    requires o.Valid() && Help !in o.present && env.devices == []
    ensures ProgramOutcome(Some(o), env) == Outcome(Exit(-2), [])
  {
  }

  /** Without `--execute` and without a SPIR file that opens, nothing is run. */
  lemma NothingToRunRunsNothing<T>(o: ParsedOptions, env: Environment<T>)
    requires o.Valid() && Execute !in o.present
    requires Spir in o.present ==> forall i :: 0 <= i < |o.arguments[Spir]| ==> !env.openable(o.arguments[Spir][i])
    ensures ProgramOutcome(Some(o), env).events == []
    ensures ProgramOutcome(Some(o), env).status in {Exit(0), Exit(-2)}
  {
    if Help !in o.present && Spir in o.present {
      var files := o.arguments[Spir];
      if OpenableFiles(files, env.openable) != [] {
        var f := OpenableFiles(files, env.openable)[0];
        OpenableFilesMembers(files, env.openable, f);
      }
    }
  }

  /** When every `--device` argument is rejected, every device is used, as when none is given. */
  lemma RejectedSelectionUsesAllDevices(args: seq<string>, stoi: StoI, deviceCount: nat)
    requires forall i :: 0 <= i < |args| ==> stoi(args[i]).None?
    ensures Resolved(KeptIndices(args, stoi), deviceCount) == AllIndices(deviceCount)
  {
    KeptIndicesAllInvalid(args, stoi);
  }

  /** Every report of a run is about an existing device and a correct count no larger than the data
      size; every skip names an index past the device list; and each event belongs to a pass made. */
  lemma ReportsAreBounded<T>(o: ParsedOptions, env: Environment<T>)
    requires o.Valid() && Help !in o.present
    ensures forall e :: e in ProgramOutcome(Some(o), env).events ==>
      && RepetitionOf(e) < Passes(Interpret(o, env.stoi).plan.timesToRepeat, env.passLimit)
      && (e.NoSuchDevice? ==> e.index >= |env.devices|)
      && (e.Report? ==> e.run.device < |env.devices| && e.correct <= e.total == Interpret(o, env.stoi).plan.dataSize)
  {
    var plan := Interpret(o, env.stoi).plan;
    var s := PlanSetup(plan, env);
    RepetitionsPlausible(s, Resolved(plan.devicesToUse, |env.devices|), 0, Passes(plan.timesToRepeat, env.passLimit));
  }

  /** A run that ends normally with exit code 0 made one full pass over the selected devices for each
      of its `timesToRepeat` repetitions, or none when there is no program to run. */
  lemma CompletedRunRepeatsExactly<T>(o: ParsedOptions, env: Environment<T>, r: nat)
    requires o.Valid() && Help !in o.present
    requires ProgramOutcome(Some(o), env).status == Exit(0)
    ensures
      (var plan := Interpret(o, env.stoi).plan;
       var s := PlanSetup(plan, env);
       EventsOf(ProgramOutcome(Some(o), env).events, r)
         == if r < plan.timesToRepeat && s.programs != []
            then PassRuns(s, r, Resolved(plan.devicesToUse, |env.devices|)).events
            else [])
  {
    var plan := Interpret(o, env.stoi).plan;
    var s := PlanSetup(plan, env);
    if s.programs != [] {
      RepetitionsArePasses(s, Resolved(plan.devicesToUse, |env.devices|), 0, Passes(plan.timesToRepeat, env.passLimit), r);
    }
  }
}
