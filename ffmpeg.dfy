/** The conversion pipeline of src/lib/ffmpeg.ts: the lazily created engine instance, the
    output name, the command handed to the engine, the staging and clean-up of files in the
    engine's virtual file system, and the sequential batch.

    The engine is foreign code. It is modelled by what this module can observe of it: whether
    the module variable holds an instance, whether that instance finished loading, its virtual
    file system, and the commands it was given. What the engine does while it runs a command
    is a parameter: the files it leaves behind (`written`). */
module Ffmpeg {
  import opened Wrappers

  /** What `readFile` yields: the file's bytes, or a text the engine returns instead. */
  datatype FileData = Binary(bytes: seq<int>) | Text(text: string)

  /** The options `convertFile` reads; an absent option is `None`. */
  datatype ConversionOptions = ConversionOptions(
    format: string,
    resolution: Option<string>,
    bitrate: Option<string>,
    codec: Option<string>)

  /** A file handed to `batchConvert`: its name and its bytes (`fetchFile(file)`). */
  datatype InputFile = InputFile(name: string, bytes: seq<int>)

  /** What `convertFile` returns. */
  datatype Converted = Converted(file: seq<int>, name: string)

  /** Why a conversion rejects. */
  datatype ConvertError =
    | LoadFailed(reason: string)        // `ffmpeg.load` rejected inside `init`
    | NotLoaded                         // the engine refuses calls on an instance that never loaded
    | ReadFailed(name: string)          // `readFile` found no file of that name
    | ConversionFailed(output: string)  // "Failed to convert file: " followed by the text read

  /** An optional string option counts when it is present and not empty (JavaScript truthiness). */
  predicate Given(o: Option<string>)
  {
    o.Some? && o.value != ""
  }

  // ---------------------------------------------------------------- output name

  /** `name.split('.')[0]`: the part of the name before its first dot, or the whole name. */
  function Stem(name: string): (stem: string)
    ensures stem <= name
    ensures '.' !in stem
    ensures |stem| < |name| ==> name[|stem|] == '.'
  {
    if name == [] then []
    else if name[0] == '.' then []
    else [name[0]] + Stem(name[1..])
  }

  /** The three properties of `Stem` determine it: no other prefix has them. */
  lemma {:induction false} StemUnique(name: string, p: string)
    requires p <= name && '.' !in p
    requires |p| < |name| ==> name[|p|] == '.'
    ensures p == Stem(name)
  {
    if name != [] && name[0] != '.' {
      StemUnique(name[1..], p[1..]);
    }
  }

  function OutputFileName(name: string, format: string): string
  {
    Stem(name) + "-converted." + format
  }

  /** The output name keeps the input name up to its first dot, or the whole of a name without
      one, and never equals the input name. */
  lemma OutputFileNameShape(name: string, format: string)
    ensures '.' !in name ==> OutputFileName(name, format) == name + "-converted." + format
    ensures OutputFileName(name, format) != name
  {
    var stem, out := Stem(name), OutputFileName(name, format);
    if '.' !in name {
      StemUnique(name, name);
    }
    assert out[|stem|] == '-';
    if |name| == |out| {
      assert name[|stem|] == '.';
    }
  }

  /** `a.b.mp4` converted to WebM is named `a-converted.webm`. */
  lemma OutputFileNameExample()
    ensures OutputFileName("a.b.mp4", "webm") == "a-converted.webm"
  {
    StemUnique("a.b.mp4", "a");
  }

  // ---------------------------------------------------------------- command

  const DefaultCodec: string := "libx264"

  /** The codec passed with `-c:v`: the given one, else `libx264`. */
  function CodecOf(options: ConversionOptions): string
  {
    if Given(options.codec) then options.codec.value else DefaultCodec
  }

  function Flag(name: string, value: Option<string>): seq<string>
  {
    if Given(value) then [name, value.value] else []
  }

  /** The command `convertFile` hands to the engine. */
  function Command(input: string, options: ConversionOptions, output: string): (cmd: seq<string>)
    ensures |cmd| == 5 + (if Given(options.resolution) then 2 else 0)
                       + (if Given(options.bitrate) then 2 else 0)
    ensures cmd[0] == "-i" && cmd[1] == input && cmd[|cmd| - 1] == output
    ensures cmd[|cmd| - 3] == "-c:v" && cmd[|cmd| - 2] == CodecOf(options)
    ensures Given(options.resolution) ==> cmd[2..4] == ["-s", options.resolution.value]
    ensures Given(options.bitrate) ==> cmd[|cmd| - 5..|cmd| - 3] == ["-b:v", options.bitrate.value]
  {
    ["-i", input] + Flag("-s", options.resolution) + Flag("-b:v", options.bitrate)
      + ["-c:v", CodecOf(options)] + [output]
  }

  /** What a command asks for, as the engine reads it back. */
  datatype Invocation = Invocation(
    input: string,
    resolution: Option<string>,
    bitrate: Option<string>,
    codec: Option<string>,
    output: string)

  /** Reads flag/value pairs; an unknown flag or a flag without a value is not understood. */
  function ParseFlags(flags: seq<string>, inv: Invocation): Option<Invocation>
    decreases |flags|
  {
    if flags == [] then Some(inv)
    else if |flags| < 2 then None
    else if flags[0] == "-s" then ParseFlags(flags[2..], inv.(resolution := Some(flags[1])))
    else if flags[0] == "-b:v" then ParseFlags(flags[2..], inv.(bitrate := Some(flags[1])))
    else if flags[0] == "-c:v" then ParseFlags(flags[2..], inv.(codec := Some(flags[1])))
    else None
  }

  /** Reads `-i <input> <flags…> <output>`. */
  function ParseCommand(cmd: seq<string>): Option<Invocation>
  {
    if |cmd| < 3 || cmd[0] != "-i" then None
    else ParseFlags(cmd[2..|cmd| - 1], Invocation(cmd[1], None, None, None, cmd[|cmd| - 1]))
  }

  function GivenOrNone(o: Option<string>): Option<string>
  {
    if Given(o) then o else None
  }

  /** Reading the command back gives the input, the resolution and the bitrate exactly when they
      were given, always a codec (`libx264` by default), and the output. */
  lemma CommandRoundTrip(input: string, options: ConversionOptions, output: string)
    ensures ParseCommand(Command(input, options, output)) ==
      Some(Invocation(input, GivenOrNone(options.resolution), GivenOrNone(options.bitrate),
                      Some(CodecOf(options)), output))
  {
    var cmd := Command(input, options, output);
    var start := Invocation(input, None, None, None, output);
    var res, br := Flag("-s", options.resolution), Flag("-b:v", options.bitrate);
    var codec := ["-c:v", CodecOf(options)];
    assert cmd[2..|cmd| - 1] == res + br + codec;
    var afterRes := start.(resolution := GivenOrNone(options.resolution));
    var afterBr := afterRes.(bitrate := GivenOrNone(options.bitrate));
    assert ParseFlags(codec, afterBr) == Some(afterBr.(codec := Some(CodecOf(options))));
    if Given(options.bitrate) {
      assert (br + codec)[2..] == codec;
    }
    assert ParseFlags(br + codec, afterRes) == ParseFlags(codec, afterBr);
    if Given(options.resolution) {
      assert (res + br + codec)[2..] == br + codec;
    }
    assert ParseFlags(res + br + codec, start) == ParseFlags(br + codec, afterRes);
  }

  // ---------------------------------------------------------------- engine state

  /** What is observable of the engine: whether the module variable holds an instance, whether
      that instance finished loading, its virtual file system, how many instances were
      constructed (each is loaded once), and the commands it was given, oldest first. */
  datatype EngineState = EngineState(
    hasInstance: bool,
    loaded: bool,
    fileSystem: map<string, FileData>,
    loads: nat,
    commands: seq<seq<string>>)

  /** The state after a step and what the step returned or threw. */
  datatype Step<T> = Step(state: EngineState, result: Result<T, ConvertError>)

  /** `init`: constructs and loads an instance only while the module variable is empty. The
      variable is set before `load` runs, so a failed load leaves it set to an unloaded
      instance, and later calls do nothing. */
  function InitSpec(s: EngineState, loadFailure: Option<string>): (r: Step<()>)
    ensures r.state.hasInstance
    ensures s.hasInstance ==> r == Step(s, Ok(()))
    ensures !s.hasInstance ==>
              (&& r.state.loads == s.loads + 1 && r.state.fileSystem == map[]
               && r.state.commands == s.commands
               && (r.result.Ok? <==> loadFailure.None?)
               && (r.state.loaded <==> loadFailure.None?))
  {
    if s.hasInstance then Step(s, Ok(()))
    else
      var constructed := s.(hasInstance := true, loaded := false, fileSystem := map[],
                            loads := s.loads + 1);
      if loadFailure.Some? then Step(constructed, Err(LoadFailed(loadFailure.value)))
      else Step(constructed.(loaded := true), Ok(()))
  }

  /** The rest of `convertFile` once `init` has returned: stage the input, run the command, read
      the output and, only when it is binary, delete both files. */
  function StagedConvert(s: EngineState, bytes: seq<int>, name: string,
                         options: ConversionOptions, written: map<string, FileData>): Step<Converted>
  {
    if !s.loaded then Step(s, Err(NotLoaded))
    else
      var out := OutputFileName(name, options.format);
      var staged := s.fileSystem[name := Binary(bytes)] + written;
      var ran := s.(fileSystem := staged, commands := s.commands + [Command(name, options, out)]);
      if out !in staged then Step(ran, Err(ReadFailed(out)))
      else match staged[out]
        case Text(t) => Step(ran, Err(ConversionFailed(t)))
        case Binary(b) => Step(ran.(fileSystem := staged - {name} - {out}), Ok(Converted(b, out)))
  }

  /** What a conversion does once `init` has returned. On an unloaded instance it throws at once.
      Otherwise it runs exactly one command; it succeeds exactly when the output file read back
      is binary, whatever else the engine did, and then returns those bytes under the output
      name and deletes both staged files; when it throws after staging, both files stay. */
  lemma StagedConvertSpec(s: EngineState, bytes: seq<int>, name: string,
                          options: ConversionOptions, written: map<string, FileData>)
    ensures var r := StagedConvert(s, bytes, name, options, written);
      && r.state.hasInstance == s.hasInstance && r.state.loaded == s.loaded
      && r.state.loads == s.loads
      && (!s.loaded ==> r == Step(s, Err(NotLoaded)))
      && (s.loaded ==>
            var out := OutputFileName(name, options.format);
            var staged := s.fileSystem[name := Binary(bytes)] + written;
            && r.state.commands == s.commands + [Command(name, options, out)]
            && (r.result.Ok? <==> out in staged && staged[out].Binary?)
            && (r.result.Ok? ==> r.result.value == Converted(staged[out].bytes, out)
                                 && r.state.fileSystem == staged - {name} - {out}
                                 && name !in r.state.fileSystem && out !in r.state.fileSystem)
            && (r.result.Err? ==> r.state.fileSystem == staged && name in r.state.fileSystem))
  {
    OutputFileNameShape(name, options.format);
  }

  /** `convertFile`: `init`, then the staged conversion. */
  function ConvertSpec(s: EngineState, bytes: seq<int>, name: string, options: ConversionOptions,
                       loadFailure: Option<string>, written: map<string, FileData>): Step<Converted>
  {
    var init := InitSpec(s, loadFailure);
    if init.result.Err? then Step(init.state, Err(init.result.error))
    else StagedConvert(init.state, bytes, name, options, written)
  }

  /** Once the module variable holds an instance whose load failed, every conversion throws
      without touching the engine: the instance is never replaced. */
  lemma PoisonedInstanceNeverRecovers(s: EngineState, bytes: seq<int>, name: string,
                                      options: ConversionOptions, loadFailure: Option<string>,
                                      written: map<string, FileData>)
    requires s.hasInstance && !s.loaded
    ensures ConvertSpec(s, bytes, name, options, loadFailure, written) == Step(s, Err(NotLoaded))
  {
  }

  /** The command `convertFile` gives the engine for one input file. */
  function CommandFor(options: ConversionOptions): InputFile -> seq<string>
  {
    (input: InputFile) => Command(input.name, options, OutputFileName(input.name, options.format))
  }

  /** The commands of a batch in which every file is attempted, one per file, in order. */
  function CommandsFor(cmd: InputFile -> seq<string>, inputs: seq<InputFile>): (cmds: seq<seq<string>>)
    ensures |cmds| == |inputs|
  {
    if inputs == [] then [] else [cmd(inputs[0])] + CommandsFor(cmd, inputs[1..])
  }

  /** The `k`-th command of a batch is the command for the `k`-th file. */
  lemma {:induction false} CommandsForEach(cmd: InputFile -> seq<string>, inputs: seq<InputFile>)
    ensures forall k :: 0 <= k < |inputs| ==> CommandsFor(cmd, inputs)[k] == cmd(inputs[k])
  {
    if inputs != [] {
      CommandsForEach(cmd, inputs[1..]);
    }
  }

  /** One file of a batch from a given engine state: `convertFile`, whose `init` never fails
      again once the batch has started (`None`), and `written` is what the engine leaves. */
  type Converter = (EngineState, InputFile, map<string, FileData>) -> Step<Converted>

  function BatchStep(options: ConversionOptions): Converter
  {
    (s: EngineState, input: InputFile, w: map<string, FileData>) =>
      ConvertSpec(s, input.bytes, input.name, options, None, w)
  }

  /** The loop of `batchConvert` over any conversion of one file: convert the files in order
      and stop at the first that throws. */
  function Chain(convert: Converter, s: EngineState, inputs: seq<InputFile>,
                 written: seq<map<string, FileData>>): Step<seq<seq<int>>>
    requires |written| == |inputs|
    decreases |inputs|
  {
    if inputs == [] then Step(s, Ok([]))
    else
      var first := convert(s, inputs[0], written[0]);
      if first.result.Err? then Step(first.state, Err(first.result.error))
      else
        var rest := Chain(convert, first.state, inputs[1..], written[1..]);
        if rest.result.Err? then rest
        else Step(rest.state, Ok([first.result.value.file] + rest.result.value))
  }

  /** `batchConvert`: `init`, then the loop. */
  function BatchSpec(s: EngineState, inputs: seq<InputFile>, options: ConversionOptions,
                     loadFailure: Option<string>, written: seq<map<string, FileData>>): Step<seq<seq<int>>>
    requires |written| == |inputs|
  {
    var init := InitSpec(s, loadFailure);
    if init.result.Err? then Step(init.state, Err(init.result.error))
    else Chain(BatchStep(options), init.state, inputs, written)
  }

  /** A step `r` from `s` gave the engine no command or exactly `cmd`, and the latter whenever
      it succeeded; the instance stays set. */
  predicate IssuesOnly(s: EngineState, cmd: seq<string>, r: Step<Converted>)
  {
    && r.state.hasInstance
    && (r.state.commands == s.commands || r.state.commands == s.commands + [cmd])
    && (r.result.Ok? ==> r.state.commands == s.commands + [cmd])
  }

  /** A conversion inside a batch, where the instance is already set, gives the engine at most
      the command for its own file. */
  lemma ConvertOneCommand(s: EngineState, input: InputFile, options: ConversionOptions,
                          written: map<string, FileData>)
    requires s.hasInstance
    ensures IssuesOnly(s, CommandFor(options)(input), BatchStep(options)(s, input, written))
  {
    StagedConvertSpec(s, input.bytes, input.name, options, written);
  }

  /** Running any chain whose steps each give at most their own file's command: the commands
      given to the engine are always the first ones of the batch in which every file is
      attempted, and on success there is one result per file and all of those commands were
      given. */
  lemma {:induction false} ChainInOrder(convert: Converter, cmd: InputFile -> seq<string>,
                                        s: EngineState, inputs: seq<InputFile>,
                                        written: seq<map<string, FileData>>)
    requires |written| == |inputs| && s.hasInstance
    requires forall t: EngineState, x: InputFile, w: map<string, FileData> ::
               t.hasInstance ==> IssuesOnly(t, cmd(x), convert(t, x, w))
    decreases |inputs|
    ensures var r := Chain(convert, s, inputs, written);
      && r.state.hasInstance
      && s.commands <= r.state.commands
      && |r.state.commands| <= |s.commands| + |inputs|
      && r.state.commands == s.commands + CommandsFor(cmd, inputs)[..|r.state.commands| - |s.commands|]
      && (r.result.Ok? ==> |r.result.value| == |inputs|
                           && r.state.commands == s.commands + CommandsFor(cmd, inputs))
  {
    if inputs != [] {
      var first := convert(s, inputs[0], written[0]);
      var cmd0 := cmd(inputs[0]);
      var all := CommandsFor(cmd, inputs);
      assert IssuesOnly(s, cmd0, first);
      assert all == [cmd0] + CommandsFor(cmd, inputs[1..]);
      if first.result.Ok? {
        var rest := Chain(convert, first.state, inputs[1..], written[1..]);
        ChainInOrder(convert, cmd, first.state, inputs[1..], written[1..]);
        assert first.state.commands == s.commands + [cmd0];
        var n := |rest.state.commands| - |first.state.commands|;
        assert all[..n + 1] == [cmd0] + CommandsFor(cmd, inputs[1..])[..n];
        if rest.result.Ok? {
          assert Chain(convert, s, inputs, written)
              == Step(rest.state, Ok([first.result.value.file] + rest.result.value));
        } else {
          assert Chain(convert, s, inputs, written) == rest;
        }
      } else {
        assert Chain(convert, s, inputs, written) == Step(first.state, Err(first.result.error));
        assert all[..0] == [];
        assert all[..1] == [cmd0];
      }
    }
  }

  /** The batch of `batchConvert` runs its files strictly in order (see `ChainInOrder`). */
  lemma ConvertEachInOrder(s: EngineState, inputs: seq<InputFile>, options: ConversionOptions,
                           written: seq<map<string, FileData>>)
    requires |written| == |inputs| && s.hasInstance
    ensures var r := Chain(BatchStep(options), s, inputs, written);
      var all := CommandsFor(CommandFor(options), inputs);
      && s.commands <= r.state.commands
      && |r.state.commands| <= |s.commands| + |inputs|
      && r.state.commands == s.commands + all[..|r.state.commands| - |s.commands|]
      && (r.result.Ok? ==> |r.result.value| == |inputs| && r.state.commands == s.commands + all)
  {
    forall t: EngineState, x: InputFile, w: map<string, FileData> | t.hasInstance
      ensures IssuesOnly(t, CommandFor(options)(x), BatchStep(options)(t, x, w))
    {
      ConvertOneCommand(t, x, options, w);
    }
    ChainInOrder(BatchStep(options), CommandFor(options), s, inputs, written);
  }

  /** Converting `a + b` is converting `a` and then, only if every file of `a` succeeded,
      converting `b` from where `a` left the engine, the results of `a` first. */
  lemma {:induction false} ChainAppend(convert: Converter, s: EngineState, a: seq<InputFile>,
                                       b: seq<InputFile>, wa: seq<map<string, FileData>>,
                                       wb: seq<map<string, FileData>>)
    requires |wa| == |a| && |wb| == |b|
    decreases |a|
    ensures var ra := Chain(convert, s, a, wa);
      Chain(convert, s, a + b, wa + wb) ==
        if ra.result.Err? then ra
        else
          var rb := Chain(convert, ra.state, b, wb);
          if rb.result.Err? then rb else Step(rb.state, Ok(ra.result.value + rb.result.value))
  {
    if a == [] {
      assert a + b == b && wa + wb == wb;
      var rb := Chain(convert, s, b, wb);
      if rb.result.Ok? {
        assert [] + rb.result.value == rb.result.value;
      }
    } else {
      assert (a + b)[0] == a[0] && (wa + wb)[0] == wa[0];
      assert (a + b)[1..] == a[1..] + b && (wa + wb)[1..] == wa[1..] + wb;
      var first := convert(s, a[0], wa[0]);
      if first.result.Ok? {
        ChainAppend(convert, first.state, a[1..], b, wa[1..], wb);
        var ra' := Chain(convert, first.state, a[1..], wa[1..]);
        if ra'.result.Ok? {
          var rb := Chain(convert, ra'.state, b, wb);
          if rb.result.Ok? {
            assert [first.result.value.file] + (ra'.result.value + rb.result.value)
                == ([first.result.value.file] + ra'.result.value) + rb.result.value;
          }
        }
      }
    }
  }

  /** One more turn of the loop: after a prefix that succeeded, the next file decides. */
  lemma ChainSnoc(convert: Converter, s: EngineState, a: seq<InputFile>, x: InputFile,
                  wa: seq<map<string, FileData>>, w: map<string, FileData>,
                  t: EngineState, results: seq<seq<int>>)
    requires |wa| == |a| && Chain(convert, s, a, wa) == Step(t, Ok(results))
    ensures var f := convert(t, x, w);
      Chain(convert, s, a + [x], wa + [w]) ==
        if f.result.Err? then Step(f.state, Err(f.result.error))
        else Step(f.state, Ok(results + [f.result.value.file]))
  {
    ChainAppend(convert, s, a, [x], wa, [w]);
    var f := convert(t, x, w);
    assert [x][1..] == [] && [w][1..] == [];
    if f.result.Ok? {
      assert Chain(convert, f.state, [x][1..], [w][1..]) == Step(f.state, Ok([]));
      assert [f.result.value.file] + [] == [f.result.value.file];
    }
  }

  /** Fail-fast: once a file of the batch throws, the files after it are never attempted, so
      they change neither the outcome nor the engine. */
  lemma ChainStopsAtFailure(convert: Converter, s: EngineState, a: seq<InputFile>,
                            b: seq<InputFile>, wa: seq<map<string, FileData>>,
                            wb: seq<map<string, FileData>>)
    requires |wa| == |a| && |wb| == |b|
    requires Chain(convert, s, a, wa).result.Err?
    ensures Chain(convert, s, a + b, wa + wb) == Chain(convert, s, a, wa)
  {
    ChainAppend(convert, s, a, b, wa, wb);
  }

  lemma TakeOneMore<T>(s: seq<T>, i: nat)
    requires i < |s|
    ensures s[..i + 1] == s[..i] + [s[i]]
  {
  }

  lemma TakeDrop<T>(s: seq<T>, i: nat)
    requires i <= |s|
    ensures s[..i] + s[i..] == s
  {
  }

  /** The argument array of `convertFile`, assembled flag by flag. */
  method BuildCommand(input: string, options: ConversionOptions, output: string)
    returns (command: seq<string>)
    ensures command == Command(input, options, output)
  {
    command := ["-i", input];
    if Given(options.resolution) {
      command := command + ["-s", options.resolution.value];
    }
    if Given(options.bitrate) {
      command := command + ["-b:v", options.bitrate.value];
    }
    if Given(options.codec) {
      command := command + ["-c:v", options.codec.value];
    } else {
      command := command + ["-c:v", DefaultCodec];
    }
    command := command + [output];
  }

  // ---------------------------------------------------------------- the module's state

  /** The module variable `ffmpeg` and the instance it holds. */
  class Engine {
    var hasInstance: bool
    var loaded: bool
    var fileSystem: map<string, FileData>
    var loads: nat
    var commands: seq<seq<string>>

    function State(): EngineState
      reads this
    {
      EngineState(hasInstance, loaded, fileSystem, loads, commands)
    }

    /** The module as first imported: `let ffmpeg = null`. */
    constructor ()
      ensures State() == EngineState(false, false, map[], 0, [])
    {
      hasInstance, loaded, fileSystem, loads, commands := false, false, map[], 0, [];
    }

    /** `init`; `loadFailure` is why `ffmpeg.load` rejects, if it does. */
    method Init(loadFailure: Option<string>) returns (r: Result<(), ConvertError>)
      modifies this
      ensures Step(State(), r) == InitSpec(old(State()), loadFailure)
    {
      if !hasInstance {
        hasInstance := true;
        loaded := false;
        fileSystem := map[];
        loads := loads + 1;
        if loadFailure.Some? {
          return Err(LoadFailed(loadFailure.value));
        }
        loaded := true;
      }
      return Ok(());
    }

    method WriteFile(name: string, bytes: seq<int>)
      requires loaded
      modifies this`fileSystem
      ensures fileSystem == old(fileSystem)[name := Binary(bytes)]
    {
      fileSystem := fileSystem[name := Binary(bytes)];
    }

    /** `exec`: records the command and leaves `written` in the file system. Its exit code is
        not modelled, because `convertFile` ignores it. */
    method Exec(command: seq<string>, written: map<string, FileData>)
      requires loaded
      modifies this`fileSystem, this`commands
      ensures commands == old(commands) + [command]
      ensures fileSystem == old(fileSystem) + written
    {
      commands := commands + [command];
      fileSystem := fileSystem + written;
    }

    method ReadFile(name: string) returns (r: Result<FileData, ConvertError>)
      requires loaded
      ensures r == if name in fileSystem then Ok(fileSystem[name]) else Err(ReadFailed(name))
    {
      if name in fileSystem {
        r := Ok(fileSystem[name]);
      } else {
        r := Err(ReadFailed(name));
      }
    }

    method DeleteFile(name: string)
      requires loaded && name in fileSystem
      modifies this`fileSystem
      ensures fileSystem == old(fileSystem) - {name}
    {
      fileSystem := fileSystem - {name};
    }

    /** `convertFile(file, fileName, options)`; `written` is what the engine leaves in its file
        system while it runs the command. */
    method ConvertFile(file: seq<int>, fileName: string, options: ConversionOptions,
                       loadFailure: Option<string>, written: map<string, FileData>)
      returns (r: Result<Converted, ConvertError>)
      modifies this
      ensures Step(State(), r) == ConvertSpec(old(State()), file, fileName, options, loadFailure, written)
    {
      var init := Init(loadFailure);
      if init.Err? {
        return Err(init.error);
      }
      r := RunStaged(file, fileName, options, written);
    }

    /** The part of `convertFile` after `init`. */
    method RunStaged(file: seq<int>, fileName: string, options: ConversionOptions,
                     written: map<string, FileData>)
      returns (r: Result<Converted, ConvertError>)
      requires hasInstance
      modifies this
      ensures Step(State(), r) == StagedConvert(old(State()), file, fileName, options, written)
    {
      if !loaded {
        return Err(NotLoaded);
      }
      var outputFileName := OutputFileName(fileName, options.format);
      WriteFile(fileName, file);
      var command := BuildCommand(fileName, options, outputFileName);
      Exec(command, written);
      var outputData := ReadFile(outputFileName);
      if outputData.Err? {
        return Err(outputData.error);
      }
      if outputData.value.Text? {
        return Err(ConversionFailed(outputData.value.text));
      }
      OutputFileNameShape(fileName, options.format);
      DeleteFile(fileName);
      DeleteFile(outputFileName);
      r := Ok(Converted(outputData.value.bytes, outputFileName));
    }

    /** `batchConvert(files, options)`; `written[k]` is what the engine leaves while it runs the
        command for `files[k]`. */
    method BatchConvert(files: seq<InputFile>, options: ConversionOptions,
                        loadFailure: Option<string>, written: seq<map<string, FileData>>)
      returns (r: Result<seq<seq<int>>, ConvertError>)
      requires |written| == |files|
      modifies this
      ensures Step(State(), r) == BatchSpec(old(State()), files, options, loadFailure, written)
    {
      var init := Init(loadFailure);
      if init.Err? {
        return Err(init.error);
      }
      r := ConvertInOrder(files, options, written);
    }

    /** The loop of `batchConvert`, once `init` has returned. */
    method ConvertInOrder(files: seq<InputFile>, options: ConversionOptions,
                          written: seq<map<string, FileData>>)
      returns (r: Result<seq<seq<int>>, ConvertError>)
      requires |written| == |files| && hasInstance
      modifies this
      ensures Step(State(), r) == Chain(BatchStep(options), old(State()), files, written)
    {
      ghost var start := State();
      var results: seq<seq<int>> := [];
      var i := 0;
      while i < |files|
        invariant 0 <= i <= |files| && hasInstance
        invariant Chain(BatchStep(options), start, files[..i], written[..i]) == Step(State(), Ok(results))
      {
        ghost var before := State();
        var converted := ConvertFile(files[i].bytes, files[i].name, options, None, written[i]);
        assert BatchStep(options)(before, files[i], written[i]) == Step(State(), converted);
        ChainSnoc(BatchStep(options), start, files[..i], files[i], written[..i], written[i], before, results);
        TakeOneMore(files, i);
        TakeOneMore(written, i);
        if converted.Err? {
          ChainStopsAtFailure(BatchStep(options), start, files[..i + 1], files[i + 1..],
                              written[..i + 1], written[i + 1..]);
          TakeDrop(files, i + 1);
          TakeDrop(written, i + 1);
          return Err(converted.error);
        }
        results := results + [converted.value.file];
        i := i + 1;
      }
      assert files[..i] == files && written[..i] == written;
      r := Ok(results);
    }
  }
}
