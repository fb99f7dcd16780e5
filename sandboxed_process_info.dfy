/**
 * Everything needed to launch a sandboxed process: the executable and its arguments, limits,
 * diagnostics settings and the root mappings of its container. The object keeps two lazily built
 * caches (the command line and the root-mapping block), guards the output-buffer limit against
 * negative values, and is written to and read back from a stream field by field.
 */
module Processes {
  import opened Wrappers
  import opened BoundedInts
  import opened RootMappingBlock
  import opened Provenance
  import opened ProcessInfoCodec

  /** The container a process runs in. Only its presence matters to this model. */
  datatype ContainerConfiguration = DisabledIsolation | IsolationEnabled

  /** 30 seconds, in 100-nanosecond ticks. */
  const DEFAULT_NESTED_PROCESS_TERMINATION_TIMEOUT: int64 := 300_000_000

  const DEFAULT_MAX_LENGTH_IN_MEMORY: int32 := 16384

  /** A null argument string concatenates as the empty one. */
  function ArgumentsText(arguments: Option<string>): string {
    if arguments.Some? then arguments.value else []
  }

  // ---------------------------------------------------------------- the stream

  /** The writing end of a stream of tokens. */
  class TokenWriter {
    var written: seq<Token>

    constructor()
      ensures written == []
    {
      written := [];
    }

    method Write(t: Token)
      modifies this
      ensures written == old(written) + [t]
    {
      written := written + [t];
    }

    /** Writes each string of a list, in order. */
    method WriteStrings(xs: seq<string>)
      modifies this
      ensures written == old(written) + EncodeStrings(xs)
    {
      for i := 0 to |xs|
        invariant written == old(written) + EncodeStrings(xs[..i])
      {
        EncodeStringsAppend(xs[..i], xs[i]);
        assert xs[..i + 1] == xs[..i] + [xs[i]];
        written := written + [StringToken(xs[i])];
      }
      assert xs[..|xs|] == xs;
    }

    /** Writes each pair of a list, source before target, in order. */
    method WritePairs(ps: seq<(string, string)>)
      modifies this
      ensures written == old(written) + EncodePairs(ps)
    {
      for i := 0 to |ps|
        invariant written == old(written) + EncodePairs(ps[..i])
      {
        EncodePairsAppend(ps[..i], ps[i]);
        assert ps[..i + 1] == ps[..i] + [ps[i]];
        written := written + [StringToken(ps[i].0), StringToken(ps[i].1)];
      }
      assert ps[..|ps|] == ps;
    }
  }

  /** The reading end of a stream of tokens. A read of one token checks its kind before taking it. */
  class TokenReader {
    var remaining: seq<Token>

    constructor(tokens: seq<Token>)
      ensures remaining == tokens
    {
      remaining := tokens;
    }

    method ReadBoolean() returns (r: Result<bool, DecodeError>)
      modifies this
      ensures r == ValueOf(ReadBool(old(remaining)))
      ensures remaining == if r.Success? then ReadBool(old(remaining)).value.1 else old(remaining)
    {
      if |remaining| > 0 && remaining[0].BoolToken? {
        r := Success(remaining[0].b);
        remaining := remaining[1..];
      } else {
        r := Failure(Malformed);
      }
    }

    method ReadOneByte() returns (r: Result<uint8, DecodeError>)
      modifies this
      ensures r == ValueOf(ReadByte(old(remaining)))
      ensures remaining == if r.Success? then ReadByte(old(remaining)).value.1 else old(remaining)
    {
      if |remaining| > 0 && remaining[0].ByteToken? {
        r := Success(remaining[0].u);
        remaining := remaining[1..];
      } else {
        r := Failure(Malformed);
      }
    }

    method ReadInt() returns (r: Result<int32, DecodeError>)
      modifies this
      ensures r == ValueOf(ReadInt32(old(remaining)))
      ensures remaining == if r.Success? then ReadInt32(old(remaining)).value.1 else old(remaining)
    {
      if |remaining| > 0 && remaining[0].Int32Token? {
        r := Success(remaining[0].i);
        remaining := remaining[1..];
      } else {
        r := Failure(Malformed);
      }
    }

    method ReadLong() returns (r: Result<int64, DecodeError>)
      modifies this
      ensures r == ValueOf(ReadInt64(old(remaining)))
      ensures remaining == if r.Success? then ReadInt64(old(remaining)).value.1 else old(remaining)
    {
      if |remaining| > 0 && remaining[0].Int64Token? {
        r := Success(remaining[0].l);
        remaining := remaining[1..];
      } else {
        r := Failure(Malformed);
      }
    }

    method ReadTicks() returns (r: Result<int64, DecodeError>)
      modifies this
      ensures r == ValueOf(ReadTimeSpan(old(remaining)))
      ensures remaining == if r.Success? then ReadTimeSpan(old(remaining)).value.1 else old(remaining)
    {
      if |remaining| > 0 && remaining[0].TimeSpanToken? {
        r := Success(remaining[0].ticks);
        remaining := remaining[1..];
      } else {
        r := Failure(Malformed);
      }
    }

    method ReadListCount() returns (r: Result<nat, DecodeError>)
      modifies this
      ensures r == ValueOf(ReadCount(old(remaining)))
      ensures remaining == if r.Success? then ReadCount(old(remaining)).value.1 else old(remaining)
    {
      if |remaining| > 0 && remaining[0].CountToken? {
        r := Success(remaining[0].n);
        remaining := remaining[1..];
      } else {
        r := Failure(Malformed);
      }
    }

    method ReadOneString() returns (r: Result<string, DecodeError>)
      modifies this
      ensures r == ValueOf(ReadString(old(remaining)))
      ensures remaining == if r.Success? then ReadString(old(remaining)).value.1 else old(remaining)
    {
      if |remaining| > 0 && remaining[0].StringToken? {
        r := Success(remaining[0].s);
        remaining := remaining[1..];
      } else {
        r := Failure(Malformed);
      }
    }

    method ReadOptionalString() returns (r: Result<Option<string>, DecodeError>)
      modifies this
      ensures r == ValueOf(ReadNullableString(old(remaining)))
      ensures remaining == if r.Success? then ReadNullableString(old(remaining)).value.1 else old(remaining)
    {
      if |remaining| > 0 && remaining[0].NullableStringToken? {
        r := Success(remaining[0].ns);
        remaining := remaining[1..];
      } else {
        r := Failure(Malformed);
      }
    }

    /** Reads `n` strings, one at a time. */
    method ReadStringSeq(n: nat) returns (r: Result<seq<string>, DecodeError>)
      modifies this
      ensures r == ValueOf(ReadStrings(old(remaining), n))
      ensures r.Success? ==> remaining == ReadStrings(old(remaining), n).value.1
    {
      var xs: seq<string> := [];
      PrefixedNothing(ReadStrings(remaining, n));
      for i := 0 to n
        invariant ReadStrings(old(remaining), n) == Prefixed(xs, ReadStrings(remaining, n - i))
      {
        ReadStringsStep(remaining, n - i);
        var x := ReadOneString();
        if x.Failure? {
          return Failure(Malformed);
        }
        PrefixedTwice(xs, [x.value], ReadStrings(remaining, n - i - 1));
        xs := xs + [x.value];
      }
      assert xs + [] == xs;
      r := Success(xs);
    }

    /** Reads `n` pairs of strings, one at a time. */
    method ReadPairSeq(n: nat) returns (r: Result<seq<(string, string)>, DecodeError>)
      modifies this
      ensures r == ValueOf(ReadPairs(old(remaining), n))
      ensures r.Success? ==> remaining == ReadPairs(old(remaining), n).value.1
    {
      var ps: seq<(string, string)> := [];
      PrefixedNothing(ReadPairs(remaining, n));
      for i := 0 to n
        invariant ReadPairs(old(remaining), n) == Prefixed(ps, ReadPairs(remaining, n - i))
      {
        var before := remaining;
        var source := ReadOneString();
        if source.Failure? {
          return Failure(Malformed);
        }
        var target := ReadOneString();
        if target.Failure? {
          return Failure(Malformed);
        }
        ReadPairsStep(before, n - i);
        PrefixedTwice(ps, [(source.value, target.value)], ReadPairs(remaining, n - i - 1));
        ps := ps + [(source.value, target.value)];
      }
      assert ps + [] == ps;
      r := Success(ps);
    }
  }

  // ---------------------------------------------------------------- the process description

  class SandboxedProcessInfo {
    const fileName: string
    const disableConHostSharing: bool
    const createJobObjectForCurrentProcess: bool
    const containerConfiguration: ContainerConfiguration

    var arguments: Option<string>
    /** The command line, once built; cleared whenever the arguments are set. */
    var commandLine: Option<string>
    var workingDirectory: Option<string>
    /** Drive remappings, in the dictionary's enumeration order. */
    var rootMappings: Option<seq<(string, string)>>
    /** The root-mapping block, once built. */
    var rootMappingBlock: Option<string>
    /** The mappings the cached block was built from. */
    ghost var rootMappingBlockSource: seq<(string, string)>
    var allowedSurvivingChildProcessNames: Option<seq<string>>
    var maxLengthInMemory: int32
    var timeout: Option<int64>
    var nestedProcessTerminationTimeout: int64
    var pipSemiStableHash: int64
    var timeoutDumpDirectory: Option<string>
    var survivingPipProcessChildrenDumpDirectory: Option<string>
    var sandboxKind: uint8
    var pipDescription: Option<string>
    var redirectedTempFolders: Option<seq<(string, string)>>
    var detoursFailureFile: Option<string>

    /** The output-buffer limit is never negative, and a cached root-mapping block is the block
        of the mappings it was built from. */
    ghost predicate Valid()
      reads this
    {
      && maxLengthInMemory >= 0
      && (rootMappingBlock.Some? ==> Block(Some(rootMappingBlockSource)) == Success(rootMappingBlock.value))
    }

    /** The fields the serializer writes. */
    function Data(): SerializedInfo
      reads this
    {
      SerializedInfo(
        CommandPart(arguments, commandLine, disableConHostSharing, Some(fileName), workingDirectory),
        LimitsPart(allowedSurvivingChildProcessNames, maxLengthInMemory, timeout, nestedProcessTerminationTimeout),
        DiagnosticsPart(pipSemiStableHash, timeoutDumpDirectory, survivingPipProcessChildrenDumpDirectory,
          sandboxKind, pipDescription),
        TailPart(redirectedTempFolders, createJobObjectForCurrentProcess, detoursFailureFile))
    }

    /** Every field not given to a constructor holds its default. */
    ghost predicate Defaults()
      reads this
    {
      && arguments.None? && commandLine.None? && workingDirectory.None?
      && rootMappings.None? && rootMappingBlock.None?
      && allowedSurvivingChildProcessNames.None?
      && maxLengthInMemory == DEFAULT_MAX_LENGTH_IN_MEMORY
      && timeout.None?
      && nestedProcessTerminationTimeout == DEFAULT_NESTED_PROCESS_TERMINATION_TIMEOUT
      && pipSemiStableHash == 0
      && timeoutDumpDirectory.None? && survivingPipProcessChildrenDumpDirectory.None?
      && sandboxKind == 0 && pipDescription.None?
      && redirectedTempFolders.None? && detoursFailureFile.None?
    }

    /** The main constructor: the file name is demanded by the type; the nested-process
        termination timeout starts at 30 seconds and the buffer limit at 16384 characters. */
    constructor(fileName: string, disableConHostSharing: bool, containerConfiguration: ContainerConfiguration,
                createJobObjectForCurrentProcess: bool)
      ensures this.fileName == fileName && this.disableConHostSharing == disableConHostSharing
      ensures this.containerConfiguration == containerConfiguration
      ensures this.createJobObjectForCurrentProcess == createJobObjectForCurrentProcess
      ensures Defaults() && Valid()
    {
      this.fileName := fileName;
      this.disableConHostSharing := disableConHostSharing;
      this.containerConfiguration := containerConfiguration;
      this.createJobObjectForCurrentProcess := createJobObjectForCurrentProcess;
      arguments, commandLine, workingDirectory := None, None, None;
      rootMappings, rootMappingBlock, rootMappingBlockSource := None, None, [];
      allowedSurvivingChildProcessNames := None;
      maxLengthInMemory := DEFAULT_MAX_LENGTH_IN_MEMORY;
      timeout := None;
      nestedProcessTerminationTimeout := DEFAULT_NESTED_PROCESS_TERMINATION_TIMEOUT;
      pipSemiStableHash := 0;
      timeoutDumpDirectory, survivingPipProcessChildrenDumpDirectory := None, None;
      sandboxKind, pipDescription := 0, None;
      redirectedTempFolders, detoursFailureFile := None, None;
    }

    /** The constructor for tests: a missing container configuration means disabled isolation. */
    constructor ForTest(fileName: string, disableConHostSharing: bool,
                        containerConfiguration: Option<ContainerConfiguration>,
                        createJobObjectForCurrentProcess: bool)
      ensures this.fileName == fileName && this.disableConHostSharing == disableConHostSharing
      ensures this.containerConfiguration == containerConfiguration.GetOr(DisabledIsolation)
      ensures this.createJobObjectForCurrentProcess == createJobObjectForCurrentProcess
      ensures Defaults() && Valid()
    {
      this.fileName := fileName;
      this.disableConHostSharing := disableConHostSharing;
      this.containerConfiguration := containerConfiguration.GetOr(DisabledIsolation);
      this.createJobObjectForCurrentProcess := createJobObjectForCurrentProcess;
      arguments, commandLine, workingDirectory := None, None, None;
      rootMappings, rootMappingBlock, rootMappingBlockSource := None, None, [];
      allowedSurvivingChildProcessNames := None;
      maxLengthInMemory := DEFAULT_MAX_LENGTH_IN_MEMORY;
      timeout := None;
      nestedProcessTerminationTimeout := DEFAULT_NESTED_PROCESS_TERMINATION_TIMEOUT;
      pipSemiStableHash := 0;
      timeoutDumpDirectory, survivingPipProcessChildrenDumpDirectory := None, None;
      sandboxKind, pipDescription := 0, None;
      redirectedTempFolders, detoursFailureFile := None, None;
    }

    /** The object the deserializer builds: the main constructor with disabled isolation, every
        serialized property set from what was read, and the buffer limit through its setter. */
    constructor Restored(fields: SerializedInfo)
      requires Acceptable(fields)
      ensures Valid() && Data() == fields
      ensures containerConfiguration == DisabledIsolation
      ensures rootMappings.None? && rootMappingBlock.None?
    {
      var command, limits, diagnostics, tail := fields.command, fields.limits, fields.diagnostics, fields.tail;
      fileName := command.fileName.value;
      disableConHostSharing := command.disableConHostSharing;
      containerConfiguration := DisabledIsolation;
      createJobObjectForCurrentProcess := tail.createJobObjectForCurrentProcess;
      rootMappings, rootMappingBlock, rootMappingBlockSource := None, None, [];
      arguments, commandLine, workingDirectory := command.arguments, command.commandLine, command.workingDirectory;
      allowedSurvivingChildProcessNames := limits.allowedSurvivingChildProcessNames;
      maxLengthInMemory := limits.maxLengthInMemory;
      timeout := limits.timeout;
      nestedProcessTerminationTimeout := limits.nestedProcessTerminationTimeout;
      pipSemiStableHash := diagnostics.pipSemiStableHash;
      timeoutDumpDirectory := diagnostics.timeoutDumpDirectory;
      survivingPipProcessChildrenDumpDirectory := diagnostics.survivingPipProcessChildrenDumpDirectory;
      sandboxKind, pipDescription := diagnostics.sandboxKind, diagnostics.pipDescription;
      redirectedTempFolders, detoursFailureFile := tail.redirectedTempFolders, tail.detoursFailureFile;
    }

    // ---------------------------------------------------------------- arguments and command line

    /** Setting the arguments forgets the command line built from the old ones. */
    method SetArguments(value: Option<string>)
      requires Valid()
      modifies this
      ensures Valid()
      ensures arguments == value && commandLine.None?
      ensures Data() == old(Data()).(command := old(Data()).command.(arguments := value, commandLine := None))
      ensures rootMappings == old(rootMappings) && rootMappingBlock == old(rootMappingBlock)
    {
      arguments := value;
      commandLine := None;
    }

    /** The escaped file name, a space and the arguments, built on the first call and returned
        as built until the arguments change. */
    method GetCommandLine(escape: string -> string) returns (r: string)
      requires Valid()
      modifies this
      ensures Valid()
      ensures old(commandLine).Some? ==> r == old(commandLine).value
      ensures old(commandLine).None? ==> r == escape(fileName) + " " + ArgumentsText(arguments)
      ensures commandLine == Some(r)
      ensures Data() == old(Data()).(command := old(Data()).command.(commandLine := Some(r)))
      ensures rootMappings == old(rootMappings) && rootMappingBlock == old(rootMappingBlock)
    {
      if commandLine.None? {
        commandLine := Some(escape(fileName) + " " + ArgumentsText(arguments));
      }
      r := commandLine.value;
    }

    // ---------------------------------------------------------------- output buffer limit

    function MaxLengthInMemory(): (r: int32)
      requires Valid()
      reads this
      ensures r >= 0
    {
      maxLengthInMemory
    }

    method SetMaxLengthInMemory(value: int32)
      requires Valid() && value >= 0
      modifies this
      ensures Valid()
      ensures Data() == old(Data()).(limits := old(Data()).limits.(maxLengthInMemory := value))
      ensures rootMappings == old(rootMappings) && rootMappingBlock == old(rootMappingBlock)
    {
      maxLengthInMemory := value;
    }

    // ---------------------------------------------------------------- root-mapping block

    /** The root-mapping block: empty without mappings; otherwise the cached block if there is
        one (even if the mappings were replaced since), else the block built now and cached. An
        empty key makes building fail and leaves the cache empty. */
    method GetUnicodeRootMappingBlock() returns (r: Result<string, BlockError>)
      requires Valid()
      modifies this
      ensures Valid()
      ensures old(rootMappings).None? ==> r == Success([]) && rootMappingBlock == old(rootMappingBlock)
      ensures old(rootMappings).Some? && old(rootMappingBlock).Some? ==>
        r == Success(old(rootMappingBlock).value) && rootMappingBlock == old(rootMappingBlock)
      ensures old(rootMappings).Some? && old(rootMappingBlock).None? ==>
        && r == Block(old(rootMappings))
        && rootMappingBlock == (if r.Success? then Some(r.value) else None)
      ensures Data() == old(Data()) && rootMappings == old(rootMappings)
    {
      if rootMappings.None? {
        return Success([]);
      }
      if rootMappingBlock.Some? {
        return Success(rootMappingBlock.value);
      }
      var mappings := rootMappings.value;
      var buffer: string := [];
      for i := 0 to |mappings|
        invariant MappingsText(mappings[..i]) == Success(buffer)
      {
        var (key, value) := mappings[i];
        assert mappings[..i + 1][..i] == mappings[..i];
        if |key| == 0 {
          assert |mappings[i].0| == 0;
          BlockSucceeds(rootMappings);
          return Failure(IndexOutOfRange);
        }
        buffer := buffer + [key[0]];
        buffer := buffer + value;
        buffer := buffer + [NUL];
        assert buffer == MappingsText(mappings[..i]).value + Piece(key, value);
      }
      assert mappings[..|mappings|] == mappings;
      buffer := buffer + [NUL];
      rootMappingBlock := Some(buffer);
      rootMappingBlockSource := mappings;
      r := Success(buffer);
    }

    // ---------------------------------------------------------------- provenance

    /** The prefix of the process's messages; it reads back as the hash and the description. */
    function Provenance(): (r: string)
      reads this
      ensures |r| == 26 + |DescriptionText(pipDescription)|
      ensures ParseProvenance(r) == Some((pipSemiStableHash, DescriptionText(pipDescription)))
    {
      ProvenanceRoundTrip(pipSemiStableHash, pipDescription);
      Hex16RoundTrip(pipSemiStableHash);
      ProvenanceText(pipSemiStableHash, pipDescription)
    }

    // ---------------------------------------------------------------- serialization

    method SerializeCommand(w: TokenWriter)
      modifies w
      ensures w.written == old(w.written) + EncodeCommand(Data().command)
    {
      w.Write(NullableStringToken(arguments));
      w.Write(NullableStringToken(commandLine));
      w.Write(BoolToken(disableConHostSharing));
      w.Write(NullableStringToken(Some(fileName)));
      w.Write(NullableStringToken(workingDirectory));
    }

    method SerializeLimits(w: TokenWriter)
      modifies w
      ensures w.written == old(w.written) + EncodeLimits(Data().limits)
    {
      WriteNullableStrings(w, allowedSurvivingChildProcessNames);
      w.Write(Int32Token(maxLengthInMemory));
      WriteNullableTimeSpan(w, timeout);
      w.Write(TimeSpanToken(nestedProcessTerminationTimeout));
    }

    method SerializeDiagnostics(w: TokenWriter)
      modifies w
      ensures w.written == old(w.written) + EncodeDiagnostics(Data().diagnostics)
    {
      w.Write(Int64Token(pipSemiStableHash));
      w.Write(NullableStringToken(timeoutDumpDirectory));
      w.Write(NullableStringToken(survivingPipProcessChildrenDumpDirectory));
      w.Write(ByteToken(sandboxKind));
      w.Write(NullableStringToken(pipDescription));
    }

    method SerializeTail(w: TokenWriter)
      modifies w
      ensures w.written == old(w.written) + EncodeTail(Data().tail)
    {
      WriteNullablePairs(w, redirectedTempFolders);
      w.Write(BoolToken(createJobObjectForCurrentProcess));
      w.Write(NullableStringToken(detoursFailureFile));
    }

    /** Writes the serialized fields, in order, after what the stream already holds. */
    method Serialize(w: TokenWriter)
      modifies w
      ensures w.written == old(w.written) + Encode(Data())
    {
      SerializeCommand(w);
      SerializeLimits(w);
      SerializeDiagnostics(w);
      SerializeTail(w);
      EncodeAfter(old(w.written), Data());
    }

    /** Reads a description back; the container configuration is not serialized and always
        comes back as disabled isolation, and the root mappings and both caches other than the
        command line come back empty. */
    static method Deserialize(reader: TokenReader) returns (res: Result<SandboxedProcessInfo, DecodeError>)
      modifies reader
      ensures Decode(old(reader.remaining)).Failure? ==> res == Failure(Decode(old(reader.remaining)).error)
      ensures Decode(old(reader.remaining)).Success? ==>
        && res.Success? && fresh(res.value) && res.value.Valid()
        && res.value.Data() == Decode(old(reader.remaining)).value.0
        && res.value.containerConfiguration == DisabledIsolation
        && res.value.rootMappings.None? && res.value.rootMappingBlock.None?
        && reader.remaining == Decode(old(reader.remaining)).value.1
    {
      var fields :- ReadFields(reader);
      if fields.command.fileName.None? {
        return Failure(FileNameMissing);
      }
      if fields.limits.maxLengthInMemory < 0 {
        return Failure(NegativeMaxLength);
      }
      var info := new SandboxedProcessInfo.Restored(fields);
      res := Success(info);
    }

    /** Reads every serialized field, in the serializer's order. */
    static method ReadFields(reader: TokenReader) returns (r: Result<SerializedInfo, DecodeError>)
      modifies reader
      ensures r == ValueOf(DecodeFields(old(reader.remaining)))
      ensures r.Success? ==> reader.remaining == DecodeFields(old(reader.remaining)).value.1
    {
      var command :- ReadCommand(reader);
      var limits :- ReadLimits(reader);
      var diagnostics :- ReadDiagnostics(reader);
      var tail :- ReadTail(reader);
      r := Success(SerializedInfo(command, limits, diagnostics, tail));
    }

    static method ReadCommand(reader: TokenReader) returns (r: Result<CommandPart, DecodeError>)
      modifies reader
      ensures r == ValueOf(DecodeCommand(old(reader.remaining)))
      ensures r.Success? ==> reader.remaining == DecodeCommand(old(reader.remaining)).value.1
    {
      var arguments :- reader.ReadOptionalString();
      var commandLine :- reader.ReadOptionalString();
      var disableConHostSharing :- reader.ReadBoolean();
      var fileName :- reader.ReadOptionalString();
      var workingDirectory :- reader.ReadOptionalString();
      r := Success(CommandPart(arguments, commandLine, disableConHostSharing, fileName, workingDirectory));
    }

    static method ReadLimits(reader: TokenReader) returns (r: Result<LimitsPart, DecodeError>)
      modifies reader
      ensures r == ValueOf(DecodeLimits(old(reader.remaining)))
      ensures r.Success? ==> reader.remaining == DecodeLimits(old(reader.remaining)).value.1
    {
      var allowed :- ReadNullableStrings(reader);
      var maxLength :- reader.ReadInt();
      var timeout :- ReadNullableTimeout(reader);
      var nested :- reader.ReadTicks();
      r := Success(LimitsPart(allowed, maxLength, timeout, nested));
    }

    static method ReadDiagnostics(reader: TokenReader) returns (r: Result<DiagnosticsPart, DecodeError>)
      modifies reader
      ensures r == ValueOf(DecodeDiagnostics(old(reader.remaining)))
      ensures r.Success? ==> reader.remaining == DecodeDiagnostics(old(reader.remaining)).value.1
    {
      var hash :- reader.ReadLong();
      var timeoutDump :- reader.ReadOptionalString();
      var childrenDump :- reader.ReadOptionalString();
      var kind :- reader.ReadOneByte();
      var description :- reader.ReadOptionalString();
      r := Success(DiagnosticsPart(hash, timeoutDump, childrenDump, kind, description));
    }

    static method ReadTail(reader: TokenReader) returns (r: Result<TailPart, DecodeError>)
      modifies reader
      ensures r == ValueOf(DecodeTail(old(reader.remaining)))
      ensures r.Success? ==> reader.remaining == DecodeTail(old(reader.remaining)).value.1
    {
      var present :- reader.ReadBoolean();
      var folders: Option<seq<(string, string)>> := None;
      if present {
        var count :- reader.ReadListCount();
        var ps :- reader.ReadPairSeq(count);
        folders := Some(ps);
      }
      var createJob :- reader.ReadBoolean();
      var detoursFailureFile :- reader.ReadOptionalString();
      r := Success(TailPart(folders, createJob, detoursFailureFile));
    }

    static method ReadNullableStrings(reader: TokenReader) returns (r: Result<Option<seq<string>>, DecodeError>)
      modifies reader
      ensures r == ValueOf(ReadStringList(old(reader.remaining)))
      ensures r.Success? ==> reader.remaining == ReadStringList(old(reader.remaining)).value.1
    {
      var present :- reader.ReadBoolean();
      if !present {
        return Success(None);
      }
      var count :- reader.ReadListCount();
      var xs :- reader.ReadStringSeq(count);
      r := Success(Some(xs));
    }

    static method ReadNullableTimeout(reader: TokenReader) returns (r: Result<Option<int64>, DecodeError>)
      modifies reader
      ensures r == ValueOf(ReadTimeout(old(reader.remaining)))
      ensures r.Success? ==> reader.remaining == ReadTimeout(old(reader.remaining)).value.1
    {
      var present :- reader.ReadBoolean();
      if !present {
        return Success(None);
      }
      var ticks :- reader.ReadTicks();
      r := Success(Some(ticks));
    }
  }

  /** Writes a nullable list of strings: a presence flag, then the count and the strings. */
  method WriteNullableStrings(w: TokenWriter, o: Option<seq<string>>)
    modifies w
    ensures w.written == old(w.written) + EncodeStringList(o)
  {
    if o.Some? {
      w.Write(BoolToken(true));
      w.Write(CountToken(|o.value|));
      w.WriteStrings(o.value);
    } else {
      w.Write(BoolToken(false));
    }
  }

  /** Writes a nullable list of pairs: a presence flag, then the count and the pairs. */
  method WriteNullablePairs(w: TokenWriter, o: Option<seq<(string, string)>>)
    modifies w
    ensures w.written == old(w.written) + EncodePairList(o)
  {
    if o.Some? {
      w.Write(BoolToken(true));
      w.Write(CountToken(|o.value|));
      w.WritePairs(o.value);
    } else {
      w.Write(BoolToken(false));
    }
  }

  /** Writes a nullable time span: a presence flag, then the ticks. */
  method WriteNullableTimeSpan(w: TokenWriter, o: Option<int64>)
    modifies w
    ensures w.written == old(w.written) + EncodeTimeout(o)
  {
    if o.Some? {
      w.Write(BoolToken(true));
      w.Write(TimeSpanToken(o.value));
    } else {
      w.Write(BoolToken(false));
    }
  }
}
