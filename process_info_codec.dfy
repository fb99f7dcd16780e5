/**
 * The serialized form of a sandboxed process's description, over an abstract stream of typed
 * tokens (the byte-level encoding of the binary writer is not part of this model). The fields
 * are written in a fixed order; a nullable value is written as a presence flag followed, when
 * present, by the value; a list as its count followed by its elements. Reading takes the same
 * fields back in the same order, and a stream whose next token is not of the expected kind is
 * malformed.
 *
 * Fields the source writes through serializers of other components (encodings, root jail,
 * environment, standard files, standard input, observers, sideband, remote data, file access
 * manifest) are not in the token stream of this model.
 */
module ProcessInfoCodec {
  import opened Wrappers
  import opened BoundedInts

  datatype Token =
    | BoolToken(b: bool)
    | ByteToken(u: uint8)
    | Int32Token(i: int32)
    | Int64Token(l: int64)
    | TimeSpanToken(ticks: int64)
    | CountToken(n: nat)
    | StringToken(s: string)
    | NullableStringToken(ns: Option<string>)

  /** Why reading a description back fails: the stream does not hold the expected tokens, the
      file name read is null (the constructor demands one), or the buffer limit read is negative
      (the MaxLengthInMemory setter demands a non-negative one). */
  datatype DecodeError = Malformed | FileNameMissing | NegativeMaxLength

  /** The fields written first: how the process is launched. */
  datatype CommandPart = CommandPart(
    arguments: Option<string>,
    commandLine: Option<string>,
    disableConHostSharing: bool,
    fileName: Option<string>,
    workingDirectory: Option<string>)

  /** Surviving children, output buffering and time limits (time spans as ticks). */
  datatype LimitsPart = LimitsPart(
    allowedSurvivingChildProcessNames: Option<seq<string>>,
    maxLengthInMemory: int32,
    timeout: Option<int64>,
    nestedProcessTerminationTimeout: int64)

  /** The pip's identity and where its diagnostics go. */
  datatype DiagnosticsPart = DiagnosticsPart(
    pipSemiStableHash: int64,
    timeoutDumpDirectory: Option<string>,
    survivingPipProcessChildrenDumpDirectory: Option<string>,
    sandboxKind: uint8,
    pipDescription: Option<string>)

  /** The fields written after the standard files, input and observers. */
  datatype TailPart = TailPart(
    redirectedTempFolders: Option<seq<(string, string)>>,
    createJobObjectForCurrentProcess: bool,
    detoursFailureFile: Option<string>)

  datatype SerializedInfo = SerializedInfo(
    command: CommandPart,
    limits: LimitsPart,
    diagnostics: DiagnosticsPart,
    tail: TailPart)

  // ---------------------------------------------------------------- writing

  function EncodeStrings(xs: seq<string>): seq<Token> {
    if |xs| == 0 then [] else [StringToken(xs[0])] + EncodeStrings(xs[1..])
  }

  function EncodePairs(ps: seq<(string, string)>): seq<Token> {
    if |ps| == 0 then [] else [StringToken(ps[0].0), StringToken(ps[0].1)] + EncodePairs(ps[1..])
  }

  function EncodeStringList(o: Option<seq<string>>): seq<Token> {
    match o
    case None => [BoolToken(false)]
    case Some(xs) => [BoolToken(true), CountToken(|xs|)] + EncodeStrings(xs)
  }

  function EncodePairList(o: Option<seq<(string, string)>>): seq<Token> {
    match o
    case None => [BoolToken(false)]
    case Some(ps) => [BoolToken(true), CountToken(|ps|)] + EncodePairs(ps)
  }

  function EncodeTimeout(o: Option<int64>): seq<Token> {
    match o
    case None => [BoolToken(false)]
    case Some(t) => [BoolToken(true), TimeSpanToken(t)]
  }

  function EncodeCommand(c: CommandPart): seq<Token> {
    [NullableStringToken(c.arguments), NullableStringToken(c.commandLine),
     BoolToken(c.disableConHostSharing), NullableStringToken(c.fileName),
     NullableStringToken(c.workingDirectory)]
  }

  function EncodeLimits(l: LimitsPart): seq<Token> {
    EncodeStringList(l.allowedSurvivingChildProcessNames) + [Int32Token(l.maxLengthInMemory)]
    + EncodeTimeout(l.timeout) + [TimeSpanToken(l.nestedProcessTerminationTimeout)]
  }

  function EncodeDiagnostics(d: DiagnosticsPart): seq<Token> {
    [Int64Token(d.pipSemiStableHash), NullableStringToken(d.timeoutDumpDirectory),
     NullableStringToken(d.survivingPipProcessChildrenDumpDirectory), ByteToken(d.sandboxKind),
     NullableStringToken(d.pipDescription)]
  }

  function EncodeTail(t: TailPart): seq<Token> {
    EncodePairList(t.redirectedTempFolders)
    + [BoolToken(t.createJobObjectForCurrentProcess), NullableStringToken(t.detoursFailureFile)]
  }

  /** The tokens the serializer writes, in the order it writes them. */
  function Encode(info: SerializedInfo): seq<Token> {
    EncodeCommand(info.command) + EncodeLimits(info.limits)
    + EncodeDiagnostics(info.diagnostics) + EncodeTail(info.tail)
  }

  // ---------------------------------------------------------------- reading

  /** A value read from the front of a stream, and the rest of the stream. */
  type Read<T> = Result<(T, seq<Token>), DecodeError>

  function ReadBool(ts: seq<Token>): Read<bool> {
    if |ts| > 0 && ts[0].BoolToken? then Success((ts[0].b, ts[1..])) else Failure(Malformed)
  }

  function ReadByte(ts: seq<Token>): Read<uint8> {
    if |ts| > 0 && ts[0].ByteToken? then Success((ts[0].u, ts[1..])) else Failure(Malformed)
  }

  function ReadInt32(ts: seq<Token>): Read<int32> {
    if |ts| > 0 && ts[0].Int32Token? then Success((ts[0].i, ts[1..])) else Failure(Malformed)
  }

  function ReadInt64(ts: seq<Token>): Read<int64> {
    if |ts| > 0 && ts[0].Int64Token? then Success((ts[0].l, ts[1..])) else Failure(Malformed)
  }

  function ReadTimeSpan(ts: seq<Token>): Read<int64> {
    if |ts| > 0 && ts[0].TimeSpanToken? then Success((ts[0].ticks, ts[1..])) else Failure(Malformed)
  }

  function ReadCount(ts: seq<Token>): Read<nat> {
    if |ts| > 0 && ts[0].CountToken? then Success((ts[0].n, ts[1..])) else Failure(Malformed)
  }

  function ReadString(ts: seq<Token>): Read<string> {
    if |ts| > 0 && ts[0].StringToken? then Success((ts[0].s, ts[1..])) else Failure(Malformed)
  }

  function ReadNullableString(ts: seq<Token>): Read<Option<string>> {
    if |ts| > 0 && ts[0].NullableStringToken? then Success((ts[0].ns, ts[1..])) else Failure(Malformed)
  }

  /** `n` strings, in order. */
  function ReadStrings(ts: seq<Token>, n: nat): Read<seq<string>> {
    if n == 0 then Success(([], ts))
    else
      var first :- ReadString(ts);
      var others :- ReadStrings(first.1, n - 1);
      Success(([first.0] + others.0, others.1))
  }

  /** `n` pairs of strings, in order. */
  function ReadPairs(ts: seq<Token>, n: nat): Read<seq<(string, string)>> {
    if n == 0 then Success(([], ts))
    else
      var source :- ReadString(ts);
      var target :- ReadString(source.1);
      var others :- ReadPairs(target.1, n - 1);
      Success(([(source.0, target.0)] + others.0, others.1))
  }

  function ReadStringList(ts: seq<Token>): Read<Option<seq<string>>> {
    var present :- ReadBool(ts);
    if !present.0 then Success((None, present.1))
    else
      var count :- ReadCount(present.1);
      var xs :- ReadStrings(count.1, count.0);
      Success((Some(xs.0), xs.1))
  }

  function ReadPairList(ts: seq<Token>): Read<Option<seq<(string, string)>>> {
    var present :- ReadBool(ts);
    if !present.0 then Success((None, present.1))
    else
      var count :- ReadCount(present.1);
      var ps :- ReadPairs(count.1, count.0);
      Success((Some(ps.0), ps.1))
  }

  function ReadTimeout(ts: seq<Token>): Read<Option<int64>> {
    var present :- ReadBool(ts);
    if !present.0 then Success((None, present.1))
    else
      var t :- ReadTimeSpan(present.1);
      Success((Some(t.0), t.1))
  }

  function DecodeCommand(ts: seq<Token>): Read<CommandPart> {
    var arguments :- ReadNullableString(ts);
    var commandLine :- ReadNullableString(arguments.1);
    var disableConHostSharing :- ReadBool(commandLine.1);
    var fileName :- ReadNullableString(disableConHostSharing.1);
    var workingDirectory :- ReadNullableString(fileName.1);
    Success((CommandPart(arguments.0, commandLine.0, disableConHostSharing.0, fileName.0,
      workingDirectory.0), workingDirectory.1))
  }

  function DecodeLimits(ts: seq<Token>): Read<LimitsPart> {
    var allowed :- ReadStringList(ts);
    var maxLength :- ReadInt32(allowed.1);
    var timeout :- ReadTimeout(maxLength.1);
    var nested :- ReadTimeSpan(timeout.1);
    Success((LimitsPart(allowed.0, maxLength.0, timeout.0, nested.0), nested.1))
  }

  function DecodeDiagnostics(ts: seq<Token>): Read<DiagnosticsPart> {
    var hash :- ReadInt64(ts);
    var timeoutDump :- ReadNullableString(hash.1);
    var childrenDump :- ReadNullableString(timeoutDump.1);
    var kind :- ReadByte(childrenDump.1);
    var description :- ReadNullableString(kind.1);
    Success((DiagnosticsPart(hash.0, timeoutDump.0, childrenDump.0, kind.0, description.0),
      description.1))
  }

  function DecodeTail(ts: seq<Token>): Read<TailPart> {
    var folders :- ReadPairList(ts);
    var createJob :- ReadBool(folders.1);
    var detoursFailureFile :- ReadNullableString(createJob.1);
    Success((TailPart(folders.0, createJob.0, detoursFailureFile.0), detoursFailureFile.1))
  }

  /** Reads every field, in the serializer's order. */
  function DecodeFields(ts: seq<Token>): Read<SerializedInfo> {
    var command :- DecodeCommand(ts);
    var limits :- DecodeLimits(command.1);
    var diagnostics :- DecodeDiagnostics(limits.1);
    var tail :- DecodeTail(diagnostics.1);
    Success((SerializedInfo(command.0, limits.0, diagnostics.0, tail.0), tail.1))
  }

  /** A description the constructor and the property setters accept. */
  predicate Acceptable(info: SerializedInfo) {
    info.command.fileName.Some? && info.limits.maxLengthInMemory >= 0
  }

  /** Reads a description back: every field first, then the constructor's demand of a file name,
      then the buffer-limit setter's demand of a non-negative value. */
  function Decode(ts: seq<Token>): (r: Read<SerializedInfo>)
    ensures r.Success? ==> Acceptable(r.value.0)
  {
    var fields :- DecodeFields(ts);
    if fields.0.command.fileName.None? then Failure(FileNameMissing)
    else if fields.0.limits.maxLengthInMemory < 0 then Failure(NegativeMaxLength)
    else Success(fields)
  }

  /** The value of a read, without the rest of the stream. */
  function ValueOf<T>(r: Read<T>): Result<T, DecodeError> {
    if r.Success? then Success(r.value.0) else Failure(r.error)
  }

  /** A read of the rest of a list, with the elements already read put in front. */
  function Prefixed<T>(xs: seq<T>, r: Read<seq<T>>): Read<seq<T>> {
    if r.Success? then Success((xs + r.value.0, r.value.1)) else r
  }

  // ---------------------------------------------------------------- reading a list one element at a time

  lemma PrefixedNothing<T>(r: Read<seq<T>>)
    ensures Prefixed([], r) == r
  {
    if r.Success? {
      assert [] + r.value.0 == r.value.0;
    }
  }

  lemma PrefixedTwice<T>(xs: seq<T>, ys: seq<T>, r: Read<seq<T>>)
    ensures Prefixed(xs, Prefixed(ys, r)) == Prefixed(xs + ys, r)
  {
    if r.Success? {
      assert xs + (ys + r.value.0) == (xs + ys) + r.value.0;
    }
  }

  /** Reading `n` strings is reading one, then `n - 1` more. */
  lemma ReadStringsStep(ts: seq<Token>, n: nat)
    requires n > 0
    ensures ReadString(ts).Failure? ==> ReadStrings(ts, n) == Failure(Malformed)
    ensures ReadString(ts).Success? ==>
      ReadStrings(ts, n) == Prefixed([ReadString(ts).value.0], ReadStrings(ReadString(ts).value.1, n - 1))
  {
  }

  /** Reading `n` pairs is reading one, then `n - 1` more. */
  lemma ReadPairsStep(ts: seq<Token>, n: nat)
    requires n > 0 && ReadString(ts).Success? && ReadString(ReadString(ts).value.1).Success?
    ensures var source := ReadString(ts).value; var target := ReadString(source.1).value;
      ReadPairs(ts, n) == Prefixed([(source.0, target.0)], ReadPairs(target.1, n - 1))
  {
  }

  /** Writing a list is writing its elements one after another. */
  lemma {:induction false} EncodeStringsAppend(xs: seq<string>, x: string)
    ensures EncodeStrings(xs + [x]) == EncodeStrings(xs) + [StringToken(x)]
  {
    if |xs| > 0 {
      EncodeStringsAppend(xs[1..], x);
      assert (xs + [x])[1..] == xs[1..] + [x];
    } else {
      assert xs + [x] == [x];
    }
  }

  lemma {:induction false} EncodePairsAppend(ps: seq<(string, string)>, p: (string, string))
    ensures EncodePairs(ps + [p]) == EncodePairs(ps) + [StringToken(p.0), StringToken(p.1)]
  {
    if |ps| > 0 {
      EncodePairsAppend(ps[1..], p);
      assert (ps + [p])[1..] == ps[1..] + [p];
    } else {
      assert ps + [p] == [p];
    }
  }

  // ---------------------------------------------------------------- round trips

  lemma {:induction false} StringsRoundTrip(xs: seq<string>, rest: seq<Token>)
    ensures ReadStrings(EncodeStrings(xs) + rest, |xs|) == Success((xs, rest))
  {
    if |xs| > 0 {
      var ts := EncodeStrings(xs) + rest;
      StringsRoundTrip(xs[1..], rest);
      assert ts[1..] == EncodeStrings(xs[1..]) + rest;
      assert ReadString(ts) == Success((xs[0], ts[1..]));
      assert [xs[0]] + xs[1..] == xs;
    } else {
      assert EncodeStrings(xs) + rest == rest;
    }
  }

  lemma {:induction false} PairsRoundTrip(ps: seq<(string, string)>, rest: seq<Token>)
    ensures ReadPairs(EncodePairs(ps) + rest, |ps|) == Success((ps, rest))
  {
    if |ps| > 0 {
      PairsRoundTrip(ps[1..], rest);
      var ts := EncodePairs(ps) + rest;
      assert ts == [StringToken(ps[0].0), StringToken(ps[0].1)] + (EncodePairs(ps[1..]) + rest);
      assert ReadString(ts) == Success((ps[0].0, ts[1..]));
      assert ReadString(ts[1..]) == Success((ps[0].1, EncodePairs(ps[1..]) + rest));
      assert [(ps[0].0, ps[0].1)] + ps[1..] == ps;
    } else {
      assert EncodePairs(ps) + rest == rest;
    }
  }

  /** A present flag and a count in front of a stream read back as such. */
  lemma CountedRead(n: nat, tail: seq<Token>)
    ensures ReadBool([BoolToken(true), CountToken(n)] + tail) == Success((true, [CountToken(n)] + tail))
    ensures ReadCount([CountToken(n)] + tail) == Success((n, tail))
  {
    assert ([BoolToken(true), CountToken(n)] + tail)[1..] == [CountToken(n)] + tail;
    assert ([CountToken(n)] + tail)[1..] == tail;
  }

  lemma StringListRoundTrip(o: Option<seq<string>>, rest: seq<Token>)
    ensures ReadStringList(EncodeStringList(o) + rest) == Success((o, rest))
  {
    var ts := EncodeStringList(o) + rest;
    if o.Some? {
      var xs := o.value;
      var tail := EncodeStrings(xs) + rest;
      StringsRoundTrip(xs, rest);
      assert ts == [BoolToken(true), CountToken(|xs|)] + tail;
      CountedRead(|xs|, tail);
      assert ReadStrings(tail, |xs|) == Success((xs, rest));
    } else {
      assert ts == [BoolToken(false)] + rest;
      assert ReadBool(ts) == Success((false, rest));
    }
  }

  lemma PairListRoundTrip(o: Option<seq<(string, string)>>, rest: seq<Token>)
    ensures ReadPairList(EncodePairList(o) + rest) == Success((o, rest))
  {
    var ts := EncodePairList(o) + rest;
    if o.Some? {
      var xs := o.value;
      var tail := EncodePairs(xs) + rest;
      PairsRoundTrip(xs, rest);
      assert ts == [BoolToken(true), CountToken(|xs|)] + tail;
      CountedRead(|xs|, tail);
      assert ReadPairs(tail, |xs|) == Success((xs, rest));
    } else {
      assert ts == [BoolToken(false)] + rest;
      assert ReadBool(ts) == Success((false, rest));
    }
  }

  lemma TimeoutRoundTrip(o: Option<int64>, rest: seq<Token>)
    ensures ReadTimeout(EncodeTimeout(o) + rest) == Success((o, rest))
  {
    if o.Some? {
      assert (EncodeTimeout(o) + rest)[1..][1..] == rest;
    } else {
      assert (EncodeTimeout(o) + rest)[1..] == rest;
    }
  }

  lemma CommandRoundTrip(c: CommandPart, rest: seq<Token>)
    ensures DecodeCommand(EncodeCommand(c) + rest) == Success((c, rest))
  {
    var ts := EncodeCommand(c) + rest;
    assert ts[1..][1..][1..][1..][1..] == rest;
  }

  lemma LimitsRoundTrip(l: LimitsPart, rest: seq<Token>)
    ensures DecodeLimits(EncodeLimits(l) + rest) == Success((l, rest))
  {
    var timeoutAndAfter := EncodeTimeout(l.timeout) + ([TimeSpanToken(l.nestedProcessTerminationTimeout)] + rest);
    var ts := EncodeStringList(l.allowedSurvivingChildProcessNames)
      + ([Int32Token(l.maxLengthInMemory)] + timeoutAndAfter);
    assert EncodeLimits(l) + rest == ts;
    StringListRoundTrip(l.allowedSurvivingChildProcessNames, [Int32Token(l.maxLengthInMemory)] + timeoutAndAfter);
    assert ([Int32Token(l.maxLengthInMemory)] + timeoutAndAfter)[1..] == timeoutAndAfter;
    TimeoutRoundTrip(l.timeout, [TimeSpanToken(l.nestedProcessTerminationTimeout)] + rest);
    assert ([TimeSpanToken(l.nestedProcessTerminationTimeout)] + rest)[1..] == rest;
  }

  lemma DiagnosticsRoundTrip(d: DiagnosticsPart, rest: seq<Token>)
    ensures DecodeDiagnostics(EncodeDiagnostics(d) + rest) == Success((d, rest))
  {
    var ts := EncodeDiagnostics(d) + rest;
    assert ts[1..][1..][1..][1..][1..] == rest;
  }

  lemma TailRoundTrip(t: TailPart, rest: seq<Token>)
    ensures DecodeTail(EncodeTail(t) + rest) == Success((t, rest))
  {
    var after := [BoolToken(t.createJobObjectForCurrentProcess), NullableStringToken(t.detoursFailureFile)] + rest;
    assert EncodeTail(t) + rest == EncodePairList(t.redirectedTempFolders) + after;
    PairListRoundTrip(t.redirectedTempFolders, after);
    assert after[1..][1..] == rest;
  }

  lemma EncodeAssociates(info: SerializedInfo, rest: seq<Token>)
    ensures Encode(info) + rest
      == EncodeCommand(info.command) + (EncodeLimits(info.limits)
         + (EncodeDiagnostics(info.diagnostics) + (EncodeTail(info.tail) + rest)))
  {
    var c, l, d, t := EncodeCommand(info.command), EncodeLimits(info.limits),
      EncodeDiagnostics(info.diagnostics), EncodeTail(info.tail);
    calc {
      Encode(info) + rest;
      ((c + l) + d) + t + rest;
      (c + l) + d + (t + rest);
      c + l + (d + (t + rest));
      c + (l + (d + (t + rest)));
    }
  }

  /** Writing the four groups of fields one after another after some tokens writes the whole
      encoding after them. */
  lemma EncodeAfter(start: seq<Token>, info: SerializedInfo)
    ensures start + EncodeCommand(info.command) + EncodeLimits(info.limits)
      + EncodeDiagnostics(info.diagnostics) + EncodeTail(info.tail) == start + Encode(info)
  {
    var c, l, d, t := EncodeCommand(info.command), EncodeLimits(info.limits),
      EncodeDiagnostics(info.diagnostics), EncodeTail(info.tail);
    assert start + c + l + d + t == start + (c + l + d + t);
  }

  /** Reading takes back, field by field, exactly what writing put in, and leaves what follows. */
  lemma FieldsRoundTrip(info: SerializedInfo, rest: seq<Token>)
    ensures DecodeFields(Encode(info) + rest) == Success((info, rest))
  {
    var t := EncodeTail(info.tail) + rest;
    var d := EncodeDiagnostics(info.diagnostics) + t;
    var l := EncodeLimits(info.limits) + d;
    assert Encode(info) + rest == EncodeCommand(info.command) + l by {
      EncodeAssociates(info, rest);
    }
    CommandRoundTrip(info.command, l);
    LimitsRoundTrip(info.limits, d);
    DiagnosticsRoundTrip(info.diagnostics, t);
    TailRoundTrip(info.tail, rest);
  }

  /** Deserializing what was serialized gives back the same description, provided the
      constructor and the setters accept it, and the stream is left just after it. */
  lemma RoundTrip(info: SerializedInfo, rest: seq<Token>)
    requires Acceptable(info)
    ensures Decode(Encode(info) + rest) == Success((info, rest))
  {
    FieldsRoundTrip(info, rest);
  }

  /** A serialized description with no file name, or with a negative buffer limit, is refused,
      the missing file name first. */
  lemma RoundTripRefused(info: SerializedInfo, rest: seq<Token>)
    requires !Acceptable(info)
    ensures info.command.fileName.None? ==> Decode(Encode(info) + rest) == Failure(FileNameMissing)
    ensures info.command.fileName.Some? ==> Decode(Encode(info) + rest) == Failure(NegativeMaxLength)
  {
    FieldsRoundTrip(info, rest);
  }
}
