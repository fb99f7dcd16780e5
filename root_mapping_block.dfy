/**
 * The root-mapping block handed to the sandbox: for every mapping, in enumeration order, the
 * drive letter (the first character of the key), the target path and a NUL; then one more NUL
 * that ends the list. A key that is the empty string has no first character, and building the
 * block fails with an index-out-of-range error.
 */
module RootMappingBlock {
  import opened Wrappers

  /** The exception the block builder raises on a mapping whose key is empty. */
  datatype BlockError = IndexOutOfRange

  const NUL: char := '\0'

  /** The text of one mapping: drive letter, target path, NUL. */
  function Piece(key: string, value: string): string
    requires |key| > 0
  {
    [key[0]] + value + [NUL]
  }

  /** The pieces of all mappings, in order, built by appending one mapping after another. */
  function MappingsText(mappings: seq<(string, string)>): Result<string, BlockError> {
    if |mappings| == 0 then Success([])
    else
      var prefix :- MappingsText(mappings[..|mappings| - 1]);
      var (key, value) := mappings[|mappings| - 1];
      if |key| == 0 then Failure(IndexOutOfRange) else Success(prefix + Piece(key, value))
  }

  /** The block for a dictionary of mappings, or the empty string when there is none. */
  function Block(rootMappings: Option<seq<(string, string)>>): Result<string, BlockError> {
    match rootMappings
    case None => Success([])
    case Some(mappings) =>
      var text :- MappingsText(mappings);
      Success(text + [NUL])
  }

  predicate KeysNonEmpty(mappings: seq<(string, string)>) {
    forall i | 0 <= i < |mappings| :: |mappings[i].0| > 0
  }

  /** Σ (|value| + 2) over the mappings: each contributes its value, a drive letter and a NUL. */
  function PiecesLength(mappings: seq<(string, string)>): nat {
    if |mappings| == 0 then 0
    else PiecesLength(mappings[..|mappings| - 1]) + |mappings[|mappings| - 1].1| + 2
  }

  /** The drive letters and target paths the block encodes. */
  function Drives(mappings: seq<(string, string)>): seq<(char, string)>
    requires KeysNonEmpty(mappings)
  {
    if |mappings| == 0 then []
    else Drives(mappings[..|mappings| - 1]) + [(mappings[|mappings| - 1].0[0], mappings[|mappings| - 1].1)]
  }

  // ---------------------------------------------------------------- reading a block back

  /** The index of the first NUL at or after `from`, if any. */
  function FindNul(s: string, from: nat): (r: Option<nat>)
    requires from <= |s|
    ensures r.Some? ==> from <= r.value < |s| && s[r.value] == NUL
    decreases |s| - from
  {
    if from == |s| then None
    else if s[from] == NUL then Some(from)
    else FindNul(s, from + 1)
  }

  /** Reads a block as the sandbox does: a NUL where a drive letter is expected ends the list;
      otherwise a drive letter is followed by a NUL-terminated target path. */
  function Parse(s: string): Option<seq<(char, string)>>
    decreases |s|
  {
    if |s| == 0 then None
    else if s[0] == NUL then (if |s| == 1 then Some([]) else None)
    else
      match FindNul(s, 1)
      case None => None
      case Some(j) =>
        var rest :- Parse(s[j + 1..]);
        Some([(s[0], s[1..j])] + rest)
  }

  // ---------------------------------------------------------------- lemmas

  /** Building the block fails exactly when some key is empty. */
  lemma {:induction false} MappingsTextSucceeds(mappings: seq<(string, string)>)
    ensures MappingsText(mappings).Success? <==> KeysNonEmpty(mappings)
  {
    if |mappings| > 0 {
      var front := mappings[..|mappings| - 1];
      MappingsTextSucceeds(front);
      assert KeysNonEmpty(mappings) <==> KeysNonEmpty(front) && |mappings[|mappings| - 1].0| > 0 by {
        if KeysNonEmpty(front) && |mappings[|mappings| - 1].0| > 0 {
          forall i | 0 <= i < |mappings| ensures |mappings[i].0| > 0 {
            if i < |front| { assert mappings[i] == front[i]; }
          }
        }
        if KeysNonEmpty(mappings) {
          forall i | 0 <= i < |front| ensures |front[i].0| > 0 {
            assert front[i] == mappings[i];
          }
        }
      }
    }
  }

  lemma BlockSucceeds(rootMappings: Option<seq<(string, string)>>)
    ensures Block(rootMappings).Success? <==> (rootMappings.Some? ==> KeysNonEmpty(rootMappings.value))
    ensures Block(rootMappings).Failure? ==> Block(rootMappings) == Failure(IndexOutOfRange)
  {
    if rootMappings.Some? {
      MappingsTextSucceeds(rootMappings.value);
    }
    if Block(rootMappings).Failure? {
      var e: BlockError := Block(rootMappings).error;
      assert e == IndexOutOfRange;
    }
  }

  lemma {:induction false} MappingsTextLength(mappings: seq<(string, string)>)
    requires MappingsText(mappings).Success?
    ensures |MappingsText(mappings).value| == PiecesLength(mappings)
  {
    if |mappings| > 0 {
      MappingsTextLength(mappings[..|mappings| - 1]);
    }
  }

  /** Without mappings the block is empty; with them it is 1 + Σ (|value| + 2) characters long and
      its last character is the NUL that ends the list. */
  lemma BlockShape(rootMappings: Option<seq<(string, string)>>)
    requires Block(rootMappings).Success?
    ensures var block := Block(rootMappings).value;
      && (rootMappings.None? ==> |block| == 0)
      && (rootMappings.Some? ==>
            && |block| == 1 + PiecesLength(rootMappings.value)
            && block[|block| - 1] == NUL)
  {
    if rootMappings.Some? {
      MappingsTextLength(rootMappings.value);
    }
  }

  lemma {:induction false} FindNulAfter(s: string, from: nat, j: nat)
    requires from <= j < |s| && s[j] == NUL
    requires forall k | from <= k < j :: s[k] != NUL
    ensures FindNul(s, from) == Some(j)
    decreases j - from
  {
    if from < j {
      FindNulAfter(s, from + 1, j);
    }
  }

  /** One mapping's piece in front of a readable block adds that mapping in front of what is read. */
  lemma ParsePiece(key: string, value: string, tail: string)
    requires |key| > 0 && key[0] != NUL && NUL !in value
    requires Parse(tail).Some?
    ensures Parse(Piece(key, value) + tail) == Some([(key[0], value)] + Parse(tail).value)
  {
    var s := Piece(key, value) + tail;
    var j := |value| + 1;
    assert s[j] == NUL;
    forall k | 1 <= k < j ensures s[k] != NUL {
      assert s[k] == value[k - 1];
    }
    FindNulAfter(s, 1, j);
    assert s[1..j] == value;
    assert s[j + 1..] == tail;
  }

  /** No drive letter is NUL and no target path contains one: the block can be read back. */
  predicate Readable(mappings: seq<(string, string)>) {
    && KeysNonEmpty(mappings)
    && forall i | 0 <= i < |mappings| :: mappings[i].0[0] != NUL && NUL !in mappings[i].1
  }

  lemma ReadableFront(mappings: seq<(string, string)>)
    requires Readable(mappings) && |mappings| > 0
    ensures Readable(mappings[..|mappings| - 1])
    ensures var (key, value) := mappings[|mappings| - 1]; |key| > 0 && key[0] != NUL && NUL !in value
  {
    var front := mappings[..|mappings| - 1];
    assert forall i | 0 <= i < |front| :: front[i] == mappings[i];
  }

  lemma MappingsTextAppend(mappings: seq<(string, string)>)
    requires KeysNonEmpty(mappings) && |mappings| > 0
    ensures MappingsText(mappings[..|mappings| - 1]).Success?
    ensures MappingsText(mappings) == Success(MappingsText(mappings[..|mappings| - 1]).value
      + Piece(mappings[|mappings| - 1].0, mappings[|mappings| - 1].1))
  {
    MappingsTextSucceeds(mappings);
  }

  /** The mappings' pieces in front of a readable block add their drives in front, in order. */
  lemma {:induction false} ParseMappings(mappings: seq<(string, string)>, tail: string)
    requires Readable(mappings)
    requires Parse(tail).Some?
    ensures MappingsText(mappings).Success?
    ensures Parse(MappingsText(mappings).value + tail) == Some(Drives(mappings) + Parse(tail).value)
  {
    if |mappings| > 0 {
      var front := mappings[..|mappings| - 1];
      var key, value := mappings[|mappings| - 1].0, mappings[|mappings| - 1].1;
      ReadableFront(mappings);
      MappingsTextAppend(mappings);
      var text := MappingsText(front).value;
      var tail' := Piece(key, value) + tail;
      assert Parse(tail') == Some([(key[0], value)] + Parse(tail).value) by {
        ParsePiece(key, value, tail);
      }
      assert Parse(text + tail') == Some(Drives(front) + Parse(tail').value) by {
        ParseMappings(front, tail');
      }
      assert MappingsText(mappings).value + tail == text + tail';
      assert Drives(front) + ([(key[0], value)] + Parse(tail).value) == Drives(mappings) + Parse(tail).value;
    } else {
      assert MappingsText(mappings).value + tail == tail;
      assert Drives(mappings) + Parse(tail).value == Parse(tail).value;
    }
  }

  /** The block reads back as the mappings' drive letters and target paths, provided no drive
      letter is NUL and no target path contains one. */
  lemma ParseBlock(mappings: seq<(string, string)>)
    requires Readable(mappings)
    ensures Block(Some(mappings)).Success?
    ensures Parse(Block(Some(mappings)).value) == Some(Drives(mappings))
  {
    assert Parse([NUL]) == Some([]);
    ParseMappings(mappings, [NUL]);
    assert Drives(mappings) + [] == Drives(mappings);
  }
}
