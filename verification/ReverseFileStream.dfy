/**
 Reading the lines of a file from its end, chunk by chunk, and finding the last block height in an event
 replay file. The work is on bytes; in UTF-8 (section 3 of RFC 3629) the byte of a newline occurs in
 no other character.
 */
module ReverseFileStreams {
  import opened Types

  newtype Byte = x: int | 0 <= x < 256
  type Bytes = seq<Byte>

  const NEWLINE: Byte := 10
  const TAB: Byte := 9

  // ---- Splitting ---------------------------------------------------------------------------------

  /** The pieces between the separators: one more than there are separators. */
  function Split(b: Bytes, sep: Byte): (r: seq<Bytes>)
    ensures r != []
  {
    if b == [] then [[]]
    else
      var rest := Split(b[1..], sep);
      if b[0] == sep then [[]] + rest else [[b[0]] + rest[0]] + rest[1..]
  }

  function Join(ps: seq<Bytes>, sep: Byte): Bytes
    requires ps != []
  {
    if |ps| == 1 then ps[0] else ps[0] + [sep] + Join(ps[1..], sep)
  }

  /** Splitting loses nothing. */
  lemma {:induction false} JoinSplit(b: Bytes, sep: Byte)
    ensures Join(Split(b, sep), sep) == b
  {
    if b != [] {
      JoinSplit(b[1..], sep);
      var rest, r := Split(b[1..], sep), Split(b, sep);
      if b[0] == sep {
        assert r[1..] == rest;
        assert [] + [sep] + Join(rest, sep) == b;
      } else if |rest| == 1 {
        assert r[0] == b;
      } else {
        assert r[1..] == rest[1..];
        assert r[0] + [sep] + Join(rest[1..], sep) == [b[0]] + (rest[0] + [sep] + Join(rest[1..], sep));
      }
    }
  }

  lemma {:induction false} SplitPlain(b: Bytes, sep: Byte)
    requires sep !in b
    ensures Split(b, sep) == [b]
  {
    if b != [] {
      SplitPlain(b[1..], sep);
      assert [b[0]] + b[1..] == b;
    }
  }

  lemma {:induction false} SplitPrefix(p: Bytes, b: Bytes, sep: Byte)
    requires sep !in p
    ensures Split(p + [sep] + b, sep) == [p] + Split(b, sep)
  {
    if p == [] {
      assert ([] + [sep] + b)[1..] == b;
    } else {
      SplitPrefix(p[1..], b, sep);
      assert (p + [sep] + b)[1..] == p[1..] + [sep] + b;
      assert ([p[1..]] + Split(b, sep))[1..] == Split(b, sep);
      assert [p[0]] + p[1..] == p;
    }
  }

  /** And it is the only way to cut the bytes into pieces without separators. */
  lemma {:induction false} SplitJoin(ps: seq<Bytes>, sep: Byte)
    requires ps != [] && forall p :: p in ps ==> sep !in p
    ensures Split(Join(ps, sep), sep) == ps
  {
    if |ps| == 1 {
      SplitPlain(ps[0], sep);
    } else {
      SplitJoin(ps[1..], sep);
      SplitPrefix(ps[0], Join(ps[1..], sep), sep);
    }
  }

  /** The last piece of the front grows into the first piece of the back. */
  function Glue(p: seq<Bytes>, q: seq<Bytes>): seq<Bytes>
    requires p != [] && q != []
  {
    p[..|p| - 1] + [p[|p| - 1] + q[0]] + q[1..]
  }

  lemma GlueNew(p: seq<Bytes>, q: seq<Bytes>)
    requires p != [] && q != []
    ensures Glue([[]] + p, q) == [[]] + Glue(p, q)
  {
    assert ([[]] + p)[..|p|] == [[]] + p[..|p| - 1];
  }

  lemma GlueLonger(x: Byte, p: seq<Bytes>, q: seq<Bytes>)
    requires p != [] && q != []
    ensures var g := Glue(p, q); Glue([[x] + p[0]] + p[1..], q) == [[x] + g[0]] + g[1..]
  {
    var g, longer := Glue(p, q), [[x] + p[0]] + p[1..];
    if |p| == 1 {
      assert longer[..0] == [] && p[..0] == [];
      assert ([x] + p[0]) + q[0] == [x] + (p[0] + q[0]);
    } else {
      assert longer[..|p| - 1] == [[x] + p[0]] + p[1..|p| - 1];
      assert g[1..] == p[1..|p| - 1] + [p[|p| - 1] + q[0]] + q[1..];
    }
  }

  lemma {:induction false} SplitConcat(a: Bytes, b: Bytes, sep: Byte)
    ensures Split(a + b, sep) == Glue(Split(a, sep), Split(b, sep))
  {
    var q := Split(b, sep);
    if a == [] {
      assert a + b == b;
      assert [] + q[0] == q[0];
      assert [q[0]] + q[1..] == q;
    } else {
      SplitConcat(a[1..], b, sep);
      assert (a + b)[1..] == a[1..] + b;
      if a[0] == sep {
        GlueNew(Split(a[1..], sep), q);
      } else {
        GlueLonger(a[0], Split(a[1..], sep), q);
      }
    }
  }

  lemma GlueFirst(p: seq<Bytes>, q: seq<Bytes>)
    requires p != [] && q != []
    ensures Glue(p, q) == Glue(p, [q[0]]) + q[1..]
  {
    assert [q[0]][1..] == [];
  }

  /** Splitting again the joined front of a split: later pieces do not change. */
  lemma SplitAgain(chunk: Bytes, b: Bytes, sep: Byte)
    ensures Split(chunk + b, sep) == Split(chunk + Split(b, sep)[0], sep) + Split(b, sep)[1..]
  {
    var first := Split(b, sep)[0];
    SplitConcat(chunk, b, sep);
    SplitConcat(chunk, first, sep);
    FirstPiecePlain(b, sep);
    SplitPlain(first, sep);
    GlueFirst(Split(chunk, sep), Split(b, sep));
  }

  lemma {:induction false} FirstPiecePlain(b: Bytes, sep: Byte)
    ensures sep !in Split(b, sep)[0]
  {
    if b != [] {
      FirstPiecePlain(b[1..], sep);
    }
  }

  method IndexOf(b: Bytes, sep: Byte, from: nat) returns (i: int)
    requires from <= |b|
    ensures i == -1 ==> sep !in b[from..]
    ensures i != -1 ==> from <= i < |b| && b[i] == sep && sep !in b[from..i]
  {
    i := from;
    while i < |b| && b[i] != sep
      invariant from <= i <= |b|
      invariant forall j :: from <= j < i ==> b[j] != sep
    {
      i := i + 1;
    }
    if i == |b| {
      i := -1;
    }
  }

  lemma SplitAt(input: Bytes, sep: Byte, position: nat, at: nat)
    requires position <= at < |input| && input[at] == sep && sep !in input[position..at]
    ensures Split(input[position..], sep) == [input[position..at]] + Split(input[at + 1..], sep)
  {
    assert input[position..] == input[position..at] + [sep] + input[at + 1..];
    SplitPrefix(input[position..at], input[at + 1..], sep);
  }

  /** splitBuffer; the do-while loop runs once before its test. */
  method SplitBuffer(input: Bytes, sep: Byte) returns (chunks: seq<Bytes>)
    ensures chunks == Split(input, sep)
  {
    chunks := [];
    var position: nat, matchIndex: int := 0, 0;
    while matchIndex != -1
      invariant 0 <= position <= |input|
      invariant if matchIndex != -1 then chunks + Split(input[position..], sep) == Split(input, sep)
                else chunks == Split(input, sep)
      decreases matchIndex != -1, |input| - position
    {
      matchIndex := IndexOf(input, sep, position);
      if matchIndex == -1 {
        SplitPlain(input[position..], sep);
        chunks := chunks + [input[position..]];
      } else {
        SplitAt(input, sep, position, matchIndex);
        chunks := chunks + [input[position..matchIndex]];
      }
      position := matchIndex + 1;
    }
  }

  // ---- The reversed lines ------------------------------------------------------------------------

  lemma ReverseAppend<T>(a: seq<T>, b: seq<T>)
    ensures Reverse(a + b) == Reverse(b) + Reverse(a)
  {
  }

  lemma OpensFirst(list: seq<Bytes>, done: seq<Bytes>, all: seq<Bytes>)
    requires list != [] && all == list + done
    ensures all[0] == list[0] && Reverse(all[1..]) == Reverse(done) + Reverse(list[1..])
  {
    assert all[1..] == list[1..] + done;
    ReverseAppend(list[1..], done);
  }

  /** What the transform stream carries from chunk to chunk, and what it has pushed. */
  class LineReverser {
    var last: Option<Bytes>
    var pushed: seq<Bytes>

    constructor ()
      ensures last == None && pushed == []
    {
      last, pushed := None, [];
    }

    /** The part of the file seen so far, from its end, is behind us: only its first line is still open. */
    ghost predicate Seen(suffix: Bytes)
      reads this
    {
      if last.None? then suffix == [] && pushed == []
      else last.value == Split(suffix, NEWLINE)[0] && pushed == Reverse(Split(suffix, NEWLINE)[1..])
    }

    /** Pushes the lines of the list from its end. */
    method PushReversed(list: seq<Bytes>)
      modifies this`pushed
      ensures pushed == old(pushed) + Reverse(list)
    {
      assert list[|list|..] == [];
      for i := |list| downto 0
        invariant pushed == old(pushed) + Reverse(list[i..])
      {
        assert list[i..] == [list[i]] + list[i + 1..];
        ReverseAppend([list[i]], list[i + 1..]);
        pushed := pushed + [list[i]];
      }
      assert list[0..] == list;
    }

    /** transform: put the chunk before the open line, push the complete lines from the end. */
    method Transform(chunk: Bytes, ghost suffix: Bytes)
      requires Seen(suffix)
      modifies this
      ensures last.Some? && Seen(chunk + suffix)
    {
      ghost var done := if last.Some? then Split(suffix, NEWLINE)[1..] else [];
      if last.Some? {
        SplitAgain(chunk, suffix, NEWLINE);
        last := Some(chunk + last.value);
      } else {
        assert chunk + suffix == chunk;
        last := Some(chunk);
      }
      var list := SplitBuffer(last.value, NEWLINE);
      OpensFirst(list, done, Split(chunk + suffix, NEWLINE));
      last := Some(list[0]);
      PushReversed(list[1..]);
    }

    /** flush: the open line is the first of the file. */
    method Flush(ghost file: Bytes)
      requires Seen(file)
      modifies this
      ensures pushed == if old(last).Some? then Reverse(Split(file, NEWLINE)) else []
    {
      if last.Some? {
        var lines := Split(file, NEWLINE);
        assert lines == [lines[0]] + lines[1..];
        ReverseAppend([lines[0]], lines[1..]);
        pushed := pushed + [last.value];
      }
    }
  }

  lemma ChunkBefore(file: Bytes, i: nat, j: nat)
    requires i <= j <= |file|
    ensures file[i..j] + file[j..] == file[i..]
  {
    assert forall k :: 0 <= k < |file| - i ==> (file[i..j] + file[j..])[k] == file[i..][k];
  }

  /** What comes out for a whole file: an empty one has no chunk and gives no line. */
  function Reversed(file: Bytes): seq<Bytes> {
    if file == [] then [] else Reverse(Split(file, NEWLINE))
  }

  /**
   readLinesReversed: chunks of any positive size, read from the end of the file; however it is cut, its
   lines come out in reverse order.
   */
  method ReadLinesReversed(file: Bytes) returns (lines: seq<Bytes>)
    ensures lines == Reversed(file)
  {
    var reverser := new LineReverser();
    var filePosition := |file|;
    while filePosition > 0
      invariant 0 <= filePosition <= |file|
      invariant fresh(reverser)
      invariant reverser.Seen(file[filePosition..])
      invariant reverser.last.None? <==> filePosition == |file|
    {
      var size: nat :| 0 < size;
      var readSize := if size < filePosition then size else filePosition;
      var chunk := file[filePosition - readSize..filePosition];
      ChunkBefore(file, filePosition - readSize, filePosition);
      reverser.Transform(chunk, file[filePosition..]);
      filePosition := filePosition - readSize;
    }
    assert file[0..] == file;
    reverser.Flush(file);
    lines := reverser.pushed;
  }

  /** The stream is the reverse of the split file exactly when the file is not empty. */
  lemma EmptyFileDiffers(file: Bytes)
    ensures Reversed(file) == Reverse(Split(file, NEWLINE)) <==> file != []
  {
  }

  // ---- The last block height ---------------------------------------------------------------------

  /** What JSON.parse and the block_height of the payload give; a missing or zero height is Height(0). */
  datatype Payload = Malformed | Height(height: nat)

  datatype TsvResult = Found(height: nat) | ParseError

  const NEW_BLOCK: Bytes := [47, 110, 101, 119, 95, 98, 108, 111, 99, 107]   // /new_block

  predicate IsNewBlock(line: Bytes) {
    var columns := Split(line, TAB);
    |columns| > 2 && columns[2] == NEW_BLOCK
  }

  /** The payload of the fourth column; parsing a missing column fails. */
  function PayloadOf(line: Bytes, parse: Bytes -> Payload): Payload {
    var columns := Split(line, TAB);
    if |columns| > 3 then parse(columns[3]) else Malformed
  }

  /** The lines that end the search. */
  predicate Decides(line: Bytes, parse: Bytes -> Payload) {
    IsNewBlock(line) && PayloadOf(line, parse) != Height(0)
  }

  /** The answer of a deciding line. */
  function Decision(line: Bytes, parse: Bytes -> Payload): TsvResult {
    match PayloadOf(line, parse)
    case Malformed => ParseError
    case Height(h) => Found(h)
  }

  ghost predicate FirstWhere<T>(s: seq<T>, p: T -> bool, i: int) {
    0 <= i < |s| && p(s[i]) && forall j :: 0 <= j < i ==> !p(s[j])
  }

  ghost predicate LastWhere<T>(s: seq<T>, p: T -> bool, i: int) {
    0 <= i < |s| && p(s[i]) && forall j :: i < j < |s| ==> !p(s[j])
  }

  ghost predicate Nowhere<T>(s: seq<T>, p: T -> bool) {
    forall i :: 0 <= i < |s| ==> !p(s[i])
  }

  function Deciding(parse: Bytes -> Payload): Bytes -> bool {
    line => Decides(line, parse)
  }

  /** The last deciding line of a file decides: its height, or the failure to parse it. */
  ghost predicate LastHeight(lines: seq<Bytes>, parse: Bytes -> Payload, r: TsvResult) {
    || (r == Found(0) && Nowhere(lines, Deciding(parse)))
    || exists i :: LastWhere(lines, Deciding(parse), i) && r == Decision(lines[i], parse)
  }

  /** The first deciding line decides. */
  ghost predicate FirstHeightOf(lines: seq<Bytes>, parse: Bytes -> Payload, r: TsvResult) {
    || (r == Found(0) && Nowhere(lines, Deciding(parse)))
    || exists i :: FirstWhere(lines, Deciding(parse), i) && r == Decision(lines[i], parse)
  }

  /** The loop over the reversed lines. */
  method FirstHeight(reversed: seq<Bytes>, parse: Bytes -> Payload) returns (r: TsvResult)
    ensures FirstHeightOf(reversed, parse, r)
  {
    var blockHeight := 0;
    var k := 0;
    while k < |reversed|
      invariant 0 <= k <= |reversed|
      invariant blockHeight == 0
      invariant Nowhere(reversed[..k], Deciding(parse))
    {
      var data := reversed[k];
      assert Deciding(parse)(data) == Decides(data, parse);
      if IsNewBlock(data) {
        var payload := PayloadOf(data, parse);
        if payload == Malformed {
          assert FirstWhere(reversed, Deciding(parse), k);
          return ParseError;
        }
        if payload.height == 0 {
          k := k + 1;
          continue;
        }
        blockHeight := payload.height;
        assert FirstWhere(reversed, Deciding(parse), k);
        break;
      }
      k := k + 1;
    }
    assert blockHeight == 0 ==> reversed[..k] == reversed;
    r := Found(blockHeight);
  }

  lemma FirstFromBehind<T>(s: seq<T>, k: nat, p: T -> bool)
    requires FirstWhere(Reverse(s), p, k)
    ensures LastWhere(s, p, |s| - 1 - k) && s[|s| - 1 - k] == Reverse(s)[k]
  {
    forall j | |s| - 1 - k < j < |s|
      ensures !p(s[j])
    {
      assert Reverse(s)[|s| - 1 - j] == s[j];
    }
  }

  lemma NowhereReversed<T>(s: seq<T>, p: T -> bool)
    requires Nowhere(Reverse(s), p)
    ensures Nowhere(s, p)
  {
    forall i | 0 <= i < |s|
      ensures !p(s[i])
    {
      assert Reverse(s)[|s| - 1 - i] == s[i];
    }
  }

  lemma EmptyDecidesNothing(parse: Bytes -> Payload)
    ensures Nowhere(Split([], NEWLINE), Deciding(parse))
  {
    SplitPlain([], NEWLINE);
    SplitPlain([], TAB);
    assert !Deciding(parse)([]);
  }

  /** findTsvBlockHeight: the height of the last /new_block line that has one, or 0. */
  method FindTsvBlockHeight(file: Bytes, parse: Bytes -> Payload) returns (r: TsvResult)
    ensures LastHeight(Split(file, NEWLINE), parse, r)
  {
    var reversed := ReadLinesReversed(file);
    r := FirstHeight(reversed, parse);
    if i :| FirstWhere(reversed, Deciding(parse), i) && r == Decision(reversed[i], parse) {
      FirstFromBehind(Split(file, NEWLINE), i, Deciding(parse));
    } else if file == [] {
      EmptyDecidesNothing(parse);
    } else {
      NowhereReversed(Split(file, NEWLINE), Deciding(parse));
    }
  }

  // ---- Lines as they are written -----------------------------------------------------------------

  /** The bytes of a text of one-byte characters; below, 9 is the tab and 10 the newline. */
  function Text(s: string): Bytes
    requires forall i :: 0 <= i < |s| ==> s[i] as int < 256
  {
    seq(|s|, i requires 0 <= i < |s| => s[i] as int as Byte)
  }

  /** A line of four columns is a block line iff the third is /new_block, and its payload is the fourth. */
  lemma EventLine(id: Bytes, time: Bytes, name: Bytes, payload: Bytes, parse: Bytes -> Payload)
    requires 9 !in id && 9 !in time && 9 !in name && 9 !in payload
    ensures var line := Join([id, time, name, payload], 9);
      && (IsNewBlock(line) <==> name == Text("/new_block"))
      && PayloadOf(line, parse) == parse(payload)
  {
    SplitJoin([id, time, name, payload], 9);
    assert Text("/new_block") == NEW_BLOCK;
  }

  /** Without a third column it is none, and without a fourth there is nothing to parse. */
  lemma ShortLine(id: Bytes, time: Bytes, parse: Bytes -> Payload)
    requires 9 !in id && 9 !in time
    ensures !IsNewBlock(Join([id, time], 9))
    ensures var line := Join([id, time, Text("/new_block")], 9);
      IsNewBlock(line) && PayloadOf(line, parse) == Malformed
  {
    var name := Text("/new_block");
    assert name == NEW_BLOCK;
    assert 9 !in name;
    SplitJoin([id, time], 9);
    SplitJoin([id, time, name], 9);
  }

  /** Blocks behind the line give no height: other events, and blocks whose payload has height 0. */
  ghost predicate Passed(after: seq<Bytes>, parse: Bytes -> Payload) {
    forall l :: l in after ==> !IsNewBlock(l) || PayloadOf(l, parse) == Height(0)
  }

  /** So the last block line with a height, or with a payload that cannot be parsed, is the answer for a file. */
  lemma LastBlockLine(file: Bytes, before: seq<Bytes>, id: Bytes, time: Bytes, payload: Bytes, after: seq<Bytes>,
                      parse: Bytes -> Payload, r: TsvResult)
    requires 9 !in id && 9 !in time && 9 !in payload
    requires var line := Join([id, time, Text("/new_block"), payload], 9);
      && file == Join(before + [line] + after, 10)
      && forall l: Bytes :: l in before || l == line || l in after ==> 10 !in l
    requires Passed(after, parse) && parse(payload) != Height(0)
    requires LastHeight(Split(file, NEWLINE), parse, r)
    ensures parse(payload) == Malformed ==> r == ParseError
    ensures parse(payload) != Malformed ==> r == Found(parse(payload).height)
  {
    var name := Text("/new_block");
    assert 9 !in name by {
      assert name == NEW_BLOCK;
    }
    var line := Join([id, time, name, payload], 9);
    var lines := before + [line] + after;
    EventLine(id, time, name, payload, parse);
    SplitJoin(lines, NEWLINE);
    var at := |before|;
    assert lines[at] == line && Deciding(parse)(lines[at]);
    forall j | at < j < |lines|
      ensures !Deciding(parse)(lines[j])
    {
      assert lines[j] == after[j - at - 1];
    }
    if i :| LastWhere(lines, Deciding(parse), i) && r == Decision(lines[i], parse) {
      assert i == at;
    }
  }

  /** Without such a line it is 0. */
  lemma NoBlockLine(lines: seq<Bytes>, parse: Bytes -> Payload, r: TsvResult)
    requires Passed(lines, parse) && LastHeight(lines, parse, r)
    ensures r == Found(0)
  {
    forall i | 0 <= i < |lines|
      ensures !Deciding(parse)(lines[i])
    {
      assert !Decides(lines[i], parse);
    }
  }
}
