/** Newline-delimited framing between the agent's pipes and the protocol: a line splitter fed by
    arbitrary chunks, and the line writer it inverts. */
module NdjsonFraming {
  import opened Prelude

  type Byte = b: int | 0 <= b < 256

  const NEWLINE: Byte := 10
  const CARRIAGE_RETURN: Byte := 13

  /** What one `fill_buf` yields before the end of the stream. */
  datatype Read = Chunk(bytes: seq<Byte>) | Fault

  datatype Item = Line(bytes: seq<Byte>) | InvalidData | ReadError

  // ---- Splitting the whole input -------------------------------------------------------------

  /** The position of the first newline, or the length. */
  function LineEnd(bytes: seq<Byte>): (end: nat)
    ensures end <= |bytes| && NEWLINE !in bytes[..end]
    ensures end < |bytes| ==> bytes[end] == NEWLINE
  {
    if bytes == [] || bytes[0] == NEWLINE then 0
    else
      var end := 1 + LineEnd(bytes[1..]);
      assert bytes[..end] == [bytes[0]] + bytes[1..][..end - 1];
      end
  }

  lemma {:induction false} LineEndIsFirst(bytes: seq<Byte>, end: nat)
    requires end <= |bytes| && NEWLINE !in bytes[..end] && (end < |bytes| ==> bytes[end] == NEWLINE)
    ensures LineEnd(bytes) == end
  {
    var e := LineEnd(bytes);
    assert forall k :: 0 <= k < end ==> bytes[k] == bytes[..end][k] != NEWLINE;
    assert forall k :: 0 <= k < e ==> bytes[k] == bytes[..e][k] != NEWLINE;
  }

  /** A line without its one trailing carriage return, if it decodes. */
  function Decoded(valid: seq<Byte> -> bool, line: seq<Byte>): Item {
    var text := if line != [] && line[|line| - 1] == CARRIAGE_RETURN then line[..|line| - 1] else line;
    if valid(text) then Line(text) else InvalidData
  }

  /** The items of a whole input: every terminated line, then a nonempty rest or the read error. */
  function Items(valid: seq<Byte> -> bool, bytes: seq<Byte>, fault: bool): seq<Item>
    decreases |bytes|
  {
    var end := LineEnd(bytes);
    if end < |bytes| then [Decoded(valid, bytes[..end])] + Items(valid, bytes[end + 1..], fault)
    else if fault then [ReadError]
    else if bytes == [] then []
    else [Decoded(valid, bytes)]
  }

  lemma {:induction false} ItemsOfRest(valid: seq<Byte> -> bool, line: seq<Byte>, fault: bool)
    requires NEWLINE !in line
    ensures Items(valid, line, fault)
            == if fault then [ReadError] else if line == [] then [] else [Decoded(valid, line)]
  {
    assert line[..|line|] == line;
    LineEndIsFirst(line, |line|);
  }

  lemma {:induction false} ItemsOfLine(valid: seq<Byte> -> bool, line: seq<Byte>, rest: seq<Byte>, fault: bool)
    requires NEWLINE !in line
    ensures Items(valid, line + [NEWLINE] + rest, fault) == [Decoded(valid, line)] + Items(valid, rest, fault)
  {
    var bytes := line + [NEWLINE] + rest;
    assert bytes[..|line|] == line && bytes[|line| + 1..] == rest;
    LineEndIsFirst(bytes, |line|);
  }

  /** The line is this text, or the text and one carriage return; a line that ends in one loses it. */
  predicate IsTextOf(line: seq<Byte>, text: seq<Byte>) {
    line == text + [CARRIAGE_RETURN] || (line == text && (text == [] || text[|text| - 1] != CARRIAGE_RETURN))
  }

  /** What a line is reported as. */
  ghost predicate Reports(valid: seq<Byte> -> bool, line: seq<Byte>, item: Item) {
    match item
    case Line(text) => IsTextOf(line, text) && valid(text)
    case InvalidData => forall text | IsTextOf(line, text) :: !valid(text)
    case ReadError => false
  }

  lemma {:induction false} DecodedReports(valid: seq<Byte> -> bool, line: seq<Byte>)
    ensures Reports(valid, line, Decoded(valid, line))
  {
    forall text | IsTextOf(line, text) ensures Decoded(valid, line) == if valid(text) then Line(text) else InvalidData {
      if line == text + [CARRIAGE_RETURN] {
        assert line[|line| - 1] == CARRIAGE_RETURN && line[..|line| - 1] == text;
      }
    }
    if line != [] && line[|line| - 1] == CARRIAGE_RETURN {
      assert line == line[..|line| - 1] + [CARRIAGE_RETURN];
    }
  }

  /** Every line is reported in order; then a read error, or the rest unless it is empty, and nothing else. */
  ghost predicate AreItemsOf(valid: seq<Byte> -> bool, lines: seq<seq<Byte>>, rest: seq<Byte>, fault: bool,
                             items: seq<Item>)
  {
    && |items| == |lines| + (if fault || rest != [] then 1 else 0)
    && (forall k | 0 <= k < |lines| :: Reports(valid, lines[k], items[k]))
    && (fault ==> items[|lines|] == ReadError)
    && (!fault && rest != [] ==> Reports(valid, rest, items[|lines|]))
  }

  lemma {:induction false} OneMoreItem(valid: seq<Byte> -> bool, line: seq<Byte>, item: Item, lines: seq<seq<Byte>>,
                                       rest: seq<Byte>, fault: bool, items: seq<Item>)
    requires Reports(valid, line, item) && AreItemsOf(valid, lines, rest, fault, items)
    ensures AreItemsOf(valid, [line] + lines, rest, fault, [item] + items)
  {
  }

  /** Any input is lines without newlines, each ended by one, and a rest without one. */
  lemma {:induction false} ItemsExactly(valid: seq<Byte> -> bool, bytes: seq<Byte>, fault: bool)
    returns (lines: seq<seq<Byte>>, rest: seq<Byte>)
    ensures bytes == Written(lines) + rest && NEWLINE !in rest && forall k | 0 <= k < |lines| :: NEWLINE !in lines[k]
    ensures AreItemsOf(valid, lines, rest, fault, Items(valid, bytes, fault))
    decreases |bytes|
  {
    hide Decoded, Reports, Items, Written, AreItemsOf;
    var end := LineEnd(bytes);
    if end == |bytes| {
      assert bytes == bytes[..end];
      lines, rest := [], bytes;
      OnlyRest(valid, bytes, fault);
    } else {
      var line, after := bytes[..end], bytes[end + 1..];
      var more, last := ItemsExactly(valid, after, fault);
      lines, rest := [line] + more, last;
      SplitAt(bytes, end);
      ItemsOfLine(valid, line, after, fault);
      DecodedReports(valid, line);
      OneMoreItem(valid, line, Decoded(valid, line), more, last, fault, Items(valid, after, fault));
      OneMoreLine(line, more, last);
    }
  }

  lemma {:induction false} OnlyRest(valid: seq<Byte> -> bool, rest: seq<Byte>, fault: bool)
    requires NEWLINE !in rest
    ensures rest == Written([]) + rest && AreItemsOf(valid, [], rest, fault, Items(valid, rest, fault))
  {
    ItemsOfRest(valid, rest, fault);
    DecodedReports(valid, rest);
  }

  lemma {:induction false} OneMoreLine(line: seq<Byte>, lines: seq<seq<Byte>>, rest: seq<Byte>)
    ensures line + [NEWLINE] + (Written(lines) + rest) == Written([line] + lines) + rest
  {
    assert ([line] + lines)[1..] == lines;
    assert line + [NEWLINE] + (Written(lines) + rest) == (line + [NEWLINE] + Written(lines)) + rest;
  }

  // ---- The chunk-fed splitter ----------------------------------------------------------------

  /** The bytes before the first read error. */
  function Data(input: seq<Read>): seq<Byte> {
    if input == [] || input[0].Fault? then [] else input[0].bytes + Data(input[1..])
  }

  predicate Faults(input: seq<Read>) {
    exists k :: 0 <= k < |input| && input[k].Fault?
  }

  /** An empty buffer would mean the end of the stream. */
  predicate NonEmpty(input: seq<Read>) {
    forall k :: 0 <= k < |input| && input[k].Chunk? ==> input[k].bytes != []
  }

  /** The input without the first bytes of its first chunk. */
  predicate Consumed(was: seq<Read>, input: seq<Read>, count: nat)
    requires was != [] && was[0].Chunk? && count <= |was[0].bytes|
  {
    var rest := was[0].bytes[count..];
    input == if rest == [] then was[1..] else [Chunk(rest)] + was[1..]
  }

  /** Chunks follow one another; nothing after the first read error is data. */
  lemma {:induction false} DataUpToFault(before: seq<Read>, after: seq<Read>)
    requires !Faults(before)
    ensures Data(before + [Fault] + after) == Data(before) && Faults(before + [Fault] + after)
    ensures forall bytes :: Data(before + [Chunk(bytes)]) == Data(before) + bytes
  {
    assert (before + [Fault] + after)[|before|].Fault?;
    forall bytes ensures Data(before + [Chunk(bytes)]) == Data(before) + bytes {
      DataGrows(before, Chunk(bytes));
    }
    if before != [] {
      assert before[0].Chunk?;
      assert !Faults(before[1..]) by {
        assert forall k | 0 <= k < |before| - 1 :: before[1..][k] == before[k + 1];
      }
      assert (before + [Fault] + after)[1..] == before[1..] + [Fault] + after;
      DataUpToFault(before[1..], after);
    }
  }

  lemma {:induction false} DataGrows(before: seq<Read>, chunk: Read)
    requires !Faults(before) && chunk.Chunk?
    ensures Data(before + [chunk]) == Data(before) + chunk.bytes
  {
    if before == [] {
      assert (before + [chunk])[1..] == [];
    } else {
      assert before[0].Chunk?;
      assert !Faults(before[1..]) by {
        assert forall k | 0 <= k < |before| - 1 :: before[1..][k] == before[k + 1];
      }
      assert (before + [chunk])[1..] == before[1..] + [chunk];
      DataGrows(before[1..], chunk);
    }
  }

  lemma {:induction false} ConsumedShape(was: seq<Read>, input: seq<Read>, count: nat)
    requires was != [] && was[0].Chunk? && count <= |was[0].bytes| && Consumed(was, input, count) && NonEmpty(was)
    ensures NonEmpty(input)
    ensures input == was[1..] || (input != [] && input[0].Chunk? && input[1..] == was[1..])
  {
    if was[0].bytes[count..] != [] {
      assert input[1..] == was[1..];
    }
  }

  lemma {:induction false} ConsumedData(was: seq<Read>, input: seq<Read>, count: nat)
    requires was != [] && was[0].Chunk? && count <= |was[0].bytes| && Consumed(was, input, count)
    ensures Data(was) == was[0].bytes[..count] + Data(input)
  {
    var rest := was[0].bytes[count..];
    CutBytes(was[0].bytes, count, Data(was[1..]));
    if rest != [] {
      assert input[1..] == was[1..];
      assert Data(input) == rest + Data(was[1..]);
    } else {
      assert rest + Data(was[1..]) == Data(was[1..]);
    }
  }

  lemma {:induction false} CutBytes(bytes: seq<Byte>, count: nat, more: seq<Byte>)
    requires count <= |bytes|
    ensures bytes + more == bytes[..count] + (bytes[count..] + more)
  {
    assert bytes == bytes[..count] + bytes[count..];
  }

  lemma {:induction false} EmptyMiddle<T>(a: seq<T>, b: seq<T>)
    ensures a + [] + b == a + b
  {
  }

  /** A line at hand, its newline if it was found, and what is still to be read. */
  function Filled(line: seq<Byte>, found: bool, rest: seq<Byte>): seq<Byte> {
    line + (if found then [NEWLINE] else []) + rest
  }

  lemma {:induction false} FilledEnd(line: seq<Byte>, found: bool, rest: seq<Byte>)
    ensures found ==> Filled(line, found, rest) == line + ([NEWLINE] + rest)
    ensures !found && rest == [] ==> Filled(line, found, rest) == line + []
  {
  }

  lemma {:induction false} MoveOne<T>(items: seq<T>, pending: seq<T>, item: T, rest: seq<T>)
    requires pending == [item] + rest
    ensures items + pending == (items + [item]) + rest && |rest| < |pending|
  {
  }

  function AsList(item: Option<Item>): seq<Item> {
    if item.Some? then [item.value] else []
  }

  lemma {:induction false} NothingBefore(data: seq<Byte>)
    ensures [] + data == data
  {
  }

  lemma {:induction false} ItemsAfterLine(valid: seq<Byte> -> bool, line: seq<Byte>, rest: seq<Byte>, fault: bool)
    requires NEWLINE !in line
    ensures Items(valid, line + ([NEWLINE] + rest), fault) == [Decoded(valid, line)] + Items(valid, rest, fault)
  {
    hide Items, Decoded;
    assert line + ([NEWLINE] + rest) == line + [NEWLINE] + rest;
    ItemsOfLine(valid, line, rest, fault);
  }

  lemma {:induction false} ItemsAtEnd(valid: seq<Byte> -> bool, line: seq<Byte>, fault: bool)
    requires NEWLINE !in line
    ensures Items(valid, line + [], fault)
            == if fault then [ReadError] else if line == [] then [] else [Decoded(valid, line)]
  {
    hide Items, Decoded;
    assert line + [] == line;
    ItemsOfRest(valid, line, fault);
  }

  class LineStream {
    const valid: seq<Byte> -> bool
    var input: seq<Read>
    var line: seq<Byte>
    var finished: bool

    ghost predicate Valid() reads this {
      NonEmpty(input) && (!finished ==> line == [])
    }

    /** Everything the stream will still yield. */
    ghost function Pending(): seq<Item> reads this {
      if finished then [] else Items(valid, line + Data(input), Faults(input))
    }

    constructor (valid: seq<Byte> -> bool, input: seq<Read>)
      requires NonEmpty(input)
      ensures Valid() && this.valid == valid && Pending() == Items(valid, Data(input), Faults(input))
    {
      this.valid, this.input, this.line, this.finished := valid, input, [], false;
      new;
      assert [] + Data(input) == Data(input);
    }

    /** Drop the first `count` bytes of the buffer at hand. */
    method Consume(count: nat)
      requires NonEmpty(input) && input != [] && input[0].Chunk? && 0 < count <= |input[0].bytes|
      modifies this`input
      ensures NonEmpty(input) && Faults(input) == old(Faults(input))
      ensures old(Data(input)) == old(input)[0].bytes[..count] + Data(input)
      ensures |Data(input)| + count == |old(Data(input))|
    {
      ghost var was := input;
      var rest := input[0].bytes[count..];
      input := if rest == [] then input[1..] else [Chunk(rest)] + input[1..];
      ConsumedData(was, input, count);
      ConsumedShape(was, input, count);
      FaultsAfterChunk(was, input);
    }

    /** Move the buffer at hand into the line, up to and over the first newline. */
    method Extend() returns (found: bool)
      requires NonEmpty(input) && input != [] && input[0].Chunk? && NEWLINE !in line
      modifies this`input, this`line
      ensures NonEmpty(input) && NEWLINE !in line && Faults(input) == old(Faults(input))
      ensures |Data(input)| < |old(Data(input))|
      ensures old(line + Data(input)) == Filled(line, found, Data(input))
    {
      var available := input[0].bytes;
      assert available != [];
      var newline := LineEnd(available);
      found := newline < |available|;
      var content := available[..newline];
      Consume(if found then newline + 1 else newline);
      assert available[..newline + if found then 1 else 0] == content + if found then [NEWLINE] else [];
      line := line + content;
    }

    /** Fill the line up to the next newline, the end of the input or a read error. */
    method FillLine() returns (found: bool)
      requires NonEmpty(input) && line == []
      modifies this`input, this`line
      ensures NonEmpty(input) && NEWLINE !in line && Faults(input) == old(Faults(input))
      ensures old(Data(input)) == line + if found then [NEWLINE] + Data(input) else []
      ensures !found ==> input == [] || input[0].Fault?
    {
      found := false;
      ghost var data := Data(input);
      EmptyMiddle<Byte>([], data);
      while !found && input != [] && input[0].Chunk?
        invariant NonEmpty(input) && NEWLINE !in line && Faults(input) == old(Faults(input))
        invariant data == Filled(line, found, Data(input))
        decreases |Data(input)|
      {
        EmptyMiddle(line, Data(input));
        found := Extend();
      }
      FilledEnd(line, found, Data(input));
    }

    method Next() returns (item: Option<Item>)
      requires Valid()
      modifies this
      ensures Valid()
      ensures old(Pending()) == if item.Some? then [item.value] + Pending() else []
      ensures item.None? ==> Pending() == []
    {
      if finished {
        return None;
      }
      NothingBefore(Data(input));
      item := NextLine();
    }

    method NextLine() returns (item: Option<Item>)
      requires NonEmpty(input) && line == [] && !finished
      modifies this
      ensures NonEmpty(input) && line == []
      ensures Items(valid, old(Data(input)), old(Faults(input))) == AsList(item) + Pending()
      ensures item.None? ==> Pending() == []
    {
      ghost var data, fault := Data(input), Faults(input);
      var found := FillLine();
      if found {
        ItemsAfterLine(valid, line, Data(input), fault);
        item := Some(DecodeLine());
        line := [];
      } else {
        ItemsAtEnd(valid, line, fault);
        item := Last();
      }
      NothingBefore(Data(input));
    }

    /** The rest of the input, or the error that ended it. */
    method Last() returns (item: Option<Item>)
      requires NEWLINE !in line && !finished && (input == [] || input[0].Fault?)
      modifies this`line, this`finished
      ensures !finished ==> line == [] && input == []
      ensures AsList(item)
              == if input != [] then [ReadError] else if old(line) == [] then [] else [Decoded(valid, old(line))]
      ensures finished == item.Some? && line == []
    {
      if input != [] {
        item := Some(ReadError);
      } else if line != [] {
        item := Some(DecodeLine());
      } else {
        return None;
      }
      line, finished := [], true;
    }

    function DecodeLine(): Item reads this {
      Decoded(valid, line)
    }
  }

  lemma {:induction false} FaultsAfterChunk(was: seq<Read>, input: seq<Read>)
    requires was != [] && was[0].Chunk?
    requires input == was[1..] || (input != [] && input[0].Chunk? && input[1..] == was[1..])
    ensures Faults(input) <==> Faults(was)
  {
    if Faults(was) {
      var k :| 0 <= k < |was| && was[k].Fault?;
      assert was[1..][k - 1].Fault?;
      assert if input == was[1..] then input[k - 1].Fault? else input[k].Fault?;
    }
    if Faults(input) {
      var k :| 0 <= k < |input| && input[k].Fault?;
      assert if input == was[1..] then was[k + 1].Fault? else was[1..][k - 1].Fault?;
    }
  }

  /** Draining the stream yields the items of the whole input, however it was cut into chunks. */
  method Drain(valid: seq<Byte> -> bool, input: seq<Read>) returns (items: seq<Item>)
    requires NonEmpty(input)
    ensures items == Items(valid, Data(input), Faults(input))
  {
    var stream := new LineStream(valid, input);
    items := [];
    while true
      invariant fresh(stream) && stream.Valid() && stream.valid == valid
      invariant items + stream.Pending() == Items(valid, Data(input), Faults(input))
      decreases |stream.Pending()|
    {
      ghost var pending := stream.Pending();
      var item := stream.Next();
      if item.None? {
        assert items + pending == items;
        return;
      }
      MoveOne(items, pending, item.value, stream.Pending());
      items := items + [item.value];
    }
  }

  // ---- The writer, and the splitter as its inverse -------------------------------------------

  function Written(lines: seq<seq<Byte>>): seq<Byte> {
    if lines == [] then [] else lines[0] + [NEWLINE] + Written(lines[1..])
  }

  function AsItems(lines: seq<seq<Byte>>): seq<Item> {
    if lines == [] then [] else [Line(lines[0])] + AsItems(lines[1..])
  }

  /** A line that survives framing: no newline inside, no carriage return at its end. */
  predicate Framable(line: seq<Byte>) {
    NEWLINE !in line && (line != [] ==> line[|line| - 1] != CARRIAGE_RETURN)
  }

  class LineWriter {
    var output: seq<Byte>
    ghost var sent: seq<seq<Byte>>

    ghost predicate Valid() reads this {
      output == Written(sent)
    }

    constructor ()
      ensures Valid() && sent == []
    {
      output, sent := [], [];
    }

    method Send(line: seq<Byte>)
      requires Valid()
      modifies this
      ensures Valid() && sent == old(sent) + [line]
    {
      WrittenAppend(sent, line);
      output := output + line;
      output := output + [NEWLINE];
      sent := sent + [line];
    }
  }

  lemma {:induction false} WrittenAppend(lines: seq<seq<Byte>>, line: seq<Byte>)
    ensures Written(lines + [line]) == Written(lines) + line + [NEWLINE]
  {
    if lines == [] {
      assert lines + [line] == [line];
      assert Written([line]) == line + [NEWLINE] + Written([]);
    } else {
      WrittenAppend(lines[1..], line);
      assert (lines + [line])[1..] == lines[1..] + [line];
      assert Written(lines + [line]) == lines[0] + [NEWLINE] + (Written(lines[1..]) + line + [NEWLINE]);
    }
  }

  /** What follows the first newline of a written line. */
  function AfterFirst(line: seq<Byte>, after: seq<Byte>): seq<Byte> {
    if LineEnd(line) == |line| then after else line[LineEnd(line) + 1..] + [NEWLINE] + after
  }

  lemma {:induction false} CutAtFirst(line: seq<Byte>, after: seq<Byte>)
    ensures line + [NEWLINE] + after == line[..LineEnd(line)] + [NEWLINE] + AfterFirst(line, after)
  {
    var end := LineEnd(line);
    if end == |line| {
      assert line[..end] == line;
    } else {
      SplitAt(line, end);
      Regroup(line[..end], [NEWLINE], line[end + 1..], [NEWLINE], after);
    }
  }

  lemma {:induction false} SplitAt(line: seq<Byte>, end: nat)
    requires end < |line|
    ensures line == line[..end] + [line[end]] + line[end + 1..]
  {
  }

  lemma {:induction false} Regroup(a: seq<Byte>, b: seq<Byte>, c: seq<Byte>, d: seq<Byte>, e: seq<Byte>)
    ensures (a + b + c) + d + e == a + b + (c + d + e)
  {
  }

  lemma {:induction false} FirstItem(valid: seq<Byte> -> bool, line: seq<Byte>)
    ensures Framable(line) && valid(line) <==> Decoded(valid, line[..LineEnd(line)]) == Line(line)
    ensures Framable(line) ==> LineEnd(line) == |line|
  {
    if LineEnd(line) == |line| {
      assert line[..LineEnd(line)] == line;
    } else {
      assert line[LineEnd(line)] == NEWLINE;
    }
    if NEWLINE !in line {
      LineEndIsFirst(line, |line|);
    }
  }

  lemma {:induction false} FirstWritten(valid: seq<Byte> -> bool, line: seq<Byte>, after: seq<Byte>)
    ensures Items(valid, line + [NEWLINE] + after, false)
            == [Decoded(valid, line[..LineEnd(line)])] + Items(valid, AfterFirst(line, after), false)
  {
    CutAtFirst(line, after);
    ItemsOfLine(valid, line[..LineEnd(line)], AfterFirst(line, after), false);
  }

  /** Splitting what the writer emitted gives back exactly the emitted lines if and only if every one
      of them is framable and decodes. */
  lemma {:induction false} SplittingInvertsWriting(valid: seq<Byte> -> bool, lines: seq<seq<Byte>>)
    ensures Items(valid, Written(lines), false) == AsItems(lines)
            <==> forall l :: l in lines ==> Framable(l) && valid(l)
  {
    if lines != [] {
      SplittingInvertsWriting(valid, lines[1..]);
      FirstLineSplits(valid, lines[0], lines[1..]);
      assert lines == [lines[0]] + lines[1..];
    }
  }

  lemma {:induction false} FirstLineSplits(valid: seq<Byte> -> bool, first: seq<Byte>, rest: seq<seq<Byte>>)
    ensures Items(valid, first + [NEWLINE] + Written(rest), false) == [Line(first)] + AsItems(rest)
            <==> Framable(first) && valid(first) && Items(valid, Written(rest), false) == AsItems(rest)
  {
    hide Items, LineEnd, Decoded, Framable, Written, AsItems;
    FirstWritten(valid, first, Written(rest));
    FirstItem(valid, first);
    SameHead(Decoded(valid, first[..LineEnd(first)]), Items(valid, AfterFirst(first, Written(rest)), false),
             Line(first), AsItems(rest));
  }

  lemma {:induction false} SameHead<T>(a: T, s: seq<T>, b: T, t: seq<T>)
    ensures [a] + s == [b] + t <==> a == b && s == t
  {
    if [a] + s == [b] + t {
      assert ([a] + s)[0] == ([b] + t)[0] && ([a] + s)[1..] == ([b] + t)[1..];
    }
  }
}
