/** What a block of the event stream says, whatever its lines: events, data, comments, and either line ending. */
module Messages {
  import opened Prelude
  import opened Framing

  /** One line ending. */
  function Ending(crlf: bool): Text {
    if crlf then [CR, LF] else [LF]
  }

  /** A block of these lines, each but the last with its own ending. */
  function BlockOf(lines: seq<Text>, crlf: seq<bool>): Text
    requires 0 < |lines| == |crlf|
    decreases |lines|
  {
    if |lines| == 1 then lines[0] else lines[0] + Ending(crlf[0]) + BlockOf(lines[1..], crlf[1..])
  }

  lemma FirstLine(line: Text, crlf: bool, rest: Text)
    requires Plain(line)
    ensures Lines(line + Ending(crlf) + rest) == [line] + Lines(rest)
  {
    var t := line + Ending(crlf) + rest;
    var j := |line| + |Ending(crlf)| - 1;
    assert forall k :: 0 <= k < |line| ==> t[k] == line[k] && line[k] in line;
    assert t[j] == LF && (crlf ==> t[|line|] == CR);
    assert LineEnd(t, 0) == j;
    assert t[j + 1..] == rest && t[..|line|] == line;
    if !crlf && j > 0 { assert t[j - 1] == line[j - 1] && line[j - 1] in line; }
  }

  lemma OnlyLine(line: Text)
    requires Plain(line)
    ensures Lines(line) == [line]
  {
    assert forall k :: 0 <= k < |line| ==> line[k] in line;
    assert LineEnd(line, 0) == |line|;
  }

  /** Splitting gives the lines back, whichever endings they had. */
  lemma {:induction false} LinesReadBack(lines: seq<Text>, crlf: seq<bool>)
    requires 0 < |lines| == |crlf| && forall l :: l in lines ==> Plain(l)
    ensures Lines(BlockOf(lines, crlf)) == lines
    decreases |lines|
  {
    if |lines| == 1 {
      OnlyLine(lines[0]);
    } else {
      LinesReadBack(lines[1..], crlf[1..]);
      FirstLine(lines[0], crlf[0], BlockOf(lines[1..], crlf[1..]));
      assert lines == [lines[0]] + lines[1..];
    }
  }

  // ---------------------------------------------------------------- fields

  /** The values of a field, line by line. */
  function Values(lines: seq<Text>, name: Text): seq<Text>
    decreases |lines|
  {
    if lines == [] then []
    else Values(lines[..|lines| - 1], name) + (if Prefixed(lines[|lines| - 1], name) then [Field(lines[|lines| - 1], name)] else [])
  }

  /** A value may stand after one space, which is not part of it. */
  lemma FieldIs(name: Text, value: Text)
    ensures Field(name + [SPACE] + value, name) == value
    ensures (value != [] ==> value[0] != SPACE) ==> Field(name + value, name) == value
  {
    assert (name + [SPACE] + value)[|name|..] == [SPACE] + value;
    assert (name + value)[|name|..] == value;
  }

  lemma {:induction false} ReadPushed(f: Fields, lines: seq<Text>, line: Text)
    ensures ReadLines(f, lines + [line]) == ReadLine(ReadLines(f, lines), line)
    decreases |lines|
  {
    if lines == [] {
      assert lines + [line] == [line] && [line][1..] == [];
    } else {
      assert (lines + [line])[0] == lines[0] && (lines + [line])[1..] == lines[1..] + [line];
      ReadPushed(ReadLine(f, lines[0]), lines[1..], line);
    }
  }

  /** Reading keeps the last event and all the data. */
  lemma {:induction false} ReadIs(lines: seq<Text>)
    ensures var f := ReadLines(Fields(MESSAGE, []), lines);
      var events := Values(lines, EVENT);
      f.event == (if events == [] then MESSAGE else events[|events| - 1]) && f.data == Values(lines, DATA)
    decreases |lines|
  {
    if lines != [] {
      var n := |lines| - 1;
      assert lines == lines[..n] + [lines[n]];
      ReadIs(lines[..n]);
      ReadPushed(Fields(MESSAGE, []), lines[..n], lines[n]);
    }
  }

  /** The values, with a line feed between any two. */
  ghost predicate JoinedBy(data: seq<Text>, t: Text) {
    if |data| == 1 then t == data[0]
    else |data| > 1 && exists last: Text, front: Text ::
      last == data[|data| - 1] && t == front + [LF] + last && JoinedBy(data[..|data| - 1], front)
  }

  lemma {:induction false} JoinedIs(data: seq<Text>)
    requires data != []
    ensures JoinedBy(data, Joined(data))
    decreases |data|
  {
    if |data| > 1 {
      var n := |data| - 1;
      JoinedIs(data[..n]);
      JoinedPushed(data[..n], data[n]);
      assert data == data[..n] + [data[n]];
      assert Joined(data) == Joined(data[..n]) + [LF] + data[n];
    }
  }

  lemma {:induction false} JoinedPushed(data: seq<Text>, last: Text)
    requires data != []
    ensures Joined(data + [last]) == Joined(data) + [LF] + last
    decreases |data|
  {
    if |data| == 1 {
      assert (data + [last])[1..] == [last];
    } else {
      assert (data + [last])[0] == data[0] && (data + [last])[1..] == data[1..] + [last];
      JoinedPushed(data[1..], last);
      assert data[0] + [LF] + (Joined(data[1..]) + [LF] + last) == (data[0] + [LF] + Joined(data[1..])) + [LF] + last;
    }
  }

  /**
   A block says nothing exactly when it has no data line.  Otherwise it is its last event, or `message`, with the data
   of all its data lines in turn, a line feed between any two; every other line is a comment.
   */
  lemma BlockSays(lines: seq<Text>, crlf: seq<bool>)
    requires 0 < |lines| == |crlf| && forall l :: l in lines ==> Plain(l)
    ensures var m := MessageOf(BlockOf(lines, crlf));
      var events, data := Values(lines, EVENT), Values(lines, DATA);
      && (m.None? <==> data == [])
      && (m.Some? ==> m.value.event == (if events == [] then MESSAGE else events[|events| - 1])
                      && JoinedBy(data, m.value.data))
  {
    LinesReadBack(lines, crlf);
    ReadIs(lines);
    if Values(lines, DATA) != [] { JoinedIs(Values(lines, DATA)); }
  }
}
