/**
 The event-stream reader's framing (section 9.2.6 of the WHATWG HTML standard
 for what the fields mean): blocks between blank lines, found in a buffer that
 grows by arbitrary chunks.  Text is a sequence of UTF-16 code units.
 */
module Framing {
  import opened Prelude

  type Unit = u: int | 0 <= u < 0x1_0000 witness 0
  type Text = seq<Unit>

  const CR: Unit := 13
  const LF: Unit := 10
  const SPACE: Unit := 32
  const LIMIT := 65536
  const EVENT: Text := [101, 118, 101, 110, 116, 58]
  const DATA: Text := [100, 97, 116, 97, 58]
  const MESSAGE: Text := [109, 101, 115, 115, 97, 103, 101]

  // ---------------------------------------------------------------- boundaries

  /** Where `\r?\n\r?\n` ends when it matches at `i`. */
  function MatchAt(t: Text, i: nat): (e: Option<nat>)
    ensures e.Some? ==> i + 2 <= e.value <= |t| && e.value <= i + 4
  {
    var j := if i < |t| && t[i] == CR then i + 1 else i;
    if j + 1 < |t| && t[j] == LF && t[j + 1] == LF then Some(j + 2)
    else if j + 2 < |t| && t[j] == LF && t[j + 1] == CR && t[j + 2] == LF then Some(j + 3)
    else None
  }

  /** A boundary is two line ends, each of them LF or CR LF. */
  lemma BoundariesAre(t: Text, i: nat, e: nat)
    ensures MatchAt(t, i) == Some(e) <==>
              i <= e <= |t| && t[i..e] in {[LF, LF], [CR, LF, LF], [LF, CR, LF], [CR, LF, CR, LF]}
  {
    if i <= e <= |t| {
      var m := t[i..e];
      assert forall k :: 0 <= k < |m| ==> m[k] == t[i + k];
      if MatchAt(t, i) == Some(e) {
        if e == i + 2 { assert m == [t[i], t[i + 1]]; }
        else if e == i + 3 { assert m == [t[i], t[i + 1], t[i + 2]]; }
        else { assert m == [t[i], t[i + 1], t[i + 2], t[i + 3]]; }
      } else if |m| >= 2 {
        assert m[0] == t[i] && m[1] == t[i + 1];
        if |m| >= 3 { assert m[2] == t[i + 2]; }
      }
    }
  }

  datatype Boundary = Boundary(start: nat, end: nat)

  /** The leftmost match from `i` on. */
  function FirstMatch(t: Text, i: nat): (b: Option<Boundary>)
    requires i <= |t|
    ensures b.Some? ==> i <= b.value.start && MatchAt(t, b.value.start) == Some(b.value.end) && b.value.end <= |t|
    ensures b.Some? ==> forall j :: i <= j < b.value.start ==> MatchAt(t, j).None?
    ensures b.None? ==> forall j :: i <= j <= |t| ==> MatchAt(t, j).None?
    decreases |t| - i
  {
    if MatchAt(t, i).Some? then Some(Boundary(i, MatchAt(t, i).value))
    else if i == |t| then None
    else FirstMatch(t, i + 1)
  }

  lemma MatchGrows(t: Text, u: Text, i: nat)
    ensures MatchAt(t, i).Some? ==> MatchAt(t + u, i) == MatchAt(t, i)
    ensures MatchAt(t + u, i).Some? && MatchAt(t + u, i).value <= |t| ==> MatchAt(t, i) == MatchAt(t + u, i)
  {
  }

  /** More text moves no boundary that is already there, and none it adds ends within the old text. */
  lemma BoundaryStays(t: Text, u: Text)
    ensures FirstMatch(t, 0).Some? ==> FirstMatch(t + u, 0) == FirstMatch(t, 0)
    ensures FirstMatch(t, 0).None? && FirstMatch(t + u, 0).Some? ==> FirstMatch(t + u, 0).value.end > |t|
  {
    var a, b := FirstMatch(t, 0), FirstMatch(t + u, 0);
    if a.Some? { MatchGrows(t, u, a.value.start); }
    if b.Some? {
      MatchGrows(t, u, b.value.start);
      if a.Some? && b.value.start < a.value.start { NoEarlierMatch(t, u, b.value.start, a.value.start); }
    }
  }

  /** A match that the new text completes does not start before one the old text holds. */
  lemma NoEarlierMatch(t: Text, u: Text, i: nat, j: nat)
    requires i < j && MatchAt(t, j).Some?
    ensures MatchAt(t + u, i) == MatchAt(t, i)
  {
  }

  // ---------------------------------------------------------------- blocks

  /** A block, and how long its boundary is. */
  datatype Block = Block(text: Text, boundary: nat)
  datatype Framed = Framed(blocks: seq<Block>, tail: Text)

  /** The whole text cut at its boundaries. */
  function Frame(t: Text): (f: Framed)
    ensures FirstMatch(f.tail, 0).None?
    decreases |t|
  {
    match FirstMatch(t, 0)
    case None => Framed([], t)
    case Some(b) =>
      var rest := Frame(t[b.end..]);
      Framed([Block(t[..b.start], b.end - b.start)] + rest.blocks, rest.tail)
  }

  function Prepend(b: Block, f: Framed): Framed {
    Framed([b] + f.blocks, f.tail)
  }

  /** What framing `u` after a framed text gives. */
  function Resume(f: Framed, u: Text): Framed {
    Framed(f.blocks + Frame(f.tail + u).blocks, Frame(f.tail + u).tail)
  }

  lemma FrameSome(t: Text, b: Boundary)
    requires FirstMatch(t, 0) == Some(b)
    ensures Frame(t) == Prepend(Block(t[..b.start], b.end - b.start), Frame(t[b.end..]))
  {
  }

  lemma FrameCut(t: Text, u: Text, b: Boundary)
    requires FirstMatch(t, 0) == Some(b) && FirstMatch(t + u, 0) == Some(b)
    ensures Frame(t + u) == Prepend(Block(t[..b.start], b.end - b.start), Frame(t[b.end..] + u))
  {
    FrameSome(t + u, b);
    assert (t + u)[b.end..] == t[b.end..] + u;
    assert (t + u)[..b.start] == t[..b.start];
  }

  lemma PrependResume(b: Block, f: Framed, u: Text)
    ensures Prepend(b, Resume(f, u)) == Resume(Prepend(b, f), u)
  {
    assert [b] + (f.blocks + Frame(f.tail + u).blocks) == ([b] + f.blocks) + Frame(f.tail + u).blocks;
  }

  /** Framing resumes where it stopped: only the tail matters for what comes next. */
  lemma {:induction false} FrameExtends(t: Text, u: Text)
    ensures Frame(t + u) == Resume(Frame(t), u)
    decreases |t|
  {
    BoundaryStays(t, u);
    match FirstMatch(t, 0)
    case None =>
      assert [] + Frame(t + u).blocks == Frame(t + u).blocks;
    case Some(b) =>
      FrameCut(t, u, b);
      FrameSome(t, b);
      FrameExtends(t[b.end..], u);
      PrependResume(Block(t[..b.start], b.end - b.start), Frame(t[b.end..]), u);
  }

  // ---------------------------------------------------------------- fields

  predicate Prefixed(line: Text, name: Text) {
    |name| <= |line| && line[..|name|] == name
  }

  /** A field's value, less one leading space. */
  function Field(line: Text, name: Text): Text
    requires Prefixed(line, name)
  {
    var v := line[|name|..];
    if v != [] && v[0] == SPACE then v[1..] else v
  }

  function LineEnd(t: Text, i: nat): (j: nat)
    requires i <= |t|
    ensures i <= j <= |t| && (j < |t| ==> t[j] == LF) && forall k :: i <= k < j ==> t[k] != LF
    decreases |t| - i
  {
    if i == |t| || t[i] == LF then i else LineEnd(t, i + 1)
  }

  /** `split(/\r?\n/)`. */
  function Lines(t: Text): seq<Text>
    decreases |t|
  {
    var j := LineEnd(t, 0);
    if j == |t| then [t]
    else [if j > 0 && t[j - 1] == CR then t[..j - 1] else t[..j]] + Lines(t[j + 1..])
  }

  datatype Message = Message(event: Text, data: Text)

  datatype Fields = Fields(event: Text, data: seq<Text>)

  function ReadLine(f: Fields, line: Text): Fields {
    var f1 := if Prefixed(line, EVENT) then f.(event := Field(line, EVENT)) else f;
    if Prefixed(line, DATA) then f1.(data := f1.data + [Field(line, DATA)]) else f1
  }

  function ReadLines(f: Fields, lines: seq<Text>): Fields
    decreases |lines|
  {
    if lines == [] then f else ReadLines(ReadLine(f, lines[0]), lines[1..])
  }

  function Joined(data: seq<Text>): Text {
    if data == [] then [] else if |data| == 1 then data[0] else data[0] + [LF] + Joined(data[1..])
  }

  /** The message of a block; a block without data is a comment. */
  function MessageOf(block: Text): Option<Message> {
    var f := ReadLines(Fields(MESSAGE, []), Lines(block));
    if f.data == [] then None else Some(Message(f.event, Joined(f.data)))
  }

  // ---------------------------------------------------------------- reading

  /** What has been delivered, whether the reader has thrown, and what it still holds. */
  datatype Progress = Progress(messages: seq<Message>, failed: bool, buffer: Text)

  /** `json` tells which data texts parse. */
  predicate Throws(json: Text -> bool, block: Text) {
    MessageOf(block).Some? && !json(MessageOf(block).value.data)
  }

  function Delivered(block: Text): seq<Message> {
    if MessageOf(block).Some? then [MessageOf(block).value] else []
  }

  /** The inner loop: every block the buffer holds, with the two size checks. */
  function Drain(json: Text -> bool, buffer: Text): Progress
    decreases |buffer|
  {
    match FirstMatch(buffer, 0)
    case None => Progress([], |buffer| > LIMIT, buffer)
    case Some(b) =>
      var block := buffer[..b.start];
      if b.start > LIMIT || Throws(json, block) then Progress([], true, buffer)
      else
        var rest := Drain(json, buffer[b.end..]);
        rest.(messages := Delivered(block) + rest.messages)
  }

  function Read(json: Text -> bool, buffer: Text, chunks: seq<Text>): Progress
    decreases |chunks|
  {
    if chunks == [] then Progress([], false, buffer)
    else
      var now := Drain(json, buffer + chunks[0]);
      if now.failed then now
      else
        var later := Read(json, now.buffer, chunks[1..]);
        later.(messages := now.messages + later.messages)
  }

  function Concat(chunks: seq<Text>): Text {
    if chunks == [] then [] else chunks[0] + Concat(chunks[1..])
  }

  /** What the blocks say, however they arrive: up to the first one that throws. */
  function Said(json: Text -> bool, blocks: seq<Block>): (seq<Message>, bool)
    decreases |blocks|
  {
    if blocks == [] then ([], false)
    else if Throws(json, blocks[0].text) then ([], true)
    else
      var rest := Said(json, blocks[1..]);
      (Delivered(blocks[0].text) + rest.0, rest.1)
  }

  /** A block fits when all of it but its boundary's last unit does; the tail must fit as it is. */
  predicate Fits(b: Block) {
    |b.text| + b.boundary - 1 <= LIMIT
  }

  ghost predicate Safe(f: Framed) {
    (forall b :: b in f.blocks ==> Fits(b)) && |f.tail| <= LIMIT
  }

  lemma {:induction false} SaidConcat(json: Text -> bool, a: seq<Block>, b: seq<Block>)
    ensures Said(json, a + b) ==
            if Said(json, a).1 then Said(json, a) else (Said(json, a).0 + Said(json, b).0, Said(json, b).1)
  {
    if a == [] {
      assert a + b == b && [] + Said(json, b).0 == Said(json, b).0;
    } else {
      assert (a + b)[1..] == a[1..] + b && (a + b)[0] == a[0];
      SaidConcat(json, a[1..], b);
      var first := Delivered(a[0].text);
      assert first + (Said(json, a[1..]).0 + Said(json, b).0) == (first + Said(json, a[1..]).0) + Said(json, b).0;
    }
  }

  /** Draining a buffer whose blocks and tail fit delivers what its blocks say, and keeps its tail. */
  lemma {:induction false} DrainSays(json: Text -> bool, buffer: Text)
    requires Safe(Frame(buffer))
    ensures Drain(json, buffer).messages == Said(json, Frame(buffer).blocks).0
    ensures Drain(json, buffer).failed == Said(json, Frame(buffer).blocks).1
    ensures !Drain(json, buffer).failed ==> Drain(json, buffer).buffer == Frame(buffer).tail
    decreases |buffer|
  {
    if FirstMatch(buffer, 0).Some? {
      var b := FirstMatch(buffer, 0).value;
      var rest := Frame(buffer[b.end..]);
      assert Frame(buffer).blocks[1..] == rest.blocks;
      assert Frame(buffer).blocks[0] in Frame(buffer).blocks;
      assert forall x :: x in rest.blocks ==> x in Frame(buffer).blocks;
      DrainSays(json, buffer[b.end..]);
    }
  }

  /** A tail that waits for more is never longer than what it will belong to allows. */
  lemma WaitingTailFits(tail: Text, rest: Text)
    requires FirstMatch(tail, 0).None? && Safe(Frame(tail + rest))
    ensures |tail| <= LIMIT
  {
    BoundaryStays(tail, rest);
    if FirstMatch(tail + rest, 0).Some? {
      var b := FirstMatch(tail + rest, 0).value;
      assert Fits(Frame(tail + rest).blocks[0]);
    }
  }

  /** Framing is chunk-independent: when everything fits, what is delivered depends on the whole text alone. */
  lemma {:induction false} ReadSays(json: Text -> bool, buffer: Text, chunks: seq<Text>)
    requires FirstMatch(buffer, 0).None? && Safe(Frame(buffer + Concat(chunks)))
    ensures Read(json, buffer, chunks).messages == Said(json, Frame(buffer + Concat(chunks)).blocks).0
    ensures Read(json, buffer, chunks).failed == Said(json, Frame(buffer + Concat(chunks)).blocks).1
    decreases |chunks|
  {
    if chunks == [] {
      assert buffer + [] == buffer;
    } else {
      var held, rest := buffer + chunks[0], Concat(chunks[1..]);
      assert buffer + Concat(chunks) == held + rest;
      FrameExtends(held, rest);
      var f := Frame(held);
      var later := Frame(f.tail + rest);
      assert forall b :: b in f.blocks || b in later.blocks ==> b in Frame(held + rest).blocks;
      WaitingTailFits(f.tail, rest);
      DrainSays(json, held);
      SaidConcat(json, f.blocks, later.blocks);
      if !Drain(json, held).failed { ReadSays(json, f.tail, chunks[1..]); }
    }
  }

  lemma ChunksDoNotMatter(json: Text -> bool, chunks: seq<Text>, others: seq<Text>)
    requires Concat(chunks) == Concat(others) && Safe(Frame(Concat(chunks)))
    ensures Read(json, [], chunks).messages == Read(json, [], others).messages
    ensures Read(json, [], chunks).failed == Read(json, [], others).failed
  {
    assert [] + Concat(chunks) == Concat(chunks);
    ReadSays(json, [], chunks);
    ReadSays(json, [], others);
  }

  // ---------------------------------------------------------------- what does not fit

  function Singles(t: Text): seq<Text> {
    if t == [] then [] else [[t[0]]] + Singles(t[1..])
  }

  lemma {:induction false} SinglesConcat(t: Text)
    ensures Concat(Singles(t)) == t
  {
    if t != [] {
      SinglesConcat(t[1..]);
      assert Singles(t)[1..] == Singles(t[1..]);
      assert [t[0]] + t[1..] == t;
    }
  }

  lemma FrameWhole(t: Text, b: Boundary)
    requires FirstMatch(t, 0) == Some(b) && b.end == |t|
    ensures Frame(t) == Framed([Block(t[..b.start], b.end - b.start)], [])
  {
    FrameSome(t, b);
    assert t[b.end..] == [];
    assert Frame([]) == Framed([], []);
  }

  /** One more unit either completes nothing, or completes the tail into a block. */
  lemma OneMore(tail: Text, x: Unit)
    requires FirstMatch(tail, 0).None?
    ensures FirstMatch(tail + [x], 0).Some? ==>
      var b := FirstMatch(tail + [x], 0).value;
      b.end == |tail| + 1 && Frame(tail + [x]) == Framed([Block((tail + [x])[..b.start], b.end - b.start)], [])
  {
    BoundaryStays(tail, [x]);
    if FirstMatch(tail + [x], 0).Some? {
      FrameWhole(tail + [x], FirstMatch(tail + [x], 0).value);
    }
  }

  lemma ReadOne(json: Text -> bool, tail: Text, rest: Text)
    requires rest != []
    ensures var now := Drain(json, tail + [rest[0]]);
      !Read(json, tail, Singles(rest)).failed ==> !now.failed && !Read(json, now.buffer, Singles(rest[1..])).failed
  {
    assert Singles(rest)[0] == [rest[0]] && Singles(rest)[1..] == Singles(rest[1..]);
  }

  /** Sizes are exact: a text that does not fit is refused when it comes one unit at a time. */
  lemma {:induction false} SinglesNeedRoom(json: Text -> bool, tail: Text, rest: Text)
    requires FirstMatch(tail, 0).None? && |tail| <= LIMIT && !Read(json, tail, Singles(rest)).failed
    ensures Safe(Frame(tail + rest))
    decreases |rest|
  {
    if rest == [] {
      assert tail + [] == tail;
    } else {
      var more := rest[1..];
      var held := tail + [rest[0]];
      assert tail + rest == held + more;
      ReadOne(json, tail, rest);
      DrainTails(json, held);
      OneMore(tail, rest[0]);
      FrameExtends(held, more);
      SinglesNeedRoom(json, Frame(held).tail, more);
    }
  }

  lemma BlockWhere(buffer: Text, chunks: seq<Text>, b: Block)
    requires chunks != [] && b in Frame(buffer + Concat(chunks)).blocks
    ensures var held := buffer + chunks[0];
      b in Frame(held).blocks || b in Frame(Frame(held).tail + Concat(chunks[1..])).blocks
  {
    assert buffer + Concat(chunks) == (buffer + chunks[0]) + Concat(chunks[1..]);
    BlockInParts(buffer + chunks[0], Concat(chunks[1..]), b);
  }

  lemma BlockInParts(t: Text, u: Text, b: Block)
    requires b in Frame(t + u).blocks
    ensures b in Frame(t).blocks || b in Frame(Frame(t).tail + u).blocks
  {
    FrameExtends(t, u);
  }

  lemma FailsNow(json: Text -> bool, buffer: Text, chunks: seq<Text>)
    requires chunks != [] && Drain(json, buffer + chunks[0]).failed
    ensures Read(json, buffer, chunks).failed
  {
  }

  lemma FailsLater(json: Text -> bool, buffer: Text, chunks: seq<Text>)
    requires chunks != []
    requires !Drain(json, buffer + chunks[0]).failed ==> Read(json, Drain(json, buffer + chunks[0]).buffer, chunks[1..]).failed
    ensures Read(json, buffer, chunks).failed
  {
  }

  /** A block longer than the limit is refused under every split. */
  lemma {:induction false} LongBlockFails(json: Text -> bool, buffer: Text, chunks: seq<Text>, b: Block)
    requires b in Frame(buffer + Concat(chunks)).blocks && |b.text| > LIMIT && FirstMatch(buffer, 0).None?
    ensures Read(json, buffer, chunks).failed
    decreases |chunks|
  {
    assert buffer + [] == buffer;
    if chunks != [] {
      var held := buffer + chunks[0];
      BlockWhere(buffer, chunks, b);
      if b in Frame(held).blocks {
        DrainRefuses(json, held, b);
        FailsNow(json, buffer, chunks);
      } else {
        DrainTails(json, held);
        LongBlockFails(json, Frame(held).tail, chunks[1..], b);
        FailsLater(json, buffer, chunks);
      }
    }
  }

  lemma {:induction false} DrainTails(json: Text -> bool, buffer: Text)
    ensures !Drain(json, buffer).failed ==> Drain(json, buffer).buffer == Frame(buffer).tail
    decreases |buffer|
  {
    if FirstMatch(buffer, 0).Some? { DrainTails(json, buffer[FirstMatch(buffer, 0).value.end..]); }
  }

  lemma {:induction false} DrainRefuses(json: Text -> bool, buffer: Text, b: Block)
    requires b in Frame(buffer).blocks && |b.text| > LIMIT
    ensures Drain(json, buffer).failed
    decreases |buffer|
  {
    var m := FirstMatch(buffer, 0).value;
    if |buffer[..m.start]| <= LIMIT {
      assert b in Frame(buffer[m.end..]).blocks;
      DrainRefuses(json, buffer[m.end..], b);
    }
  }

  ghost predicate SplitSucceeds(json: Text -> bool, t: Text, chunks: seq<Text>) {
    Concat(chunks) == t ==> !Read(json, [], chunks).failed
  }

  lemma SafeSplit(json: Text -> bool, t: Text, chunks: seq<Text>)
    requires Safe(Frame(t)) && !Said(json, Frame(t).blocks).1
    ensures SplitSucceeds(json, t, chunks)
  {
    if Concat(chunks) == t {
      assert [] + Concat(chunks) == t;
      ReadSays(json, [], chunks);
    }
  }

  lemma OneAtATime(json: Text -> bool, t: Text)
    requires SplitSucceeds(json, t, Singles(t))
    ensures Safe(Frame(t))
  {
    SinglesConcat(t);
    SinglesNeedRoom(json, [], t);
    assert [] + t == t;
  }

  /** When every split of a text is read alike: exactly when it fits (given that its data parse). */
  lemma EverySplitSucceedsExactlyWhenSafe(json: Text -> bool, t: Text)
    requires !Said(json, Frame(t).blocks).1
    ensures Safe(Frame(t)) <==> forall chunks :: SplitSucceeds(json, t, chunks)
  {
    if Safe(Frame(t)) {
      forall chunks ensures SplitSucceeds(json, t, chunks) { SafeSplit(json, t, chunks); }
    }
    if SplitSucceeds(json, t, Singles(t)) { OneAtATime(json, t); }
  }

  // ---------------------------------------------------------------- what depends on the split

  /** Every block's own text, and the tail, are within the limit. */
  ghost predicate Roomy(f: Framed) {
    (forall b :: b in f.blocks ==> |b.text| <= LIMIT) && |f.tail| <= LIMIT
  }

  lemma FrameFirst(t: Text, b: Boundary)
    requires FirstMatch(t, 0) == Some(b)
    ensures Frame(t).blocks == [Block(t[..b.start], b.end - b.start)] + Frame(t[b.end..]).blocks
    ensures Frame(t).tail == Frame(t[b.end..]).tail
  {
  }

  /** A text that comes whole is read as far as its blocks say, if each of them and the tail are within the limit. */
  lemma {:induction false} WholeSays(json: Text -> bool, t: Text)
    requires Roomy(Frame(t))
    ensures Drain(json, t).messages == Said(json, Frame(t).blocks).0 && Drain(json, t).failed == Said(json, Frame(t).blocks).1
    decreases |t|
  {
    if FirstMatch(t, 0).Some? {
      var b := FirstMatch(t, 0).value;
      FrameFirst(t, b);
      var blocks, rest := Frame(t).blocks, Frame(t[b.end..]).blocks;
      assert blocks[0] in blocks && blocks[1..] == rest && forall x :: x in rest ==> x in blocks;
      WholeSays(json, t[b.end..]);
    }
  }

  lemma ReadWhole(json: Text -> bool, t: Text)
    ensures Read(json, [], [t]).failed == Drain(json, t).failed
    ensures !Drain(json, t).failed ==> Read(json, [], [t]).messages == Drain(json, t).messages
    ensures Concat([t]) == t
  {
    assert [] + [t][0] == t && [t][1..] == [];
    assert t + [] == t && Concat([]) == [];
  }

  /** A tail longer than the limit is refused under every split. */
  lemma {:induction false} LongTailFails(json: Text -> bool, buffer: Text, chunks: seq<Text>)
    requires FirstMatch(buffer, 0).None? && |buffer| <= LIMIT && |Frame(buffer + Concat(chunks)).tail| > LIMIT
    ensures Read(json, buffer, chunks).failed
    decreases |chunks|
  {
    assert buffer + [] == buffer;
    if chunks != [] {
      var held := buffer + chunks[0];
      assert buffer + Concat(chunks) == held + Concat(chunks[1..]);
      FrameExtends(held, Concat(chunks[1..]));
      if !Drain(json, held).failed {
        DrainTails(json, held);
        DrainedTailFits(json, held);
        LongTailFails(json, Frame(held).tail, chunks[1..]);
      }
      FailsLater(json, buffer, chunks);
    }
  }

  lemma {:induction false} DrainedTailFits(json: Text -> bool, t: Text)
    requires !Drain(json, t).failed
    ensures |Frame(t).tail| <= LIMIT
    decreases |t|
  {
    if FirstMatch(t, 0).Some? { DrainedTailFits(json, t[FirstMatch(t, 0).value.end..]); }
  }

  ghost predicate ReadBy(json: Text -> bool, t: Text, chunks: seq<Text>) {
    Concat(chunks) == t && !Read(json, [], chunks).failed
  }

  lemma RefusedUnlessRoomy(json: Text -> bool, t: Text, chunks: seq<Text>)
    requires ReadBy(json, t, chunks)
    ensures Roomy(Frame(t))
  {
    assert [] + Concat(chunks) == t;
    if b :| b in Frame(t).blocks && |b.text| > LIMIT {
      LongBlockFails(json, [], chunks, b);
    } else if |Frame(t).tail| > LIMIT {
      LongTailFails(json, [], chunks);
    }
  }

  /** Some split of a text succeeds, and then the whole text at once does, exactly when its blocks and tail are within the limit. */
  lemma SomeSplitSucceedsExactlyWhenRoomy(json: Text -> bool, t: Text)
    requires !Said(json, Frame(t).blocks).1
    ensures Roomy(Frame(t)) <==> exists chunks :: ReadBy(json, t, chunks)
    ensures Roomy(Frame(t)) <==> ReadBy(json, t, [t])
  {
    ReadWhole(json, t);
    if Roomy(Frame(t)) {
      WholeSays(json, t);
      assert ReadBy(json, t, [t]);
    }
    forall chunks | ReadBy(json, t, chunks) ensures Roomy(Frame(t)) { RefusedUnlessRoomy(json, t, chunks); }
  }

  /** So exactly the texts that are roomy but not safe are read or refused depending on how they were split. */
  lemma SplitMattersExactlyWhen(json: Text -> bool, t: Text)
    requires !Said(json, Frame(t).blocks).1
    ensures (exists a, b :: ReadBy(json, t, a) && Concat(b) == t && !ReadBy(json, t, b)) <==> Roomy(Frame(t)) && !Safe(Frame(t))
  {
    SomeSplitSucceedsExactlyWhenRoomy(json, t);
    EverySplitSucceedsExactlyWhenSafe(json, t);
    if Roomy(Frame(t)) && !Safe(Frame(t)) {
      var b :| !SplitSucceeds(json, t, b);
      assert ReadBy(json, t, [t]) && Concat(b) == t && !ReadBy(json, t, b);
    }
    forall a, b | ReadBy(json, t, a) && Concat(b) == t && !ReadBy(json, t, b) ensures !Safe(Frame(t)) {
      assert !SplitSucceeds(json, t, b);
    }
  }

  function Letters(n: nat): Text {
    seq(n, i => 97)
  }

  lemma LettersFrame(n: nat)
    ensures Frame(Letters(n) + [LF, LF]) == Framed([Block(Letters(n), 2)], [])
  {
    var t := Letters(n) + [LF, LF];
    assert MatchAt(t, n) == Some(n + 2);
    assert forall j :: 0 <= j < n ==> t[j] == 97 && MatchAt(t, j).None?;
    assert FirstMatch(t, 0) == Some(Boundary(n, n + 2));
    assert t[..n] == Letters(n);
    FrameWhole(t, Boundary(n, n + 2));
  }

  /** Such a text: 65536 letters and a blank line, read at once but refused one unit at a time. */
  lemma SplitMattersHere(json: Text -> bool)
    ensures var t := Letters(LIMIT) + [LF, LF];
      && Frame(t) == Framed([Block(Letters(LIMIT), 2)], []) && Roomy(Frame(t)) && !Safe(Frame(t))
      && ReadBy(json, t, [t]) && Concat(Singles(t)) == t && !ReadBy(json, t, Singles(t))
  {
    var t := Letters(LIMIT) + [LF, LF];
    var blocks := [Block(Letters(LIMIT), 2)];
    LettersFrame(LIMIT);
    LettersSayNothing(json, LIMIT);
    assert blocks[0] in Frame(t).blocks && !Fits(blocks[0]);
    assert blocks[1..] == [] && !Said(json, blocks).1;
    SomeSplitSucceedsExactlyWhenRoomy(json, t);
    SinglesConcat(t);
    if !Read(json, [], Singles(t)).failed { OneAtATime(json, t); }
  }

  lemma LettersSayNothing(json: Text -> bool, n: nat)
    ensures MessageOf(Letters(n)).None? && !Throws(json, Letters(n))
  {
    var block := Letters(n);
    LineEndAt(block, 0, n);
    var lines := Lines(block);
    assert lines == [block];
    assert lines[1..] == [];
    assert !Prefixed(block, EVENT) && !Prefixed(block, DATA) by {
      if n > 0 { assert block[0] == 97; }
    }
    var f := Fields(MESSAGE, []);
    assert ReadLine(f, lines[0]) == f;
    assert ReadLines(f, lines) == ReadLines(f, lines[1..]) == f;
  }

  lemma {:induction false} BoundaryLengths(t: Text)
    ensures forall b :: b in Frame(t).blocks ==> 2 <= b.boundary <= 4
    decreases |t|
  {
    if FirstMatch(t, 0).Some? { BoundaryLengths(t[FirstMatch(t, 0).value.end..]); }
  }

  /** Blocks of at most 65533 units and a tail within the limit fit, whatever their boundaries. */
  lemma ShortBlocksAreSafe(json: Text -> bool, chunks: seq<Text>, others: seq<Text>)
    requires Concat(chunks) == Concat(others) && |Frame(Concat(chunks)).tail| <= 65536
    requires forall b :: b in Frame(Concat(chunks)).blocks ==> |b.text| <= 65533
    ensures Read(json, [], chunks).messages == Read(json, [], others).messages
    ensures Read(json, [], chunks).failed == Read(json, [], others).failed
  {
    BoundaryLengths(Concat(chunks));
    ChunksDoNotMatter(json, chunks, others);
  }

  // ---------------------------------------------------------------- the server's side

  predicate Plain(t: Text) {
    CR !in t && LF !in t
  }

  /** An event as the server writes it: its two fields. */
  function Written(m: Message): Text {
    (EVENT + [SPACE] + m.event) + [LF] + (DATA + [SPACE] + m.data)
  }

  function Wire(ms: seq<Message>): Text
    decreases |ms|
  {
    if ms == [] then [] else Written(ms[0]) + [LF, LF] + Wire(ms[1..])
  }

  lemma WrittenReadsBack(m: Message)
    requires Plain(m.event) && Plain(m.data)
    ensures MessageOf(Written(m)) == Some(m)
  {
    var a, b := EVENT + [SPACE] + m.event, DATA + [SPACE] + m.data;
    var t := Written(m);
    assert Plain(a) && Plain(b);
    assert t[..|a|] == a && t[|a|] == LF && t[|a| + 1..] == b;
    LineEndAt(t, 0, |a|);
    LineEndAt(b, 0, |b|);
    assert a[|a| - 1] in a;
    assert Lines(b) == [b];
    assert Lines(t) == [a] + [b];
    assert a[..6] == EVENT && a[6..] == [SPACE] + m.event && a[0] != DATA[0];
    assert b[..5] == DATA && b[5..] == [SPACE] + m.data && b[0] != EVENT[0];
    assert Field(a, EVENT) == m.event && Field(b, DATA) == m.data;
    var f1 := ReadLine(Fields(MESSAGE, []), a);
    assert f1 == Fields(m.event, []);
    assert ReadLine(f1, b) == Fields(m.event, [m.data]);
    assert ([a] + [b])[1..] == [b];
    assert ReadLines(Fields(MESSAGE, []), [a] + [b]) == ReadLines(f1, [b]) == Fields(m.event, [m.data]);
  }

  lemma {:induction false} LineEndAt(t: Text, i: nat, j: nat)
    requires i <= j <= |t| && (j < |t| ==> t[j] == LF) && forall k :: i <= k < j ==> t[k] != LF
    ensures LineEnd(t, i) == j
    decreases j - i
  {
    if i < j { LineEndAt(t, i + 1, j); }
  }

  lemma FirstBoundary(m: Message, u: Text)
    requires Plain(m.event) && Plain(m.data)
    ensures FirstMatch(Written(m) + [LF, LF] + u, 0) == Some(Boundary(|Written(m)|, |Written(m)| + 2))
  {
    var w := Written(m);
    var t := w + [LF, LF] + u;
    var a, b := EVENT + [SPACE] + m.event, DATA + [SPACE] + m.data;
    assert Plain(a) && Plain(b);
    assert MatchAt(t, |w|) == Some(|w| + 2);
    forall j | 0 <= j < |w| ensures MatchAt(t, j).None? {
      assert t[j] == w[j];
      if j < |a| { assert w[j] == a[j] && a[j] in a; }
      else if j == |a| { assert t[j + 1] == w[j + 1] == b[0]; }
      else { assert w[j] == b[j - |a| - 1] && b[j - |a| - 1] in b; }
    }
  }

  lemma WireCut(m: Message, rest: Text)
    requires Plain(m.event) && Plain(m.data)
    ensures var t := Written(m) + [LF, LF] + rest;
      Frame(t).blocks == [Block(Written(m), 2)] + Frame(rest).blocks && Frame(t).tail == Frame(rest).tail
  {
    var w := Written(m);
    var t := w + [LF, LF] + rest;
    FirstBoundary(m, rest);
    FrameFirst(t, Boundary(|w|, |w| + 2));
    assert t[..|w|] == w && t[|w| + 2..] == rest;
  }

  ghost predicate WireBlock(b: Block, ms: seq<Message>) {
    b.boundary == 2 && exists m :: m in ms && b.text == Written(m)
  }

  /** Events written by the server and read by the client are the same events, in order, under every split that fits. */
  lemma {:induction false} WireFrames(json: Text -> bool, ms: seq<Message>)
    requires forall m :: m in ms ==> Plain(m.event) && Plain(m.data) && json(m.data)
    ensures Said(json, Frame(Wire(ms)).blocks) == (ms, false) && Frame(Wire(ms)).tail == []
    ensures forall b :: b in Frame(Wire(ms)).blocks ==> WireBlock(b, ms)
    decreases |ms|
  {
    if ms != [] {
      var m, more := ms[0], ms[1..];
      var first, blocks := Block(Written(m), 2), Frame(Wire(more)).blocks;
      assert m in ms && ms == [m] + more;
      WireFrames(json, more);
      WireCut(m, Wire(more));
      WrittenReadsBack(m);
      assert ([first] + blocks)[1..] == blocks && Delivered(first.text) == [m];
      forall b | b in [first] + blocks ensures WireBlock(b, ms) {
        assert b == first || WireBlock(b, more);
      }
    }
  }

  lemma WireRoundTrip(json: Text -> bool, ms: seq<Message>, chunks: seq<Text>)
    requires forall m :: m in ms ==> Plain(m.event) && Plain(m.data) && json(m.data) && |Written(m)| < LIMIT
    requires Concat(chunks) == Wire(ms)
    ensures Read(json, [], chunks).messages == ms && !Read(json, [], chunks).failed
  {
    WireFrames(json, ms);
    assert [] + Concat(chunks) == Wire(ms);
    ReadSays(json, [], chunks);
  }

  // ---------------------------------------------------------------- the loop

  function After(sent: seq<Message>, p: Progress): Progress {
    p.(messages := sent + p.messages)
  }

  lemma DrainOne(json: Text -> bool, t: Text, b: Boundary)
    requires FirstMatch(t, 0) == Some(b) && b.start <= LIMIT && !Throws(json, t[..b.start])
    ensures Drain(json, t) == After(Delivered(t[..b.start]), Drain(json, t[b.end..]))
  {
  }

  lemma AfterBoth(sent: seq<Message>, more: seq<Message>, p: Progress)
    ensures After(sent, After(more, p)) == After(sent + more, p)
  {
    assert sent + (more + p.messages) == (sent + more) + p.messages;
  }

  lemma DrainStops(json: Text -> bool, t: Text, sent: seq<Message>)
    ensures FirstMatch(t, 0).None? ==> After(sent, Drain(json, t)) == Progress(sent, |t| > LIMIT, t)
    ensures FirstMatch(t, 0).Some? && (FirstMatch(t, 0).value.start > LIMIT || Throws(json, t[..FirstMatch(t, 0).value.start])) ==>
              After(sent, Drain(json, t)) == Progress(sent, true, t)
  {
    assert sent + [] == sent;
  }

  /** The inner loop: deliver every block the buffer holds. */
  method DrainBuffer(json: Text -> bool, held: Text) returns (messages: seq<Message>, ok: bool, buffer: Text)
    ensures Drain(json, held) == Progress(messages, !ok, buffer)
  {
    messages, buffer := [], held;
    ghost var whole := Drain(json, held);
    assert After([], whole) == whole;
    while true
      invariant whole == After(messages, Drain(json, buffer))
      decreases |buffer|
    {
      var b := FirstMatch(buffer, 0);
      DrainStops(json, buffer, messages);
      if b.None? { return messages, |buffer| <= LIMIT, buffer; }
      var block := buffer[..b.value.start];
      if b.value.start > LIMIT { return messages, false, buffer; }
      if Throws(json, block) { return messages, false, buffer; }
      DrainOne(json, buffer, b.value);
      AfterBoth(messages, Delivered(block), Drain(json, buffer[b.value.end..]));
      messages := messages + Delivered(block);
      buffer := buffer[b.value.end..];
    }
  }

  lemma ReadNext(json: Text -> bool, buffer: Text, chunks: seq<Text>, i: nat, sent: seq<Message>)
    requires i < |chunks|
    ensures var now := Drain(json, buffer + chunks[i]);
      After(sent, Read(json, buffer, chunks[i..])) ==
      if now.failed then After(sent, now) else After(sent + now.messages, Read(json, now.buffer, chunks[i + 1..]))
  {
    assert chunks[i..][0] == chunks[i] && chunks[i..][1..] == chunks[i + 1..];
    var now := Drain(json, buffer + chunks[i]);
    if !now.failed { AfterBoth(sent, now.messages, Read(json, now.buffer, chunks[i + 1..])); }
  }

  lemma ReadNothing(json: Text -> bool, buffer: Text, chunks: seq<Text>, sent: seq<Message>)
    ensures After(sent, Read(json, buffer, chunks[|chunks|..])) == Progress(sent, false, buffer)
    ensures chunks[0..] == chunks && After([], Read(json, buffer, chunks)) == Read(json, buffer, chunks)
  {
  }

  /** The reader: chunks from the network, messages to the caller, and false when it throws. */
  method ReadStream(json: Text -> bool, chunks: seq<Text>) returns (messages: seq<Message>, ok: bool)
    ensures messages == Read(json, [], chunks).messages && ok == !Read(json, [], chunks).failed
  {
    messages := [];
    var buffer: Text := [];
    ghost var whole := Read(json, [], chunks);
    ReadNothing(json, [], chunks, []);
    for i := 0 to |chunks|
      invariant whole == After(messages, Read(json, buffer, chunks[i..]))
    {
      ReadNext(json, buffer, chunks, i, messages);
      var more, drained, rest := DrainBuffer(json, buffer + chunks[i]);
      messages := messages + more;
      if !drained { return messages, false; }
      buffer := rest;
    }
    ReadNothing(json, buffer, chunks, messages);
    return messages, true;
  }
}
