/** The bytes of one file of learning records: how a record is appended as a line, and how the file is read
    back (append and decodeLearningFile in internal/secretary/learning_store.go). A write may be cut anywhere. */
module LearningLines {
  import opened Common
  import opened LineSplitting
  import opened Text

  const MAX_RECORD_BYTES := 0x10_0000

  /** How a record is written as JSON, and read. */
  datatype Codec<!T> = Codec(encode: T -> string, decode: string -> Option<T>)

  function Concat(pieces: seq<string>): string {
    if pieces == [] then "" else Concat(pieces[..|pieces| - 1]) + pieces[|pieces| - 1]
  }

  ghost predicate Beginning<T(!new)>(json: Codec<T>, piece: string) {
    piece != "" && exists x :: piece <= json.encode(x)
  }

  ghost predicate Beginnings<T(!new)>(json: Codec<T>, pieces: seq<string>) {
    forall i :: 0 <= i < |pieces| ==> Beginning(json, pieces[i])
  }

  /** What is needed of JSON objects: they are read back; they hold no newline, and begin with no space; none
      begins another; and beginnings of them put together are no object, unless it is a single whole one. */
  ghost predicate IsJson<T(!new)>(json: Codec<T>) {
    && (forall x :: json.decode(json.encode(x)) == Some(x))
    && (forall x :: '\n' !in json.encode(x) && json.encode(x) != "" && !IsSpace(json.encode(x)[0]))
    && (forall x, y :: json.encode(x) <= json.encode(y) ==> x == y)
    && (forall pieces :: pieces != [] && Beginnings(json, pieces) && json.decode(Concat(pieces)).Some? ==>
          pieces == [json.encode(json.decode(Concat(pieces)).value)])
  }

  // ----- writing -----

  /** An attempt to append a record, and how many bytes of its line were written. */
  datatype Attempt<T> = Attempt(record: T, bytes: nat)

  function Line<T>(json: Codec<T>, x: T): string {
    json.encode(x) + "\n"
  }

  function Written<T>(json: Codec<T>, a: Attempt<T>): string {
    if a.bytes <= |json.encode(a.record)| then json.encode(a.record)[..a.bytes] else Line(json, a.record)
  }

  function Content<T>(json: Codec<T>, attempts: seq<Attempt<T>>): string {
    if attempts == [] then ""
    else Content(json, attempts[..|attempts| - 1]) + Written(json, attempts[|attempts| - 1])
  }

  /** A record that is too long is not written at all. */
  ghost predicate Possible<T>(json: Codec<T>, attempts: seq<Attempt<T>>) {
    forall i :: 0 <= i < |attempts| ==> |json.encode(attempts[i].record)| <= 0x10_0000
  }

  predicate Part<T>(json: Codec<T>, a: Attempt<T>) {
    0 < a.bytes < |json.encode(a.record)|
  }

  predicate AllButNewline<T>(json: Codec<T>, a: Attempt<T>) {
    0 < a.bytes == |json.encode(a.record)|
  }

  /** The whole line was written, as it is when appending reports success. */
  predicate All<T>(json: Codec<T>, a: Attempt<T>) {
    a.bytes > |json.encode(a.record)|
  }

  /** Appends a line to the content of a file. Only when file operations may fail can it be cut. */
  method AppendLine<T>(json: Codec<T>, content: string, x: T, reliable: bool)
    returns (after: string, ok: bool, ghost a: Attempt<T>)
    ensures a.record == x && after == content + Written(json, a)
    ensures ok ==> All(json, a)
    ensures |json.encode(x)| > 0x10_0000 ==> !ok && after == content
    ensures reliable && |json.encode(x)| <= 0x10_0000 ==> ok
  {
    var data := json.encode(x);
    a := Attempt(x, 0);
    if |data| > MAX_RECORD_BYTES {
      assert content + Written(json, a) == content;
      return content, false, a;
    }
    var line := data + "\n";
    var n := WrittenBytes(|line|, reliable);
    a := Attempt(x, n);
    after := content + line[..n];
    var failed := Fails(reliable);
    ok := !failed && n == |line|;
  }

  /** How many of some bytes are written. */
  method WrittenBytes(all: nat, reliable: bool) returns (n: nat)
    ensures n <= all && (reliable ==> n == all)
  {
    n :| n <= all && (reliable ==> n == all);
  }

  // ----- reading -----

  /** What one line, of so many bytes with its newline, adds to what was read. */
  function AddLine<T>(json: Codec<T>, records: seq<T>, line: string, bytes: nat): Option<seq<T>> {
    if bytes > MAX_RECORD_BYTES then None
    else if Blank(line) then Some(records)
    else if json.decode(line).None? then None
    else Some(records + [json.decode(line).value])
  }

  function DecodedLines<T>(json: Codec<T>, lines: seq<string>): Option<seq<T>> {
    if lines == [] then Some([])
    else
      var before, last := DecodedLines(json, lines[..|lines| - 1]), lines[|lines| - 1];
      if before.None? then None else AddLine(json, before.value, last, |last| + 1)
  }

  /** What reading a file gives, if it can be read. */
  function Decoded<T>(json: Codec<T>, content: string): Option<seq<T>> {
    var lines := Cut(content);
    var before := DecodedLines(json, lines.complete);
    if before.None? then None else AddLine(json, before.value, lines.rest, |lines.rest|)
  }

  lemma DecodedOneMore<T>(json: Codec<T>, lines: seq<string>, line: string)
    ensures DecodedLines(json, lines + [line]) ==
            var before := DecodedLines(json, lines);
            if before.None? then None else AddLine(json, before.value, line, |line| + 1)
  {
    assert (lines + [line])[..|lines|] == lines;
  }

  lemma {:induction false} OneLineSpoils<T>(json: Codec<T>, lines: seq<string>, n: nat)
    requires n <= |lines| && DecodedLines(json, lines[..n]).None?
    ensures DecodedLines(json, lines).None?
    decreases |lines|
  {
    if n < |lines| {
      assert lines[..|lines| - 1][..n] == lines[..n];
      OneLineSpoils(json, lines[..|lines| - 1], n);
    } else {
      assert lines[..n] == lines;
    }
  }

  datatype DecodeError = CannotRead | Oversized | Malformed

  /** The bytes up to the next newline, and that, or up to the end. */
  method ReadBytes(content: string, from: nat) returns (end: nat)
    requires from <= |content|
    ensures from <= end <= |content| && '\n' !in content[from..end]
    ensures end < |content| ==> content[end] == '\n'
  {
    end := from;
    while end < |content| && content[end] != '\n'
      invariant from <= end <= |content| && '\n' !in content[from..end]
    {
      assert content[from..end + 1] == content[from..end] + [content[end]];
      end := end + 1;
    }
  }

  /** Reads a file line by line. It fails only when reading fails or some line is too long or malformed. */
  method DecodeLearningFile<T>(json: Codec<T>, content: string, reliable: bool)
    returns (records: seq<T>, error: Option<DecodeError>)
    ensures reliable ==> error != Some(CannotRead)
    ensures error == None ==> Decoded(json, content) == Some(records)
    ensures error.Some? && error != Some(CannotRead) ==> Decoded(json, content) == None
  {
    hide Blank, Cut, DecodedLines;
    var from := 0;
    records := [];
    ghost var done: seq<string> := [];
    NothingRead(json, content);
    while from < |content|
      invariant from <= |content|
      invariant Cut(content[..from]) == Lines(done, "") && DecodedLines(json, done) == Some(records)
      invariant done <= Cut(content).complete
      decreases |content| - from
    {
      var failing := Fails(reliable);
      if failing {
        return records, Some(CannotRead);
      }
      var end := ReadBytes(content, from);
      var line := content[from..end];
      CutNextLine(content[..from], line);
      assert content[..end] == content[..from] + line;
      if end == |content| {
        assert content[..end] == content;
        records, error := DecodeLine(json, records, line, |line|);
        return;
      }
      assert content[..end + 1] == content[..from] + line + "\n";
      CutExtends(content[..end + 1], content[end + 1..]);
      assert content[..end + 1] + content[end + 1..] == content;
      DecodedOneMore(json, done, line);
      var added, failed := DecodeLine(json, records, line, |line| + 1);
      done := done + [line];
      if failed.Some? {
        assert Cut(content).complete[..|done|] == done;
        OneLineSpoils(json, Cut(content).complete, |done|);
        return records, failed;
      }
      records, from := added, end + 1;
    }
    assert content[..from] == content;
    EmptyLine(json, records);
    error := None;
  }

  lemma NothingRead<T>(json: Codec<T>, content: string)
    ensures Cut(content[..0]) == Lines([], "") && DecodedLines(json, []) == Some([])
  {
  }

  lemma EmptyLine<T>(json: Codec<T>, records: seq<T>)
    ensures AddLine(json, records, "", 0) == Some(records)
  {
  }

  /** The body of the loop. */
  method DecodeLine<T>(json: Codec<T>, before: seq<T>, line: string, bytes: nat)
    returns (records: seq<T>, error: Option<DecodeError>)
    ensures error != Some(CannotRead)
    ensures AddLine(json, before, line, bytes) == if error.None? then Some(records) else None
  {
    records := before;
    if bytes > MAX_RECORD_BYTES {
      return records, Some(Oversized);
    }
    if TrimSpace(line) != "" {
      var value := json.decode(line);
      if value.None? {
        return records, Some(Malformed);
      }
      records := records + [value.value];
    }
    error := None;
  }

  /** The next line of the cut. */
  lemma CutNextLine(before: string, line: string)
    requires '\n' !in line && Cut(before).rest == ""
    ensures Cut(before + line) == Lines(Cut(before).complete, line)
    ensures Cut(before + line + "\n") == Lines(Cut(before).complete + [line], "")
  {
    hide Cut;
    CutByByte(before, line);
    CutAtNewline(before, line);
    assert "" + line == line;
  }

  lemma {:induction false} CutExtends(content: string, more: string)
    ensures Cut(content).complete <= Cut(content + more).complete
  {
    if more == "" {
      assert content + more == content;
    } else {
      var n := |more| - 1;
      CutExtends(content, more[..n]);
      CutOneByte(content + more[..n], more[n]);
      assert content + more == content + more[..n] + [more[n]];
    }
  }

  // ----- what is read back -----

  /** No write was cut inside a record; after one that lacks only its newline nothing was written; and with its
      newline no record is over the limit. */
  ghost predicate Undamaged<T>(json: Codec<T>, attempts: seq<Attempt<T>>) {
    && (forall i :: 0 <= i < |attempts| ==> !Part(json, attempts[i]))
    && (forall i :: 0 <= i < |attempts| && All(json, attempts[i]) ==>
          |json.encode(attempts[i].record)| < 0x10_0000)
    && (forall i, j :: 0 <= i < j < |attempts| && AllButNewline(json, attempts[i]) ==> attempts[j].bytes == 0)
  }

  /** The records of which everything was written, with or without the newline. */
  function Stored<T>(json: Codec<T>, attempts: seq<Attempt<T>>): seq<T> {
    if attempts == [] then []
    else
      var front, a := attempts[..|attempts| - 1], attempts[|attempts| - 1];
      Stored(json, front) + if All(json, a) || AllButNewline(json, a) then [a.record] else []
  }

  /** The pieces that the line consists of that has no newline yet. */
  function Open<T>(json: Codec<T>, attempts: seq<Attempt<T>>): seq<string> {
    if attempts == [] then []
    else
      var front, a := attempts[..|attempts| - 1], attempts[|attempts| - 1];
      if a.bytes == 0 then Open(json, front)
      else if All(json, a) then []
      else Open(json, front) + [Written(json, a)]
  }

  lemma ConcatOneMore(pieces: seq<string>, piece: string)
    ensures Concat(pieces + [piece]) == Concat(pieces) + piece
  {
    assert (pieces + [piece])[..|pieces|] == pieces;
  }

  lemma {:induction false} TrimRightKeeps(s: string)
    requires s != "" && !IsSpace(s[0])
    ensures TrimRight(s) != ""
  {
    if IsSpace(s[|s| - 1]) {
      TrimRightKeeps(s[..|s| - 1]);
    }
  }

  lemma {:induction false} ConcatNotBlank<T(!new)>(json: Codec<T>, pieces: seq<string>)
    requires IsJson(json) && Beginnings(json, pieces) && pieces != []
    ensures Concat(pieces) != "" && Concat(pieces)[0] == pieces[0][0] && !IsSpace(pieces[0][0])
  {
    assert Beginning(json, pieces[0]);
    if |pieces| > 1 {
      ConcatNotBlank(json, pieces[..|pieces| - 1]);
    } else {
      assert Concat(pieces[..0]) == "";
    }
  }

  lemma NotBlank(s: string)
    requires s != "" && !IsSpace(s[0])
    ensures !Blank(s)
  {
    TrimRightKeeps(s);
  }

  /** A single whole record. */
  ghost predicate IsWhole<T(!new)>(json: Codec<T>, pieces: seq<string>) {
    exists x :: pieces == [json.encode(x)]
  }

  /** A line of beginnings adds a record only if it is a single whole one. */
  lemma LineOfPieces<T(!new)>(json: Codec<T>, records: seq<T>, pieces: seq<string>, bytes: nat)
    requires IsJson(json) && Beginnings(json, pieces) && pieces != []
    ensures !IsWhole(json, pieces) ==> AddLine(json, records, Concat(pieces), bytes) == None
    ensures forall x :: pieces == [json.encode(x)] ==>
              AddLine(json, records, Concat(pieces), bytes) ==
              if bytes <= MAX_RECORD_BYTES then Some(records + [x]) else None
  {
    hide IsSpace, Blank;
    ConcatNotBlank(json, pieces);
    NotBlank(Concat(pieces));
    forall x | pieces == [json.encode(x)] ensures Concat(pieces) == json.encode(x) {
      ConcatOneMore([], json.encode(x));
      assert [] + [json.encode(x)] == [json.encode(x)] && "" + json.encode(x) == json.encode(x);
    }
  }

  lemma PieceIsBeginning<T(!new)>(json: Codec<T>, a: Attempt<T>)
    requires IsJson(json)
    ensures '\n' !in json.encode(a.record) && json.encode(a.record) != ""
    ensures a.bytes > 0 && !All(json, a) ==> Beginning(json, Written(json, a)) && '\n' !in Written(json, a)
    ensures IsWhole(json, [Written(json, a)]) && !All(json, a) ==> AllButNewline(json, a)
    ensures AllButNewline(json, a) ==> Written(json, a) == json.encode(a.record)
    ensures Beginning(json, json.encode(a.record))
  {
    hide Beginnings, IsSpace, Concat;
    var e := json.encode(a.record);
    assert e <= e;
    if !All(json, a) {
      assert Written(json, a) <= e;
      if x :| [Written(json, a)] == [json.encode(x)] {
        assert json.encode(x) <= e;
      }
    }
  }

  /** The last line is made of the open pieces. */
  lemma {:induction false} RestIsOpen<T(!new)>(json: Codec<T>, attempts: seq<Attempt<T>>)
    requires IsJson(json)
    ensures Cut(Content(json, attempts)).rest == Concat(Open(json, attempts))
    ensures Beginnings(json, Open(json, attempts))
  {
    if attempts != [] {
      var front, a := attempts[..|attempts| - 1], attempts[|attempts| - 1];
      assert attempts == front + [a];
      RestIsOpen(json, front);
      CutAfterAttempt(json, Content(json, front), a);
      AttemptOpens(json, front, a);
      if !All(json, a) {
        PieceJoins(json, Open(json, front), a);
      }
      hide IsJson, Cut, Concat, Beginnings, Written, Open;
      assert Concat([]) == "" && Beginnings(json, []) by {
        NoPieces(json);
      }
    }
  }

  lemma NoPieces<T(!new)>(json: Codec<T>)
    ensures Concat([]) == "" && Beginnings(json, [])
  {
  }

  lemma PieceJoins<T(!new)>(json: Codec<T>, open: seq<string>, a: Attempt<T>)
    requires IsJson(json) && Beginnings(json, open) && !All(json, a)
    ensures Concat(if a.bytes == 0 then open else open + [Written(json, a)]) == Concat(open) + Written(json, a)
    ensures Beginnings(json, if a.bytes == 0 then open else open + [Written(json, a)])
  {
    ConcatOneMore(open, Written(json, a));
    PieceIsBeginning(json, a);
    hide IsJson, Concat, Beginning;
    assert Concat(open) + "" == Concat(open);
  }

  /** How an attempt changes the lines. */
  lemma CutAfterAttempt<T(!new)>(json: Codec<T>, content: string, a: Attempt<T>)
    requires IsJson(json)
    ensures var before, e := Cut(content), json.encode(a.record);
      Cut(content + Written(json, a)) ==
        if All(json, a) then Lines(before.complete + [before.rest + e], "")
        else Lines(before.complete, before.rest + Written(json, a))
  {
    PieceIsBeginning(json, a);
    hide IsJson;
    if All(json, a) {
      CutAtNewline(content, json.encode(a.record));
      assert content + Written(json, a) == content + json.encode(a.record) + "\n";
    } else {
      CutByByte(content, Written(json, a));
    }
  }

  ghost predicate Unended<T>(json: Codec<T>, attempts: seq<Attempt<T>>) {
    exists i :: 0 <= i < |attempts| && AllButNewline(json, attempts[i])
  }

  lemma UndamagedOneMore<T>(json: Codec<T>, front: seq<Attempt<T>>, a: Attempt<T>)
    ensures Undamaged(json, front + [a]) <==>
            && Undamaged(json, front) && !Part(json, a)
            && (All(json, a) ==> |json.encode(a.record)| < MAX_RECORD_BYTES)
            && (a.bytes > 0 ==> !Unended(json, front))
    ensures Unended(json, front + [a]) <==> Unended(json, front) || AllButNewline(json, a)
  {
    var attempts := front + [a];
    assert forall i :: 0 <= i < |front| ==> attempts[i] == front[i];
    hide Part, All, AllButNewline;
    if Unended(json, front) {
      var i :| 0 <= i < |front| && AllButNewline(json, front[i]);
      assert AllButNewline(json, attempts[i]);
    }
    assert attempts[|front|] == a;
  }

  /** What is known of a file after some attempts. */
  ghost predicate Describes<T(!new)>(json: Codec<T>, attempts: seq<Attempt<T>>, lines: Option<seq<T>>,
                                     open: seq<string>)
  {
    if !Undamaged(json, attempts) then lines == None || (open != [] && !IsWhole(json, open))
    else if Unended(json, attempts) then lines.Some? && EndsWith(json, Stored(json, attempts), lines.value, open)
    else lines == Some(Stored(json, attempts)) && open == []
  }

  /** What is stored is what is in the lines, and one record more, which is open. */
  ghost predicate EndsWith<T(!new)>(json: Codec<T>, stored: seq<T>, lines: seq<T>, open: seq<string>) {
    exists x :: stored == lines + [x] && open == [json.encode(x)] && |json.encode(x)| <= MAX_RECORD_BYTES
  }

  lemma {:induction false} LinesAreStored<T(!new)>(json: Codec<T>, attempts: seq<Attempt<T>>)
    requires IsJson(json) && Possible(json, attempts)
    ensures Describes(json, attempts, DecodedLines(json, Cut(Content(json, attempts)).complete), Open(json, attempts))
  {
    if attempts != [] {
      var front, a := attempts[..|attempts| - 1], attempts[|attempts| - 1];
      assert attempts == front + [a];
      LinesAreStored(json, front);
      RestIsOpen(json, front);
      CutAfterAttempt(json, Content(json, front), a);
      var lines := Cut(Content(json, front)).complete;
      hide IsJson, Describes, Cut;
      if a.bytes == 0 {
        NothingDescribed(json, front, a, DecodedLines(json, lines));
      } else if All(json, a) {
        LineDescribed(json, front, a, lines);
      } else {
        PieceDescribed(json, front, a, DecodedLines(json, lines));
      }
    }
  }

  lemma AttemptOpens<T>(json: Codec<T>, front: seq<Attempt<T>>, a: Attempt<T>)
    ensures Open(json, front + [a]) ==
            if a.bytes == 0 then Open(json, front)
            else if All(json, a) then [] else Open(json, front) + [Written(json, a)]
    ensures Stored(json, front + [a]) ==
            Stored(json, front) + if All(json, a) || AllButNewline(json, a) then [a.record] else []
  {
    assert (front + [a])[..|front|] == front;
  }

  lemma NothingDescribed<T(!new)>(json: Codec<T>, front: seq<Attempt<T>>, a: Attempt<T>, lines: Option<seq<T>>)
    requires Describes(json, front, lines, Open(json, front)) && a.bytes == 0
    ensures Describes(json, front + [a], lines, Open(json, front + [a]))
  {
    UndamagedOneMore(json, front, a);
    AttemptOpens(json, front, a);
    hide Undamaged, Unended, IsWhole, EndsWith, Open, Stored;
    assert Stored(json, front) + [] == Stored(json, front);
  }

  /** A piece that joins an open one, or is cut inside its record, is no whole record. */
  lemma PieceDescribed<T(!new)>(json: Codec<T>, front: seq<Attempt<T>>, a: Attempt<T>, lines: Option<seq<T>>)
    requires IsJson(json) && |json.encode(a.record)| <= MAX_RECORD_BYTES && a.bytes > 0 && !All(json, a)
    requires Describes(json, front, lines, Open(json, front))
    ensures Describes(json, front + [a], lines, Open(json, front + [a]))
  {
    UndamagedOneMore(json, front, a);
    AttemptOpens(json, front, a);
    PieceIsBeginning(json, a);
    hide IsJson, Undamaged, Unended, Open, Stored, Beginning, Written;
    var open, piece := Open(json, front), Written(json, a);
    if open != [] {
      assert |open + [piece]| > 1;
    } else if AllButNewline(json, a) {
      assert open + [piece] == [json.encode(a.record)];
      if Undamaged(json, front + [a]) {
        assert EndsWith(json, Stored(json, front + [a]), lines.value, open + [piece]) by {
          OpenEnds(json, Stored(json, front), a.record);
        }
      }
    } else {
      assert open + [piece] == [piece];
    }
  }

  lemma OpenEnds<T(!new)>(json: Codec<T>, stored: seq<T>, x: T)
    requires |json.encode(x)| <= MAX_RECORD_BYTES
    ensures EndsWith(json, stored + [x], stored, [json.encode(x)])
  {
  }

  /** A line that is finished is read unless it joins an open one, or is too long. */
  lemma LineDescribed<T(!new)>(json: Codec<T>, front: seq<Attempt<T>>, a: Attempt<T>, lines: seq<string>)
    requires IsJson(json) && All(json, a) && Beginnings(json, Open(json, front))
    requires Describes(json, front, DecodedLines(json, lines), Open(json, front))
    ensures Describes(json, front + [a],
                      DecodedLines(json, lines + [Concat(Open(json, front)) + json.encode(a.record)]), [])
  {
    hide IsJson, Undamaged, Unended, Open, Stored, DecodedLines, AddLine, Beginnings, Concat;
    var e, open := json.encode(a.record), Open(json, front);
    UndamagedOneMore(json, front, a);
    AttemptOpens(json, front, a);
    PieceIsBeginning(json, a);
    BeginningsOneMore(json, open, e);
    ConcatOneMore(open, e);
    DecodedOneMore(json, lines, Concat(open + [e]));
    if DecodedLines(json, lines).Some? {
      LineOfPieces(json, DecodedLines(json, lines).value, open + [e], |Concat(open + [e])| + 1);
      if open == [] {
        ConcatOne(e);
        assert open + [e] == [e];
      } else {
        assert |open + [e]| > 1;
      }
    }
  }

  lemma BeginningsOneMore<T(!new)>(json: Codec<T>, pieces: seq<string>, piece: string)
    requires Beginnings(json, pieces) && Beginning(json, piece)
    ensures Beginnings(json, pieces + [piece])
  {
  }

  /** Whatever was cut in writing, a file can be read if and only if it is undamaged, and then what is read is
      every record of which everything was written, in order. */
  lemma DecodedIff<T(!new)>(json: Codec<T>, attempts: seq<Attempt<T>>)
    requires IsJson(json) && Possible(json, attempts)
    ensures Decoded(json, Content(json, attempts)) ==
            if Undamaged(json, attempts) then Some(Stored(json, attempts)) else None
  {
    var lines, open := DecodedLines(json, Cut(Content(json, attempts)).complete), Open(json, attempts);
    LinesAreStored(json, attempts);
    RestIsOpen(json, attempts);
    if lines.Some? {
      if open == [] {
        EmptyLine(json, lines.value);
      } else {
        LineOfPieces(json, lines.value, open, |Concat(open)|);
      }
    }
    hide IsJson, Undamaged, Unended, Open, Stored, DecodedLines, AddLine, Cut, Content, Beginnings;
    if Undamaged(json, attempts) && Unended(json, attempts) {
      var x :| Stored(json, attempts) == lines.value + [x] && open == [json.encode(x)]
            && |json.encode(x)| <= MAX_RECORD_BYTES;
      ConcatOne(json.encode(x));
    }
  }

  lemma ConcatOne(piece: string)
    ensures Concat([piece]) == piece
  {
    assert Concat([piece][..0]) == "";
  }

  lemma {:induction false} WrittenIsStored<T(!new)>(json: Codec<T>, attempts: seq<Attempt<T>>, i: nat)
    requires i < |attempts| && All(json, attempts[i])
    ensures attempts[i].record in Stored(json, attempts)
  {
    if i < |attempts| - 1 {
      WrittenIsStored(json, attempts[..|attempts| - 1], i);
    }
  }

  /** A record whose appending reported success is found again if and only if no other attempt, before or
      after, has damaged the file, and no record that ends in it is as long as the limit. */
  lemma AcknowledgedIsFoundIff<T(!new)>(json: Codec<T>, attempts: seq<Attempt<T>>, i: nat)
    requires IsJson(json) && Possible(json, attempts) && i < |attempts| && All(json, attempts[i])
    ensures var read := Decoded(json, Content(json, attempts));
      (read.Some? && attempts[i].record in read.value) <==> Undamaged(json, attempts)
  {
    DecodedIff(json, attempts);
    WrittenIsStored(json, attempts, i);
    hide IsJson, Undamaged, Decoded;
  }

  /** What cannot be read is never read again, whatever is appended. */
  lemma DamageStays<T(!new)>(json: Codec<T>, attempts: seq<Attempt<T>>, more: seq<Attempt<T>>)
    requires IsJson(json) && Possible(json, attempts + more) && !Undamaged(json, attempts)
    ensures Decoded(json, Content(json, attempts + more)) == None
  {
    var all := attempts + more;
    assert forall i :: 0 <= i < |attempts| ==> all[i] == attempts[i];
    hide IsJson, Part, All, AllButNewline;
    DecodedIff(json, all);
  }

  /** A record that is just as long as appending allows is appended, and makes its file unreadable: the limit
      on reading counts the newline. */
  lemma LongestRecordDamages<T(!new)>(json: Codec<T>, attempts: seq<Attempt<T>>, x: T)
    requires IsJson(json) && Possible(json, attempts) && |json.encode(x)| == 0x10_0000
    ensures Possible(json, attempts + [Attempt(x, 0x10_0000 + 1)])
    ensures Decoded(json, Content(json, attempts + [Attempt(x, 0x10_0000 + 1)])) == None
  {
    UndamagedOneMore(json, attempts, Attempt(x, MAX_RECORD_BYTES + 1));
    DecodedIff(json, attempts + [Attempt(x, MAX_RECORD_BYTES + 1)]);
  }

  // ----- rewriting -----

  function Whole<T>(json: Codec<T>, records: seq<T>): seq<Attempt<T>> {
    seq(|records|, i requires 0 <= i < |records| => Attempt(records[i], |json.encode(records[i])| + 1))
  }

  function AllLines<T>(json: Codec<T>, records: seq<T>): string {
    if records == [] then "" else AllLines(json, records[..|records| - 1]) + Line(json, records[|records| - 1])
  }

  lemma {:induction false} LinesAreAttempts<T>(json: Codec<T>, records: seq<T>)
    ensures Content(json, Whole(json, records)) == AllLines(json, records)
  {
    if records != [] {
      var n := |records| - 1;
      LinesAreAttempts(json, records[..n]);
      assert Whole(json, records)[..n] == Whole(json, records[..n]);
    }
  }

  /** Rewrites a file. Of a write that is cut nothing is noticed: what was written by then replaces the file. */
  method RewriteLines<T>(json: Codec<T>, records: seq<T>, reliable: bool)
    returns (content: string, ok: bool, ghost n: nat)
    ensures reliable ==> ok == (forall x :: x in records ==> |json.encode(x)| <= 0x10_0000)
    ensures reliable && ok ==> content == AllLines(json, records)
    ensures ok ==> n <= |AllLines(json, records)| && content == AllLines(json, records)[..n]
    ensures ok ==> forall x :: x in records ==> |json.encode(x)| <= MAX_RECORD_BYTES
  {
    var data := "";
    n := 0;
    for i := 0 to |records|
      invariant data == AllLines(json, records[..i])
      invariant forall x :: x in records[..i] ==> |json.encode(x)| <= MAX_RECORD_BYTES
    {
      var line := json.encode(records[i]);
      if |line| > MAX_RECORD_BYTES {
        return "", false, n;
      }
      data := data + (line + "\n");
      assert records[..i + 1][..i] == records[..i];
      assert records[..i + 1] == records[..i] + [records[i]];
    }
    assert records[..|records|] == records;
    var written := WrittenBytes(|data|, reliable);
    var failed := Fails(reliable);
    content, ok, n := data[..written], !failed, written;
  }

  /** Where a rewriting is cut. */
  lemma {:induction false} CutIsInLine<T>(json: Codec<T>, records: seq<T>, n: nat) returns (k: nat, m: nat)
    requires n < |AllLines(json, records)|
    ensures k < |records| && m <= |json.encode(records[k])|
    ensures AllLines(json, records)[..n] == AllLines(json, records[..k]) + json.encode(records[k])[..m]
  {
    var front, last := records[..|records| - 1], records[|records| - 1];
    var before := AllLines(json, front);
    if n < |before| {
      k, m := CutIsInLine(json, front, n);
      assert front[..k] == records[..k];
      assert AllLines(json, records)[..n] == before[..n];
    } else {
      k, m := |records| - 1, n - |before|;
      assert (before + Line(json, last))[..n] == before + Line(json, last)[..m];
      assert Line(json, last)[..m] == json.encode(last)[..m];
    }
  }

  lemma {:induction false} WholeIsStored<T>(json: Codec<T>, records: seq<T>)
    ensures Stored(json, Whole(json, records)) == records
  {
    if records != [] {
      var n := |records| - 1;
      WholeIsStored(json, records[..n]);
      assert Whole(json, records)[..n] == Whole(json, records[..n]);
      assert records == records[..n] + [records[n]];
    }
  }

  lemma WholeIsUndamagedIff<T>(json: Codec<T>, records: seq<T>)
    ensures Undamaged(json, Whole(json, records)) <==> forall x :: x in records ==> |json.encode(x)| < MAX_RECORD_BYTES
    ensures !Unended(json, Whole(json, records))
  {
    var whole := Whole(json, records);
    assert forall i :: 0 <= i < |whole| ==> whole[i].record == records[i] && All(json, whole[i]);
  }

  lemma PartAfterWhole<T(!new)>(json: Codec<T>, front: seq<T>, x: T, m: nat)
    requires json.encode(x) != "" && m <= |json.encode(x)|
    ensures var attempts := Whole(json, front) + [Attempt(x, m)];
      && Content(json, attempts) == AllLines(json, front) + json.encode(x)[..m]
      && Stored(json, attempts) == front + (if m == |json.encode(x)| then [x] else [])
      && (Undamaged(json, attempts) <==>
            m in {0, |json.encode(x)|} && forall y :: y in front ==> |json.encode(y)| < MAX_RECORD_BYTES)
  {
    var whole, last := Whole(json, front), Attempt(x, m);
    LinesAreAttempts(json, front);
    WholeIsStored(json, front);
    WholeIsUndamagedIff(json, front);
    UndamagedOneMore(json, whole, last);
    AttemptOpens(json, whole, last);
    assert (whole + [last])[..|whole|] == whole;
    hide Undamaged, Unended, Stored, AllLines, Whole;
  }

  lemma WholeThenPart<T(!new)>(json: Codec<T>, front: seq<T>, x: T, m: nat)
    requires IsJson(json) && m <= |json.encode(x)|
    requires forall y :: y in front + [x] ==> |json.encode(y)| <= MAX_RECORD_BYTES
    ensures Decoded(json, AllLines(json, front) + json.encode(x)[..m]) ==
            if m in {0, |json.encode(x)|} && forall y :: y in front ==> |json.encode(y)| < MAX_RECORD_BYTES
            then Some(if m == 0 then front else front + [x]) else None
  {
    var attempts := Whole(json, front) + [Attempt(x, m)];
    assert json.encode(x) != "";
    hide IsJson, Undamaged, Stored, Decoded, AllLines, Content;
    PartAfterWhole(json, front, x, m);
    assert Possible(json, attempts);
    DecodedIff(json, attempts);
    assert front + [] == front;
  }

  /** A rewriting that was cut can be read if and only if it was cut between two records, or just before a
      newline, and no record of a finished line is as long as the limit; then the first records are read. */
  lemma CutRewriteIsReadIff<T(!new)>(json: Codec<T>, records: seq<T>, n: nat) returns (k: nat, m: nat)
    requires IsJson(json) && n < |AllLines(json, records)|
    requires forall x :: x in records ==> |json.encode(x)| <= 0x10_0000
    ensures k < |records| && m <= |json.encode(records[k])|
    ensures AllLines(json, records)[..n] == AllLines(json, records[..k]) + json.encode(records[k])[..m]
    ensures Decoded(json, AllLines(json, records)[..n]) ==
            if m in {0, |json.encode(records[k])|}
               && forall x :: x in records[..k] ==> |json.encode(x)| < 0x10_0000
            then Some(if m == 0 then records[..k] else records[..k + 1]) else None
  {
    hide IsJson, Decoded, AllLines;
    k, m := CutIsInLine(json, records, n);
    WholeThenPart(json, records[..k], records[k], m);
    assert records[..k + 1] == records[..k] + [records[k]];
  }

  // ----- records of a simple kind -----

  /** A number, written as so many letters between braces. */
  datatype Tally = Tally(n: nat)

  function Braced(n: nat): string {
    "{" + seq(n, _ => 'x') + "}"
  }

  function Tallied(s: string): Option<Tally> {
    if |s| >= 2 && s == Braced(|s| - 2) then Some(Tally(|s| - 2)) else None
  }

  const BRACED := Codec((t: Tally) => Braced(t.n), Tallied)

  lemma {:induction false} EveryPieceBegins(pieces: seq<string>, i: nat)
    requires Beginnings(BRACED, pieces) && i < |pieces|
    ensures exists j :: 0 <= j < |Concat(pieces)| && Concat(pieces)[j] == '{' && (i > 0 ==> j > 0)
  {
    var front, last := pieces[..|pieces| - 1], pieces[|pieces| - 1];
    assert Beginning(BRACED, last) && last[0] == '{';
    if i < |front| {
      EveryPieceBegins(front, i);
      var j :| 0 <= j < |Concat(front)| && Concat(front)[j] == '{' && (i > 0 ==> j > 0);
      assert Concat(pieces)[j] == '{';
    } else {
      assert Concat(pieces)[|Concat(front)|] == '{';
      if i > 0 {
        EveryPieceBegins(front, 0);
      }
    }
  }

  lemma BracedMeans(t: Tally)
    ensures BRACED.decode(BRACED.encode(t)) == Some(t)
    ensures '\n' !in BRACED.encode(t) && BRACED.encode(t) != "" && !IsSpace(BRACED.encode(t)[0])
  {
  }

  lemma BracedDiffer(t: Tally, u: Tally)
    requires BRACED.encode(t) <= BRACED.encode(u)
    ensures t == u
  {
    assert Braced(u.n)[t.n + 1] == Braced(t.n)[t.n + 1] == '}';
  }

  lemma BracedPieces(pieces: seq<string>)
    requires pieces != [] && Beginnings(BRACED, pieces) && BRACED.decode(Concat(pieces)).Some?
    ensures pieces == [BRACED.encode(BRACED.decode(Concat(pieces)).value)]
  {
    if |pieces| > 1 {
      EveryPieceBegins(pieces, 1);
    }
    assert pieces == [pieces[0]];
    ConcatOne(pieces[0]);
  }

  /** What is needed of JSON can be had. */
  lemma BracedIsJson()
    ensures IsJson(BRACED)
  {
    hide Concat, Beginnings, Braced, Tallied, IsSpace;
    forall t { BracedMeans(t); }
    forall t, u | BRACED.encode(t) <= BRACED.encode(u) { BracedDiffer(t, u); }
    forall pieces | pieces != [] && Beginnings(BRACED, pieces) && BRACED.decode(Concat(pieces)).Some? {
      BracedPieces(pieces);
    }
  }
}
