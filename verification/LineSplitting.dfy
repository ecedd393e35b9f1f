/** The newline-terminated lines of a text or a stream. */
module LineSplitting {

  datatype Lines = Lines(complete: seq<string>, rest: string)

  /** The newline-terminated lines of a stream, and what follows the last newline. */
  function Cut(stream: string): Lines {
    if stream == "" then Lines([], "")
    else
      var n := |stream| - 1;
      var before, last := Cut(stream[..n]), stream[n];
      if last == '\n' then Lines(before.complete + [before.rest], "") else Lines(before.complete, before.rest + [last])
  }

  function Joined(lines: seq<string>): string {
    if lines == [] then "" else Joined(lines[..|lines| - 1]) + lines[|lines| - 1] + "\n"
  }

  ghost predicate NoNewline(lines: Lines) {
    (forall l :: l in lines.complete ==> '\n' !in l) && '\n' !in lines.rest
  }

  lemma {:induction false} CutByByte(stream: string, line: string)
    requires '\n' !in line
    ensures Cut(stream + line) == Lines(Cut(stream).complete, Cut(stream).rest + line)
  {
    var rest := Cut(stream).rest;
    if line == "" {
      assert stream + line == stream && rest + line == rest;
    } else {
      var n, last := |line| - 1, line[|line| - 1];
      CutByByte(stream, line[..n]);
      assert stream + line == (stream + line[..n]) + [last] by { assert line == line[..n] + [last]; }
      CutOneByte(stream + line[..n], last);
      assert rest + line == (rest + line[..n]) + [last] by { assert line == line[..n] + [last]; }
    }
  }

  lemma CutOneByte(stream: string, b: char)
    ensures var before := Cut(stream);
      Cut(stream + [b]) == if b == '\n' then Lines(before.complete + [before.rest], "")
                           else Lines(before.complete, before.rest + [b])
  {
    assert (stream + [b])[..|stream|] == stream;
  }

  /** One line, and the newline that ends it. */
  lemma CutAtNewline(stream: string, line: string)
    requires '\n' !in line
    ensures Cut(stream + line + "\n") == Lines(Cut(stream).complete + [Cut(stream).rest + line], "")
  {
    CutByByte(stream, line);
    CutOneByte(stream + line, '\n');
  }

  /** `Cut` loses nothing and cuts at every newline. */
  lemma {:induction false} CutIsFaithful(stream: string)
    ensures Joined(Cut(stream).complete) + Cut(stream).rest == stream && NoNewline(Cut(stream))
  {
    if stream != "" {
      var n := |stream| - 1;
      var before := Cut(stream[..n]);
      CutIsFaithful(stream[..n]);
      assert stream == stream[..n] + [stream[n]];
      if stream[n] == '\n' {
        assert (before.complete + [before.rest])[..|before.complete|] == before.complete;
      }
    }
  }

  /** ... and is the only way to do so. */
  lemma {:induction false} CutIsUnique(stream: string, lines: Lines)
    requires Joined(lines.complete) + lines.rest == stream && NoNewline(lines)
    ensures lines == Cut(stream)
    decreases |lines.complete|
  {
    if lines.complete == [] {
      assert "" + lines.rest == lines.rest;
      CutByByte("", lines.rest);
    } else {
      var n := |lines.complete| - 1;
      var last := lines.complete[n];
      assert last in lines.complete;
      var earlier := Joined(lines.complete[..n]);
      CutIsUnique(earlier, Lines(lines.complete[..n], ""));
      CutAtNewline(earlier, last);
      CutByByte(earlier + last + "\n", lines.rest);
      assert "" + last == last && "" + lines.rest == lines.rest;
      assert lines.complete == lines.complete[..n] + [last];
    }
  }
}
