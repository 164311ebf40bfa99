/**
 * The line protocol between the `/api/letta` route and the three components that read its
 * reply stream (the main chat, the topic chatbot and the streaming test page).
 *
 * Each frame is a line `data: <json>` followed by a blank line. A reader splits every chunk
 * it receives on '\n' (without carrying a partial line over to the next chunk), skips blank
 * lines and lines without the `data: ` prefix, parses the rest of the line as JSON and
 * looks at three properties with JavaScript truthiness: `error`, `content` and `done`.
 *
 * `JSON.parse` is not modelled: it is a parameter `parse` that returns what the reader
 * sees of the parsed value (`Payload`).
 */
module StreamProtocol {
  import opened Text

  /**
   * The reader's view of `JSON.parse(text)`:
   * `Malformed` when parsing throws or reading a property of the value throws (`null`);
   * otherwise `content` is the text appended for a truthy `content` ("" when it is falsy),
   * `done` is the truthiness of `done` and `hasError` the truthiness of `error`.
   */
  datatype Payload = Malformed | Message(content: string, done: bool, hasError: bool)

  const DataPrefix: string := "data: "

  /** A line that `trim()`s to the empty string (see `BlankIffTrimsToEmpty`). */
  predicate IsBlank(line: string) {
    AllIn(line, JsWhitespace)
  }

  /** The line filter: non-blank lines that start with `data: `. */
  predicate IsDataLine(line: string) {
    !IsBlank(line) && StartsWith(line, DataPrefix)
  }

  /** `line.trim() === ''` holds exactly for the blank lines. */
  lemma BlankIffTrimsToEmpty(line: string)
    ensures IsBlank(line) <==> JsTrim(line) == ""
  {
    JsTrimEmptyIff(line);
  }

  /** What one line does to the reader: nothing, append a delta, or append and stop. */
  datatype Step = Skip | Append(delta: string) | Finish(delta: string)

  /** The text a step appends. */
  function Delta(s: Step): string {
    match s
    case Skip => ""
    case Append(d) => d
    case Finish(d) => d
  }

  /**
   * A payload with a truthy `error` throws inside the `try` whose `catch` only logs and
   * continues, so it is skipped exactly like a line that does not parse.
   */
  function StepOf(line: string, parse: string -> Payload): (s: Step)
    ensures !IsDataLine(line) ==> s == Skip
    ensures IsDataLine(line) && parse(line[|DataPrefix|..]).Malformed? ==> s == Skip
    ensures s.Finish? ==> IsDataLine(line) && parse(line[|DataPrefix|..]).Message? &&
                          parse(line[|DataPrefix|..]).done && !parse(line[|DataPrefix|..]).hasError
    ensures IsDataLine(line) && parse(line[|DataPrefix|..]).Message? ==>
              var p := parse(line[|DataPrefix|..]);
              (p.hasError ==> s == Skip) &&
              (!p.hasError && p.done ==> s == Finish(p.content)) &&
              (!p.hasError && !p.done ==> s == Append(p.content))
  {
    if !IsDataLine(line) then Skip
    else
      match parse(line[|DataPrefix|..])
      case Malformed => Skip
      case Message(content, done, hasError) =>
        if hasError then Skip
        else if done then Finish(content)
        else Append(content)
  }

  /**
   * The result of reading lines: the accumulated text, whether a `done` payload was seen,
   * and the delta carried by that `done` payload ("" when there was none).
   */
  datatype Decoded = Decoded(content: string, done: bool, finalDelta: string)

  /** The reader's result over a sequence of lines: deltas in order up to the first `done`. */
  function Decode(lines: seq<string>, parse: string -> Payload): (d: Decoded)
    ensures !d.done ==> d.finalDelta == ""
  {
    if lines == [] then Decoded("", false, "")
    else
      match StepOf(lines[0], parse)
      case Skip => Decode(lines[1..], parse)
      case Append(delta) =>
        var rest := Decode(lines[1..], parse);
        Decoded(delta + rest.content, rest.done, rest.finalDelta)
      case Finish(delta) => Decoded(delta, true, delta)
  }

  /** The lines a reader sees: each chunk split on its own. */
  function LinesOf(chunks: seq<string>): seq<string> {
    if chunks == [] then [] else LinesOf(chunks[..|chunks| - 1]) + SplitLines(chunks[|chunks| - 1])
  }

  lemma LinesOfAppend(chunks: seq<string>, chunk: string)
    ensures LinesOf(chunks + [chunk]) == LinesOf(chunks) + SplitLines(chunk)
  {
    assert (chunks + [chunk])[..|chunks|] == chunks;
  }

  /** Reading one more chunk of a reply. */
  lemma LinesOfPrefix(chunks: seq<string>, k: nat)
    requires k < |chunks|
    ensures LinesOf(chunks[..k + 1]) == LinesOf(chunks[..k]) + SplitLines(chunks[k])
  {
    assert chunks[..k + 1] == chunks[..k] + [chunks[k]];
    LinesOfAppend(chunks[..k], chunks[k]);
  }

  /** The lines of two runs of chunks are the lines of each run. */
  lemma {:induction false} LinesOfConcat(a: seq<string>, b: seq<string>)
    ensures LinesOf(a + b) == LinesOf(a) + LinesOf(b)
    decreases |b|
  {
    if b == [] {
      assert a + b == a;
    } else {
      var n := |b| - 1;
      assert a + b == (a + b[..n]) + [b[n]];
      assert b == b[..n] + [b[n]];
      LinesOfAppend(a + b[..n], b[n]);
      LinesOfAppend(b[..n], b[n]);
      LinesOfConcat(a, b[..n]);
    }
  }

  /**
   * Reading two runs of lines one after the other: once `done` is seen the rest is ignored,
   * otherwise the contents concatenate.
   */
  lemma {:induction false} DecodeAppend(a: seq<string>, b: seq<string>, parse: string -> Payload)
    ensures Decode(a + b, parse) ==
      if Decode(a, parse).done then Decode(a, parse)
      else Decoded(Decode(a, parse).content + Decode(b, parse).content,
                   Decode(b, parse).done, Decode(b, parse).finalDelta)
  {
    if a == [] {
      assert a + b == b;
    } else {
      assert (a + b)[0] == a[0];
      assert (a + b)[1..] == a[1..] + b;
      DecodeAppend(a[1..], b, parse);
      match StepOf(a[0], parse)
      case Skip =>
      case Append(delta) =>
        var ra, rb := Decode(a[1..], parse), Decode(b, parse);
        if !ra.done {
          assert delta + (ra.content + rb.content) == (delta + ra.content) + rb.content;
        }
      case Finish(_) =>
    }
  }

  /** Reading one more line after an unfinished run. */
  lemma DecodeSnoc(a: seq<string>, line: string, parse: string -> Payload)
    requires !Decode(a, parse).done
    ensures Decode(a + [line], parse) ==
      match StepOf(line, parse)
      case Skip => Decode(a, parse)
      case Append(delta) => Decoded(Decode(a, parse).content + delta, false, "")
      case Finish(delta) => Decoded(Decode(a, parse).content + delta, true, delta)
  {
    DecodeAppend(a, [line], parse);
    assert [line][1..] == [];
    assert Decode([line][1..], parse) == Decoded("", false, "");
    assert forall s: string :: s + "" == s;
  }

  /** A line the reader skips (malformed, erroneous, blank or unprefixed) can be removed without changing the result. */
  lemma SkippedLineIrrelevant(a: seq<string>, line: string, b: seq<string>, parse: string -> Payload)
    requires StepOf(line, parse) == Skip
    ensures Decode(a + [line] + b, parse) == Decode(a + b, parse)
  {
    DecodeAppend(a, [line] + b, parse);
    DecodeAppend(a, b, parse);
    assert a + [line] + b == a + ([line] + b);
    assert ([line] + b)[1..] == b;
  }

  /** Anything after the first `done` payload is never read. */
  lemma DoneIgnoresRest(a: seq<string>, b: seq<string>, parse: string -> Payload)
    requires Decode(a, parse).done
    ensures Decode(a + b, parse) == Decode(a, parse)
  {
    DecodeAppend(a, b, parse);
  }

  /**
   * A reader that sees `done` on line `j` of chunk `k` returns what it has; its result is the
   * result of reading every chunk.
   */
  lemma DecodeStopsEarly(chunks: seq<string>, k: nat, j: nat, parse: string -> Payload)
    requires k < |chunks| && j < |SplitLines(chunks[k])|
    requires Decode(LinesOf(chunks[..k]) + SplitLines(chunks[k])[..j + 1], parse).done
    ensures Decode(LinesOf(chunks), parse) == Decode(LinesOf(chunks[..k]) + SplitLines(chunks[k])[..j + 1], parse)
  {
    var lines := SplitLines(chunks[k]);
    var init, last, rest := chunks[..k], chunks[k], chunks[k + 1..];
    assert chunks == (init + [last]) + rest;
    LinesOfConcat(init + [last], rest);
    LinesOfAppend(init, last);
    var head := LinesOf(init) + lines[..j + 1];
    var tail := lines[j + 1..] + LinesOf(rest);
    assert LinesOf(chunks) == LinesOf(init) + lines + LinesOf(rest);
    assert lines == lines[..j + 1] + lines[j + 1..];
    Regroup(LinesOf(init), lines[..j + 1], lines[j + 1..], LinesOf(rest));
    DoneIgnoresRest(head, tail, parse);
  }

  lemma Regroup<T>(a: seq<T>, b: seq<T>, c: seq<T>, d: seq<T>)
    ensures a + (b + c) + d == (a + b) + (c + d)
  {
  }

  /** The step of a line, case by case as the read loop tests it. */
  lemma StepOfCases(line: string, parse: string -> Payload)
    ensures !IsDataLine(line) ==> StepOf(line, parse) == Skip
    ensures IsDataLine(line) ==>
      var data := parse(line[|DataPrefix|..]);
      StepOf(line, parse) == (if data.Malformed? || data.hasError then Skip
                              else if data.done then Finish(data.content) else Append(data.content))
  {
  }

  /** Taking one more element of `b` after `a`. */
  lemma SnocSlice<T>(a: seq<T>, b: seq<T>, i: nat)
    requires i < |b|
    ensures a + b[..i + 1] == (a + b[..i]) + [b[i]]
  {
    assert b[..i + 1] == b[..i] + [b[i]];
  }

  lemma EndSlices<T>(a: seq<T>, b: seq<T>)
    ensures a + b[..0] == a && a + b[..|b|] == a + b
  {
    assert b[..0] == [] && b[..|b|] == b;
  }
}
