/**
 * The client side of the streamed answer (`askGeminiStream`): one POST to the
 * ask relay, then a read loop that keeps a carry-over buffer, splits it on
 * "\n", hands every complete `data:` line to the callback as one delta and
 * flushes the last fragment once the body ends.
 *
 * The model works on already-decoded characters: the body is the list of
 * decoded text chunks in the order the reads returned them.
 */
module StreamDecoder {
  import opened Wrappers
  import opened Text

  /** The only endpoint the function ever posts to. */
  const AskEndpoint: string := "/api/ai/ask"

  /** The marker that makes a line carry content. */
  const DataPrefix: string := "data:"

  /** The message thrown when the response is not usable. */
  const AskFailed: string := "Error al consultar la IA"

  /** The request the function sends: JSON `{ prompt, chat_id }`. */
  datatype AskRequest = AskRequest(endpoint: string, prompt: string, chatId: Option<string>)

  /**
   * The response as the function sees it: whether `response.ok` holds, and
   * the body as decoded chunks, or `None` when there is no readable body.
   */
  datatype StreamResponse = StreamResponse(ok: bool, body: Option<seq<string>>)

  /** `s.split("\n")`: the pieces between newlines; never an empty list. */
  function Split(s: string): (r: seq<string>)
    ensures |r| >= 1
  {
    SplitFrom("", s)
  }

  /** Splits `s` when the piece being read already holds `cur`. */
  function SplitFrom(cur: string, s: string): (r: seq<string>)
    ensures |r| >= 1
    decreases |s|
  {
    if s == [] then [cur]
    else if s[0] == '\n' then [cur] + SplitFrom("", s[1..])
    else SplitFrom(cur + [s[0]], s[1..])
  }

  /** `lines.join("\n")`. */
  function Join(lines: seq<string>): string
    requires |lines| >= 1
  {
    if |lines| == 1 then lines[0] else lines[0] + "\n" + Join(lines[1..])
  }

  /** All pieces but the last: the complete lines of a buffer. */
  function Init(lines: seq<string>): seq<string>
    requires |lines| >= 1
  {
    lines[..|lines| - 1]
  }

  /** The last piece: the carry-over fragment of a buffer. */
  function Last(lines: seq<string>): string
    requires |lines| >= 1
  {
    lines[|lines| - 1]
  }

  /**
   * Splitting a concatenation: the complete lines of `x`, then the split of
   * `y` continuing the last, still open, piece of `x`.
   */
  lemma {:induction false} SplitFromAppend(cur: string, x: string, y: string)
    ensures var sx := SplitFrom(cur, x);
      SplitFrom(cur, x + y) == Init(sx) + SplitFrom(Last(sx), y)
    decreases |x|
  {
    if x == [] {
      assert x + y == y;
    } else {
      assert (x + y)[0] == x[0] && (x + y)[1..] == x[1..] + y;
      if x[0] == '\n' {
        SplitFromAppend("", x[1..], y);
        var sx' := SplitFrom("", x[1..]);
        assert Init([cur] + sx') == [cur] + Init(sx');
      } else {
        SplitFromAppend(cur + [x[0]], x[1..], y);
      }
    }
  }

  /** Text without newlines only extends the open piece. */
  lemma {:induction false} SplitFromSingle(cur: string, s: string)
    requires '\n' !in s
    ensures SplitFrom(cur, s) == [cur + s]
    decreases |s|
  {
    if s != [] {
      assert s[0] in s && forall c | c in s[1..] :: c in s;
      SplitFromSingle(cur + [s[0]], s[1..]);
      assert cur + [s[0]] + s[1..] == cur + s;
    } else {
      assert cur + s == cur;
    }
  }

  /** No piece holds a newline. */
  lemma {:induction false} SplitFromPieces(cur: string, s: string)
    requires '\n' !in cur
    ensures forall i | 0 <= i < |SplitFrom(cur, s)| :: '\n' !in SplitFrom(cur, s)[i]
    decreases |s|
  {
    if s != [] {
      if s[0] == '\n' {
        SplitFromPieces("", s[1..]);
      } else {
        assert forall c | c in cur + [s[0]] :: c in cur || c == s[0];
        SplitFromPieces(cur + [s[0]], s[1..]);
      }
    }
  }

  /** No piece of `s.split("\n")` holds a newline. */
  lemma SplitPieces(s: string)
    ensures forall i | 0 <= i < |Split(s)| :: '\n' !in Split(s)[i]
  {
    SplitFromPieces("", s);
  }

  /** Joining the pieces back with newlines gives the text that was split. */
  lemma {:induction false} JoinSplitFrom(cur: string, s: string)
    ensures Join(SplitFrom(cur, s)) == cur + s
    decreases |s|
  {
    if s == [] {
      assert cur + s == cur;
    } else if s[0] == '\n' {
      JoinSplitFrom("", s[1..]);
      var r := SplitFrom("", s[1..]);
      assert ([cur] + r)[1..] == r;
      assert cur + s == cur + "\n" + s[1..];
    } else {
      JoinSplitFrom(cur + [s[0]], s[1..]);
      assert cur + [s[0]] + s[1..] == cur + s;
    }
  }

  /** `text.split("\n").join("\n")` is `text`. */
  lemma JoinSplit(s: string)
    ensures Join(Split(s)) == s
  {
    JoinSplitFrom("", s);
  }

  /** Splitting what was joined gives back the lines, when none holds a newline. */
  lemma {:induction false} SplitJoin(lines: seq<string>)
    requires |lines| >= 1
    requires forall i | 0 <= i < |lines| :: '\n' !in lines[i]
    ensures Split(Join(lines)) == lines
    decreases |lines|
  {
    SplitFromSingle("", lines[0]);
    assert "" + lines[0] == lines[0];
    if |lines| > 1 {
      var rest := lines[1..];
      SplitJoin(rest);
      var j := Join(rest);
      assert Join(lines) == lines[0] + ("\n" + j);
      SplitFromAppend("", lines[0], "\n" + j);
      assert ("\n" + j)[0] == '\n' && ("\n" + j)[1..] == j;
      assert lines == [lines[0]] + rest;
    }
  }

  /**
   * Appending a chunk to a text: the complete lines of the text stay as they
   * were, and the carry-over fragment plus the chunk is split on its own.
   */
  lemma SplitCarry(t: string, c: string)
    ensures Split(t + c) == Init(Split(t)) + Split(Last(Split(t)) + c)
  {
    var st := Split(t);
    SplitFromAppend("", t, c);
    SplitPieces(t);
    assert '\n' !in Last(st);
    SplitFromAppend("", Last(st), c);
    SplitFromSingle("", Last(st));
    assert "" + Last(st) == Last(st);
  }

  /** The delta one line yields: none unless it starts with `data:`, and never an empty one. */
  function LineDelta(line: string): (r: seq<string>)
    ensures |r| <= 1 && (|r| == 1 <==> StartsWith(line, DataPrefix))
    ensures forall i | 0 <= i < |r| :: r[i] != ""
  {
    if StartsWith(line, DataPrefix) then
      var content := line[|DataPrefix|..];
      [if content == "" then "\n" else content]
    else []
  }

  /** The deltas of a list of lines, in line order. */
  function LinesDeltas(lines: seq<string>): (r: seq<string>)
    ensures forall i | 0 <= i < |r| :: r[i] != ""
  {
    if lines == [] then [] else LinesDeltas(lines[..|lines| - 1]) + LineDelta(lines[|lines| - 1])
  }

  /** The deltas of two runs of lines are those of the first run, then those of the second. */
  lemma {:induction false} LinesDeltasAppend(a: seq<string>, b: seq<string>)
    ensures LinesDeltas(a + b) == LinesDeltas(a) + LinesDeltas(b)
    decreases |b|
  {
    if b == [] {
      assert a + b == a;
    } else {
      var b' := b[..|b| - 1];
      assert (a + b)[..|a + b| - 1] == a + b';
      LinesDeltasAppend(a, b');
    }
  }

  /** The lines of a list that carry content, in order. */
  function DataLines(lines: seq<string>): seq<string>
  {
    if lines == [] then []
    else
      var last := lines[|lines| - 1];
      DataLines(lines[..|lines| - 1]) + (if StartsWith(last, DataPrefix) then [last] else [])
  }

  /** What a `data:` line carries: the rest of the line, or a newline when the rest is empty. */
  function Payload(line: string): string
  {
    if |line| <= |DataPrefix| then "\n" else line[|DataPrefix|..]
  }

  /** One delta per `data:` line, in line order, equal to that line's payload. */
  lemma {:induction false} LinesDeltasArePayloads(lines: seq<string>)
    ensures var d, p := LinesDeltas(lines), DataLines(lines);
      |d| == |p| && forall i | 0 <= i < |d| :: d[i] == Payload(p[i])
    decreases |lines|
  {
    if lines != [] {
      LinesDeltasArePayloads(lines[..|lines| - 1]);
    }
  }

  /**
   * The deltas of a whole body: every piece of `text.split("\n")`, the
   * complete lines and the final fragment alike, under the same rule.
   */
  function Decode(text: string): (r: seq<string>)
    ensures forall i | 0 <= i < |r| :: r[i] != ""
  {
    LinesDeltas(Split(text))
  }

  /** Lines are independent: the deltas of two texts joined by a newline are the deltas of each. */
  lemma DecodeAppendLine(a: string, b: string)
    ensures Decode(a + "\n" + b) == Decode(a) + Decode(b)
  {
    var sa := Split(a);
    assert a + "\n" + b == a + ("\n" + b);
    SplitFromAppend("", a, "\n" + b);
    assert ("\n" + b)[0] == '\n' && ("\n" + b)[1..] == b;
    assert Split(a + "\n" + b) == Init(sa) + [Last(sa)] + Split(b);
    assert sa == Init(sa) + [Last(sa)];
    LinesDeltasAppend(Init(sa) + [Last(sa)], Split(b));
  }

  /** A complete line contributes its own delta, ahead of what follows it. */
  lemma DecodeLine(line: string, rest: string)
    requires '\n' !in line
    ensures Decode(line + "\n" + rest) == LineDelta(line) + Decode(rest)
  {
    DecodeAppendLine(line, rest);
    SplitFromSingle("", line);
    assert "" + line == line;
    assert LinesDeltas([line]) == LinesDeltas([]) + LineDelta(line);
  }

  /** `data:` followed by a payload yields exactly that payload, leading space and `\r` included. */
  lemma DataLineYieldsPayload(payload: string, rest: string)
    requires '\n' !in payload && payload != ""
    ensures Decode(DataPrefix + payload + "\n" + rest) == [payload] + Decode(rest)
  {
    var line := DataPrefix + payload;
    assert '\n' !in line by {
      forall k | 0 <= k < |line| ensures line[k] != '\n' {
        if k >= |DataPrefix| { assert line[k] == payload[k - |DataPrefix|]; }
      }
    }
    assert line[..|DataPrefix|] == DataPrefix && line[|DataPrefix|..] == payload;
    DecodeLine(line, rest);
  }

  /** A line that is exactly `data:` yields a single newline. */
  lemma EmptyDataLineYieldsNewline(rest: string)
    ensures Decode(DataPrefix + "\n" + rest) == ["\n"] + Decode(rest)
  {
    assert DataPrefix[..|DataPrefix|] == DataPrefix;
    DecodeLine(DataPrefix, rest);
  }

  /** A line that does not start with `data:` (blank, `event:`, ` data:`) yields nothing. */
  lemma OtherLineYieldsNothing(line: string, rest: string)
    requires '\n' !in line && !StartsWith(line, DataPrefix)
    ensures Decode(line + "\n" + rest) == Decode(rest)
  {
    DecodeLine(line, rest);
  }

  /** The final fragment is flushed anyway, so a final newline adds nothing. */
  lemma TrailingNewlineAddsNothing(text: string)
    ensures Decode(text + "\n") == Decode(text)
  {
    DecodeAppendLine(text, "");
    assert text + "\n" + "" == text + "\n";
    assert Decode("") == LinesDeltas([""]) == [];
  }

  /** The deltas are the payloads of the `data:` pieces of `text.split("\n")`, in order. */
  lemma DecodeIsPayloadsInOrder(text: string)
    ensures var d, p := Decode(text), DataLines(Split(text));
      |d| == |p| && forall i | 0 <= i < |d| :: d[i] == Payload(p[i]) && StartsWith(p[i], DataPrefix)
  {
    LinesDeltasArePayloads(Split(text));
    DataLinesStartWithPrefix(Split(text));
  }

  lemma {:induction false} DataLinesStartWithPrefix(lines: seq<string>)
    ensures forall i | 0 <= i < |DataLines(lines)| :: StartsWith(DataLines(lines)[i], DataPrefix)
    decreases |lines|
  {
    if lines != [] {
      DataLinesStartWithPrefix(lines[..|lines| - 1]);
    }
  }

  /** One read: the complete lines grow by those of the carry-over plus the chunk. */
  lemma ReadStep(t: string, c: string)
    ensures var pieces := Split(Last(Split(t)) + c);
      && Last(Split(t + c)) == Last(pieces)
      && LinesDeltas(Init(Split(t + c))) == LinesDeltas(Init(Split(t))) + LinesDeltas(Init(pieces))
  {
    var pieces := Split(Last(Split(t)) + c);
    SplitCarry(t, c);
    assert Init(Split(t + c)) == Init(Split(t)) + Init(pieces);
    LinesDeltasAppend(Init(Split(t)), Init(pieces));
  }

  /** End of stream: the deltas of the whole text are those of its complete lines, then the flush. */
  lemma FlushStep(t: string)
    ensures Decode(t) == LinesDeltas(Init(Split(t))) + LineDelta(Last(Split(t)))
  {
    var all := Split(t);
    assert all == Init(all) + [Last(all)];
    LinesDeltasAppend(Init(all), [Last(all)]);
    assert LinesDeltas([Last(all)]) == LinesDeltas([]) + LineDelta(Last(all));
  }

  /** The text read after one more chunk. */
  lemma ConcatPrefix(chunks: seq<string>, i: nat)
    requires i < |chunks|
    ensures Concat(chunks[..i + 1]) == Concat(chunks[..i]) + chunks[i]
  {
    assert chunks[..i + 1][..i] == chunks[..i];
  }

  /** The inner loop of the reader: the deltas of complete lines, in order. */
  method EmitLines(lines: seq<string>) returns (emitted: seq<string>)
    ensures emitted == LinesDeltas(lines)
  {
    emitted := [];
    for j := 0 to |lines|
      invariant emitted == LinesDeltas(lines[..j])
    {
      var line := lines[j];
      assert lines[..j + 1][..j] == lines[..j];
      if StartsWith(line, DataPrefix) {
        var content := line[|DataPrefix|..];
        if content == "" {
          emitted := emitted + ["\n"];
        } else {
          emitted := emitted + [content];
        }
      }
    }
    assert lines[..|lines|] == lines;
  }

  /**
   * `askGeminiStream`: posts the prompt, fails before any delta when the
   * response is not ok or has no body, and otherwise passes to the callback,
   * in order, the deltas of the concatenated body — however the body was cut
   * into chunks.
   */
  method AskStream(prompt: string, chatId: Option<string>, response: StreamResponse)
    returns (request: AskRequest, deltas: Result<seq<string>, string>)
    ensures request == AskRequest(AskEndpoint, prompt, chatId)
    ensures !response.ok || response.body.None? ==> deltas == Failure(AskFailed)
    ensures response.ok && response.body.Some? ==> deltas == Success(Decode(Concat(response.body.value)))
  {
    request := AskRequest(AskEndpoint, prompt, chatId);
    if !response.ok || response.body.None? {
      return request, Failure(AskFailed);
    }
    var chunks := response.body.value;
    var buffer := "";
    var emitted: seq<string> := [];
    var i := 0;
    while i < |chunks|
      invariant 0 <= i <= |chunks|
      invariant buffer == Last(Split(Concat(chunks[..i])))
      invariant emitted == LinesDeltas(Init(Split(Concat(chunks[..i]))))
    {
      ReadStep(Concat(chunks[..i]), chunks[i]);
      ConcatPrefix(chunks, i);
      buffer := buffer + chunks[i];
      var pieces := Split(buffer);
      buffer := Last(pieces);
      var produced := EmitLines(Init(pieces));
      emitted := emitted + produced;
      i := i + 1;
    }
    assert chunks[..i] == chunks;
    FlushStep(Concat(chunks));
    ghost var complete := emitted;
    if StartsWith(buffer, DataPrefix) {
      var content := buffer[|DataPrefix|..];
      emitted := emitted + [if content == "" then "\n" else content];
    }
    assert emitted == complete + LineDelta(buffer);
    deltas := Success(emitted);
  }
}
