/**
 * The summarisation client of pkg/ai/huggingface.go: the line splitter, the
 * paragraph splitter, the greedy paragraph packer that cuts long texts into
 * chunks, the prompt builder, and the driver that summarises either the
 * whole text or each chunk in turn.
 *
 * The remote model is a parameter `endpoint`, a function from the request
 * `summarizeChunk` sends to the summary it gets back or an error message.
 * Go's `len` is `ByteLen`, so the 20, 200 and 3000 byte thresholds are exact.
 */
module Summarizer {
  import opened Wrappers
  import opened Strings

  // ---------------------------------------------------------------------
  // splitLines
  // ---------------------------------------------------------------------

  /** The lines finished so far and the line being read. */
  datatype LineSplit = LineSplit(lines: seq<string>, current: string)

  /** The state of `splitLines` after reading `text`. */
  function SplitState(text: string): LineSplit
    decreases |text|
  {
    if text == [] then LineSplit([], [])
    else
      var st := SplitState(text[..|text| - 1]);
      var c := text[|text| - 1];
      if c == '\n' then LineSplit(st.lines + [st.current], [])
      else LineSplit(st.lines, st.current + [c])
  }

  /** `splitLines`: the pieces between newlines; an unterminated last piece counts only if non-empty. */
  function Lines(text: string): seq<string> {
    var st := SplitState(text);
    if st.current != [] then st.lines + [st.current] else st.lines
  }

  method SplitLines(text: string) returns (lines: seq<string>)
    ensures lines == Lines(text)
  {
    lines := [];
    var current := "";
    for i := 0 to |text|
      invariant SplitState(text[..i]) == LineSplit(lines, current)
    {
      assert text[..i + 1][..i] == text[..i];
      if text[i] == '\n' {
        lines := lines + [current];
        current := "";
      } else {
        current := current + [text[i]];
      }
    }
    assert text[..|text|] == text;
    if |current| > 0 {
      lines := lines + [current];
    }
  }

  /** `text` ends with a newline. */
  predicate EndsWithNewline(text: string) {
    text != [] && text[|text| - 1] == '\n'
  }

  lemma {:induction false} SplitStateLaws(text: string)
    ensures var st := SplitState(text);
      Join(st.lines + [st.current], "\n") == text
      && (st.current == [] <==> text == [] || EndsWithNewline(text))
      && (EndsWithNewline(text) ==> st.lines != [])
      && '\n' !in st.current
      && forall k :: 0 <= k < |st.lines| ==> '\n' !in st.lines[k]
    decreases |text|
  {
    if text != [] {
      var pre := text[..|text| - 1];
      var c := text[|text| - 1];
      var st := SplitState(pre);
      SplitStateLaws(pre);
      assert text == pre + [c];
      if c == '\n' {
        JoinAppend(st.lines + [st.current], [], "\n");
      } else {
        if st.lines == [] {
          assert st.current == pre;
        } else {
          JoinAppend(st.lines, st.current, "\n");
          JoinAppend(st.lines, st.current + [c], "\n");
        }
      }
    }
  }

  /**
   * Splitting at newlines loses nothing: joining the lines with "\n" gives
   * the text back, short of its final newline, and no line holds a newline.
   */
  lemma LinesLaws(text: string)
    ensures Join(Lines(text), "\n") + (if EndsWithNewline(text) then "\n" else "") == text
    ensures forall k :: 0 <= k < |Lines(text)| ==> '\n' !in Lines(text)[k]
  {
    var st := SplitState(text);
    SplitStateLaws(text);
    if st.current == [] && st.lines != [] {
      JoinAppend(st.lines, [], "\n");
    }
  }

  // ---------------------------------------------------------------------
  // splitByParagraphs
  // ---------------------------------------------------------------------

  /** Only an empty line or a line that is exactly "---" ends a paragraph. */
  predicate IsBreak(line: string) {
    line == "" || line == "---"
  }

  /** The paragraphs finished so far and the paragraph being built. */
  datatype ParaSplit = ParaSplit(paras: seq<string>, current: string)

  /** The state of `splitByParagraphs` after reading `lines`. */
  function ParaState(lines: seq<string>): ParaSplit
    decreases |lines|
  {
    if lines == [] then ParaSplit([], "")
    else
      var st := ParaState(lines[..|lines| - 1]);
      var line := lines[|lines| - 1];
      if IsBreak(line) then
        if st.current != [] then ParaSplit(st.paras + [st.current], "") else st
      else
        ParaSplit(st.paras, if st.current != [] then st.current + " " + line else line)
  }

  function ParagraphsOf(lines: seq<string>): seq<string> {
    var st := ParaState(lines);
    if st.current != [] then st.paras + [st.current] else st.paras
  }

  /** `splitByParagraphs`. */
  function Paragraphs(text: string): seq<string> {
    ParagraphsOf(Lines(text))
  }

  method SplitByParagraphs(text: string) returns (paragraphs: seq<string>)
    ensures paragraphs == Paragraphs(text)
  {
    var lines := SplitLines(text);
    paragraphs := [];
    var current := "";
    for i := 0 to |lines|
      invariant ParaState(lines[..i]) == ParaSplit(paragraphs, current)
    {
      assert lines[..i + 1][..i] == lines[..i];
      var line := lines[i];
      if line == "" || line == "---" {
        if |current| > 0 {
          paragraphs := paragraphs + [current];
          current := "";
        }
      } else {
        if |current| > 0 {
          current := current + " ";
        }
        current := current + line;
      }
    }
    assert lines[..|lines|] == lines;
    if |current| > 0 {
      paragraphs := paragraphs + [current];
    }
  }

  /** Joining non-empty strings gives a non-empty string. */
  lemma JoinNonEmpty(parts: seq<string>, sep: string)
    requires parts != [] && parts[|parts| - 1] != []
    ensures Join(parts, sep) != []
  {
  }

  lemma {:induction false} ParaStateShape(lines: seq<string>)
    requires forall k :: 0 <= k < |lines| ==> '\n' !in lines[k]
    ensures var st := ParaState(lines);
      '\n' !in st.current
      && forall k :: 0 <= k < |st.paras| ==> st.paras[k] != [] && '\n' !in st.paras[k]
    decreases |lines|
  {
    if lines != [] {
      ParaStateShape(lines[..|lines| - 1]);
    }
  }

  /** Every paragraph is non-empty and holds no newline. */
  lemma ParagraphsShape(text: string)
    ensures forall k :: 0 <= k < |Paragraphs(text)| ==> Paragraphs(text)[k] != [] && '\n' !in Paragraphs(text)[k]
  {
    LinesLaws(text);
    ParaStateShape(Lines(text));
  }

  /** Lines without a break between them form one paragraph, joined by single spaces in order. */
  lemma {:induction false} ParaStateOfContent(lines: seq<string>)
    requires forall k :: 0 <= k < |lines| ==> !IsBreak(lines[k])
    ensures ParaState(lines) == ParaSplit([], Join(lines, " "))
    decreases |lines|
  {
    if lines != [] {
      var pre := lines[..|lines| - 1];
      ParaStateOfContent(pre);
      JoinAppend(pre, lines[|lines| - 1], " ");
      assert pre + [lines[|lines| - 1]] == lines;
      if pre != [] {
        JoinNonEmpty(pre, " ");
      }
    }
  }

  lemma ParagraphOfContent(lines: seq<string>)
    requires lines != [] && forall k :: 0 <= k < |lines| ==> !IsBreak(lines[k])
    ensures ParagraphsOf(lines) == [Join(lines, " ")]
  {
    ParaStateOfContent(lines);
    JoinNonEmpty(lines, " ");
  }

  /** After a break, the splitter starts afresh: what follows is split on its own. */
  lemma {:induction false} ParaStateAfterBreak(a: seq<string>, b: string, c: seq<string>)
    requires IsBreak(b)
    ensures ParaState(a + [b] + c) == ParaSplit(ParagraphsOf(a) + ParaState(c).paras, ParaState(c).current)
    decreases |c|
  {
    if c == [] {
      assert a + [b] + c == a + [b];
      assert (a + [b])[..|a|] == a;
    } else {
      var c' := c[..|c| - 1];
      ParaStateAfterBreak(a, b, c');
      assert (a + [b] + c)[..|a + [b] + c| - 1] == a + [b] + c';
      assert (a + [b] + c)[|a + [b] + c| - 1] == c[|c| - 1];
    }
  }

  /** A break line splits the text into two independently split halves. */
  lemma ParagraphsSplitAtBreak(a: seq<string>, b: string, c: seq<string>)
    requires IsBreak(b)
    ensures ParagraphsOf(a + [b] + c) == ParagraphsOf(a) + ParagraphsOf(c)
  {
    ParaStateAfterBreak(a, b, c);
  }

  // ---------------------------------------------------------------------
  // chunkText
  // ---------------------------------------------------------------------

  /** Paragraphs shorter than this many bytes are skipped as page markers. */
  const MinParagraphSize := 20
  /** `minChunkSize`: no chunk is closed or kept below this many bytes. */
  const MinChunkSize := 200
  /** `maxChunkSize` of `GenerateSummary`. */
  const MaxChunkSize := 3000

  /** The paragraphs that the packer keeps, in order. */
  function Retained(paras: seq<string>): seq<string>
    decreases |paras|
  {
    if paras == [] then []
    else
      var pre := Retained(paras[..|paras| - 1]);
      var para := paras[|paras| - 1];
      if ByteLen(para) < MinParagraphSize then pre else pre + [para]
  }

  function Flatten(groups: seq<seq<string>>): seq<string>
    decreases |groups|
  {
    if groups == [] then [] else Flatten(groups[..|groups| - 1]) + groups[|groups| - 1]
  }

  /** Each group of paragraphs joined by single spaces. */
  function JoinEach(groups: seq<seq<string>>): (r: seq<string>)
    ensures |r| == |groups|
    ensures forall k :: 0 <= k < |groups| ==> r[k] == Join(groups[k], " ")
    decreases |groups|
  {
    if groups == [] then [] else JoinEach(groups[..|groups| - 1]) + [Join(groups[|groups| - 1], " ")]
  }

  /** The paragraphs of the closed chunks and of the chunk being filled. */
  datatype Packing = Packing(closed: seq<seq<string>>, open: seq<string>)

  /** The state of `chunkText`'s loop after the paragraphs `paras`. */
  function Pack(paras: seq<string>, maxSize: int): Packing
    decreases |paras|
  {
    if paras == [] then Packing([], [])
    else
      var p := Pack(paras[..|paras| - 1], maxSize);
      var para := paras[|paras| - 1];
      var current := Join(p.open, " ");
      if ByteLen(para) < MinParagraphSize then p
      else if ByteLen(current) + ByteLen(para) > maxSize && ByteLen(current) >= MinChunkSize then
        Packing(p.closed + [p.open], [para])
      else Packing(p.closed, p.open + [para])
  }

  /** The paragraphs of each chunk `chunkText` returns: the open chunk is kept only if large enough. */
  function ChunkGroups(paras: seq<string>, maxSize: int): seq<seq<string>> {
    var p := Pack(paras, maxSize);
    if ByteLen(Join(p.open, " ")) >= MinChunkSize then p.closed + [p.open] else p.closed
  }

  /** `chunkText` on the paragraphs `paras`. */
  function Chunks(paras: seq<string>, maxSize: int): seq<string> {
    JoinEach(ChunkGroups(paras, maxSize))
  }

  /** Every paragraph of `g` is at least 20 bytes long. */
  ghost predicate Substantial(g: seq<string>) {
    forall j :: 0 <= j < |g| ==> ByteLen(g[j]) >= MinParagraphSize
  }

  /** A group the packer may emit: non-empty, at least 200 bytes once joined, no short paragraph. */
  ghost predicate FullGroup(g: seq<string>) {
    g != [] && ByteLen(Join(g, " ")) >= MinChunkSize && Substantial(g)
  }

  /** Adding the first paragraph of `next` to `g` would have pushed it past `maxSize`. */
  ghost predicate Overflows(g: seq<string>, next: seq<string>, maxSize: int) {
    next != [] && ByteLen(Join(g, " ")) + ByteLen(next[0]) > maxSize
  }

  /**
   * Consecutive full groups of whole paragraphs, each closed only because
   * the first paragraph of the next would not have fitted.
   */
  ghost predicate Grouped(groups: seq<seq<string>>, maxSize: int) {
    (forall k :: 0 <= k < |groups| ==> FullGroup(groups[k]))
    && (forall k :: 0 <= k < |groups| - 1 ==> Overflows(groups[k], groups[k + 1], maxSize))
  }

  lemma GroupedAppend(groups: seq<seq<string>>, g: seq<string>, maxSize: int)
    requires Grouped(groups, maxSize) && FullGroup(g)
    requires groups != [] ==> Overflows(groups[|groups| - 1], g, maxSize)
    ensures Grouped(groups + [g], maxSize)
  {
    var gs := groups + [g];
    forall k | 0 <= k < |gs| - 1 ensures Overflows(gs[k], gs[k + 1], maxSize) {
      if k + 1 < |groups| {
        assert gs[k] == groups[k] && gs[k + 1] == groups[k + 1];
      }
    }
  }

  /** The chunk being filled holds only paragraphs of at least 20 bytes. */
  lemma {:induction false} PackOpen(paras: seq<string>, maxSize: int)
    ensures Substantial(Pack(paras, maxSize).open)
    decreases |paras|
  {
    if paras != [] {
      PackOpen(paras[..|paras| - 1], maxSize);
    }
  }

  /** The packer keeps every paragraph of at least 20 bytes, in order. */
  lemma {:induction false} PackCovers(paras: seq<string>, maxSize: int)
    ensures var p := Pack(paras, maxSize);
      Flatten(p.closed) + p.open == Retained(paras)
    decreases |paras|
  {
    if paras != [] {
      var pre := paras[..|paras| - 1];
      var para := paras[|paras| - 1];
      PackCovers(pre, maxSize);
      var p := Pack(pre, maxSize);
      var current := Join(p.open, " ");
      if ByteLen(para) >= MinParagraphSize {
        assert Retained(paras) == Retained(pre) + [para];
        if ByteLen(current) + ByteLen(para) > maxSize && ByteLen(current) >= MinChunkSize {
          var closed := p.closed + [p.open];
          assert Pack(paras, maxSize) == Packing(closed, [para]);
          assert closed[..|closed| - 1] == p.closed;
          assert Flatten(closed) == Flatten(p.closed) + p.open;
        } else {
          assert Pack(paras, maxSize) == Packing(p.closed, p.open + [para]);
        }
      }
    }
  }

  /** The closed chunks are full groups, each closed because the next paragraph did not fit. */
  lemma {:induction false} PackGroups(paras: seq<string>, maxSize: int)
    ensures var p := Pack(paras, maxSize);
      Grouped(p.closed, maxSize)
      && (p.closed != [] ==> Overflows(p.closed[|p.closed| - 1], p.open, maxSize))
    decreases |paras|
  {
    if paras != [] {
      var pre := paras[..|paras| - 1];
      var para := paras[|paras| - 1];
      PackGroups(pre, maxSize);
      PackOpen(pre, maxSize);
      var p := Pack(pre, maxSize);
      var current := Join(p.open, " ");
      if ByteLen(para) >= MinParagraphSize {
        if ByteLen(current) + ByteLen(para) > maxSize && ByteLen(current) >= MinChunkSize {
          assert Pack(paras, maxSize) == Packing(p.closed + [p.open], [para]);
          GroupedAppend(p.closed, p.open, maxSize);
        } else {
          assert Pack(paras, maxSize) == Packing(p.closed, p.open + [para]);
          if p.open != [] {
            assert (p.open + [para])[0] == p.open[0];
          }
        }
      }
    }
  }

  /**
   * What `chunkText` promises about its chunks: they are consecutive groups
   * of the retained paragraphs, never split or reordered, each at least 200
   * bytes, each closed only when the next paragraph would not fit; and the
   * only paragraphs lost, beside those under 20 bytes, are a final group
   * under 200 bytes.
   */
  lemma ChunkLaws(paras: seq<string>, maxSize: int)
    ensures var groups := ChunkGroups(paras, maxSize);
      var chunks := Chunks(paras, maxSize);
      var kept := Retained(paras);
      Grouped(groups, maxSize)
      && (forall k :: 0 <= k < |chunks| ==> chunks[k] == Join(groups[k], " ") && ByteLen(chunks[k]) >= MinChunkSize)
      && Flatten(groups) <= kept
      && (Flatten(groups) != kept ==> ByteLen(Join(kept[|Flatten(groups)|..], " ")) < MinChunkSize)
  {
    var p := Pack(paras, maxSize);
    PackCovers(paras, maxSize);
    PackGroups(paras, maxSize);
    PackOpen(paras, maxSize);
    if ByteLen(Join(p.open, " ")) >= MinChunkSize {
      var groups := p.closed + [p.open];
      assert groups[..|groups| - 1] == p.closed;
      GroupedAppend(p.closed, p.open, maxSize);
    } else {
      assert Retained(paras)[|Flatten(p.closed)|..] == p.open;
    }
  }

  lemma {:induction false} JoinFlatten(groups: seq<seq<string>>)
    requires forall k :: 0 <= k < |groups| ==> groups[k] != []
    ensures Join(JoinEach(groups), " ") == Join(Flatten(groups), " ")
    ensures groups != [] ==> Flatten(groups) != []
    decreases |groups|
  {
    if groups != [] {
      var pre := groups[..|groups| - 1];
      var g := groups[|groups| - 1];
      JoinFlatten(pre);
      JoinAppend(JoinEach(pre), Join(g, " "), " ");
      assert JoinEach(groups) == JoinEach(pre) + [Join(g, " ")];
      if pre != [] {
        JoinConcat(Flatten(pre), g, " ");
      } else {
        assert Flatten(groups) == g;
      }
    }
  }

  /**
   * The chunks joined by spaces are a prefix of the retained paragraphs
   * joined by spaces, and at most 200 bytes shorter.
   */
  lemma ChunksCoverText(paras: seq<string>, maxSize: int)
    ensures var joined := Join(Chunks(paras, maxSize), " ");
      var whole := Join(Retained(paras), " ");
      joined <= whole && ByteLen(whole) <= ByteLen(joined) + MinChunkSize
  {
    var groups := ChunkGroups(paras, maxSize);
    ChunkLaws(paras, maxSize);
    JoinFlatten(groups);
    JoinPrefix(Flatten(groups), Retained(paras));
  }

  /** Joining a prefix of the pieces gives a prefix of the joined text. */
  lemma JoinPrefix(f: seq<string>, kept: seq<string>)
    requires f <= kept
    ensures Join(f, " ") <= Join(kept, " ")
    ensures f != kept ==>
      ByteLen(Join(kept, " ")) <= ByteLen(Join(f, " ")) + 1 + ByteLen(Join(kept[|f|..], " "))
  {
    var tail := kept[|f|..];
    assert kept == f + tail;
    if f == [] {
      assert kept == tail;
    } else if tail != [] {
      JoinConcat(f, tail, " ");
      ByteLenConcat(Join(f, " ") + " ", Join(tail, " "));
      ByteLenConcat(Join(f, " "), " ");
    } else {
      assert kept == f;
    }
  }

  /** Paragraph `i` of `chunkText`'s loop, in terms of the chunk texts. */
  lemma PackStep(paras: seq<string>, i: nat, maxSize: int)
    requires i < |paras|
    ensures var p := Pack(paras[..i], maxSize);
      var q := Pack(paras[..i + 1], maxSize);
      var para := paras[i];
      var current := Join(p.open, " ");
      && (ByteLen(para) < MinParagraphSize ==> q == p)
      && (ByteLen(para) >= MinParagraphSize && ByteLen(current) + ByteLen(para) > maxSize
          && ByteLen(current) >= MinChunkSize ==>
            JoinEach(q.closed) == JoinEach(p.closed) + [current] && Join(q.open, " ") == para)
      && (ByteLen(para) >= MinParagraphSize
          && !(ByteLen(current) + ByteLen(para) > maxSize && ByteLen(current) >= MinChunkSize) ==>
            q.closed == p.closed && Join(q.open, " ") == if current == "" then para else current + " " + para)
  {
    assert paras[..i + 1][..i] == paras[..i];
    var p := Pack(paras[..i], maxSize);
    PackOpen(paras[..i], maxSize);
    JoinAppend(p.open, paras[i], " ");
    if p.open != [] {
      JoinNonEmpty(p.open, " ");
    }
    assert (p.closed + [p.open])[..|p.closed|] == p.closed;
  }

  /** The packing loop of `chunkText` over its paragraphs. */
  method PackParagraphs(paragraphs: seq<string>, maxSize: int) returns (chunks: seq<string>)
    ensures chunks == Chunks(paragraphs, maxSize)
  {
    chunks := [];
    var currentChunk := "";
    for i := 0 to |paragraphs|
      invariant var p := Pack(paragraphs[..i], maxSize);
        chunks == JoinEach(p.closed) && currentChunk == Join(p.open, " ")
    {
      PackStep(paragraphs, i, maxSize);
      var para := paragraphs[i];
      if ByteLen(para) < MinParagraphSize {
        continue;
      }
      if ByteLen(currentChunk) + ByteLen(para) > maxSize && ByteLen(currentChunk) >= MinChunkSize {
        chunks := chunks + [currentChunk];
        currentChunk := para;
      } else {
        if |currentChunk| > 0 {
          currentChunk := currentChunk + " ";
        }
        currentChunk := currentChunk + para;
      }
    }
    assert paragraphs[..|paragraphs|] == paragraphs;
    if ByteLen(currentChunk) >= MinChunkSize {
      var p := Pack(paragraphs, maxSize);
      assert (p.closed + [p.open])[..|p.closed|] == p.closed;
      chunks := chunks + [currentChunk];
    }
  }

  /** `chunkText`: split into paragraphs, then pack them greedily. */
  method ChunkText(text: string, maxSize: int) returns (chunks: seq<string>)
    ensures chunks == Chunks(Paragraphs(text), maxSize)
  {
    var paragraphs := SplitByParagraphs(text);
    chunks := PackParagraphs(paragraphs, maxSize);
  }

  // ---------------------------------------------------------------------
  // buildEducationalPrompt and summarizeChunk
  // ---------------------------------------------------------------------

  const HighSchoolInstruction :=
    "Summarize this history textbook content " +
    "for high school students. Use clear " +
    "language and focus on main events, key " +
    "people, and important dates. Explain " +
    "cause and effect relationships. Ignore " +
    "citations and web references. "
  const UndergraduateInstruction :=
    "Summarize this history textbook content " +
    "for undergraduate college students. " +
    "Focus on key concepts, historical " +
    "events, significant figures, and their " +
    "impact. Include important context and " +
    "connections between events. Ignore " +
    "citations and web references. "
  const GraduateInstruction :=
    "Summarize this history textbook content " +
    "for graduate students. Emphasize " +
    "analytical perspectives, " +
    "historiographical significance, and " +
    "complex interrelationships between " +
    "events and themes. Ignore citations and " +
    "web references. "
  const DefaultInstruction :=
    "Summarize this educational textbook " +
    "content. Focus on key concepts, " +
    "historical events, and important facts. " +
    "Maintain accuracy and clarity. Ignore " +
    "citations and web references. "

  /** The instruction chosen for an academic level; any unknown level gets the default one. */
  function Instruction(academicLevel: string): string {
    match academicLevel
    case "high_school" => HighSchoolInstruction
    case "undergraduate" => UndergraduateInstruction
    case "graduate" => GraduateInstruction
    case _ => DefaultInstruction
  }

  /**
   * `buildEducationalPrompt`: one of the four fixed instructions followed
   * by the text, unmodified.
   */
  function BuildEducationalPrompt(text: string, academicLevel: string): (prompt: string)
    ensures |prompt| >= |text| && prompt[|prompt| - |text|..] == text
    ensures prompt[..|prompt| - |text|]
      in {HighSchoolInstruction, UndergraduateInstruction, GraduateInstruction, DefaultInstruction}
    ensures academicLevel == "high_school" ==> prompt[..|prompt| - |text|] == HighSchoolInstruction
    ensures academicLevel == "undergraduate" ==> prompt[..|prompt| - |text|] == UndergraduateInstruction
    ensures academicLevel == "graduate" ==> prompt[..|prompt| - |text|] == GraduateInstruction
    ensures academicLevel !in {"high_school", "undergraduate", "graduate"}
      ==> prompt[..|prompt| - |text|] == DefaultInstruction
  {
    var instruction := Instruction(academicLevel);
    assert (instruction + text)[..|instruction|] == instruction;
    instruction + text
  }

  /** The body `summarizeChunk` posts: the prompt and the fixed generation parameters. */
  datatype SummaryRequest = SummaryRequest(inputs: string, maxLength: int, minLength: int, doSample: bool)

  function ChunkRequest(text: string, academicLevel: string): SummaryRequest {
    SummaryRequest(BuildEducationalPrompt(text, academicLevel), 350, 120, false)
  }

  /**
   * The remote model behind `summarizeChunk`: the summary text of the
   * first response, or the message of whatever failed (the request, a
   * non-200 status, an unparsable or empty response).
   */
  type Endpoint = SummaryRequest -> Result<string, string>

  /** `summarizeChunk(text, academicLevel)`: one request with the prompt and the fixed parameters. */
  function SummarizeChunk(endpoint: Endpoint, text: string, academicLevel: string): Result<string, string> {
    endpoint(ChunkRequest(text, academicLevel))
  }

  /** A text-to-summary function: `summarizeChunk` with the academic level fixed. */
  type Summarize = string -> Result<string, string>

  /** `summarizeChunk` with the academic level fixed, as `GenerateSummary` uses it. */
  function Asker(endpoint: Endpoint, academicLevel: string): Summarize {
    text => SummarizeChunk(endpoint, text, academicLevel)
  }

  // ---------------------------------------------------------------------
  // GenerateSummary
  // ---------------------------------------------------------------------

  /** The first chunk whose summary failed (0-based) and the error it gave. */
  datatype ChunkFailure = ChunkFailure(index: nat, error: string)

  /** Summarising `chunks` one after the other with `ask`, stopping at the first failure. */
  function SummarizeEach(ask: Summarize, chunks: seq<string>): Result<seq<string>, ChunkFailure>
    decreases |chunks|
  {
    if chunks == [] then Success([])
    else
      match SummarizeEach(ask, chunks[..|chunks| - 1])
      case Failure(f) => Failure(f)
      case Success(summaries) =>
        match ask(chunks[|chunks| - 1])
        case Success(summary) => Success(summaries + [summary])
        case Failure(e) => Failure(ChunkFailure(|chunks| - 1, e))
  }

  /** The chunks handed to `ask`: up to and including the first that failed. */
  function Attempted(ask: Summarize, chunks: seq<string>): seq<string>
    decreases |chunks|
  {
    if chunks == [] then []
    else
      var pre := chunks[..|chunks| - 1];
      if SummarizeEach(ask, pre).Failure? then Attempted(ask, pre)
      else Attempted(ask, pre) + [chunks[|chunks| - 1]]
  }

  /**
   * Chunks are summarised in order: on success there is one summary per
   * chunk, each the answer for that chunk, and every chunk was sent.
   */
  lemma {:induction false} SummarizeEachSucceeds(ask: Summarize, chunks: seq<string>)
    requires SummarizeEach(ask, chunks).Success?
    ensures var summaries := SummarizeEach(ask, chunks).value;
      && |summaries| == |chunks| && Attempted(ask, chunks) == chunks
      && forall k :: 0 <= k < |chunks| ==> ask(chunks[k]) == Success(summaries[k])
    decreases |chunks|
  {
    if chunks != [] {
      var pre := chunks[..|chunks| - 1];
      SummarizeEachSucceeds(ask, pre);
      assert chunks == pre + [chunks[|chunks| - 1]];
      assert forall k :: 0 <= k < |pre| ==> chunks[k] == pre[k];
    }
  }

  /**
   * A failure names the first chunk that failed, after every earlier one
   * succeeded, and nothing after it was sent.
   */
  lemma {:induction false} SummarizeEachFails(ask: Summarize, chunks: seq<string>)
    requires SummarizeEach(ask, chunks).Failure?
    ensures var f := SummarizeEach(ask, chunks).error;
      && f.index < |chunks| && Attempted(ask, chunks) == chunks[..f.index + 1]
      && ask(chunks[f.index]) == Failure(f.error)
      && forall k :: 0 <= k < f.index ==> ask(chunks[k]).Success?
    decreases |chunks|
  {
    var pre := chunks[..|chunks| - 1];
    if SummarizeEach(ask, pre).Failure? {
      SummarizeEachFails(ask, pre);
      var f := SummarizeEach(ask, pre).error;
      assert chunks[..f.index + 1] == pre[..f.index + 1];
      assert forall k :: 0 <= k <= f.index ==> chunks[k] == pre[k];
    } else {
      SummarizeEachSucceeds(ask, pre);
      assert chunks == pre + [chunks[|chunks| - 1]];
      assert forall k :: 0 <= k < |pre| ==> chunks[k] == pre[k];
    }
  }

  /** Once a prefix of the chunks has failed, the rest are never sent. */
  lemma {:induction false} FailureStops(ask: Summarize, chunks: seq<string>, n: nat)
    requires n <= |chunks| && SummarizeEach(ask, chunks[..n]).Failure?
    ensures SummarizeEach(ask, chunks) == SummarizeEach(ask, chunks[..n])
    ensures Attempted(ask, chunks) == Attempted(ask, chunks[..n])
    decreases |chunks| - n
  {
    if n < |chunks| {
      var pre := chunks[..|chunks| - 1];
      assert pre[..n] == chunks[..n];
      FailureStops(ask, pre, n);
    } else {
      assert chunks[..n] == chunks;
    }
  }

  /** "Section k: " + the k-th summary + a blank line. */
  function SectionText(k: nat, summary: string): string {
    "Section " + Decimal(k) + ": " + summary + "\n\n"
  }

  /** The combined answer: one section per summary, numbered from 1. */
  function Sections(summaries: seq<string>): string
    decreases |summaries|
  {
    if summaries == [] then ""
    else Sections(summaries[..|summaries| - 1]) + SectionText(|summaries|, summaries[|summaries| - 1])
  }

  lemma {:induction false} SectionsPrefix(summaries: seq<string>, n: nat)
    requires n <= |summaries|
    ensures Sections(summaries[..n]) <= Sections(summaries)
    decreases |summaries| - n
  {
    if n < |summaries| {
      var pre := summaries[..|summaries| - 1];
      assert pre[..n] == summaries[..n];
      SectionsPrefix(pre, n);
    } else {
      assert summaries[..n] == summaries;
    }
  }

  /** The k-th summary appears, in order, right after the sections before it, under heading k + 1. */
  lemma SectionsInOrder(summaries: seq<string>, k: nat)
    requires k < |summaries|
    ensures Sections(summaries[..k]) + SectionText(k + 1, summaries[k]) <= Sections(summaries)
  {
    assert summaries[..k + 1][..k] == summaries[..k];
    SectionsPrefix(summaries, k + 1);
  }

  /**
   * What `GenerateSummary` answers. A Go panic from indexing an empty slice
   * is the outcome `IndexOutOfRange`.
   */
  datatype SummaryOutcome = Summarized(summary: string) | SummaryFailed(message: string) | IndexOutOfRange

  function ChunkErrorMessage(f: ChunkFailure): string {
    "failed to summarize chunk " + Decimal(f.index + 1) + ": " + f.error
  }

  /**
   * `GenerateSummary`, as a function of the answers of `summarizeChunk`
   * (`ask`, the academic level fixed).
   */
  function Summary(ask: Summarize, text: string): SummaryOutcome {
    if ByteLen(text) <= MaxChunkSize then
      match ask(text)
      case Success(summary) => Summarized(summary)
      case Failure(e) => SummaryFailed(e)
    else ChunkedSummary(ask, Chunks(Paragraphs(text), MaxChunkSize))
  }

  /** The answer of `GenerateSummary` for a long text, from its chunks. */
  function ChunkedSummary(ask: Summarize, chunks: seq<string>): SummaryOutcome {
    match SummarizeEach(ask, chunks)
    case Failure(f) => SummaryFailed(ChunkErrorMessage(f))
    case Success(summaries) =>
      if |summaries| > 1 then Summarized(Sections(summaries))
      else if summaries == [] then IndexOutOfRange
      else Summarized(summaries[0])
  }

  /** The texts `GenerateSummary` hands to `summarizeChunk`, in order. */
  function SummaryCalls(ask: Summarize, text: string): seq<string> {
    if ByteLen(text) <= MaxChunkSize then [text]
    else Attempted(ask, Chunks(Paragraphs(text), MaxChunkSize))
  }

  method CombineSections(summaries: seq<string>) returns (combined: string)
    ensures combined == Sections(summaries)
  {
    combined := "";
    for i := 0 to |summaries|
      invariant combined == Sections(summaries[..i])
    {
      assert summaries[..i + 1][..i] == summaries[..i];
      var section := "Section " + Decimal(i + 1) + ": " + summaries[i] + "\n\n";
      assert section == SectionText(i + 1, summaries[i]);
      combined := combined + section;
    }
    assert summaries[..|summaries|] == summaries;
  }

  /**
   * The chunk loop of `GenerateSummary`: `ask` on each chunk in order,
   * returning at the first failure. `calls` records the texts sent.
   */
  method SummarizeChunks(ask: Summarize, chunks: seq<string>)
    returns (r: Result<seq<string>, ChunkFailure>, ghost calls: seq<string>)
    ensures r == SummarizeEach(ask, chunks)
    ensures calls == Attempted(ask, chunks)
  {
    var chunkSummaries: seq<string> := [];
    calls := [];
    for i := 0 to |chunks|
      invariant SummarizeEach(ask, chunks[..i]) == Success(chunkSummaries)
      invariant calls == Attempted(ask, chunks[..i])
    {
      assert chunks[..i + 1][..i] == chunks[..i];
      calls := calls + [chunks[i]];
      var answer := ask(chunks[i]);
      if answer.Failure? {
        FailureStops(ask, chunks, i + 1);
        return Failure(ChunkFailure(i, answer.error)), calls;
      }
      chunkSummaries := chunkSummaries + [answer.value];
    }
    assert chunks[..|chunks|] == chunks;
    r := Success(chunkSummaries);
  }

  /**
   * `GenerateSummary`: one call on the whole text when it is at most 3000
   * bytes, otherwise one call per chunk, in order, stopping at the first
   * failure. `calls` records the texts handed to `summarizeChunk`.
   */
  method GenerateSummary(ask: Summarize, text: string)
    returns (outcome: SummaryOutcome, ghost calls: seq<string>)
    ensures outcome == Summary(ask, text)
    ensures calls == SummaryCalls(ask, text)
  {
    if ByteLen(text) <= MaxChunkSize {
      calls := [text];
      var r := ask(text);
      outcome := if r.Success? then Summarized(r.value) else SummaryFailed(r.error);
      return;
    }
    var chunks := ChunkText(text, MaxChunkSize);
    var r;
    r, calls := SummarizeChunks(ask, chunks);
    if r.Failure? {
      outcome := SummaryFailed(ChunkErrorMessage(r.error));
      return;
    }
    var chunkSummaries := r.value;
    if |chunkSummaries| > 1 {
      var combined := CombineSections(chunkSummaries);
      outcome := Summarized(combined);
      return;
    }
    if |chunkSummaries| == 0 {
      outcome := IndexOutOfRange;
      return;
    }
    outcome := Summarized(chunkSummaries[0]);
  }

  /**
   * A text over 3000 bytes whose every chunk is summarised: two or more
   * summaries come back as numbered sections in chunk order, a single one
   * as it is, and none is the panic.
   */
  lemma ChunkedSummarySucceeds(ask: Summarize, chunks: seq<string>)
    requires forall k :: 0 <= k < |chunks| ==> ask(chunks[k]).Success?
    ensures |chunks| >= 2 ==>
      ChunkedSummary(ask, chunks)
        == Summarized(Sections(seq(|chunks|, k requires 0 <= k < |chunks| => ask(chunks[k]).value)))
    ensures |chunks| == 1 ==> ChunkedSummary(ask, chunks) == Summarized(ask(chunks[0]).value)
    ensures |chunks| == 0 ==> ChunkedSummary(ask, chunks) == IndexOutOfRange
  {
    var r := SummarizeEach(ask, chunks);
    if r.Failure? {
      SummarizeEachFails(ask, chunks);
      assert false;
    }
    SummarizeEachSucceeds(ask, chunks);
    var answers := seq(|chunks|, k requires 0 <= k < |chunks| => ask(chunks[k]).value);
    assert r.value == answers;
  }

  /**
   * A text over 3000 bytes whose chunk `i` is the first to fail: the error
   * names chunk `i + 1`, and the chunks up to it are the only ones sent.
   */
  lemma ChunkedSummaryFails(ask: Summarize, chunks: seq<string>, i: nat)
    requires i < |chunks| && ask(chunks[i]).Failure?
    requires forall k :: 0 <= k < i ==> ask(chunks[k]).Success?
    ensures ChunkedSummary(ask, chunks) == SummaryFailed(ChunkErrorMessage(ChunkFailure(i, ask(chunks[i]).error)))
    ensures Attempted(ask, chunks) == chunks[..i + 1]
  {
    var r := SummarizeEach(ask, chunks);
    if r.Success? {
      SummarizeEachSucceeds(ask, chunks);
      assert false;
    }
    SummarizeEachFails(ask, chunks);
    var f := r.error;
    if f.index < i {
      assert false;
    }
    if f.index > i {
      assert false;
    }
  }

  /**
   * A text of at most 3000 bytes costs exactly one call, on the prompt for
   * the whole text with the fixed parameters, and its answer is returned
   * unchanged.
   */
  lemma ShortTextOneCall(endpoint: Endpoint, text: string, academicLevel: string)
    requires ByteLen(text) <= MaxChunkSize
    ensures SummaryCalls(Asker(endpoint, academicLevel), text) == [text]
    ensures var answer := endpoint(SummaryRequest(BuildEducationalPrompt(text, academicLevel), 350, 120, false));
      Summary(Asker(endpoint, academicLevel), text)
      == if answer.Success? then Summarized(answer.value) else SummaryFailed(answer.error)
  {
  }

  lemma {:induction false} NewlinesOnlyLines(text: string)
    requires forall k :: 0 <= k < |text| ==> text[k] == '\n'
    ensures SplitState(text).current == []
    ensures forall k :: 0 <= k < |SplitState(text).lines| ==> SplitState(text).lines[k] == ""
    decreases |text|
  {
    if text != [] {
      NewlinesOnlyLines(text[..|text| - 1]);
    }
  }

  lemma {:induction false} BreaksOnly(lines: seq<string>)
    requires forall k :: 0 <= k < |lines| ==> IsBreak(lines[k])
    ensures ParaState(lines) == ParaSplit([], "")
    decreases |lines|
  {
    if lines != [] {
      BreaksOnly(lines[..|lines| - 1]);
    }
  }

  /**
   * More than 3000 bytes with no paragraph in them (here: only newlines)
   * leave `chunkText` with no chunk, and `GenerateSummary` then indexes
   * an empty slice, with no call to `summarizeChunk`.
   */
  lemma NoChunkPanics(ask: Summarize, text: string)
    requires |text| > MaxChunkSize && forall k :: 0 <= k < |text| ==> text[k] == '\n'
    ensures Summary(ask, text) == IndexOutOfRange
    ensures SummaryCalls(ask, text) == []
  {
    ByteLenAscii(text);
    NewlinesOnlyLines(text);
    BreaksOnly(Lines(text));
    assert Paragraphs(text) == [];
    assert Pack([], MaxChunkSize) == Packing([], []);
    assert Chunks([], MaxChunkSize) == [];
  }
}
