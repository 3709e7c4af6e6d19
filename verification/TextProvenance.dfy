/** From document text to evidence: line endings, chunks, page locators and proposal offsets. */
module TextProvenance {
  import opened Wrappers

  const MAX_CHUNKS := 10_000
  const MAX_CONTENT_LENGTH := 50_000
  const MAX_TITLE_LENGTH := 255

  // ----- characters -----

  /** The characters `str.strip` removes. */
  predicate IsSpace(c: char) {
    var n := c as int;
    9 <= n <= 13 || 0x1c <= n <= 0x20 || n == 0x85 || n == 0xa0 || n == 0x1680 || 0x2000 <= n <= 0x200a
    || n == 0x2028 || n == 0x2029 || n == 0x202f || n == 0x205f || n == 0x3000
  }

  predicate NonBlank(s: string) {
    exists i :: 0 <= i < |s| && !IsSpace(s[i])
  }

  function Strip(s: string): string
    decreases |s|
  {
    if s == "" then ""
    else if IsSpace(s[0]) then Strip(s[1..])
    else if IsSpace(s[|s| - 1]) then Strip(s[..|s| - 1])
    else s
  }

  lemma {:induction false} StripEmptyIffBlank(s: string)
    ensures Strip(s) != "" <==> NonBlank(s)
    decreases |s|
  {
    if s != "" {
      if IsSpace(s[0]) {
        StripEmptyIffBlank(s[1..]);
        if NonBlank(s) {
          var i :| 0 <= i < |s| && !IsSpace(s[i]);
          assert s[1..][i - 1] == s[i];
        }
      } else if IsSpace(s[|s| - 1]) {
        StripEmptyIffBlank(s[..|s| - 1]);
        assert s[..|s| - 1][0] == s[0];
      }
    }
  }

  predicate AllSpace(s: string) {
    forall i :: 0 <= i < |s| ==> IsSpace(s[i])
  }

  /** Stripping takes white space off both ends, and all of it. */
  lemma {:induction false} StripMeans(s: string) returns (before: string, after: string)
    ensures s == before + Strip(s) + after && AllSpace(before) && AllSpace(after)
    ensures Strip(s) != "" ==> !IsSpace(Strip(s)[0]) && !IsSpace(Strip(s)[|Strip(s)| - 1])
    decreases |s|
  {
    hide IsSpace, AllSpace;
    before, after := "", "";
    NoSpace();
    if s != "" {
      if IsSpace(s[0]) {
        before, after := StripMeans(s[1..]);
        MoreSpace(s[0], before);
        assert s == [s[0]] + s[1..];
        before := [s[0]] + before;
      } else if IsSpace(s[|s| - 1]) {
        before, after := StripMeans(s[..|s| - 1]);
        MoreSpace(s[|s| - 1], after);
        assert s == s[..|s| - 1] + [s[|s| - 1]];
        after := after + [s[|s| - 1]];
      }
    }
  }

  lemma NoSpace()
    ensures AllSpace("")
  {
  }

  lemma MoreSpace(c: char, s: string)
    requires IsSpace(c) && AllSpace(s)
    ensures AllSpace([c] + s) && AllSpace(s + [c])
  {
  }

  lemma StripTwice(s: string)
    ensures Strip(Strip(s)) == Strip(s)
  {
    var before, after := StripMeans(s);
  }

  // ----- line endings -----

  /** `replace("\r\n", "\n")`. */
  function ReplaceCrLf(s: string): string {
    if |s| < 2 then s
    else if s[0] == '\r' && s[1] == '\n' then "\n" + ReplaceCrLf(s[2..])
    else [s[0]] + ReplaceCrLf(s[1..])
  }

  /** `replace("\r", "\n")`. */
  function ReplaceCr(s: string): string {
    if s == "" then "" else [if s[0] == '\r' then '\n' else s[0]] + ReplaceCr(s[1..])
  }

  /** `normalize_lf` and `normalize_plain_text`. */
  function NormalizeLf(s: string): string {
    ReplaceCr(ReplaceCrLf(s))
  }

  /** One pass: a line ends at CR LF, at a lone CR, or at LF. */
  function OnePass(s: string): string {
    if s == "" then ""
    else if s[0] != '\r' then [s[0]] + OnePass(s[1..])
    else if |s| > 1 && s[1] == '\n' then "\n" + OnePass(s[2..])
    else "\n" + OnePass(s[1..])
  }

  /** The two replacements read every line ending once. */
  lemma {:induction false} NormalizeIsOnePass(s: string)
    ensures NormalizeLf(s) == OnePass(s)
    decreases |s|
  {
    if |s| >= 2 {
      if s[0] == '\r' && s[1] == '\n' {
        NormalizeIsOnePass(s[2..]);
        assert ("\n" + ReplaceCrLf(s[2..]))[1..] == ReplaceCrLf(s[2..]);
      } else {
        NormalizeIsOnePass(s[1..]);
        assert ([s[0]] + ReplaceCrLf(s[1..]))[1..] == ReplaceCrLf(s[1..]);
      }
    } else if |s| == 1 {
      assert s[1..] == "" && ReplaceCr("") == "" && OnePass("") == "";
      assert ReplaceCr(s) == [if s[0] == '\r' then '\n' else s[0]] == OnePass(s);
    }
  }

  lemma {:induction false} OnePassHasNoCr(s: string)
    ensures '\r' !in OnePass(s)
    ensures '\r' !in s ==> OnePass(s) == s
    decreases |s|
  {
    if s != "" {
      if s[0] == '\r' && |s| > 1 && s[1] == '\n' {
        OnePassHasNoCr(s[2..]);
      } else {
        OnePassHasNoCr(s[1..]);
        if '\r' !in s {
          assert '\r' !in s[1..];
          assert s == [s[0]] + s[1..];
        }
      }
    }
  }

  /** Normal text has no CR, stays as it is, and nothing else does. */
  lemma NormalFormIff(s: string)
    ensures '\r' !in NormalizeLf(s)
    ensures NormalizeLf(NormalizeLf(s)) == NormalizeLf(s)
    ensures NormalizeLf(s) == s <==> '\r' !in s
  {
    NormalizeIsOnePass(s);
    OnePassHasNoCr(s);
    NormalizeIsOnePass(NormalizeLf(s));
    OnePassHasNoCr(NormalizeLf(s));
  }

  // ----- chunks -----

  datatype TextChunk = TextChunk(index: nat, content: string, start: nat, end: nat, locator: Option<Locator>)

  datatype Locator = Page(number: nat) | Pages(first: nat, last: nat)

  datatype TextError = BadSettings | NoProgress | TooManyChunks | BlankText

  predicate SettingsOk(size: int, overlap: int) {
    size > 0 && 0 <= overlap < size
  }

  function WindowEnd(text: string, start: nat, size: nat): nat {
    if start + size < |text| then start + size else |text|
  }

  /** The starts of the windows whose text is not blank, from one window on. */
  function ChunkStarts(text: string, start: nat, size: nat, overlap: nat): (starts: seq<nat>)
    requires SettingsOk(size, overlap) && start <= |text|
    ensures forall k :: 0 <= k < |starts| ==> start <= starts[k] < |text|
    decreases |text| - start
  {
    if start == |text| then []
    else
      var end := WindowEnd(text, start, size);
      var here: seq<nat> := if NonBlank(text[start..end]) then [start] else [];
      if end == |text| then here else here + ChunkStarts(text, end - overlap, size, overlap)
  }

  function MakeChunk(text: string, index: nat, start: nat, size: nat): TextChunk
    requires start <= |text|
  {
    TextChunk(index, text[start..WindowEnd(text, start, size)], start, WindowEnd(text, start, size), None)
  }

  /** What `chunk_text` returns when it returns. */
  function Chunks(text: string, size: nat, overlap: nat): (chunks: seq<TextChunk>)
    requires SettingsOk(size, overlap)
  {
    var starts := ChunkStarts(text, 0, size, overlap);
    seq(|starts|, k requires 0 <= k < |starts| => MakeChunk(text, k, starts[k], size))
  }

  /** `chunk_text`: the second progress error is never raised. */
  method ChunkText(text: string, size: int, overlap: int) returns (r: Result<seq<TextChunk>, TextError>)
    ensures r == (
      if size <= 0 || !(0 <= overlap < size) then Err(BadSettings)
      else if |Chunks(text, size, overlap)| > 10_000 then Err(TooManyChunks)
      else if Chunks(text, size, overlap) == [] then Err(BlankText)
      else Ok(Chunks(text, size, overlap)))
  {
    if size <= 0 || overlap < 0 || overlap >= size { return Err(BadSettings); }
    var chunks: seq<TextChunk> := [];
    var start := 0;
    ChunksFromStart(text, size, overlap);
    hide NonBlank, ChunkStarts, Chunks;
    while start < |text|
      invariant 0 <= start <= |text|
      invariant ChunksFrom(text, start, size, overlap, chunks) == ChunksFrom(text, 0, size, overlap, [])
      decreases |text| - start
    {
      var end := if start + size < |text| then start + size else |text|;
      var content := text[start..end];
      if NonBlank(content) {
        if |chunks| >= MAX_CHUNKS { return Err(TooManyChunks); }
        chunks := chunks + [TextChunk(|chunks|, content, start, end, None)];
      }
      if end == |text| {
        start := end;
        break;
      }
      var nextStart := end - overlap;
      if nextStart <= start { return Err(NoProgress); }
      start := nextStart;
    }
    r := if chunks == [] then Err(BlankText) else Ok(chunks);
  }

  /** The loop of `chunk_text` from a start on, with the chunks so far. */
  function ChunksFrom(text: string, start: nat, size: nat, overlap: nat, chunks: seq<TextChunk>): Result<seq<TextChunk>, TextError>
    requires SettingsOk(size, overlap) && start <= |text|
    decreases |text| - start
  {
    if start == |text| then (if chunks == [] then Err(BlankText) else Ok(chunks))
    else
      var end := WindowEnd(text, start, size);
      var full := NonBlank(text[start..end]);
      if full && |chunks| >= MAX_CHUNKS then Err(TooManyChunks)
      else
        ChunksFrom(text, if end == |text| then end else end - overlap, size, overlap,
                   if full then chunks + [MakeChunk(text, |chunks|, start, size)] else chunks)
  }

  lemma ChunksFromStart(text: string, size: nat, overlap: nat)
    requires SettingsOk(size, overlap)
    ensures ChunksFrom(text, 0, size, overlap, [])
            == var starts := ChunkStarts(text, 0, size, overlap);
               if |starts| > MAX_CHUNKS then Err(TooManyChunks)
               else if starts == [] then Err(BlankText)
               else Ok(Chunks(text, size, overlap))
  {
    var starts := ChunkStarts(text, 0, size, overlap);
    NoneMade(text, size, starts);
    UpcomingAll(starts);
    ChunksFromIs(text, 0, size, overlap, starts, []);
  }

  lemma {:induction false} ChunksFromIs(text: string, start: nat, size: nat, overlap: nat, starts: seq<nat>, chunks: seq<TextChunk>)
    requires SettingsOk(size, overlap) && start <= |text| && starts == ChunkStarts(text, 0, size, overlap)
    requires Upcoming(starts, |chunks|, ChunkStarts(text, start, size, overlap))
    requires Made(text, size, starts, chunks) && |chunks| <= MAX_CHUNKS
    ensures ChunksFrom(text, start, size, overlap, chunks)
            == if |starts| > MAX_CHUNKS then Err(TooManyChunks)
               else if starts == [] then Err(BlankText)
               else Ok(Chunks(text, size, overlap))
    decreases |text| - start
  {
    hide NonBlank, ChunkStarts, Chunks, Upcoming, Made;
    if start == |text| {
      NoWindow(text, size, overlap);
      UpcomingNone(starts, |chunks|);
      AllMade(text, size, overlap, chunks);
    } else {
      var end := WindowEnd(text, start, size);
      var next := if end == |text| then end else end - overlap;
      NoWindow(text, size, overlap);
      OneWindow(text, start, size, overlap);
      var rest := ChunkStarts(text, next, size, overlap);
      if NonBlank(text[start..end]) {
        UpcomingTail(starts, |chunks|, start, rest);
        if |chunks| < MAX_CHUNKS {
          OneMore(text, size, starts, chunks);
          ChunksFromIs(text, next, size, overlap, starts, chunks + [MakeChunk(text, |chunks|, start, size)]);
        }
      } else {
        ChunksFromIs(text, next, size, overlap, starts, chunks);
      }
    }
  }

  /** `rest` is what is left of the starts after the first `n`. */
  predicate Upcoming(starts: seq<nat>, n: nat, rest: seq<nat>) {
    && |starts| == n + |rest|
    && forall k :: 0 <= k < |rest| ==> starts[n + k] == rest[k]
  }

  lemma UpcomingAll(starts: seq<nat>)
    ensures Upcoming(starts, 0, starts)
  {
  }

  lemma UpcomingTail(starts: seq<nat>, n: nat, start: nat, rest: seq<nat>)
    requires Upcoming(starts, n, [start] + rest)
    ensures n < |starts| && starts[n] == start && Upcoming(starts, n + 1, rest)
  {
    assert ([start] + rest)[0] == start;
    forall k | 0 <= k < |rest| ensures starts[n + 1 + k] == rest[k] {
      var m := k + 1;
      assert starts[n + m] == ([start] + rest)[m];
    }
  }

  lemma UpcomingNone(starts: seq<nat>, n: nat)
    ensures Upcoming(starts, n, []) ==> |starts| == n
  {
  }

  /** The chunks of the first starts, numbered in order. */
  predicate Made(text: string, size: nat, starts: seq<nat>, chunks: seq<TextChunk>) {
    && |chunks| <= |starts|
    && forall k :: 0 <= k < |chunks| ==> starts[k] <= |text| && chunks[k] == MakeChunk(text, k, starts[k], size)
  }

  lemma NoneMade(text: string, size: nat, starts: seq<nat>)
    ensures Made(text, size, starts, [])
  {
  }

  lemma OneMore(text: string, size: nat, starts: seq<nat>, chunks: seq<TextChunk>)
    requires Made(text, size, starts, chunks) && |chunks| < |starts| && starts[|chunks|] <= |text|
    ensures Made(text, size, starts, chunks + [MakeChunk(text, |chunks|, starts[|chunks|], size)])
  {
  }

  lemma OneWindow(text: string, start: nat, size: nat, overlap: nat)
    requires SettingsOk(size, overlap) && start < |text|
    ensures
      var end := WindowEnd(text, start, size);
      var rest: seq<nat> := if end == |text| then [] else ChunkStarts(text, end - overlap, size, overlap);
      ChunkStarts(text, start, size, overlap) == if NonBlank(text[start..end]) then [start] + rest else rest
  {
  }

  lemma NoWindow(text: string, size: nat, overlap: nat)
    requires SettingsOk(size, overlap)
    ensures ChunkStarts(text, |text|, size, overlap) == []
  {
  }

  lemma AllMade(text: string, size: nat, overlap: nat, chunks: seq<TextChunk>)
    requires SettingsOk(size, overlap) && Made(text, size, ChunkStarts(text, 0, size, overlap), chunks)
    requires |chunks| == |ChunkStarts(text, 0, size, overlap)|
    ensures chunks == Chunks(text, size, overlap)
  {
  }

  // ----- what the chunks are -----

  lemma {:induction false} StartsAreWindows(text: string, start: nat, size: nat, overlap: nat, k: nat)
    requires SettingsOk(size, overlap) && start <= |text|
    requires k < |ChunkStarts(text, start, size, overlap)|
    ensures
      var starts := ChunkStarts(text, start, size, overlap);
      && NonBlank(text[starts[k]..WindowEnd(text, starts[k], size)])
      && (k > 0 ==> starts[k - 1] + (size - overlap) <= starts[k])
    decreases |text| - start
  {
    if start < |text| {
      var end := WindowEnd(text, start, size);
      OneWindow(text, start, size, overlap);
      hide NonBlank, ChunkStarts;
      if end < |text| {
        var skipped := if NonBlank(text[start..end]) then 1 else 0;
        if k >= skipped { StartsAreWindows(text, end - overlap, size, overlap, k - skipped); }
      }
    } else {
      NoWindow(text, size, overlap);
    }
  }

  /** Any span with text in it of at most `overlap + 1` characters lies inside one chunk. */
  lemma {:induction false} SpanIsInOneChunk(text: string, start: nat, size: nat, overlap: nat, a: nat, b: nat)
    requires SettingsOk(size, overlap)
    requires start <= a < b <= |text| && b - a <= overlap + 1 && NonBlank(text[a..b])
    ensures InWindow(text, size, ChunkStarts(text, start, size, overlap), a, b)
    decreases |text| - start
  {
    hide ChunkStarts, NonBlank, InWindow;
    var end := WindowEnd(text, start, size);
    OneWindow(text, start, size, overlap);
    if b <= end {
      SliceNonBlank(text, start, end, a, b);
      InWindowHead(text, size, start, if end == |text| then [] else ChunkStarts(text, end - overlap, size, overlap), a, b);
    } else {
      SpanIsInOneChunk(text, end - overlap, size, overlap, a, b);
      InWindowCons(text, size, start, ChunkStarts(text, end - overlap, size, overlap), a, b);
    }
  }

  predicate InWindow(text: string, size: nat, starts: seq<nat>, a: nat, b: nat) {
    exists k :: 0 <= k < |starts| && starts[k] <= a && starts[k] <= |text| && b <= WindowEnd(text, starts[k], size)
  }

  lemma InWindowHead(text: string, size: nat, start: nat, rest: seq<nat>, a: nat, b: nat)
    requires start <= a <= |text| && b <= WindowEnd(text, start, size)
    ensures InWindow(text, size, [start] + rest, a, b)
  {
    assert ([start] + rest)[0] == start;
  }

  lemma InWindowCons(text: string, size: nat, start: nat, rest: seq<nat>, a: nat, b: nat)
    requires InWindow(text, size, rest, a, b)
    ensures InWindow(text, size, [start] + rest, a, b)
  {
    var k :| 0 <= k < |rest| && rest[k] <= a && rest[k] <= |text| && b <= WindowEnd(text, rest[k], size);
    assert ([start] + rest)[k + 1] == rest[k];
  }

  lemma SliceNonBlank(text: string, start: nat, end: nat, a: nat, b: nat)
    requires start <= a <= b <= end <= |text| && NonBlank(text[a..b])
    ensures NonBlank(text[start..end])
  {
    var i :| 0 <= i < |text[a..b]| && !IsSpace(text[a..b][i]);
    assert text[start..end][a + i - start] == text[a..b][i];
  }

  /**
   Every chunk is an exact, numbered, non-blank slice; starts strictly increase; every non-blank
   character, and every short span, is inside a chunk.
   */
  lemma ChunksCover(text: string, size: nat, overlap: nat)
    requires SettingsOk(size, overlap)
    ensures
      var chunks := Chunks(text, size, overlap);
      && (forall k :: 0 <= k < |chunks| ==> ChunkOk(text, size, chunks[k]) && chunks[k].index == k)
      && (forall j, k :: 0 <= j < k < |chunks| ==> chunks[j].start < chunks[k].start)
      && (forall a, b :: 0 <= a < b <= |text| && b - a <= overlap + 1 && NonBlank(text[a..b]) ==> Inside(chunks, a, b))
      && (forall i :: 0 <= i < |text| && !IsSpace(text[i]) ==> Inside(chunks, i, i + 1))
  {
    var chunks := Chunks(text, size, overlap);
    var starts := ChunkStarts(text, 0, size, overlap);
    forall k | 0 <= k < |chunks| ensures ChunkOk(text, size, chunks[k]) {
      StartsAreWindows(text, 0, size, overlap, k);
    }
    StartsIncrease(text, size, overlap);
    forall a, b | 0 <= a < b <= |text| && b - a <= overlap + 1 && NonBlank(text[a..b]) ensures Inside(chunks, a, b) {
      SpanIsInOneChunk(text, 0, size, overlap, a, b);
      var k :| 0 <= k < |starts| && starts[k] <= a && b <= WindowEnd(text, starts[k], size);
      assert chunks[k].start <= a && b <= chunks[k].end;
    }
    forall i | 0 <= i < |text| && !IsSpace(text[i]) ensures Inside(chunks, i, i + 1) {
      assert text[i..i + 1][0] == text[i];
    }
  }

  predicate ChunkOk(text: string, size: nat, c: TextChunk) {
    && c.start < c.end <= |text| && c.end - c.start <= size
    && c.content == text[c.start..c.end] && NonBlank(c.content)
  }

  predicate Inside(chunks: seq<TextChunk>, a: int, b: int) {
    exists k :: 0 <= k < |chunks| && chunks[k].start <= a && b <= chunks[k].end
  }

  lemma StartsIncrease(text: string, size: nat, overlap: nat)
    requires SettingsOk(size, overlap)
    ensures
      var starts := ChunkStarts(text, 0, size, overlap);
      forall j, k :: 0 <= j < k < |starts| ==> starts[j] < starts[k]
  {
    var starts := ChunkStarts(text, 0, size, overlap);
    forall j, k | 0 <= j < k < |starts| ensures starts[j] < starts[k] {
      StartsIncreaseFrom(text, size, overlap, j, k);
    }
  }

  lemma {:induction false} StartsIncreaseFrom(text: string, size: nat, overlap: nat, j: nat, k: nat)
    requires SettingsOk(size, overlap) && j < k < |ChunkStarts(text, 0, size, overlap)|
    ensures ChunkStarts(text, 0, size, overlap)[j] < ChunkStarts(text, 0, size, overlap)[k]
    decreases k
  {
    StartsAreWindows(text, 0, size, overlap, k);
    if j < k - 1 { StartsIncreaseFrom(text, size, overlap, j, k - 1); }
  }

  /** Only blank text gives no chunks. */
  lemma NoChunksIffBlank(text: string, size: nat, overlap: nat)
    requires SettingsOk(size, overlap)
    ensures Chunks(text, size, overlap) == [] <==> !NonBlank(text)
  {
    ChunksCover(text, size, overlap);
    var chunks := Chunks(text, size, overlap);
    if chunks != [] {
      var c := chunks[0];
      var i :| 0 <= i < |c.content| && !IsSpace(c.content[i]);
      assert text[c.start + i] == c.content[i];
    }
  }

  // ----- pages -----

  datatype PageRange = PageRange(number: nat, start: nat, end: nat)

  datatype PdfText = PdfText(text: string, ranges: seq<PageRange>)

  function Join(pages: seq<string>): string {
    if pages == [] then "" else if |pages| == 1 then pages[0] else pages[0] + "\n\n" + Join(pages[1..])
  }

  /** Ranges of the pages when the first starts at `cursor`. */
  function Ranges(pages: seq<string>, cursor: nat, number: nat): (ranges: seq<PageRange>)
    ensures |ranges| == |pages|
  {
    if pages == [] then []
    else [PageRange(number, cursor, cursor + |pages[0]|)] + Ranges(pages[1..], cursor + |pages[0]| + 2, number + 1)
  }

  /** The page loop of `_extract_pdf`; `raw` is the text each page gave. */
  method ExtractPages(raw: seq<string>) returns (pdf: PdfText)
    ensures pdf == PdfText(Join(NormalizedPages(raw)), Ranges(NormalizedPages(raw), 0, 1))
  {
    hide NormalizeLf, Join, Ranges, NormalizedPages;
    var texts: seq<string> := [];
    var ranges: seq<PageRange> := [];
    var cursor: nat := 0;
    ghost var pages := NormalizedPages(raw);
    NoMoreRanges(pages, cursor);
    for i := 0 to |raw|
      invariant texts == pages[..i]
      invariant i < |raw| ==> ranges + Ranges(pages[i..], cursor, i + 1) == Ranges(pages, 0, 1)
      invariant i == |raw| ==> ranges == Ranges(pages, 0, 1)
    {
      var text := NormalizeLf(raw[i]);
      PageText(raw, i);
      NextRange(pages, ranges, i, cursor);
      texts := texts + [text];
      ranges := ranges + [PageRange(i + 1, cursor, cursor + |text|)];
      cursor := cursor + |text|;
      NoMoreRanges(pages, cursor + 2);
      if i + 1 < |raw| { cursor := cursor + 2; }
    }
    pdf := PdfText(Join(texts), ranges);
  }

  lemma PageText(raw: seq<string>, i: nat)
    requires i < |raw|
    ensures NormalizedPages(raw)[i] == NormalizeLf(raw[i])
  {
  }

  lemma NoMoreRanges(pages: seq<string>, cursor: nat)
    ensures pages[0..] == pages && pages[..|pages|] == pages
    ensures Ranges(pages[|pages|..], cursor, |pages| + 1) == []
  {
  }

  lemma NextRange(pages: seq<string>, before: seq<PageRange>, i: nat, cursor: nat)
    requires i < |pages|
    ensures
      var end := cursor + |pages[i]|;
      before + Ranges(pages[i..], cursor, i + 1) == before + [PageRange(i + 1, cursor, end)] + Ranges(pages[i + 1..], end + 2, i + 2)
  {
    assert pages[i..][0] == pages[i] && pages[i..][1..] == pages[i + 1..];
  }

  function NormalizedPages(raw: seq<string>): (pages: seq<string>)
    ensures |pages| == |raw|
  {
    seq(|raw|, i requires 0 <= i < |raw| => NormalizeLf(raw[i]))
  }

  /** Each range cuts its page out of the text, and what lies between ranges are line feeds. */
  predicate PagesCut(text: string, ranges: seq<PageRange>, pages: seq<string>, lo: nat, number: nat) {
    && |ranges| == |pages|
    && (forall k :: 0 <= k < |pages| ==>
          && ranges[k].number == number + k
          && lo <= ranges[k].start <= ranges[k].end <= |text|
          && text[ranges[k].start..ranges[k].end] == pages[k])
    && (forall j, k :: 0 <= j < k < |pages| ==> ranges[j].end < ranges[k].start)
    && (forall p :: lo <= p < |text| ==> InSomePage(ranges, p) || text[p] == '\n')
  }

  lemma {:induction false} RangesCutPages(pages: seq<string>, before: string, number: nat)
    ensures PagesCut(before + Join(pages), Ranges(pages, |before|, number), pages, |before|, number)
    decreases |pages|
  {
    hide Join, Ranges, PagesCut;
    if |pages| == 0 {
      NoPages(pages, before, number);
    } else if |pages| == 1 {
      OnePageText(pages, before, number);
    } else {
      RangesCutPages(pages[1..], before + pages[0] + "\n\n", number + 1);
      FirstPage(pages, before, number);
      PrependPage(before + Join(pages), Ranges(pages, |before|, number), pages, |before|, number);
    }
  }

  lemma PrependPage(text: string, ranges: seq<PageRange>, pages: seq<string>, lo: nat, number: nat)
    requires |ranges| == |pages| > 0
    requires PagesCut(text, ranges[1..], pages[1..], lo + |pages[0]| + 2, number + 1)
    requires ranges[0] == PageRange(number, lo, lo + |pages[0]|) && lo + |pages[0]| + 2 <= |text|
    requires text[lo..lo + |pages[0]|] == pages[0]
    requires text[lo + |pages[0]|] == '\n' && text[lo + |pages[0]| + 1] == '\n'
    ensures PagesCut(text, ranges, pages, lo, number)
  {
    var rest := ranges[1..];
    forall k | 0 < k < |pages|
      ensures ranges[k].number == number + k && lo + |pages[0]| + 2 <= ranges[k].start <= ranges[k].end <= |text|
      ensures text[ranges[k].start..ranges[k].end] == pages[k]
    {
      assert ranges[k] == rest[k - 1] && pages[k] == pages[1..][k - 1];
    }
    forall j, k | 0 <= j < k < |pages| ensures ranges[j].end < ranges[k].start {
      assert ranges[k] == rest[k - 1];
      if j > 0 { assert ranges[j] == rest[j - 1]; }
    }
    forall p | lo <= p < |text| ensures InSomePage(ranges, p) || text[p] == '\n' {
      if p < lo + |pages[0]| {
        assert ranges[0].start <= p < ranges[0].end;
      } else if p >= lo + |pages[0]| + 2 && InSomePage(rest, p) {
        var k :| 0 <= k < |rest| && rest[k].start <= p < rest[k].end;
        assert ranges[k + 1] == rest[k];
      }
    }
  }

  /** The first of several pages, its range, the separator, and the rest. */
  lemma FirstPage(pages: seq<string>, before: string, number: nat)
    requires |pages| > 1
    ensures
      var text, ranges := before + Join(pages), Ranges(pages, |before|, number);
      && text == before + pages[0] + "\n\n" + Join(pages[1..])
      && ranges[0] == PageRange(number, |before|, |before| + |pages[0]|)
      && ranges[1..] == Ranges(pages[1..], |before + pages[0] + "\n\n"|, number + 1)
      && text[|before|..|before| + |pages[0]|] == pages[0]
      && text[|before| + |pages[0]|] == '\n' && text[|before| + |pages[0]| + 1] == '\n'
  {
    var text := before + Join(pages);
    assert text == before + pages[0] + "\n\n" + Join(pages[1..]);
    assert text == (before + pages[0]) + ("\n\n" + Join(pages[1..]));
    assert text[|before|..|before| + |pages[0]|] == pages[0];
  }

  lemma NoPages(pages: seq<string>, before: string, number: nat)
    requires pages == []
    ensures PagesCut(before + Join(pages), Ranges(pages, |before|, number), pages, |before|, number)
  {
  }

  lemma OnePageText(pages: seq<string>, before: string, number: nat)
    requires |pages| == 1
    ensures PagesCut(before + Join(pages), Ranges(pages, |before|, number), pages, |before|, number)
  {
    var text, ranges := before + pages[0], [PageRange(number, |before|, |before| + |pages[0]|)];
    assert before + Join(pages) == text && Ranges(pages, |before|, number) == ranges;
    hide Join, Ranges;
    assert text[|before|..|before| + |pages[0]|] == pages[0];
    forall p | |before| <= p < |text| ensures InSomePage(ranges, p) {
      assert ranges[0].start <= p < ranges[0].end;
    }
  }

  lemma PdfPagesCut(raw: seq<string>)
    ensures PagesCut(Join(NormalizedPages(raw)), Ranges(NormalizedPages(raw), 0, 1), NormalizedPages(raw), 0, 1)
  {
    hide PagesCut, Join, Ranges, NormalizedPages;
    RangesCutPages(NormalizedPages(raw), "", 1);
    assert "" + Join(NormalizedPages(raw)) == Join(NormalizedPages(raw));
  }

  predicate InSomePage(ranges: seq<PageRange>, p: int) {
    exists k :: 0 <= k < |ranges| && ranges[k].start <= p < ranges[k].end
  }

  /** The pages a chunk shares characters with. */
  function PagesOf(c: TextChunk, ranges: seq<PageRange>): seq<nat> {
    if ranges == [] then []
    else
      var r := ranges[0];
      var from := if c.start > r.start then c.start else r.start;
      var upTo := if c.end < r.end then c.end else r.end;
      (if from < upTo then [r.number] else []) + PagesOf(c, ranges[1..])
  }

  function LocatorOf(pages: seq<nat>): Option<Locator> {
    if pages == [] then None
    else if |pages| == 1 then Some(Page(pages[0]))
    else Some(Pages(pages[0], pages[|pages| - 1]))
  }

  /** `assign_page_locators`. */
  method AssignPageLocators(chunks: seq<TextChunk>, ranges: seq<PageRange>) returns (located: seq<TextChunk>)
    ensures |located| == |chunks|
    ensures forall i :: 0 <= i < |chunks| ==> located[i] == chunks[i].(locator := LocatorOf(PagesOf(chunks[i], ranges)))
  {
    located := [];
    for i := 0 to |chunks|
      invariant |located| == i
      invariant forall k :: 0 <= k < i ==> located[k] == chunks[k].(locator := LocatorOf(PagesOf(chunks[k], ranges)))
    {
      located := located + [chunks[i].(locator := LocatorOf(PagesOf(chunks[i], ranges)))];
    }
  }

  ghost predicate SharesText(c: TextChunk, r: PageRange) {
    exists p :: InRange(p, c.start, c.end) && InRange(p, r.start, r.end)
  }

  predicate InRange(p: int, start: int, end: int) {
    start <= p < end
  }

  /** The pages named are exactly those with a character in the chunk. */
  lemma {:induction false} PagesOfExact(c: TextChunk, ranges: seq<PageRange>, n: nat)
    ensures n in PagesOf(c, ranges) <==> exists k :: 0 <= k < |ranges| && ranges[k].number == n && SharesText(c, ranges[k])
  {
    if ranges != [] {
      var r, rest := ranges[0], ranges[1..];
      PagesOfExact(c, rest, n);
      var from := if c.start > r.start then c.start else r.start;
      var upTo := if c.end < r.end then c.end else r.end;
      if from < upTo { assert InRange(from, c.start, c.end) && InRange(from, r.start, r.end); }
      assert SharesText(c, r) <==> from < upTo;
      if k :| 0 <= k < |rest| && rest[k].number == n && SharesText(c, rest[k]) {
        assert ranges[k + 1] == rest[k];
      }
      if k :| 0 <= k < |ranges| && ranges[k].number == n && SharesText(c, ranges[k]) {
        assert k > 0 ==> ranges[k] == rest[k - 1];
      }
      assert PagesOf(c, ranges) == (if from < upTo then [r.number] else []) + PagesOf(c, rest);
    }
  }

  /** Every chunk of a PDF's text gets a page locator. */
  lemma EveryChunkHasAPage(raw: seq<string>, size: nat, overlap: nat, k: nat)
    requires SettingsOk(size, overlap)
    ensures
      var text, ranges := Join(NormalizedPages(raw)), Ranges(NormalizedPages(raw), 0, 1);
      k < |Chunks(text, size, overlap)| ==> LocatorOf(PagesOf(Chunks(text, size, overlap)[k], ranges)).Some?
  {
    var pages := NormalizedPages(raw);
    var text, ranges := Join(pages), Ranges(pages, 0, 1);
    if k < |Chunks(text, size, overlap)| {
      var c := Chunks(text, size, overlap)[k];
      ChunksCover(text, size, overlap);
      PdfPagesCut(raw);
      hide Chunks, Ranges, Join, NormalizedPages, PagesOf;
      ChunkMeetsPage(text, size, c, ranges);
    }
  }

  lemma ChunkMeetsPage(text: string, size: nat, c: TextChunk, ranges: seq<PageRange>)
    requires ChunkOk(text, size, c)
    requires forall p :: 0 <= p < |text| ==> InSomePage(ranges, p) || text[p] == '\n'
    ensures PagesOf(c, ranges) != []
  {
    var i :| 0 <= i < |c.content| && !IsSpace(c.content[i]);
    var p := c.start + i;
    assert text[p] == c.content[i] && text[p] != '\n';
    var n :| 0 <= n < |ranges| && ranges[n].start <= p < ranges[n].end;
    PagesOfExact(c, ranges, ranges[n].number);
    assert InRange(p, c.start, c.end) && InRange(p, ranges[n].start, ranges[n].end);
    assert SharesText(c, ranges[n]);
    assert ranges[n].number in PagesOf(c, ranges);
  }

  lemma {:induction false} JoinHasNoCr(pages: seq<string>)
    requires forall k :: 0 <= k < |pages| ==> '\r' !in pages[k]
    ensures '\r' !in Join(pages)
  {
    if |pages| > 1 { JoinHasNoCr(pages[1..]); }
  }

  /** The text of a PDF is in normal form. */
  lemma PdfTextIsNormal(raw: seq<string>)
    ensures '\r' !in Join(NormalizedPages(raw))
  {
    forall k | 0 <= k < |raw| ensures '\r' !in NormalizedPages(raw)[k] { NormalFormIff(raw[k]); }
    JoinHasNoCr(NormalizedPages(raw));
  }

  // ----- evidence -----

  datatype Snapshot = Snapshot(index: nat, content: string, charStart: nat, locator: Option<Locator>)

  datatype Proposal = Proposal(
    title: Option<string>, content: string, importance: real, confidence: real,
    evidenceStart: int, evidenceEnd: int, evidenceText: string)

  datatype ChunkResult = ChunkResult(index: nat, proposals: seq<Proposal>)

  datatype Validated = Validated(
    chunk: Snapshot, index: nat, title: Option<string>, content: string, evidenceText: string, start: int, end: int)

  datatype ExtractionError = InvalidResponse

  /** `canonical_input` snapshots the chunks with normalized content. */
  function SnapshotOf(c: TextChunk): Snapshot {
    Snapshot(c.index, NormalizeLf(c.content), c.start, c.locator)
  }

  predicate ProposalOk(p: Proposal, chunk: Snapshot) {
    && (p.title.Some? ==> |Strip(p.title.value)| <= MAX_TITLE_LENGTH)
    && 0 < |Strip(p.content)| <= MAX_CONTENT_LENGTH
    && 0.0 <= p.importance <= 1.0 && 0.0 <= p.confidence <= 1.0
    && 0 <= p.evidenceStart < p.evidenceEnd <= |chunk.content|
    && NonBlank(p.evidenceText)
    && chunk.content[p.evidenceStart..p.evidenceEnd] == p.evidenceText
  }

  function MakeValidated(p: Proposal, index: nat, chunk: Snapshot): Validated {
    Validated(chunk, index, if p.title.Some? && Strip(p.title.value) != "" then Some(Strip(p.title.value)) else None,
              Strip(p.content), p.evidenceText, chunk.charStart + p.evidenceStart, chunk.charStart + p.evidenceEnd)
  }

  function Selected(chunks: seq<Snapshot>): map<nat, Snapshot> {
    if chunks == [] then map[] else Selected(chunks[..|chunks| - 1])[chunks[|chunks| - 1].index := chunks[|chunks| - 1]]
  }

  predicate IndexesOk(result: seq<ChunkResult>, selected: map<nat, Snapshot>) {
    && (forall i, j :: 0 <= i < j < |result| ==> result[i].index != result[j].index)
    && (forall i :: 0 <= i < |result| ==> result[i].index in selected)
    && forall n :: n in selected ==> exists i :: 0 <= i < |result| && result[i].index == n
  }

  predicate ResultOk(result: seq<ChunkResult>, selected: map<nat, Snapshot>, maximum: int) {
    && IndexesOk(result, selected)
    && forall i :: 0 <= i < |result| ==> ItemOk(result[i], selected, maximum)
  }

  predicate ItemOk(item: ChunkResult, selected: map<nat, Snapshot>, maximum: int) {
    && item.index in selected && |item.proposals| <= maximum
    && forall k :: 0 <= k < |item.proposals| ==> ProposalOk(item.proposals[k], selected[item.index])
  }

  /** The output rows of one chunk. */
  function ItemOutput(item: ChunkResult, chunk: Snapshot): (rows: seq<Validated>)
    ensures |rows| == |item.proposals|
  {
    seq(|item.proposals|, k requires 0 <= k < |item.proposals| => MakeValidated(item.proposals[k], k, chunk))
  }

  function Output(result: seq<ChunkResult>, selected: map<nat, Snapshot>): seq<Validated>
    requires forall i :: 0 <= i < |result| ==> result[i].index in selected
  {
    if result == [] then []
    else Output(result[..|result| - 1], selected) + ItemOutput(result[|result| - 1], selected[result[|result| - 1].index])
  }

  /** `validate_result`: all or nothing. */
  method ValidateResult(result: seq<ChunkResult>, chunks: seq<Snapshot>, maximum: int) returns (r: Result<seq<Validated>, ExtractionError>)
    ensures r.Ok? <==> ResultOk(result, Selected(chunks), maximum)
    ensures r.Ok? ==> r.value == Output(result, Selected(chunks))
  {
    hide ProposalOk, MakeValidated, Selected;
    var selected := Selected(chunks);
    if !IndexesOk(result, selected) { return Err(InvalidResponse); }
    var output: seq<Validated> := [];
    for i := 0 to |result|
      invariant forall j :: 0 <= j < i ==> ItemOk(result[j], selected, maximum)
      invariant output == Output(result[..i], selected)
    {
      var item := result[i];
      var chunk := selected[item.index];
      if |item.proposals| > maximum { return Err(InvalidResponse); }
      ghost var before := output;
      for k := 0 to |item.proposals|
        invariant forall j :: 0 <= j < k ==> ProposalOk(item.proposals[j], chunk)
        invariant output == before + ItemOutput(item, chunk)[..k]
      {
        var p := item.proposals[k];
        if !ProposalOk(p, chunk) { return Err(InvalidResponse); }
        assert ItemOutput(item, chunk)[..k + 1] == ItemOutput(item, chunk)[..k] + [MakeValidated(p, k, chunk)];
        output := output + [MakeValidated(p, k, chunk)];
      }
      assert ItemOutput(item, chunk)[..|item.proposals|] == ItemOutput(item, chunk);
      assert result[..i + 1][..i] == result[..i];
    }
    assert result[..|result|] == result;
    r := Ok(output);
  }

  /** Where each output row comes from. */
  lemma {:induction false} OutputRow(result: seq<ChunkResult>, selected: map<nat, Snapshot>, maximum: int, n: nat)
    requires forall i :: 0 <= i < |result| ==> result[i].index in selected
    requires forall i :: 0 <= i < |result| ==> ItemOk(result[i], selected, maximum)
    requires n < |Output(result, selected)|
    ensures exists i, k :: 0 <= i < |result| && 0 <= k < |result[i].proposals|
              && ProposalOk(result[i].proposals[k], selected[result[i].index])
              && Output(result, selected)[n] == MakeValidated(result[i].proposals[k], k, selected[result[i].index])
  {
    var m := |result| - 1;
    var front := result[..m];
    var before := Output(front, selected);
    if n < |before| {
      OutputRow(front, selected, maximum, n);
      var i, k :| 0 <= i < |front| && 0 <= k < |front[i].proposals|
                  && ProposalOk(front[i].proposals[k], selected[front[i].index])
                  && before[n] == MakeValidated(front[i].proposals[k], k, selected[front[i].index]);
      assert result[i] == front[i];
    } else {
      var k := n - |before|;
      assert ProposalOk(result[m].proposals[k], selected[result[m].index]);
    }
  }

  /** Every accepted row: bounded stripped texts and evidence that is not blank, from a chunk with few enough proposals. */
  lemma AcceptedRowsAreBounded(result: seq<ChunkResult>, chunks: seq<Snapshot>, maximum: int, n: nat)
    requires ResultOk(result, Selected(chunks), maximum) && n < |Output(result, Selected(chunks))|
    ensures
      var v := Output(result, Selected(chunks))[n];
      && v.chunk in chunks && 0 < |v.content| <= 50_000 && v.content == Strip(v.content)
      && (v.title.Some? ==> 0 < |v.title.value| <= 255)
      && |v.evidenceText| > 0 && v.end - v.start == |v.evidenceText|
      && 0 <= v.start - v.chunk.charStart < v.end - v.chunk.charStart <= |v.chunk.content|
    ensures forall i :: 0 <= i < |result| ==> |result[i].proposals| <= maximum
    ensures forall i, j :: 0 <= i < |result| && 0 <= j < |result[i].proposals| ==>
              0.0 <= result[i].proposals[j].importance <= 1.0 && 0.0 <= result[i].proposals[j].confidence <= 1.0
  {
    forall i, j | 0 <= i < |result| && 0 <= j < |result[i].proposals|
      ensures 0.0 <= result[i].proposals[j].importance <= 1.0 && 0.0 <= result[i].proposals[j].confidence <= 1.0
    {
      assert ItemOk(result[i], Selected(chunks), maximum);
      assert ProposalOk(result[i].proposals[j], Selected(chunks)[result[i].index]);
    }
    var p, s, k := AcceptedRow(result, chunks, maximum, n);
    hide Output, Selected, Strip, NonBlank;
    StripTwice(p.content);
  }

  /** Snapshots of the chunks of one text. */
  predicate SnapshotsOf(text: string, size: nat, overlap: nat, chunks: seq<Snapshot>)
    requires SettingsOk(size, overlap)
  {
    forall s :: s in chunks ==> exists k :: 0 <= k < |Chunks(text, size, overlap)| && FromChunk(s, Chunks(text, size, overlap)[k])
  }

  predicate FromChunk(s: Snapshot, c: TextChunk) {
    s.index == c.index && s.content == NormalizeLf(c.content) && s.charStart == c.start
  }

  lemma {:induction false} SelectedAreChunks(chunks: seq<Snapshot>, n: nat)
    requires n in Selected(chunks)
    ensures Selected(chunks)[n] in chunks && Selected(chunks)[n].index == n
  {
    if chunks[|chunks| - 1].index != n { SelectedAreChunks(chunks[..|chunks| - 1], n); }
  }

  /**
   The chain: for text in normal form, the absolute span of every accepted proposal cuts exactly its
   evidence out of the document, inside the chunk it cites.
   */
  lemma EvidenceIsInTheDocument(text: string, size: nat, overlap: nat, chunks: seq<Snapshot>,
                                result: seq<ChunkResult>, maximum: int, n: nat)
    requires SettingsOk(size, overlap) && '\r' !in text
    requires SnapshotsOf(text, size, overlap, chunks)
    requires ResultOk(result, Selected(chunks), maximum)
    requires n < |Output(result, Selected(chunks))|
    ensures
      var v := Output(result, Selected(chunks))[n];
      && 0 <= v.start < v.end <= |text|
      && text[v.start..v.end] == v.evidenceText
      && NonBlank(v.evidenceText)
      && v.chunk in chunks && v.chunk.charStart <= v.start && v.end <= v.chunk.charStart + |v.chunk.content|
  {
    hide Output, Selected, ResultOk, SnapshotsOf, ChunkOk, NonBlank;
    var p, s, k := AcceptedRow(result, chunks, maximum, n);
    var c := ChunkOfSnapshot(text, size, overlap, chunks, s);
    EvidenceSpan(text, size, c, s, p);
  }

  lemma AcceptedRow(result: seq<ChunkResult>, chunks: seq<Snapshot>, maximum: int, n: nat) returns (p: Proposal, s: Snapshot, k: nat)
    requires ResultOk(result, Selected(chunks), maximum)
    requires n < |Output(result, Selected(chunks))|
    ensures ProposalOk(p, s) && s in chunks && Output(result, Selected(chunks))[n] == MakeValidated(p, k, s)
  {
    var selected := Selected(chunks);
    OutputRow(result, selected, maximum, n);
    hide Output, ProposalOk, MakeValidated, Selected;
    var i, j :| 0 <= i < |result| && 0 <= j < |result[i].proposals|
                && ProposalOk(result[i].proposals[j], selected[result[i].index])
                && Output(result, selected)[n] == MakeValidated(result[i].proposals[j], j, selected[result[i].index]);
    p, s, k := result[i].proposals[j], selected[result[i].index], j;
    SelectedAreChunks(chunks, result[i].index);
  }

  lemma ChunkOfSnapshot(text: string, size: nat, overlap: nat, chunks: seq<Snapshot>, s: Snapshot) returns (c: TextChunk)
    requires SettingsOk(size, overlap) && SnapshotsOf(text, size, overlap, chunks) && s in chunks
    ensures ChunkOk(text, size, c) && FromChunk(s, c)
  {
    ChunksCover(text, size, overlap);
    hide Chunks;
    var j :| 0 <= j < |Chunks(text, size, overlap)| && FromChunk(s, Chunks(text, size, overlap)[j]);
    c := Chunks(text, size, overlap)[j];
  }

  lemma EvidenceSpan(text: string, size: nat, c: TextChunk, s: Snapshot, p: Proposal)
    requires '\r' !in text && ChunkOk(text, size, c) && FromChunk(s, c) && ProposalOk(p, s)
    ensures s.content == c.content
    ensures 0 <= c.start + p.evidenceStart < c.start + p.evidenceEnd <= |text|
    ensures text[c.start + p.evidenceStart..c.start + p.evidenceEnd] == p.evidenceText
  {
    hide NormalizeLf, NonBlank;
    assert '\r' !in c.content by {
      assert forall i :: 0 <= i < |c.content| ==> c.content[i] == text[c.start + i];
    }
    NormalFormIff(c.content);
    SliceOfSlice(text, c.start, c.end, p.evidenceStart, p.evidenceEnd);
  }

  lemma SliceOfSlice(text: string, start: nat, end: nat, from: nat, upTo: nat)
    requires start <= end <= |text| && from <= upTo <= end - start
    ensures text[start..end][from..upTo] == text[start + from..start + upTo]
  {
    var whole, part := text[start..end], text[start + from..start + upTo];
    assert |whole[from..upTo]| == |part|;
    forall i | 0 <= i < |part| ensures whole[from..upTo][i] == part[i] {
      assert whole[from..upTo][i] == whole[from + i] == text[start + (from + i)];
    }
  }

  // ----- evidence of a PDF -----

  /** A page lies within what a locator names. */
  predicate Names(locator: Option<Locator>, page: nat) {
    match locator
    case Some(Page(n)) => page == n
    case Some(Pages(first, last)) => first <= page <= last
    case _ => false
  }

  /** The chunk with its page locator. */
  function Located(c: TextChunk, ranges: seq<PageRange>): TextChunk {
    c.(locator := LocatorOf(PagesOf(c, ranges)))
  }

  /** Snapshots of the located chunks of a PDF. */
  predicate PdfSnapshots(raw: seq<string>, size: nat, overlap: nat, chunks: seq<Snapshot>)
    requires SettingsOk(size, overlap)
  {
    var text, ranges := Join(NormalizedPages(raw)), Ranges(NormalizedPages(raw), 0, 1);
    forall s :: s in chunks ==>
      exists k :: 0 <= k < |Chunks(text, size, overlap)| && s == SnapshotOf(Located(Chunks(text, size, overlap)[k], ranges))
  }

  lemma {:induction false} PagesAscend(c: TextChunk, ranges: seq<PageRange>)
    requires forall j, k :: 0 <= j < k < |ranges| ==> ranges[j].number < ranges[k].number
    ensures forall j, k :: 0 <= j < k < |PagesOf(c, ranges)| ==> PagesOf(c, ranges)[j] < PagesOf(c, ranges)[k]
  {
    if ranges != [] {
      var rest := ranges[1..];
      PagesAscend(c, rest);
      forall k: nat | k < |PagesOf(c, rest)| ensures ranges[0].number < PagesOf(c, rest)[k] {
        PagesOfExact(c, rest, PagesOf(c, rest)[k]);
      }
    }
  }

  lemma LocatorNames(c: TextChunk, ranges: seq<PageRange>, page: nat)
    requires forall j, k :: 0 <= j < k < |ranges| ==> ranges[j].number < ranges[k].number
    requires page in PagesOf(c, ranges)
    ensures Names(LocatorOf(PagesOf(c, ranges)), page)
  {
    PagesAscend(c, ranges);
    var pages := PagesOf(c, ranges);
    var k :| 0 <= k < |pages| && pages[k] == page;
  }

  /** A character of the text that stands on a page, at its place on that page, which the locator names. */
  predicate OnNamedPage(raw: seq<string>, text: string, p: nat, page: nat, offset: nat, locator: Option<Locator>)
    requires p < |text| && page < |raw|
  {
    offset < |NormalizedPages(raw)[page]| && NormalizedPages(raw)[page][offset] == text[p] && Names(locator, page + 1)
  }

  /**
   From the pages of a PDF to the evidence: the absolute span of every accepted proposal cuts its evidence
   out of the text, and each character of it that is no space stands on a page that the cited chunk names.
   */
  lemma PdfEvidenceIsOnItsPages(raw: seq<string>, size: nat, overlap: nat, chunks: seq<Snapshot>,
                                result: seq<ChunkResult>, maximum: int, n: nat)
    requires SettingsOk(size, overlap) && PdfSnapshots(raw, size, overlap, chunks)
    requires ResultOk(result, Selected(chunks), maximum)
    requires n < |Output(result, Selected(chunks))|
    ensures
      var text, v := Join(NormalizedPages(raw)), Output(result, Selected(chunks))[n];
      && 0 <= v.start < v.end <= |text| && text[v.start..v.end] == v.evidenceText
      && forall p :: v.start <= p < v.end && !IsSpace(text[p]) ==>
           exists page: nat, offset: nat :: page < |raw| && OnNamedPage(raw, text, p, page, offset, v.chunk.locator)
  {
    var text := Join(NormalizedPages(raw));
    PdfTextIsNormal(raw);
    PdfSnapshotsAreSnapshots(raw, size, overlap, chunks);
    hide Join, NormalizedPages, Output, Selected, ResultOk, SnapshotsOf, PdfSnapshots, IsSpace, OnNamedPage, NonBlank;
    EvidenceIsInTheDocument(text, size, overlap, chunks, result, maximum, n);
    var v := Output(result, Selected(chunks))[n];
    forall p | v.start <= p < v.end && !IsSpace(text[p])
      ensures exists page: nat, offset: nat :: page < |raw| && OnNamedPage(raw, text, p, page, offset, v.chunk.locator)
    {
      var page, offset := CharacterOnPage(raw, size, overlap, chunks, v.chunk, p);
    }
  }

  lemma PdfSnapshotsAreSnapshots(raw: seq<string>, size: nat, overlap: nat, chunks: seq<Snapshot>)
    requires SettingsOk(size, overlap) && PdfSnapshots(raw, size, overlap, chunks)
    ensures SnapshotsOf(Join(NormalizedPages(raw)), size, overlap, chunks)
  {
    var text, ranges := Join(NormalizedPages(raw)), Ranges(NormalizedPages(raw), 0, 1);
    hide Chunks, Join, NormalizedPages, Ranges, NormalizeLf, PagesOf;
    forall s | s in chunks
      ensures exists k :: 0 <= k < |Chunks(text, size, overlap)| && FromChunk(s, Chunks(text, size, overlap)[k])
    {
      var k :| 0 <= k < |Chunks(text, size, overlap)| && s == SnapshotOf(Located(Chunks(text, size, overlap)[k], ranges));
      assert FromChunk(s, Chunks(text, size, overlap)[k]);
    }
  }

  lemma ChunkOfPdfSnapshot(raw: seq<string>, size: nat, overlap: nat, chunks: seq<Snapshot>, s: Snapshot) returns (c: TextChunk)
    requires SettingsOk(size, overlap) && PdfSnapshots(raw, size, overlap, chunks) && s in chunks
    ensures ChunkOk(Join(NormalizedPages(raw)), size, c) && s == SnapshotOf(Located(c, Ranges(NormalizedPages(raw), 0, 1)))
  {
    var text, ranges := Join(NormalizedPages(raw)), Ranges(NormalizedPages(raw), 0, 1);
    ChunksCover(text, size, overlap);
    hide Chunks, Join, NormalizedPages, Ranges, Located, SnapshotOf;
    var k :| 0 <= k < |Chunks(text, size, overlap)| && s == SnapshotOf(Located(Chunks(text, size, overlap)[k], ranges));
    c := Chunks(text, size, overlap)[k];
  }

  lemma CharacterOnPage(raw: seq<string>, size: nat, overlap: nat, chunks: seq<Snapshot>, s: Snapshot, p: nat)
    returns (page: nat, offset: nat)
    requires SettingsOk(size, overlap) && PdfSnapshots(raw, size, overlap, chunks) && s in chunks
    requires s.charStart <= p < s.charStart + |s.content| && p < |Join(NormalizedPages(raw))|
    requires '\r' !in Join(NormalizedPages(raw)) && !IsSpace(Join(NormalizedPages(raw))[p])
    ensures page < |raw| && OnNamedPage(raw, Join(NormalizedPages(raw)), p, page, offset, s.locator)
  {
    hide Chunks, Join, NormalizedPages, Ranges, NormalizeLf, PagesOf, LocatorOf, PdfSnapshots, Names, PagesCut;
    var pages := NormalizedPages(raw);
    var text, ranges := Join(pages), Ranges(pages, 0, 1);
    PdfPagesCut(raw);
    var c := ChunkOfPdfSnapshot(raw, size, overlap, chunks, s);
    NormalFormIff(c.content);
    page := PageOfCharacter(c, text, ranges, pages, p);
    offset := p - ranges[page].start;
    PageCharacter(text, ranges, pages, p, page);
  }

  lemma PageCharacter(text: string, ranges: seq<PageRange>, pages: seq<string>, p: nat, page: nat)
    requires PagesCut(text, ranges, pages, 0, 1) && page < |pages| && ranges[page].start <= p < ranges[page].end
    ensures p < |text| && p - ranges[page].start < |pages[page]| && pages[page][p - ranges[page].start] == text[p]
  {
    assert text[ranges[page].start..ranges[page].end][p - ranges[page].start] == text[p];
  }

  lemma PageOfCharacter(c: TextChunk, text: string, ranges: seq<PageRange>, pages: seq<string>, p: nat) returns (page: nat)
    requires PagesCut(text, ranges, pages, 0, 1) && c.start <= p < c.end && p < |text| && text[p] != '\n'
    ensures page < |pages| && ranges[page].start <= p < ranges[page].end && Names(LocatorOf(PagesOf(c, ranges)), page + 1)
  {
    assert InSomePage(ranges, p);
    page :| 0 <= page < |ranges| && ranges[page].start <= p < ranges[page].end;
    assert InRange(p, c.start, c.end) && InRange(p, ranges[page].start, ranges[page].end);
    assert SharesText(c, ranges[page]);
    hide PagesOf, LocatorOf;
    PagesOfExact(c, ranges, page + 1);
    LocatorNames(c, ranges, page + 1);
  }

  /** Normalizing moves offsets exactly when the chunk has a CR: then the snapshot is not the document's slice. */
  lemma SnapshotIsSliceIff(text: string, size: nat, overlap: nat, k: nat)
    requires SettingsOk(size, overlap) && k < |Chunks(text, size, overlap)|
    ensures
      var c := Chunks(text, size, overlap)[k];
      SnapshotOf(c).content == text[c.start..c.end] <==> '\r' !in text[c.start..c.end]
  {
    NormalFormIff(Chunks(text, size, overlap)[k].content);
  }
}
