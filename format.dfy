/**
 * What `_format_results` renders: a header line, then one block of lines per
 * backend result, numbered from 1 in backend order, all joined by "\n".
 *
 * The block lines carry a fixed tag each, so they can be read back: the
 * decoder at the end of this module recovers, from the lines of the blocks,
 * exactly the number, title, URL, summary, date and thumbnail shown for
 * each result.
 */
module Format {
  import opened Wrappers
  import opened Strings

  /**
   * One key of a backend result object: missing, JSON null, or a string.
   * Python's f-strings render null as "None"; null is falsy in `if` tests.
   */
  datatype Field = Absent | Null | Text(s: string)

  /** The keys of a backend result that the formatter reads. */
  datatype Record = Record(
    title: Field,
    url: Field,
    content: Field,
    publishedDate: Field,
    thumbnail: Field)

  const SummaryLimit := 200
  const Ellipsis := "..."

  const SummaryTag := "**Summary:** "
  const PublishedTag := "**Published:** "
  const ThumbnailTag := "**Thumbnail:** "
  const UrlTag := "**URL:** "
  const HeadingTag := "## "

  /** `result.get("title", "No title")` as an f-string renders it. */
  function TitleText(f: Field): (t: string)
    ensures f.Absent? ==> t == "No title"
    ensures f.Null? ==> t == "None"
    ensures f.Text? ==> t == f.s
  {
    match f
    case Absent => "No title"
    case Null => "None"
    case Text(s) => s
  }

  /** `result.get("url", "")` as an f-string renders it. */
  function UrlText(f: Field): (u: string)
    ensures f.Absent? ==> u == ""
    ensures f.Null? ==> u == "None"
    ensures f.Text? ==> u == f.s
  {
    match f
    case Absent => ""
    case Null => "None"
    case Text(s) => s
  }

  /** The summary line's text for a result's `content`, if it gets one. */
  function Summary(content: Field): (r: Option<string>)
    ensures r.Some? ==> content.Text? && r.value != ""
  {
    match content
    case Text(s) =>
      if s == "" then None
      else
        var c := Strip(s);
        if c == "" then None
        else if |c| > SummaryLimit then Some(c[..SummaryLimit] + Ellipsis)
        else Some(c)
    case _ => None
  }

  /**
   * A result gets a summary exactly when its content is a string that is not
   * whitespace only. The summary is the stripped content when that has at
   * most 200 characters, and otherwise its first 200 followed by "...",
   * 203 characters in all.
   */
  lemma SummaryCases(content: Field)
    ensures Summary(content).None? <==> !content.Text? || Strip(content.s) == ""
    ensures content.Text? && Summary(content).Some? && |Strip(content.s)| <= SummaryLimit ==>
              Summary(content).value == Strip(content.s)
    ensures content.Text? && Summary(content).Some? && |Strip(content.s)| > SummaryLimit ==>
              Summary(content).value == Strip(content.s)[..SummaryLimit] + Ellipsis
              && |Summary(content).value| == SummaryLimit + |Ellipsis|
    ensures Summary(content).Some? ==> 0 < |Summary(content).value| <= SummaryLimit + |Ellipsis|
  {
    if content.Text? && content.s == "" {
      assert Strip(content.s) == "";
    }
  }

  /** `"key" in result and result["key"]`: a present, non-empty string. */
  function Shown(f: Field): (r: Option<string>)
    ensures r.Some? <==> f.Text? && f.s != ""
    ensures r.Some? ==> r.value == f.s
  {
    if f.Text? && f.s != "" then Some(f.s) else None
  }

  /** Everything one result block displays. */
  datatype View = View(
    number: nat,
    title: string,
    url: string,
    summary: Option<string>,
    published: Option<string>,
    thumbnail: Option<string>)

  /** What the block of the result numbered `n` displays for `r`. */
  function ViewOf(n: nat, r: Record): View {
    View(n, TitleText(r.title), UrlText(r.url), Summary(r.content), Shown(r.publishedDate), Shown(r.thumbnail))
  }

  /** The views of `results`, numbered from `first` in their order. */
  function Views(results: seq<Record>, first: nat): (vs: seq<View>)
    ensures |vs| == |results|
  {
    seq(|results|, i requires 0 <= i < |results| => ViewOf(first + i, results[i]))
  }

  function Tagged(tag: string, value: Option<string>): seq<string> {
    match value
    case Some(v) => [tag + v]
    case None => []
  }

  function Heading(n: nat, title: string): string {
    HeadingTag + Digits(n) + ". " + title
  }

  /**
   * The lines of one block: heading, URL, then the optional summary,
   * published and thumbnail lines, then an empty line.
   */
  function Render(v: View): seq<string> {
    [Heading(v.number, v.title), UrlTag + v.url]
    + Tagged(SummaryTag, v.summary)
    + Tagged(PublishedTag, v.published)
    + Tagged(ThumbnailTag, v.thumbnail)
    + [""]
  }

  /** The block for the result numbered `n`. */
  function BlockLines(n: nat, r: Record): seq<string> {
    Render(ViewOf(n, r))
  }

  /** The lines `render` gives each element of `xs`, numbered from `first`, one after another. */
  function Numbered<T>(xs: seq<T>, first: nat, render: (nat, T) -> seq<string>): seq<string>
    decreases |xs|
  {
    if xs == [] then [] else render(first, xs[0]) + Numbered(xs[1..], first + 1, render)
  }

  /** The blocks of `results` in order, numbered from `first`. */
  function Blocks(results: seq<Record>, first: nat): seq<string> {
    Numbered(results, first, BlockLines)
  }

  function Header(searchType: string, query: string): (h: string)
    ensures StartsWith(h, "# ") && h[|h| - 1] == '\n'
    ensures h[2..|h| - 1] == searchType + " Results for: " + query
  {
    "# " + searchType + " Results for: " + query + "\n"
  }

  /** The list `output` that `_format_results` joins. */
  function ResultLines(results: seq<Record>, searchType: string, query: string): seq<string> {
    [Header(searchType, query)] + Blocks(results, 1)
  }

  /** The text `_format_results` returns. */
  function FormattedText(results: seq<Record>, searchType: string, query: string): string {
    Join(ResultLines(results, searchType, query), "\n")
  }

  /** Appending an element appends its lines, numbered after those before it. */
  lemma {:induction false} NumberedSnoc<T>(xs: seq<T>, x: T, first: nat, render: (nat, T) -> seq<string>)
    ensures Numbered(xs + [x], first, render) == Numbered(xs, first, render) + render(first + |xs|, x)
    decreases |xs|
  {
    if xs == [] {
      assert xs + [x] == [x];
      assert Numbered([x], first, render) == render(first, x) + Numbered([], first + 1, render);
    } else {
      var head := render(first, xs[0]);
      assert (xs + [x])[0] == xs[0];
      assert (xs + [x])[1..] == xs[1..] + [x];
      NumberedSnoc(xs[1..], x, first + 1, render);
      var rest := Numbered(xs[1..], first + 1, render);
      assert head + rest + render(first + |xs|, x) == head + (rest + render(first + |xs|, x));
    }
  }

  /** The output lines grow by one block per result. */
  lemma ResultLinesSnoc(results: seq<Record>, r: Record, searchType: string, query: string)
    ensures ResultLines(results + [r], searchType, query)
            == ResultLines(results, searchType, query) + BlockLines(|results| + 1, r)
  {
    NumberedSnoc(results, r, 1, BlockLines);
    var header, block := [Header(searchType, query)], BlockLines(|results| + 1, r);
    assert header + Blocks(results, 1) + block == header + (Blocks(results, 1) + block);
  }

  /** One more result of a list: the lines of its first i + 1 results extend those of its first i. */
  lemma ResultLinesStep(results: seq<Record>, i: nat, searchType: string, query: string)
    requires i < |results|
    ensures ResultLines(results[..i + 1], searchType, query)
            == ResultLines(results[..i], searchType, query) + BlockLines(i + 1, results[i])
  {
    assert results[..i + 1] == results[..i] + [results[i]];
    ResultLinesSnoc(results[..i], results[i], searchType, query);
  }

  /**
   * The text is the header alone when there are no results, and otherwise
   * the header, a line break, and the joined blocks.
   */
  lemma FormattedTextLayout(results: seq<Record>, searchType: string, query: string)
    ensures results == [] ==> FormattedText(results, searchType, query) == Header(searchType, query)
    ensures results != [] ==>
              FormattedText(results, searchType, query)
              == Header(searchType, query) + "\n" + Join(Blocks(results, 1), "\n")
  {
    if results != [] {
      assert Blocks(results, 1) != [];
      JoinCons(Header(searchType, query), Blocks(results, 1), "\n");
    }
  }

  // Reading the blocks back.

  /** The heading line's number and title, if the line is a heading. */
  function DecodeHeading(line: string): Option<(nat, string)> {
    if !StartsWith(line, HeadingTag) then None
    else
      var rest := line[|HeadingTag|..];
      var k := DigitRun(rest);
      if k == 0 || !StartsWith(rest[k..], ". ") then None
      else Some((ParseDigits(rest[..k]), rest[k + 2..]))
  }

  /** The value of the line at `i` if it carries `tag`, and the next position. */
  function TakeTagged(lines: seq<string>, i: nat, tag: string): (r: (Option<string>, nat))
    requires i <= |lines|
    ensures i <= r.1 <= |lines|
  {
    if i < |lines| && StartsWith(lines[i], tag) then (Some(lines[i][|tag|..]), i + 1) else (None, i)
  }

  /** The view of the block at the start of `lines`, and how many lines it takes. */
  function DecodeBlock(lines: seq<string>): (r: Option<(View, nat)>)
    ensures r.Some? ==> 0 < r.value.1 <= |lines|
  {
    if |lines| < 3 || !StartsWith(lines[1], UrlTag) then None
    else
      match DecodeHeading(lines[0])
      case None => None
      case Some((n, title)) =>
        var url := lines[1][|UrlTag|..];
        var (summary, i) := TakeTagged(lines, 2, SummaryTag);
        var (published, j) := TakeTagged(lines, i, PublishedTag);
        var (thumbnail, k) := TakeTagged(lines, j, ThumbnailTag);
        if k < |lines| && lines[k] == "" then Some((View(n, title, url, summary, published, thumbnail), k + 1))
        else None
  }

  /** The views of a run of blocks, or None if the lines are not such a run. */
  function DecodeBlocks(lines: seq<string>): Option<seq<View>>
    decreases |lines|
  {
    if lines == [] then Some([])
    else
      match DecodeBlock(lines)
      case None => None
      case Some((v, used)) =>
        match DecodeBlocks(lines[used..])
        case None => None
        case Some(vs) => Some([v] + vs)
  }

  lemma HeadingRoundTrip(n: nat, title: string)
    ensures DecodeHeading(Heading(n, title)) == Some((n, title))
  {
    var line := Heading(n, title);
    var d := Digits(n);
    var rest := line[|HeadingTag|..];
    assert rest == d + (". " + title);
    DigitRunAfterDigits(d, ". " + title);
    assert rest[..|d|] == d;
    assert rest[|d|..] == ". " + title;
    ParseDigitsOfDigits(n);
  }

  /** Decoding a rendered block, followed by anything, gives back its view. */
  lemma DecodeRender(v: View, rest: seq<string>)
    ensures DecodeBlock(Render(v) + rest) == Some((v, |Render(v)|))
  {
    var lines := Render(v) + rest;
    HeadingRoundTrip(v.number, v.title);
    assert lines[0] == Heading(v.number, v.title);
    assert lines[1] == UrlTag + v.url;
    assert (UrlTag + v.url)[..|UrlTag|] == UrlTag;
    var s := Tagged(SummaryTag, v.summary);
    var p := Tagged(PublishedTag, v.published);
    var t := Tagged(ThumbnailTag, v.thumbnail);
    var head := [Heading(v.number, v.title), UrlTag + v.url];
    assert lines == head + s + (p + t + [""] + rest);
    TakeTaggedAfter(head, SummaryTag, v.summary, p + t + [""] + rest, PublishedTag, ThumbnailTag);
    assert lines == (head + s) + p + (t + [""] + rest);
    TakeTaggedAfter(head + s, PublishedTag, v.published, t + [""] + rest, SummaryTag, ThumbnailTag);
    assert lines == (head + s + p) + t + ([""] + rest);
    TakeTaggedAfter(head + s + p, ThumbnailTag, v.thumbnail, [""] + rest, SummaryTag, PublishedTag);
    assert lines[|head + s + p + t|] == "";
  }

  /**
   * Reading the line at `|before|` for `tag` takes the tagged line when one
   * is there, and when it is not, the next line (one of `others`' tags or the
   * empty line) is not mistaken for it.
   */
  lemma TakeTaggedAfter(before: seq<string>, tag: string, value: Option<string>, after: seq<string>,
                        other1: string, other2: string)
    requires tag in {SummaryTag, PublishedTag, ThumbnailTag}
    requires other1 in {SummaryTag, PublishedTag, ThumbnailTag} && other1 != tag
    requires other2 in {SummaryTag, PublishedTag, ThumbnailTag} && other2 != tag
    requires after != []
    requires after[0] == "" || StartsWith(after[0], other1) || StartsWith(after[0], other2)
    ensures TakeTagged(before + Tagged(tag, value) + after, |before|, tag)
            == (value, |before| + |Tagged(tag, value)|)
  {
    var lines := before + Tagged(tag, value) + after;
    if value.Some? {
      assert lines[|before|] == tag + value.value;
      assert (tag + value.value)[..|tag|] == tag;
    } else {
      assert lines[|before|] == after[0];
      if StartsWith(after[0], other1) {
        assert after[0][2] == other1[2] != tag[2];
      } else if StartsWith(after[0], other2) {
        assert after[0][2] == other2[2] != tag[2];
      }
    }
  }

  /**
   * Decoding the blocks of `results` gives, for the i-th result, the view
   * numbered `first + i`: its title (or "No title"), its URL, its cleaned
   * summary and its non-empty date and thumbnail, and nothing else.
   */
  lemma {:induction false} DecodeBlocksOfResults(results: seq<Record>, first: nat)
    ensures DecodeBlocks(Blocks(results, first)) == Some(Views(results, first))
    decreases |results|
  {
    if results != [] {
      var v := ViewOf(first, results[0]);
      var b := BlockLines(first, results[0]);
      var rest := Blocks(results[1..], first + 1);
      var lines := b + rest;
      assert Blocks(results, first) == lines;
      DecodeRender(v, rest);
      assert lines[|b|..] == rest;
      DecodeBlocksOfResults(results[1..], first + 1);
      ViewsCons(results, first);
    }
  }

  lemma ViewsCons(results: seq<Record>, first: nat)
    requires results != []
    ensures Views(results, first) == [ViewOf(first, results[0])] + Views(results[1..], first + 1)
  {
    var vs := Views(results, first);
    var tail := Views(results[1..], first + 1);
    var cons := [ViewOf(first, results[0])] + tail;
    assert |cons| == |vs|;
    forall i | 0 <= i < |vs| ensures vs[i] == cons[i] {
      if i > 0 {
        var r := results[1..][i - 1];
        assert r == results[i];
        assert cons[i] == tail[i - 1] == ViewOf(first + 1 + (i - 1), r);
      }
    }
  }

}
