/** Source formatting: each search hit becomes one citation-ready line
    "<sourcepage>: <text>", and the lines are joined into the sources block
    of the prompt. */
module Sources {
  import opened Wrappers

  /** A search hit: its source page, its content field and, when the index
      returned them, the texts of its semantic captions. */
  datatype Hit = Hit(sourcepage: string, content: string, captions: Option<seq<string>>)

  /** The newline-collapsing helper: every line feed becomes a space and
      every other character is kept. */
  function NoNewlines(s: string): (r: string)
    ensures |r| == |s|
    ensures forall i :: 0 <= i < |s| ==> r[i] == (if s[i] == '\n' then ' ' else s[i])
    ensures '\n' !in r
    decreases |s|
  {
    if |s| == 0 then ""
    else [if s[0] == '\n' then ' ' else s[0]] + NoNewlines(s[1..])
  }

  /** Collapsing newlines twice is collapsing them once. */
  lemma NoNewlinesIdempotent(s: string)
    ensures NoNewlines(NoNewlines(s)) == NoNewlines(s)
  {
  }

  /** The summed lengths of some strings. */
  function TotalLength(parts: seq<string>): nat
    decreases |parts|
  {
    if |parts| == 0 then 0 else |parts[0]| + TotalLength(parts[1..])
  }

  /** Python's `sep.join(parts)`: the parts in order, with one separator
      between each neighbouring pair. */
  function Join(sep: string, parts: seq<string>): (r: string)
    ensures |parts| == 0 ==> r == ""
    ensures |parts| > 0 ==> parts[0] <= r
    ensures |parts| > 0 ==> |r| == TotalLength(parts) + (|parts| - 1) * |sep|
    decreases |parts|
  {
    if |parts| == 0 then ""
    else if |parts| == 1 then parts[0]
    else parts[0] + sep + Join(sep, parts[1..])
  }

  /** Python's `s.split(sep)` for a one-character separator: the pieces
      between separators, always at least one. */
  function Split(s: string, sep: char): (r: seq<string>)
    ensures |r| >= 1
    ensures forall i :: 0 <= i < |r| ==> sep !in r[i]
    decreases |s|
  {
    if |s| == 0 then [""]
    else
      var rest := Split(s[1..], sep);
      if s[0] == sep then [""] + rest
      else [[s[0]] + rest[0]] + rest[1..]
  }

  lemma {:induction false} SplitWithoutSeparator(p: string, sep: char)
    requires sep !in p
    ensures Split(p, sep) == [p]
    decreases |p|
  {
    if |p| > 0 {
      SplitWithoutSeparator(p[1..], sep);
      assert [p[0]] + p[1..] == p;
    }
  }

  lemma {:induction false} SplitAfterPiece(p: string, sep: char, t: string)
    requires sep !in p
    ensures Split(p + [sep] + t, sep) == [p] + Split(t, sep)
    decreases |p|
  {
    var s := p + [sep] + t;
    if |p| == 0 {
      assert s[0] == sep && s[1..] == t;
    } else {
      assert s[0] == p[0] && s[1..] == p[1..] + [sep] + t;
      SplitAfterPiece(p[1..], sep, t);
      assert [p[0]] + p[1..] == p;
    }
  }

  /** Splitting a join on its separator gives the parts back, provided no
      part contains the separator. */
  lemma {:induction false} SplitJoin(parts: seq<string>, sep: char)
    requires |parts| > 0
    requires forall i :: 0 <= i < |parts| ==> sep !in parts[i]
    ensures Split(Join([sep], parts), sep) == parts
    decreases |parts|
  {
    if |parts| == 1 {
      SplitWithoutSeparator(parts[0], sep);
    } else {
      SplitJoin(parts[1..], sep);
      SplitAfterPiece(parts[0], sep, Join([sep], parts[1..]));
      assert [parts[0]] + parts[1..] == parts;
    }
  }

  const CaptionSeparator := " . "
  const SourceSeparator := ": "

  /** The text a hit contributes: its caption texts joined with " . " when
      captions are used, its content field otherwise. Iterating the captions
      of a hit that has none fails, which is `None` here. */
  function HitText(h: Hit, useCaptions: bool): (r: Option<string>)
    ensures r.None? <==> useCaptions && h.captions.None?
    ensures !useCaptions ==> r == Some(h.content)
    ensures useCaptions && h.captions.Some? ==> r == Some(Join(CaptionSeparator, h.captions.value))
  {
    if !useCaptions then Some(h.content)
    else match h.captions
      case None => None
      case Some(texts) => Some(Join(CaptionSeparator, texts))
  }

  /** One hit as one line: the source page, ": ", then the hit's text with
      newlines collapsed. */
  function FormatHit(h: Hit, useCaptions: bool): (r: Option<string>)
    ensures r.Some? <==> !useCaptions || h.captions.Some?
    ensures r.Some? ==> h.sourcepage + SourceSeparator <= r.value
    ensures r.Some? && !useCaptions ==> r.value[|h.sourcepage| + 2..] == NoNewlines(h.content)
    ensures r.Some? && useCaptions ==> r.value[|h.sourcepage| + 2..] == NoNewlines(Join(CaptionSeparator, h.captions.value))
    ensures r.Some? ==> ('\n' in r.value <==> '\n' in h.sourcepage)
  {
    match HitText(h, useCaptions)
    case None => None
    case Some(text) =>
      var line := h.sourcepage + SourceSeparator + NoNewlines(text);
      assert line[..|h.sourcepage| + 2] == h.sourcepage + SourceSeparator;
      assert line[|h.sourcepage| + 2..] == NoNewlines(text);
      Some(line)
  }

  /** The list of formatted sources: one line per hit, in hit order; it fails
      exactly when captions are used and some hit has none. */
  function FormatSources(hits: seq<Hit>, useCaptions: bool): (r: Option<seq<string>>)
    ensures r.Some? <==> forall i :: 0 <= i < |hits| ==> FormatHit(hits[i], useCaptions).Some?
    ensures r.Some? ==> |r.value| == |hits|
    ensures r.Some? ==> forall i :: 0 <= i < |hits| ==> r.value[i] == FormatHit(hits[i], useCaptions).value
    decreases |hits|
  {
    if |hits| == 0 then Some([])
    else
      match (FormatHit(hits[0], useCaptions), FormatSources(hits[1..], useCaptions))
      case (Some(line), Some(rest)) => Some([line] + rest)
      case _ => None
  }

  /** The sources block of the prompt: the formatted lines joined with "\n".
      It is empty for no lines, and when no line has a line feed it reads back
      line by line as the lines themselves. */
  function Content(lines: seq<string>): (r: string)
    ensures |lines| == 0 ==> r == ""
    ensures |lines| > 0 && (forall i :: 0 <= i < |lines| ==> '\n' !in lines[i]) ==> Split(r, '\n') == lines
  {
    if |lines| > 0 && (forall i :: 0 <= i < |lines| ==> '\n' !in lines[i]) then
      SplitJoin(lines, '\n');
      Join("\n", lines)
    else
      Join("\n", lines)
  }

  /** Reading the sources block line by line gives back one line per hit, in
      hit order, when no source page contains a line feed. */
  lemma ContentLines(hits: seq<Hit>, useCaptions: bool)
    requires FormatSources(hits, useCaptions).Some?
    requires |hits| > 0
    requires forall i :: 0 <= i < |hits| ==> '\n' !in hits[i].sourcepage
    ensures Split(Content(FormatSources(hits, useCaptions).value), '\n') == FormatSources(hits, useCaptions).value
  {
    var lines := FormatSources(hits, useCaptions).value;
    forall i | 0 <= i < |lines| ensures '\n' !in lines[i] {
      assert lines[i] == FormatHit(hits[i], useCaptions).value;
    }
    SplitJoin(lines, '\n');
  }

  /** No hits give an empty sources block. */
  lemma NoHitsNoContent(useCaptions: bool)
    ensures FormatSources([], useCaptions) == Some([])
    ensures Content([]) == ""
  {
  }
}
