/**
 * The download names of the exports. The PDF and HTML exporters both
 * define the same `sanitizeFilename`: characters that are illegal in file
 * names become '-', every maximal run of white space becomes one '_', and
 * the result is trimmed. The spreadsheet exporter uses the title as it is.
 */
module Filename {
  import opened Text
  import opened Curriculum

  /** The fallback name used when the title is empty. */
  const DefaultName: string := "커리큘럼"

  /** The class `[<>:"/\\|?*]`. */
  predicate IsIllegal(c: char) {
    c == '<' || c == '>' || c == ':' || c == '"' || c == '/' || c == '\\' || c == '|' || c == '?' || c == '*'
  }

  predicate NoIllegal(s: string) {
    forall i :: 0 <= i < |s| ==> !IsIllegal(s[i])
  }

  /** `.replace(/[<>:"/\\|?*]/g, '-')` */
  function ReplaceIllegal(s: string): (r: string)
    ensures |r| == |s| && NoIllegal(r)
    ensures forall i :: 0 <= i < |s| && !IsIllegal(s[i]) ==> r[i] == s[i]
    ensures forall i :: 0 <= i < |s| && IsIllegal(s[i]) ==> r[i] == '-'
  {
    seq(|s|, i requires 0 <= i < |s| => if IsIllegal(s[i]) then '-' else s[i])
  }

  /**
   * `.replace(/\s+/g, '_')`: every maximal run of white space becomes one
   * '_'. The '_' is written at the last character of the run, so the
   * definition looks at one character and its successor at a time.
   */
  function CollapseWhitespace(s: string): string
    decreases |s|
  {
    if s == [] then [] else Piece(s) + CollapseWhitespace(s[1..])
  }

  /** What the first character of `s` contributes to the collapsed string. */
  function Piece(s: string): string
    requires s != []
  {
    if !IsWhitespace(s[0]) then [s[0]]
    else if |s| > 1 && IsWhitespace(s[1]) then []
    else "_"
  }

  /** The collapsed string has no white space, is no longer than the input, is empty only for the empty input, and adds no illegal character. */
  lemma {:induction false} CollapseClean(s: string)
    ensures var r := CollapseWhitespace(s);
      && NoWhitespace(r)
      && |r| <= |s| && (r == [] <==> s == [])
      && (NoIllegal(s) ==> NoIllegal(r))
    decreases |s|
  {
    if s != [] {
      CollapseClean(s[1..]);
      var p, r := Piece(s), CollapseWhitespace(s[1..]);
      assert forall i :: 0 <= i < |r| ==> (p + r)[|p| + i] == r[i];
    }
  }

  /** `sanitizeFilename` */
  function Sanitize(name: string): (r: string)
  {
    Trim(CollapseWhitespace(ReplaceIllegal(name)))
  }

  /** The sanitized name holds no illegal character and no white space; a non-empty name stays non-empty. */
  lemma SanitizeClean(name: string)
    ensures NoIllegal(Sanitize(name)) && NoWhitespace(Sanitize(name))
    ensures name != [] ==> Sanitize(name) != []
    ensures |Sanitize(name)| <= |name|
  {
    var c := CollapseWhitespace(ReplaceIllegal(name));
    CollapseClean(ReplaceIllegal(name));
    TrimNoWhitespace(c);
  }

  /** A name that is already clean is left as it is. */
  lemma {:induction false} SanitizeFixesClean(name: string)
    requires NoIllegal(name) && NoWhitespace(name)
    ensures Sanitize(name) == name
  {
    assert ReplaceIllegal(name) == name;
    CollapseNoWhitespace(name);
    TrimNoWhitespace(name);
  }

  /** White space is the only thing collapsing changes. */
  lemma {:induction false} CollapseNoWhitespace(s: string)
    requires NoWhitespace(s)
    ensures CollapseWhitespace(s) == s
    decreases |s|
  {
    if s != [] {
      CollapseNoWhitespace(s[1..]);
      assert s == [s[0]] + s[1..];
    }
  }

  /** Sanitizing twice is sanitizing once. */
  lemma SanitizeIdempotent(name: string)
    ensures Sanitize(Sanitize(name)) == Sanitize(name)
  {
    SanitizeClean(name);
    SanitizeFixesClean(Sanitize(name));
  }

  /**
   * A maximal white-space run between two pieces becomes exactly one '_':
   * `a` does not end in white space, `w` is all white space, `b` does not
   * start with it.
   */
  lemma CollapseRun(a: string, w: string, b: string)
    requires a == [] || !IsWhitespace(a[|a| - 1])
    requires w != [] && IsBlank(w)
    requires b == [] || !IsWhitespace(b[0])
    ensures CollapseWhitespace(a + (w + b)) == CollapseWhitespace(a) + ("_" + CollapseWhitespace(b))
  {
    CollapseAppend(a, w + b);
    CollapseRunAlone(w, b);
  }

  /** Collapsing splits after any prefix that does not end in white space. */
  lemma {:induction false} CollapseAppend(a: string, t: string)
    requires a == [] || !IsWhitespace(a[|a| - 1])
    ensures CollapseWhitespace(a + t) == CollapseWhitespace(a) + CollapseWhitespace(t)
    decreases |a|
  {
    if a == [] {
      assert a + t == t;
    } else {
      var s := a + t;
      assert s[1..] == a[1..] + t;
      PieceOfExtension(a, t);
      CollapseAppend(a[1..], t);
    }
  }

  /** Extending a string that does not end in white space leaves its first piece alone. */
  lemma PieceOfExtension(a: string, t: string)
    requires a != [] && !IsWhitespace(a[|a| - 1])
    ensures Piece(a + t) == Piece(a)
  {
    var s := a + t;
    assert s[0] == a[0];
    if |a| > 1 { assert s[1] == a[1]; }
  }

  /** A white-space run at the front becomes one '_'. */
  lemma {:induction false} CollapseRunAlone(w: string, b: string)
    requires w != [] && IsBlank(w)
    requires b == [] || !IsWhitespace(b[0])
    ensures CollapseWhitespace(w + b) == "_" + CollapseWhitespace(b)
    decreases |w|
  {
    var s := w + b;
    assert s[0] == w[0] && s[1..] == w[1..] + b;
    if |w| == 1 {
      assert w[1..] + b == b;
    } else {
      assert s[1] == w[1];
      CollapseRunAlone(w[1..], b);
    }
  }

  /** The download name of the PDF and HTML exports: the sanitized title (or fallback) plus an extension. */
  function SafeDownloadName(title: string, extension: string): (r: string)
    ensures |r| > |extension|
    ensures var stem := r[..|r| - |extension|];
      && r[|r| - |extension|..] == extension
      && NoIllegal(stem) && NoWhitespace(stem)
  {
    var stem := Sanitize(OrElse(title, DefaultName));
    SanitizeClean(OrElse(title, DefaultName));
    assert (stem + extension)[..|stem|] == stem;
    stem + extension
  }

  /** `${data.title || '커리큘럼'}.xlsx`: the spreadsheet name is the title unsanitized. */
  function ExcelFilename(title: string): (r: string)
    ensures title != [] ==> r == title + ".xlsx"
    ensures title == [] ==> r == DefaultName + ".xlsx"
  {
    OrElse(title, DefaultName) + ".xlsx"
  }

  function PdfFilename(title: string): string
  {
    SafeDownloadName(title, ".pdf")
  }

  function HtmlFilename(title: string): string
  {
    SafeDownloadName(title, ".html")
  }

  /** A '/' in the title survives in the spreadsheet name only; the PDF and HTML names never hold one. */
  lemma OnlySpreadsheetNameKeepsSlash(title: string)
    ensures '/' in title ==> '/' in ExcelFilename(title)
    ensures '/' !in PdfFilename(title) && '/' !in HtmlFilename(title)
  {
    var pdf, html := PdfFilename(title), HtmlFilename(title);
    assert pdf == pdf[..|pdf| - 4] + ".pdf";
    assert html == html[..|html| - 5] + ".html";
  }

  /** A non-empty title without illegal characters and white space gives the same stem in all three names. */
  lemma CleanTitleSameStem(title: string)
    requires title != [] && NoIllegal(title) && NoWhitespace(title)
    ensures ExcelFilename(title) == title + ".xlsx"
    ensures PdfFilename(title) == title + ".pdf"
    ensures HtmlFilename(title) == title + ".html"
  {
    SanitizeFixesClean(title);
  }
}
