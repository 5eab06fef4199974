/**
 * The front end's AI text helpers (frontend/src/utils/aiPrompt.ts): the
 * line-by-line Markdown renderer that turns an answer into HTML fragments,
 * the inline renderer for bold, italic and code spans, and the prompt
 * builders that put the persona in front of a filled-in template. The
 * regular expressions are written out as predicates on the line; a
 * JavaScript number is handed in as its decimal text.
 */
module AiPrompt {
  import opened Wrappers
  import opened Text
  import opened ApiTypes
  import opened Order

  // ---------------------------------------------------------------------
  // Characters and trimming
  // ---------------------------------------------------------------------

  /** The characters `.` of a JavaScript regular expression does not match. */
  predicate LineTerminator(c: char)
  {
    c == '\n' || c == '\r' || c == '\U{2028}' || c == '\U{2029}'
  }

  /** `.*`: no line terminator. */
  predicate AnyChars(s: string)
  {
    forall c :: c in s ==> !LineTerminator(c)
  }

  /** The white space and line terminators JavaScript's `trim` removes. */
  predicate JsSpace(c: char)
  {
    c == ' ' || c == '\t' || c == '\n' || c == '\r' || c == '\U{000B}' || c == '\U{000C}'
    || c == '\U{00A0}' || c == '\U{1680}' || ('\U{2000}' <= c <= '\U{200A}') || c == '\U{2028}'
    || c == '\U{2029}' || c == '\U{202F}' || c == '\U{205F}' || c == '\U{3000}' || c == '\U{FEFF}'
  }

  function JsTrimStart(s: string): (r: string)
    ensures |r| <= |s| && r == s[|s| - |r|..]
    ensures r == [] || !JsSpace(r[0])
    ensures forall k :: 0 <= k < |s| - |r| ==> JsSpace(s[k])
  {
    if |s| > 0 && JsSpace(s[0]) then JsTrimStart(s[1..]) else s
  }

  function JsTrimEnd(s: string): (r: string)
    ensures |r| <= |s| && r == s[..|r|]
    ensures r == [] || !JsSpace(r[|r| - 1])
    ensures forall k :: |r| <= k < |s| ==> JsSpace(s[k])
  {
    if |s| > 0 && JsSpace(s[|s| - 1]) then JsTrimEnd(s[..|s| - 1]) else s
  }

  /** `s.trim()`: a slice of `s` that neither starts nor ends with white space; empty exactly for a blank `s`. */
  function JsTrim(s: string): (r: string)
    ensures r == [] || (!JsSpace(r[0]) && !JsSpace(r[|r| - 1]))
    ensures r == [] <==> forall c :: c in s ==> JsSpace(c)
    ensures |r| <= |s|
  {
    var l := JsTrimStart(s);
    var r := JsTrimEnd(l);
    JsTrimBlank(s);
    r
  }

  /** Trimming leaves nothing exactly when every character is white space. */
  lemma JsTrimBlank(s: string)
    ensures JsTrimEnd(JsTrimStart(s)) == [] <==> forall c :: c in s ==> JsSpace(c)
  {
    var l := JsTrimStart(s);
    if JsTrimEnd(l) == [] {
      TrimEndEmpty(l);
      forall c | c in s ensures JsSpace(c) {
        var k :| 0 <= k < |s| && s[k] == c;
      }
    }
  }

  /** A string that does not start with white space trims at its end to nothing only when it is empty. */
  lemma TrimEndEmpty(l: string)
    requires l == [] || !JsSpace(l[0])
    ensures JsTrimEnd(l) == [] ==> l == []
  {
  }

  // ---------------------------------------------------------------------
  // Inline rendering
  // ---------------------------------------------------------------------

  /**
   * The end of the shortest non-empty span after a delimiter that starts
   * at `j - 1` or earlier: the first `j` at or after the given one with `d`
   * at `j` and no line terminator before it (the lazy `(.+?)` followed by
   * the closing delimiter).
   */
  /** `d` occurs in `s` at index `k`. */
  predicate DelimAt(s: string, d: string, k: nat)
  {
    k + |d| <= |s| && s[k..k + |d|] == d
  }

  function FindClose(s: string, d: string, j: nat): (r: Option<nat>)
    requires 1 <= j && d != []
    ensures r.Some? ==> j <= r.value && DelimAt(s, d, r.value)
    decreases |s| - j
  {
    if j + |d| > |s| then None
    else if LineTerminator(s[j - 1]) then None
    else if DelimAt(s, d, j) then Some(j)
    else FindClose(s, d, j + 1)
  }

  /**
   * `s.replace(/d(.+?)d/g, open + '$1' + close)` from index `i` on: a
   * match is tried at each position; after a match the search goes on
   * behind its closing delimiter.
   */
  function ReplaceDelimited(s: string, d: string, open: string, close: string, i: nat): string
    requires d != []
    decreases |s| - i
  {
    if i >= |s| then []
    else
      var m := if DelimAt(s, d, i) then FindClose(s, d, i + |d| + 1) else None;
      if m.Some? then open + s[i + |d|..m.value] + close + ReplaceDelimited(s, d, open, close, m.value + |d|)
      else [s[i]] + ReplaceDelimited(s, d, open, close, i + 1)
  }

  function Bold(s: string): string
  {
    ReplaceDelimited(s, "**", "<strong>", "</strong>", 0)
  }

  function Italic(s: string): string
  {
    ReplaceDelimited(s, "*", "<em>", "</em>", 0)
  }

  function Code(s: string): string
  {
    ReplaceDelimited(s, "`", "<code class=\"md-code\">", "</code>", 0)
  }

  /** `inlineRender`: bold spans first, then italic spans, then code spans. */
  function InlineRender(s: string): string
  {
    Code(Italic(Bold(s)))
  }

  /** `inlineRender` as a value, so that the fragment builders do not expand it. */
  function Inline(): string -> string
  {
    InlineRender
  }

  /** Text in which the delimiter never occurs from `i` on is copied unchanged. */
  lemma {:induction false} NoDelimiterUnchanged(s: string, d: string, open: string, close: string, i: nat)
    requires d != [] && i <= |s|
    requires forall k :: i <= k ==> !DelimAt(s, d, k)
    ensures ReplaceDelimited(s, d, open, close, i) == s[i..]
    decreases |s| - i
  {
    if i < |s| {
      NoDelimiterUnchanged(s, d, open, close, i + 1);
      assert s[i..] == [s[i]] + s[i + 1..];
    }
  }

  /** Text without the delimiter's first character is copied unchanged. */
  lemma PlainUnchanged(s: string, d: string, open: string, close: string)
    requires d != [] && d[0] !in s
    ensures ReplaceDelimited(s, d, open, close, 0) == s
  {
    forall k | 0 <= k ensures !DelimAt(s, d, k) {
      if k + |d| <= |s| {
        assert s[k..k + |d|][0] == s[k];
      }
    }
    NoDelimiterUnchanged(s, d, open, close, 0);
  }

  /** The closing search stops at the first delimiter when nothing before it ends the line. */
  lemma {:induction false} FindCloseReaches(s: string, d: string, j: nat, e: nat)
    requires 1 <= j <= e && d != [] && DelimAt(s, d, e)
    requires forall k :: j <= k < e ==> s[k] != d[0]
    requires forall k :: j - 1 <= k < e ==> !LineTerminator(s[k])
    ensures FindClose(s, d, j) == Some(e)
    decreases e - j
  {
    if j < e {
      assert s[j..j + |d|][0] == s[j];
      FindCloseReaches(s, d, j + 1, e);
    }
  }

  /** One delimited span with no delimiter character inside is replaced by its tags. */
  lemma WrapOne(x: string, d: string, open: string, close: string)
    requires d != [] && x != [] && AnyChars(x) && d[0] !in x
    ensures ReplaceDelimited(d + x + d, d, open, close, 0) == open + x + close
  {
    var s := d + x + d;
    assert s[..|d|] == d;
    assert s[|d| + |x|..|d| + |x| + |d|] == d;
    forall k | |d| <= k < |d| + |x| ensures s[k] == x[k - |d|] {
    }
    FindCloseReaches(s, d, |d| + 1, |d| + |x|);
    assert s[|d|..|d| + |x|] == x;
  }

  /** `**x**` renders as bold, not as two italic markers. */
  lemma InlineBold(x: string)
    requires x != [] && AnyChars(x) && '*' !in x && '`' !in x
    ensures InlineRender("**" + x + "**") == "<strong>" + x + "</strong>"
  {
    WrapOne(x, "**", "<strong>", "</strong>");
    var bold := "<strong>" + x + "</strong>";
    NotInWrapped('*', "<strong>", x, "</strong>");
    NotInWrapped('`', "<strong>", x, "</strong>");
    PlainUnchanged(bold, "*", "<em>", "</em>");
    PlainUnchanged(bold, "`", "<code class=\"md-code\">", "</code>");
  }

  /** A character in none of the three parts is not in their concatenation. */
  lemma NotInWrapped(c: char, open: string, x: string, close: string)
    requires c !in open && c !in x && c !in close
    ensures c !in open + x + close
  {
  }

  /** `*x*` renders as italic. */
  lemma InlineItalic(x: string)
    requires x != [] && AnyChars(x) && '*' !in x && '`' !in x
    ensures InlineRender("*" + x + "*") == "<em>" + x + "</em>"
  {
    var s := "*" + x + "*";
    forall k | 0 <= k ensures !DelimAt(s, "**", k) {
      if k + 2 > |s| {
      } else if k == 0 {
        assert s[k..k + 2][1] == x[0];
      } else {
        assert s[k..k + 2][0] == x[k - 1];
      }
    }
    NoDelimiterUnchanged(s, "**", "<strong>", "</strong>", 0);
    WrapOne(x, "*", "<em>", "</em>");
    PlainUnchanged("<em>" + x + "</em>", "`", "<code class=\"md-code\">", "</code>");
  }

  /** `` `x` `` renders as code. */
  lemma InlineCode(x: string)
    requires x != [] && AnyChars(x) && '*' !in x && '`' !in x
    ensures InlineRender("`" + x + "`") == "<code class=\"md-code\">" + x + "</code>"
  {
    var s := "`" + x + "`";
    PlainUnchanged(s, "**", "<strong>", "</strong>");
    PlainUnchanged(s, "*", "<em>", "</em>");
    WrapOne(x, "`", "<code class=\"md-code\">", "</code>");
  }

  /** Text without `*` and `` ` `` passes through unchanged. */
  lemma InlinePlain(s: string)
    requires '*' !in s && '`' !in s
    ensures InlineRender(s) == s
  {
    PlainUnchanged(s, "**", "<strong>", "</strong>");
    PlainUnchanged(s, "*", "<em>", "</em>");
    PlainUnchanged(s, "`", "<code class=\"md-code\">", "</code>");
  }

  // ---------------------------------------------------------------------
  // Line kinds
  // ---------------------------------------------------------------------

  /** `/^p(.+)$/`: the line starts with `p` and goes on with at least one character before its end. */
  predicate Prefixed(line: string, p: string)
  {
    IsPrefix(p, line) && |line| > |p| && AnyChars(line[|p|..])
  }

  predicate IsAsciiDigit(c: char)
  {
    '0' <= c <= '9'
  }

  /** The leading run of ASCII digits (`\d+` can only end where the digits end). */
  function DigitRun(s: string): (r: string)
    ensures |r| <= |s| && r == s[..|r|]
    ensures forall c :: c in r ==> IsAsciiDigit(c)
    ensures |r| < |s| ==> !IsAsciiDigit(s[|r|])
  {
    if s == [] || !IsAsciiDigit(s[0]) then [] else [s[0]] + DigitRun(s[1..])
  }

  /** `/^(\d+)\. (.+)$/` */
  predicate OrderedLine(line: string)
  {
    var d := DigitRun(line);
    |d| >= 1 && Prefixed(line[|d|..], ". ")
  }

  /** `/^[-•*] (.+)$/` */
  predicate BulletLine(line: string)
  {
    |line| >= 3 && (line[0] == '-' || line[0] == '•' || line[0] == '*') && line[1] == ' ' && AnyChars(line[2..])
  }

  /** `/^---+$/` on a trimmed line. */
  predicate RuleText(t: string)
  {
    |t| >= 3 && forall c :: c in t ==> c == '-'
  }

  /** What one line outside a table renders as. */
  datatype LineKind = H3 | H4 | H5 | OrderedItem | BulletItem | Quote | Rule | Spacer | Paragraph

  /** The first test of the chain a line passes. */
  function Kind(line: string): LineKind
  {
    if Prefixed(line, "## ") then H3
    else if Prefixed(line, "### ") then H4
    else if Prefixed(line, "#### ") then H5
    else if OrderedLine(line) then OrderedItem
    else if BulletLine(line) then BulletItem
    else if Prefixed(line, "> ") then Quote
    else if RuleText(JsTrim(line)) then Rule
    else if JsTrim(line) == [] then Spacer
    else Paragraph
  }

  /** `line.replace(/^p/, '')` */
  function DropPrefix(line: string, p: string): (r: string)
    ensures IsPrefix(p, line) ==> line == p + r
    ensures !IsPrefix(p, line) ==> r == line
  {
    if IsPrefix(p, line) then line[|p|..] else line
  }

  /** `line.replace(/^[-•*] /, '')` */
  function DropBullet(line: string): (r: string)
  {
    if |line| >= 2 && (line[0] == '-' || line[0] == '•' || line[0] == '*') && line[1] == ' ' then line[2..] else line
  }

  /** The HTML fragment of one line outside a table. */
  function LineHtml(line: string): string
  {
    match Kind(line)
    case H3 => "<h3 class=\"md-h3\">" + Inline()(DropPrefix(line, "## ")) + "</h3>"
    case H4 => "<h4 class=\"md-h4\">" + Inline()(DropPrefix(line, "### ")) + "</h4>"
    case H5 => "<h5 class=\"md-h5\">" + Inline()(DropPrefix(line, "#### ")) + "</h5>"
    case OrderedItem =>
      var d := DigitRun(line);
      "<li class=\"md-li-ol\"><span class=\"md-ol-num\">" + d + "</span><span>"
      + Inline()(DropPrefix(line[|d|..], ". ")) + "</span></li>"
    case BulletItem => "<li class=\"md-li-ul\">" + Inline()(DropBullet(line)) + "</li>"
    case Quote => "<blockquote class=\"md-quote\">" + Inline()(DropPrefix(line, "> ")) + "</blockquote>"
    case Rule => "<hr class=\"md-hr\" />"
    case Spacer => "<div class=\"md-spacer\"></div>"
    case Paragraph => "<p class=\"md-p\">" + Inline()(line) + "</p>"
  }

  /**
   * A blank line, and only a blank line, is a spacer: every test before
   * the spacer's needs a character that is not white space.
   */
  lemma SpacerIffBlank(line: string)
    ensures Kind(line) == Spacer <==> forall c :: c in line ==> JsSpace(c)
  {
    if forall c :: c in line ==> JsSpace(c) {
      if line != [] {
        SpaceFirst(line);
      }
    }
  }

  /** A line that starts with white space passes none of the tests that come before the rule's. */
  lemma SpaceFirst(line: string)
    requires line != [] && JsSpace(line[0])
    ensures !Prefixed(line, "## ") && !Prefixed(line, "### ") && !Prefixed(line, "#### ")
    ensures !OrderedLine(line) && !BulletLine(line) && !Prefixed(line, "> ")
  {
    forall p: string | p != [] && IsPrefix(p, line) ensures line[0] == p[0] {
      assert line[..|p|][0] == line[0];
    }
    assert "## "[0] == '#' && "### "[0] == '#' && "#### "[0] == '#' && "> "[0] == '>';
    assert DigitRun(line) == [];
  }

  /**
   * Dashes separated by single spaces make a bullet item, not a rule: the
   * bullet test comes first.
   */
  lemma SpacedDashesAreBullet()
    ensures Kind("- - -") == BulletItem
  {
    var l := "- - -";
    assert l[2..] == "- -";
    DashItem(l);
  }

  /** A line opening with a dash and a space, then any text, is a bullet item. */
  lemma DashItem(line: string)
    requires |line| >= 3 && line[0] == '-' && line[1] == ' ' && AnyChars(line[2..])
    ensures Kind(line) == BulletItem
  {
    assert !IsPrefix("## ", line) && !IsPrefix("### ", line) && !IsPrefix("#### ", line);
    assert DigitRun(line) == [];
  }

  /** Three dashes, with white space around them or not, make a rule. */
  lemma DashesAreRule(pad: string)
    requires forall c :: c in pad ==> JsSpace(c)
    ensures Kind(pad + "---") == Rule
  {
    var line := pad + "---";
    if pad != [] {
      SpaceFirst(line);
    } else {
      assert DigitRun(line) == [];
      assert !IsPrefix("## ", line) && !IsPrefix("### ", line) && !IsPrefix("#### ", line) && !IsPrefix("> ", line)
        by { assert line[0] == '-'; }
      assert !BulletLine(line) by { assert line[1] == '-'; }
    }
    TrimPadded(pad);
  }

  /** Trimming takes the padding off the dashes. */
  lemma TrimPadded(pad: string)
    requires forall c :: c in pad ==> JsSpace(c)
    ensures JsTrim(pad + "---") == "---" && RuleText("---")
  {
    assert RuleText("---") by {
      forall c | c in "---" ensures c == '-' {
      }
    }
    TrimStartPad(pad, "---");
    assert JsTrimEnd("---") == "---" by {
      assert !JsSpace("---"[2]);
    }
  }

  lemma {:induction false} TrimStartPad(pad: string, s: string)
    requires forall c :: c in pad ==> JsSpace(c)
    requires s == [] || !JsSpace(s[0])
    ensures JsTrimStart(pad + s) == s
    decreases |pad|
  {
    if pad != [] {
      assert (pad + s)[1..] == pad[1..] + s;
      TrimStartPad(pad[1..], s);
    }
  }

  // ---------------------------------------------------------------------
  // Tables
  // ---------------------------------------------------------------------

  /** `/^\|.+\|/`: a pipe, at least one character, and a later pipe. */
  predicate TableRow(line: string)
  {
    |line| >= 3 && line[0] == '|' && PipeAfterAny(line, 2)
  }

  /** Some `line[j] == '|'` with `j` at or after the given one, and no line terminator in `line[1..j]`. */
  predicate PipeAfterAny(line: string, j: nat)
    requires j >= 2
    decreases |line| - j
  {
    j < |line| && !LineTerminator(line[j - 1]) && (line[j] == '|' || PipeAfterAny(line, j + 1))
  }

  /** `/^\|[-| :]+\|/`: a pipe, then dashes, pipes, spaces and colons up to a later pipe. */
  predicate SeparatorRow(line: string)
  {
    |line| >= 3 && line[0] == '|' && PipeAfterRule(line, 2)
  }

  /** Some `line[j] == '|'` with `j` at or after the given one, and only `-`, `|`, ` `, `:` in `line[1..j]`. */
  predicate PipeAfterRule(line: string, j: nat)
    requires j >= 2
    decreases |line| - j
  {
    j < |line| && line[j - 1] in "-| :" && (line[j] == '|' || PipeAfterRule(line, j + 1))
  }

  /**
   * A table starts at `i`: a pipe line followed by a separator line. A
   * missing next line reads as `''`, which is no separator line.
   */
  predicate StartsTable(lines: seq<string>, i: nat)
    requires i < |lines|
  {
    TableRow(lines[i]) && i + 1 < |lines| && SeparatorRow(lines[i + 1])
  }

  /** Where the rows of a table that continue at `i` end: the first line from `i` on that is not a pipe line. */
  function RowsEnd(lines: seq<string>, i: nat): (e: nat)
    requires i <= |lines|
    ensures i <= e <= |lines|
    ensures forall k :: i <= k < e ==> TableRow(lines[k])
    ensures e < |lines| ==> !TableRow(lines[e])
    decreases |lines| - i
  {
    if i < |lines| && TableRow(lines[i]) then RowsEnd(lines, i + 1) else i
  }

  /** `arr.slice(1, -1)` */
  function Inner<T>(xs: seq<T>): seq<T>
  {
    if |xs| < 2 then [] else xs[1..|xs| - 1]
  }

  /** `line.split('|').slice(1, -1).map(c => c.trim())` */
  function Cells(line: string): (r: seq<string>)
    ensures |r| == |Inner(Split(line, '|'))|
    ensures forall k :: 0 <= k < |r| ==> r[k] == JsTrim(Inner(Split(line, '|'))[k])
  {
    var mid := Inner(Split(line, '|'));
    seq(|mid|, k requires 0 <= k < |mid| => JsTrim(mid[k]))
  }

  /** One header or body cell. */
  function CellHtml(tag: string, c: string): string
  {
    "<" + tag + ">" + Inline()(c) + "</" + tag + ">"
  }

  /** `cells.forEach(c => result.push(...))`: one fragment per cell. */
  function CellFragments(cells: seq<string>, tag: string): (r: seq<string>)
    ensures |r| == |cells|
    ensures forall k :: 0 <= k < |cells| ==> r[k] == CellHtml(tag, cells[k])
  {
    if cells == [] then [] else CellFragments(cells[..|cells| - 1], tag) + [CellHtml(tag, cells[|cells| - 1])]
  }

  /** The fragments of the body rows. */
  function RowFragments(rows: seq<string>): seq<string>
  {
    if rows == [] then [] else RowFragments(rows[..|rows| - 1]) + RowHtml(rows[|rows| - 1])
  }

  /** The fragments of one body row. */
  function RowHtml(row: string): seq<string>
  {
    ["<tr>"] + CellFragments(Cells(row), "td") + ["</tr>"]
  }

  /** One more body row. */
  lemma RowFragmentsSnoc(lines: seq<string>, a: nat, e: nat)
    requires a <= e < |lines|
    ensures RowFragments(lines[a..e + 1]) == RowFragments(lines[a..e]) + RowHtml(lines[e])
  {
    var rows := lines[a..e + 1];
    assert rows[..|rows| - 1] == lines[a..e];
  }

  const TableOpen: string := "<div class=\"md-table-wrap\"><table class=\"md-table\"><thead><tr>"
  const HeadClose: string := "</tr></thead><tbody>"
  const TableClose: string := "</tbody></table></div>"

  /** The fragments of a table: the header cells, then each body row's cells. */
  function TableFragments(header: string, rows: seq<string>): seq<string>
  {
    [TableOpen] + CellFragments(Cells(header), "th") + [HeadClose] + RowFragments(rows) + [TableClose]
  }

  lemma {:induction false} JoinSnoc(parts: seq<string>, x: string, sep: string)
    requires parts != []
    ensures Join(parts + [x], sep) == Join(parts, sep) + sep + x
    decreases |parts|
  {
    if |parts| > 1 {
      assert (parts + [x])[1..] == parts[1..] + [x];
      JoinSnoc(parts[1..], x, sep);
    }
  }

  /** A row written as `|c1|…|cn|` gives back its cells, trimmed. */
  lemma CellsOfRow(cells: seq<string>)
    requires cells != [] && forall c :: c in cells ==> '|' !in c
    ensures var r := Cells("|" + Join(cells, "|") + "|");
      |r| == |cells| && forall k :: 0 <= k < |cells| ==> r[k] == JsTrim(cells[k])
  {
    RowSplit(cells);
  }

  /** Splitting the row at its bars and dropping the outer pieces gives back the cells. */
  lemma RowSplit(cells: seq<string>)
    requires cells != [] && forall c :: c in cells ==> '|' !in c
    ensures Inner(Split("|" + Join(cells, "|") + "|", '|')) == cells
  {
    var parts := [[]] + cells + [[]];
    RowJoin(cells);
    SplitJoin(parts, '|');
    assert Inner(parts) == cells;
  }

  /** The row with its outer bars is the join of the cells between two empty ones. */
  lemma RowJoin(cells: seq<string>)
    requires cells != []
    ensures Join([[]] + cells + [[]], "|") == "|" + Join(cells, "|") + "|"
  {
    var front := [[]] + cells;
    JoinSnoc(front, [], "|");
    assert front[1..] == cells;
    assert Join(front, "|") == [] + "|" + Join(cells, "|");
    assert front + [[]] == [[]] + cells + [[]];
  }

  // ---------------------------------------------------------------------
  // Rendering
  // ---------------------------------------------------------------------

  /** A piece of the answer: one line outside a table, or a table with its header line and body rows. */
  datatype Block = LineBlock(line: string) | TableBlock(header: string, rows: seq<string>)

  /** How the lines from `i` on fall into blocks. */
  function Parse(lines: seq<string>, i: nat): seq<Block>
    requires i <= |lines|
    decreases |lines| - i
  {
    if i == |lines| then []
    else if StartsTable(lines, i) then
      var e := RowsEnd(lines, i + 2);
      [TableBlock(lines[i], lines[i + 2..e])] + Parse(lines, e)
    else [LineBlock(lines[i])] + Parse(lines, i + 1)
  }

  /** The fragments of one block. */
  function BlockHtml(b: Block): seq<string>
  {
    match b
    case LineBlock(line) => [LineHtml(line)]
    case TableBlock(header, rows) => TableFragments(header, rows)
  }

  /** The fragments of the blocks, in order. */
  function Html(blocks: seq<Block>): seq<string>
  {
    if blocks == [] then [] else BlockHtml(blocks[0]) + Html(blocks[1..])
  }

  lemma HtmlCons(b: Block, blocks: seq<Block>)
    ensures Html([b] + blocks) == BlockHtml(b) + Html(blocks)
  {
    assert ([b] + blocks)[1..] == blocks;
  }

  /** `renderMarkdown` as a value: nothing for empty text, else the fragments of its blocks joined. */
  function Rendered(text: string): string
  {
    if text == [] then [] else Join(Html(Parse(Split(text, '\n'), 0)), [])
  }

  /** Without a table, every line is a block of its own. */
  lemma {:induction false} OneBlockPerLine(lines: seq<string>, i: nat)
    requires i <= |lines|
    requires forall k :: i <= k < |lines| ==> !StartsTable(lines, k)
    ensures |Parse(lines, i)| == |lines| - i
    ensures forall k :: i <= k < |lines| ==> Parse(lines, i)[k - i] == LineBlock(lines[k])
    decreases |lines| - i
  {
    if i < |lines| {
      OneBlockPerLine(lines, i + 1);
      var rest := Parse(lines, i + 1);
      ParseLine(lines, i);
      forall k | i <= k < |lines| ensures Parse(lines, i)[k - i] == LineBlock(lines[k]) {
        if k > i {
          assert Parse(lines, i)[k - i] == rest[k - (i + 1)];
        }
      }
    }
  }

  /** A line that opens no table is a block of its own. */
  lemma ParseLine(lines: seq<string>, i: nat)
    requires i < |lines| && !StartsTable(lines, i)
    ensures Parse(lines, i) == [LineBlock(lines[i])] + Parse(lines, i + 1)
  {
  }

  /** A line block gives exactly one fragment, so a text without a table gives one fragment per line. */
  lemma {:induction false} OneFragmentPerLine(blocks: seq<Block>)
    requires forall k :: 0 <= k < |blocks| ==> blocks[k].LineBlock?
    ensures |Html(blocks)| == |blocks|
    ensures forall k :: 0 <= k < |blocks| ==> Html(blocks)[k] == LineHtml(blocks[k].line)
  {
    if blocks != [] {
      OneFragmentPerLine(blocks[1..]);
    }
  }

  /**
   * A table takes its header, its separator and every pipe line after
   * them, and parsing goes on at the first line that is not one.
   */
  lemma TableSpan(lines: seq<string>, i: nat)
    requires i < |lines| && StartsTable(lines, i)
    ensures i + 2 <= |lines|
    ensures var e := RowsEnd(lines, i + 2);
      && (forall k :: i + 2 <= k < e ==> TableRow(lines[k]))
      && (e == |lines| || !TableRow(lines[e]))
      && Parse(lines, i) == [TableBlock(lines[i], lines[i + 2..e])] + Parse(lines, e)
  {
  }

  /** `cells.forEach(c => result.push(`<tag>${inlineRender(c)}</tag>`))` */
  method PushCells(result: seq<string>, cells: seq<string>, tag: string) returns (r: seq<string>)
    ensures r == result + CellFragments(cells, tag)
  {
    r := result;
    var k := 0;
    while k < |cells|
      invariant 0 <= k <= |cells|
      invariant r == result + CellFragments(cells[..k], tag)
    {
      assert cells[..k + 1][..k] == cells[..k];
      r := r + [CellHtml(tag, cells[k])];
      k := k + 1;
    }
    assert cells[..|cells|] == cells;
  }

  /** One body row: its cells between `<tr>` and `</tr>`. */
  method RenderRow(line: string) returns (fragments: seq<string>)
    ensures fragments == RowHtml(line)
  {
    fragments := PushCells(["<tr>"], Cells(line), "td");
    fragments := fragments + ["</tr>"];
  }

  lemma RowsEndStep(lines: seq<string>, e: nat)
    requires e < |lines| && TableRow(lines[e])
    ensures RowsEnd(lines, e) == RowsEnd(lines, e + 1)
  {
  }

  /** The opening of a table and its header cells. */
  method RenderHead(line: string) returns (fragments: seq<string>)
    ensures fragments == [TableOpen] + CellFragments(Cells(line), "th") + [HeadClose]
  {
    fragments := PushCells([TableOpen], Cells(line), "th");
    fragments := fragments + [HeadClose];
  }

  /** The table branch of the loop: the header, then the pipe lines up to the first other line. */
  method RenderTable(lines: seq<string>, i: nat) returns (fragments: seq<string>, e: nat)
    requires i < |lines| && StartsTable(lines, i)
    ensures i + 2 <= e == RowsEnd(lines, i + 2)
    ensures fragments == TableFragments(lines[i], lines[i + 2..e])
  {
    var head := RenderHead(lines[i]);
    var body: seq<string> := [];
    e := i + 2;
    while e < |lines| && TableRow(lines[e])
      invariant i + 2 <= e <= |lines|
      invariant RowsEnd(lines, e) == RowsEnd(lines, i + 2)
      invariant body == RowFragments(lines[i + 2..e])
    {
      RowFragmentsSnoc(lines, i + 2, e);
      RowsEndStep(lines, e);
      var row := RenderRow(lines[e]);
      body := body + row;
      e := e + 1;
    }
    fragments := head + body + [TableClose];
  }

  /**
   * `renderMarkdown`: walk the lines, emitting a table block where a pipe
   * line is followed by a separator line and one fragment for any other
   * line, and join the fragments.
   */
  method RenderMarkdown(text: string) returns (html: string)
    ensures html == Rendered(text)
    ensures text == [] ==> html == []
  {
    if text == [] {
      return [];
    }
    var lines := Split(text, '\n');
    var result: seq<string> := [];
    var i := 0;
    while i < |lines|
      invariant 0 <= i <= |lines|
      invariant result + Html(Parse(lines, i)) == Html(Parse(lines, 0))
    {
      var line := lines[i];
      var nextLine := if i + 1 < |lines| then lines[i + 1] else [];
      if TableRow(line) && SeparatorRow(nextLine) {
        assert StartsTable(lines, i);
        var fragments, e := RenderTable(lines, i);
        assert Parse(lines, i) == [TableBlock(lines[i], lines[i + 2..e])] + Parse(lines, e);
        HtmlCons(TableBlock(lines[i], lines[i + 2..e]), Parse(lines, e));
        AppendAssoc(result, fragments, Html(Parse(lines, e)));
        result := result + fragments;
        i := e;
      } else {
        assert Parse(lines, i) == [LineBlock(line)] + Parse(lines, i + 1);
        HtmlCons(LineBlock(line), Parse(lines, i + 1));
        AppendAssoc(result, [LineHtml(line)], Html(Parse(lines, i + 1)));
        result := result + [LineHtml(line)];
        i := i + 1;
      }
    }
    assert result == Html(Parse(lines, 0));
    html := Join(result, []);
  }

  /** `SYSTEM_ROLE`: the persona, answering rules and background put in front of every prompt. */
  const SystemRole: string :=
    "【角色设定】你是\"智聘助手\"，一位专注于中国IT行业的资深职业发展顾问（10年以上经验）。你熟悉：\n"
    + "- 国内主流招聘市场行情（北上广深杭成都等城市薪资水位）\n"
    + "- 互联网/AI/大数据/云计算等技术方向的岗位要求\n"
    + "- 技术技能的学习难度、市场热度、职业价值评估\n"
    + "\n"
    + "【回答原则】\n"
    + "- 直接给出可操作的具体建议，不说废话和套话\n"
    + "- 数字估算要合理（如学习时间、薪资区间），宁可给范围也不要瞎猜\n"
    + "- Markdown 格式：用 **加粗** 标注重点，用 ## 分隔章节，用 - 列出要点\n"
    + "- 字数适中，不冗长（每个章节不超过 4 句话）\n"
    + "- 最后一定要有 1 句简洁的\"行动建议\"作为结尾\n"
    + "\n"
    + "【背景】用户正在使用一个智能招聘平台查询技能-岗位匹配情况。\n"
    + "\n"
    + "---\n"

  /** The fixed text of the template of `buildLearningPlanPrompt`, around its 4 placeholders. */
  const LearningPlanTexts: seq<string> := [
    "## 任务：为用户制定学习路径规划\n"
      + "\n"
      + "**目标岗位：** ",
    "\n"
      + "**当前技能匹配率：** ",
    "%\n"
      + "**已掌握技能：** ",
    "\n"
      + "**需要补足技能：** ",
    "\n"
      + "\n"
      + "请输出以下结构（严格按此格式）：\n"
      + "\n"
      + "## \U{1F3AF} 现状评估\n"
      + "（1-2句评估当前匹配率意味着什么）\n"
      + "\n"
      + "## \U{1F4CB} 学习优先级\n"
      + "（按\"先学什么 → 再学什么\"列出，每项格式：- **技能名** · 预计X周 · 原因一句话）\n"
      + "\n"
      + "## ⏱\U{FE0F} 整体时间规划\n"
      + "（给出从当前状态到基本胜任该岗位需要多久，分 乐观/正常/保守 三档）\n"
      + "\n"
      + "## \U{1F525} 行动第一步\n"
      + "（今天就可以开始的最具体的一个行动）"
  ]

  /** The fixed text of the template of `buildInterpretationPrompt`, around its 4 placeholders. */
  const InterpretationTexts: seq<string> := [
    "## 任务：解读技能匹配报告并给出提升建议\n"
      + "\n"
      + "**目标岗位：** ",
    "\n"
      + "**匹配率：** ",
    "%\n"
      + "**已具备：** ",
    "\n"
      + "**缺失：** ",
    "\n"
      + "\n"
      + "请输出以下结构：\n"
      + "\n"
      + "## \U{1F4CA} 竞争力评估\n"
      + "（这个匹配率在该岗位市场中处于什么水平？高于/低于平均竞争者？）\n"
      + "\n"
      + "## \U{1F511} 最关键的缺口\n"
      + "（列出 2-3 个最影响竞争力的缺失技能，说明为什么这些最重要）\n"
      + "\n"
      + "## ✅ 你的核心优势\n"
      + "（已有技能中哪些是该岗位的加分项？）\n"
      + "\n"
      + "## \U{1F4C5} 3个月提升计划\n"
      + "（具体、可执行的短期计划，不要泛泛而谈）\n"
      + "\n"
      + "## \U{1F4A1} 一句话建议\n"
      + "（直接告诉用户：现在适不适合投这类岗位）"
  ]

  /** The fixed text of the template of `buildJobReviewPrompt`, around its 9 placeholders. */
  const JobReviewTexts: seq<string> := [
    "## 任务：快速点评某岗位是否适合该用户\n"
      + "\n"
      + "**岗位：** ",
    " @ ",
    "（",
    "）\n"
      + "**薪资：** ",
    " | **经验：** ",
    " | **学历：** ",
    "\n"
      + "**岗位技能要求：** ",
    "\n"
      + "**JD摘要：** ",
    "\n"
      + "\n"
      + "**用户当前技能：** ",
    "\n"
      + "\n"
      + "请用以下格式输出（总字数控制在150字以内，简洁有力）：\n"
      + "\n"
      + "**适合度：** \U{1F49A}高 / \U{1F49B}中等 / \U{1F534}低（选一个，后面一句理由）\n"
      + "\n"
      + "**你的优势：** （1-2个已有的匹配点）\n"
      + "\n"
      + "**关键缺口：** （最重要的1-2个不足）\n"
      + "\n"
      + "**建议：** （\"立即投递\" / \"补足X技能后再投\" / \"暂不建议\"，一句话说明）"
  ]

  /** The fixed text of the template of `buildSkillIntroPrompt`, around its 4 placeholders. */
  const SkillIntroTexts: seq<string> := [
    "## 任务：介绍技术技能\"",
    "\"\n"
      + "\n"
      + "**技能分类：** ",
    "\n"
      + "**市场数据：** ",
    "\n"
      + "**关联技能（来自知识图谱）：** ",
    "\n"
      + "\n"
      + "请按以下结构输出：\n"
      + "\n"
      + "## \U{1F4A1} 是什么\n"
      + "（2句话：核心定义 + 主要用途场景）\n"
      + "\n"
      + "## \U{1F4C8} 市场价值\n"
      + "（结合图谱数据评估：市场热度、典型薪资区间、适合什么阶段的人学）\n"
      + "\n"
      + "## \U{1F6E3}\U{FE0F} 学习路径\n"
      + "（从零到能用：大概需要多久？推荐的学习顺序是什么？）\n"
      + "\n"
      + "## \U{1F517} 最佳技能搭配\n"
      + "（与上面关联技能中，哪2-3个搭配起来最有竞争力？为什么？）"
  ]

  /** The fixed text of the template of `buildDiagnosisPrompt`, around its 3 placeholders. */
  const DiagnosisTexts: seq<string> := [
    "## 任务：全面诊断用户的技能档案\n"
      + "\n"
      + "**技能清单：** ",
    "\n",
    "\n",
    "\n"
      + "\n"
      + "请按以下结构输出专业诊断报告：\n"
      + "\n"
      + "## \U{1F50D} 技能组合诊断\n"
      + "（这些技能是否构成完整技术栈？优势点和薄弱点各是什么？）\n"
      + "\n"
      + "## \U{1F3C6} 市场竞争力\n"
      + "（在当前招聘市场，这套技能组合能达到什么竞争水平？）\n"
      + "\n"
      + "## \U{1F3AF} 最佳岗位方向\n"
      + "（列出 2-3 个最匹配的具体岗位，说明为什么合适）\n"
      + "\n"
      + "## ⚠\U{FE0F} 关键短板\n"
      + "（最需要补充的 1-2 项技能，以及补足后能带来的薪资/竞争力提升）\n"
      + "\n"
      + "## \U{1F4C5} 6个月行动计划\n"
      + "（分月份给出优先级最高的学习任务，要具体可执行）"
  ]

  // ---------------------------------------------------------------------
  // Prompt builders
  // ---------------------------------------------------------------------

  /** The separator the builders join lists with. */
  const ListSep: string := "、"

  /**
   * A template with its placeholders filled: `texts[0] + values[0] +
   * texts[1] + … + texts[n]`.
   */
  function Fill(texts: seq<string>, values: seq<string>): string
    requires |texts| == |values| + 1
    decreases |values|
  {
    if values == [] then texts[0] else texts[0] + values[0] + Fill(texts[1..], values[1..])
  }

  /** A string contains what its suffix contains. */
  lemma ContainsInSuffix(a: string, b: string, t: string)
    requires Contains(b, t)
    ensures Contains(a + b, t)
  {
    assert (a + b)[|a|..|a + b|] == b;
    ContainsSlice(a + b, |a|, |a + b|, t);
  }

  /** Every value put into a template shows in the result. */
  lemma {:induction false} FillShows(texts: seq<string>, values: seq<string>, k: nat)
    requires |texts| == |values| + 1 && k < |values|
    ensures Contains(Fill(texts, values), values[k])
    decreases |values|
  {
    var s := Fill(texts, values);
    if k == 0 {
      assert s == texts[0] + values[0] + Fill(texts[1..], values[1..]);
      assert s[|texts[0]|..|texts[0]| + |values[0]|] == values[0];
      ContainsAtIndex(s, |texts[0]|, values[0]);
    } else {
      FillShows(texts[1..], values[1..], k - 1);
      assert s == (texts[0] + values[0]) + Fill(texts[1..], values[1..]);
      ContainsInSuffix(texts[0] + values[0], Fill(texts[1..], values[1..]), values[k]);
    }
  }

  /** A prompt: the persona, then the filled template. */
  function Prompt(texts: seq<string>, values: seq<string>): string
    requires |texts| == |values| + 1
  {
    SystemRole + Fill(texts, values)
  }

  /** A prompt starts with the persona and shows every value put into it. */
  lemma PromptShows(texts: seq<string>, values: seq<string>)
    requires |texts| == |values| + 1
    ensures IsPrefix(SystemRole, Prompt(texts, values))
    ensures forall k :: 0 <= k < |values| ==> Contains(Prompt(texts, values), values[k])
  {
    forall k | 0 <= k < |values| ensures Contains(Prompt(texts, values), values[k]) {
      FillShows(texts, values, k);
      ContainsInSuffix(SystemRole, Fill(texts, values), values[k]);
    }
  }

  /** A prompt with four values shows each of them. */
  lemma PromptShowsFour(texts: seq<string>, a: string, b: string, c: string, d: string)
    requires |texts| == 5
    ensures var r := Prompt(texts, [a, b, c, d]);
      IsPrefix(SystemRole, r) && Contains(r, a) && Contains(r, b) && Contains(r, c) && Contains(r, d)
  {
    var values := [a, b, c, d];
    PromptShows(texts, values);
    assert values[0] == a && values[1] == b && values[2] == c && values[3] == d;
  }

  /** Every part joined shows in the join. */
  lemma {:induction false} JoinShows(parts: seq<string>, sep: string, k: nat)
    requires k < |parts|
    ensures Contains(Join(parts, sep), parts[k])
    decreases |parts|
  {
    var s := Join(parts, sep);
    if |parts| == 1 {
      ContainsSelf(parts[0]);
    } else if k == 0 {
      assert s[..|parts[0]|] == parts[0];
    } else {
      JoinShows(parts[1..], sep, k - 1);
      assert s == (parts[0] + sep) + Join(parts[1..], sep);
      ContainsInSuffix(parts[0] + sep, Join(parts[1..], sep), parts[k]);
    }
  }

  /** With a non-empty separator, a join is empty only for no parts or one empty part. */
  lemma JoinBlank(parts: seq<string>, sep: string)
    requires sep != []
    ensures Join(parts, sep) == [] <==> parts == [] || parts == [[]]
  {
    if |parts| >= 2 {
      assert |Join(parts, sep)| >= |sep|;
    }
  }

  /** `xs.slice(0, n).join('、') || fallback` */
  function ShownList(xs: seq<string>, n: nat, fallback: string): string
  {
    var joined := Join(Take(xs, n), ListSep);
    if joined == [] then fallback else joined
  }

  /**
   * The list shows each of its first `n` items, and is the fallback
   * exactly when those items join to nothing: none at all, or one empty.
   */
  lemma ShownListSpec(xs: seq<string>, n: nat, fallback: string)
    ensures forall k :: 0 <= k < |xs| && k < n ==> Contains(ShownList(xs, n, fallback), xs[k])
    ensures Take(xs, n) == [] || Take(xs, n) == [[]] ==> ShownList(xs, n, fallback) == fallback
    ensures Take(xs, n) != [] && Take(xs, n) != [[]] ==> ShownList(xs, n, fallback) == Join(Take(xs, n), ListSep)
  {
    var t := Take(xs, n);
    JoinBlank(t, ListSep);
    forall k | 0 <= k < |xs| && k < n ensures Contains(ShownList(xs, n, fallback), xs[k]) {
      if t == [[]] {
        assert xs[k] == t[k] == [];
        assert IsPrefix([], ShownList(xs, n, fallback));
      } else {
        JoinShows(t, ListSep, k);
      }
    }
  }

  /** What an empty list reads as. */
  const NoneYet: string := "暂无"
  const NoData: string := "暂无数据"
  const Unknown: string := "未知"
  const NotSet: string := "未设置"
  /** What the review prompt says when the user has no skills. */
  const NoUserSkills: string := "（用户未设置技能，请提示用户在个人中心添加技能以获得更准确的分析）"
  /** What the skill prompt says without graph data. */
  const NoGraphData: string := "（无图谱数据）"

  /** `buildLearningPlanPrompt`: up to 12 matched and 12 missing skills. */
  function LearningPlanPrompt(targetPosition: string, matchRate: string, matchedSkills: seq<string>,
                              missingSkills: seq<string>): string
  {
    Prompt(LearningPlanTexts, [targetPosition, matchRate, ShownList(matchedSkills, 12, NoneYet),
                               ShownList(missingSkills, 12, NoneYet)])
  }

  /**
   * The learning-plan prompt starts with the persona and shows the target
   * position, the match rate, the first 12 skills of each list, and
   * `暂无` for an empty list.
   */
  lemma LearningPlanShows(targetPosition: string, matchRate: string, matchedSkills: seq<string>,
                          missingSkills: seq<string>)
    ensures var r := LearningPlanPrompt(targetPosition, matchRate, matchedSkills, missingSkills);
      && IsPrefix(SystemRole, r) && Contains(r, targetPosition) && Contains(r, matchRate)
      && (forall k :: 0 <= k < |matchedSkills| && k < 12 ==> Contains(r, matchedSkills[k]))
      && (forall k :: 0 <= k < |missingSkills| && k < 12 ==> Contains(r, missingSkills[k]))
      && (matchedSkills == [] || missingSkills == [] ==> Contains(r, NoneYet))
  {
    var matched, missing := ShownList(matchedSkills, 12, NoneYet), ShownList(missingSkills, 12, NoneYet);
    var values := [targetPosition, matchRate, matched, missing];
    PromptShowsFour(LearningPlanTexts, targetPosition, matchRate, matched, missing);
    ShownListSpec(matchedSkills, 12, NoneYet);
    ShownListSpec(missingSkills, 12, NoneYet);
    ShowsAll(Prompt(LearningPlanTexts, values), matched, matchedSkills, 12);
    ShowsAll(Prompt(LearningPlanTexts, values), missing, missingSkills, 12);
  }

  /** What a shown list shows, a prompt that shows the list shows too. */
  lemma ShowsAll(r: string, shown: string, xs: seq<string>, n: nat)
    requires Contains(r, shown)
    requires forall k :: 0 <= k < |xs| && k < n ==> Contains(shown, xs[k])
    ensures forall k :: 0 <= k < |xs| && k < n ==> Contains(r, xs[k])
  {
    forall k | 0 <= k < |xs| && k < n ensures Contains(r, xs[k]) {
      ContainsTrans(r, shown, xs[k]);
    }
  }

  /** An occurrence has a position. */
  lemma {:induction false} ContainsIndex(s: string, t: string) returns (i: nat)
    requires Contains(s, t)
    ensures i + |t| <= |s| && s[i..i + |t|] == t
    decreases |s|
  {
    if IsPrefix(t, s) {
      i := 0;
    } else {
      var j := ContainsIndex(s[1..], t);
      i := j + 1;
      assert s[1..][j..j + |t|] == s[i..i + |t|];
    }
  }

  /** Containment is transitive. */
  lemma ContainsTrans(a: string, b: string, c: string)
    requires Contains(a, b) && Contains(b, c)
    ensures Contains(a, c)
  {
    var i := ContainsIndex(a, b);
    var j := ContainsIndex(b, c);
    forall k | 0 <= k < |c| ensures a[i + j + k] == c[k] {
      assert a[i..i + |b|][j + k] == b[j + k];
      assert b[j..j + |c|][k] == c[k];
    }
    assert a[i + j..i + j + |c|] == c;
    ContainsAtIndex(a, i + j, c);
  }

  /** `buildInterpretationPrompt`: up to 8 matched and 8 missing skills. */
  function InterpretationPrompt(targetPosition: string, matchRate: string, matchedSkills: seq<string>,
                                missingSkills: seq<string>): string
  {
    Prompt(InterpretationTexts, [targetPosition, matchRate, ShownList(matchedSkills, 8, NoneYet),
                                 ShownList(missingSkills, 8, NoneYet)])
  }

  /**
   * The interpretation prompt starts with the persona and shows the target
   * position, the match rate, the first 8 skills of each list, and `暂无`
   * for an empty list.
   */
  lemma InterpretationShows(targetPosition: string, matchRate: string, matchedSkills: seq<string>,
                            missingSkills: seq<string>)
    ensures var r := InterpretationPrompt(targetPosition, matchRate, matchedSkills, missingSkills);
      && IsPrefix(SystemRole, r) && Contains(r, targetPosition) && Contains(r, matchRate)
      && (forall k :: 0 <= k < |matchedSkills| && k < 8 ==> Contains(r, matchedSkills[k]))
      && (forall k :: 0 <= k < |missingSkills| && k < 8 ==> Contains(r, missingSkills[k]))
      && (matchedSkills == [] || missingSkills == [] ==> Contains(r, NoneYet))
  {
    var matched, missing := ShownList(matchedSkills, 8, NoneYet), ShownList(missingSkills, 8, NoneYet);
    var values := [targetPosition, matchRate, matched, missing];
    PromptShowsFour(InterpretationTexts, targetPosition, matchRate, matched, missing);
    ShownListSpec(matchedSkills, 8, NoneYet);
    ShownListSpec(missingSkills, 8, NoneYet);
    ShowsAll(Prompt(InterpretationTexts, values), matched, matchedSkills, 8);
    ShowsAll(Prompt(InterpretationTexts, values), missing, missingSkills, 8);
  }

  /** The job's details in the review prompt. */
  datatype JobFacts = JobFacts(jobTitle: string, company: string, city: string, salaryRange: string,
                               experience: string, education: string)

  /** The user's skills as the review prompt shows them: all of them, or a hint to add some. */
  function UserSkillsText(userSkills: seq<string>): string
  {
    if |userSkills| > 0 then Join(userSkills, ListSep) else NoUserSkills
  }

  /** `buildJobReviewPrompt`: up to 10 job skills, the first 300 characters of the description, every user skill. */
  function JobReviewPrompt(job: JobFacts, jobSkills: seq<string>, jobDocument: string, userSkills: seq<string>): string
  {
    Prompt(JobReviewTexts, [job.jobTitle, job.company, job.city, job.salaryRange, job.experience, job.education,
                            ShownList(jobSkills, 10, Unknown), Take(jobDocument, 300), UserSkillsText(userSkills)])
  }

  /**
   * The review prompt starts with the persona and shows the job's title,
   * company and city, the first 10 job skills (`未知` when there are
   * none), the description cut to 300 characters, and every one of the
   * user's skills (or the hint when there are none).
   */
  lemma JobReviewShows(job: JobFacts, jobSkills: seq<string>, jobDocument: string, userSkills: seq<string>)
    ensures var r := JobReviewPrompt(job, jobSkills, jobDocument, userSkills);
      && IsPrefix(SystemRole, r)
      && Contains(r, job.jobTitle) && Contains(r, job.company) && Contains(r, job.city)
      && (forall k :: 0 <= k < |jobSkills| && k < 10 ==> Contains(r, jobSkills[k]))
      && (jobSkills == [] ==> Contains(r, Unknown))
      && Contains(r, Take(jobDocument, 300)) && |Take(jobDocument, 300)| == (if |jobDocument| < 300 then |jobDocument| else 300)
      && (forall k :: 0 <= k < |userSkills| ==> Contains(r, userSkills[k]))
      && (userSkills == [] ==> Contains(r, NoUserSkills))
  {
    var jSkills, uSkills := ShownList(jobSkills, 10, Unknown), UserSkillsText(userSkills);
    var values := [job.jobTitle, job.company, job.city, job.salaryRange, job.experience, job.education,
                   jSkills, Take(jobDocument, 300), uSkills];
    PromptShows(JobReviewTexts, values);
    assert values[0] == job.jobTitle && values[1] == job.company && values[2] == job.city;
    assert values[6] == jSkills && values[7] == Take(jobDocument, 300) && values[8] == uSkills;
    ShownListSpec(jobSkills, 10, Unknown);
    var r := Prompt(JobReviewTexts, values);
    ShowsAll(r, jSkills, jobSkills, 10);
    if userSkills != [] {
      forall k | 0 <= k < |userSkills| ensures Contains(uSkills, userSkills[k]) {
        JoinShows(userSkills, ListSep, k);
      }
      ShowsAll(r, uSkills, userSkills, |userSkills|);
    }
  }

  /** `${n}` for an integer. */
  function IntText(n: int): string
  {
    if n < 0 then "-" + NatToString(-n) else NatToString(n)
  }

  /** `${avgSalary}`: a missing number reads `undefined`. */
  function NumberText(x: Option<string>): string
  {
    if x.None? then "undefined" else x.value
  }

  /** The market line of the skill prompt: graph data when the job count is there and not zero. */
  function MarketData(jobCount: Option<int>, avgSalary: Option<string>): string
  {
    if jobCount.Some? && jobCount.value != 0
    then "图谱数据：" + IntText(jobCount.value) + " 个相关岗位，平均薪资 " + NumberText(avgSalary) + "K"
    else NoGraphData
  }

  /** The market line shows the job count when it is there and not zero, else it is the no-data note. */
  lemma MarketDataShows(jobCount: Option<int>, avgSalary: Option<string>)
    ensures jobCount.Some? && jobCount.value != 0 ==> Contains(MarketData(jobCount, avgSalary), IntText(jobCount.value))
    ensures jobCount.None? || jobCount.value == 0 ==> MarketData(jobCount, avgSalary) == NoGraphData
  {
    if jobCount.Some? && jobCount.value != 0 {
      var market := MarketData(jobCount, avgSalary);
      var n := IntText(jobCount.value);
      var pre := "图谱数据：";
      assert market == pre + n + (" 个相关岗位，平均薪资 " + NumberText(avgSalary) + "K");
      assert market[|pre|..|pre| + |n|] == n;
      ContainsAtIndex(market, |pre|, n);
    }
  }

  /** `buildSkillIntroPrompt`: up to 6 related skills. */
  function SkillIntroPrompt(skillName: string, category: string, jobCount: Option<int>, avgSalary: Option<string>,
                            relatedSkills: seq<string>): string
  {
    Prompt(SkillIntroTexts, [skillName, category, MarketData(jobCount, avgSalary),
                             ShownList(relatedSkills, 6, NoData)])
  }

  /**
   * The skill prompt starts with the persona and shows the skill, its
   * category, the first 6 related skills (`暂无数据` when there are none),
   * and the job count when it is there and not zero (else the no-data
   * note).
   */
  lemma SkillIntroShows(skillName: string, category: string, jobCount: Option<int>, avgSalary: Option<string>,
                        relatedSkills: seq<string>)
    ensures var r := SkillIntroPrompt(skillName, category, jobCount, avgSalary, relatedSkills);
      && IsPrefix(SystemRole, r) && Contains(r, skillName) && Contains(r, category)
      && (forall k :: 0 <= k < |relatedSkills| && k < 6 ==> Contains(r, relatedSkills[k]))
      && (relatedSkills == [] ==> Contains(r, NoData))
      && (jobCount.Some? && jobCount.value != 0 ==> Contains(r, IntText(jobCount.value)))
      && (jobCount.None? || jobCount.value == 0 ==> Contains(r, NoGraphData))
  {
    var market, related := MarketData(jobCount, avgSalary), ShownList(relatedSkills, 6, NoData);
    var values := [skillName, category, market, related];
    PromptShowsFour(SkillIntroTexts, skillName, category, market, related);
    ShownListSpec(relatedSkills, 6, NoData);
    var r := Prompt(SkillIntroTexts, values);
    ShowsAll(r, related, relatedSkills, 6);
    MarketDataShows(jobCount, avgSalary);
    if jobCount.Some? && jobCount.value != 0 {
      ContainsTrans(r, market, IntText(jobCount.value));
    }
  }

  /** The level names of the diagnosis prompt, from level 1 to level 5. */
  const LevelNames: seq<string> := ["入门", "基础", "熟练", "精通", "专家"]

  /** `['入门', …, '专家'][level - 1] || '未知'` */
  function LevelName(level: int): string
  {
    if 1 <= level <= 5 then LevelNames[level - 1] else Unknown
  }

  /** Levels 1 to 5 have their own names, in order; every other level reads `未知`. */
  lemma LevelNameSpec(level: int)
    ensures LevelName(level) != Unknown <==> 1 <= level <= 5
    ensures LevelName(level) in LevelNames <==> 1 <= level <= 5
    ensures LevelName(1) == "入门" && LevelName(5) == "专家"
  {
    assert Unknown !in LevelNames;
  }

  /** A skill of the user's profile with its level. */
  datatype LeveledSkill = LeveledSkill(name: string, level: int)

  /** `${s.name}（${level name}）` */
  function SkillEntry(s: LeveledSkill): string
  {
    s.name + "（" + LevelName(s.level) + "）"
  }

  function SkillEntries(skills: seq<LeveledSkill>): (r: seq<string>)
    ensures |r| == |skills|
    ensures forall k :: 0 <= k < |skills| ==> r[k] == SkillEntry(skills[k])
  {
    seq(|skills|, k requires 0 <= k < |skills| => SkillEntry(skills[k]))
  }

  /** `期望城市：…` when cities are given, else nothing. */
  function CityInfo(expectCities: Option<seq<string>>): string
  {
    if expectCities.Some? && |expectCities.value| > 0 then "期望城市：" + Join(expectCities.value, ListSep) else []
  }

  /** `期望薪资：…K` when a salary is given and not zero, else nothing. */
  function SalaryInfo(expectSalary: Option<int>): string
  {
    if expectSalary.Some? && expectSalary.value != 0 then "期望薪资：" + IntText(expectSalary.value) + "K" else []
  }

  /** `buildDiagnosisPrompt`: every skill with its level name, then the cities and the salary when given. */
  function DiagnosisPrompt(skills: seq<LeveledSkill>, expectCities: Option<seq<string>>, expectSalary: Option<int>): string
  {
    var skillList := Join(SkillEntries(skills), ListSep);
    Prompt(DiagnosisTexts, [if skillList == [] then NotSet else skillList, CityInfo(expectCities), SalaryInfo(expectSalary)])
  }

  /**
   * The diagnosis prompt starts with the persona, shows every skill with
   * its level name (`未设置` when there are none), and every expected city.
   */
  lemma DiagnosisShows(skills: seq<LeveledSkill>, expectCities: Option<seq<string>>, expectSalary: Option<int>)
    ensures var r := DiagnosisPrompt(skills, expectCities, expectSalary);
      && IsPrefix(SystemRole, r)
      && (forall k :: 0 <= k < |skills| ==> Contains(r, SkillEntry(skills[k])))
      && (skills == [] ==> Contains(r, NotSet))
      && (expectCities.Some? ==> forall k :: 0 <= k < |expectCities.value| ==> Contains(r, expectCities.value[k]))
  {
    var entries := SkillEntries(skills);
    var skillList := Join(entries, ListSep);
    var shown := if skillList == [] then NotSet else skillList;
    var cities := CityInfo(expectCities);
    var values := [shown, cities, SalaryInfo(expectSalary)];
    PromptShows(DiagnosisTexts, values);
    assert values[0] == shown && values[1] == cities;
    var r := Prompt(DiagnosisTexts, values);
    forall k | 0 <= k < |skills| ensures Contains(r, SkillEntry(skills[k])) {
      JoinShows(entries, ListSep, k);
      assert skillList != [] by {
        assert |SkillEntry(skills[k])| > 0;
        ContainsLength(skillList, SkillEntry(skills[k]));
      }
      ContainsTrans(r, shown, entries[k]);
    }
    if expectCities.Some? && |expectCities.value| > 0 {
      var cs := expectCities.value;
      var pre := "期望城市：";
      forall k | 0 <= k < |cs| ensures Contains(r, cs[k]) {
        JoinShows(cs, ListSep, k);
        ContainsInSuffix(pre, Join(cs, ListSep), cs[k]);
        ContainsTrans(r, cities, cs[k]);
      }
    }
  }
}
