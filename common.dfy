/** The helpers of web/common.py: escaping of non-printable bytes, the HTML
    formatting of a hex dump, and the scratch directory context manager. */
module Common {
  import opened PyStr

  /** Python 2's `string.printable`: digits, ascii letters, punctuation and
      white space, which are exactly the 95 characters from space to tilde
      together with the five control characters from tab to carriage return
      (100 characters). */
  predicate IsPrintable(c: char)
  {
    (' ' <= c <= '~') || ('\t' <= c <= '\r')
  }

  const HEX_DIGITS: string := "0123456789abcdef"

  /** A Python 2 `str`: every character is one byte. */
  predicate IsByteString(s: string)
  {
    forall i :: 0 <= i < |s| ==> s[i] as int < 256
  }

  predicate AllPrintable(s: string)
  {
    forall i :: 0 <= i < |s| ==> IsPrintable(s[i])
  }

  /** What `string_clean_hex` makes of one byte: itself if printable, else
      a backslash, an `x` and its two lower-case hex digits (`c.encode('hex')`). */
  function EscapeByte(c: char): (r: string)
    requires c as int < 256
    ensures IsPrintable(c) ==> r == [c]
    ensures !IsPrintable(c) ==>
      && |r| == 4 && r[..2] == "\\x" && r[2] in HEX_DIGITS && r[3] in HEX_DIGITS
      && 16 * HexValue(r[2]) + HexValue(r[3]) == c as int
    ensures AllPrintable(r)
  {
    PrintableFacts();
    if IsPrintable(c) then [c]
    else "\\x" + [HEX_DIGITS[c as int / 16], HEX_DIGITS[c as int % 16]]
  }

  /** The value of a lower-case hex digit. */
  function HexValue(d: char): nat
  {
    if '0' <= d <= '9' then d as int - '0' as int
    else if 'a' <= d <= 'f' then d as int - 'a' as int + 10
    else 0
  }

  lemma PrintableFacts()
    ensures forall k :: 0 <= k < 16 ==> IsPrintable(HEX_DIGITS[k]) && HexValue(HEX_DIGITS[k]) == k
  {
  }

  /** The specification of `string_clean_hex`: the escapes of the bytes, in order. */
  function CleanHex(s: string): string
    requires IsByteString(s)
  {
    if s == [] then [] else CleanHex(s[..|s| - 1]) + EscapeByte(s[|s| - 1])
  }

  /** string_clean_hex(line) */
  method StringCleanHex(line: string) returns (newLine: string)
    requires IsByteString(line)
    ensures newLine == CleanHex(line)
  {
    newLine := "";
    var i := 0;
    while i < |line|
      invariant 0 <= i <= |line|
      invariant newLine == CleanHex(line[..i])
    {
      assert line[..i + 1][..i] == line[..i];
      newLine := newLine + EscapeByte(line[i]);
      i := i + 1;
    }
    assert line[..i] == line;
  }

  /** Escaping distributes over concatenation, so bytes keep their order. */
  lemma {:induction false} CleanHexAppend(a: string, b: string)
    requires IsByteString(a) && IsByteString(b)
    ensures IsByteString(a + b)
    ensures CleanHex(a + b) == CleanHex(a) + CleanHex(b)
    decreases |b|
  {
    if b != [] {
      var b' := b[..|b| - 1];
      assert (a + b)[..|a + b| - 1] == a + b';
      CleanHexAppend(a, b');
    } else {
      assert a + b == a;
    }
  }

  /** Every character of the result is printable. */
  lemma {:induction false} CleanHexPrintable(s: string)
    requires IsByteString(s)
    ensures AllPrintable(CleanHex(s))
    ensures IsByteString(CleanHex(s))
  {
    PrintableFacts();
    if s != [] {
      CleanHexPrintable(s[..|s| - 1]);
    }
  }

  /** Printable text passes through unchanged. */
  lemma {:induction false} CleanHexKeepsPrintable(s: string)
    requires IsByteString(s) && AllPrintable(s)
    ensures CleanHex(s) == s
  {
    if s != [] {
      var init, last := s[..|s| - 1], s[|s| - 1];
      assert AllPrintable(init) by {
        forall i | 0 <= i < |init| ensures IsPrintable(init[i]) {
          assert init[i] == s[i];
        }
      }
      CleanHexKeepsPrintable(init);
      assert EscapeByte(last) == [last];
      assert s == init + [last];
    }
  }

  /** Applying `string_clean_hex` twice gives what applying it once gives. */
  lemma CleanHexIdempotent(s: string)
    requires IsByteString(s)
    ensures IsByteString(CleanHex(s))
    ensures CleanHex(CleanHex(s)) == CleanHex(s)
  {
    CleanHexPrintable(s);
    CleanHexKeepsPrintable(CleanHex(s));
  }

  // ---------------------------------------------------------------------
  // hex_dump

  /** `s.replace(target, repl)` for a one-character `target`. */
  function Replace(s: string, target: char, repl: string): (r: string)
    ensures |s| == 1 ==> r == if s[0] == target then repl else s
    ensures target !in repl ==> target !in r
    ensures forall d :: d != target && d !in s && d !in repl ==> d !in r
  {
    if s == [] then []
    else (if s[0] == target then repl else [s[0]]) + Replace(s[1..], target, repl)
  }

  /** Replacing works piece by piece. */
  lemma {:induction false} ReplaceAppend(a: string, b: string, target: char, repl: string)
    ensures Replace(a + b, target, repl) == Replace(a, target, repl) + Replace(b, target, repl)
  {
    if a == [] {
      assert a + b == b;
    } else {
      assert (a + b)[0] == a[0] && (a + b)[1..] == a[1..] + b;
      ReplaceAppend(a[1..], b, target, repl);
    }
  }

  /** Text without the target is left alone. */
  lemma {:induction false} ReplaceAbsent(s: string, target: char, repl: string)
    requires target !in s
    ensures Replace(s, target, repl) == s
  {
    if s != [] {
      ReplaceAbsent(s[1..], target, repl);
    }
  }

  /** The HTML escape of one character of the ascii column. */
  function HtmlChar(c: char): string
  {
    if c == '"' then "&quot;" else if c == '<' then "&lt;" else if c == '>' then "&gt;" else [c]
  }

  /** A single left-to-right pass escaping each character of the column. */
  function HtmlEscape(s: string): (r: string)
    ensures '"' !in r && '<' !in r && '>' !in r
    ensures |r| >= |s|
  {
    if s == [] then [] else HtmlChar(s[0]) + HtmlEscape(s[1..])
  }

  /** Text without quotes and angle brackets passes the escape unchanged. */
  lemma {:induction false} HtmlEscapeKeeps(s: string)
    requires '"' !in s && '<' !in s && '>' !in s
    ensures HtmlEscape(s) == s
  {
    if s != [] {
      HtmlEscapeKeeps(s[1..]);
    }
  }

  /** The three replacements applied to the ascii column. */
  function EscapeAscii(s: string): (r: string)
    ensures '<' !in r && '>' !in r
  {
    Replace(Replace(Replace(s, '"', "&quot;"), '<', "&lt;"), '>', "&gt;")
  }

  /** One more character in front of the column. */
  lemma EscapeAsciiCons(c: char, t: string)
    ensures EscapeAscii([c] + t) == HtmlChar(c) + EscapeAscii(t)
  {
    hide Replace;
    var q, l, g := "&quot;", "&lt;", "&gt;";
    ReplaceAppend([c], t, '"', q);
    var a1, t1 := Replace([c], '"', q), Replace(t, '"', q);
    ReplaceAppend(a1, t1, '<', l);
    var a2, t2 := Replace(a1, '<', l), Replace(t1, '<', l);
    ReplaceAppend(a2, t2, '>', g);
    if c == '"' {
      ReplaceAbsent(q, '<', l);
      ReplaceAbsent(q, '>', g);
    } else if c == '<' {
      ReplaceAbsent(l, '>', g);
    }
  }

  /** The three passes of `replace` are one pass of per-character escapes:
      `"` becomes `&quot;`, `<` becomes `&lt;`, `>` becomes `&gt;`, and every
      other character is kept, in order. */
  lemma {:induction false} EscapeAsciiPerChar(s: string)
    ensures EscapeAscii(s) == HtmlEscape(s)
  {
    if s != [] {
      assert s == [s[0]] + s[1..];
      EscapeAsciiCons(s[0], s[1..]);
      EscapeAsciiPerChar(s[1..]);
    }
  }

  /** The three fixed-width columns of one line of `hexdump -C` style output. */
  datatype HexRow = HexRow(offset: string, hex: string, ascii: string)

  /** A line longer than 9 characters yields a row; shorter lines yield none. */
  function RowOf(line: string): (r: HexRow)
    requires |line| > 9
    ensures r.offset == line[..8]
    ensures r.hex == line[9..if |line| < 58 then |line| else 58]
    ensures r.ascii == HtmlEscape(line[if |line| < 58 then |line| else 58..if |line| < 78 then |line| else 78])
    ensures |line| <= 58 ==> r.ascii == []
  {
    EscapeAsciiPerChar(Slice(line, 58, 78));
    HexRow(Slice(line, 0, 8), Slice(line, 9, 58), EscapeAscii(Slice(line, 58, 78)))
  }

  /** The rows `hex_dump` emits for the given lines, in order. */
  function HexRows(lines: seq<string>): (rows: seq<HexRow>)
    ensures |rows| <= |lines|
  {
    if lines == [] then []
    else
      var line := lines[|lines| - 1];
      HexRows(lines[..|lines| - 1]) + (if |line| > 9 then [RowOf(line)] else [])
  }

  /** The number of lines longer than 9 characters. */
  function LongLines(lines: seq<string>): nat
  {
    if lines == [] then 0
    else LongLines(lines[..|lines| - 1]) + (if |lines[|lines| - 1]| > 9 then 1 else 0)
  }

  /** Rows follow the lines' order: the rows of two runs of lines are the
      rows of the first run followed by those of the second. */
  lemma {:induction false} HexRowsAppend(a: seq<string>, b: seq<string>)
    ensures HexRows(a + b) == HexRows(a) + HexRows(b)
    decreases |b|
  {
    if b == [] {
      assert a + b == a;
    } else {
      var init := b[..|b| - 1];
      assert (a + b)[..|a + b| - 1] == a + init;
      HexRowsAppend(a, init);
    }
  }

  /** One row per line longer than 9 characters. */
  lemma {:induction false} HexRowsCount(lines: seq<string>)
    ensures |HexRows(lines)| == LongLines(lines)
  {
    if lines != [] {
      HexRowsCount(lines[..|lines| - 1]);
    }
  }

  /** A line of 9 characters or fewer contributes nothing. */
  lemma ShortLineSkipped(lines: seq<string>, line: string)
    requires |line| <= 9
    ensures HexRows(lines + [line]) == HexRows(lines)
  {
    assert (lines + [line])[..|lines|] == lines;
  }

  /** The HTML of one row: three spans in a div. */
  function RowHtml(r: HexRow): string
  {
    ROW_OPEN + r.offset + HEX_OPEN + r.hex + ASCII_OPEN + r.ascii + ROW_CLOSE
  }

  const ROW_OPEN: string := "<div class=\"row\"><span class=\"text-info mono\">"
  const HEX_OPEN: string := "</span> <span class=\"text-primary mono\">"
  const ASCII_OPEN: string := "</span> <span class=\"text-success mono\">"
  const ROW_CLOSE: string := "</span></div>"

  function Render(rows: seq<HexRow>): string
  {
    if rows == [] then [] else Render(rows[..|rows| - 1]) + RowHtml(rows[|rows| - 1])
  }

  lemma RenderSnoc(rows: seq<HexRow>, r: HexRow)
    ensures Render(rows + [r]) == Render(rows) + RowHtml(r)
  {
    assert (rows + [r])[..|rows|] == rows;
  }

  /** The formatting loop of hex_dump, given the text the shell command printed. */
  method HexDump(hexString: string) returns (html: string)
    ensures html == Render(HexRows(Split(hexString, "\n")))
  {
    html := "";
    var hexRows := Split(hexString, "\n");
    var i := 0;
    while i < |hexRows|
      invariant 0 <= i <= |hexRows|
      invariant html == Render(HexRows(hexRows[..i]))
    {
      var row := hexRows[i];
      assert hexRows[..i + 1][..i] == hexRows[..i];
      if |row| > 9 {
        var offStr := Slice(row, 0, 8);
        var hexStr := Slice(row, 9, 58);
        var ascStr := Slice(row, 58, 78);
        ascStr := Replace(ascStr, '"', "&quot;");
        ascStr := Replace(ascStr, '<', "&lt;");
        ascStr := Replace(ascStr, '>', "&gt;");
        assert HexRow(offStr, hexStr, ascStr) == RowOf(row);
        assert HexRows(hexRows[..i + 1]) == HexRows(hexRows[..i]) + [RowOf(row)];
        RenderSnoc(HexRows(hexRows[..i]), RowOf(row));
        html := html + RowHtml(HexRow(offStr, hexStr, ascStr));
      } else {
        assert HexRows(hexRows[..i + 1]) == HexRows(hexRows[..i]);
      }
      i := i + 1;
    }
    assert hexRows[..i] == hexRows;
  }

  // ---------------------------------------------------------------------
  // temp_dumpdir

  type Bytes = seq<bv8>

  /** The scratch directories on disk: each is a map from file name to contents. */
  class Disk {
    var dirs: map<nat, map<string, Bytes>>
    var next: nat

    ghost predicate Valid()
      reads this
    {
      forall d :: d in dirs ==> d < next
    }

    constructor ()
      ensures Valid() && dirs == map[]
    {
      dirs := map[];
      next := 0;
    }

    /** tempfile.mkdtemp(): a new, empty directory whose name was not in use. */
    method MkdTemp() returns (d: nat)
      requires Valid()
      modifies this
      ensures Valid()
      ensures d !in old(dirs)
      ensures dirs == old(dirs)[d := map[]]
    {
      d := next;
      dirs := dirs[d := map[]];
      next := next + 1;
    }

    /** What code running with the directory leaves in it. */
    method Fill(d: nat, files: map<string, Bytes>)
      requires Valid() && d in dirs
      modifies this
      ensures Valid()
      ensures dirs == old(dirs)[d := files]
    {
      dirs := dirs[d := files];
    }

    /** shutil.rmtree(d) */
    method RmTree(d: nat)
      requires Valid()
      modifies this
      ensures Valid()
      ensures dirs == old(dirs) - {d}
    {
      dirs := dirs - {d};
    }

    /** `with temp_dumpdir() as d: body`, where the body leaves `written` in
        the directory and `bodyRaises` says whether it ends in an exception.
        The directory is removed after a normal exit only: there is no
        try/finally around the yield. */
    method TempDumpDir(written: map<string, Bytes>, bodyRaises: bool) returns (d: nat)
      requires Valid()
      modifies this
      ensures Valid()
      ensures d !in old(dirs)
      ensures dirs == if bodyRaises then old(dirs)[d := written] else old(dirs)
    {
      d := MkdTemp();
      Fill(d, written);
      assert dirs == old(dirs)[d := written];
      if !bodyRaises {
        RmTree(d);
        assert dirs.Keys == old(dirs).Keys;
      }
    }
  }
}
