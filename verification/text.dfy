/**
 * The summary cleaner `clean_html` (main.py:69-74). The markup stripping done by
 * BeautifulSoup is a parameter `getText`; what is modelled is the step after it:
 * split on whitespace, join with single spaces, cut to 300 characters, strip,
 * and append an ellipsis.
 */
module Text {

  /** Maximum number of characters of collapsed text kept in a summary. */
  const SummaryLimit: nat := 300

  /** The marker appended to every non-empty summary. */
  const Ellipsis: string := "..."

  function Min(a: int, b: int): int {
    if a <= b then a else b
  }

  /**
   * The characters Python's `str.split()` and `str.strip()` treat as whitespace
   * when called without arguments, by code point.
   */
  predicate IsSpace(c: char) {
    var n := c as int;
    || (0x09 <= n <= 0x0D)
    || (0x1C <= n <= 0x20)
    || n == 0x85 || n == 0xA0 || n == 0x1680
    || (0x2000 <= n <= 0x200A)
    || n == 0x2028 || n == 0x2029 || n == 0x202F || n == 0x205F || n == 0x3000
  }

  /** A piece of text `str.split()` can return: non-empty, without whitespace. */
  predicate IsWord(w: string) {
    |w| > 0 && forall i :: 0 <= i < |w| ==> !IsSpace(w[i])
  }

  /**
   * The shape of `" ".join(words)` for words as `str.split()` returns them: no
   * whitespace at either end, and every whitespace character is a single
   * plain space between two non-whitespace characters.
   */
  predicate Canonical(c: string) {
    forall i :: 0 <= i < |c| && IsSpace(c[i]) ==>
      c[i] == ' ' && 0 < i && i + 1 < |c| && !IsSpace(c[i + 1])
  }

  /** Drops leading whitespace (Python's `lstrip()`). */
  function DropSpaces(s: string): (t: string)
    ensures |t| <= |s| && t == s[|s| - |t|..]
    ensures forall i :: 0 <= i < |s| - |t| ==> IsSpace(s[i])
    ensures t == [] || !IsSpace(t[0])
    ensures s == [] || !IsSpace(s[0]) ==> t == s
  {
    if s != [] && IsSpace(s[0]) then
      var r := DropSpaces(s[1..]);
      assert s[1..][|s| - 1 - |r|..] == s[|s| - |r|..];
      assert forall i :: 1 <= i < |s| - |r| ==> s[i] == s[1..][i - 1];
      r
    else s
  }

  /** Drops trailing whitespace (Python's `rstrip()`). */
  function DropTrailingSpaces(s: string): (t: string)
    ensures t <= s
    ensures forall i :: |t| <= i < |s| ==> IsSpace(s[i])
    ensures t == [] || !IsSpace(t[|t| - 1])
    ensures s == [] || !IsSpace(s[|s| - 1]) ==> t == s
  {
    if s != [] && IsSpace(s[|s| - 1]) then
      var r := DropTrailingSpaces(s[..|s| - 1]);
      assert forall i :: |r| <= i < |s| - 1 ==> s[i] == s[..|s| - 1][i];
      r
    else s
  }

  /** The longest whitespace-free prefix of `s`. */
  function LeadingWord(s: string): (w: string)
    ensures w <= s
    ensures forall i :: 0 <= i < |w| ==> !IsSpace(w[i])
    ensures |w| == |s| || IsSpace(s[|w|])
  {
    if s != [] && !IsSpace(s[0]) then [s[0]] + LeadingWord(s[1..]) else []
  }

  /** Python's `s.split()`: the maximal whitespace-free runs of `s`, in order. */
  function Split(s: string): (ws: seq<string>)
    ensures forall i :: 0 <= i < |ws| ==> IsWord(ws[i])
    decreases |s|
  {
    if s == [] then []
    else if IsSpace(s[0]) then Split(s[1..])
    else
      var w := LeadingWord(s);
      [w] + Split(s[|w|..])
  }

  /** Python's `" ".join(ws)`. */
  function Join(ws: seq<string>): string {
    if ws == [] then []
    else if |ws| == 1 then ws[0]
    else ws[0] + " " + Join(ws[1..])
  }

  /**
   * Python's `s.strip()`: `s` without the whitespace at either end; what is left
   * neither starts nor ends with whitespace.
   */
  function Strip(s: string): (t: string)
    ensures |t| <= |s|
    ensures t == [] || (!IsSpace(t[0]) && !IsSpace(t[|t| - 1]))
    ensures t == [] ==> forall i :: 0 <= i < |s| ==> IsSpace(s[i])
    ensures s == [] || (!IsSpace(s[0]) && !IsSpace(s[|s| - 1])) ==> t == s
  {
    var d := DropSpaces(s);
    var t := DropTrailingSpaces(d);
    if t == [] then t
    else
      assert t[0] == d[0] && !IsSpace(d[0]);
      t
  }

  /** Whitespace collapse, `" ".join(text.split())`. */
  function Collapse(s: string): (c: string)
    ensures Canonical(c)
    ensures Split(c) == Split(s)
  {
    var ws := Split(s);
    JoinCanonical(ws);
    SplitJoin(ws);
    Join(ws)
  }

  /**
   * The summary `clean_html` returns for markup `html`, with `getText` standing
   * for BeautifulSoup's text extraction.
   */
  function CleanHtml(html: string, getText: string -> string): (r: string)
    ensures html == [] <==> r == []
    ensures html != [] ==> IsSummaryOf(r, Collapse(getText(html)))
    ensures |r| <= SummaryLimit + |Ellipsis|
  {
    if html == [] then []
    else
      var c := Collapse(getText(html));
      var cut := c[..Min(SummaryLimit, |c|)];
      StripCanonicalPrefix(c, |cut|);
      Strip(cut) + Ellipsis
  }

  /**
   * `r` is a summary of the collapsed text `c`: a prefix of `c` of at most 300
   * characters followed by the ellipsis, where the prefix is the first 300
   * characters (or all of `c`) minus at most one trailing space, and has no
   * whitespace at either end.
   */
  ghost predicate IsSummaryOf(r: string, c: string) {
    var n := Min(SummaryLimit, |c|);
    && |r| >= |Ellipsis|
    && r[|r| - |Ellipsis|..] == Ellipsis
    && var body := r[..|r| - |Ellipsis|];
    && body <= c
    && (|body| == n || (|body| + 1 == n && c[|body|] == ' '))
    && (body == [] || (!IsSpace(body[0]) && !IsSpace(body[|body| - 1])))
  }

  // ---------------------------------------------------------------------------
  // Lemmas about splitting and joining

  /** Joining words gives canonical text, non-empty when there is a word. */
  lemma {:induction false} JoinCanonical(ws: seq<string>)
    requires forall i :: 0 <= i < |ws| ==> IsWord(ws[i])
    ensures Canonical(Join(ws))
    ensures ws != [] ==> |Join(ws)| >= |ws[0]| > 0 && Join(ws)[0] == ws[0][0]
  {
    if |ws| > 1 {
      var w, rest := ws[0], Join(ws[1..]);
      JoinCanonical(ws[1..]);
      var c := w + " " + rest;
      assert c == Join(ws);
      assert forall k :: 0 <= k < |w| ==> c[k] == w[k];
      assert forall k :: 0 <= k < |rest| ==> c[|w| + 1 + k] == rest[k];
      forall i | 0 <= i < |c| && IsSpace(c[i])
        ensures c[i] == ' ' && 0 < i && i + 1 < |c| && !IsSpace(c[i + 1])
      {
        if i == |w| {
          assert c[i + 1] == rest[0];
        } else if i > |w| {
          var j := i - |w| - 1;
          assert c[i] == rest[j];
          if j + 1 < |rest| {
            assert c[i + 1] == rest[j + 1];
          }
        }
      }
    }
  }

  /** A whitespace-free prefix followed by whitespace (or nothing) is the leading word. */
  lemma {:induction false} LeadingWordOf(w: string, tail: string)
    requires forall i :: 0 <= i < |w| ==> !IsSpace(w[i])
    requires tail == [] || IsSpace(tail[0])
    ensures LeadingWord(w + tail) == w
  {
    if w != [] {
      assert (w + tail)[0] == w[0];
      assert (w + tail)[1..] == w[1..] + tail;
      LeadingWordOf(w[1..], tail);
    } else {
      assert w + tail == tail;
    }
  }

  /** Whitespace in front of text does not change its words. */
  lemma SplitSkipsSpace(c: char, x: string)
    requires IsSpace(c)
    ensures Split([c] + x) == Split(x)
  {
    assert ([c] + x)[1..] == x;
  }

  /** A word followed by whitespace (or nothing) is the first word of the text. */
  lemma SplitWordFirst(w: string, tail: string)
    requires IsWord(w)
    requires tail == [] || IsSpace(tail[0])
    ensures Split(w + tail) == [w] + Split(tail)
  {
    LeadingWordOf(w, tail);
    assert (w + tail)[0] == w[0];
    assert (w + tail)[|w|..] == tail;
  }

  /** Splitting the join of words gives back the words. */
  lemma {:induction false} SplitJoin(ws: seq<string>)
    requires forall i :: 0 <= i < |ws| ==> IsWord(ws[i])
    ensures Split(Join(ws)) == ws
  {
    if ws == [] {
    } else if |ws| == 1 {
      SplitWordFirst(ws[0], []);
      assert ws[0] + [] == ws[0];
    } else {
      var w, rest := ws[0], Join(ws[1..]);
      assert Join(ws) == w + (" " + rest);
      SplitWordFirst(w, " " + rest);
      SplitSkipsSpace(' ', rest);
      assert [' '] + rest == " " + rest;
      SplitJoin(ws[1..]);
    }
  }

  /**
   * Stripping a prefix of canonical text removes at most one trailing space and
   * never anything at the front.
   */
  lemma StripCanonicalPrefix(c: string, n: nat)
    requires Canonical(c)
    requires n <= |c|
    ensures var t := Strip(c[..n]);
      && t <= c
      && (|t| == n || (|t| + 1 == n && c[|t|] == ' '))
  {
    var p := c[..n];
    if n > 0 {
      assert p[0] == c[0];
      assert !IsSpace(c[0]);
      assert DropSpaces(p) == p;
      assert p[n - 1] == c[n - 1];
      if IsSpace(c[n - 1]) {
        assert c[n - 1] == ' ' && 0 < n - 1;
        assert !IsSpace(c[n - 2]);
        var q := p[..n - 1];
        assert q == c[..n - 1];
        assert q[n - 2] == c[n - 2];
        assert DropTrailingSpaces(q) == q;
        assert DropTrailingSpaces(p) == q;
      } else {
        assert DropTrailingSpaces(p) == p;
      }
    }
  }

  /** Text that already fits the limit is kept whole; only the ellipsis is added. */
  lemma ShortTextKeptWhole(html: string, getText: string -> string)
    requires html != []
    requires |Collapse(getText(html))| <= SummaryLimit
    ensures CleanHtml(html, getText) == Collapse(getText(html)) + Ellipsis
  {
    var c := Collapse(getText(html));
    var r := CleanHtml(html, getText);
    var body := r[..|r| - |Ellipsis|];
    if c != [] {
      assert !IsSpace(c[|c| - 1]);
    }
    assert body == c;
    assert r == body + r[|r| - |Ellipsis|..];
  }
}
