/** The handful of Rust string operations the tool relies on, over `string = seq<char>`:
    `str::split` on one character, `join` with one character, `strip_prefix`,
    `ends_with`, `split_whitespace` and `str::escape_default`. */
module Text {
  import opened Wrappers

  // ---------------------------------------------------------------------------
  // Prefixes and suffixes

  predicate StartsWith(s: string, prefix: string) {
    |prefix| <= |s| && s[..|prefix|] == prefix
  }

  predicate EndsWith(s: string, suffix: string) {
    |suffix| <= |s| && s[|s| - |suffix|..] == suffix
  }

  /** `str::strip_prefix`: the rest of `s` after `prefix`, when `s` starts with it. */
  function StripPrefix(s: string, prefix: string): (r: Option<string>)
    ensures r.Some? <==> StartsWith(s, prefix)
    ensures r.Some? ==> prefix + r.value == s
  {
    if StartsWith(s, prefix) then Some(s[|prefix|..]) else None
  }

  // ---------------------------------------------------------------------------
  // Splitting on, and joining with, one separator character

  /** `str::split(sep)` for a one-character separator: every piece between two
      separators, empty pieces included, so there is always at least one piece. */
  function Split(s: string, sep: char): (r: seq<string>)
    ensures |r| >= 1
    ensures forall i :: 0 <= i < |r| ==> sep !in r[i]
  {
    if |s| == 0 then [""]
    else
      var rest := Split(s[1..], sep);
      if s[0] == sep then [""] + rest
      else [[s[0]] + rest[0]] + rest[1..]
  }

  /** `join` with a one-character separator. */
  function Join(parts: seq<string>, sep: char): string {
    if |parts| == 0 then ""
    else if |parts| == 1 then parts[0]
    else parts[0] + [sep] + Join(parts[1..], sep)
  }

  /** Joining the pieces again gives back the split string. */
  lemma {:induction false} JoinSplit(s: string, sep: char)
    ensures Join(Split(s, sep), sep) == s
  {
    if |s| > 0 {
      var rest := Split(s[1..], sep);
      JoinSplit(s[1..], sep);
      if s[0] == sep {
        assert Split(s, sep) == [""] + rest;
        assert ([""] + rest)[1..] == rest;
      } else {
        var r := Split(s, sep);
        assert r == [[s[0]] + rest[0]] + rest[1..];
        if |rest| == 1 {
          assert Join(r, sep) == [s[0]] + rest[0];
        } else {
          assert r[1..] == rest[1..];
          assert Join(rest, sep) == rest[0] + [sep] + Join(rest[1..], sep);
          assert Join(r, sep) == [s[0]] + rest[0] + [sep] + Join(rest[1..], sep);
        }
        assert s == [s[0]] + s[1..];
      }
    }
  }

  lemma {:induction false} SplitWithoutSeparator(p: string, sep: char)
    requires sep !in p
    ensures Split(p, sep) == [p]
  {
    if |p| > 0 {
      SplitWithoutSeparator(p[1..], sep);
      assert [p[0]] + p[1..] == p;
    }
  }

  lemma {:induction false} SplitAtSeparator(p: string, sep: char, t: string)
    requires sep !in p
    ensures Split(p + [sep] + t, sep) == [p] + Split(t, sep)
  {
    var s := p + [sep] + t;
    if |p| == 0 {
      assert s == [sep] + t;
      assert s[1..] == t;
    } else {
      assert s[1..] == p[1..] + [sep] + t;
      SplitAtSeparator(p[1..], sep, t);
      assert [p[0]] + p[1..] == p;
    }
  }

  /** Splitting a join of separator-free pieces gives back the pieces. */
  lemma {:induction false} SplitJoin(parts: seq<string>, sep: char)
    requires |parts| >= 1
    requires forall i :: 0 <= i < |parts| ==> sep !in parts[i]
    ensures Split(Join(parts, sep), sep) == parts
  {
    if |parts| == 1 {
      SplitWithoutSeparator(parts[0], sep);
    } else {
      SplitJoin(parts[1..], sep);
      SplitAtSeparator(parts[0], sep, Join(parts[1..], sep));
      assert [parts[0]] + parts[1..] == parts;
    }
  }

  /** The pieces of every string of a list, in order. */
  function SplitEach(parts: seq<string>, sep: char): seq<string> {
    if |parts| == 0 then [] else Split(parts[0], sep) + SplitEach(parts[1..], sep)
  }

  lemma SplitEmpty(sep: char)
    ensures Split("", sep) == [""]
  {
  }

  /** One character in front of a string: a separator starts a new piece, any
      other character joins the first piece. */
  lemma SplitCons(c: char, s: string, sep: char)
    ensures Split([c] + s, sep) == if c == sep then [""] + Split(s, sep)
                                   else [[c] + Split(s, sep)[0]] + Split(s, sep)[1..]
  {
    assert ([c] + s)[1..] == s;
  }

  /** A separator cuts a string into the pieces before it and the pieces after it. */
  lemma {:induction false} SplitAround(p: string, sep: char, t: string)
    ensures Split(p + [sep] + t, sep) == Split(p, sep) + Split(t, sep)
  {
    hide Split;
    if |p| == 0 {
      assert p == "" && p + [sep] + t == [sep] + t;
      SplitCons(sep, t, sep);
      SplitEmpty(sep);
    } else {
      var rest := p[1..] + [sep] + t;
      assert p + [sep] + t == [p[0]] + rest;
      assert p == [p[0]] + p[1..];
      SplitAround(p[1..], sep, t);
      SplitCons(p[0], rest, sep);
      SplitCons(p[0], p[1..], sep);
      var front := Split(p[1..], sep);
      assert |front| >= 1;
      assert (front + Split(t, sep))[0] == front[0];
      assert (front + Split(t, sep))[1..] == front[1..] + Split(t, sep);
    }
  }

  /** Splitting a join gives the pieces of each joined string, in order: a string
      that contains the separator falls apart at it. */
  lemma {:induction false} SplitOfJoin(parts: seq<string>, sep: char)
    requires |parts| >= 1
    ensures Split(Join(parts, sep), sep) == SplitEach(parts, sep)
  {
    if |parts| == 1 {
      assert SplitEach(parts, sep) == Split(parts[0], sep) + SplitEach([], sep);
    } else {
      SplitOfJoin(parts[1..], sep);
      SplitAround(parts[0], sep, Join(parts[1..], sep));
    }
  }

  lemma Split2(a: string, b: string, sep: char)
    requires sep !in a && sep !in b
    ensures Split(a + [sep] + b, sep) == [a, b]
  {
    SplitWithoutSeparator(b, sep);
    SplitAtSeparator(a, sep, b);
  }

  lemma Split3(a: string, b: string, c: string, sep: char)
    requires sep !in a && sep !in b && sep !in c
    ensures Split(a + [sep] + b + [sep] + c, sep) == [a, b, c]
  {
    var tail := b + [sep] + c;
    assert a + [sep] + b + [sep] + c == a + [sep] + tail by {
      assert (a + [sep] + b) + [sep] + c == (a + [sep]) + (b + [sep] + c);
    }
    Split2(b, c, sep);
    SplitAtSeparator(a, sep, tail);
    assert [a] + [b, c] == [a, b, c];
  }

  lemma NotInConcat(a: string, b: string, c: char)
    requires c !in a && c !in b
    ensures c !in a + b
  {
    assert forall i :: 0 <= i < |a + b| ==> (a + b)[i] == if i < |a| then a[i] else b[i - |a|];
  }

  // ---------------------------------------------------------------------------
  // split_whitespace

  /** Rust's `char::is_whitespace`: the Unicode White_Space property. */
  predicate IsWhitespace(c: char) {
    var n := c as int;
    || 0x09 <= n <= 0x0D
    || n == 0x20 || n == 0x85 || n == 0xA0 || n == 0x1680
    || 0x2000 <= n <= 0x200A
    || n == 0x2028 || n == 0x2029 || n == 0x202F || n == 0x205F || n == 0x3000
  }

  predicate IsWord(w: string) {
    |w| > 0 && forall i :: 0 <= i < |w| ==> !IsWhitespace(w[i])
  }

  /** Length of the leading run of non-whitespace characters. */
  function WordLength(s: string): (n: nat)
    ensures n <= |s|
    ensures forall i :: 0 <= i < n ==> !IsWhitespace(s[i])
    ensures n < |s| ==> IsWhitespace(s[n])
  {
    if |s| == 0 || IsWhitespace(s[0]) then 0 else 1 + WordLength(s[1..])
  }

  /** `str::split_whitespace`: the maximal whitespace-free runs, in order. */
  function Words(s: string): (r: seq<string>)
    ensures forall i :: 0 <= i < |r| ==> IsWord(r[i])
    decreases |s|
  {
    if |s| == 0 then []
    else if IsWhitespace(s[0]) then Words(s[1..])
    else
      var n := WordLength(s);
      [s[..n]] + Words(s[n..])
  }

  lemma {:induction false} WordsOfWord(w: string, t: string)
    requires IsWord(w)
    requires |t| == 0 || IsWhitespace(t[0])
    ensures Words(w + t) == [w] + Words(t)
  {
    WordLengthOfWord(w, t);
    assert (w + t)[..|w|] == w;
    assert (w + t)[|w|..] == t;
  }

  lemma {:induction false} WordLengthOfWord(w: string, t: string)
    requires forall i :: 0 <= i < |w| ==> !IsWhitespace(w[i])
    requires |t| == 0 || IsWhitespace(t[0])
    ensures WordLength(w + t) == |w|
  {
    if |w| > 0 {
      assert (w + t)[1..] == w[1..] + t;
      WordLengthOfWord(w[1..], t);
    }
  }

  /** Splitting a space-joined list of words on whitespace gives back the words. */
  lemma {:induction false} WordsJoin(words: seq<string>)
    requires forall i :: 0 <= i < |words| ==> IsWord(words[i])
    ensures Words(Join(words, ' ')) == words
  {
    if |words| == 1 {
      WordsOfWord(words[0], "");
      assert words[0] + "" == words[0];
    } else if |words| > 1 {
      var rest := Join(words[1..], ' ');
      JoinCons(words, ' ');
      hide Join, Words;
      WordsJoin(words[1..]);
      WordsOfWord(words[0], [' '] + rest);
      assert ([' '] + rest)[1..] == rest;
      assert [words[0]] + words[1..] == words;
    }
  }

  /** The first part, the separator, then the rest joined. */
  lemma JoinCons(parts: seq<string>, sep: char)
    requires |parts| > 1
    ensures Join(parts, sep) == parts[0] + ([sep] + Join(parts[1..], sep))
  {
    assert parts[0] + [sep] + Join(parts[1..], sep) == parts[0] + ([sep] + Join(parts[1..], sep));
  }

  /** Text made of whitespace only (possibly none). */
  predicate IsBlank(g: string) {
    forall i :: 0 <= i < |g| ==> IsWhitespace(g[i])
  }

  /** Gaps that can separate words: all blank, and non-empty between two words. */
  predicate Separates(gaps: seq<string>) {
    && (forall k :: 0 <= k < |gaps| ==> IsBlank(gaps[k]))
    && (forall k :: 0 < k < |gaps| - 1 ==> gaps[k] != "")
  }

  /** `gaps[0] + words[0] + gaps[1] + ... + words[n-1] + gaps[n]`. */
  function Interleave(words: seq<string>, gaps: seq<string>): string
    requires |gaps| == |words| + 1
  {
    if |words| == 0 then gaps[0] else gaps[0] + words[0] + Interleave(words[1..], gaps[1..])
  }

  /** The whitespace around and between the words of `s`: `s` is its words
      interleaved with these gaps. */
  function Gaps(s: string): (g: seq<string>)
    ensures |g| == |Words(s)| + 1
    ensures Separates(g)
    ensures Interleave(Words(s), g) == s
    ensures |s| > 0 && IsWhitespace(s[0]) ==> g[0] != ""
    decreases |s|
  {
    if |s| == 0 then [""]
    else if IsWhitespace(s[0]) then
      var g := Gaps(s[1..]);
      GapsAfterBlank(s, g);
      [[s[0]] + g[0]] + g[1..]
    else
      var g := Gaps(s[WordLength(s)..]);
      GapsAfterWord(s, g);
      [""] + g
  }

  /** A leading whitespace character joins the first gap of the rest. */
  lemma GapsAfterBlank(s: string, g: seq<string>)
    requires |s| > 0 && IsWhitespace(s[0])
    requires |g| == |Words(s[1..])| + 1 && Separates(g)
    requires Interleave(Words(s[1..]), g) == s[1..]
    ensures var wider := [[s[0]] + g[0]] + g[1..];
            && |wider| == |Words(s)| + 1 && Separates(wider)
            && Interleave(Words(s), wider) == s && wider[0] != ""
  {
    var wider := [[s[0]] + g[0]] + g[1..];
    assert Words(s) == Words(s[1..]);
    hide Words, Interleave, Separates;
    InterleaveWiderGap([s[0]], Words(s[1..]), g);
    SeparatesWiderFirst([s[0]], g);
    assert [s[0]] + s[1..] == s;
    assert |wider[0]| > 0;
  }

  /** Blank text added to the first gap keeps the gaps separating. */
  lemma SeparatesWiderFirst(p: string, g: seq<string>)
    requires |g| > 0 && IsBlank(p) && Separates(g)
    ensures Separates([p + g[0]] + g[1..])
  {
    var wider := [p + g[0]] + g[1..];
    assert IsBlank(g[0]);
    assert IsBlank(wider[0]);
    assert forall k :: 0 < k < |wider| ==> wider[k] == g[k];
  }

  /** A leading word is preceded by an empty gap, and followed by the rest's gaps. */
  lemma GapsAfterWord(s: string, g: seq<string>)
    requires |s| > 0 && !IsWhitespace(s[0])
    requires var t := s[WordLength(s)..];
             && |g| == |Words(t)| + 1 && Separates(g)
             && Interleave(Words(t), g) == t
             && (|t| > 0 && IsWhitespace(t[0]) ==> g[0] != "")
    ensures var padded := [""] + g;
            && |padded| == |Words(s)| + 1 && Separates(padded)
            && Interleave(Words(s), padded) == s
  {
    var n := WordLength(s);
    var padded := [""] + g;
    assert Words(s) == [s[..n]] + Words(s[n..]);
    assert Words(s)[1..] == Words(s[n..]);
    assert padded[1..] == g;
    assert "" + s[..n] + s[n..] == s;
    assert forall k :: 0 < k < |padded| ==> padded[k] == g[k - 1];
    if |g| > 1 {
      assert |s[n..]| > 0;
    }
  }

  /** Widening the leading gap widens the interleaving by the same text. */
  lemma InterleaveWiderGap(p: string, words: seq<string>, gaps: seq<string>)
    requires |gaps| == |words| + 1
    ensures var wider := [p + gaps[0]] + gaps[1..];
            && |wider| == |gaps| && wider[1..] == gaps[1..]
            && Interleave(words, wider) == p + Interleave(words, gaps)
  {
    var wider := [p + gaps[0]] + gaps[1..];
    assert wider[1..] == gaps[1..];
    if |words| > 0 {
      assert p + gaps[0] + words[0] + Interleave(words[1..], gaps[1..])
          == p + (gaps[0] + words[0] + Interleave(words[1..], gaps[1..]));
    }
  }

  /** Leading whitespace contributes no word. */
  lemma {:induction false} WordsAfterBlank(g: string, t: string)
    requires IsBlank(g)
    ensures Words(g + t) == Words(t)
    decreases |g|
  {
    if |g| > 0 {
      assert (g + t)[0] == g[0];
      assert (g + t)[1..] == g[1..] + t;
      WordsAfterBlank(g[1..], t);
    } else {
      assert g + t == t;
    }
  }

  /** Words separated by any separating gaps split back into the same words: with
      `Gaps`, the words of a string are exactly its maximal whitespace-free runs,
      in order. */
  lemma {:induction false} WordsOfInterleave(words: seq<string>, gaps: seq<string>)
    requires |gaps| == |words| + 1
    requires forall i :: 0 <= i < |words| ==> IsWord(words[i])
    requires Separates(gaps)
    ensures Words(Interleave(words, gaps)) == words
    decreases |words|
  {
    if |words| == 0 {
      WordsAfterBlank(gaps[0], "");
      assert gaps[0] + "" == gaps[0];
    } else {
      var t := Interleave(words[1..], gaps[1..]);
      assert Separates(gaps[1..]) by {
        assert forall k :: 0 <= k < |gaps| - 1 ==> gaps[1..][k] == gaps[k + 1];
      }
      WordsOfInterleave(words[1..], gaps[1..]);
      assert |t| == 0 || IsWhitespace(t[0]) by {
        if |words| > 1 {
          assert gaps[1] != "" && IsBlank(gaps[1]);
          assert t == gaps[1] + (words[1] + Interleave(words[2..], gaps[2..]));
          assert t[0] == gaps[1][0];
        } else {
          assert t == gaps[1];
          assert IsBlank(gaps[1]);
        }
      }
      WordsOfWord(words[0], t);
      assert IsBlank(gaps[0]);
      WordsAfterBlank(gaps[0], words[0] + t);
      assert gaps[0] + words[0] + t == gaps[0] + (words[0] + t);
      assert [words[0]] + words[1..] == words;
    }
  }

  /** Words separated by a tab rather than a space are still two words. */
  lemma WordsOfTabSeparated()
    ensures Words("a\tb") == ["a", "b"]
  {
    hide Words;
    assert Interleave(["a", "b"], ["", "\t", ""]) == "a\tb";
    WordsOfInterleave(["a", "b"], ["", "\t", ""]);
  }

  // ---------------------------------------------------------------------------
  // escape_default

  predicate IsPrintableAscii(c: char) {
    0x20 <= c as int <= 0x7E
  }

  function HexDigit(d: nat): char
    requires d < 16
  {
    "0123456789abcdef"[d]
  }

  predicate IsHexDigit(c: char) {
    '0' <= c <= '9' || 'a' <= c <= 'f'
  }

  function HexValue(c: char): nat
    requires IsHexDigit(c)
  {
    if '0' <= c <= '9' then c as int - '0' as int else c as int - 'a' as int + 10
  }

  /** Lower-case hexadecimal digits of `n` without leading zeros. */
  function Hex(n: nat): (r: string)
    ensures |r| >= 1
    ensures forall i :: 0 <= i < |r| ==> IsHexDigit(r[i])
  {
    if n < 16 then [HexDigit(n)] else Hex(n / 16) + [HexDigit(n % 16)]
  }

  function ParseHex(s: string): nat
    requires forall i :: 0 <= i < |s| ==> IsHexDigit(s[i])
  {
    if |s| == 0 then 0 else 16 * ParseHex(s[..|s| - 1]) + HexValue(s[|s| - 1])
  }

  lemma {:induction false} ParseHexOfHex(n: nat)
    ensures ParseHex(Hex(n)) == n
  {
    var h := Hex(n);
    HexValueOfDigit(n % 16);
    if n >= 16 {
      assert h[..|h| - 1] == Hex(n / 16) && h[|h| - 1] == HexDigit(n % 16);
      ParseHexOfHex(n / 16);
    } else {
      assert h == [HexDigit(n)];
    }
  }

  lemma HexValueOfDigit(d: nat)
    requires d < 16
    ensures HexValue(HexDigit(d)) == d
  {
  }

  /** `char::escape_default`. */
  function EscapeChar(c: char): string {
    if c == '\t' then "\\t"
    else if c == '\r' then "\\r"
    else if c == '\n' then "\\n"
    else if c == '\\' || c == '\'' || c == '"' then ['\\', c]
    else if IsPrintableAscii(c) then [c]
    else "\\u{" + Hex(c as int) + "}"
  }

  /** `str::escape_default`: every character escaped in turn. */
  function Escape(s: string): string {
    if |s| == 0 then "" else EscapeChar(s[0]) + Escape(s[1..])
  }

  /** Every string of a list escaped. */
  function EscapeAll(args: seq<string>): (r: seq<string>)
    ensures |r| == |args|
    ensures forall i :: 0 <= i < |args| ==> r[i] == Escape(args[i])
  {
    if |args| == 0 then [] else [Escape(args[0])] + EscapeAll(args[1..])
  }

  /** Length of the leading run of hexadecimal digits. */
  function HexRun(s: string): (n: nat)
    ensures n <= |s|
    ensures forall i :: 0 <= i < n ==> IsHexDigit(s[i])
  {
    if |s| == 0 || !IsHexDigit(s[0]) then 0 else 1 + HexRun(s[1..])
  }

  predicate IsScalarValue(n: int) {
    0 <= n < 0xD800 || 0xE000 <= n < 0x11_0000
  }

  /** Reads back one escape produced by `EscapeChar` at the head of `s`:
      the character and how many characters it took. */
  function UnescapeHead(s: string): (r: Option<(char, nat)>)
    requires |s| > 0
    ensures r.Some? ==> 0 < r.value.1 <= |s|
  {
    if s[0] != '\\' then Some((s[0], 1))
    else if |s| < 2 then None
    else if s[1] == 't' then Some(('\t', 2))
    else if s[1] == 'r' then Some(('\r', 2))
    else if s[1] == 'n' then Some(('\n', 2))
    else if s[1] == '\\' || s[1] == '\'' || s[1] == '"' then Some((s[1], 2))
    else if s[1] == 'u' && |s| >= 3 && s[2] == '{' then
      var n := HexRun(s[3..]);
      if 0 < n && 3 + n < |s| && s[3 + n] == '}' && IsScalarValue(ParseHex(s[3..3 + n])) then
        Some((ParseHex(s[3..3 + n]) as char, 4 + n))
      else None
    else None
  }

  /** Reads back an escaped string; `None` on text `Escape` never produces. */
  function Unescape(s: string): Option<string>
    decreases |s|
  {
    if |s| == 0 then Some("")
    else match UnescapeHead(s)
      case None => None
      case Some((c, k)) =>
        match Unescape(s[k..])
        case None => None
        case Some(rest) => Some([c] + rest)
  }

  lemma UnescapeHeadOfEscapeChar(c: char, t: string)
    ensures UnescapeHead(EscapeChar(c) + t) == Some((c, |EscapeChar(c)|))
  {
    var e := EscapeChar(c);
    var s := e + t;
    if c == '\t' || c == '\r' || c == '\n' || c == '\\' || c == '\'' || c == '"' {
      assert |e| == 2 && e[0] == '\\';
      assert s[0] == '\\' && s[1] == e[1];
    } else if IsPrintableAscii(c) {
      assert e == [c];
      assert s[0] == c;
    } else {
      var h := Hex(c as int);
      assert s == "\\u{" + h + "}" + t;
      assert s[3..] == h + "}" + t;
      assert s[3..] == h + ("}" + t);
      HexRunStopsAt(h, "}" + t);
      assert (h + "}" + t)[..|h|] == h;
      assert s[3..3 + |h|] == h;
      assert s[0] == '\\' && s[1] == 'u' && s[2] == '{';
      assert HexRun(s[3..]) == |h|;
      assert s[3 + |h|] == '}';
      ParseHexOfHex(c as int);
      assert ParseHex(s[3..3 + |h|]) == c as int;
      assert IsScalarValue(c as int);
      assert |e| == 4 + |h|;
    }
  }

  lemma {:induction false} HexRunStopsAt(h: string, t: string)
    requires forall i :: 0 <= i < |h| ==> IsHexDigit(h[i])
    requires |t| > 0 && !IsHexDigit(t[0])
    ensures HexRun(h + t) == |h|
  {
    if |h| > 0 {
      assert (h + t)[1..] == h[1..] + t;
      HexRunStopsAt(h[1..], t);
    } else {
      assert h + t == t;
    }
  }

  /** Unescaping undoes `Escape`. */
  lemma {:induction false} UnescapeEscape(s: string)
    ensures Unescape(Escape(s)) == Some(s)
  {
    if |s| > 0 {
      var e := Escape(s);
      var t := Escape(s[1..]);
      assert e == EscapeChar(s[0]) + t;
      UnescapeHeadOfEscapeChar(s[0], t);
      assert e[|EscapeChar(s[0])|..] == t;
      UnescapeEscape(s[1..]);
      assert [s[0]] + s[1..] == s;
    }
  }

  /** The escape of one character holds a space exactly when the character is one,
      and then is that space alone. */
  lemma EscapeCharSpaces(c: char)
    ensures ' ' in EscapeChar(c) <==> c == ' '
    ensures c == ' ' ==> EscapeChar(c) == " "
  {
    var e := EscapeChar(c);
    if !(c == '\t' || c == '\r' || c == '\n' || c == '\\' || c == '\'' || c == '"' || IsPrintableAscii(c)) {
      var h := Hex(c as int);
      assert e == "\\u{" + h + "}";
      assert forall i :: 0 <= i < |e| ==> e[i] == '\\' || e[i] == 'u' || e[i] == '{' || e[i] == '}' || IsHexDigit(e[i]);
    }
  }

  /** `Escape` never introduces a space and keeps every space of its input: the
      escaped text holds exactly as many spaces. */
  lemma EscapeKeepsSpaces(s: string)
    ensures ' ' in Escape(s) <==> ' ' in s
    ensures multiset(Escape(s))[' '] == multiset(s)[' ']
  {
    EscapeSpaceCount(s);
    assert ' ' in s <==> ' ' in multiset(s);
    assert ' ' in Escape(s) <==> ' ' in multiset(Escape(s));
  }

  /** The count of spaces, one character at a time. */
  lemma {:induction false} EscapeSpaceCount(s: string)
    ensures multiset(Escape(s))[' '] == multiset(s)[' ']
  {
    if |s| > 0 {
      var e, t := EscapeChar(s[0]), s[1..];
      assert Escape(s) == e + Escape(t);
      hide Escape, EscapeChar;
      EscapeSpaceCount(t);
      EscapeCharSpaces(s[0]);
      assert multiset(e)[' '] == if s[0] == ' ' then 1 else 0;
      assert s == [s[0]] + t;
      assert multiset(Escape(s)) == multiset(e) + multiset(Escape(t));
      assert multiset(s) == multiset([s[0]]) + multiset(t);
    }
  }

  /** A string escaped with one character in front of it. */
  lemma EscapeCons(c: char, t: string)
    ensures Escape([c] + t) == EscapeChar(c) + Escape(t)
  {
    assert ([c] + t)[1..] == t;
  }

  /** A separator-free text in front of a string joins its first piece. */
  lemma {:induction false} SplitAfterFree(p: string, sep: char, t: string)
    requires sep !in p
    ensures Split(p + t, sep) == [p + Split(t, sep)[0]] + Split(t, sep)[1..]
  {
    hide Split;
    if |p| > 0 {
      var tail := Split(t, sep);
      assert |tail| >= 1;
      assert p + t == [p[0]] + (p[1..] + t);
      assert p[0] != sep;
      SplitAfterFree(p[1..], sep, t);
      SplitCons(p[0], p[1..] + t, sep);
      assert [p[0]] + (p[1..] + tail[0]) == p + tail[0];
    } else {
      var tail := Split(t, sep);
      assert p + t == t && p + tail[0] == tail[0];
      assert [tail[0]] + tail[1..] == tail;
    }
  }

  /** Escaping keeps every space where it is: the escaped text splits on " " into
      the escapes of the input's pieces. */
  lemma {:induction false} EscapeSplit(s: string)
    ensures Split(Escape(s), ' ') == EscapeAll(Split(s, ' '))
  {
    if |s| > 0 {
      var rest := Split(s[1..], ' ');
      var t := Escape(s[1..]);
      EscapeSplit(s[1..]);
      var e := EscapeChar(s[0]);
      EscapeCharSpaces(s[0]);
      assert Escape(s) == e + t;
      if s[0] == ' ' {
        assert (e + t)[1..] == t;
        assert EscapeAll([""] + rest) == [""] + EscapeAll(rest);
      } else {
        SplitAfterFree(e, ' ', t);
        EscapeCons(s[0], rest[0]);
        assert EscapeAll([[s[0]] + rest[0]] + rest[1..]) == [e + Escape(rest[0])] + EscapeAll(rest[1..]);
      }
    }
  }

  lemma EscapeAllAppend(a: seq<string>, b: seq<string>)
    ensures EscapeAll(a + b) == EscapeAll(a) + EscapeAll(b)
  {
    var l, r := EscapeAll(a + b), EscapeAll(a) + EscapeAll(b);
    hide EscapeAll, Escape;
    forall i | 0 <= i < |l|
      ensures l[i] == r[i]
    {
      if i < |a| {
        assert (a + b)[i] == a[i];
      } else {
        assert (a + b)[i] == b[i - |a|];
      }
    }
  }

  /** Escaping every string of a list keeps every space where it is, list-wide. */
  lemma {:induction false} EscapeSplitEach(args: seq<string>)
    ensures SplitEach(EscapeAll(args), ' ') == EscapeAll(SplitEach(args, ' '))
  {
    if |args| > 0 {
      var e := EscapeAll(args);
      assert e[1..] == EscapeAll(args[1..]);
      EscapeSplitEach(args[1..]);
      EscapeSplit(args[0]);
      EscapeAllAppend(Split(args[0], ' '), SplitEach(args[1..], ' '));
    }
  }
}
