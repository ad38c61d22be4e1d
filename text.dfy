/**
 * The string built-ins of Python and JavaScript that the core relies on, restricted
 * to ASCII: case mapping, whitespace classes, `strip`/`trim`, whitespace `split`,
 * substring tests, `str.find`, Python slicing and decimal rendering of integers.
 */
module Text {

  /** Python's `str.isspace` on ASCII: tab, line feed, vertical tab, form feed,
      carriage return, the four separators 0x1C-0x1F and space. */
  predicate IsPySpace(c: char) {
    (9 <= c as int <= 13) || (28 <= c as int <= 32)
  }

  /** The ASCII characters JavaScript's `String.prototype.trim` removes. */
  predicate IsJsSpace(c: char) {
    (9 <= c as int <= 13) || c == ' '
  }

  lemma JsSpaceIsPySpace(c: char)
    ensures IsJsSpace(c) ==> IsPySpace(c)
  {
  }

  predicate NotPySpace(c: char) {
    !IsPySpace(c)
  }

  function LowerChar(c: char): char {
    if 'A' <= c <= 'Z' then (c as int + 32) as char else c
  }

  function UpperChar(c: char): char {
    if 'a' <= c <= 'z' then (c as int - 32) as char else c
  }

  /** Python's `str.lower` on ASCII. */
  function Lower(s: string): (r: string)
    ensures |r| == |s|
    ensures forall i :: 0 <= i < |s| ==> r[i] == LowerChar(s[i])
  {
    seq(|s|, i requires 0 <= i < |s| => LowerChar(s[i]))
  }

  /** Python's `str.capitalize` on ASCII: first character upper case, the rest lower case. */
  function Capitalize(s: string): (r: string)
    ensures |r| == |s|
    ensures |s| > 0 ==> r[0] == UpperChar(s[0]) && r[1..] == Lower(s[1..])
  {
    if s == [] then [] else [UpperChar(s[0])] + Lower(s[1..])
  }

  /** Python's `str.replace` of one character by another. */
  function ReplaceChar(s: string, from: char, to: char): (r: string)
    ensures |r| == |s|
    ensures forall i :: 0 <= i < |s| ==> r[i] == if s[i] == from then to else s[i]
  {
    seq(|s|, i requires 0 <= i < |s| => if s[i] == from then to else s[i])
  }

  predicate StartsWith(s: string, prefix: string) {
    |prefix| <= |s| && s[..|prefix|] == prefix
  }

  /** Python's `pat in s` and JavaScript's `s.includes(pat)`. */
  predicate Contains(s: string, pat: string) {
    exists i :: 0 <= i <= |s| && StartsWith(s[i..], pat)
  }

  /** Python's `s.find(pat, from)`: the least index at or after `from` where `pat`
      occurs, or -1. */
  function Find(s: string, pat: string, from: nat): (r: int)
    decreases |s| - from
    ensures r == -1 || (from <= r <= |s| && StartsWith(s[r..], pat))
    ensures r == -1 ==> forall k :: from <= k <= |s| ==> !StartsWith(s[k..], pat)
    ensures r != -1 ==> forall k :: from <= k < r ==> !StartsWith(s[k..], pat)
  {
    if from > |s| then -1
    else if StartsWith(s[from..], pat) then from
    else if from == |s| then -1
    else Find(s, pat, from + 1)
  }

  /** `pat in s` holds exactly when `s.find(pat)` does not return -1. */
  lemma ContainsIffFound(s: string, pat: string)
    ensures Contains(s, pat) <==> Find(s, pat, 0) >= 0
  {
    var r := Find(s, pat, 0);
    if r >= 0 {
      assert StartsWith(s[r..], pat);
    }
  }

  /** Number of leading characters of `s` that satisfy `space`. */
  function LeadingCount(s: string, space: char -> bool): (n: nat)
    ensures n <= |s|
    ensures forall k :: 0 <= k < n ==> space(s[k])
    ensures n < |s| ==> !space(s[n])
  {
    if s == [] || !space(s[0]) then 0 else 1 + LeadingCount(s[1..], space)
  }

  /** Number of trailing characters of `s` that satisfy `space`. */
  function TrailingCount(s: string, space: char -> bool): (n: nat)
    ensures n <= |s|
    ensures forall k :: |s| - n <= k < |s| ==> space(s[k])
    ensures n < |s| ==> !space(s[|s| - n - 1])
  {
    if s == [] || !space(s[|s| - 1]) then 0 else 1 + TrailingCount(s[..|s| - 1], space)
  }

  /** Removes the leading and trailing characters that satisfy `space`. */
  function Strip(s: string, space: char -> bool): (r: string)
    ensures |r| <= |s| - LeadingCount(s, space)
    ensures r != [] ==> !space(r[0]) && !space(r[|r| - 1])
    ensures r == s[LeadingCount(s, space)..][..|r|]
    ensures forall k :: 0 <= k < LeadingCount(s, space) ==> space(s[k])
    ensures forall k :: LeadingCount(s, space) + |r| <= k < |s| ==> space(s[k])
  {
    var lead := LeadingCount(s, space);
    var rest := s[lead..];
    var trail := TrailingCount(rest, space);
    assert forall k :: lead + |rest| - trail <= k < |s| ==> s[k] == rest[k - lead];
    rest[..|rest| - trail]
  }

  /** Python's `str.strip()`. */
  function PyStrip(s: string): string {
    Strip(s, IsPySpace)
  }

  /** JavaScript's `String.prototype.trim()`. */
  function JsTrim(s: string): string {
    Strip(s, IsJsSpace)
  }

  /** Python's `str.split()` with no separator: maximal runs of non-whitespace, in order. */
  function PySplit(s: string): (words: seq<string>)
    decreases |s|
    ensures forall w :: w in words ==> w != [] && forall c :: c in w ==> !IsPySpace(c)
  {
    var lead := LeadingCount(s, IsPySpace);
    if lead == |s| then []
    else
      var rest := s[lead..];
      var len := LeadingCount(rest, NotPySpace);
      assert len >= 1;
      assert forall c :: c in rest[..len] ==> !IsPySpace(c);
      [rest[..len]] + PySplit(rest[len..])
  }

  /** The words of `ws`, run together. */
  function Flatten(ws: seq<string>): string {
    if ws == [] then [] else ws[0] + Flatten(ws[1..])
  }

  /** The characters of `s` that are not whitespace, in order. */
  function NonSpace(s: string): string {
    if s == [] then [] else (if IsPySpace(s[0]) then [] else [s[0]]) + NonSpace(s[1..])
  }

  lemma NonSpaceAppend(a: string, b: string)
    ensures NonSpace(a + b) == NonSpace(a) + NonSpace(b)
  {
    if a != [] {
      var head := if IsPySpace(a[0]) then [] else [a[0]];
      assert (a + b)[0] == a[0];
      assert (a + b)[1..] == a[1..] + b;
      NonSpaceAppend(a[1..], b);
      assert NonSpace(a + b) == head + (NonSpace(a[1..]) + NonSpace(b));
      assert NonSpace(a) == head + NonSpace(a[1..]);
    } else {
      assert a + b == b;
    }
  }

  lemma FlattenCons(w: string, ws: seq<string>)
    ensures Flatten([w] + ws) == w + Flatten(ws)
  {
    assert ([w] + ws)[1..] == ws;
  }

  lemma NonSpaceOfBlanks(s: string)
    requires forall k :: 0 <= k < |s| ==> IsPySpace(s[k])
    ensures NonSpace(s) == []
  {
  }

  lemma NonSpaceOfWord(s: string)
    requires forall k :: 0 <= k < |s| ==> !IsPySpace(s[k])
    ensures NonSpace(s) == s
  {
  }

  /** `"".join(s.split())` drops exactly the whitespace of `s`: the words hold every
      other character of `s`, in the order they appear. */
  lemma {:induction false} PySplitKeepsNonSpace(s: string)
    decreases |s|
    ensures Flatten(PySplit(s)) == NonSpace(s)
  {
    if LeadingCount(s, IsPySpace) == |s| {
      NonSpaceOfBlanks(s);
    } else {
      var blank, word, tail := PySplitStep(s);
      FlattenCons(word, PySplit(tail));
      PySplitKeepsNonSpace(tail);
      NonSpaceAppend(blank, word + tail);
      NonSpaceAppend(word, tail);
    }
  }

  /** One step of `split()`: blanks, the first word, and what remains. */
  lemma PySplitStep(s: string) returns (blank: string, word: string, tail: string)
    requires LeadingCount(s, IsPySpace) < |s|
    ensures s == blank + (word + tail) && |tail| < |s|
    ensures NonSpace(blank) == [] && NonSpace(word) == word
    ensures PySplit(s) == [word] + PySplit(tail)
  {
    var lead := LeadingCount(s, IsPySpace);
    var rest := s[lead..];
    var len := LeadingCount(rest, NotPySpace);
    blank, word, tail := s[..lead], rest[..len], rest[len..];
    NonSpaceOfBlanks(blank);
    NonSpaceOfWord(word);
  }

  /** `w` occurs in `s` at index `i` with only whitespace before it and whitespace or
      the end of `s` after it. */
  predicate RunAt(s: string, w: string, i: int) {
    0 <= i <= |s| - |w|
    && (forall k :: 0 <= k < i ==> IsPySpace(s[k]))
    && s[i..i + |w|] == w
    && (i + |w| == |s| || IsPySpace(s[i + |w|]))
  }

  /** A non-empty string without whitespace. */
  predicate IsWord(w: string) {
    w != [] && forall k :: 0 <= k < |w| ==> !IsPySpace(w[k])
  }

  /** The first word of `s.split()` is the first maximal run of non-whitespace: only
      whitespace precedes it, whitespace or the end of `s` follows it, and the other
      words are the split of what follows. No word at all means `s` is blank. */
  lemma PySplitFirstWord(s: string)
    ensures PySplit(s) == [] <==> forall k :: 0 <= k < |s| ==> IsPySpace(s[k])
    ensures PySplit(s) != [] ==>
      var w := PySplit(s)[0];
      exists i :: RunAt(s, w, i) && PySplit(s)[1..] == PySplit(s[i + |w|..])
  {
    if LeadingCount(s, IsPySpace) < |s| {
      var i := PySplitHead(s);
    }
  }

  /** Where the first word of `split()` sits in `s`. */
  lemma PySplitHead(s: string) returns (i: nat)
    requires LeadingCount(s, IsPySpace) < |s|
    ensures PySplit(s) != [] && RunAt(s, PySplit(s)[0], i)
    ensures PySplit(s)[1..] == PySplit(s[i + |PySplit(s)[0]|..])
  {
    i := LeadingCount(s, IsPySpace);
    var rest := s[i..];
    var len := LeadingCount(rest, NotPySpace);
    var w := rest[..len];
    assert PySplit(s) == [w] + PySplit(rest[len..]);
    assert s[i..i + len] == w;
    assert rest[len..] == s[i + len..];
    assert i + len < |s| ==> s[i + len] == rest[len];
  }

  /** `" ".join(words)`. */
  function JoinSpaced(ws: seq<string>): string {
    if |ws| == 0 then [] else if |ws| == 1 then ws[0] else ws[0] + " " + JoinSpaced(ws[1..])
  }

  lemma PySplitWordThen(w: string, t: string)
    requires IsWord(w)
    requires t == [] || IsPySpace(t[0])
    ensures PySplit(w + t) == [w] + PySplit(t)
  {
    var s := w + t;
    assert LeadingCount(s, IsPySpace) == 0;
    assert s[0..] == s;
    var len := LeadingCount(s, NotPySpace);
    assert forall k :: 0 <= k < |w| ==> s[k] == w[k];
    assert t != [] ==> s[|w|] == t[0];
    assert len == |w|;
    assert s[..len] == w;
    assert s[len..] == t;
  }

  lemma PySplitSpaceThen(u: string)
    ensures PySplit(" " + u) == PySplit(u)
  {
    var s := " " + u;
    assert s[1..] == u;
    var lead := LeadingCount(s, IsPySpace);
    assert lead == 1 + LeadingCount(u, IsPySpace);
    if lead < |s| {
      assert s[lead..] == u[lead - 1..];
    }
  }

  /** Splitting the words joined by single spaces gives the words back. */
  lemma {:induction false} SplitJoinRoundTrip(ws: seq<string>)
    requires forall i :: 0 <= i < |ws| ==> IsWord(ws[i])
    ensures PySplit(JoinSpaced(ws)) == ws
  {
    if |ws| == 0 {
      assert PySplit([]) == [];
    } else if |ws| == 1 {
      PySplitWordThen(ws[0], []);
      assert ws[0] + [] == ws[0];
      assert PySplit([]) == [];
    } else {
      var rest := ws[1..];
      assert forall i :: 0 <= i < |rest| ==> IsWord(rest[i]) by {
        forall i | 0 <= i < |rest| ensures IsWord(rest[i]) {
          assert rest[i] == ws[i + 1];
        }
      }
      var tail := JoinSpaced(rest);
      assert JoinSpaced(ws) == ws[0] + " " + tail;
      assert ws[0] + " " + tail == ws[0] + (" " + tail);
      PySplitWordThen(ws[0], " " + tail);
      PySplitSpaceThen(tail);
      SplitJoinRoundTrip(rest);
      assert ws == [ws[0]] + rest;
    }
  }

  /** Python's slice `s[lo:hi]`: negative bounds count from the end, and both are
      clamped to the sequence. */
  function PySlice<T>(s: seq<T>, lo: int, hi: int): (r: seq<T>)
    ensures |r| <= |s|
    ensures r == s[ClampIndex(|s|, lo)..][..if ClampIndex(|s|, lo) <= ClampIndex(|s|, hi) then ClampIndex(|s|, hi) - ClampIndex(|s|, lo) else 0]
  {
    var l := ClampIndex(|s|, lo);
    var h := ClampIndex(|s|, hi);
    if l <= h then s[l..h] else []
  }

  /** How Python turns a slice bound into an index of a sequence of length `n`. */
  function ClampIndex(n: nat, i: int): (r: nat)
    ensures r <= n
    ensures 0 <= i <= n ==> r == i
    ensures i < 0 && n + i >= 0 ==> r == n + i
    ensures i > n ==> r == n
    ensures n + i < 0 ==> r == 0
  {
    if i < 0 then (if n + i < 0 then 0 else n + i) else if i > n then n else i
  }

  /** `s[:limit]`, the truncation used for every `limit` in the backend. */
  function PyTake<T>(s: seq<T>, limit: int): (r: seq<T>)
    ensures 0 <= limit ==> |r| == if limit <= |s| then limit else |s|
    ensures limit < 0 ==> |r| == if |s| + limit < 0 then 0 else |s| + limit
    ensures r == s[..|r|]
  {
    PySlice(s, 0, limit)
  }

  function DigitChar(d: nat): char
    requires d < 10
  {
    ['0','1','2','3','4','5','6','7','8','9'][d]
  }

  /** The value of one decimal digit. */
  function DigitValue(c: char): nat {
    if '0' <= c <= '9' then c as int - '0' as int else 0
  }

  /** The number a string of decimal digits denotes, as Python's `int(s)` reads it. */
  function DecimalValue(s: string): nat
    decreases |s|
  {
    if s == [] then 0 else 10 * DecimalValue(s[..|s| - 1]) + DigitValue(s[|s| - 1])
  }

  /** The number an optionally signed decimal string denotes. */
  function SignedValue(s: string): int {
    if s != [] && s[0] == '-' then 0 - DecimalValue(s[1..]) else DecimalValue(s)
  }

  /** Decimal rendering of a natural number, without leading zeros. */
  function NatToString(n: nat): (r: string)
    decreases n
    ensures r != []
    ensures forall c :: c in r ==> '0' <= c <= '9'
  {
    if n < 10 then [DigitChar(n)] else NatToString(n / 10) + [DigitChar(n % 10)]
  }

  /** Reading the digits of `NatToString(n)` back gives `n`, and the only rendering
      that starts with `0` is that of zero itself. */
  lemma {:induction false} NatToStringValue(n: nat)
    decreases n
    ensures DecimalValue(NatToString(n)) == n
    ensures NatToString(n)[0] == '0' <==> n == 0
  {
    var r := NatToString(n);
    if n >= 10 {
      var front := NatToString(n / 10);
      NatToStringValue(n / 10);
      assert r == front + [DigitChar(n % 10)];
      assert r[..|r| - 1] == front;
      assert r[0] == front[0];
    }
  }

  /** `str(n)` in Python and `String(n)` in JavaScript for an integer `n`. */
  function IntToString(n: int): (r: string)
    ensures r != []
    ensures n >= 0 ==> r == NatToString(n)
    ensures n < 0 ==> r == "-" + NatToString(-n)
  {
    if n < 0 then "-" + NatToString(-n) else NatToString(n)
  }

  /** The page size and the first page number, as they appear in a query string. */
  lemma TwentyRendered()
    ensures IntToString(20) == "20" && IntToString(1) == "1"
  {
    assert NatToString(20) == NatToString(2) + [DigitChar(0)];
  }

  /** The rendering of an integer reads back as that integer, carries a minus sign
      exactly when it is negative, and has no leading zero. */
  lemma IntToStringValue(n: int)
    ensures SignedValue(IntToString(n)) == n
    ensures IntToString(n)[0] == '-' <==> n < 0
    ensures |IntToString(n)| > 1 && n >= 0 ==> IntToString(n)[0] != '0'
    ensures n < 0 ==> IntToString(n)[1] != '0'
  {
    var r := IntToString(n);
    if n < 0 {
      NatToStringValue(-n);
      assert r[1..] == NatToString(-n);
    } else {
      NatToStringValue(n);
      assert r[0] in r;
    }
  }
}
