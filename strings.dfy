/** The parts of Python's `str` that the assistant relies on: whitespace
    (`isspace`, `strip`, `split()`), substring search (`in`, `split(sep)[0]`),
    suffix tests, ASCII case mapping, `" ".join` and decimal rendering. */
module Strings {
  import opened Wrappers

  /** `str.isspace()` for one character: CPython's whitespace table. */
  predicate IsSpace(c: char)
  {
    || c == ' ' || c == '\t' || c == '\n' || c == '\r' || c == '\U{000B}' || c == '\U{000C}'
    || c == '\U{001C}' || c == '\U{001D}' || c == '\U{001E}' || c == '\U{001F}'
    || c == '\U{0085}' || c == '\U{00A0}' || c == '\U{1680}'
    || ('\U{2000}' <= c <= '\U{200A}')
    || c == '\U{2028}' || c == '\U{2029}' || c == '\U{202F}' || c == '\U{205F}' || c == '\U{3000}'
  }

  /** Every character is whitespace (the empty string included): `not s.strip()`. */
  predicate IsBlank(s: string)
  {
    forall i :: 0 <= i < |s| ==> IsSpace(s[i])
  }

  predicate NoSpace(s: string)
  {
    forall i :: 0 <= i < |s| ==> !IsSpace(s[i])
  }

  /** `s.lstrip()`: the suffix left after dropping the leading whitespace. */
  function LStrip(s: string): (r: string)
    ensures |r| <= |s| && r == s[|s| - |r|..]
    ensures r == [] || !IsSpace(r[0])
    ensures IsBlank(s[..|s| - |r|])
  {
    if s == [] || !IsSpace(s[0]) then s
    else
      var r := LStrip(s[1..]);
      assert s[..|s| - |r|] == [s[0]] + s[1..][..|s| - 1 - |r|];
      r
  }

  /** `s.rstrip()`: the prefix left after dropping the trailing whitespace. */
  function RStrip(s: string): (r: string)
    ensures |r| <= |s| && r == s[..|r|]
    ensures r == [] || !IsSpace(r[|r| - 1])
    ensures IsBlank(s[|r|..])
  {
    if s == [] || !IsSpace(s[|s| - 1]) then s
    else
      var r := RStrip(s[..|s| - 1]);
      assert s[|r|..] == s[..|s| - 1][|r|..] + [s[|s| - 1]];
      r
  }

  /** `s.strip()`: a contiguous piece of `s`, only whitespace around it,
      and no whitespace at either of its ends. */
  function Strip(s: string): (r: string)
    ensures |r| <= |s|
    ensures r == [] || (!IsSpace(r[0]) && !IsSpace(r[|r| - 1]))
    ensures r == [] <==> IsBlank(s)
  {
    var t := LStrip(s);
    var r := RStrip(t);
    assert r != [] ==> r[0] == t[0];
    assert IsBlank(s) ==> t == [] by {
      if IsBlank(s) { BlankLStrip(s); }
    }
    assert r == [] ==> IsBlank(s) by {
      if r == [] {
        var i := |s| - |t|;
        assert s == s[..i] + t[|r|..];
        BlankConcat(s[..i], t[|r|..]);
      }
    }
    r
  }

  /** What `Strip` removes on either side is whitespace: the leading
      whitespace that `lstrip` drops, and a blank tail. */
  lemma StripInside(s: string)
    ensures Inside(s, |s| - |LStrip(s)|, Strip(s))
  {
    StripPieces(s, LStrip(s), RStrip(LStrip(s)));
  }

  /** `r` sits in `s` at index `i` with only whitespace on either side of it. */
  predicate Inside(s: string, i: int, r: string)
  {
    0 <= i && i + |r| <= |s| && r == s[i..i + |r|] && IsBlank(s[..i]) && IsBlank(s[i + |r|..])
  }

  /** The pieces of `Strip`: the left strip drops a blank prefix, the right
      strip a blank suffix of what is left. */
  lemma StripPieces(s: string, t: string, r: string)
    requires |t| <= |s| && t == s[|s| - |t|..] && IsBlank(s[..|s| - |t|])
    requires |r| <= |t| && r == t[..|r|] && IsBlank(t[|r|..])
    requires (t == [] || !IsSpace(t[0])) && (r == [] || !IsSpace(r[|r| - 1]))
    ensures r == [] || (!IsSpace(r[0]) && !IsSpace(r[|r| - 1]))
    ensures Inside(s, |s| - |t|, r)
    ensures r == [] <==> IsBlank(s)
  {
    var i := |s| - |t|;
    assert t == s[i..];
    forall k | 0 <= k < |r| ensures r[k] == s[i + k] {
      assert r[k] == t[k];
    }
    assert r == s[i..i + |r|];
    assert IsBlank(s[i + |r|..]) by {
      var tail, rest := s[i + |r|..], t[|r|..];
      assert IsBlank(rest) && |tail| == |rest|;
      forall k | 0 <= k < |tail| ensures IsSpace(tail[k]) {
        assert tail[k] == rest[k];
      }
    }
    if r == [] {
      assert s == s[..i] + s[i + |r|..];
      BlankConcat(s[..i], s[i + |r|..]);
    } else {
      assert r[0] == t[0];
      assert s[i] == r[0] && !IsBlank(s);
    }
  }

  lemma BlankIffLStripEmpty(s: string)
    ensures LStrip(s) == [] <==> IsBlank(s)
  {
    if LStrip(s) == [] {
      assert s[..|s|] == s;
    } else if IsBlank(s) {
      BlankLStrip(s);
    }
  }

  lemma BlankLStrip(s: string)
    requires IsBlank(s)
    ensures LStrip(s) == []
  {
  }

  lemma BlankConcat(a: string, b: string)
    requires IsBlank(a) && IsBlank(b)
    ensures IsBlank(a + b)
  {
    forall k | 0 <= k < |a + b| ensures IsSpace((a + b)[k]) {
      if k < |a| { assert (a + b)[k] == a[k]; } else { assert (a + b)[k] == b[k - |a|]; }
    }
  }

  /** A string with no whitespace at either end is its own strip. */
  lemma StripTrimmed(s: string)
    requires s != [] && !IsSpace(s[0]) && !IsSpace(s[|s| - 1])
    ensures Strip(s) == s
  {
    assert LStrip(s) == s;
  }

  /** Stripping twice is stripping once. */
  lemma StripIdempotent(s: string)
    ensures Strip(Strip(s)) == Strip(s)
  {
    var r := Strip(s);
    if r != [] {
      assert LStrip(r) == r;
      assert RStrip(r) == r;
    }
  }

  /** The longest prefix of `s` without whitespace. */
  function TakeWord(s: string): (w: string)
    ensures |w| <= |s| && w == s[..|w|] && NoSpace(w)
    ensures |w| == |s| || IsSpace(s[|w|])
  {
    if s == [] || IsSpace(s[0]) then [] else [s[0]] + TakeWord(s[1..])
  }

  /** Every item is a non-empty run of non-whitespace characters. */
  predicate AllWords(ws: seq<string>)
  {
    forall i :: 0 <= i < |ws| ==> ws[i] != [] && NoSpace(ws[i])
  }

  lemma AllWordsCons(w: string, ws: seq<string>)
    requires w != [] && NoSpace(w) && AllWords(ws)
    ensures AllWords([w] + ws)
  {
    forall i | 0 <= i < |[w] + ws| ensures ([w] + ws)[i] != [] && NoSpace(([w] + ws)[i]) {
      if i > 0 { assert ([w] + ws)[i] == ws[i - 1]; }
    }
  }

  /** `s.split()`: the maximal runs of non-whitespace characters, in order;
      none of them is empty, and there are none exactly when `s` is blank. */
  function Words(s: string): (ws: seq<string>)
    ensures AllWords(ws)
    ensures ws == [] <==> LStrip(s) == []
    // The first word (`parts[0]`) is the run that starts after the leading
    // whitespace and ends at the next whitespace or at the end.
    ensures ws != [] ==> ws[0] == TakeWord(LStrip(s))
    decreases |s|
  {
    var t := LStrip(s);
    if t == [] then []
    else
      var w := TakeWord(t);
      assert w != [] by { assert !IsSpace(t[0]); }
      var rest := Words(t[|w|..]);
      AllWordsCons(w, rest);
      [w] + rest
  }

  /** The characters of `s` that are not whitespace, in order. */
  function NonSpace(s: string): string
  {
    if s == [] then [] else (if IsSpace(s[0]) then [] else [s[0]]) + NonSpace(s[1..])
  }

  /** The words one after the other, with nothing between them. */
  function Flatten(ws: seq<string>): string
  {
    if ws == [] then [] else ws[0] + Flatten(ws[1..])
  }

  lemma {:induction false} NonSpaceAppend(a: string, b: string)
    ensures NonSpace(a + b) == NonSpace(a) + NonSpace(b)
  {
    if a != [] {
      var head := if IsSpace(a[0]) then [] else [a[0]];
      assert (a + b)[0] == a[0] && (a + b)[1..] == a[1..] + b;
      assert NonSpace(a + b) == head + NonSpace(a[1..] + b);
      NonSpaceAppend(a[1..], b);
      assert NonSpace(a) == head + NonSpace(a[1..]);
      assert head + (NonSpace(a[1..]) + NonSpace(b)) == (head + NonSpace(a[1..])) + NonSpace(b);
    } else {
      assert a + b == b;
    }
  }

  lemma {:induction false} NonSpaceBlank(s: string)
    requires IsBlank(s)
    ensures NonSpace(s) == []
  {
    if s != [] {
      NonSpaceBlank(s[1..]);
    }
  }

  lemma {:induction false} NonSpaceWord(w: string)
    requires NoSpace(w)
    ensures NonSpace(w) == w
  {
    if w != [] {
      NonSpaceWord(w[1..]);
    }
  }

  /** `s.split()` loses no character but whitespace and adds none: the words
      laid end to end are the non-whitespace characters of `s`, in order. */
  lemma {:induction false} WordsKeepText(s: string)
    ensures Flatten(Words(s)) == NonSpace(s)
    decreases |s|
  {
    var t := LStrip(s);
    assert NonSpace(s) == NonSpace(t) by {
      var i := |s| - |t|;
      assert s == s[..i] + t;
      NonSpaceAppend(s[..i], t);
      NonSpaceBlank(s[..i]);
    }
    if t != [] {
      var w := TakeWord(t);
      var u := t[|w|..];
      assert NonSpace(t) == w + NonSpace(u) by {
        assert t == w + u;
        NonSpaceAppend(w, u);
        NonSpaceWord(w);
      }
      assert Flatten(Words(s)) == w + Flatten(Words(u)) by {
        assert w != [] by { assert !IsSpace(t[0]); }
        var ws := Words(s);
        assert ws == [w] + Words(u);
        assert ws[0] == w && ws[1..] == Words(u);
      }
      WordsKeepText(u);
    }
  }

  /** A single run of non-whitespace characters splits into itself. */
  lemma WordsOfWord(w: string)
    requires w != [] && NoSpace(w)
    ensures Words(w) == [w]
  {
    assert LStrip(w) == w;
    TakeWholeWord(w);
    assert w[|w|..] == [];
  }

  lemma {:induction false} TakeWholeWord(w: string)
    requires NoSpace(w)
    ensures TakeWord(w) == w
  {
    if w != [] {
      TakeWholeWord(w[1..]);
    }
  }

  /** `s.split()` is empty exactly when `s` is blank. */
  lemma WordsEmptyIffBlank(s: string)
    ensures Words(s) == [] <==> IsBlank(s)
  {
    BlankIffLStripEmpty(s);
  }

  /** Stripping cannot create an occurrence of a pattern. */
  lemma StripAvoids(s: string, pat: string)
    requires !Contains(s, pat)
    ensures !Contains(Strip(s), pat)
  {
    var r := Strip(s);
    var i := |s| - |LStrip(s)|;
    StripInside(s);
    SliceAvoids(s, i, i + |r|, pat);
  }

  // ---------------------------------------------------------------------------
  // Substrings

  /** `pat` occurs in `s` starting at index `i`. */
  predicate OccursAt(s: string, pat: string, i: int)
  {
    0 <= i && i + |pat| <= |s| && s[i..i + |pat|] == pat
  }

  /** Python's `pat in s`. */
  predicate Contains(s: string, pat: string)
  {
    exists i :: 0 <= i <= |s| && OccursAt(s, pat, i)
  }

  /** An occurrence inside a slice of `s` is an occurrence in `s`. */
  lemma OccursInSlice(s: string, lo: int, hi: int, pat: string, j: int)
    requires 0 <= lo <= hi <= |s|
    requires OccursAt(s[lo..hi], pat, j)
    ensures OccursAt(s, pat, lo + j)
  {
    forall k | 0 <= k < |pat|
      ensures s[lo + j..lo + j + |pat|][k] == pat[k]
    {
      assert s[lo..hi][j..j + |pat|][k] == pat[k];
    }
  }

  /** A slice of a string that does not contain `pat` does not contain it either. */
  lemma SliceAvoids(s: string, lo: int, hi: int, pat: string)
    requires 0 <= lo <= hi <= |s|
    requires !Contains(s, pat)
    ensures !Contains(s[lo..hi], pat)
  {
    if Contains(s[lo..hi], pat) {
      var j :| OccursAt(s[lo..hi], pat, j);
      OccursInSlice(s, lo, hi, pat, j);
    }
  }

  /** The first occurrence of `pat` in `s` at or after index `k`. */
  function FindFrom(s: string, pat: string, k: nat): (r: Option<nat>)
    ensures r.Some? ==> k <= r.value && OccursAt(s, pat, r.value)
    ensures r.Some? ==> forall j :: k <= j < r.value ==> !OccursAt(s, pat, j)
    ensures r.None? ==> forall j :: k <= j ==> !OccursAt(s, pat, j)
    decreases |s| - k
  {
    if k + |pat| > |s| then None
    else if s[k..k + |pat|] == pat then Some(k)
    else FindFrom(s, pat, k + 1)
  }

  /** `s.find(pat)` as an option: the first occurrence, if any. */
  function Find(s: string, pat: string): (r: Option<nat>)
    ensures r.Some? <==> Contains(s, pat)
    ensures r.Some? ==> OccursAt(s, pat, r.value) && forall j :: 0 <= j < r.value ==> !OccursAt(s, pat, j)
  {
    FindFrom(s, pat, 0)
  }

  /** `s.split(sep)[0]`: the part of `s` before the first `sep`, or all of `s`. */
  function Before(s: string, sep: string): (r: string)
    requires sep != []
    ensures |r| <= |s| && r == s[..|r|]
    ensures !Contains(r, sep)
    ensures Contains(s, sep) ==> OccursAt(s, sep, |r|)
    ensures !Contains(s, sep) ==> r == s
  {
    match Find(s, sep)
    case None => s
    case Some(i) =>
      var r := s[..i];
      assert !Contains(r, sep) by {
        if Contains(r, sep) {
          var j :| OccursAt(r, sep, j);
          OccursInSlice(s, 0, i, sep, j);
        }
      }
      r
  }

  /** Python's `s.endswith(suffix)`. */
  predicate EndsWith(s: string, suffix: string)
  {
    |suffix| <= |s| && s[|s| - |suffix|..] == suffix
  }

  // ---------------------------------------------------------------------------
  // Case mapping (ASCII letters only)

  function LowerChar(c: char): char
  {
    if 'A' <= c <= 'Z' then (c as int + 32) as char else c
  }

  function UpperChar(c: char): char
  {
    if 'a' <= c <= 'z' then (c as int - 32) as char else c
  }

  /** `s.lower()` on ASCII letters; other characters are kept. */
  function Lower(s: string): (r: string)
    ensures |r| == |s|
  {
    seq(|s|, i requires 0 <= i < |s| => LowerChar(s[i]))
  }

  /** `Lower` moves each capital 32 code points down to its small letter,
      keeps every other character, and leaves no capital behind. */
  lemma LowerMaps(s: string)
    ensures forall i :: 0 <= i < |s| ==>
              if 'A' <= s[i] <= 'Z' then Lower(s)[i] as int == s[i] as int + 32 else Lower(s)[i] == s[i]
    ensures forall i :: 0 <= i < |s| ==> !('A' <= Lower(s)[i] <= 'Z')
  {
  }

  /** `s.upper()` on ASCII letters; other characters are kept. */
  function Upper(s: string): (r: string)
    ensures |r| == |s|
  {
    seq(|s|, i requires 0 <= i < |s| => UpperChar(s[i]))
  }

  /** `Upper` moves each small letter 32 code points up to its capital,
      keeps every other character, and leaves no small letter behind. */
  lemma UpperMaps(s: string)
    ensures forall i :: 0 <= i < |s| ==>
              if 'a' <= s[i] <= 'z' then Upper(s)[i] as int == s[i] as int - 32 else Upper(s)[i] == s[i]
    ensures forall i :: 0 <= i < |s| ==> !('a' <= Upper(s)[i] <= 'z')
  {
  }

  // ---------------------------------------------------------------------------
  // Joining and decimal rendering

  /** `sep.join(parts)`. */
  function Join(parts: seq<string>, sep: string): string
  {
    if |parts| == 0 then ""
    else if |parts| == 1 then parts[0]
    else Join(parts[..|parts| - 1], sep) + sep + parts[|parts| - 1]
  }

  /** The summed length of the parts. */
  function TotalLength(parts: seq<string>): nat
  {
    if parts == [] then 0 else TotalLength(parts[..|parts| - 1]) + |parts[|parts| - 1]|
  }

  /** The joined length: every part, and one separator for each two
      neighbours. */
  lemma {:induction false} JoinLength(parts: seq<string>, sep: string)
    requires parts != []
    ensures |Join(parts, sep)| == TotalLength(parts) + (|parts| - 1) * |sep|
  {
    if |parts| > 1 {
      var prefix := parts[..|parts| - 1];
      JoinLength(prefix, sep);
      assert (|parts| - 1) * |sep| == (|prefix| - 1) * |sep| + |sep|;
    } else {
      assert parts[..0] == [];
    }
  }

  /** Each part preceded by the separator, read from the front: a reference
      for `sep.join` independent of `Join`'s recursion from the back. */
  function Prefixed(parts: seq<string>, sep: string): string
  {
    if parts == [] then "" else sep + parts[0] + Prefixed(parts[1..], sep)
  }

  lemma {:induction false} PrefixedAppend(parts: seq<string>, last: string, sep: string)
    ensures Prefixed(parts + [last], sep) == Prefixed(parts, sep) + sep + last
  {
    if parts != [] {
      assert (parts + [last])[1..] == parts[1..] + [last];
      PrefixedAppend(parts[1..], last, sep);
    }
  }

  /** The joined text is the first part followed by every later part, in
      order, each after exactly one separator, and nothing else. */
  lemma {:induction false} JoinParts(parts: seq<string>, sep: string)
    requires parts != []
    ensures Join(parts, sep) == parts[0] + Prefixed(parts[1..], sep)
  {
    if |parts| > 1 {
      var prefix := parts[..|parts| - 1];
      JoinParts(prefix, sep);
      assert parts[1..] == prefix[1..] + [parts[|parts| - 1]];
      PrefixedAppend(prefix[1..], parts[|parts| - 1], sep);
    } else {
      assert parts[1..] == [];
    }
  }

  function DigitChar(d: nat): char
    requires d < 10
  {
    (48 + d) as char
  }

  predicate IsDigit(c: char)
  {
    '0' <= c <= '9'
  }

  function DigitValue(c: char): nat
    requires IsDigit(c)
  {
    c as int - 48
  }

  /** `str(n)` for a natural number. */
  function Decimal(n: nat): (r: string)
    ensures r != [] && forall i :: 0 <= i < |r| ==> IsDigit(r[i])
    // No leading zeros: a single digit exactly below ten, and a leading
    // '0' only for zero itself.
    ensures |r| == 1 <==> n < 10
    ensures r[0] == '0' <==> n == 0
  {
    if n < 10 then [DigitChar(n)] else Decimal(n / 10) + [DigitChar(n % 10)]
  }

  /** Reads a string of decimal digits back as a number. */
  function ParseDecimal(s: string): nat
    requires forall i :: 0 <= i < |s| ==> IsDigit(s[i])
  {
    if s == [] then 0 else ParseDecimal(s[..|s| - 1]) * 10 + DigitValue(s[|s| - 1])
  }

  /** Rendering a number in decimal loses nothing. */
  lemma {:induction false} DecimalRoundTrip(n: nat)
    ensures ParseDecimal(Decimal(n)) == n
  {
    if n >= 10 {
      DecimalRoundTrip(n / 10);
      var r := Decimal(n);
      assert r[..|r| - 1] == Decimal(n / 10);
    }
  }
}
