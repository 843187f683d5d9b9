/** String helpers shared by every pipeline: Python's whitespace test,
    `str.split()` / `" ".join(...)`, `str.strip()`, ASCII lower-casing,
    `str.endswith`, and the decimal `{n}` / zero-padded `{n:02d}` formatting. */
module Text {

  /** Python's `str.isspace()` for one character: the ASCII blanks, the
      separators U+001C..U+001F, U+0085, and the Unicode space separators. */
  predicate IsSpace(c: char) {
    || c == ' ' || '\t' <= c <= '\r' || '\U{1c}' <= c <= '\U{1f}'
    || c == '\U{85}' || c == '\U{a0}' || c == '\U{1680}'
    || '\U{2000}' <= c <= '\U{200a}' || c == '\U{2028}' || c == '\U{2029}'
    || c == '\U{202f}' || c == '\U{205f}' || c == '\U{3000}'
  }

  predicate AllSpace(s: string) {
    forall k :: 0 <= k < |s| ==> IsSpace(s[k])
  }

  /** A word as `str.split()` produces it: non-empty, no whitespace. */
  predicate IsWord(w: string) {
    w != [] && forall k :: 0 <= k < |w| ==> !IsSpace(w[k])
  }

  predicate AllWords(ws: seq<string>) {
    forall i :: 0 <= i < |ws| ==> IsWord(ws[i])
  }

  /** The characters of `s` that are not whitespace, in order. */
  function Visible(s: string): string {
    if s == [] then [] else (if IsSpace(s[0]) then [] else [s[0]]) + Visible(s[1..])
  }

  function Concat(ws: seq<string>): string {
    if ws == [] then [] else ws[0] + Concat(ws[1..])
  }

  /** `sep.join(parts)`. */
  function Join(parts: seq<string>, sep: string): string {
    if |parts| == 0 then []
    else if |parts| == 1 then parts[0]
    else parts[0] + sep + Join(parts[1..], sep)
  }

  /** Joining two non-empty runs of parts puts one separator between them. */
  lemma {:induction false} JoinAppend(a: seq<string>, b: seq<string>, sep: string)
    requires a != [] && b != []
    ensures Join(a + b, sep) == Join(a, sep) + sep + Join(b, sep)
  {
    assert (a + b)[0] == a[0];
    if |a| == 1 {
      assert (a + b)[1..] == b;
    } else {
      JoinAppend(a[1..], b, sep);
      assert (a + b)[1..] == a[1..] + b;
    }
  }

  /** `sep.join(parts)` cut around part i: the parts before it, a separator,
      part i, a separator, the parts after it (no separator at either end). */
  lemma JoinAround(parts: seq<string>, sep: string, i: int)
    requires 0 <= i < |parts|
    ensures Join(parts, sep) ==
      Join(parts[..i], sep) + (if i == 0 then [] else sep) + parts[i]
      + (if i == |parts| - 1 then [] else sep) + Join(parts[i + 1..], sep)
  {
    var before, after := parts[..i], parts[i + 1..];
    assert Join([parts[i]], sep) == parts[i];
    if i == 0 && i == |parts| - 1 {
      assert parts == [parts[i]];
    } else if i == 0 {
      assert parts == [parts[i]] + after;
      JoinAppend([parts[i]], after, sep);
    } else if i == |parts| - 1 {
      assert parts == before + [parts[i]];
      JoinAppend(before, [parts[i]], sep);
    } else {
      assert parts == before + ([parts[i]] + after);
      JoinAppend([parts[i]], after, sep);
      JoinAppend(before, [parts[i]] + after, sep);
    }
  }

  /** The scan behind `str.split()` with no argument: `cur` is the word
      being read. */
  function SplitFrom(s: string, cur: string): seq<string>
    decreases |s|
  {
    if s == [] then (if cur == [] then [] else [cur])
    else if IsSpace(s[0]) then
      (if cur == [] then SplitFrom(s[1..], []) else [cur] + SplitFrom(s[1..], []))
    else SplitFrom(s[1..], cur + [s[0]])
  }

  /** `s.split()`. */
  function Words(s: string): seq<string> {
    SplitFrom(s, [])
  }

  /** `" ".join(s.split())`: every whitespace run becomes one space and the
      ends are trimmed. */
  function Collapse(s: string): string {
    Join(Words(s), " ")
  }

  /** What `Collapse` produces: only plain spaces as whitespace, never two in
      a row, none at either end. */
  predicate Collapsed(t: string) {
    && (t != [] ==> t[0] != ' ' && t[|t| - 1] != ' ')
    && (forall k :: 0 <= k < |t| && IsSpace(t[k]) ==> t[k] == ' ')
    && (forall k :: 0 <= k < |t| - 1 && t[k] == ' ' ==> t[k + 1] != ' ')
  }

  lemma {:induction false} SplitFromWords(s: string, cur: string)
    requires cur == [] || IsWord(cur)
    ensures AllWords(SplitFrom(s, cur))
    ensures Concat(SplitFrom(s, cur)) == cur + Visible(s)
    decreases |s|
  {
    if s == [] {
      assert Visible(s) == [];
    } else if IsSpace(s[0]) {
      SplitFromWords(s[1..], []);
      assert Visible(s) == Visible(s[1..]);
      if cur != [] {
        var rest := SplitFrom(s[1..], []);
        assert ([cur] + rest)[1..] == rest;
      }
    } else {
      SplitFromWords(s[1..], cur + [s[0]]);
      assert Visible(s) == [s[0]] + Visible(s[1..]);
      assert cur + [s[0]] + Visible(s[1..]) == cur + ([s[0]] + Visible(s[1..]));
    }
  }

  /** The words of `s` are real words, and together they are exactly the
      visible characters of `s`, in order. */
  lemma WordsAreVisible(s: string)
    ensures AllWords(Words(s))
    ensures Concat(Words(s)) == Visible(s)
  {
    SplitFromWords(s, []);
  }

  lemma {:induction false} ReadWord(w: string, rest: string, cur: string)
    requires forall k :: 0 <= k < |w| ==> !IsSpace(w[k])
    ensures SplitFrom(w + rest, cur) == SplitFrom(rest, cur + w)
    decreases |w|
  {
    if w != [] {
      assert (w + rest)[0] == w[0] && !IsSpace(w[0]);
      assert (w + rest)[1..] == w[1..] + rest;
      assert SplitFrom(w + rest, cur) == SplitFrom(w[1..] + rest, cur + [w[0]]);
      ReadWord(w[1..], rest, cur + [w[0]]);
      assert w == [w[0]] + w[1..];
      assert cur + [w[0]] + w[1..] == cur + w;
    } else {
      assert w + rest == rest && cur + w == cur;
    }
  }

  lemma {:induction false} SplitJoinFrom(ws: seq<string>)
    requires AllWords(ws)
    ensures SplitFrom(Join(ws, " "), []) == ws
    decreases |ws|
  {
    if |ws| == 1 {
      assert IsWord(ws[0]);
      assert Join(ws, " ") == ws[0] + [];
      ReadWord(ws[0], [], []);
      assert [] + ws[0] == ws[0];
      assert ws == [ws[0]];
    } else if |ws| > 1 {
      var tail := Join(ws[1..], " ");
      assert Join(ws, " ") == ws[0] + (" " + tail);
      ReadWord(ws[0], " " + tail, []);
      assert (" " + tail)[0] == ' ' && (" " + tail)[1..] == tail;
      assert [] + ws[0] == ws[0] && ws[0] != [];
      SplitJoinFrom(ws[1..]);
      assert ws == [ws[0]] + ws[1..];
    }
  }

  /** Splitting a space-joined list of words gives the words back. */
  lemma SplitJoin(ws: seq<string>)
    requires AllWords(ws)
    ensures Words(Join(ws, " ")) == ws
  {
    SplitJoinFrom(ws);
  }

  /** Normalising twice is normalising once. */
  lemma CollapseIdempotent(s: string)
    ensures Collapse(Collapse(s)) == Collapse(s)
  {
    WordsAreVisible(s);
    SplitJoin(Words(s));
  }

  lemma {:induction false} JoinWordsCollapsed(ws: seq<string>)
    requires AllWords(ws)
    ensures Collapsed(Join(ws, " "))
    ensures Join(ws, " ") == [] <==> ws == []
    decreases |ws|
  {
    if |ws| > 1 {
      JoinWordsCollapsed(ws[1..]);
      var w, tail := ws[0], Join(ws[1..], " ");
      var t := w + " " + tail;
      assert t == Join(ws, " ");
      forall k | 0 <= k < |t| && IsSpace(t[k]) ensures t[k] == ' ' {
        if k > |w| { assert t[k] == tail[k - |w| - 1]; }
      }
      forall k | 0 <= k < |t| - 1 && t[k] == ' ' ensures t[k + 1] != ' ' {
        if k < |w| { assert false; }
        else if k == |w| { assert t[k + 1] == tail[0]; }
        else { assert t[k] == tail[k - |w| - 1]; assert t[k + 1] == tail[k - |w|]; }
      }
      assert t[|t| - 1] == tail[|tail| - 1];
    }
  }

  lemma {:induction false} VisibleEmpty(s: string)
    ensures Visible(s) == [] <==> AllSpace(s)
    decreases |s|
  {
    if s != [] {
      VisibleEmpty(s[1..]);
      if AllSpace(s[1..]) && IsSpace(s[0]) {
        forall k | 0 <= k < |s| ensures IsSpace(s[k]) {
          if k > 0 { assert s[k] == s[1..][k - 1]; }
        }
      }
      if AllSpace(s) {
        forall k | 0 <= k < |s| - 1 ensures IsSpace(s[1..][k]) {
          assert s[1..][k] == s[k + 1];
        }
      }
    }
  }

  lemma {:induction false} ConcatEmpty(ws: seq<string>)
    requires AllWords(ws)
    ensures Concat(ws) == [] <==> ws == []
  {
    if ws != [] {
      assert |Concat(ws)| >= |ws[0]| > 0;
    }
  }

  /** The normalised text is in normal form, keeps every visible character
      in order, and is empty exactly when the input is all whitespace. */
  lemma CollapseNormalForm(s: string)
    ensures Collapsed(Collapse(s))
    ensures Visible(Collapse(s)) == Visible(s)
    ensures Collapse(s) == [] <==> AllSpace(s)
  {
    WordsAreVisible(s);
    JoinWordsCollapsed(Words(s));
    SplitJoin(Words(s));
    WordsAreVisible(Collapse(s));
    ConcatEmpty(Words(s));
    VisibleEmpty(s);
  }

  /** The bounds of `s.strip()`: leading and trailing whitespace removed. */
  function StripStart(s: string): (i: nat)
    ensures i <= |s|
    ensures forall k :: 0 <= k < i ==> IsSpace(s[k])
    ensures i < |s| ==> !IsSpace(s[i])
  {
    if s == [] || !IsSpace(s[0]) then 0
    else
      var i := StripStart(s[1..]);
      assert forall k :: 1 <= k < i + 1 ==> s[k] == s[1..][k - 1];
      i + 1
  }

  function StripEnd(s: string): (j: nat)
    ensures j <= |s|
    ensures forall k :: j <= k < |s| ==> IsSpace(s[k])
    ensures j > 0 ==> !IsSpace(s[j - 1])
  {
    if s == [] || !IsSpace(s[|s| - 1]) then |s|
    else StripEnd(s[..|s| - 1])
  }

  /** `s.strip()`. */
  function Strip(s: string): string {
    var i := StripStart(s);
    s[i..i + StripEnd(s[i..])]
  }

  /** The stripped text starts and ends with a visible character, is empty
      for an all-space text, and otherwise is the text with only spaces cut
      from both ends. */
  lemma StripTrims(s: string)
    ensures var r := Strip(s); r == [] || (!IsSpace(r[0]) && !IsSpace(r[|r| - 1]))
    ensures AllSpace(s) ==> Strip(s) == []
    ensures !AllSpace(s) ==> exists i, j :: 0 <= i < j <= |s| && Strip(s) == s[i..j] && AllSpace(s[..i]) && AllSpace(s[j..])
  {
    var i := StripStart(s);
    var r := StripEnd(s[i..]);
    assert forall k :: 0 <= k < i ==> s[..i][k] == s[k];
    assert forall k :: i + r <= k < |s| ==> s[k] == s[i..][k - i];
    assert AllSpace(s[..i]);
    var after := s[i + r..];
    assert AllSpace(after) by {
      forall k | 0 <= k < |after| ensures IsSpace(after[k]) {
        assert after[k] == s[i..][r + k];
      }
    }
    if r == 0 {
      assert i == |s|;
    } else {
      assert !IsSpace(s[i]) && s[i] == s[i..][0];
      assert !AllSpace(s);
      assert s[i..][..r] == s[i..i + r];
    }
  }

  /** Python's `str.lower()` restricted to ASCII letters; see the README for
      why that suffices for the comparisons this model makes. */
  function LowerChar(c: char): char {
    if 'A' <= c <= 'Z' then (c as int + 32) as char else c
  }

  function Lower(s: string): string {
    seq(|s|, k requires 0 <= k < |s| => LowerChar(s[k]))
  }

  /** `s.endswith(suffix)`. */
  predicate EndsWith(s: string, suffix: string) {
    |suffix| <= |s| && s[|s| - |suffix|..] == suffix
  }

  /** One decimal digit. */
  function Digit(d: nat): (c: char)
    requires d < 10
    ensures '0' <= c <= '9'
  {
    ('0' as int + d) as char
  }

  /** `str(n)` for a non-negative integer. */
  function Decimal(n: nat): (r: string)
    ensures 1 <= |r|
    decreases n
  {
    if n < 10 then [Digit(n)] else Decimal(n / 10) + [Digit(n % 10)]
  }

  /** `str(n)` writes only digits. */
  lemma {:induction false} DecimalDigits(n: nat)
    ensures forall k :: 0 <= k < |Decimal(n)| ==> '0' <= Decimal(n)[k] <= '9'
    decreases n
  {
    if n >= 10 {
      DecimalDigits(n / 10);
    }
  }

  /** `f"{n:02d}"`: decimal, zero-padded on the left to at least two digits. */
  function Pad2(n: nat): (r: string)
    ensures |r| >= 2 && (n < 100 ==> |r| == 2)
  {
    DecimalLength(n);
    if n < 10 then "0" + Decimal(n) else Decimal(n)
  }

  lemma {:induction false} DecimalLength(n: nat)
    ensures n < 10 ==> |Decimal(n)| == 1
    ensures 10 <= n < 100 ==> |Decimal(n)| == 2
  {
  }

  /** The value of a string of decimal digits (the inverse of `Decimal`). */
  function ParseDecimal(s: string): int {
    if s == [] then 0
    else ParseDecimal(s[..|s| - 1]) * 10 + (s[|s| - 1] as int - '0' as int)
  }

  lemma {:induction false} ParseDecimalOf(n: nat)
    ensures ParseDecimal(Decimal(n)) == n
    decreases n
  {
    if n >= 10 {
      var r := Decimal(n);
      assert r[..|r| - 1] == Decimal(n / 10);
      ParseDecimalOf(n / 10);
    }
  }

  lemma {:induction false} ParseLeadingZero(s: string)
    ensures ParseDecimal("0" + s) == ParseDecimal(s)
    decreases |s|
  {
    if s != [] {
      assert ("0" + s)[..|"0" + s| - 1] == "0" + s[..|s| - 1];
      ParseLeadingZero(s[..|s| - 1]);
    }
  }

  /** Reading the padded ordinal back gives the ordinal: the padding loses
      nothing. */
  lemma Pad2RoundTrip(n: nat)
    ensures forall k :: 0 <= k < |Pad2(n)| ==> '0' <= Pad2(n)[k] <= '9'
    ensures ParseDecimal(Pad2(n)) == n
  {
    DecimalDigits(n);
    ParseDecimalOf(n);
    if n < 10 { ParseLeadingZero(Decimal(n)); }
  }

  /** Distinct ordinals never share a padded form. */
  lemma Pad2Injective(a: nat, b: nat)
    requires Pad2(a) == Pad2(b)
    ensures a == b
  {
    Pad2RoundTrip(a);
    Pad2RoundTrip(b);
  }
}
