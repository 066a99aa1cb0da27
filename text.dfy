/** The string operations the uploader borrows from Python: `str.strip`,
    `str.split`/`str.join` on one separator, `str.replace` with an empty
    replacement, `str.zfill`, and the three regular expressions it applies
    (the parenthesis search, the non-ASCII search and the two `re.sub`
    clean-ups). Strings are sequences of Unicode code points, as in Python. */
module Text {

  /** Python's `str.isspace` for one code point. */
  predicate IsSpace(c: char) {
    var n := c as int;
    n == 0x20 || (0x09 <= n <= 0x0D) || (0x1C <= n <= 0x1F) || n == 0x85 || n == 0xA0
    || n == 0x1680 || (0x2000 <= n <= 0x200A) || n == 0x2028 || n == 0x2029
    || n == 0x202F || n == 0x205F || n == 0x3000
  }

  /** No whitespace at either end: what `strip()` returns. */
  predicate IsStripped(s: string) {
    s == [] || (!IsSpace(s[0]) && !IsSpace(s[|s| - 1]))
  }

  function LStrip(s: string): (r: string)
    ensures |r| <= |s| && r == s[|s| - |r|..]
    ensures r == [] || !IsSpace(r[0])
    ensures forall i :: 0 <= i < |s| - |r| ==> IsSpace(s[i])
  {
    if s != [] && IsSpace(s[0]) then LStrip(s[1..]) else s
  }

  function RStrip(s: string): (r: string)
    ensures |r| <= |s| && r == s[..|r|]
    ensures r == [] || !IsSpace(r[|r| - 1])
    ensures forall i :: |r| <= i < |s| ==> IsSpace(s[i])
  {
    if s != [] && IsSpace(s[|s| - 1]) then RStrip(s[..|s| - 1]) else s
  }

  /** `s.strip()`: drops the whitespace at both ends and nothing else. */
  function Strip(s: string): (r: string)
    ensures IsStripped(r)
    ensures exists i, j ::
              && 0 <= i <= j <= |s| && r == s[i..j]
              && (forall k :: 0 <= k < i ==> IsSpace(s[k]))
              && (forall k :: j <= k < |s| ==> IsSpace(s[k]))
  {
    var l := LStrip(s);
    var r := RStrip(l);
    assert r == s[|s| - |l|..|s| - |l| + |r|];
    r
  }

  lemma StripOfStripped(s: string)
    requires IsStripped(s)
    ensures Strip(s) == s
  {
    assert LStrip(s) == s;
  }

  lemma StripIdempotent(s: string)
    ensures Strip(Strip(s)) == Strip(s)
  {
    StripOfStripped(Strip(s));
  }

  /** Stripping `x + " "` gives `x` back when `x` is already stripped. */
  lemma StripTrailingSpace(x: string)
    requires IsStripped(x)
    ensures Strip(x + [' ']) == x
  {
    if x == [] {
      assert LStrip([' ']) == LStrip([]);
    } else {
      assert LStrip(x + [' ']) == x + [' '];
      assert (x + [' '])[..|x|] == x;
      assert RStrip(x + [' ']) == RStrip(x);
    }
  }

  predicate IsAscii(c: char) {
    c as int <= 0x7F
  }

  /** `re.search("[^\u0000-\u007F]+", s)` succeeds: some code point above 0x7F. */
  predicate HasNonAscii(s: string) {
    exists i :: 0 <= i < |s| && !IsAscii(s[i])
  }

  /** `re.search("\((?P<inside>.*)\)", s)` succeeds: an opening parenthesis
      followed, on the same line, by a closing one (`.` never matches a
      newline). */
  predicate HasParenGroup(s: string) {
    exists i, j :: 0 <= i < j < |s| && s[i] == '(' && s[j] == ')' && NoNewlineBetween(s, i, j)
  }

  predicate NoNewlineBetween(s: string, i: int, j: int)
    requires 0 <= i < j < |s|
  {
    forall k :: i < k < j ==> s[k] != '\n'
  }

  predicate EndsWith(s: string, suffix: string) {
    |suffix| <= |s| && s[|s| - |suffix|..] == suffix
  }

  /** `s.split(sep)` for a one-character separator. */
  function SplitOn(s: string, sep: char): (parts: seq<string>)
    ensures |parts| >= 1
  {
    if s == [] then [[]]
    else
      var rest := SplitOn(s[1..], sep);
      if s[0] == sep then [[]] + rest
      else [[s[0]] + rest[0]] + rest[1..]
  }

  /** No piece of a split holds the separator, and there are several pieces
      exactly when the separator occurs. */
  lemma {:induction false} SplitOnPieces(s: string, sep: char)
    ensures sep in s <==> |SplitOn(s, sep)| >= 2
    ensures forall k :: 0 <= k < |SplitOn(s, sep)| ==> sep !in SplitOn(s, sep)[k]
  {
    if s != [] {
      SplitOnPieces(s[1..], sep);
      var rest := SplitOn(s[1..], sep);
      assert sep in s <==> s[0] == sep || sep in s[1..] by {
        assert s == [s[0]] + s[1..];
      }
      if s[0] != sep {
        var parts := SplitOn(s, sep);
        assert parts == [[s[0]] + rest[0]] + rest[1..];
        forall k | 0 <= k < |parts|
          ensures sep !in parts[k]
        {
          if k > 0 {
            assert parts[k] == rest[k];
          }
        }
      }
    }
  }

  /** `sep.join(parts)`. */
  function Join(parts: seq<string>, sep: string): string {
    if parts == [] then []
    else if |parts| == 1 then parts[0]
    else parts[0] + sep + Join(parts[1..], sep)
  }

  /** Joining the pieces of a split restores the string. */
  lemma {:induction false} JoinSplit(s: string, sep: char)
    ensures Join(SplitOn(s, sep), [sep]) == s
  {
    if s != [] {
      JoinSplit(s[1..], sep);
      var rest := SplitOn(s[1..], sep);
      if s[0] == sep {
        assert SplitOn(s, sep) == [[]] + rest;
        assert s == [sep] + s[1..];
      } else if |rest| == 1 {
        assert SplitOn(s, sep) == [[s[0]] + rest[0]];
        assert s == [s[0]] + s[1..];
      } else {
        var parts := SplitOn(s, sep);
        assert parts == [[s[0]] + rest[0]] + rest[1..];
        assert parts[1..] == rest[1..];
        assert Join(rest, [sep]) == rest[0] + [sep] + Join(rest[1..], [sep]);
        assert s == [s[0]] + s[1..];
      }
    }
  }

  lemma {:induction false} SplitWithoutSeparator(s: string, sep: char)
    requires sep !in s
    ensures SplitOn(s, sep) == [s]
  {
    if s != [] {
      SplitWithoutSeparator(s[1..], sep);
      assert s == [s[0]] + s[1..];
    }
  }

  /** One step of `SplitOn`: the first character either starts a new piece
      or joins the first piece of the rest. */
  lemma SplitOnCons(c: char, t: string, sep: char)
    ensures var rest := SplitOn(t, sep);
      SplitOn([c] + t, sep) == if c == sep then [[]] + rest else [[c] + rest[0]] + rest[1..]
  {
    assert ([c] + t)[0] == c && ([c] + t)[1..] == t;
  }

  /** Splitting at a separator splits the two sides independently. */
  lemma {:induction false} SplitConcat(a: string, b: string, sep: char)
    ensures SplitOn(a + [sep] + b, sep) == SplitOn(a, sep) + SplitOn(b, sep)
  {
    if a == [] {
      assert a + [sep] + b == [sep] + b;
      SplitOnCons(sep, b, sep);
    } else {
      SplitConcat(a[1..], b, sep);
      SplitConcatStep(a[0], a[1..], b, sep);
      assert [a[0]] + a[1..] == a;
    }
  }

  /** The inductive step of `SplitConcat`: one more character in front. */
  lemma SplitConcatStep(c: char, a: string, b: string, sep: char)
    requires SplitOn(a + [sep] + b, sep) == SplitOn(a, sep) + SplitOn(b, sep)
    ensures SplitOn([c] + a + [sep] + b, sep) == SplitOn([c] + a, sep) + SplitOn(b, sep)
  {
    var t := a + [sep] + b;
    assert [c] + a + [sep] + b == [c] + t;
    SplitOnCons(c, t, sep);
    SplitOnCons(c, a, sep);
    PrependPiece(c, sep, SplitOn(a, sep), SplitOn(b, sep));
  }

  /** Adding a character in front of a split commutes with appending more pieces. */
  lemma PrependPiece(c: char, sep: char, front: seq<string>, back: seq<string>)
    requires |front| >= 1
    ensures var all := front + back;
      (if c == sep then [[]] + all else [[c] + all[0]] + all[1..])
      == (if c == sep then [[]] + front else [[c] + front[0]] + front[1..]) + back
  {
    var all := front + back;
    if c != sep {
      assert all[0] == front[0];
      assert all[1..] == front[1..] + back;
    }
  }

  /** Splitting a join whose pieces hold no separator gives the pieces back. */
  lemma {:induction false} SplitJoin(parts: seq<string>, sep: char)
    requires |parts| >= 1
    requires forall k :: 0 <= k < |parts| ==> sep !in parts[k]
    ensures SplitOn(Join(parts, [sep]), sep) == parts
  {
    if |parts| == 1 {
      SplitWithoutSeparator(parts[0], sep);
    } else {
      SplitJoin(parts[1..], sep);
      SplitConcat(parts[0], Join(parts[1..], [sep]), sep);
      SplitWithoutSeparator(parts[0], sep);
      assert parts == [parts[0]] + parts[1..];
    }
  }

  /** The characters of `s` that satisfy `keep`, in order. */
  function Filter(s: string, keep: char -> bool): (r: string)
    ensures |r| <= |s|
    ensures forall k :: 0 <= k < |r| ==> keep(r[k])
  {
    if s == [] then [] else (if keep(s[0]) then [s[0]] else []) + Filter(s[1..], keep)
  }

  lemma {:induction false} FilterConcat(a: string, b: string, keep: char -> bool)
    ensures Filter(a + b, keep) == Filter(a, keep) + Filter(b, keep)
  {
    if a == [] {
      assert a + b == b;
    } else {
      assert (a + b)[1..] == a[1..] + b;
      FilterConcat(a[1..], b, keep);
    }
  }

  lemma {:induction false} FilterKeepsAll(s: string, keep: char -> bool)
    requires forall k :: 0 <= k < |s| ==> keep(s[k])
    ensures Filter(s, keep) == s
  {
    if s != [] {
      FilterKeepsAll(s[1..], keep);
    }
  }

  /** `s.replace(c, "")`. */
  function RemoveChar(s: string, c: char): (r: string)
    ensures c !in r
  {
    Filter(s, x => x != c)
  }

  lemma RemoveCharAbsent(s: string, c: char)
    requires c !in s
    ensures RemoveChar(s, c) == s
  {
    FilterKeepsAll(s, x => x != c);
  }

  predicate IsDigit(c: char) {
    '0' <= c <= '9'
  }

  /** `re.sub(r"[^0-9]", "", s)`. */
  function DigitsOnly(s: string): (r: string)
    ensures forall k :: 0 <= k < |r| ==> IsDigit(r[k])
  {
    Filter(s, IsDigit)
  }

  /** The digits of `a + b` are the digits of `a` followed by those of `b`. */
  lemma DigitsOnlyConcat(a: string, b: string)
    ensures DigitsOnly(a + b) == DigitsOnly(a) + DigitsOnly(b)
  {
    FilterConcat(a, b, IsDigit);
  }

  /** A separator between digits disappears: "2020.01" keeps "202001". */
  lemma DigitsOnlyDropsSeparator(a: string, c: char, b: string)
    requires !IsDigit(c)
    ensures DigitsOnly(a + [c] + b) == DigitsOnly(a) + DigitsOnly(b)
  {
    FilterConcat(a + [c], b, IsDigit);
    FilterConcat(a, [c], IsDigit);
    assert Filter([c], IsDigit) == [];
  }

  /** A string of digits is left as it is. */
  lemma DigitsOnlyOfDigits(s: string)
    requires forall k :: 0 <= k < |s| ==> IsDigit(s[k])
    ensures DigitsOnly(s) == s
  {
    FilterKeepsAll(s, IsDigit);
  }

  function Zeros(n: nat): (r: string)
    ensures |r| == n && forall k :: 0 <= k < n ==> r[k] == '0'
  {
    if n == 0 then [] else ['0'] + Zeros(n - 1)
  }

  /** `s.zfill(width)`: zeros on the left up to `width`, after a leading sign. */
  function ZFill(s: string, width: nat): (r: string)
    ensures |r| == if |s| >= width then |s| else width
    ensures |s| >= width ==> r == s
    ensures |s| < width && (s == [] || (s[0] != '+' && s[0] != '-')) ==>
      r[width - |s|..] == s && forall k :: 0 <= k < width - |s| ==> r[k] == '0'
    ensures |s| < width && s != [] && (s[0] == '+' || s[0] == '-') ==>
      r[0] == s[0] && r[width - |s| + 1..] == s[1..] && forall k :: 1 <= k <= width - |s| ==> r[k] == '0'
  {
    if |s| >= width then s
    else
      var fill := width - |s|;
      var padded := Zeros(fill) + s;
      if s != [] && (padded[fill] == '+' || padded[fill] == '-') then
        [padded[fill]] + Zeros(fill) + s[1..]
      else padded
  }

  /** Drops everything up to, not including, the first newline. */
  function SkipLine(s: string): (r: string)
    ensures |r| <= |s| && r == s[|s| - |r|..]
    ensures r == [] || r[0] == '\n'
    ensures forall k :: 0 <= k < |s| - |r| ==> s[k] != '\n'
  {
    if s == [] || s[0] == '\n' then s else SkipLine(s[1..])
  }

  /** `re.sub(r"\/.*", "", s)`: every `/` is removed with the rest of its line. */
  function DropSlashRuns(s: string): (r: string)
    ensures '/' !in r
    decreases |s|
  {
    if s == [] then []
    else if s[0] == '/' then DropSlashRuns(SkipLine(s[1..]))
    else [s[0]] + DropSlashRuns(s[1..])
  }

  /** On a single line the substitution keeps the text before the first `/`. */
  lemma {:induction false} DropSlashRunsSingleLine(s: string)
    requires '\n' !in s
    ensures DropSlashRuns(s) == SplitOn(s, '/')[0]
  {
    if s != [] {
      if s[0] == '/' {
        assert SkipLine(s[1..]) == [];
      } else {
        DropSlashRunsSingleLine(s[1..]);
      }
    }
  }
}
