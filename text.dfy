/** String operations the core relies on: splitting on and joining with a
    single separator character (JavaScript's split/join with a one-character
    string), and trimming whitespace from both ends with the whitespace set
    of the language doing the trimming. */
module Text {

  import opened Seqs

  /** `s.split(sep)`: the pieces between separators, in order; a separator at
      either end gives an empty first or last piece. */
  function Split(s: string, sep: char): (parts: seq<string>)
    ensures |parts| >= 1
  {
    if s == [] then [[]]
    else
      var rest := Split(s[1..], sep);
      if s[0] == sep then [[]] + rest else [[s[0]] + rest[0]] + rest[1..]
  }

  /** No piece contains the separator. */
  lemma {:induction false} SplitExcludesSeparator(s: string, sep: char)
    ensures forall k :: 0 <= k < |Split(s, sep)| ==> sep !in Split(s, sep)[k]
  {
    if s != [] {
      SplitExcludesSeparator(s[1..], sep);
      var rest := Split(s[1..], sep);
      if s[0] != sep {
        assert sep !in [s[0]] + rest[0];
      }
    }
  }

  /** `parts.join(sep)`. */
  function Join(parts: seq<string>, sep: char): string
  {
    if parts == [] then []
    else if |parts| == 1 then parts[0]
    else parts[0] + [sep] + Join(parts[1..], sep)
  }

  /** A string without the separator is a single piece. */
  lemma {:induction false} SplitWithoutSeparator(p: string, sep: char)
    requires sep !in p
    ensures Split(p, sep) == [p]
  {
    if p != [] {
      SplitWithoutSeparator(p[1..], sep);
      assert p == [p[0]] + p[1..];
    }
  }

  /** Splitting distributes over a separator: the pieces of `a + sep + b`
      are the pieces of `a` followed by the pieces of `b`. */
  lemma {:induction false} SplitConcat(a: string, b: string, sep: char)
    ensures Split(a + [sep] + b, sep) == Split(a, sep) + Split(b, sep)
  {
    if a == [] {
      assert a + [sep] + b == [sep] + b;
      SplitCons(sep, b, sep);
    } else {
      var c, tail := a[0], a[1..];
      SplitConcat(tail, b, sep);
      SplitConcatStep(c, tail, b, sep);
      assert a == [c] + tail;
    }
  }

  /** One step of SplitConcat: putting a character in front of `a`. */
  lemma SplitConcatStep(c: char, a: string, b: string, sep: char)
    requires Split(a + [sep] + b, sep) == Split(a, sep) + Split(b, sep)
    ensures Split([c] + a + [sep] + b, sep) == Split([c] + a, sep) + Split(b, sep)
  {
    var front, back := Split(a, sep), Split(b, sep);
    assert [c] + a + [sep] + b == [c] + (a + [sep] + b);
    SplitCons(c, a + [sep] + b, sep);
    SplitCons(c, a, sep);
    if c == sep {
      AppendAssoc([[]], front, back);
    } else {
      PrependToFirst(c, front, back);
    }
  }

  /** Putting a character in front of the first piece of a concatenation of
      pieces puts it in front of the first piece of the first part. */
  lemma PrependToFirst(c: char, front: seq<string>, back: seq<string>)
    requires front != []
    ensures [[c] + (front + back)[0]] + (front + back)[1..] == [[c] + front[0]] + front[1..] + back
  {
    DropFirstOfAppend(front, back);
    AppendAssoc([[c] + front[0]], front[1..], back);
  }

  /** Split of a string by its first character. */
  lemma SplitCons(c: char, s: string, sep: char)
    ensures Split([c] + s, sep)
            == if c == sep then [[]] + Split(s, sep) else [[c] + Split(s, sep)[0]] + Split(s, sep)[1..]
  {
    assert ([c] + s)[0] == c && ([c] + s)[1..] == s;
  }

  /** Joining the pieces gives back the string that was split. */
  lemma {:induction false} JoinSplit(s: string, sep: char)
    ensures Join(Split(s, sep), sep) == s
  {
    if s != [] {
      var rest := Split(s[1..], sep);
      JoinSplit(s[1..], sep);
      SplitCons(s[0], s[1..], sep);
      assert s == [s[0]] + s[1..];
      if s[0] != sep {
        JoinCons(s[0], rest, sep);
      }
    }
  }

  /** A character put in front of the first piece comes first in the
      join. */
  lemma JoinCons(c: char, parts: seq<string>, sep: char)
    requires parts != []
    ensures Join([[c] + parts[0]] + parts[1..], sep) == [c] + Join(parts, sep)
  {
    var x := [[c] + parts[0]] + parts[1..];
    if |parts| > 1 {
      assert x[1..] == parts[1..];
      AppendAssoc([c], parts[0] + [sep], Join(parts[1..], sep));
    }
  }

  /** Splitting a join of separator-free pieces recovers the pieces. */
  lemma {:induction false} SplitJoin(parts: seq<string>, sep: char)
    requires |parts| >= 1
    requires forall k :: 0 <= k < |parts| ==> sep !in parts[k]
    ensures Split(Join(parts, sep), sep) == parts
  {
    SplitWithoutSeparator(parts[0], sep);
    if |parts| > 1 {
      SplitJoin(parts[1..], sep);
      SplitConcat(parts[0], Join(parts[1..], sep), sep);
    }
  }

  /** A character that is not the separator and occurs in no piece does not
      occur in the join. */
  lemma {:induction false} JoinExcludes(parts: seq<string>, sep: char, c: char)
    requires c != sep
    requires forall k :: 0 <= k < |parts| ==> c !in parts[k]
    ensures c !in Join(parts, sep)
  {
    if |parts| > 1 {
      JoinExcludes(parts[1..], sep, c);
    }
  }

  /** The index of the first character of `s`, from `i` on, that is not
      whitespace (as `ws` defines it); |s| when there is none. */
  function SkipForward(s: string, i: nat, ws: char -> bool): (r: nat)
    requires i <= |s|
    ensures i <= r <= |s|
    ensures forall k :: i <= k < r ==> ws(s[k])
    ensures r < |s| ==> !ws(s[r])
    decreases |s| - i
  {
    if i == |s| || !ws(s[i]) then i else SkipForward(s, i + 1, ws)
  }

  /** The index just after the last character of `s`, before `j`, that is
      not whitespace; 0 when there is none. */
  function SkipBackward(s: string, j: nat, ws: char -> bool): (r: nat)
    requires j <= |s|
    ensures r <= j
    ensures forall k :: r <= k < j ==> ws(s[k])
    ensures r > 0 ==> !ws(s[r - 1])
  {
    if j == 0 || !ws(s[j - 1]) then j else SkipBackward(s, j - 1, ws)
  }

  /** `s` with the whitespace (as `ws` defines it) removed from both ends:
      nothing when it is all whitespace, otherwise the stretch from its
      first to its last non-whitespace character. */
  function Strip(s: string, ws: char -> bool): (r: string)
    ensures |r| <= |s|
  {
    var start := SkipForward(s, 0, ws);
    if start == |s| then [] else s[start..SkipBackward(s, |s|, ws)]
  }

  /** What Strip removes: the result is empty exactly when `s` is all
      whitespace; otherwise it starts and ends with a non-whitespace
      character and is the stretch of `s` that begins after the leading
      whitespace, everything after it being whitespace too. */
  lemma StripSpec(s: string, ws: char -> bool)
    ensures var r, start := Strip(s, ws), SkipForward(s, 0, ws);
            (r == [] <==> forall k :: 0 <= k < |s| ==> ws(s[k]))
            && (r != [] ==> !ws(r[0]) && !ws(r[|r| - 1]))
            && (forall k :: 0 <= k < start ==> ws(s[k]))
            && start + |r| <= |s|
            && (forall k :: 0 <= k < |r| ==> r[k] == s[start + k])
            && (forall k :: start + |r| <= k < |s| ==> ws(s[k]))
  {
    var start, stop := SkipForward(s, 0, ws), SkipBackward(s, |s|, ws);
    if start < |s| {
      assert start < stop;
      assert Strip(s, ws) == s[start..stop];
    }
  }

  /** A string with no whitespace at either end is its own strip. */
  lemma StripNothing(s: string, ws: char -> bool)
    requires s != [] ==> !ws(s[0]) && !ws(s[|s| - 1])
    ensures Strip(s, ws) == s
  {
    if s != [] {
      assert SkipForward(s, 0, ws) == 0;
      assert SkipBackward(s, |s|, ws) == |s|;
    }
  }

  /** Whitespace around a string does not change its strip. */
  lemma StripPadding(s: string, pad1: string, pad2: string, ws: char -> bool)
    requires forall k :: 0 <= k < |pad1| ==> ws(pad1[k])
    requires forall k :: 0 <= k < |pad2| ==> ws(pad2[k])
    ensures Strip(pad1 + s + pad2, ws) == Strip(s, ws)
  {
    var u := pad1 + s + pad2;
    var start := SkipForward(s, 0, ws);
    if start == |s| {
      PaddedBlank(s, pad1, pad2, ws);
      assert Strip(u, ws) == [] == Strip(s, ws);
    } else {
      PaddedStart(s, pad1, pad2, ws);
      PaddedStop(s, pad1, pad2, ws);
      StripPaddedSome(s, pad1, pad2, ws);
    }
  }

  /** StripPadding for a string that is not blank, once padding is known to
      shift both ends of its strip by the length of `pad1`. */
  lemma StripPaddedSome(s: string, pad1: string, pad2: string, ws: char -> bool)
    requires SkipForward(s, 0, ws) < |s|
    requires SkipForward(pad1 + s + pad2, 0, ws) == |pad1| + SkipForward(s, 0, ws)
    requires SkipBackward(pad1 + s + pad2, |pad1 + s + pad2|, ws) == |pad1| + SkipBackward(s, |s|, ws)
    ensures Strip(pad1 + s + pad2, ws) == Strip(s, ws)
  {
    var u := pad1 + s + pad2;
    var start, stop := SkipForward(s, 0, ws), SkipBackward(s, |s|, ws);
    StripBetween(u, ws);
    StripBetween(s, ws);
    SliceOfMiddle(pad1, s, pad2, start, stop, |pad1| + start, |pad1| + stop);
  }

  /** Strip of a string that is not blank: the stretch between the two
      skips. */
  lemma StripBetween(s: string, ws: char -> bool)
    requires SkipForward(s, 0, ws) < |s|
    ensures SkipForward(s, 0, ws) < SkipBackward(s, |s|, ws)
    ensures Strip(s, ws) == s[SkipForward(s, 0, ws)..SkipBackward(s, |s|, ws)]
  {
  }

  /** A blank string stays blank with whitespace around it. */
  lemma PaddedBlank(s: string, pad1: string, pad2: string, ws: char -> bool)
    requires forall k :: 0 <= k < |pad1| ==> ws(pad1[k])
    requires forall k :: 0 <= k < |pad2| ==> ws(pad2[k])
    requires forall k :: 0 <= k < |s| ==> ws(s[k])
    ensures SkipForward(pad1 + s + pad2, 0, ws) == |pad1 + s + pad2|
  {
    var u := pad1 + s + pad2;
    forall k | 0 <= k < |u| ensures ws(u[k]) {
      if k < |pad1| {
        assert u[k] == pad1[k];
      } else if k < |pad1| + |s| {
        assert u[k] == s[k - |pad1|];
      } else {
        assert u[k] == pad2[k - |pad1| - |s|];
      }
    }
  }

  /** Padding moves the first non-whitespace character by the length of the
      padding before it. */
  lemma PaddedStart(s: string, pad1: string, pad2: string, ws: char -> bool)
    requires forall k :: 0 <= k < |pad1| ==> ws(pad1[k])
    requires SkipForward(s, 0, ws) < |s|
    ensures SkipForward(pad1 + s + pad2, 0, ws) == |pad1| + SkipForward(s, 0, ws)
  {
    var u := pad1 + s + pad2;
    var start, ustart := SkipForward(s, 0, ws), SkipForward(u, 0, ws);
    assert u[|pad1| + start] == s[start];
  }

  /** Padding moves the end of the last non-whitespace character by the
      length of the padding before it. */
  lemma PaddedStop(s: string, pad1: string, pad2: string, ws: char -> bool)
    requires forall k :: 0 <= k < |pad2| ==> ws(pad2[k])
    requires SkipForward(s, 0, ws) < |s|
    ensures SkipBackward(pad1 + s + pad2, |pad1 + s + pad2|, ws) == |pad1| + SkipBackward(s, |s|, ws)
  {
    var u := pad1 + s + pad2;
    var start, stop, ustop := SkipForward(s, 0, ws), SkipBackward(s, |s|, ws), SkipBackward(u, |u|, ws);
    assert start < stop;
    assert u[|pad1| + stop - 1] == s[stop - 1];
  }

  /** A slice of the middle part of a concatenation. */
  lemma SliceOfMiddle<T>(a: seq<T>, s: seq<T>, b: seq<T>, i: nat, j: nat, from: nat, to: nat)
    requires i <= j <= |s| && from == |a| + i && to == |a| + j
    ensures (a + s + b)[from..to] == s[i..j]
  {
    var u := a + s + b;
    forall k | 0 <= k < j - i ensures u[from..to][k] == s[i..j][k] {
      calc {
        u[from..to][k];
        u[|a| + i + k];
        (a + s)[|a| + i + k];
        s[i + k];
      }
    }
  }

  /** ECMAScript's WhiteSpace and LineTerminator characters, which
      String.prototype.trim removes. */
  predicate IsJsWhitespace(c: char)
  {
    c == '\t' || c == '\n' || c == '\U{B}' || c == '\U{C}' || c == '\r' || c == ' '
    || c == '\U{A0}' || c == '\U{1680}' || ('\U{2000}' <= c <= '\U{200A}')
    || c == '\U{2028}' || c == '\U{2029}' || c == '\U{202F}' || c == '\U{205F}'
    || c == '\U{3000}' || c == '\U{FEFF}'
  }

  /** The characters Python's str.isspace accepts, which str.strip() with no
      argument removes. Unlike JavaScript it includes U+001C..U+001F and U+0085
      and excludes U+FEFF. */
  predicate IsPyWhitespace(c: char)
  {
    ('\t' <= c <= '\r') || ('\U{1C}' <= c <= ' ') || c == '\U{85}' || c == '\U{A0}'
    || c == '\U{1680}' || ('\U{2000}' <= c <= '\U{200A}') || c == '\U{2028}'
    || c == '\U{2029}' || c == '\U{202F}' || c == '\U{205F}' || c == '\U{3000}'
  }

  /** String.prototype.trim. */
  function JsTrim(s: string): string
  {
    Strip(s, IsJsWhitespace)
  }

  /** Python's str.strip(). */
  function PyStrip(s: string): string
  {
    Strip(s, IsPyWhitespace)
  }

  /** The two whitespace sets differ, so the two trims differ: U+FEFF is kept
      by Python and removed by JavaScript, U+001C the other way round. */
  lemma TrimsDiffer()
    ensures JsTrim("\U{FEFF}") == [] && PyStrip("\U{FEFF}") == "\U{FEFF}"
    ensures PyStrip("\U{1C}") == [] && JsTrim("\U{1C}") == "\U{1C}"
  {
    assert IsJsWhitespace('\U{FEFF}') && !IsPyWhitespace('\U{FEFF}');
    StripNothing("\U{FEFF}", IsPyWhitespace);
    assert IsPyWhitespace('\U{1C}') && !IsJsWhitespace('\U{1C}');
    StripNothing("\U{1C}", IsJsWhitespace);
  }
}
