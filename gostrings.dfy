/** The parts of Go's standard library that the profile generator leans on:
    strings.HasPrefix/HasSuffix/TrimPrefix/Contains/Split/Join/ReplaceAll/Fields,
    strconv.ParseBool and path/filepath.Base (Unix separator). Each is written
    to follow the Go definition for the inputs the generator passes. */
module GoStrings {

  import opened Wrappers

  predicate HasPrefix(s: string, prefix: string) {
    |prefix| <= |s| && s[..|prefix|] == prefix
  }

  predicate HasSuffix(s: string, suffix: string) {
    |suffix| <= |s| && s[|s| - |suffix|..] == suffix
  }

  /** strings.TrimPrefix: drops one leading copy of prefix, if there is one. */
  function TrimPrefix(s: string, prefix: string): (r: string)
    ensures HasPrefix(s, prefix) ==> s == prefix + r
    ensures !HasPrefix(s, prefix) ==> r == s
  {
    if HasPrefix(s, prefix) then s[|prefix|..] else s
  }

  /** strings.Contains, as a left-to-right scan. */
  predicate Contains(s: string, sub: string)
    decreases |s|
  {
    HasPrefix(s, sub) || (|s| > 0 && Contains(s[1..], sub))
  }

  /** sub occurs in s at offset i. */
  predicate OccursAt(s: string, sub: string, i: int) {
    0 <= i <= |s| - |sub| && s[i..i + |sub|] == sub
  }

  /** Contains holds exactly when sub occurs at some offset of s. */
  lemma {:induction false} ContainsAt(s: string, sub: string)
    ensures Contains(s, sub) <==> exists i :: OccursAt(s, sub, i)
    decreases |s|
  {
    if |s| > 0 {
      ContainsAt(s[1..], sub);
      if HasPrefix(s, sub) {
        assert OccursAt(s, sub, 0);
      }
      if Contains(s[1..], sub) {
        var i :| OccursAt(s[1..], sub, i);
        assert OccursAt(s, sub, i + 1);
      }
      if exists i :: OccursAt(s, sub, i) {
        var i :| OccursAt(s, sub, i);
        if i > 0 {
          assert OccursAt(s[1..], sub, i - 1);
        } else {
          assert HasPrefix(s, sub);
        }
      }
    } else {
      if Contains(s, sub) {
        assert OccursAt(s, sub, 0);
      }
      if exists i :: OccursAt(s, sub, i) {
        var i :| OccursAt(s, sub, i);
        assert HasPrefix(s, sub);
      }
    }
  }

  /** A string that occurs inside a piece of s occurs inside s. */
  lemma ContainsWithin(s: string, i: int, j: int, sub: string)
    requires 0 <= i <= j <= |s|
    requires Contains(s[i..j], sub)
    ensures Contains(s, sub)
  {
    ContainsAt(s[i..j], sub);
    var k :| OccursAt(s[i..j], sub, k);
    forall m | 0 <= m < |sub|
      ensures s[i + k + m] == sub[m]
    {
      assert s[i..j][k..k + |sub|][m] == sub[m];
    }
    assert OccursAt(s, sub, i + k);
    ContainsAt(s, sub);
  }

  /** Number of occurrences of the character c in s. */
  function Count(s: string, c: char): nat
  {
    if |s| == 0 then 0 else (if s[0] == c then 1 else 0) + Count(s[1..], c)
  }

  /** strings.Split with a one-character separator: the maximal pieces of s
      between the occurrences of sep. Split("", sep) is [""]. */
  function Split(s: string, sep: char): (parts: seq<string>)
    ensures |parts| == Count(s, sep) + 1
    ensures forall k :: 0 <= k < |parts| ==> sep !in parts[k]
    decreases |s|
  {
    if |s| == 0 then [""]
    else
      var rest := Split(s[1..], sep);
      if s[0] == sep then [""] + rest else [[s[0]] + rest[0]] + rest[1..]
  }

  /** strings.Join. */
  function Join(parts: seq<string>, sep: string): string
  {
    if |parts| == 0 then ""
    else if |parts| == 1 then parts[0]
    else parts[0] + sep + Join(parts[1..], sep)
  }

  /** Splitting on a character and joining again gives back the string. */
  lemma {:induction false} JoinSplit(s: string, sep: char)
    ensures Join(Split(s, sep), [sep]) == s
    decreases |s|
  {
    if |s| > 0 {
      JoinSplit(s[1..], sep);
      var rest := Split(s[1..], sep);
      if s[0] != sep {
        if |rest| > 1 {
          assert Join(rest, [sep]) == rest[0] + [sep] + Join(rest[1..], [sep]);
          assert rest[1..][1..] == rest[2..];
        }
      }
      assert s == [s[0]] + s[1..];
    }
  }

  /** A string without the separator is a single piece. */
  lemma {:induction false} SplitNoSep(s: string, sep: char)
    requires sep !in s
    ensures Split(s, sep) == [s]
    decreases |s|
  {
    if |s| > 0 {
      SplitNoSep(s[1..], sep);
      assert s == [s[0]] + s[1..];
    }
  }

  /** A separator-free head followed by the separator splits off as the first piece. */
  lemma {:induction false} SplitHead(a: string, b: string, sep: char)
    requires sep !in a
    ensures Split(a + [sep] + b, sep) == [a] + Split(b, sep)
    decreases |a|
  {
    if |a| == 0 {
      assert a + [sep] + b == [sep] + b;
      assert ([sep] + b)[1..] == b;
    } else {
      var s := a + [sep] + b;
      assert s[1..] == a[1..] + [sep] + b;
      SplitHead(a[1..], b, sep);
      assert [a[0]] + a[1..] == a;
    }
  }

  /** strings.Split with a separator of any non-empty length: pieces between
      the leftmost non-overlapping occurrences of sep. */
  function SplitOn(s: string, sep: string): (parts: seq<string>)
    requires |sep| > 0
    ensures |parts| >= 1
    decreases |s|
  {
    if |s| == 0 then [""]
    else if HasPrefix(s, sep) then [""] + SplitOn(s[|sep|..], sep)
    else
      var rest := SplitOn(s[1..], sep);
      [[s[0]] + rest[0]] + rest[1..]
  }

  /** strings.ReplaceAll for a non-empty pattern: every leftmost non-overlapping
      occurrence of pattern is replaced by replacement. */
  function ReplaceAll(s: string, pattern: string, replacement: string): string
    requires |pattern| > 0
    decreases |s|
  {
    if |s| == 0 then ""
    else if HasPrefix(s, pattern) then replacement + ReplaceAll(s[|pattern|..], pattern, replacement)
    else [s[0]] + ReplaceAll(s[1..], pattern, replacement)
  }

  /** ReplaceAll is Split followed by Join, as Go documents it. */
  lemma {:induction false} ReplaceAllIsSplitJoin(s: string, pattern: string, replacement: string)
    requires |pattern| > 0
    ensures ReplaceAll(s, pattern, replacement) == Join(SplitOn(s, pattern), replacement)
    decreases |s|
  {
    if |s| > 0 {
      if HasPrefix(s, pattern) {
        ReplaceAllIsSplitJoin(s[|pattern|..], pattern, replacement);
        var rest := SplitOn(s[|pattern|..], pattern);
        assert ([""] + rest)[1..] == rest;
      } else {
        ReplaceAllIsSplitJoin(s[1..], pattern, replacement);
        var rest := SplitOn(s[1..], pattern);
        var parts := [[s[0]] + rest[0]] + rest[1..];
        if |rest| > 1 {
          assert parts[1..] == rest[1..];
        }
      }
    }
  }

  /** Splitting on a string and joining with it again gives back the string. */
  lemma {:induction false} JoinSplitOn(s: string, sep: string)
    requires |sep| > 0
    ensures Join(SplitOn(s, sep), sep) == s
    decreases |s|
  {
    if |s| > 0 {
      if HasPrefix(s, sep) {
        JoinSplitOn(s[|sep|..], sep);
        var rest := SplitOn(s[|sep|..], sep);
        assert ([""] + rest)[1..] == rest;
        assert s == sep + s[|sep|..];
      } else {
        JoinSplitOn(s[1..], sep);
        var rest := SplitOn(s[1..], sep);
        var parts := [[s[0]] + rest[0]] + rest[1..];
        if |rest| > 1 {
          assert parts[1..] == rest[1..];
          assert Join(parts, sep) == ([s[0]] + rest[0]) + sep + Join(rest[1..], sep);
          assert Join(rest, sep) == rest[0] + sep + Join(rest[1..], sep);
        }
        assert s == [s[0]] + s[1..];
      }
    }
  }

  /** A string without the pattern is left alone. */
  lemma {:induction false} ReplaceAllAbsent(s: string, pattern: string, replacement: string)
    requires |pattern| > 0 && !Contains(s, pattern)
    ensures ReplaceAll(s, pattern, replacement) == s
    decreases |s|
  {
    if |s| > 0 {
      ReplaceAllAbsent(s[1..], pattern, replacement);
      assert [s[0]] + s[1..] == s;
    }
  }

  /** A pattern that ends the string, and occurs nowhere before, is the one
      replacement made. */
  lemma {:induction false} ReplaceAllAtEnd(x: string, pattern: string, replacement: string)
    requires |pattern| > 0
    requires forall i :: 0 <= i < |x| ==> !OccursAt(x + pattern, pattern, i)
    ensures ReplaceAll(x + pattern, pattern, replacement) == x + replacement
    decreases |x|
  {
    var s := x + pattern;
    if |x| == 0 {
      assert s == pattern && HasPrefix(s, pattern);
      assert s[|pattern|..] == "";
    } else {
      assert !OccursAt(s, pattern, 0);
      assert s[1..] == x[1..] + pattern;
      forall i | 0 <= i < |x| - 1
        ensures !OccursAt(x[1..] + pattern, pattern, i)
      {
        assert !OccursAt(s, pattern, i + 1);
        assert (x[1..] + pattern)[i..i + |pattern|] == s[i + 1..i + 1 + |pattern|];
      }
      ReplaceAllAtEnd(x[1..], pattern, replacement);
      assert [x[0]] + (x[1..] + replacement) == x + replacement;
    }
  }

  /** A prefix holding no first character of the pattern passes through
      unchanged, and the replacing goes on after it. */
  lemma {:induction false} ReplaceAllSkip(x: string, rest: string, pattern: string, replacement: string)
    requires |pattern| > 0 && pattern[0] !in x
    ensures ReplaceAll(x + rest, pattern, replacement) == x + ReplaceAll(rest, pattern, replacement)
    decreases |x|
  {
    if |x| == 0 {
      assert x + rest == rest;
    } else {
      var s := x + rest;
      assert s[0] == x[0] && x[0] != pattern[0];
      assert !HasPrefix(s, pattern);
      assert s[1..] == x[1..] + rest;
      assert pattern[0] !in x[1..] by {
        assert forall k :: 0 <= k < |x[1..]| ==> x[1..][k] == x[k + 1];
      }
      ReplaceAllSkip(x[1..], rest, pattern, replacement);
      assert [x[0]] + (x[1..] + ReplaceAll(rest, pattern, replacement)) == x + ReplaceAll(rest, pattern, replacement);
    }
  }

  /** An occurrence of the pattern after such a prefix is the first one
      replaced. */
  lemma ReplaceAllAround(x: string, rest: string, pattern: string, replacement: string)
    requires |pattern| > 0 && pattern[0] !in x
    ensures ReplaceAll(x + (pattern + rest), pattern, replacement) == x + (replacement + ReplaceAll(rest, pattern, replacement))
  {
    ReplaceAllSkip(x, pattern + rest, pattern, replacement);
    var t := pattern + rest;
    assert HasPrefix(t, pattern) && t[|pattern|..] == rest;
  }

  /** Replacing a one-character string by another rewrites that character
      position by position and leaves the length alone. */
  lemma {:induction false} ReplaceAllChar(s: string, a: char, b: char)
    ensures |ReplaceAll(s, [a], [b])| == |s|
    ensures forall k :: 0 <= k < |s| ==> ReplaceAll(s, [a], [b])[k] == if s[k] == a then b else s[k]
    decreases |s|
  {
    if |s| > 0 {
      ReplaceAllChar(s[1..], a, b);
      assert HasPrefix(s, [a]) <==> s[0] == a;
    }
  }

  /** unicode.IsSpace. */
  predicate IsSpace(c: char) {
    c == '\t' || c == '\n' || c == '\U{B}' || c == '\U{C}' || c == '\r' || c == ' '
    || c == '\U{85}' || c == '\U{A0}' || c == '\U{1680}'
    || ('\U{2000}' <= c <= '\U{200A}')
    || c == '\U{2028}' || c == '\U{2029}' || c == '\U{202F}' || c == '\U{205F}' || c == '\U{3000}'
  }

  /** The longest prefix of s without white space. */
  function Word(s: string): (w: string)
    ensures |w| <= |s| && w == s[..|w|]
    ensures forall k :: 0 <= k < |w| ==> !IsSpace(w[k])
    ensures |w| < |s| ==> IsSpace(s[|w|])
    decreases |s|
  {
    if |s| == 0 || IsSpace(s[0]) then "" else [s[0]] + Word(s[1..])
  }

  /** strings.Fields: the maximal runs of non-space characters, in order. */
  function Fields(s: string): (r: seq<string>)
    ensures forall k :: 0 <= k < |r| ==> |r[k]| > 0
    ensures forall k, m :: 0 <= k < |r| && 0 <= m < |r[k]| ==> !IsSpace(r[k][m])
    decreases |s|
  {
    if |s| == 0 then []
    else if IsSpace(s[0]) then Fields(s[1..])
    else
      var w := Word(s);
      [w] + Fields(s[|w|..])
  }

  /** A word followed by a space is the first field. */
  lemma {:induction false} FieldsOfWordThenSpace(w: string, c: char, rest: string)
    requires |w| > 0 && forall k :: 0 <= k < |w| ==> !IsSpace(w[k])
    requires IsSpace(c)
    ensures Fields(w + [c] + rest) == [w] + Fields(rest)
  {
    var s := w + [c] + rest;
    WordOf(w, c, rest);
    assert s[|w|..] == [c] + rest;
    assert ([c] + rest)[1..] == rest;
  }

  lemma {:induction false} WordOf(w: string, c: char, rest: string)
    requires forall k :: 0 <= k < |w| ==> !IsSpace(w[k])
    requires IsSpace(c)
    ensures Word(w + [c] + rest) == w
    decreases |w|
  {
    var s := w + [c] + rest;
    if |w| > 0 {
      assert s[1..] == w[1..] + [c] + rest;
      WordOf(w[1..], c, rest);
      assert [w[0]] + w[1..] == w;
    } else {
      assert s[0] == c;
    }
  }

  /** A single word is its own only field. */
  lemma FieldsOfWord(w: string)
    requires |w| > 0 && forall k :: 0 <= k < |w| ==> !IsSpace(w[k])
    ensures Fields(w) == [w]
  {
    var v := Word(w);
    assert v == w;
    assert Fields(w) == [v] + Fields(w[|v|..]);
    assert w[|v|..] == "";
  }

  /** strconv.ParseBool. */
  function ParseBool(s: string): (r: Option<bool>)
    ensures r == Some(true) <==> s in {"1", "t", "T", "TRUE", "true", "True"}
    ensures r == Some(false) <==> s in {"0", "f", "F", "FALSE", "false", "False"}
  {
    if s in {"1", "t", "T", "TRUE", "true", "True"} then Some(true)
    else if s in {"0", "f", "F", "FALSE", "false", "False"} then Some(false)
    else None
  }

  /** s with its trailing '/' characters removed. */
  function TrimTrailingSlashes(s: string): (r: string)
    ensures |r| <= |s| && r == s[..|r|]
    ensures |r| > 0 ==> r[|r| - 1] != '/'
    ensures forall k :: |r| <= k < |s| ==> s[k] == '/'
    decreases |s|
  {
    if |s| > 0 && s[|s| - 1] == '/' then TrimTrailingSlashes(s[..|s| - 1]) else s
  }

  /** The part of s after its last '/' (all of s when there is none). */
  function AfterLastSlash(s: string): (r: string)
    ensures |r| <= |s| && r == s[|s| - |r|..]
    ensures '/' !in r
    ensures |r| < |s| ==> s[|s| - |r| - 1] == '/'
    decreases |s|
  {
    if |s| == 0 || s[|s| - 1] == '/' then "" else AfterLastSlash(s[..|s| - 1]) + [s[|s| - 1]]
  }

  /** filepath.Base on Unix: the last element of the path, after trailing
      slashes are dropped; "." for the empty path and "/" for a path made
      only of slashes. */
  function Base(path: string): (r: string)
    ensures |r| > 0
    ensures '/' in r ==> r == "/"
    ensures path == "" ==> r == "."
    ensures '/' !in path && path != "" ==> r == path
  {
    if path == "" then "."
    else
      var stripped := TrimTrailingSlashes(path);
      if stripped == "" then "/"
      else
        var last := AfterLastSlash(stripped);
        assert |last| > 0 by {
          assert stripped[|stripped| - 1] != '/';
        }
        last
  }

  /** Splitting the join of separator-free pieces gives the pieces back. */
  lemma {:induction false} SplitJoin(parts: seq<string>, sep: char)
    requires |parts| > 0
    requires forall k :: 0 <= k < |parts| ==> sep !in parts[k]
    ensures Split(Join(parts, [sep]), sep) == parts
    decreases |parts|
  {
    if |parts| == 1 {
      SplitNoSep(parts[0], sep);
    } else {
      SplitJoin(parts[1..], sep);
      SplitHead(parts[0], Join(parts[1..], [sep]), sep);
      assert [parts[0]] + parts[1..] == parts;
    }
  }

  /** A Go `for k := range m` loop visits every key of m exactly once, in an
      order the language leaves open; `order` is one such visiting order. */
  predicate IsEnumeration<K>(order: seq<K>, keys: set<K>) {
    && (forall i, j :: 0 <= i < j < |order| ==> order[i] != order[j])
    && (forall k :: k in keys ==> k in order)
    && (forall i :: 0 <= i < |order| ==> order[i] in keys)
  }
}
