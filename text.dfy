/** String helpers shared by the server and the client: trimming, blank
    tests, ASCII case mapping, substring search, split and join. Only the
    ASCII subset of the JavaScript and Kotlin behaviour is modelled; the two
    languages disagree on which ASCII characters are white space, so each
    has its own trim. */
module Text {
  import opened Wrappers

  /** The ASCII characters that JavaScript `String.prototype.trim` treats
      as white space. */
  predicate IsWhitespace(c: char) {
    c == ' ' || c == '\t' || c == '\n' || c == '\r' || c == '\U{000B}' || c == '\U{000C}'
  }

  /** The ASCII characters for which Kotlin `Char.isWhitespace` holds: the
      JavaScript ones and the four separators U+001C to U+001F, which Java
      `Character.isWhitespace` also counts. */
  predicate IsKotlinWhitespace(c: char) {
    IsWhitespace(c) || '\U{001C}' <= c <= '\U{001F}'
  }

  predicate IsUnderscore(c: char) {
    c == '_'
  }

  /** `s` without its leading characters that satisfy `p`. */
  function TrimStart(s: string, p: char -> bool): (r: string)
    ensures |r| <= |s|
    ensures r != [] ==> !p(r[0])
    decreases |s|
  {
    if s != [] && p(s[0]) then TrimStart(s[1..], p) else s
  }

  /** `s` without its trailing characters that satisfy `p`. */
  function TrimEnd(s: string, p: char -> bool): (r: string)
    ensures |r| <= |s|
    ensures r != [] ==> !p(r[|r| - 1])
    decreases |s|
  {
    if s != [] && p(s[|s| - 1]) then TrimEnd(s[..|s| - 1], p) else s
  }

  /** `s` with every leading and trailing character satisfying `p` removed
      (Kotlin `trim(predicate)`): neither end of the result satisfies `p`. */
  function TrimBy(s: string, p: char -> bool): (r: string)
    ensures |r| <= |s|
    ensures r != [] ==> !p(r[0]) && !p(r[|r| - 1])
  {
    var t := TrimStart(s, p);
    var r := TrimEnd(t, p);
    TrimEndKeepsFront(t, p);
    r
  }

  /** What `TrimStart` keeps: a suffix of `s` after a run of `p`
      characters, empty exactly when every character of `s` satisfies `p`. */
  lemma {:induction false} TrimStartFacts(s: string, p: char -> bool)
    ensures TrimStart(s, p) == s[|s| - |TrimStart(s, p)|..]
    ensures forall k :: 0 <= k < |s| - |TrimStart(s, p)| ==> p(s[k])
    ensures TrimStart(s, p) == [] <==> forall i :: 0 <= i < |s| ==> p(s[i])
    decreases |s|
  {
    if s != [] && p(s[0]) {
      TrimStartFacts(s[1..], p);
      assert forall i :: 0 < i < |s| ==> s[i] == s[1..][i - 1];
    }
  }

  /** What `TrimEnd` keeps: a prefix of `s` before a run of `p` characters,
      empty exactly when every character of `s` satisfies `p`. */
  lemma {:induction false} TrimEndFacts(s: string, p: char -> bool)
    ensures TrimEnd(s, p) == s[..|TrimEnd(s, p)|]
    ensures forall k :: |TrimEnd(s, p)| <= k < |s| ==> p(s[k])
    ensures TrimEnd(s, p) == [] <==> forall i :: 0 <= i < |s| ==> p(s[i])
    decreases |s|
  {
    if s != [] && p(s[|s| - 1]) {
      TrimEndFacts(s[..|s| - 1], p);
      assert forall i :: 0 <= i < |s| - 1 ==> s[i] == s[..|s| - 1][i];
    }
  }

  /** `TrimEnd` of a string that does not start with a `p` character keeps it
      non-empty (and so keeps its first character). */
  lemma TrimEndKeepsFront(t: string, p: char -> bool)
    ensures t != [] && !p(t[0]) ==> TrimEnd(t, p) != [] && TrimEnd(t, p)[0] == t[0]
  {
    if t != [] && !p(t[0]) {
      TrimEndFacts(t, p);
    }
  }

  /** `TrimBy` is empty exactly when every character satisfies `p`. */
  lemma TrimByEmpty(s: string, p: char -> bool)
    ensures TrimBy(s, p) == [] <==> forall i :: 0 <= i < |s| ==> p(s[i])
  {
    var t := TrimStart(s, p);
    TrimStartFacts(s, p);
    TrimEndKeepsFront(t, p);
    if t != [] {
      assert !p(t[0]);
    }
  }

  /** `TrimBy` keeps the slice `s[i..j]` and drops only `p` characters
      around it. */
  lemma TrimBySlice(s: string, p: char -> bool) returns (i: nat, j: nat)
    ensures i <= j <= |s| && TrimBy(s, p) == s[i..j]
    ensures forall k :: 0 <= k < i ==> p(s[k])
    ensures forall k :: j <= k < |s| ==> p(s[k])
  {
    var t := TrimStart(s, p);
    TrimStartFacts(s, p);
    TrimEndFacts(t, p);
    var r := TrimEnd(t, p);
    assert TrimBy(s, p) == r;
    i := |s| - |t|;
    j := i + |r|;
    assert t == s[i..] && r == t[..|r|];
    assert r == s[i..j];
    assert forall k :: j <= k < |s| ==> s[k] == t[k - i];
  }

  /** Trimming the front of a concatenation: the run crosses into `y` only
      when all of `x` is trimmed. */
  lemma {:induction false} TrimStartAppend(x: string, y: string, p: char -> bool)
    ensures TrimStart(x + y, p) ==
      if forall k :: 0 <= k < |x| ==> p(x[k]) then TrimStart(y, p) else TrimStart(x, p) + y
    decreases |x|
  {
    if x == [] {
      assert x + y == y;
    } else {
      assert (x + y)[0] == x[0];
      if p(x[0]) {
        assert (x + y)[1..] == x[1..] + y;
        TrimStartAppend(x[1..], y, p);
        assert (forall k :: 0 <= k < |x| ==> p(x[k])) <==> (forall k :: 0 <= k < |x| - 1 ==> p(x[1..][k]));
      }
    }
  }

  /** Trimming twice is trimming once. */
  lemma TrimByIdempotent(s: string, p: char -> bool)
    ensures TrimBy(TrimBy(s, p), p) == TrimBy(s, p)
  {
    var r := TrimBy(s, p);
    if r != [] {
      assert TrimStart(r, p) == r;
    }
  }

  /** JavaScript `String.prototype.trim`. */
  function Trim(s: string): string {
    TrimBy(s, IsWhitespace)
  }

  /** Kotlin `String.trim()`. */
  function KotlinTrim(s: string): string {
    TrimBy(s, IsKotlinWhitespace)
  }

  /** Kotlin `isBlank()`: empty or only white space. */
  predicate IsBlank(s: string) {
    forall i :: 0 <= i < |s| ==> IsKotlinWhitespace(s[i])
  }

  /** Kotlin `isNullOrBlank()`. */
  predicate IsNullOrBlank(o: Option<string>) {
    o.None? || IsBlank(o.value)
  }

  /** Kotlin `isNullOrEmpty()`. */
  predicate IsNullOrEmpty(o: Option<string>) {
    o.None? || o.value == []
  }

  /** After a Kotlin trim, "blank" and "empty" coincide. */
  lemma TrimmedBlankIsEmpty(s: string)
    ensures IsBlank(KotlinTrim(s)) <==> KotlinTrim(s) == []
    ensures KotlinTrim(s) == [] <==> IsBlank(s)
  {
    var r := KotlinTrim(s);
    TrimByEmpty(s, IsKotlinWhitespace);
    if r != [] {
      assert !IsKotlinWhitespace(r[0]);
    }
  }

  /** Trimming keeps a slice `s[i..j]` that neither starts nor ends with a
      trimmed character, when everything around it is trimmed. */
  lemma TrimBySurrounded(s: string, p: char -> bool, i: nat, j: nat)
    requires i < j <= |s|
    requires !p(s[i]) && !p(s[j - 1])
    requires forall k :: 0 <= k < i ==> p(s[k])
    requires forall k :: j <= k < |s| ==> p(s[k])
    ensures TrimBy(s, p) == s[i..j]
  {
    var x := s[i..];
    assert s == s[..i] + x;
    TrimStartAppend(s[..i], x, p);
    assert TrimStart(s, p) == x;
    TrimEndFacts(x, p);
  }

  /** A JavaScript-trimmed string whose ends are not Kotlin white space is
      also what Kotlin's trim gives. */
  lemma KotlinTrimAgrees(s: string)
    requires Trim(s) != []
    requires !IsKotlinWhitespace(Trim(s)[0]) && !IsKotlinWhitespace(Trim(s)[|Trim(s)| - 1])
    ensures KotlinTrim(s) == Trim(s)
  {
    var i, j := TrimBySlice(s, IsWhitespace);
    TrimBySurrounded(s, IsKotlinWhitespace, i, j);
  }

  /** The UTF-16 code units of one character: two (a surrogate pair) for a
      character beyond U+FFFF, one otherwise. */
  function Utf16Width(c: char): nat {
    if c >= '\U{10000}' then 2 else 1
  }

  /** `s.length` in JavaScript and in Kotlin, which count UTF-16 code units,
      not characters. */
  function Utf16Length(s: string): (n: nat)
    ensures |s| <= n <= 2 * |s|
  {
    if s == [] then 0 else Utf16Width(s[0]) + Utf16Length(s[1..])
  }

  /** Without characters beyond U+FFFF, the code units are the characters. */
  lemma {:induction false} Utf16LengthBmp(s: string)
    requires forall i :: 0 <= i < |s| ==> s[i] < '\U{10000}'
    ensures Utf16Length(s) == |s|
  {
    if s != [] {
      Utf16LengthBmp(s[1..]);
    }
  }

  /** Code units add up over a concatenation. */
  lemma {:induction false} Utf16LengthAppend(a: string, b: string)
    ensures Utf16Length(a + b) == Utf16Length(a) + Utf16Length(b)
  {
    if a == [] {
      assert a + b == b;
    } else {
      assert (a + b)[0] == a[0] && (a + b)[1..] == a[1..] + b;
      Utf16LengthAppend(a[1..], b);
    }
  }

  /** JavaScript truthiness of an optional string field: present and non-empty. */
  predicate Truthy(o: Option<string>) {
    o.Some? && o.value != []
  }

  function ToLowerChar(c: char): char {
    if 'A' <= c <= 'Z' then (c as int + 32) as char else c
  }

  function ToUpperChar(c: char): char {
    if 'a' <= c <= 'z' then (c as int - 32) as char else c
  }

  /** Kotlin `lowercase()` restricted to ASCII. */
  function ToLower(s: string): (r: string)
    ensures |r| == |s|
    ensures forall i :: 0 <= i < |s| ==> r[i] == ToLowerChar(s[i])
  {
    seq(|s|, i requires 0 <= i < |s| => ToLowerChar(s[i]))
  }

  /** `needle` is a prefix of `hay`. */
  predicate IsPrefix(needle: string, hay: string) {
    |needle| <= |hay| && hay[..|needle|] == needle
  }

  /** Kotlin `hay.contains(needle)`: `needle` occurs in `hay` at some position. */
  predicate Contains(hay: string, needle: string)
    decreases |hay|
  {
    IsPrefix(needle, hay) || (hay != [] && Contains(hay[1..], needle))
  }

  /** The position-based reading of `Contains`. */
  lemma {:induction false} ContainsAt(hay: string, needle: string, i: nat)
    requires i + |needle| <= |hay| && hay[i..i + |needle|] == needle
    ensures Contains(hay, needle)
    decreases i
  {
    if i == 0 {
      assert hay[..|needle|] == hay[0..|needle|];
    } else {
      assert hay[1..][i - 1..i - 1 + |needle|] == hay[i..i + |needle|];
      ContainsAt(hay[1..], needle, i - 1);
    }
  }

  /** Kotlin `s.split(d)` for a one-character delimiter: the pieces between
      occurrences of `d`, always at least one (possibly empty) piece. */
  function Split(s: string, d: char): (parts: seq<string>)
    ensures |parts| >= 1
    ensures forall k, j :: 0 <= k < |parts| && 0 <= j < |parts[k]| ==> parts[k][j] != d
    decreases |s|
  {
    if s == [] then [[]]
    else if s[0] == d then [[]] + Split(s[1..], d)
    else
      var rest := Split(s[1..], d);
      [[s[0]] + rest[0]] + rest[1..]
  }

  /** Kotlin `joinToString(sep)`. */
  function Join(parts: seq<string>, sep: string): string
    decreases |parts|
  {
    if parts == [] then []
    else if |parts| == 1 then parts[0]
    else parts[0] + sep + Join(parts[1..], sep)
  }

  /** Splitting and joining with the same delimiter gives back the input. */
  lemma {:induction false} JoinSplit(s: string, d: char)
    ensures Join(Split(s, d), [d]) == s
    decreases |s|
  {
    if s == [] {
    } else if s[0] == d {
      JoinSplit(s[1..], d);
      var rest := Split(s[1..], d);
      assert Split(s, d) == [[]] + rest;
      assert Split(s, d)[1..] == rest;
    } else {
      JoinSplit(s[1..], d);
      var rest := Split(s[1..], d);
      var parts := Split(s, d);
      assert parts == [[s[0]] + rest[0]] + rest[1..];
      if |rest| == 1 {
        assert parts == [[s[0]] + rest[0]];
      } else {
        assert parts[1..] == rest[1..];
        assert Join(rest, [d]) == rest[0] + [d] + Join(rest[1..], [d]);
      }
    }
  }

  /** Splits a string that starts with a delimiter-free piece `a`. */
  lemma {:induction false} SplitPrefix(a: string, b: string, d: char)
    requires forall k :: 0 <= k < |a| ==> a[k] != d
    ensures Split(a + [d] + b, d) == [a] + Split(b, d)
    ensures Split(a, d) == [a]
    decreases |a|
  {
    if a == [] {
      assert a + [d] + b == [d] + b;
      assert ([d] + b)[1..] == b;
    } else {
      assert (a + [d] + b)[1..] == a[1..] + [d] + b;
      assert (a + [d] + b)[0] == a[0];
      SplitPrefix(a[1..], b, d);
      assert [a[0]] + a[1..] == a;
    }
  }

  /** Joining pieces that do not contain the delimiter and splitting again
      gives back the pieces. */
  lemma {:induction false} SplitJoin(parts: seq<string>, d: char)
    requires |parts| >= 1
    requires forall k, j :: 0 <= k < |parts| && 0 <= j < |parts[k]| ==> parts[k][j] != d
    ensures Split(Join(parts, [d]), d) == parts
    decreases |parts|
  {
    SplitPrefix(parts[0], [], d);
    if |parts| > 1 {
      SplitJoin(parts[1..], d);
      SplitPrefix(parts[0], Join(parts[1..], [d]), d);
      assert [parts[0]] + parts[1..] == parts;
    }
  }

  /** Every character of a piece of `Split(s, d)` is a character of `s`. */
  lemma {:induction false} SplitChars(s: string, d: char, P: char -> bool)
    requires forall i :: 0 <= i < |s| ==> P(s[i])
    ensures forall k, j :: 0 <= k < |Split(s, d)| && 0 <= j < |Split(s, d)[k]| ==> P(Split(s, d)[k][j])
    decreases |s|
  {
    if s != [] {
      assert forall i :: 0 <= i < |s[1..]| ==> s[1..][i] == s[i + 1];
      SplitChars(s[1..], d, P);
      var rest := Split(s[1..], d);
      if s[0] != d {
        var head := [s[0]] + rest[0];
        assert forall j :: 0 < j < |head| ==> head[j] == rest[0][j - 1];
      }
    }
  }

  /** Every character of `Join(parts, sep)` comes from a piece or from `sep`. */
  lemma {:induction false} JoinChars(parts: seq<string>, sep: string, P: char -> bool)
    requires forall k, j :: 0 <= k < |parts| && 0 <= j < |parts[k]| ==> P(parts[k][j])
    requires forall j :: 0 <= j < |sep| ==> P(sep[j])
    ensures forall i :: 0 <= i < |Join(parts, sep)| ==> P(Join(parts, sep)[i])
    decreases |parts|
  {
    if |parts| > 1 {
      JoinChars(parts[1..], sep, P);
      var a, b := parts[0], Join(parts[1..], sep);
      assert Join(parts, sep) == a + sep + b;
      assert forall i :: 0 <= i < |b| ==> (a + sep + b)[|a| + |sep| + i] == b[i];
    }
  }

  /** Joining a non-empty list whose first piece is non-empty. */
  lemma JoinFirst(parts: seq<string>, sep: string)
    requires |parts| >= 1 && parts[0] != []
    ensures Join(parts, sep) != [] && Join(parts, sep)[0] == parts[0][0]
  {
  }

  /** Lower-casing works character by character. */
  lemma ToLowerAppend(a: string, b: string)
    ensures ToLower(a + b) == ToLower(a) + ToLower(b)
  {
  }

  /** Lower-casing keeps white space and non-white space apart. */
  lemma LowerKeepsWhitespace(c: char)
    ensures IsKotlinWhitespace(ToLowerChar(c)) <==> IsKotlinWhitespace(c)
  {
  }

  lemma {:induction false} LowerTrimStart(s: string)
    ensures ToLower(TrimStart(s, IsKotlinWhitespace)) == TrimStart(ToLower(s), IsKotlinWhitespace)
    decreases |s|
  {
    if s != [] {
      LowerKeepsWhitespace(s[0]);
      assert ToLower(s)[1..] == ToLower(s[1..]);
      LowerTrimStart(s[1..]);
    }
  }

  lemma {:induction false} LowerTrimEnd(s: string)
    ensures ToLower(TrimEnd(s, IsKotlinWhitespace)) == TrimEnd(ToLower(s), IsKotlinWhitespace)
    decreases |s|
  {
    if s != [] {
      LowerKeepsWhitespace(s[|s| - 1]);
      assert ToLower(s)[..|s| - 1] == ToLower(s[..|s| - 1]);
      LowerTrimEnd(s[..|s| - 1]);
    }
  }

  /** Lower-casing and Kotlin trimming commute. */
  lemma LowerTrim(s: string)
    ensures ToLower(KotlinTrim(s)) == KotlinTrim(ToLower(s))
  {
    LowerTrimStart(s);
    LowerTrimEnd(TrimStart(s, IsKotlinWhitespace));
  }

  /** Dropping the trailing run of `x + [c]` for a `p` character `c`. */
  lemma {:induction false} TrimStartSnoc(x: string, c: char, p: char -> bool)
    requires p(c)
    ensures TrimStart(x + [c], p) == if TrimStart(x, p) == [] then [] else TrimStart(x, p) + [c]
    decreases |x|
  {
    if x == [] {
      assert ([c])[1..] == [];
    } else if p(x[0]) {
      assert (x + [c])[1..] == x[1..] + [c];
      TrimStartSnoc(x[1..], c, p);
    }
  }

  /** Trimming ignores one more trimmed character at the front. */
  lemma TrimByExtraFront(c: char, x: string, p: char -> bool)
    requires p(c)
    ensures TrimBy([c] + x, p) == TrimBy(x, p)
  {
    assert ([c] + x)[1..] == x;
    assert TrimStart([c] + x, p) == TrimStart(x, p);
  }

  /** Trimming ignores one more trimmed character at the back. */
  lemma TrimByExtraBack(c: char, x: string, p: char -> bool)
    requires p(c)
    ensures TrimBy(x + [c], p) == TrimBy(x, p)
  {
    TrimStartSnoc(x, c, p);
    var t := TrimStart(x, p);
    if t != [] {
      var u := t + [c];
      assert u[..|u| - 1] == t;
      assert TrimEnd(u, p) == TrimEnd(t, p);
    }
  }
}
