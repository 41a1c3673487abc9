/** Display helpers of MainScreen.kt: `formatFilterLabel` turns a status
    key such as "in_cart" into a label such as "In Cart", and `initialsFor` turns a member
    name into the one or two letters of its avatar. */
module Labels {
  import opened Text
  import opened Seqs

  predicate NotBlank(s: string) {
    !IsBlank(s)
  }

  /** Kotlin `replaceFirstChar { it.uppercase() }`. */
  function Capitalize(w: string): (r: string)
    ensures |r| == |w|
    ensures r != [] ==> r[0] == ToUpperChar(w[0]) && r[1..] == w[1..]
  {
    if w == [] then [] else [ToUpperChar(w[0])] + w[1..]
  }

  /** `split(d).filter { it.isNotBlank() }`. */
  function Words(s: string, d: char): seq<string> {
    Filter(Split(s, d), NotBlank)
  }

  /** `formatFilterLabel(value)`. */
  function FormatFilterLabel(value: string): string {
    Join(Map(Words(value, '_'), Capitalize), " ")
  }

  /** The words of a split are non-empty, and built from characters of the
      input other than the delimiter. */
  lemma WordsShape(s: string, d: char, P: char -> bool)
    requires forall i :: 0 <= i < |s| ==> P(s[i])
    ensures forall k :: 0 <= k < |Words(s, d)| ==> Words(s, d)[k] != []
    ensures forall k, j :: 0 <= k < |Words(s, d)| && 0 <= j < |Words(s, d)[k]| ==>
              P(Words(s, d)[k][j]) && Words(s, d)[k][j] != d
  {
    SplitChars(s, d, P);
    var ws := Words(s, d);
    forall k | 0 <= k < |ws|
      ensures ws[k] != []
      ensures forall j :: 0 <= j < |ws[k]| ==> P(ws[k][j]) && ws[k][j] != d
    {
      assert NotBlank(ws[k]);
      assert ws[k] in Split(s, d);
    }
  }

  /** There are no words exactly when the input is made of white space and
      delimiters. */
  lemma NoWords(s: string, d: char)
    ensures Words(s, d) == [] <==> forall i :: 0 <= i < |s| ==> IsKotlinWhitespace(s[i]) || s[i] == d
  {
    var parts := Split(s, d);
    var P := (c: char) => IsKotlinWhitespace(c) || c == d;
    if forall i :: 0 <= i < |s| ==> P(s[i]) {
      SplitChars(s, d, P);
      forall k | 0 <= k < |parts|
        ensures IsBlank(parts[k])
      {
        assert forall j :: 0 <= j < |parts[k]| ==> P(parts[k][j]) && parts[k][j] != d;
      }
      FilterNone(parts, NotBlank);
    } else if Words(s, d) == [] {
      JoinSplit(s, d);
      JoinChars(parts, [d], P);
      assert false;
    }
  }

  /** What the label is: free of `_`; empty exactly when the key is made of
      `_` and white space; and when the key holds no space, splitting the
      label at spaces gives back its words, the key's non-blank pieces each
      with its first letter upper-cased. */
  lemma FilterLabelFacts(value: string)
    ensures forall i :: 0 <= i < |FormatFilterLabel(value)| ==> FormatFilterLabel(value)[i] != '_'
    ensures FormatFilterLabel(value) == [] <==> forall i :: 0 <= i < |value| ==> IsKotlinWhitespace(value[i]) || value[i] == '_'
    ensures (forall i :: 0 <= i < |value| ==> value[i] != ' ') && FormatFilterLabel(value) != [] ==>
              Split(FormatFilterLabel(value), ' ') == Map(Words(value, '_'), Capitalize)
  {
    var ws := Words(value, '_');
    var labels := Map(ws, Capitalize);
    var NoSpace := (c: char) => c != ' ';
    WordsShape(value, '_', (c: char) => true);
    forall k, j | 0 <= k < |labels| && 0 <= j < |labels[k]|
      ensures labels[k][j] != '_'
    {
      if j > 0 {
        assert labels[k][j] == ws[k][j];
      }
    }
    JoinChars(labels, " ", (c: char) => c != '_');
    NoWords(value, '_');
    if ws != [] {
      JoinFirst(labels, " ");
    }
    if (forall i :: 0 <= i < |value| ==> value[i] != ' ') && FormatFilterLabel(value) != [] {
      WordsShape(value, '_', NoSpace);
      forall k, j | 0 <= k < |labels| && 0 <= j < |labels[k]|
        ensures labels[k][j] != ' '
      {
        if j > 0 {
          assert labels[k][j] == ws[k][j];
        }
      }
      SplitJoin(labels, ' ');
    }
  }

  /** A key of two words, such as "in_cart", becomes the two words with
      their first letters upper-cased, separated by one space ("In Cart"). */
  lemma TwoWordLabel(a: string, b: string)
    requires NotBlank(a) && NotBlank(b)
    requires forall k :: 0 <= k < |a| ==> a[k] != '_'
    requires forall k :: 0 <= k < |b| ==> b[k] != '_'
    ensures FormatFilterLabel(a + "_" + b) == Capitalize(a) + " " + Capitalize(b)
  {
    SplitPrefix(a, b, '_');
    SplitPrefix(b, [], '_');
    var ws := [a, b];
    assert Filter(ws, NotBlank) == ws by {
      assert ws[1..] == [b];
      assert [b][1..] == [];
    }
    assert Split(a + "_" + b, '_') == ws;
    assert Words(a + "_" + b, '_') == ws;
    var labels := [Capitalize(a), Capitalize(b)];
    assert Map(ws, Capitalize) == labels;
    assert labels[1..] == [Capitalize(b)];
    assert Join(labels, " ") == Capitalize(a) + " " + Join([Capitalize(b)], " ");
  }

  // ---------------------------------------------------------------------
  // initialsFor
  // ---------------------------------------------------------------------

  /** `mapNotNull { it.firstOrNull()?.uppercaseChar() }`. */
  function FirstLetters(ws: seq<string>): (r: string)
    ensures |r| <= |ws|
    decreases |ws|
  {
    if ws == [] then []
    else (if ws[0] == [] then [] else [ToUpperChar(ws[0][0])]) + FirstLetters(ws[1..])
  }

  /** `initialsFor(name)`. */
  function InitialsFor(name: string): string {
    var ws := Words(KotlinTrim(name), ' ');
    var initials := FirstLetters(ws[..if |ws| < 2 then |ws| else 2]);
    if initials == [] then "-" else initials
  }

  /** The first letters of non-empty words: one per word. */
  lemma {:induction false} FirstLettersOfWords(ws: seq<string>)
    requires forall k :: 0 <= k < |ws| ==> ws[k] != []
    ensures |FirstLetters(ws)| == |ws|
    ensures forall k :: 0 <= k < |ws| ==> FirstLetters(ws)[k] == ToUpperChar(ws[k][0])
    decreases |ws|
  {
    if ws != [] {
      FirstLettersOfWords(ws[1..]);
      assert forall k :: 1 <= k < |ws| ==> ws[k] == ws[1..][k - 1];
    }
  }

  /** A blank name shows "-"; any other name shows one or two letters, the
      first being its first non-space character upper-cased, and two
      exactly when it has at least two space-separated words, the second
      being the upper-cased first character of the second word. */
  lemma InitialsFacts(name: string)
    ensures IsBlank(name) ==> InitialsFor(name) == "-"
    ensures !IsBlank(name) ==>
      var r := InitialsFor(name);
      var ws := Words(KotlinTrim(name), ' ');
      && 1 <= |r| <= 2 && KotlinTrim(name) != []
      && r[0] == ToUpperChar(KotlinTrim(name)[0])
      && (|r| == 2 <==> |ws| >= 2)
      && (|r| == 2 ==> ws[1] != [] && r[1] == ToUpperChar(ws[1][0]))
  {
    var t := KotlinTrim(name);
    var ws := Words(t, ' ');
    TrimmedBlankIsEmpty(name);
    WordsShape(t, ' ', (c: char) => true);
    var firstTwo := ws[..if |ws| < 2 then |ws| else 2];
    FirstLettersOfWords(firstTwo);
    if IsBlank(name) {
      assert t == [];
      assert Split(t, ' ') == [[]];
      assert ws == [];
    } else {
      assert !IsKotlinWhitespace(t[0]);
      var parts := Split(t, ' ');
      var head := parts[0];
      assert head != [] && head[0] == t[0];
      assert NotBlank(head);
      assert ws[0] == head;
    }
  }
}
