/** The document ids MainScreen.kt derives from free text (`suggestionDocId`,
    `budgetDocId`): trim, lower-case, replace every run of characters
    outside [a-z0-9] by one `_`, strip `_` at both ends, and fall back to a
    fixed word when nothing is left. */
module DocIds {
  import opened Text

  predicate IsLowerAlnum(c: char) {
    'a' <= c <= 'z' || '0' <= c <= '9'
  }

  predicate NotLowerAlnum(c: char) {
    !IsLowerAlnum(c)
  }

  /** A character of the raw input that ends up in a separator run: one
      whose ASCII lower-case form is not in [a-z0-9]. */
  predicate IsSeparator(c: char) {
    NotLowerAlnum(ToLowerChar(c))
  }

  /** Only [a-z0-9_]. */
  predicate IdChars(s: string) {
    forall i :: 0 <= i < |s| ==> IsLowerAlnum(s[i]) || s[i] == '_'
  }

  /** No two `_` in a row. */
  predicate SingleSeparators(s: string) {
    forall i :: 0 <= i < |s| - 1 ==> !(s[i] == '_' && s[i + 1] == '_')
  }

  /** The shape of a normalised name. */
  predicate NormalForm(n: string) {
    IdChars(n) && SingleSeparators(n) && (n != [] ==> n[0] != '_' && n[|n| - 1] != '_')
  }

  /** Kotlin `replace(Regex("[^a-z0-9]+"), "_")`: each maximal run of
      characters outside [a-z0-9] becomes a single `_`. */
  function Collapse(s: string): (r: string)
    decreases |s|
  {
    if s == [] then []
    else if IsLowerAlnum(s[0]) then [s[0]] + Collapse(s[1..])
    else ['_'] + Collapse(TrimStart(s, NotLowerAlnum))
  }

  /** What `Collapse` yields: only [a-z0-9_], no `_` twice in a row, empty
      only for the empty input, and starting with `_` exactly when the
      input starts outside [a-z0-9]. */
  lemma {:induction false} CollapseShape(s: string)
    ensures IdChars(Collapse(s)) && SingleSeparators(Collapse(s))
    ensures Collapse(s) == [] <==> s == []
    ensures Collapse(s) != [] ==> (Collapse(s)[0] == '_' <==> NotLowerAlnum(s[0]))
    decreases |s|
  {
    if s != [] {
      var r := Collapse(s);
      var t := if IsLowerAlnum(s[0]) then s[1..] else TrimStart(s, NotLowerAlnum);
      TrimStartFacts(s, NotLowerAlnum);
      CollapseShape(t);
      var c := Collapse(t);
      assert r == [r[0]] + c;
      assert c != [] && !IsLowerAlnum(s[0]) ==> c[0] != '_';
      assert forall i :: 1 <= i < |r| ==> r[i] == c[i - 1];
    }
  }

  /** Trimming `_` off a string over [a-z0-9_] with single separators gives
      a normal form. */
  lemma TrimUnderscoresNormal(c: string)
    requires IdChars(c) && SingleSeparators(c)
    ensures NormalForm(TrimBy(c, IsUnderscore))
  {
    var i, j := TrimBySlice(c, IsUnderscore);
    var n := c[i..j];
    assert forall k :: 0 <= k < |n| ==> n[k] == c[i + k];
  }

  /** The `normalized` value of both id functions. */
  function Normalize(s: string): (n: string)
    ensures NormalForm(n)
  {
    var c := Collapse(ToLower(KotlinTrim(s)));
    CollapseShape(ToLower(KotlinTrim(s)));
    TrimUnderscoresNormal(c);
    TrimBy(c, IsUnderscore)
  }

  /** `if (normalized.isBlank()) fallback else normalized`. */
  function Safe(n: string, fallback: string): string {
    if IsBlank(n) then fallback else n
  }

  /** `suggestionDocId(familyId, itemName)`. */
  function SuggestionDocId(familyId: string, itemName: string): string {
    familyId + "_" + Safe(Normalize(itemName), "item")
  }

  /** `budgetDocId(familyId, category, period)`. */
  function BudgetDocId(familyId: string, category: string, period: string): string {
    familyId + "_" + period + "_" + Safe(Normalize(category), "general")
  }

  /** A normalised name is blank only when it is empty. */
  lemma BlankNormalIsEmpty(n: string)
    requires IdChars(n)
    ensures IsBlank(n) <==> n == []
  {
    if n != [] {
      assert !IsKotlinWhitespace(n[0]);
    }
  }

  // ---------------------------------------------------------------------
  // How Collapse treats separator runs
  // ---------------------------------------------------------------------

  /** `Collapse` yields only `_` exactly when the input has no character in
      [a-z0-9]. */
  lemma {:induction false} CollapseAllSeparators(s: string)
    ensures (forall i :: 0 <= i < |Collapse(s)| ==> Collapse(s)[i] == '_') <==>
            (forall i :: 0 <= i < |s| ==> NotLowerAlnum(s[i]))
    decreases |s|
  {
    if s != [] && NotLowerAlnum(s[0]) {
      var t := TrimStart(s, NotLowerAlnum);
      TrimStartFacts(s, NotLowerAlnum);
      CollapseAllSeparators(t);
      if t != [] {
        assert Collapse(t)[0] != '_';
        assert Collapse(s)[1] == Collapse(t)[0];
      }
    } else if s != [] {
      assert Collapse(s)[0] == s[0];
    }
  }

  /** A separator run in the middle collapses to the same `_` whatever its
      length or its characters. */
  lemma {:induction false} CollapseRun(x: string, r1: string, r2: string, y: string)
    requires r1 != [] && r2 != []
    requires forall k :: 0 <= k < |r1| ==> NotLowerAlnum(r1[k])
    requires forall k :: 0 <= k < |r2| ==> NotLowerAlnum(r2[k])
    ensures Collapse(x + r1 + y) == Collapse(x + r2 + y)
    decreases |x|
  {
    if x == [] {
      assert x + r1 + y == r1 + y && x + r2 + y == r2 + y;
      TrimStartAppend(r1, y, NotLowerAlnum);
      TrimStartAppend(r2, y, NotLowerAlnum);
    } else if IsLowerAlnum(x[0]) {
      assert (x + r1 + y)[1..] == x[1..] + r1 + y;
      assert (x + r2 + y)[1..] == x[1..] + r2 + y;
      CollapseRun(x[1..], r1, r2, y);
    } else {
      assert x + r1 + y == x + (r1 + y);
      assert x + r2 + y == x + (r2 + y);
      TrimStartAppend(x, r1 + y, NotLowerAlnum);
      TrimStartAppend(x, r2 + y, NotLowerAlnum);
      if forall k :: 0 <= k < |x| ==> NotLowerAlnum(x[k]) {
        TrimStartAppend(r1, y, NotLowerAlnum);
        TrimStartAppend(r2, y, NotLowerAlnum);
      } else {
        var t := TrimStart(x, NotLowerAlnum);
        assert t + (r1 + y) == t + r1 + y;
        assert t + (r2 + y) == t + r2 + y;
        CollapseRun(t, r1, r2, y);
      }
    }
  }

  /** Separators in front of `m` only add `_` that the final trim strips. */
  lemma CollapseLead(w: string, m: string)
    requires forall k :: 0 <= k < |w| ==> NotLowerAlnum(w[k])
    ensures TrimBy(Collapse(w + m), IsUnderscore) == TrimBy(Collapse(m), IsUnderscore)
  {
    if w != [] {
      var t := TrimStart(m, NotLowerAlnum);
      CollapseLeadStep(w, m);
      TrimByExtraFront('_', Collapse(t), IsUnderscore);
      if m != [] && NotLowerAlnum(m[0]) {
        assert Collapse(m) == ['_'] + Collapse(t);
      } else {
        assert t == m;
      }
    } else {
      assert w + m == m;
    }
  }

  /** A leading separator run merges with the separators that start `m`. */
  lemma CollapseLeadStep(w: string, m: string)
    requires w != [] && forall k :: 0 <= k < |w| ==> NotLowerAlnum(w[k])
    ensures Collapse(w + m) == ['_'] + Collapse(TrimStart(m, NotLowerAlnum))
  {
    assert (w + m)[0] == w[0];
    TrimStartAppend(w, m, NotLowerAlnum);
  }

  /** Appending a separator run adds at most one trailing `_`. */
  lemma {:induction false} CollapseTrail(m: string, w: string)
    requires w != [] && forall k :: 0 <= k < |w| ==> NotLowerAlnum(w[k])
    ensures Collapse(m + w) == if m != [] && NotLowerAlnum(m[|m| - 1]) then Collapse(m) else Collapse(m) + "_"
    decreases |m|
  {
    if m == [] {
      assert m + w == w;
      CollapseOfRun(w);
    } else if IsLowerAlnum(m[0]) {
      assert (m + w)[1..] == m[1..] + w;
      CollapseTrail(m[1..], w);
      assert m[1..] == [] ==> m[|m| - 1] == m[0];
      assert m[1..] != [] ==> m[1..][|m[1..]| - 1] == m[|m| - 1];
    } else {
      CollapseTrailSeparator(m, w);
    }
  }

  /** A non-empty separator run collapses to one `_`. */
  lemma CollapseOfRun(w: string)
    requires w != [] && forall k :: 0 <= k < |w| ==> NotLowerAlnum(w[k])
    ensures Collapse(w) == "_"
  {
    TrimStartFacts(w, NotLowerAlnum);
  }

  /** The case of `CollapseTrail` where `m` starts with a separator. */
  lemma {:induction false} CollapseTrailSeparator(m: string, w: string)
    requires m != [] && NotLowerAlnum(m[0])
    requires w != [] && forall k :: 0 <= k < |w| ==> NotLowerAlnum(w[k])
    ensures Collapse(m + w) == if NotLowerAlnum(m[|m| - 1]) then Collapse(m) else Collapse(m) + "_"
    decreases |m|, 0
  {
    if forall k :: 0 <= k < |m| ==> NotLowerAlnum(m[k]) {
      CollapseTwoRuns(m, w);
    } else {
      var t := CollapsePastLead(m, w);
      CollapseTrail(t, w);
    }
  }

  /** Two separator runs in a row collapse like one. */
  lemma CollapseTwoRuns(m: string, w: string)
    requires m != [] && forall k :: 0 <= k < |m| ==> NotLowerAlnum(m[k])
    requires forall k :: 0 <= k < |w| ==> NotLowerAlnum(w[k])
    ensures Collapse(m + w) == Collapse(m)
  {
    CollapseOfRun(m);
    forall k | 0 <= k < |m + w|
      ensures NotLowerAlnum((m + w)[k])
    {
      if k < |m| {
        assert (m + w)[k] == m[k];
      } else {
        assert (m + w)[k] == w[k - |m|];
      }
    }
    CollapseOfRun(m + w);
  }

  /** A leading separator run of `m`, with a letter or digit after it, is
      one `_` before the collapse of the rest, with or without `w` after. */
  lemma CollapsePastLead(m: string, w: string) returns (t: string)
    requires m != [] && NotLowerAlnum(m[0])
    requires !forall k :: 0 <= k < |m| ==> NotLowerAlnum(m[k])
    ensures t == TrimStart(m, NotLowerAlnum) && t != [] && |t| < |m| && t[|t| - 1] == m[|m| - 1]
    ensures Collapse(m) == ['_'] + Collapse(t)
    ensures Collapse(m + w) == ['_'] + Collapse(t + w)
  {
    t := TrimStart(m, NotLowerAlnum);
    TrimStartFacts(m, NotLowerAlnum);
    assert (m + w)[0] == m[0];
    TrimStartAppend(m, w, NotLowerAlnum);
  }

  /** Separators after `m` only add a `_` that the final trim strips. */
  lemma CollapseTrailTrimmed(m: string, w: string)
    requires forall k :: 0 <= k < |w| ==> NotLowerAlnum(w[k])
    ensures TrimBy(Collapse(m + w), IsUnderscore) == TrimBy(Collapse(m), IsUnderscore)
  {
    if w == [] {
      assert m + w == m;
    } else {
      CollapseTrail(m, w);
      TrimByExtraBack('_', Collapse(m), IsUnderscore);
    }
  }

  // ---------------------------------------------------------------------
  // Properties of the normalisation
  // ---------------------------------------------------------------------

  /** The leading `trim()` changes nothing: white space is a separator, and
      the separators it would add at either end are stripped as `_`. */
  lemma TrimIrrelevant(s: string)
    ensures Normalize(s) == TrimBy(Collapse(ToLower(s)), IsUnderscore)
  {
    var i, j := TrimBySlice(s, IsKotlinWhitespace);
    var w1, m, w2 := s[..i], s[i..j], s[j..];
    assert s == w1 + (m + w2);
    ToLowerAppend(w1, m + w2);
    ToLowerAppend(m, w2);
    WhiteLowersToSeparators(w1);
    WhiteLowersToSeparators(w2);
    CollapseLead(ToLower(w1), ToLower(m + w2));
    CollapseTrailTrimmed(ToLower(m), ToLower(w2));
  }

  /** White space lower-cases to characters outside [a-z0-9]. */
  lemma WhiteLowersToSeparators(w: string)
    requires forall k :: 0 <= k < |w| ==> IsKotlinWhitespace(w[k])
    ensures forall k :: 0 <= k < |ToLower(w)| ==> NotLowerAlnum(ToLower(w)[k])
  {
  }

  /** The fallback word is used exactly when the input has no ASCII letter
      or digit. */
  lemma NormalizeEmpty(s: string)
    ensures Normalize(s) == [] <==> forall i :: 0 <= i < |s| ==> IsSeparator(s[i])
  {
    TrimIrrelevant(s);
    var c := Collapse(ToLower(s));
    TrimByEmpty(c, IsUnderscore);
    CollapseAllSeparators(ToLower(s));
  }

  /** Inputs that differ only in ASCII case normalise alike. */
  lemma CaseInsensitive(a: string, b: string)
    requires ToLower(a) == ToLower(b)
    ensures Normalize(a) == Normalize(b)
  {
    TrimIrrelevant(a);
    TrimIrrelevant(b);
  }

  /** Inputs that differ only in one non-empty run of separators (white
      space, punctuation, anything outside ASCII letters and digits)
      normalise alike. */
  lemma RunInsensitive(x: string, r1: string, r2: string, y: string)
    requires r1 != [] && r2 != []
    requires forall k :: 0 <= k < |r1| ==> IsSeparator(r1[k])
    requires forall k :: 0 <= k < |r2| ==> IsSeparator(r2[k])
    ensures Normalize(x + r1 + y) == Normalize(x + r2 + y)
  {
    TrimIrrelevant(x + r1 + y);
    TrimIrrelevant(x + r2 + y);
    ToLowerAppend(x, r1);
    ToLowerAppend(x + r1, y);
    ToLowerAppend(x, r2);
    ToLowerAppend(x + r2, y);
    CollapseRun(ToLower(x), ToLower(r1), ToLower(r2), ToLower(y));
  }

  /** `Collapse` leaves alone a string over [a-z0-9_] whose `_` are single
      and which does not end in `_`. */
  lemma {:induction false} CollapseFixed(s: string)
    requires IdChars(s) && SingleSeparators(s) && (s != [] ==> s[|s| - 1] != '_')
    ensures Collapse(s) == s
    decreases |s|
  {
    if s != [] {
      var u := s[1..];
      assert IdChars(u) && SingleSeparators(u) by {
        assert forall k :: 0 <= k < |u| ==> u[k] == s[k + 1];
      }
      if IsLowerAlnum(s[0]) {
        CollapseFixed(u);
      } else {
        assert |s| >= 2 && IsLowerAlnum(s[1]);
        assert TrimStart(s, NotLowerAlnum) == u;
        CollapseFixed(u);
      }
    }
  }

  /** A normal form normalises to itself. */
  lemma NormalFixed(n: string)
    requires NormalForm(n)
    ensures Normalize(n) == n
  {
    TrimIrrelevant(n);
    assert ToLower(n) == n;
    CollapseFixed(n);
    if n != [] {
      assert TrimStart(n, IsUnderscore) == n;
    }
  }

  /** Normalising twice is normalising once. */
  lemma NormalizeIdempotent(s: string)
    ensures Normalize(Normalize(s)) == Normalize(s)
  {
    NormalFixed(Normalize(s));
  }

  /** Properties of `suggestionDocId`: the family prefix, a name part over
      [a-z0-9_] with no `_` at either end or doubled, "item" exactly for
      names without an ASCII letter or digit, and the same document for
      names that differ in case or in surrounding white space. */
  lemma SuggestionDocIdFacts(familyId: string, name: string, other: string)
    ensures var part := if Normalize(name) == [] then "item" else Normalize(name);
      && SuggestionDocId(familyId, name) == familyId + "_" + part
      && NormalForm(part) && part != []
      && (Normalize(name) == [] <==> forall i :: 0 <= i < |name| ==> IsSeparator(name[i]))
    ensures SuggestionDocId(familyId, KotlinTrim(name)) == SuggestionDocId(familyId, name)
    ensures ToLower(KotlinTrim(name)) == ToLower(KotlinTrim(other)) ==>
              SuggestionDocId(familyId, name) == SuggestionDocId(familyId, other)
  {
    BlankNormalIsEmpty(Normalize(name));
    NormalizeEmpty(name);
    TrimmedAlike(name, other);
  }

  /** Names that differ only in one separator run share a suggestion id. */
  lemma SuggestionRunsShareDoc(familyId: string, x: string, r1: string, r2: string, y: string)
    requires r1 != [] && r2 != []
    requires forall k :: 0 <= k < |r1| ==> IsSeparator(r1[k])
    requires forall k :: 0 <= k < |r2| ==> IsSeparator(r2[k])
    ensures SuggestionDocId(familyId, x + r1 + y) == SuggestionDocId(familyId, x + r2 + y)
  {
    RunInsensitive(x, r1, r2, y);
  }

  /** The leading `trim()` can be done twice, and inputs that are equal up
      to case once trimmed normalise alike. */
  lemma TrimmedAlike(a: string, b: string)
    ensures Normalize(KotlinTrim(a)) == Normalize(a)
    ensures ToLower(KotlinTrim(a)) == ToLower(KotlinTrim(b)) ==> Normalize(a) == Normalize(b)
  {
    TrimIrrelevant(KotlinTrim(a));
    TrimIrrelevant(KotlinTrim(b));
    if ToLower(KotlinTrim(a)) == ToLower(KotlinTrim(b)) {
      CaseInsensitive(KotlinTrim(a), KotlinTrim(b));
    }
  }

  /** Properties of `budgetDocId`: the family and period prefix, the same
      name part as a suggestion id but with "general" as its fallback, and
      the same document for categories that differ in case or in
      surrounding white space. */
  lemma BudgetDocIdFacts(familyId: string, period: string, category: string, other: string)
    ensures var part := if Normalize(category) == [] then "general" else Normalize(category);
      && BudgetDocId(familyId, category, period) == familyId + "_" + period + "_" + part
      && NormalForm(part) && part != []
      && (Normalize(category) == [] <==> forall i :: 0 <= i < |category| ==> IsSeparator(category[i]))
    ensures ToLower(KotlinTrim(category)) == ToLower(KotlinTrim(other)) ==>
              BudgetDocId(familyId, category, period) == BudgetDocId(familyId, other, period)
  {
    BlankNormalIsEmpty(Normalize(category));
    NormalizeEmpty(category);
    TrimmedAlike(category, other);
  }

  /** The screen's default category "General" has the "general" document. */
  lemma GeneralBudgetDoc(familyId: string, period: string)
    ensures BudgetDocId(familyId, "General", period) == familyId + "_" + period + "_" + "general"
  {
    GeneralNormal();
  }

  lemma GeneralNormal()
    ensures Normalize("General") == "general"
  {
    LowerGeneral();
    CaseInsensitive("General", "general");
    GeneralIsNormal();
  }

  lemma LowerGeneral()
    ensures ToLower("General") == "general"
  {
    var g, l := "General", "general";
    assert forall k :: 0 <= k < |l| ==> ToLower(g)[k] == l[k];
  }

  lemma GeneralIsNormal()
    ensures Normalize("general") == "general"
  {
    var l := "general";
    assert NormalForm(l);
    NormalFixed(l);
  }

  /** Two categories that differ only in one separator run share a budget. */
  lemma BudgetRunsShareDoc(familyId: string, period: string, x: string, r1: string, r2: string, y: string)
    requires r1 != [] && r2 != []
    requires forall k :: 0 <= k < |r1| ==> IsSeparator(r1[k])
    requires forall k :: 0 <= k < |r2| ==> IsSeparator(r2[k])
    ensures BudgetDocId(familyId, x + r1 + y, period) == BudgetDocId(familyId, x + r2 + y, period)
  {
    RunInsensitive(x, r1, r2, y);
  }
}
