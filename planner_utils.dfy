/**
  The planner's configuration, the recipe-name identity key and the
  nutritional-coverage rule.
 */
module PlannerUtils {
  import opened Text
  import opened Seqs

  /** Provenance constants; no other part of the application reads them. */
  const PromptVersion: string := "planner-v2.0"
  const ModelName: string := "llama-3.3-70b-versatile"
  const MaxRecipeFrequencyPerWeek: nat := 2

  /** The classes every meal should cover, in their canonical order. */
  const RequiredNutritionalClasses: seq<string> := ["veg", "carbs", "protein"]

  // ---------------------------------------------------------------------------
  // The identity key of a recipe name
  // ---------------------------------------------------------------------------

  /** `replace(/\s+/g, ' ')`: every maximal run of white space becomes one space. */
  function CollapseSpaces(s: string): string
    decreases |s|
  {
    if s == [] then []
    else if IsSpace(s[0]) then " " + CollapseSpaces(TrimStart(s))
    else [s[0]] + CollapseSpaces(s[1..])
  }

  /** `name.trim().toLowerCase().replace(/\s+/g, ' ')`. */
  function NormalizeRecipeName(name: string): string {
    CollapseSpaces(ToLower(Trim(name)))
  }

  /** The longest prefix of `s` without white space. */
  function FirstWord(s: string): (w: string)
    ensures |w| <= |s| && w == s[..|w|] && NoSpace(w)
    ensures |w| < |s| ==> IsSpace(s[|w|])
  {
    if s == [] || IsSpace(s[0]) then [] else [s[0]] + FirstWord(s[1..])
  }

  /** The words of `s`: its maximal runs of non-space characters, in order. */
  function Words(s: string): seq<string>
    decreases |s|
  {
    if s == [] then []
    else if IsSpace(s[0]) then Words(s[1..])
    else
      var w := FirstWord(s);
      [w] + Words(s[|w|..])
  }

  /** A well-formed word list: every word is non-empty and holds no white space. */
  ghost predicate ProperWords(ws: seq<string>) {
    forall k :: 0 <= k < |ws| ==> ws[k] != [] && NoSpace(ws[k])
  }

  /** No letter that `toLowerCase` would change. */
  ghost predicate Lowered(s: string) {
    forall i :: 0 <= i < |s| ==> !IsUpperLetter(s[i])
  }

  lemma TrimStartAllSpace(s: string)
    requires AllSpace(s)
    ensures TrimStart(s) == []
  {
  }

  lemma {:induction false} TrimStartSkip(p: string, y: string)
    requires AllSpace(p)
    ensures TrimStart(p + y) == TrimStart(y)
  {
    if p != [] {
      assert (p + y)[0] == p[0] && (p + y)[1..] == p[1..] + y;
      TrimStartSkip(p[1..], y);
    } else {
      assert p + y == y;
    }
  }

  /** Leading white space does not change the words. */
  lemma {:induction false} WordsSkipSpace(p: string, y: string)
    requires AllSpace(p)
    ensures Words(p + y) == Words(y)
  {
    if p != [] {
      assert (p + y)[0] == p[0] && (p + y)[1..] == p[1..] + y;
      WordsSkipSpace(p[1..], y);
    } else {
      assert p + y == y;
    }
  }

  /** A string of white space only has no words. */
  lemma WordsAllSpace(s: string)
    requires AllSpace(s)
    ensures Words(s) == []
  {
    WordsSkipSpace(s, []);
    assert s + [] == s;
  }

  /** A string that starts with a non-space character starts with its first word. */
  lemma WordsStep(t: string)
    requires t != [] && !IsSpace(t[0])
    ensures FirstWord(t) != []
    ensures Words(t) == [FirstWord(t)] + Words(t[|FirstWord(t)|..])
  {
  }

  /** `s` is its white-space prefix followed by `TrimStart(s)`. */
  lemma TrimStartSplit(s: string) returns (p: string)
    ensures AllSpace(p) && s == p + TrimStart(s)
  {
    p := s[..|s| - |TrimStart(s)|];
  }

  lemma {:induction false} FirstWordConcat(t: string, q: string)
    requires q == [] || IsSpace(q[0])
    ensures FirstWord(t + q) == FirstWord(t)
  {
    if t == [] {
      assert t + q == q;
    } else {
      assert (t + q)[0] == t[0] && (t + q)[1..] == t[1..] + q;
      FirstWordConcat(t[1..], q);
    }
  }

  lemma FirstWordOfJoin(w: string, rest: string)
    requires NoSpace(w)
    requires rest == [] || IsSpace(rest[0])
    ensures FirstWord(w + rest) == w
  {
    FirstWordConcat(w, rest);
  }

  /** Trailing white space does not change the words. */
  lemma {:induction false} WordsDropTrailing(m: string, q: string)
    requires AllSpace(q)
    ensures Words(m + q) == Words(m)
    decreases |m|
  {
    if m == [] {
      assert m + q == q;
      WordsAllSpace(q);
    } else {
      assert (m + q)[0] == m[0];
      if IsSpace(m[0]) {
        assert (m + q)[1..] == m[1..] + q;
        WordsDropTrailing(m[1..], q);
      } else {
        var w := FirstWord(m);
        FirstWordConcat(m, q);
        assert (m + q)[|w|..] == m[|w|..] + q;
        WordsDropTrailing(m[|w|..], q);
      }
    }
  }

  lemma {:induction false} CollapseNoSpacePrefix(w: string, x: string)
    requires NoSpace(w)
    ensures CollapseSpaces(w + x) == w + CollapseSpaces(x)
  {
    if w == [] {
      assert w + x == x;
    } else {
      assert (w + x)[0] == w[0] && (w + x)[1..] == w[1..] + x;
      CollapseNoSpacePrefix(w[1..], x);
    }
  }

  /** On a string without white space at either end, collapsing spaces joins its words with one space. */
  lemma {:induction false} CollapseTrimmed(u: string)
    requires u == [] || (!IsSpace(u[0]) && !IsSpace(u[|u| - 1]))
    ensures CollapseSpaces(u) == Join(Words(u), " ")
    decreases |u|, 2
  {
    if u != [] {
      WordsStep(u);
      var w := FirstWord(u);
      var rest := u[|w|..];
      assert u == w + rest;
      assert rest != [] ==> rest[|rest| - 1] == u[|u| - 1];
      CollapseWordThen(w, rest);
    }
  }

  /** A first word followed by nothing or by a white-space run and a string that ends in a non-space. */
  lemma CollapseWordThen(w: string, rest: string)
    requires w != [] && NoSpace(w)
    requires rest == [] || (IsSpace(rest[0]) && !IsSpace(rest[|rest| - 1]))
    ensures CollapseSpaces(w + rest) == Join([w] + Words(rest), " ")
    decreases |w + rest|, 1
  {
    if rest == [] {
      CollapseOneWord(w);
      assert w + rest == w;
    } else {
      CollapseRun(rest);
      CollapseBeforeRun(w, rest);
    }
  }

  lemma CollapseOneWord(w: string)
    requires w != [] && NoSpace(w)
    ensures CollapseSpaces(w) == Join([w] + Words([]), " ")
  {
    CollapseNoSpacePrefix(w, []);
    assert w + [] == w;
    assert [w] + Words([]) == [w];
  }

  lemma CollapseBeforeRun(w: string, rest: string)
    requires w != [] && NoSpace(w)
    requires Words(rest) != [] && CollapseSpaces(rest) == " " + Join(Words(rest), " ")
    ensures CollapseSpaces(w + rest) == Join([w] + Words(rest), " ")
  {
    var ws := Words(rest);
    var j := Join(ws, " ");
    CollapseNoSpacePrefix(w, rest);
    JoinCons(w, ws, " ");
    Regroup(w, " ", j);
  }

  /** A white-space run followed by a trimmed string collapses to one space before its joined words. */
  lemma CollapseRun(rest: string)
    requires rest != [] && IsSpace(rest[0]) && !IsSpace(rest[|rest| - 1])
    ensures Words(rest) != [] && CollapseSpaces(rest) == " " + Join(Words(rest), " ")
    decreases |rest|, 0
  {
    CollapseSpaceRun(rest);
    var u' := TrimStart(rest);
    var p := TrimStartSplit(rest);
    TrimStartKeepsLast(rest);
    CollapseTrimmed(u');
    WordsSkipSpace(p, u');
    WordsStep(u');
  }

  lemma CollapseSpaceRun(s: string)
    requires s != [] && IsSpace(s[0])
    ensures CollapseSpaces(s) == " " + CollapseSpaces(TrimStart(s))
  {
  }

  /** Trimming the front of a string that ends in a non-space character keeps that character. */
  lemma {:induction false} TrimStartKeepsLast(s: string)
    requires s != [] && !IsSpace(s[|s| - 1])
    ensures TrimStart(s) != [] && TrimStart(s)[|TrimStart(s)| - 1] == s[|s| - 1]
  {
    if IsSpace(s[0]) {
      assert |s| > 1;
      assert s[1..][|s| - 2] == s[|s| - 1];
      TrimStartKeepsLast(s[1..]);
    }
  }

  lemma ToLowerSlice(s: string, i: int, j: int)
    requires 0 <= i <= j <= |s|
    ensures ToLower(s[i..j]) == ToLower(s)[i..j]
  {
  }

  lemma ToLowerAllSpace(s: string)
    requires AllSpace(s)
    ensures AllSpace(ToLower(s))
  {
  }

  /** The words of a trimmed slice are the words of the whole string. */
  lemma WordsOfSlice(x: string, i: int, j: int)
    requires 0 <= i <= j <= |x| && AllSpace(x[..i]) && AllSpace(x[j..])
    ensures Words(x[i..j]) == Words(x)
  {
    assert x == x[..i] + (x[i..j] + x[j..]);
    WordsSkipSpace(x[..i], x[i..j] + x[j..]);
    WordsDropTrailing(x[i..j], x[j..]);
  }

  /** Lower-casing the trimmed name is trimming the lower-cased name. */
  lemma LowerOfTrim(name: string) returns (i: int, j: int)
    ensures 0 <= i <= j <= |name|
    ensures ToLower(Trim(name)) == ToLower(name)[i..j]
    ensures AllSpace(ToLower(name)[..i]) && AllSpace(ToLower(name)[j..])
  {
    i, j :| 0 <= i <= j <= |name| && Trim(name) == name[i..j] && AllSpace(name[..i]) && AllSpace(name[j..]);
    LowerOfSpacedSlice(name, i, j);
  }

  lemma LowerOfSpacedSlice(name: string, i: int, j: int)
    requires 0 <= i <= j <= |name| && AllSpace(name[..i]) && AllSpace(name[j..])
    ensures ToLower(name[i..j]) == ToLower(name)[i..j]
    ensures AllSpace(ToLower(name)[..i]) && AllSpace(ToLower(name)[j..])
  {
    ToLowerSlice(name, i, j);
    ToLowerSlice(name, 0, i);
    ToLowerSlice(name, j, |name|);
    assert name[0..i] == name[..i] && name[j..|name|] == name[j..];
    ToLowerAllSpace(name[..i]);
    ToLowerAllSpace(name[j..]);
  }

  /**
    The identity key is the lower-cased name's words joined by single spaces:
    outer white space is dropped and every inner run becomes one space.
   */
  lemma NormalizeIsJoinedWords(name: string)
    ensures NormalizeRecipeName(name) == Join(Words(ToLower(name)), " ")
  {
    var i, j := LowerOfTrim(name);
    var x := ToLower(name);
    CollapseTrimmed(x[i..j]);
    WordsOfSlice(x, i, j);
  }

  /** Every word is non-empty and free of white space. */
  lemma {:induction false} WordsShape(s: string)
    ensures ProperWords(Words(s))
    decreases |s|
  {
    if s != [] {
      if IsSpace(s[0]) {
        WordsShape(s[1..]);
      } else {
        WordsShape(s[|FirstWord(s)|..]);
      }
    }
  }

  /** Joining proper words with one space and splitting into words again gives the same words. */
  lemma {:induction false} WordsOfJoin(ws: seq<string>)
    requires ProperWords(ws)
    ensures Words(Join(ws, " ")) == ws
  {
    if ws != [] {
      var w := ws[0];
      var j := Join(ws, " ");
      if |ws| == 1 {
        FirstWordOfJoin(w, []);
        assert w + [] == w;
        WordsStep(w);
      } else {
        var tail := Join(ws[1..], " ");
        assert j == w + (" " + tail);
        FirstWordOfJoin(w, " " + tail);
        WordsStep(j);
        assert j[|w|..] == " " + tail;
        WordsSkipSpace(" ", tail);
        WordsOfJoin(ws[1..]);
        assert ws == [w] + ws[1..];
      }
    }
  }

  /** Proper words joined with one space: no outer space, only `' '` as space, never two in a row. */
  lemma {:induction false} JoinWordsShape(ws: seq<string>)
    requires ProperWords(ws)
    ensures var r := Join(ws, " ");
      && (r == [] || (!IsSpace(r[0]) && !IsSpace(r[|r| - 1])))
      && (forall i :: 0 <= i < |r| && IsSpace(r[i]) ==> r[i] == ' ')
      && (forall i :: 0 <= i < |r| - 1 ==> !(IsSpace(r[i]) && IsSpace(r[i + 1])))
  {
    if |ws| >= 2 {
      JoinWordsShape(ws[1..]);
      var w, tail := ws[0], Join(ws[1..], " ");
      var r := Join(ws, " ");
      assert r == w + " " + tail;
      assert forall i :: 0 <= i < |r| ==> r[i] == (if i < |w| then w[i] else if i == |w| then ' ' else tail[i - |w| - 1]);
    }
  }

  /** Collapsing white space introduces no upper-case letter. */
  lemma {:induction false} CollapseLowered(s: string)
    requires Lowered(s)
    ensures Lowered(CollapseSpaces(s))
    decreases |s|
  {
    if s != [] {
      if IsSpace(s[0]) {
        CollapseLowered(TrimStart(s));
      } else {
        CollapseLowered(s[1..]);
      }
    }
  }

  lemma LoweredIsFixed(s: string)
    requires Lowered(s)
    ensures ToLower(s) == s
  {
  }

  /** The identity key has no outer white space, uses only single `' '` between words and is lower-case. */
  lemma NormalizeShape(name: string)
    ensures var key := NormalizeRecipeName(name);
      && (key == [] || (!IsSpace(key[0]) && !IsSpace(key[|key| - 1])))
      && (forall i :: 0 <= i < |key| && IsSpace(key[i]) ==> key[i] == ' ')
      && (forall i :: 0 <= i < |key| - 1 ==> !(IsSpace(key[i]) && IsSpace(key[i + 1])))
      && Lowered(key)
  {
    NormalizeIsJoinedWords(name);
    WordsShape(ToLower(name));
    JoinWordsShape(Words(ToLower(name)));
    CollapseLowered(ToLower(Trim(name)));
  }

  /** Normalising a key again leaves it unchanged. */
  lemma NormalizeIdempotent(name: string)
    ensures NormalizeRecipeName(NormalizeRecipeName(name)) == NormalizeRecipeName(name)
  {
    var ws := Words(ToLower(name));
    var key := NormalizeRecipeName(name);
    NormalizeIsJoinedWords(name);
    WordsShape(ToLower(name));
    CollapseLowered(ToLower(Trim(name)));
    LoweredIsFixed(key);
    NormalizeIsJoinedWords(key);
    WordsOfJoin(ws);
  }

  /**
    Two names get the same key exactly when their lower-cased words agree, so
    names that differ only in letter case, in outer white space or in the
    length of inner white-space runs share a key, and no others do.
   */
  lemma SameKeyIff(a: string, b: string)
    ensures NormalizeRecipeName(a) == NormalizeRecipeName(b) <==> Words(ToLower(a)) == Words(ToLower(b))
  {
    NormalizeIsJoinedWords(a);
    NormalizeIsJoinedWords(b);
    WordsShape(ToLower(a));
    WordsShape(ToLower(b));
    if NormalizeRecipeName(a) == NormalizeRecipeName(b) {
      WordsOfJoin(Words(ToLower(a)));
      WordsOfJoin(Words(ToLower(b)));
    }
  }

  /** Replacing one inner white-space run by another of any length keeps the key. */
  lemma SpacingDoesNotMatter(x: string, w1: string, w2: string, y: string)
    requires w1 != [] && w2 != [] && AllSpace(w1) && AllSpace(w2)
    ensures NormalizeRecipeName(x + w1 + y) == NormalizeRecipeName(x + w2 + y)
  {
    var lx, l1, l2, ly := ToLower(x), ToLower(w1), ToLower(w2), ToLower(y);
    assert x + w1 + y == x + (w1 + y) && x + w2 + y == x + (w2 + y);
    ToLowerConcat(x, w1 + y);
    ToLowerConcat(w1, y);
    ToLowerConcat(x, w2 + y);
    ToLowerConcat(w2, y);
    ToLowerAllSpace(w1);
    ToLowerAllSpace(w2);
    WordsSkipSpace(l1, ly);
    WordsSkipSpace(l2, ly);
    WordsAfterPrefix(lx, l1 + ly, l2 + ly);
    SameKeyIff(x + (w1 + y), x + (w2 + y));
  }

  /** Two tails that start with white space and have the same words keep them after any prefix. */
  lemma {:induction false} WordsAfterPrefix(x: string, a: string, b: string)
    requires a != [] && b != [] && IsSpace(a[0]) && IsSpace(b[0])
    requires Words(a) == Words(b)
    ensures Words(x + a) == Words(x + b)
    decreases |x|
  {
    if x == [] {
      assert x + a == a && x + b == b;
    } else {
      assert (x + a)[0] == x[0] && (x + b)[0] == x[0];
      if IsSpace(x[0]) {
        assert (x + a)[1..] == x[1..] + a && (x + b)[1..] == x[1..] + b;
        WordsAfterPrefix(x[1..], a, b);
      } else {
        var w := FirstWord(x);
        FirstWordConcat(x, a);
        FirstWordConcat(x, b);
        assert (x + a)[|w|..] == x[|w|..] + a && (x + b)[|w|..] == x[|w|..] + b;
        WordsAfterPrefix(x[|w|..], a, b);
      }
    }
  }

  /** Names that differ only in letter case share a key. */
  lemma CaseDoesNotMatter(a: string, b: string)
    requires ToLower(a) == ToLower(b)
    ensures NormalizeRecipeName(a) == NormalizeRecipeName(b)
  {
    SameKeyIff(a, b);
  }

  // ---------------------------------------------------------------------------
  // Nutritional coverage
  // ---------------------------------------------------------------------------

  datatype Coverage = Coverage(isComplete: bool, missingClasses: seq<string>)

  /**
    `checkCoverage`: the required classes that do not occur in the input, kept
    in the canonical order veg, carbs, protein.
   */
  function CheckCoverage(nutritionalClasses: seq<string>): (r: Coverage)
    ensures forall c :: c in r.missingClasses <==> c in RequiredNutritionalClasses && c !in nutritionalClasses
    ensures IsSubseq(r.missingClasses, RequiredNutritionalClasses)
    ensures r.isComplete <==> r.missingClasses == []
  {
    var missing := Filter(RequiredNutritionalClasses, cls => cls !in nutritionalClasses);
    FilterIsSubseq(RequiredNutritionalClasses, cls => cls !in nutritionalClasses);
    Coverage(|missing| == 0, missing)
  }

  /** With no classes at all, every required class is missing, in canonical order. */
  lemma CoverageOfNothing()
    ensures CheckCoverage([]) == Coverage(false, ["veg", "carbs", "protein"])
  {
    var p := (cls: string) => cls !in [];
    assert Filter(RequiredNutritionalClasses, p) == ["veg"] + Filter(["carbs", "protein"], p);
    assert Filter(["carbs", "protein"], p) == ["carbs"] + Filter(["protein"], p);
  }

  /** Any input holding all three required classes, with repeats or extras, is complete. */
  lemma CoverageOfAll(nutritionalClasses: seq<string>)
    requires "veg" in nutritionalClasses && "carbs" in nutritionalClasses && "protein" in nutritionalClasses
    ensures CheckCoverage(nutritionalClasses) == Coverage(true, [])
  {
  }

  /** The verdict depends only on which classes occur, not on their order or repetitions. */
  lemma CoverageDependsOnSetOnly(a: seq<string>, b: seq<string>)
    requires forall c :: c in a <==> c in b
    ensures CheckCoverage(a) == CheckCoverage(b)
  {
    FilterSameCondition(RequiredNutritionalClasses, cls => cls !in a, cls => cls !in b);
  }
}
