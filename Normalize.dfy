/** String normalisers of the API server (src/index.tsx): the entity, team and
    position standardisation of the bulk worker upload, the question key of the
    written-test upload and the dotted-date repair. */
module Normalize {
  import opened Common

  // ---------------------------------------------------------------- entity ----

  /** Team and position wording: trimmed and upper-cased. */
  function NormalizeField(s: string): (r: string)
    ensures |r| <= |s|
    ensures forall i :: 0 <= i < |r| ==> !IsLowerAscii(r[i])
    ensures r != [] ==> !IsSpace(r[0]) && !IsSpace(r[|r| - 1])
  {
    ToUpper(Trim(s))
  }

  /** Entity wording: trimmed and upper-cased, with the short forms VN, CN and TW
      replaced by CSVN, CSCN and CSTW. */
  function StandardizeEntity(entity: string): (r: string)
    ensures r != "VN" && r != "CN" && r != "TW"
  {
    var normalizedEntity := NormalizeField(entity);
    if normalizedEntity == "VN" then "CSVN"
    else if normalizedEntity == "CN" then "CSCN"
    else if normalizedEntity == "TW" then "CSTW"
    else normalizedEntity
  }

  /** Which wordings end up as which standard entity: each long form comes from its
      short form or from itself, and every other wording is only normalised. */
  lemma StandardizeEntityMapping(entity: string)
    ensures StandardizeEntity(entity) == "CSVN" <==> NormalizeField(entity) in {"VN", "CSVN"}
    ensures StandardizeEntity(entity) == "CSCN" <==> NormalizeField(entity) in {"CN", "CSCN"}
    ensures StandardizeEntity(entity) == "CSTW" <==> NormalizeField(entity) in {"TW", "CSTW"}
    ensures NormalizeField(entity) !in {"VN", "CN", "TW"} ==> StandardizeEntity(entity) == NormalizeField(entity)
  {
  }

  /** Normalising a field twice changes nothing more. */
  lemma {:induction false} NormalizeFieldIdempotent(s: string)
    ensures NormalizeField(NormalizeField(s)) == NormalizeField(s)
  {
    var u := NormalizeField(s);
    TrimOfTrimmed(u);
    ToUpperIdempotent(Trim(s));
  }

  /** A word with no whitespace and no lower-case ASCII letter is already normal. */
  lemma {:induction false} NormalizeFieldOfPlain(s: string)
    requires forall i :: 0 <= i < |s| ==> !IsSpace(s[i]) && !IsLowerAscii(s[i])
    ensures NormalizeField(s) == s
  {
    TrimOfTrimmed(s);
    ToUpperNoLower(s);
  }

  /** Standardising an already standard entity changes nothing: a name stored by one
      upload matches the same name in the next one. */
  lemma {:induction false} StandardizeEntityIdempotent(entity: string)
    ensures StandardizeEntity(StandardizeEntity(entity)) == StandardizeEntity(entity)
  {
    var u := NormalizeField(entity);
    if u == "VN" {
      NormalizeFieldOfPlain("CSVN");
    } else if u == "CN" {
      NormalizeFieldOfPlain("CSCN");
    } else if u == "TW" {
      NormalizeFieldOfPlain("CSTW");
    } else {
      NormalizeFieldIdempotent(entity);
    }
  }

  // -------------------------------------------------------------- question ----

  /** Characters removed by the quote class of `normalizeQuestion`:
      ' " ` and U+00B4, U+00AB, U+00BB, U+2039, U+203A, U+300C..U+300F. */
  predicate IsQuote(c: char)
  {
    c == '\'' || c == '"' || c == '`' || c == '\U{00B4}' || c == '\U{00AB}' || c == '\U{00BB}'
    || c == '\U{2039}' || c == '\U{203A}' || ('\U{300C}' <= c <= '\U{300F}')
  }

  /** Neither an upper-case ASCII letter nor a removed quote character. */
  predicate CleanChar(c: char)
  {
    !IsUpperAscii(c) && !IsQuote(c)
  }

  ghost predicate AllClean(s: string)
  {
    forall i :: 0 <= i < |s| ==> CleanChar(s[i])
  }

  /** `replace(/['"`´«»‹›「」『』]/g, '')`. */
  function RemoveQuotes(s: string): (r: string)
    ensures forall i :: 0 <= i < |r| ==> !IsQuote(r[i])
    ensures (forall i :: 0 <= i < |s| ==> !IsUpperAscii(s[i])) ==> AllClean(r)
    ensures |r| <= |s|
  {
    if s == [] then []
    else
      var rest := RemoveQuotes(s[1..]);
      if IsQuote(s[0]) then rest else [s[0]] + rest
  }

  /** The quote filter works character by character: one character is dropped
      exactly when it is a quote ... */
  lemma RemoveQuotesOne(c: char)
    ensures RemoveQuotes([c]) == if IsQuote(c) then [] else [c]
  {
  }

  /** ... and a concatenation is filtered piece by piece, so every other character is
      kept, in its order. */
  lemma {:induction false} RemoveQuotesAppend(a: string, b: string)
    ensures RemoveQuotes(a + b) == RemoveQuotes(a) + RemoveQuotes(b)
  {
    if a == [] {
      assert a + b == b;
    } else {
      assert (a + b)[0] == a[0];
      assert (a + b)[1..] == a[1..] + b;
      RemoveQuotesAppend(a[1..], b);
    }
  }

  /** Every whitespace character is a plain space. */
  ghost predicate SpacesPlain(s: string)
  {
    forall i :: 0 <= i < |s| ==> (IsSpace(s[i]) ==> s[i] == ' ')
  }

  /** No two plain spaces in a row. */
  ghost predicate NoDoubleSpace(s: string)
  {
    forall i :: 0 <= i && i + 1 < |s| ==> !(s[i] == ' ' && s[i + 1] == ' ')
  }

  /** The shape of a collapsed, cleaned question text. */
  ghost predicate Tidy(s: string)
  {
    AllClean(s) && SpacesPlain(s) && NoDoubleSpace(s)
  }

  lemma ConsTidy(c: char, t: string)
    requires CleanChar(c) && (IsSpace(c) ==> c == ' ')
    requires Tidy(t)
    requires t != [] && c == ' ' ==> t[0] != ' '
    ensures Tidy([c] + t)
  {
    var u := [c] + t;
    forall i | 0 <= i && i + 1 < |u| ensures !(u[i] == ' ' && u[i + 1] == ' ') {
      if i > 0 { assert u[i] == t[i - 1] && u[i + 1] == t[i]; }
    }
    forall i | 0 <= i < |u| ensures CleanChar(u[i]) && (IsSpace(u[i]) ==> u[i] == ' ') {
      if i > 0 { assert u[i] == t[i - 1]; }
    }
  }

  lemma TidySlice(s: string, a: int, b: int)
    requires Tidy(s) && 0 <= a <= b <= |s|
    ensures Tidy(s[a..b])
  {
    var u := s[a..b];
    forall i | 0 <= i && i + 1 < |u| ensures !(u[i] == ' ' && u[i + 1] == ' ') {
      assert u[i] == s[a + i] && u[i + 1] == s[a + i + 1];
    }
  }

  /** `replace(/\s+/g, ' ')`: each maximal run of whitespace becomes one plain space.
      A string of clean characters comes out tidy. */
  function CollapseSpaces(s: string): (r: string)
    ensures AllClean(s) ==> Tidy(r)
    ensures r == [] <==> s == []
    ensures r != [] ==> (IsSpace(r[0]) <==> IsSpace(s[0]))
    decreases |s|
  {
    if s == [] then []
    else if IsSpace(s[0]) then
      var rest := TrimStart(s[1..]);
      var tail := CollapseSpaces(rest);
      assert AllClean(s) ==> AllClean(rest) by {
        if AllClean(s) {
          forall i | 0 <= i < |rest| ensures CleanChar(rest[i]) {
            assert rest[i] == s[1 + |s| - 1 - |rest| + i];
          }
        }
      }
      assert AllClean(s) ==> CleanChar(s[0]);
      assert AllClean(s) ==> Tidy([' '] + tail) by {
        if AllClean(s) { ConsTidy(' ', tail); }
      }
      [' '] + tail
    else
      var tail := CollapseSpaces(s[1..]);
      assert AllClean(s) ==> AllClean(s[1..]) by {
        if AllClean(s) {
          forall i | 0 <= i < |s| - 1 ensures CleanChar(s[1..][i]) {
            assert s[1..][i] == s[i + 1];
          }
        }
      }
      assert AllClean(s) ==> Tidy([s[0]] + tail) by {
        if AllClean(s) { ConsTidy(s[0], tail); }
      }
      [s[0]] + tail
  }

  /** A character that is not whitespace is kept, in front of the collapsed rest. */
  lemma CollapseSpacesKeepsText(c: char, t: string)
    requires !IsSpace(c)
    ensures CollapseSpaces([c] + t) == [c] + CollapseSpaces(t)
  {
    assert ([c] + t)[1..] == t;
  }

  /** A maximal run of whitespace, however long and of whatever kinds, becomes exactly
      one plain space. */
  lemma CollapseSpacesRun(w: string, t: string)
    requires w != [] && forall i :: 0 <= i < |w| ==> IsSpace(w[i])
    requires t != [] ==> !IsSpace(t[0])
    ensures CollapseSpaces(w + t) == [' '] + CollapseSpaces(t)
  {
    assert (w + t)[0] == w[0];
    assert (w + t)[1..] == w[1..] + t;
    LeadingSpacesOfRun(w[1..], t);
    assert TrimStart(w[1..] + t) == t;
  }

  lemma {:induction false} LeadingSpacesOfRun(w: string, t: string)
    requires forall i :: 0 <= i < |w| ==> IsSpace(w[i])
    requires t != [] ==> !IsSpace(t[0])
    ensures LeadingSpaces(w + t) == |w|
  {
    if w == [] {
      assert w + t == t;
    } else {
      assert (w + t)[0] == w[0];
      assert (w + t)[1..] == w[1..] + t;
      LeadingSpacesOfRun(w[1..], t);
    }
  }

  /** `replace(/[?？]+$/, '')`: the maximal trailing run of '?' and U+FF1F removed. */
  function DropTrailingQuestionMarks(s: string): (r: string)
    ensures |r| <= |s| && r == s[..|r|]
    ensures r != [] ==> r[|r| - 1] != '?' && r[|r| - 1] != '\U{FF1F}'
    ensures forall i :: |r| <= i < |s| ==> s[i] == '?' || s[i] == '\U{FF1F}'
  {
    if s != [] && (s[|s| - 1] == '?' || s[|s| - 1] == '\U{FF1F}')
    then DropTrailingQuestionMarks(s[..|s| - 1])
    else s
  }

  /** The maximal trailing run of `c` removed: `replace(/c+$/, '')`, also the
      `\?*$` tail of the suffix patterns and the `-+$` of the date repair. */
  function DropTrailing(s: string, c: char): (r: string)
    ensures |r| <= |s| && r == s[..|r|]
    ensures r != [] ==> r[|r| - 1] != c
    ensures forall i :: |r| <= i < |s| ==> s[i] == c
  {
    if s != [] && s[|s| - 1] == c then DropTrailing(s[..|s| - 1], c) else s
  }

  /** `word` occurs at `k` in `s` and only ASCII '?' follow it to the end: the
      match of the regular expression `word\?*$` starting at `k`. */
  predicate SuffixMatchAt(s: string, word: string, k: int)
  {
    0 <= k <= |s| - |word| && s[k..k + |word|] == word
    && forall i :: k + |word| <= i < |s| ==> s[i] == '?'
  }

  /** If `e` ends a character other than '?' and only '?' follow, the trailing
      '?' run starts at `e`. */
  lemma {:induction false} TrailingRunStart(s: string, e: int)
    requires 0 < e <= |s| && s[e - 1] != '?'
    requires forall i :: e <= i < |s| ==> s[i] == '?'
    ensures |DropTrailing(s, '?')| == e
    decreases |s|
  {
    if |s| > e {
      TrailingRunStart(s[..|s| - 1], e);
    }
  }

  lemma MatchIsAtRunStart(s: string, word: string, t: string)
    requires word != [] && word[|word| - 1] != '?'
    requires t == DropTrailing(s, '?')
    ensures forall k :: SuffixMatchAt(s, word, k) ==>
      k == |t| - |word| && |word| <= |t| && t[|t| - |word|..] == word
  {
    forall k | SuffixMatchAt(s, word, k)
      ensures k == |t| - |word| && |word| <= |t| && t[|t| - |word|..] == word
    {
      var e := k + |word|;
      assert s[e - 1] == s[k..e][|word| - 1];
      TrailingRunStart(s, e);
      assert t[|t| - |word|..] == s[k..e];
    }
  }

  /** `replace(/<word>\?*$/, '')` for a word that does not end in '?': cut at the
      match when there is one, unchanged otherwise. */
  function StripSuffix(s: string, word: string): (r: string)
    requires word != [] && word[|word| - 1] != '?'
    ensures |r| <= |s| && r == s[..|r|]
    ensures r != s ==> SuffixMatchAt(s, word, |r|)
    ensures forall k :: SuffixMatchAt(s, word, k) ==> r == s[..k]
  {
    var t := DropTrailing(s, '?');
    MatchIsAtRunStart(s, word, t);
    if |word| <= |t| && t[|t| - |word|..] == word then
      var k := |t| - |word|;
      assert s[k..k + |word|] == t[k..];
      t[..k]
    else
      s
  }

  predicate EndsWith(s: string, word: string)
  {
    |word| <= |s| && s[|s| - |word|..] == word
  }

  /** A text that does not end in '?' and not in `word` is left alone. */
  lemma StripSuffixNoMatch(s: string, word: string)
    requires word != [] && word[|word| - 1] != '?'
    requires s != [] ==> s[|s| - 1] != '?'
    requires !EndsWith(s, word)
    ensures StripSuffix(s, word) == s
  {
  }

  const SuffixA: string := "무엇인가요"
  const SuffixB: string := "무엇입니까"

  /** The lookup key of a question text in the written-test upload: no upper-case
      ASCII letter, no quote character, whitespace only as single plain spaces and
      none at either end. */
  function NormalizeQuestion(text: string): (r: string)
    ensures Tidy(r)
    ensures r != [] ==> r[0] != ' ' && r[|r| - 1] != ' '
  {
    var s1 := Trim(text);
    var s2 := ToLower(s1);
    var s3 := RemoveQuotes(s2);
    var s4 := CollapseSpaces(s3);
    var s5 := DropTrailingQuestionMarks(s4);
    var s6 := StripSuffix(s5, SuffixA);
    var s7 := StripSuffix(s6, SuffixB);
    var r := Trim(s7);
    TidyPipeline(s4, s5, s6, s7, r);
    r
  }

  lemma TidyPipeline(s4: string, s5: string, s6: string, s7: string, r: string)
    requires Tidy(s4)
    requires |s5| <= |s4| && s5 == s4[..|s5|]
    requires |s6| <= |s5| && s6 == s5[..|s6|]
    requires |s7| <= |s6| && s7 == s6[..|s7|]
    requires r == Trim(s7)
    ensures Tidy(r)
  {
    assert s7 == s4[..|s7|];
    TidySlice(s4, 0, |s7|);
    var a := LeadingSpaces(s7);
    assert r == s7[a..a + |r|];
    TidySlice(s7, a, a + |r|);
  }

  /** Each stage of the key leaves a string alone that it has nothing to act on. */
  lemma {:induction false} RemoveQuotesNoQuotes(s: string)
    requires forall i :: 0 <= i < |s| ==> !IsQuote(s[i])
    ensures RemoveQuotes(s) == s
  {
    if s != [] {
      RemoveQuotesNoQuotes(s[1..]);
    }
  }

  lemma {:induction false} CollapseSpacesNoSpaces(s: string)
    requires forall i :: 0 <= i < |s| ==> !IsSpace(s[i])
    ensures CollapseSpaces(s) == s
  {
    if s != [] {
      CollapseSpacesNoSpaces(s[1..]);
    }
  }

  lemma PlainKeyStages(s: string)
    requires forall i :: 0 <= i < |s| ==> !IsSpace(s[i]) && !IsQuote(s[i]) && !IsUpperAscii(s[i])
    ensures CollapseSpaces(RemoveQuotes(ToLower(Trim(s)))) == s
  {
    TrimOfTrimmed(s);
    ToLowerNoUpper(s);
    RemoveQuotesNoQuotes(s);
    CollapseSpacesNoSpaces(s);
  }

  lemma FirstPassStages()
    ensures DropTrailingQuestionMarks("a?무엇인가요") == "a?무엇인가요"
    ensures StripSuffix("a?무엇인가요", SuffixA) == "a?"
  {
    var x := "a?무엇인가요";
    assert x[2..] == SuffixA;
    assert SuffixMatchAt(x, SuffixA, 2);
  }

  lemma FirstPassTail()
    ensures StripSuffix("a?", SuffixB) == "a?"
    ensures Trim("a?") == "a?"
  {
    assert DropTrailing("a?", '?') == "a";
    TrimOfTrimmed("a?");
  }

  lemma KeyOfQuestionMarkBeforeSuffix()
    ensures NormalizeQuestion("a?무엇인가요") == "a?"
  {
    assert CollapseSpaces(RemoveQuotes(ToLower(Trim("a?무엇인가요")))) == "a?무엇인가요" by {
      PlainKeyStages("a?무엇인가요");
    }
    FirstPassStages();
    FirstPassTail();
  }

  lemma SecondPassStages()
    ensures DropTrailingQuestionMarks("a?") == "a"
    ensures StripSuffix("a", SuffixA) == "a"
    ensures StripSuffix("a", SuffixB) == "a"
    ensures Trim("a") == "a"
  {
    assert DropTrailingQuestionMarks("a?") == DropTrailingQuestionMarks("a");
    TrimOfTrimmed("a");
  }

  lemma KeyOfQuestionMark()
    ensures NormalizeQuestion("a?") == "a"
  {
    assert CollapseSpaces(RemoveQuotes(ToLower(Trim("a?")))) == "a?" by {
      PlainKeyStages("a?");
    }
    SecondPassStages();
  }

  /** A question that is already in key form (no whitespace, quote or capital, no
      trailing question mark, neither suffix at its end) is its own key. */
  lemma NormalizeQuestionOfPlain(s: string)
    requires forall i :: 0 <= i < |s| ==> !IsSpace(s[i]) && !IsQuote(s[i]) && !IsUpperAscii(s[i])
    requires s != [] ==> s[|s| - 1] != '?' && s[|s| - 1] != '\U{FF1F}'
    requires !EndsWith(s, SuffixA) && !EndsWith(s, SuffixB)
    ensures NormalizeQuestion(s) == s
  {
    PlainKeyStages(s);
    assert DropTrailingQuestionMarks(s) == s;
    StripSuffixNoMatch(s, SuffixA);
    StripSuffixNoMatch(s, SuffixB);
    TrimOfTrimmed(s);
  }

  /** The key ignores ASCII case: a question typed in capitals finds the same quiz. */
  lemma NormalizeQuestionIgnoresCase(text: string)
    requires text != [] ==> !IsSpace(text[0]) && !IsSpace(text[|text| - 1])
    ensures NormalizeQuestion(ToUpper(text)) == NormalizeQuestion(text)
  {
    var u := ToUpper(text);
    TrimOfTrimmed(text);
    assert u != [] ==> u[0] == UpperChar(text[0]) && u[|u| - 1] == UpperChar(text[|text| - 1]);
    TrimOfTrimmed(u);
    ToLowerOfUpper(text);
  }

  /** The key is not idempotent: a question mark left in front of a removed suffix
      survives the first pass and is removed by a second. */
  lemma NormalizeQuestionNotIdempotent()
    ensures NormalizeQuestion("a?무엇인가요") == "a?"
    ensures NormalizeQuestion(NormalizeQuestion("a?무엇인가요")) == "a"
  {
    KeyOfQuestionMarkBeforeSuffix();
    KeyOfQuestionMark();
  }

  // ------------------------------------------------------------------- date ----

  /** `replace(/\./g, '-')`. */
  function DotsToDashes(s: string): (r: string)
    ensures |r| == |s|
    ensures forall i :: 0 <= i < |s| ==> r[i] == (if s[i] == '.' then '-' else s[i])
  {
    seq(|s|, i requires 0 <= i < |s| => if s[i] == '.' then '-' else s[i])
  }

  /** The test-date repair: "2025. 10. 28." becomes "2025-10-28". */
  function NormalizeDate(date: string): (r: string)
    ensures forall i :: 0 <= i < |r| ==> r[i] != '.' && !IsSpace(r[i])
    ensures r != [] ==> r[|r| - 1] != '-'
    ensures var d := DotsToDashes(StripSpaces(date));
      |r| <= |d| && d == r + d[|r|..] && forall i :: |r| <= i < |d| ==> d[i] == '-'
  {
    var d := DotsToDashes(StripSpaces(date));
    var r := DropTrailing(d, '-');
    assert d == r + d[|r|..];
    r
  }

  lemma {:induction false} DotsToDashesAppend(a: string, b: string)
    ensures DotsToDashes(a + b) == DotsToDashes(a) + DotsToDashes(b)
  {
    var l := DotsToDashes(a + b);
    var r := DotsToDashes(a) + DotsToDashes(b);
    forall i | 0 <= i < |l| ensures l[i] == r[i] {
      if i < |a| { assert (a + b)[i] == a[i]; } else { assert (a + b)[i] == b[i - |a|]; }
    }
  }

  ghost predicate Digits(s: string)
  {
    s != [] && forall i :: 0 <= i < |s| ==> IsDigit(s[i])
  }

  lemma StripSpacesAppend5(a: string, b: string, c: string, d: string, e: string)
    ensures StripSpaces(a + b + c + d + e)
      == StripSpaces(a) + StripSpaces(b) + StripSpaces(c) + StripSpaces(d) + StripSpaces(e)
  {
    StripSpacesAppend(a + b + c + d, e);
    StripSpacesAppend(a + b + c, d);
    StripSpacesAppend(a + b, c);
    StripSpacesAppend(a, b);
  }

  lemma StripSpacesOfSeparators()
    ensures StripSpaces(". ") == "." && StripSpaces(".") == "."
  {
    assert ". "[1..] == " ";
    assert StripSpaces(" ") == "";
  }

  lemma DottedDateStripped(y: string, m: string, d: string)
    requires Digits(y) && Digits(m) && Digits(d)
    ensures StripSpaces(y + ". " + m + ". " + d + ".") == y + "." + m + "." + d + "."
  {
    StripSpacesAppend5(y + ". ", m, ". ", d, ".");
    StripSpacesAppend(y, ". ");
    StripSpacesOfSeparators();
    DigitsHaveNoSpaces(y);
    DigitsHaveNoSpaces(m);
    DigitsHaveNoSpaces(d);
  }

  lemma DigitsHaveNoSpaces(s: string)
    requires Digits(s)
    ensures StripSpaces(s) == s && DotsToDashes(s) == s
  {
  }

  lemma DottedDateDashed(y: string, m: string, d: string)
    requires Digits(y) && Digits(m) && Digits(d)
    ensures DotsToDashes(y + "." + m + "." + d + ".") == y + "-" + m + "-" + d + "-"
  {
    DotsToDashesAppend(y + "." + m + "." + d, ".");
    DotsToDashesAppend(y + "." + m + ".", d);
    DotsToDashesAppend(y + "." + m, ".");
    DotsToDashesAppend(y + ".", m);
    DotsToDashesAppend(y, ".");
    DigitsHaveNoSpaces(y);
    DigitsHaveNoSpaces(m);
    DigitsHaveNoSpaces(d);
  }

  /** The dotted form of the source, "YYYY. MM. DD." as in "2025. 10. 28.", becomes
      "YYYY-MM-DD" ("2025-10-28"). */
  lemma NormalizeDottedDate(y: string, m: string, d: string)
    requires Digits(y) && Digits(m) && Digits(d)
    ensures NormalizeDate(y + ". " + m + ". " + d + ".") == y + "-" + m + "-" + d
  {
    DottedDateStripped(y, m, d);
    DottedDateDashed(y, m, d);
    var v := y + "-" + m + "-" + d;
    assert DropTrailing(v + "-", '-') == v by {
      assert v[|v| - 1] == d[|d| - 1];
      assert (v + "-")[..|v|] == v;
      assert DropTrailing(v + "-", '-') == DropTrailing(v, '-');
    }
  }

  /** A date already in the repaired form is left alone. */
  lemma {:induction false} NormalizeDateFixesNormalized(date: string)
    requires forall i :: 0 <= i < |date| ==> date[i] != '.' && !IsSpace(date[i])
    requires date != [] ==> date[|date| - 1] != '-'
    ensures NormalizeDate(date) == date
  {
    assert StripSpaces(date) == date;
    assert DotsToDashes(date) == date;
  }
}
