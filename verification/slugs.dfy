/** The two slug transforms of the organisation-creation form
    (components/OrganizationSelector.tsx): `generateSlug`, which derives a slug
    from the organisation's name, and the sanitiser `handleSlugChange` applies
    to whatever is typed into the slug field. */
module Slugs {
  import opened Text
  import opened Validations

  // ---------------------------------------------------------------------------
  // Accent stripping: normalize('NFD') then removal of U+0300..U+036F
  // ---------------------------------------------------------------------------

  /** A combining diacritical mark, the class `[̀-ͯ]`. */
  predicate IsCombiningMark(c: char) {
    '\U{300}' <= c <= '\U{36F}'
  }

  /** The base letter canonical decomposition leaves for a lower-case Latin-1
      letter once its combining mark is removed; other characters stay. */
  function BaseLetter(c: char): (b: char)
    ensures IsSlugChar(c) ==> b == c
  {
    if '\U{E0}' <= c <= '\U{E5}' then 'a'
    else if c == '\U{E7}' then 'c'
    else if '\U{E8}' <= c <= '\U{EB}' then 'e'
    else if '\U{EC}' <= c <= '\U{EF}' then 'i'
    else if c == '\U{F1}' then 'n'
    else if '\U{F2}' <= c <= '\U{F6}' then 'o'
    else if '\U{F9}' <= c <= '\U{FC}' then 'u'
    else if c == '\U{FD}' || c == '\U{FF}' then 'y'
    else c
  }

  /** `.normalize('NFD').replace(/[̀-ͯ]/g, '')`. */
  function StripAccents(s: string): (r: string)
    ensures |r| <= |s|
    ensures forall i :: 0 <= i < |r| ==> !IsCombiningMark(r[i])
  {
    if s == [] then []
    else if IsCombiningMark(s[0]) then StripAccents(s[1..])
    else [BaseLetter(s[0])] + StripAccents(s[1..])
  }

  /** A string of slug characters has no accents to strip. */
  lemma {:induction false} StripAccentsOfSlugChars(s: string)
    requires AllSlugChars(s)
    ensures StripAccents(s) == s
  {
    if s != [] {
      assert AllSlugChars(s[1..]) by {
        assert forall i :: 0 <= i < |s| - 1 ==> s[1..][i] == s[i + 1];
      }
      StripAccentsOfSlugChars(s[1..]);
      assert [s[0]] + s[1..] == s;
    }
  }

  // ---------------------------------------------------------------------------
  // generateSlug (lines 20-28)
  // ---------------------------------------------------------------------------

  /** Drops the leading characters outside `[a-z0-9]`. */
  function DropNonAlnum(s: string): (r: string)
    ensures |r| <= |s| && r == s[|s| - |r|..]
    ensures r == [] || IsSlugAlnum(r[0])
  {
    if s != [] && !IsSlugAlnum(s[0]) then
      var r := DropNonAlnum(s[1..]);
      assert s[1..][|s| - 1 - |r|..] == s[|s| - |r|..];
      r
    else s
  }

  /** `.replace(/[^a-z0-9]+/g, '-')`: every maximal run of characters outside
      `[a-z0-9]` becomes a single hyphen. */
  function HyphenateRuns(s: string): (r: string)
    ensures AllSlugChars(r) && NoDoubleHyphen(r)
    ensures |r| == 0 <==> |s| == 0
    ensures |s| > 0 ==> (r[0] == '-' <==> !IsSlugAlnum(s[0]))
    ensures |s| > 0 && IsSlugAlnum(s[0]) ==> r[0] == s[0]
    decreases |s|
  {
    if s == [] then []
    else if IsSlugAlnum(s[0]) then [s[0]] + HyphenateRuns(s[1..])
    else "-" + HyphenateRuns(DropNonAlnum(s))
  }

  /** `.replace(/(^-|-$)/g, '')`: removes one hyphen at the start and one at
      the end. */
  function TrimOneHyphen(s: string): (r: string)
    ensures |r| <= |s|
  {
    var a := if StartsWithHyphen(s) then s[1..] else s;
    if EndsWithHyphen(a) then a[..|a| - 1] else a
  }

  /** On a string without doubled hyphens, `TrimOneHyphen` leaves no hyphen at
      either end and keeps the other properties. */
  lemma TrimOneHyphenClean(s: string)
    requires AllSlugChars(s) && NoDoubleHyphen(s)
    ensures var r := TrimOneHyphen(s);
      AllSlugChars(r) && NoDoubleHyphen(r) && !StartsWithHyphen(r) && !EndsWithHyphen(r)
  {
    var a := if StartsWithHyphen(s) then s[1..] else s;
    if StartsWithHyphen(s) && |s| > 1 {
      assert a[0] == s[1];
    }
  }

  /** `.substring(0, n)`. */
  function Take(s: string, n: nat): (r: string)
    ensures |r| <= n && |r| <= |s| && r == s[..|r|]
    ensures |s| <= n ==> r == s
  {
    if |s| <= n then s else s[..n]
  }

  /** The maximum slug length the form produces. */
  const MaxSlugLength: nat := 50

  /** `generateSlug(text)`. */
  function GenerateSlug(text: string): (r: string)
    ensures AllSlugChars(r) && NoDoubleHyphen(r) && !StartsWithHyphen(r)
    ensures |r| <= MaxSlugLength
  {
    var h := HyphenateRuns(StripAccents(Lower(text)));
    TrimOneHyphenClean(h);
    var t := TrimOneHyphen(h);
    var r := Take(t, MaxSlugLength);
    assert forall i :: 0 <= i < |r| ==> r[i] == t[i];
    r
  }

  /** On its own output, every stage of `generateSlug` except the hyphen trim
      is the identity. */
  lemma {:induction false} HyphenateRunsOfClean(s: string)
    requires AllSlugChars(s) && NoDoubleHyphen(s)
    ensures HyphenateRuns(s) == s
    decreases |s|
  {
    if s != [] {
      assert NoDoubleHyphen(s[1..]) by {
        forall i | 0 <= i < |s[1..]| - 1
          ensures !(s[1..][i] == '-' && s[1..][i + 1] == '-')
        {
          assert s[1..][i] == s[i + 1] && s[1..][i + 1] == s[i + 2];
        }
      }
      if !IsSlugAlnum(s[0]) {
        assert DropNonAlnum(s) == s[1..] by {
          if |s| > 1 {
            assert IsSlugAlnum(s[1]);
          }
        }
      }
      HyphenateRunsOfClean(s[1..]);
    }
  }

  /** `generateSlug` is idempotent exactly when its output does not end in a
      hyphen. The 50-character cut runs after the hyphen trim, so a cut that
      lands just after a word leaves a trailing hyphen, and a second pass
      removes it. */
  lemma GenerateSlugIdempotentIff(text: string)
    ensures GenerateSlug(GenerateSlug(text)) == GenerateSlug(text) <==> !EndsWithHyphen(GenerateSlug(text))
  {
    var t := GenerateSlug(text);
    assert Lower(t) == t;
    StripAccentsOfSlugChars(t);
    HyphenateRunsOfClean(t);
    var trimmed := TrimOneHyphen(t);
    if EndsWithHyphen(t) {
      assert |trimmed| < |t|;
      assert GenerateSlug(t) == trimmed;
    } else {
      assert trimmed == t;
    }
  }

  /** `[a-z0-9]*`. */
  predicate AllAlnum(w: string) {
    forall i :: 0 <= i < |w| ==> IsSlugAlnum(w[i])
  }

  lemma AllAlnumTail(w: string)
    requires w != [] && AllAlnum(w)
    ensures IsSlugAlnum(w[0]) && AllAlnum(w[1..])
  {
    assert forall i :: 0 <= i < |w| - 1 ==> w[1..][i] == w[i + 1];
  }

  /** Accent stripping passes over a word of `[a-z0-9]` unchanged. */
  lemma {:induction false} StripAccentsOfWord(w: string, rest: string)
    requires AllAlnum(w)
    ensures StripAccents(w + rest) == w + StripAccents(rest)
    decreases |w|
  {
    if w != [] {
      var s, t := w + rest, w[1..];
      assert s[0] == w[0] && s[1..] == t + rest;
      AllAlnumTail(w);
      StripAccentsOfWord(t, rest);
      assert !IsCombiningMark(s[0]) && BaseLetter(s[0]) == w[0];
      calc {
        StripAccents(s);
        [BaseLetter(s[0])] + StripAccents(s[1..]);
        [w[0]] + (t + StripAccents(rest));
        { assert [w[0]] + t == w; }
        w + StripAccents(rest);
      }
    } else {
      assert w + rest == rest;
    }
  }

  /** Hyphenation passes over a word of `[a-z0-9]` unchanged. */
  lemma {:induction false} HyphenateWordPrefix(w: string, rest: string)
    requires AllAlnum(w)
    ensures HyphenateRuns(w + rest) == w + HyphenateRuns(rest)
    decreases |w|
  {
    if w != [] {
      var s, t := w + rest, w[1..];
      AllAlnumTail(w);
      assert s[0] == w[0] && s[1..] == t + rest;
      HyphenateAlnumHead(s);
      HyphenateWordPrefix(t, rest);
      ConsAppend(w, HyphenateRuns(rest));
    } else {
      assert w + rest == rest;
    }
  }

  /** Putting back the first character of a non-empty string. */
  lemma ConsAppend(w: string, u: string)
    requires w != []
    ensures [w[0]] + (w[1..] + u) == w + u
  {
    assert [w[0]] + w[1..] == w;
  }

  /** A leading letter or digit is kept as it is. */
  lemma HyphenateAlnumHead(s: string)
    requires s != [] && IsSlugAlnum(s[0])
    ensures HyphenateRuns(s) == [s[0]] + HyphenateRuns(s[1..])
  {
  }

  /** A space before a word becomes a hyphen. */
  lemma HyphenateSpaceWord(w: string)
    requires IsSlugWord(w)
    ensures HyphenateRuns(" " + w) == "-" + w
  {
    var tail := " " + w;
    assert tail[0] == ' ' && tail[1..] == w;
    assert DropNonAlnum(tail) == w by {
      assert IsSlugAlnum(w[0]);
    }
    HyphenateWordPrefix(w, []);
    assert w + [] == w;
  }

  /** Two words separated by a space are joined by one hyphen. */
  lemma HyphenateTwoWords(w1: string, w2: string)
    requires IsSlugWord(w1) && IsSlugWord(w2)
    ensures StripAccents(w1 + " " + w2) == w1 + " " + w2
    ensures HyphenateRuns(w1 + " " + w2) == w1 + "-" + w2
  {
    var tail := " " + w2;
    Assoc(w1, " ", w2);
    Assoc(w1, "-", w2);
    StripTwoWords(w1, w2);
    HyphenateSpaceWord(w2);
    HyphenateWordPrefix(w1, tail);
  }

  lemma Assoc(a: string, b: string, c: string)
    ensures a + b + c == a + (b + c)
  {
  }

  lemma StripTwoWords(w1: string, w2: string)
    requires IsSlugWord(w1) && IsSlugWord(w2)
    ensures StripAccents(w1 + (" " + w2)) == w1 + (" " + w2)
  {
    StripAccentsOfWord(w2, []);
    assert w2 + [] == w2;
    StripSpaceThen(w2);
    StripAccentsOfWord(w1, " " + w2);
  }

  /** A space is not an accent and is its own base letter. */
  lemma StripSpaceThen(rest: string)
    ensures StripAccents(" " + rest) == " " + StripAccents(rest)
  {
    assert (" " + rest)[0] == ' ' && (" " + rest)[1..] == rest;
  }

  /** `generateSlug` of a name whose lower-case form is two words separated by
      a space: the words joined by a hyphen when that fits in 50 characters;
      when the first word has 49 characters, the cut keeps the hyphen but not
      the second word. */
  lemma GenerateSlugTwoWords(text: string, w1: string, w2: string)
    requires IsSlugWord(w1) && IsSlugWord(w2) && Lower(text) == w1 + " " + w2
    ensures |w1| + 1 + |w2| <= MaxSlugLength ==> GenerateSlug(text) == w1 + "-" + w2
    ensures |w1| == MaxSlugLength - 1 ==> GenerateSlug(text) == w1 + "-"
  {
    HyphenateTwoWords(w1, w2);
    var h := w1 + "-" + w2;
    assert h[0] == w1[0] && h[|h| - 1] == w2[|w2| - 1];
    assert TrimOneHyphen(h) == h;
    if |w1| == MaxSlugLength - 1 {
      assert h[..MaxSlugLength] == w1 + "-";
    }
  }

  /** `generateSlug("Mi Tienda") == "mi-tienda"`: any name that lower-cases
      to `mi tienda`, `Mi Tienda` among them, gives that slug. */
  lemma GenerateSlugExample(text: string)
    requires Lower(text) == "mi tienda"
    ensures GenerateSlug(text) == "mi-tienda"
    ensures Lower("Mi Tienda") == "mi tienda"
  {
    LowerMiTienda();
    var w1, w2 := "mi", "tienda";
    assert IsSlugWord(w1) && IsSlugWord(w2);
    assert Lower(text) == w1 + " " + w2;
    GenerateSlugTwoWords(text, w1, w2);
    assert w1 + "-" + w2 == "mi-tienda";
  }

  lemma LowerMiTienda()
    ensures Lower("Mi Tienda") == "mi tienda"
  {
    var s, t := "Mi Tienda", "mi tienda";
    assert LowerChar('M') == 'm' && LowerChar('T') == 't';
    forall i | 0 <= i < |s|
      ensures Lower(s)[i] == t[i]
    {
      assert i != 0 && i != 3 ==> s[i] == t[i] && !IsUpperLetter(s[i]);
    }
  }

  /** A 49-letter word, a space and another word: the cut at 50 keeps the
      hyphen but not the word after it, so the slug ends in a hyphen and a
      second pass changes it. */
  lemma GenerateSlugCanEndInHyphen()
    ensures var text := seq(49, _ => 'a') + " b";
      && GenerateSlug(text) == seq(49, _ => 'a') + "-"
      && EndsWithHyphen(GenerateSlug(text))
      && GenerateSlug(GenerateSlug(text)) != GenerateSlug(text)
  {
    var word := seq(49, _ => 'a');
    var text := word + " b";
    assert Lower(text) == text;
    GenerateSlugTwoWords(text, word, "b");
    GenerateSlugIdempotentIff(text);
  }

  /** When `generateSlug` yields a non-empty slug that does not end in a
      hyphen, it matches the slug pattern of lib/validations/index.ts. */
  lemma GenerateSlugMatchesPattern(text: string)
    requires GenerateSlug(text) != [] && !EndsWithHyphen(GenerateSlug(text))
    ensures MatchesSlugPattern(GenerateSlug(text))
  {
    SlugPatternIffShaped(GenerateSlug(text));
  }

  // ---------------------------------------------------------------------------
  // handleSlugChange sanitiser (lines 39-48)
  // ---------------------------------------------------------------------------

  /** `.replace(/[^a-z0-9-]/g, '')`. */
  function KeepSlugChars(s: string): (r: string)
    ensures AllSlugChars(r)
    ensures |r| <= |s|
    ensures AllSlugChars(s) ==> r == s
  {
    if s == [] then []
    else if IsSlugChar(s[0]) then [s[0]] + KeepSlugChars(s[1..])
    else KeepSlugChars(s[1..])
  }

  /** Drops the leading hyphens. */
  function DropHyphens(s: string): (r: string)
    ensures |r| <= |s| && r == s[|s| - |r|..]
    ensures r == [] || r[0] != '-'
  {
    if s != [] && s[0] == '-' then DropHyphens(s[1..]) else s
  }

  /** `.replace(/-+/g, '-')`: every run of hyphens becomes one hyphen. */
  function CollapseHyphens(s: string): (r: string)
    requires AllSlugChars(s)
    ensures AllSlugChars(r) && NoDoubleHyphen(r)
    ensures |r| == 0 <==> |s| == 0
    ensures |s| > 0 ==> r[0] == s[0]
    decreases |s|
  {
    if s == [] then []
    else if s[0] == '-' then
      var rest := DropHyphens(s);
      assert forall i :: 0 <= i < |rest| ==> rest[i] == s[|s| - |rest| + i];
      "-" + CollapseHyphens(rest)
    else [s[0]] + CollapseHyphens(s[1..])
  }

  /** The value `handleSlugChange` stores for what the user typed. */
  function SanitizeSlug(value: string): (r: string)
    ensures AllSlugChars(r) && NoDoubleHyphen(r)
    ensures !StartsWithHyphen(r) && !EndsWithHyphen(r)
  {
    var c := CollapseHyphens(KeepSlugChars(Lower(value)));
    TrimOneHyphenClean(c);
    TrimOneHyphen(c)
  }

  lemma {:induction false} CollapseOfClean(s: string)
    requires AllSlugChars(s) && NoDoubleHyphen(s)
    ensures CollapseHyphens(s) == s
    decreases |s|
  {
    if s != [] {
      assert NoDoubleHyphen(s[1..]) by {
        forall i | 0 <= i < |s[1..]| - 1
          ensures !(s[1..][i] == '-' && s[1..][i + 1] == '-')
        {
          assert s[1..][i] == s[i + 1] && s[1..][i + 1] == s[i + 2];
        }
      }
      if s[0] == '-' {
        assert DropHyphens(s) == s[1..] by {
          if |s| > 1 {
            assert s[1] != '-';
          }
        }
      }
      CollapseOfClean(s[1..]);
    }
  }

  /** The sanitiser is idempotent: a sanitised slug is left as it is. */
  lemma SanitizeSlugIdempotent(value: string)
    ensures SanitizeSlug(SanitizeSlug(value)) == SanitizeSlug(value)
  {
    var u := SanitizeSlug(value);
    assert Lower(u) == u;
    CollapseOfClean(u);
  }

  /** A non-empty sanitised slug of at most 50 characters matches the slug
      pattern, and with at least 3 characters it passes `slugSchema`. */
  lemma SanitizedSlugMatchesPattern(value: string)
    requires SanitizeSlug(value) != [] && |SanitizeSlug(value)| <= 50
    ensures MatchesSlugPattern(SanitizeSlug(value))
    ensures |SanitizeSlug(value)| >= 3 ==> SlugSchemaAccepts(SanitizeSlug(value))
  {
    SlugPatternIffShaped(SanitizeSlug(value));
    SlugCharsLength(SanitizeSlug(value));
  }

  /** A slug that already matches the pattern is stored exactly as typed. */
  lemma SanitizeKeepsValidSlug(s: string)
    requires MatchesSlugPattern(s)
    ensures SanitizeSlug(s) == s
  {
    SlugPatternIffShaped(s);
    SlugCharsFixed(s);
    CollapseOfClean(s);
  }

  /** The `[a-z0-9]` characters of `s`, in order: the reference for what the
      sanitiser keeps. */
  function AlnumsOf(s: string): (r: string)
    ensures AllAlnum(r) && |r| <= |s|
  {
    if s == [] then []
    else
      var r := AlnumsOf(s[1..]);
      if IsSlugAlnum(s[0]) then
        assert forall i :: 1 <= i <= |r| ==> ([s[0]] + r)[i] == r[i - 1];
        [s[0]] + r
      else r
  }

  lemma {:induction false} AlnumsOfAppend(x: string, y: string)
    ensures AlnumsOf(x + y) == AlnumsOf(x) + AlnumsOf(y)
    decreases |x|
  {
    if x != [] {
      assert (x + y)[0] == x[0] && (x + y)[1..] == x[1..] + y;
      AlnumsOfAppend(x[1..], y);
    } else {
      assert x + y == y;
    }
  }

  lemma AlnumsOfCons(c: char, s: string)
    ensures AlnumsOf([c] + s) == (if IsSlugAlnum(c) then [c] else []) + AlnumsOf(s)
  {
    assert ([c] + s)[0] == c && ([c] + s)[1..] == s;
  }

  /** Removing the characters outside `[a-z0-9-]` keeps every `[a-z0-9]` one. */
  lemma {:induction false} AlnumsOfKeep(s: string)
    ensures AlnumsOf(KeepSlugChars(s)) == AlnumsOf(s)
    decreases |s|
  {
    if s != [] {
      AlnumsOfKeep(s[1..]);
      if IsSlugChar(s[0]) {
        AlnumsOfCons(s[0], KeepSlugChars(s[1..]));
      }
    }
  }

  lemma {:induction false} AlnumsOfDropHyphens(s: string)
    ensures AlnumsOf(DropHyphens(s)) == AlnumsOf(s)
    decreases |s|
  {
    if s != [] && s[0] == '-' {
      AlnumsOfDropHyphens(s[1..]);
    }
  }

  /** Collapsing runs of hyphens keeps every `[a-z0-9]` character. */
  lemma {:induction false} AlnumsOfCollapse(s: string)
    requires AllSlugChars(s)
    ensures AlnumsOf(CollapseHyphens(s)) == AlnumsOf(s)
    decreases |s|
  {
    if s != [] {
      if s[0] == '-' {
        var rest := DropHyphens(s);
        assert rest == DropHyphens(s[1..]);
        assert forall i :: 0 <= i < |rest| ==> rest[i] == s[|s| - |rest| + i];
        AlnumsOfCollapse(rest);
        AlnumsOfCons('-', CollapseHyphens(rest));
        AlnumsOfDropHyphens(s);
      } else {
        assert AllSlugChars(s[1..]) by {
          assert forall i :: 0 <= i < |s| - 1 ==> s[1..][i] == s[i + 1];
        }
        AlnumsOfCollapse(s[1..]);
        AlnumsOfCons(s[0], CollapseHyphens(s[1..]));
      }
    }
  }

  /** Dropping a hyphen at either end keeps every `[a-z0-9]` character. */
  lemma AlnumsOfTrimOne(s: string)
    ensures AlnumsOf(TrimOneHyphen(s)) == AlnumsOf(s)
  {
    var a := if StartsWithHyphen(s) then s[1..] else s;
    assert AlnumsOf(a) == AlnumsOf(s);
    if EndsWithHyphen(a) {
      var n := |a| - 1;
      assert a == a[..n] + [a[n]];
      AlnumsOfAppend(a[..n], [a[n]]);
      assert AlnumsOf([a[n]]) == [];
    }
  }

  /** The sanitiser keeps exactly the lower-cased `[a-z0-9]` characters of what
      was typed, in order; it only removes or merges hyphens around them. */
  lemma SanitizeKeepsAlnums(value: string)
    ensures AlnumsOf(SanitizeSlug(value)) == AlnumsOf(Lower(value))
  {
    var k := KeepSlugChars(Lower(value));
    AlnumsOfKeep(Lower(value));
    AlnumsOfCollapse(k);
    AlnumsOfTrimOne(CollapseHyphens(k));
  }

  /** The sanitiser drops forbidden characters rather than turning them into
      hyphens: `"A b"` becomes `"ab"`. */
  lemma SanitizeSlugExample()
    ensures SanitizeSlug("A b") == "ab"
  {
    assert Lower("A b") == "a b";
    assert KeepSlugChars("b") == "b";
    assert KeepSlugChars(" b") == "b";
    assert KeepSlugChars("a b") == "ab";
    assert CollapseHyphens("ab") == "ab" by {
      assert CollapseHyphens("b") == "b";
    }
  }
}
