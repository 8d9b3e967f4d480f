/** The reusable field rules of the application (lib/validations/index.ts):
    the declared bounds and patterns of the slug, password, SKU, quantity and
    free-text schemas, and the Spanish error messages they report.

    A schema is modelled as the predicate "the input passes every declared
    check" plus the value the schema's trailing transforms produce. */
module Validations {
  import opened Wrappers
  import opened Text

  // ---------------------------------------------------------------------------
  // Error messages
  // ---------------------------------------------------------------------------

  const Required: string := "Este campo es requerido"
  const InvalidSlug: string := "Solo letras minúsculas, números y guiones"
  const PositiveNumber: string := "Debe ser un número positivo"
  const IntegerRequired: string := "Debe ser un número entero"

  /** `errorMessages.minLength(n)`. */
  function MinLength(n: nat): string {
    "Mínimo " + NatToString(n) + " caracteres"
  }

  /** `errorMessages.maxLength(n)`. */
  function MaxLength(n: nat): string {
    "Máximo " + NatToString(n) + " caracteres"
  }

  /** The two length messages differ from each other for every bound, and the
      bound can be read back from the message. */
  lemma LengthMessagesDistinct(n: nat, k: nat)
    ensures MinLength(n) != MaxLength(k)
    ensures MinLength(n)[7..|MinLength(n)| - 11] == NatToString(n)
  {
    assert MinLength(n)[1] != MaxLength(k)[1];
  }

  /** The message the slug schema reports for a short slug. */
  lemma MinLengthThree()
    ensures MinLength(3) == "Mínimo 3 caracteres"
    ensures MaxLength(50) == "Máximo 50 caracteres"
  {
    assert NatToString(3) == "3";
    assert NatToString(5) == "5" && NatToString(0) == "0";
    assert NatToString(50) == NatToString(5) + [DigitChar(0)];
  }

  // ---------------------------------------------------------------------------
  // Slug pattern ^[a-z0-9]+(?:-[a-z0-9]+)*$
  // ---------------------------------------------------------------------------

  /** The character class `[a-z0-9]`. */
  predicate IsSlugAlnum(c: char) {
    ('a' <= c <= 'z') || ('0' <= c <= '9')
  }

  /** The character class `[a-z0-9-]`. */
  predicate IsSlugChar(c: char) {
    IsSlugAlnum(c) || c == '-'
  }

  /** `[a-z0-9]+`: a non-empty run of lower-case letters and digits. */
  predicate IsSlugWord(w: string) {
    |w| > 0 && forall i :: 0 <= i < |w| ==> IsSlugAlnum(w[i])
  }

  /** `s` matches `^[a-z0-9]+(?:-[a-z0-9]+)*$`: a word, then any number of
      hyphen-word pairs. The first word ends at the first hyphen. */
  predicate MatchesSlugPattern(s: string)
    decreases |s|
  {
    var k := IndexOfChar(s, '-');
    if k == -1 then IsSlugWord(s) else IsSlugWord(s[..k]) && MatchesSlugPattern(s[k + 1..])
  }

  predicate AllSlugChars(s: string) {
    forall i :: 0 <= i < |s| ==> IsSlugChar(s[i])
  }

  predicate NoDoubleHyphen(s: string) {
    forall i :: 0 <= i < |s| - 1 ==> !(s[i] == '-' && s[i + 1] == '-')
  }

  predicate StartsWithHyphen(s: string) {
    |s| > 0 && s[0] == '-'
  }

  predicate EndsWithHyphen(s: string) {
    |s| > 0 && s[|s| - 1] == '-'
  }

  /** The character-level reading of the slug pattern. */
  predicate SlugShaped(s: string) {
    && |s| > 0
    && AllSlugChars(s)
    && NoDoubleHyphen(s)
    && !StartsWithHyphen(s)
    && !EndsWithHyphen(s)
  }

  /** A string matches the slug pattern exactly when it is non-empty, uses only
      `[a-z0-9-]`, and has no hyphen at either end and no two hyphens in a row. */
  lemma SlugPatternIffShaped(s: string)
    ensures MatchesSlugPattern(s) <==> SlugShaped(s)
  {
    if MatchesSlugPattern(s) {
      ShapedOfPattern(s);
    }
    if SlugShaped(s) {
      PatternOfShaped(s);
    }
  }

  lemma {:induction false} ShapedOfPattern(s: string)
    requires MatchesSlugPattern(s)
    ensures SlugShaped(s)
    decreases |s|
  {
    var k := IndexOfChar(s, '-');
    if k != -1 {
      var w, rest := s[..k], s[k + 1..];
      assert s == w + "-" + rest;
      ShapedOfPattern(rest);
      JoinShaped(w, rest);
    }
  }

  /** A word, a hyphen, and a slug-shaped remainder make a slug-shaped string. */
  lemma JoinShaped(w: string, rest: string)
    requires IsSlugWord(w) && SlugShaped(rest)
    ensures SlugShaped(w + "-" + rest)
  {
    var t := w + "-" + rest;
    var k := |w|;
    assert forall i :: 0 <= i < k ==> t[i] == w[i];
    assert t[k] == '-';
    assert forall i :: k < i < |t| ==> t[i] == rest[i - k - 1];
    assert NoDoubleHyphen(t) by {
      forall i | 0 <= i < |t| - 1
        ensures !(t[i] == '-' && t[i + 1] == '-')
      {
        if i > k {
          assert t[i + 1] == rest[i - k];
        } else if i == k {
          assert t[i + 1] == rest[0];
        }
      }
    }
  }

  lemma {:induction false} PatternOfShaped(s: string)
    requires SlugShaped(s)
    ensures MatchesSlugPattern(s)
    decreases |s|
  {
    var k := IndexOfChar(s, '-');
    if k == -1 {
      assert forall i :: 0 <= i < |s| ==> s[i] != '-';
    } else {
      SplitShaped(s, k);
      PatternOfShaped(s[k + 1..]);
    }
  }

  /** Cutting a slug-shaped string at its first hyphen leaves a word before it
      and a slug-shaped string after it. */
  lemma SplitShaped(s: string, k: nat)
    requires SlugShaped(s) && k < |s| && IndexOfChar(s, '-') == k
    ensures IsSlugWord(s[..k]) && SlugShaped(s[k + 1..])
  {
    var w, rest := s[..k], s[k + 1..];
    assert k > 0 && k < |s| - 1;
    assert s[k + 1] != '-';
    assert forall i :: 0 <= i < |rest| ==> rest[i] == s[k + 1 + i];
    assert forall i :: 0 <= i < k ==> w[i] == s[i] && s[i] != '-';
    assert NoDoubleHyphen(rest) by {
      forall i | 0 <= i < |rest| - 1
        ensures !(rest[i] == '-' && rest[i + 1] == '-')
      {
        assert rest[i] == s[k + 1 + i] && rest[i + 1] == s[k + 2 + i];
      }
    }
  }

  // ---------------------------------------------------------------------------
  // Schemas
  // ---------------------------------------------------------------------------

  /** zod's `.min(n)` and `.max(n)` on strings compare `s.length`, which counts
      UTF-16 code units; for the slug alphabet that is the number of characters. */
  lemma SlugCharsLength(s: string)
    requires AllSlugChars(s)
    ensures Utf16Length(s) == |s|
  {
    assert forall i :: 0 <= i < |s| ==> IsSlugChar(s[i]) && InBmp(s[i]);
  }

  /** A string matching the slug pattern has as many code units as characters. */
  lemma PatternLength(s: string)
    ensures MatchesSlugPattern(s) ==> Utf16Length(s) == |s|
  {
    if MatchesSlugPattern(s) {
      SlugPatternIffShaped(s);
      SlugCharsLength(s);
    }
  }

  /** `slugSchema`: length 3..50 and the slug pattern. */
  predicate SlugSchemaAccepts(s: string) {
    3 <= Utf16Length(s) <= 50 && MatchesSlugPattern(s)
  }

  /** The messages `slugSchema` reports for `s`, in the order the checks are declared. */
  function SlugIssues(s: string): (issues: seq<string>)
    ensures issues == [] <==> SlugSchemaAccepts(s)
    ensures Utf16Length(s) < 3 ==> MinLength(3) in issues
    ensures Utf16Length(s) > 50 ==> MaxLength(50) in issues
    ensures !MatchesSlugPattern(s) ==> InvalidSlug in issues
    ensures MatchesSlugPattern(s) ==> (issues == [] <==> 3 <= |s| <= 50)
  {
    PatternLength(s);
    (if Utf16Length(s) < 3 then [MinLength(3)] else [])
    + (if Utf16Length(s) > 50 then [MaxLength(50)] else [])
    + (if MatchesSlugPattern(s) then [] else [InvalidSlug])
  }

  /** The value `slugSchema` hands on: lower-cased and trimmed after the checks. */
  function SlugSchemaValue(s: string): string {
    Trim(Lower(s))
  }

  /** For an accepted slug the trailing transforms change nothing. */
  lemma SlugSchemaValueOfAccepted(s: string)
    requires SlugSchemaAccepts(s)
    ensures SlugSchemaValue(s) == s
  {
    SlugPatternIffShaped(s);
    SlugCharsFixed(s);
  }

  /** A non-empty string of `[a-z0-9-]` has no upper-case letter and no
      whitespace at either end. */
  lemma SlugCharsFixed(s: string)
    requires s != [] && AllSlugChars(s)
    ensures Lower(s) == s && TrimStart(s) == s && TrimEnd(s) == s
  {
    forall i | 0 <= i < |s|
      ensures Lower(s)[i] == s[i]
    {
      assert IsSlugChar(s[i]) && !IsUpperLetter(s[i]);
    }
    assert IsSlugChar(s[0]) && !IsSpace(s[0]);
    assert IsSlugChar(s[|s| - 1]) && !IsSpace(s[|s| - 1]);
  }

  /** `passwordSchema`: at least six UTF-16 code units. */
  predicate PasswordAccepts(s: string) {
    Utf16Length(s) >= 6
  }

  /** `skuSchema`: two to fifty UTF-16 code units. */
  predicate SkuAccepts(s: string) {
    2 <= Utf16Length(s) <= 50
  }

  /** The messages `passwordSchema` reports: none for six characters or more,
      the minimum for fewer than three, and for three to five characters
      exactly when the password lies inside the Basic Multilingual Plane. */
  function PasswordIssues(s: string): (issues: seq<string>)
    ensures issues == [] <==> PasswordAccepts(s)
    ensures !PasswordAccepts(s) ==> issues == [MinLength(6)]
    ensures |s| >= 6 ==> issues == []
    ensures |s| < 3 ==> issues == [MinLength(6)]
    ensures (forall i :: 0 <= i < |s| ==> InBmp(s[i])) ==> (issues == [] <==> |s| >= 6)
  {
    if Utf16Length(s) < 6 then [MinLength(6)] else []
  }

  /** Three emoji are six code units: JavaScript's length accepts them as a
      password although they are three characters. */
  lemma AstralPasswordAccepted()
    ensures var p := "\U{1F600}\U{1F600}\U{1F600}"; |p| == 3 && PasswordIssues(p) == []
  {
    var p := "\U{1F600}\U{1F600}\U{1F600}";
    assert !InBmp(p[0]) && !InBmp(p[1]) && !InBmp(p[2]);
    assert p[1..][1..] == [p[2]];
  }

  /** The messages `skuSchema` reports; at most one bound can fail. Counted in
      characters, the bounds hold for two characters and fail beyond fifty;
      for an SKU inside the Basic Multilingual Plane they are exactly 2..50. */
  function SkuIssues(s: string): (issues: seq<string>)
    ensures issues == [] <==> SkuAccepts(s)
    ensures Utf16Length(s) < 2 ==> issues == [MinLength(2)]
    ensures Utf16Length(s) > 50 ==> issues == [MaxLength(50)]
    ensures |s| < 1 ==> issues == [MinLength(2)]
    ensures |s| > 50 ==> issues == [MaxLength(50)]
    ensures (forall i :: 0 <= i < |s| ==> InBmp(s[i])) ==> (issues == [] <==> 2 <= |s| <= 50)
  {
    (if Utf16Length(s) < 2 then [MinLength(2)] else []) + (if Utf16Length(s) > 50 then [MaxLength(50)] else [])
  }

  /** The value `skuSchema` hands on: upper-cased, then trimmed. */
  function SkuValue(s: string): string {
    Trim(Upper(s))
  }

  /** The SKU bounds are checked before the trim, so a blank SKU of two
      spaces passes and is handed on empty. */
  lemma SkuCheckedBeforeTrim()
    ensures SkuAccepts("  ") && SkuValue("  ") == ""
  {
    assert Upper("  ") == "  ";
    assert InBmp("  "[0]) && InBmp("  "[1]);
  }

  /** `Number.MAX_SAFE_INTEGER` and `Number.MIN_SAFE_INTEGER`. */
  const MaxSafeInteger: int := 9007199254740991
  const MinSafeInteger: int := -9007199254740991

  /** zod's default messages for the two bounds `.safe()` adds. */
  const SafeMinimum: string := "Number must be greater than or equal to -9007199254740991"
  const SafeMaximum: string := "Number must be less than or equal to 9007199254740991"

  /** `quantitySchema` on an integer input: non-negative (zero allowed) and safe. */
  predicate QuantityAccepts(n: int) {
    0 <= n <= MaxSafeInteger
  }

  /** The messages `quantitySchema` reports for an integer input, one per
      failed check in declaration order: `.nonnegative`, then the minimum and
      the maximum of `.safe()`. */
  function QuantityIssues(n: int): (issues: seq<string>)
    ensures issues == [] <==> QuantityAccepts(n)
    ensures MinSafeInteger <= n < 0 ==> issues == [PositiveNumber]
    ensures n < MinSafeInteger ==> issues == [PositiveNumber, SafeMinimum]
    ensures n > MaxSafeInteger ==> issues == [SafeMaximum]
  {
    (if n < 0 then [PositiveNumber] else [])
    + (if n < MinSafeInteger then [SafeMinimum] else [])
    + (if n > MaxSafeInteger then [SafeMaximum] else [])
  }

  /** `textSchema(min, max)`: the length bounds, in UTF-16 code units, are
      checked BEFORE trimming. */
  predicate TextAccepts(s: string, min: nat, max: nat) {
    min <= Utf16Length(s) <= max
  }

  /** `textSchema()` with its default bounds. */
  predicate DefaultTextAccepts(s: string) {
    TextAccepts(s, 1, 255)
  }

  /** `optionalTextSchema(max)`: absent, the empty string, or at most `max` code units. */
  predicate OptionalTextAccepts(s: Option<string>, max: nat) {
    s.None? || s.value == "" || Utf16Length(s.value) <= max
  }

  /** `optionalTextSchema()` with its default bound. */
  predicate DefaultOptionalTextAccepts(s: Option<string>) {
    OptionalTextAccepts(s, 500)
  }

  /** The default text bounds are 1..255 characters for text inside the Basic
      Multilingual Plane; any text of 1..127 characters passes and any of more
      than 255 fails; because the bounds are checked before `.trim()`, a
      whitespace-only string passes and is handed on empty. The optional text
      takes up to 500 code units and always accepts absence. */
  lemma TextSchemaBounds(s: string)
    ensures (forall i :: 0 <= i < |s| ==> InBmp(s[i])) ==> (DefaultTextAccepts(s) <==> 1 <= |s| <= 255)
    ensures 1 <= |s| <= 127 ==> DefaultTextAccepts(s)
    ensures |s| > 255 ==> !DefaultTextAccepts(s)
    ensures DefaultTextAccepts(" ") && Trim(" ") == ""
    ensures (forall i :: 0 <= i < |s| ==> InBmp(s[i])) ==> (DefaultOptionalTextAccepts(Some(s)) <==> |s| <= 500)
    ensures |s| > 500 ==> !DefaultOptionalTextAccepts(Some(s))
    ensures DefaultOptionalTextAccepts(None)
  {
    assert InBmp(" "[0]);
  }
}
