/** The avatar initials of the top bar (components/Header.tsx, `getUserInitials`):
    taken from the profile's full name when it has one, else from its email,
    else the letter `U`. */
module Header {
  import opened Wrappers
  import opened Text

  /** The two profile fields the initials read (`profile` itself may be null). */
  datatype Profile = Profile(fullName: Option<string>, email: Option<string>)

  /** `s.slice(0, 2)`. */
  function TakeTwo(s: string): (r: string)
    ensures |r| <= 2 && |r| <= |s| && r == s[..|r|]
    ensures |r| == if |s| < 2 then |s| else 2
  {
    if |s| < 2 then s else s[..2]
  }

  /** `n[0]` for one word of the split; the first character of an empty word
      is `undefined`, which `join('')` writes as nothing. */
  function Head(w: string): (r: string)
    ensures |r| <= 1
    ensures r == [] <==> w == []
    ensures r != [] ==> r[0] == w[0]
  {
    if w == [] then [] else [w[0]]
  }

  /** `words.map(n => n[0]).join('')`. */
  function Heads(words: seq<string>): (r: string)
    ensures |r| <= |words|
  {
    if words == [] then [] else Head(words[0]) + Heads(words[1..])
  }

  /** The reference reading of "the initials of a name": scanning left to
      right, the first character of every run of non-space characters.
      `atStart` says whether the previous character was a space (or there
      was none). */
  function WordStarts(s: string, atStart: bool): (r: string)
    ensures |r| <= |s|
    ensures forall i :: 0 <= i < |r| ==> r[i] != ' ' && r[i] in s
  {
    if s == [] then []
    else if s[0] == ' ' then WordStarts(s[1..], true)
    else (if atStart then [s[0]] else []) + WordStarts(s[1..], false)
  }

  /** `getUserInitials()`. */
  function Initials(profile: Option<Profile>): (r: string)
    ensures r != [] || (profile.Some? && profile.value.fullName.Some? && profile.value.fullName.value != [])
    ensures profile.Some? && profile.value.fullName.Some? && profile.value.fullName.value != [] ==>
      r == TakeTwo(Upper(WordStarts(profile.value.fullName.value, true)))
  {
    if profile.Some? && profile.value.fullName.Some? && profile.value.fullName.value != [] then
      var name := profile.value.fullName.value;
      HeadsOfSplit(name);
      TakeTwo(Upper(Heads(Split(name, ' '))))
    else
      var email := if profile.Some? && profile.value.email.Some? then profile.value.email.value else [];
      OrElse(Upper(TakeTwo(email)), "U")
  }

  /** A word without spaces contributes its first character exactly when it
      starts a word, and leaves the scan inside a word when it is not empty. */
  lemma {:induction false} WordStartsOfWord(w: string, rest: string, atStart: bool)
    requires ' ' !in w
    ensures WordStarts(w + rest, atStart) == (if atStart then Head(w) else []) + WordStarts(rest, atStart && w == [])
  {
    if w != [] {
      assert (w + rest)[0] == w[0];
      assert (w + rest)[1..] == w[1..] + rest;
      WordStartsOfWord(w[1..], rest, false);
    } else {
      assert w + rest == rest;
    }
  }

  /** Splitting on single spaces and taking every word's first character is
      the same as taking the first character of every run of non-spaces:
      the empty words that repeated, leading or trailing spaces produce
      contribute nothing. */
  lemma {:induction false} HeadsOfSplit(s: string)
    ensures Heads(Split(s, ' ')) == WordStarts(s, true)
    decreases |s|
  {
    var k := IndexOfChar(s, ' ');
    if k == -1 {
      LastWord(s);
    } else {
      HeadsOfSplit(s[k + 1..]);
      InnerWord(s, k);
    }
  }

  /** The last word of the split. */
  lemma LastWord(s: string)
    requires IndexOfChar(s, ' ') == -1
    ensures Heads(Split(s, ' ')) == WordStarts(s, true)
  {
    assert Split(s, ' ') == [s];
    assert Heads([s]) == Head(s) + Heads([]);
    WordStartsOfWord(s, [], true);
    assert s + [] == s;
  }

  /** A word ended by the space at `k`, on both sides. */
  lemma InnerWord(s: string, k: nat)
    requires k < |s| && IndexOfChar(s, ' ') == k
    ensures Heads(Split(s, ' ')) == Head(s[..k]) + Heads(Split(s[k + 1..], ' '))
    ensures WordStarts(s, true) == Head(s[..k]) + WordStarts(s[k + 1..], true)
  {
    SplitAtSpace(s, k);
    ScanAtSpace(s, k);
  }

  lemma SplitAtSpace(s: string, k: nat)
    requires k < |s| && IndexOfChar(s, ' ') == k
    ensures Heads(Split(s, ' ')) == Head(s[..k]) + Heads(Split(s[k + 1..], ' '))
  {
    SplitAt(s, ' ');
    var ws := Split(s[k + 1..], ' ');
    assert Split(s, ' ') == [s[..k]] + ws;
    HeadsCons(s[..k], ws);
  }

  lemma HeadsCons(w: string, ws: seq<string>)
    ensures Heads([w] + ws) == Head(w) + Heads(ws)
  {
    assert ([w] + ws)[1..] == ws;
  }

  lemma ScanAtSpace(s: string, k: nat)
    requires k < |s| && IndexOfChar(s, ' ') == k
    ensures WordStarts(s, true) == Head(s[..k]) + WordStarts(s[k + 1..], true)
  {
    var w, t := s[..k], s[k + 1..];
    SplitAroundSpace(s, k);
    WordStartsOfWord(w, [' '] + t, true);
    SpaceThen(t, k == 0);
  }

  lemma SplitAroundSpace(s: string, k: nat)
    requires k < |s| && s[k] == ' '
    ensures s == s[..k] + ([' '] + s[k + 1..])
  {
  }

  /** A space ends any word: the scan after it is at a word start. */
  lemma SpaceThen(t: string, atStart: bool)
    ensures WordStarts([' '] + t, atStart) == WordStarts(t, true)
  {
    assert ([' '] + t)[1..] == t;
  }

  /** The name path has at most two characters, none of them a space, each
      the upper-cased start of a word of the name. */
  lemma NameInitialsShape(p: Profile)
    requires p.fullName.Some? && p.fullName.value != []
    ensures var r := Initials(Some(p));
      |r| <= 2 && forall i :: 0 <= i < |r| ==> r[i] == UpperChar(WordStarts(p.fullName.value, true)[i])
  {
  }

  /** Doubling or adding spaces around the words does not change the initials. */
  lemma ExtraSpacesIgnored(a: string, b: string)
    requires a != []
    ensures Initials(Some(Profile(Some(a + [' '] + b), None))) == Initials(Some(Profile(Some(a + [' ', ' '] + b), None)))
    ensures Initials(Some(Profile(Some(a), None))) == Initials(Some(Profile(Some([' '] + a), None)))
  {
    SpacesBetween(a, b, true);
    assert ([' '] + a)[1..] == a;
  }

  lemma {:induction false} SpacesBetween(a: string, b: string, atStart: bool)
    ensures WordStarts(a + [' '] + b, atStart) == WordStarts(a + [' ', ' '] + b, atStart)
    decreases |a|
  {
    if a == [] {
      assert [' '] + b == a + [' '] + b;
      assert [' ', ' '] + b == a + [' ', ' '] + b;
      assert ([' ', ' '] + b)[1..] == [' '] + b;
    } else {
      assert (a + [' '] + b)[1..] == a[1..] + [' '] + b;
      assert (a + [' ', ' '] + b)[1..] == a[1..] + [' ', ' '] + b;
      SpacesBetween(a[1..], b, if a[0] == ' ' then true else false);
    }
  }

  /** A name made only of spaces is truthy, so the name path is taken and the
      initials are empty: the `'U'` fallback applies to the email path only. */
  lemma BlankNameHasNoInitials(n: nat)
    requires n > 0
    ensures Initials(Some(Profile(Some(seq(n, _ => ' ')), None))) == []
  {
    AllSpaces(seq(n, _ => ' '), true);
  }

  lemma {:induction false} AllSpaces(s: string, atStart: bool)
    requires forall i :: 0 <= i < |s| ==> s[i] == ' '
    ensures WordStarts(s, atStart) == []
  {
    if s != [] {
      AllSpaces(s[1..], true);
    }
  }

  /** Without a name, the initials are the email's first two characters
      upper-cased, and `U` when there is no profile or no (or an empty) email. */
  lemma EmailInitials(profile: Option<Profile>)
    requires profile.None? || profile.value.fullName.None? || profile.value.fullName.value == []
    ensures profile.Some? && profile.value.email.Some? && profile.value.email.value != [] ==>
      Initials(profile) == TakeTwo(Upper(profile.value.email.value))
    ensures profile.None? || profile.value.email.None? || profile.value.email.value == [] ==>
      Initials(profile) == "U"
  {
    if profile.Some? && profile.value.email.Some? {
      var e := profile.value.email.value;
      if |e| >= 2 {
        UpperPrefix(e, 2);
      }
    }
  }
}
