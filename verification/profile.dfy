/**
 * The profile page: avatar initials, the edit form seeded from the stored
 * profile, and the form's change handler.
 */
module Profile {
  import opened Common

  // ---------------------------------------------------------------------
  // Initials

  /** `s.split(' ')`: the pieces between single spaces, empty pieces included. */
  function Split(s: string): (parts: seq<string>)
    ensures |parts| >= 1
  {
    if s == [] then [""]
    else if s[0] == ' ' then [""] + Split(s[1..])
    else
      var rest := Split(s[1..]);
      [[s[0]] + rest[0]] + rest[1..]
  }

  /** `parts.join(' ')`. */
  function Join(parts: seq<string>): string {
    if parts == [] then []
    else if |parts| == 1 then parts[0]
    else parts[0] + [' '] + Join(parts[1..])
  }

  /** Joining a piece that gained a first character `c` gains `c` in front. */
  lemma JoinConsHead(c: char, rest: seq<string>)
    requires |rest| >= 1
    ensures Join([[c] + rest[0]] + rest[1..]) == [c] + Join(rest)
  {
    var parts := [[c] + rest[0]] + rest[1..];
    if |rest| > 1 {
      assert parts[1..] == rest[1..];
    }
  }

  /**
   * What `split(' ')` means: no piece holds a space, and joining the pieces
   * with single spaces gives back the string.
   */
  lemma {:induction false} SplitMeaning(s: string)
    ensures forall i :: 0 <= i < |Split(s)| ==> ' ' !in Split(s)[i]
    ensures Join(Split(s)) == s
  {
    if s != [] {
      SplitMeaning(s[1..]);
      var rest := Split(s[1..]);
      if s[0] == ' ' {
        assert Split(s) == [""] + rest;
        assert Join(Split(s)) == "" + [' '] + Join(rest);
        assert s == [s[0]] + s[1..];
      } else {
        JoinConsHead(s[0], rest);
        assert s == [s[0]] + s[1..];
        assert Split(s)[0] == [s[0]] + rest[0];
        assert forall i :: 1 <= i < |Split(s)| ==> Split(s)[i] == rest[i];
      }
    }
  }

  /** Those two facts fix the pieces: any space-free pieces that join to `s` are `Split(s)`. */
  lemma {:induction false} SplitIsUnique(s: string, parts: seq<string>)
    requires parts != [] && forall i :: 0 <= i < |parts| ==> ' ' !in parts[i]
    requires Join(parts) == s
    ensures parts == Split(s)
    decreases |s|
  {
    if parts[0] == [] {
      if |parts| > 1 {
        assert s == [' '] + Join(parts[1..]);
        assert s[1..] == Join(parts[1..]);
        SplitIsUnique(s[1..], parts[1..]);
        assert parts == [""] + parts[1..];
      }
    } else {
      var head := parts[0];
      var shorter := [head[1..]] + parts[1..];
      assert head == [head[0]] + head[1..];
      assert shorter[1..] == parts[1..];
      JoinConsHead(head[0], shorter);
      assert [[head[0]] + shorter[0]] + shorter[1..] == parts;
      assert s[1..] == Join(shorter);
      assert head[0] == parts[0][0] && head[0] != ' ';
      forall i | 0 <= i < |shorter|
        ensures ' ' !in shorter[i]
      {
        if i == 0 {
          assert forall k :: 0 <= k < |head[1..]| ==> head[1..][k] == head[k + 1];
        }
      }
      SplitIsUnique(s[1..], shorter);
    }
  }

  /**
   * `.map(part => part[0]).join('')`: the first character of each piece; an
   * empty piece gives `undefined`, which `join` writes as nothing.
   */
  function Firsts(parts: seq<string>): (r: string)
    ensures |r| <= |parts|
  {
    if parts == [] then []
    else (if parts[0] == [] then [] else [parts[0][0]]) + Firsts(parts[1..])
  }

  /** `getInitials(name)`: 'U' for a missing or empty name, else the upper-cased first characters of its pieces. */
  function GetInitials(name: Option<string>): (r: string)
    ensures !Truthy(name) ==> r == "U"
    ensures Truthy(name) ==> |r| <= |Split(name.value)|
  {
    if !Truthy(name) then "U" else Upper(Firsts(Split(name.value)))
  }

  /**
   * An independent reading of the initials: every non-space character that
   * starts the string or follows a space. `afterSpace` says whether the
   * character before `s` was a space (or there was none).
   */
  function WordStarts(s: string, afterSpace: bool): string {
    if s == [] then []
    else (if s[0] != ' ' && afterSpace then [s[0]] else []) + WordStarts(s[1..], s[0] == ' ')
  }

  /** Splitting on spaces and taking first characters picks exactly the word starts. */
  lemma {:induction false} FirstsAreWordStarts(s: string)
    ensures Firsts(Split(s)) == WordStarts(s, true)
    ensures Firsts(Split(s)[1..]) == WordStarts(s, false)
  {
    if s == [] {
    } else if s[0] == ' ' {
      FirstsAreWordStarts(s[1..]);
      assert ([""] + Split(s[1..]))[1..] == Split(s[1..]);
    } else {
      FirstsAreWordStarts(s[1..]);
      var rest := Split(s[1..]);
      var parts := [[s[0]] + rest[0]] + rest[1..];
      assert parts[1..] == rest[1..];
    }
  }

  /** The initials of a non-empty name are its word starts, upper-cased. */
  lemma InitialsAreUpperWordStarts(s: string)
    requires s != ""
    ensures GetInitials(Some(s)) == Upper(WordStarts(s, true))
  {
    FirstsAreWordStarts(s);
  }

  predicate NonEmpty(part: string) {
    part != []
  }

  function IsNonEmpty(): string -> bool {
    (p: string) => NonEmpty(p)
  }

  function NonEmptyParts(parts: seq<string>): seq<string> {
    Filter(parts, IsNonEmpty())
  }

  /** Empty pieces contribute nothing, and every non-empty piece contributes one character. */
  lemma {:induction false} FirstsSkipEmptyParts(parts: seq<string>)
    ensures Firsts(parts) == Firsts(NonEmptyParts(parts))
    ensures |Firsts(parts)| == |NonEmptyParts(parts)|
  {
    if parts != [] {
      FirstsSkipEmptyParts(parts[1..]);
      var ne := NonEmptyParts(parts);
      if parts[0] != [] {
        assert ne == [parts[0]] + NonEmptyParts(parts[1..]);
        assert ne[1..] == NonEmptyParts(parts[1..]);
        assert Firsts(ne) == [parts[0][0]] + Firsts(NonEmptyParts(parts[1..]));
      } else {
        assert ne == NonEmptyParts(parts[1..]);
      }
    }
  }

  /** A non-empty name has as many initials as it has non-empty space-separated pieces. */
  lemma InitialsCount(s: string)
    requires s != ""
    ensures |GetInitials(Some(s))| == |NonEmptyParts(Split(s))|
  {
    FirstsSkipEmptyParts(Split(s));
  }

  /** A space in front of the name changes nothing. */
  lemma LeadingSpaceIgnored(s: string)
    ensures WordStarts([' '] + s, true) == WordStarts(s, true)
  {
    assert ([' '] + s)[1..] == s;
  }

  /** A space at the end of the name changes nothing. */
  lemma {:induction false} TrailingSpaceIgnored(s: string, afterSpace: bool)
    ensures WordStarts(s + [' '], afterSpace) == WordStarts(s, afterSpace)
  {
    if s != [] {
      assert (s + [' '])[1..] == s[1..] + [' '];
      TrailingSpaceIgnored(s[1..], s[0] == ' ');
    }
  }

  /** Two spaces in a row count as one. */
  lemma {:induction false} DoubleSpaceIgnored(a: string, b: string, afterSpace: bool)
    ensures WordStarts(a + [' ', ' '] + b, afterSpace) == WordStarts(a + [' '] + b, afterSpace)
  {
    if a == [] {
      assert ([' ', ' '] + b)[1..] == [' '] + b;
      assert [] + [' ', ' '] + b == [' ', ' '] + b;
      assert [] + [' '] + b == [' '] + b;
    } else {
      assert (a + [' ', ' '] + b)[1..] == a[1..] + [' ', ' '] + b;
      assert (a + [' '] + b)[1..] == a[1..] + [' '] + b;
      DoubleSpaceIgnored(a[1..], b, a[0] == ' ');
    }
  }

  /** "ada lee" gives "AL". */
  lemma TwoWordExample()
    ensures GetInitials(Some("ada lee")) == "AL"
  {
    InitialsAreUpperWordStarts("ada lee");
    WordStartsOfTwoWords();
    assert Upper("al") == "AL";
  }

  /** The word starts of "ada lee", unfolded one character at a time. */
  lemma WordStartsOfTwoWords()
    ensures WordStarts("ada lee", true) == "al"
  {
    assert WordStarts("ee", false) == [];
    assert "lee"[1..] == "ee";
    assert WordStarts("lee", true) == "l";
    assert " lee"[1..] == "lee";
    assert WordStarts(" lee", false) == "l";
    assert "a lee"[1..] == " lee";
    assert WordStarts("a lee", false) == "l";
    assert "da lee"[1..] == "a lee";
    assert WordStarts("da lee", false) == "l";
    assert "ada lee"[1..] == "da lee";
  }

  /** A name made only of spaces is not missing, yet it has no initials: the avatar shows nothing rather than 'U'. */
  lemma BlankNameExample()
    ensures GetInitials(Some("  ")) == ""
    ensures GetInitials(None) == GetInitials(Some("")) == "U"
  {
    InitialsAreUpperWordStarts("  ");
    assert "  "[1..] == " ";
  }

  // ---------------------------------------------------------------------
  // The edit form

  /** The stored profile fields the form edits; each may be null. */
  datatype UserData = UserData(
    id: string,
    name: Option<string>,
    bio: Option<string>,
    location: Option<string>,
    jobTitle: Option<string>,
    phoneNumber: Option<string>,
    website: Option<string>
  )

  datatype ProfileForm = ProfileForm(
    name: string,
    bio: string,
    location: string,
    jobTitle: string,
    phoneNumber: string,
    website: string
  )

  /** The inputs of the form, by their `name` attribute. */
  datatype ProfileField = Name | Bio | Location | JobTitle | PhoneNumber | Website

  function Get(f: ProfileForm, field: ProfileField): string {
    match field
    case Name => f.name
    case Bio => f.bio
    case Location => f.location
    case JobTitle => f.jobTitle
    case PhoneNumber => f.phoneNumber
    case Website => f.website
  }

  function Stored(u: UserData, field: ProfileField): Option<string> {
    match field
    case Name => u.name
    case Bio => u.bio
    case Location => u.location
    case JobTitle => u.jobTitle
    case PhoneNumber => u.phoneNumber
    case Website => u.website
  }

  /** The form's first state: each stored field, with null (and '') shown as ''. */
  function InitialForm(u: UserData): (f: ProfileForm)
    ensures forall field :: Stored(u, field).None? ==> Get(f, field) == ""
    ensures forall field :: Stored(u, field).Some? ==> Get(f, field) == Stored(u, field).value
  {
    ProfileForm(OrEmpty(u.name), OrEmpty(u.bio), OrEmpty(u.location), OrEmpty(u.jobTitle),
                OrEmpty(u.phoneNumber), OrEmpty(u.website))
  }

  /** `handleInputChange`: the named field takes the input's value and every other field stays. */
  function HandleInputChange(f: ProfileForm, field: ProfileField, value: string): (r: ProfileForm)
    ensures Get(r, field) == value
    ensures forall other :: other != field ==> Get(r, other) == Get(f, other)
  {
    match field
    case Name => f.(name := value)
    case Bio => f.(bio := value)
    case Location => f.(location := value)
    case JobTitle => f.(jobTitle := value)
    case PhoneNumber => f.(phoneNumber := value)
    case Website => f.(website := value)
  }

  /** Typing the value a field already holds leaves the form as it was. */
  lemma SameValueNoChange(f: ProfileForm, field: ProfileField)
    ensures HandleInputChange(f, field, Get(f, field)) == f
  {
  }

  /** Only the last of two edits to the same field counts; edits to different fields commute. */
  lemma EditsCompose(f: ProfileForm, a: ProfileField, b: ProfileField, x: string, y: string)
    ensures a == b ==> HandleInputChange(HandleInputChange(f, a, x), b, y) == HandleInputChange(f, b, y)
    ensures a != b ==> HandleInputChange(HandleInputChange(f, a, x), b, y)
                       == HandleInputChange(HandleInputChange(f, b, y), a, x)
  {
  }
}
