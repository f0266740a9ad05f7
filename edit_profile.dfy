/** The profile editor: the stored full name split into first and last name
    for the form, and joined again for the update. The server's answers are
    inputs. */
module EditProfile {
  import opened Wrappers
  import opened ClientRecords

  /** Where the first space of `s` is, if anywhere. */
  function SpaceIndex(s: string): (r: Option<nat>)
    ensures r.Some? ==> r.value < |s| && s[r.value] == ' ' && ' ' !in s[..r.value]
    ensures r.None? <==> ' ' !in s
  {
    if s == [] then None
    else if s[0] == ' ' then Some(0)
    else match SpaceIndex(s[1..])
      case None => None
      case Some(i) =>
        assert s[..i + 1] == [s[0]] + s[1..][..i];
        Some(i + 1)
  }

  /** `s.split(' ')`: the pieces between single spaces, at least one. */
  function Split(s: string): (r: seq<string>)
    ensures |r| >= 1
    ensures forall k :: 0 <= k < |r| ==> ' ' !in r[k]
    decreases |s|
  {
    match SpaceIndex(s)
    case None => [s]
    case Some(i) => [s[..i]] + Split(s[i + 1..])
  }

  /** `pieces.join(' ')`. */
  function Join(pieces: seq<string>): string
    requires |pieces| >= 1
  {
    if |pieces| == 1 then pieces[0] else pieces[0] + " " + Join(pieces[1..])
  }

  /** Splitting loses nothing: joining the pieces gives back the text. */
  lemma {:induction false} JoinSplit(s: string)
    ensures Join(Split(s)) == s
    decreases |s|
  {
    match SpaceIndex(s)
    case None =>
    case Some(i) =>
      JoinSplit(s[i + 1..]);
      assert Split(s)[1..] == Split(s[i + 1..]);
      assert s == s[..i] + " " + s[i + 1..];
  }

  /** A text with no space does not split. */
  lemma SplitWord(a: string)
    requires ' ' !in a
    ensures Split(a) == [a]
  {
  }

  /** The first space after a space-free word is the one right after it. */
  lemma FirstSpaceAfterWord(a: string, rest: string)
    requires ' ' !in a
    ensures SpaceIndex(a + " " + rest) == Some(|a|)
    ensures (a + " " + rest)[..|a|] == a && (a + " " + rest)[|a| + 1..] == rest
  {
    var s := a + " " + rest;
    assert s[|a|] == ' ';
    assert s[..|a|] == a;
  }

  /** Two space-free words joined by one space split into exactly those
      words. */
  lemma SplitTwoWords(a: string, b: string)
    requires ' ' !in a && ' ' !in b
    ensures Split(a + " " + b) == [a, b]
  {
    FirstSpaceAfterWord(a, b);
    SplitWord(b);
  }

  /** With more than two words, the first two pieces are the first two
      words and at least one piece follows. */
  lemma SplitThreeWords(a: string, b: string, rest: string)
    requires ' ' !in a && ' ' !in b
    ensures |Split(a + " " + b + " " + rest)| >= 3
    ensures Split(a + " " + b + " " + rest)[0] == a && Split(a + " " + b + " " + rest)[1] == b
  {
    var tail := b + " " + rest;
    assert a + " " + b + " " + rest == a + " " + tail;
    FirstSpaceAfterWord(a, tail);
    FirstSpaceAfterWord(b, rest);
    assert Split(a + " " + tail) == [a] + Split(tail);
    assert Split(tail) == [b] + Split(rest);
  }

  /** `userData.name?.split(' ')[0] || ''`. */
  function FirstName(name: Option<string>): (r: string)
    ensures ' ' !in r
    ensures name.None? ==> r == ""
    ensures name.Some? ==> r == Split(name.value)[0]
  {
    if name.None? then "" else Split(name.value)[0]
  }

  /** `userData.name?.split(' ')[1] || ''`: the second piece, or empty when
      the name has no space. */
  function LastName(name: Option<string>): (r: string)
    ensures ' ' !in r
    ensures name.None? || ' ' !in name.value ==> r == ""
    ensures name.Some? && |Split(name.value)| >= 2 ==> r == Split(name.value)[1]
  {
    if name.None? || |Split(name.value)| < 2 then "" else Split(name.value)[1]
  }

  /** `${firstName} ${lastName}`. */
  function FullName(first: string, last: string): string {
    first + " " + last
  }

  /** A name of exactly two words survives the split and join unchanged. */
  lemma TwoWordNameRoundTrip(a: string, b: string)
    requires ' ' !in a && ' ' !in b
    ensures FirstName(Some(a + " " + b)) == a && LastName(Some(a + " " + b)) == b
    ensures FullName(FirstName(Some(a + " " + b)), LastName(Some(a + " " + b))) == a + " " + b
  {
    SplitTwoWords(a, b);
  }

  /** Words after the second are dropped: the join keeps the first two. */
  lemma LaterWordsDropped(a: string, b: string, rest: string)
    requires ' ' !in a && ' ' !in b
    ensures FullName(FirstName(Some(a + " " + b + " " + rest)), LastName(Some(a + " " + b + " " + rest)))
            == a + " " + b
  {
    SplitThreeWords(a, b, rest);
  }

  /** A one-word name comes back with a trailing space. */
  lemma OneWordNameGainsSpace(a: string)
    requires ' ' !in a
    ensures FullName(FirstName(Some(a)), LastName(Some(a))) == a + " "
  {
    SplitWord(a);
  }

  /** The profile fields the page reads; `None` is `null` or missing. */
  datatype Profile = Profile(
    name: Option<string>, email: Option<string>, gender: Option<string>,
    currency: Option<string>, language: Option<string>)

  /** The editable part of the form. */
  datatype ProfileForm = ProfileForm(
    firstName: string, lastName: string, email: string, gender: string,
    currency: string, language: string)

  const InitialForm := ProfileForm("", "", "", "", "USD", "english")

  /** `fetchUserData`: the name split in two, the other fields with their
      defaults, `'USD'` and `'english'` for a missing currency and language. */
  function FormFrom(p: Profile): (r: ProfileForm)
    ensures r.firstName == FirstName(p.name) && r.lastName == LastName(p.name)
    ensures r.email == OrDefault(p.email, "") && r.gender == OrDefault(p.gender, "")
    ensures r.currency == OrDefault(p.currency, "USD") && r.language == OrDefault(p.language, "english")
    ensures r.currency != "" && r.language != ""
  {
    ProfileForm(FirstName(p.name), LastName(p.name), OrDefault(p.email, ""), OrDefault(p.gender, ""),
                OrDefault(p.currency, "USD"), OrDefault(p.language, "english"))
  }

  /** The body `handleSubmit` sends. */
  datatype ProfileBody = ProfileBody(name: string, email: string, gender: string, currency: string, language: string)

  function BodyOf(f: ProfileForm): (r: ProfileBody)
    ensures r.name == FullName(f.firstName, f.lastName)
    ensures r.email == f.email && r.gender == f.gender
    ensures r.currency == f.currency && r.language == f.language
  {
    ProfileBody(FullName(f.firstName, f.lastName), f.email, f.gender, f.currency, f.language)
  }

  /** Saving the form unchanged writes back a two-word name and filled-in
      fields exactly as they were read. */
  lemma UnchangedFormRoundTrip(a: string, b: string, p: Profile)
    requires ' ' !in a && ' ' !in b && p.name == Some(a + " " + b)
    requires p.email.Some? && p.gender.Some? && p.currency.Some? && p.language.Some?
    requires p.currency.value != "" && p.language.value != ""
    ensures BodyOf(FormFrom(p)) == ProfileBody(a + " " + b, p.email.value, p.gender.value,
                                                p.currency.value, p.language.value)
  {
    TwoWordNameRoundTrip(a, b);
  }
}
