/** The login, signup and event schemas as acceptance predicates. Each string
    field is trimmed before its length is measured unless noted; optional
    fields are accepted when absent. The email-format test is a parameter. */
module ValidationSchemas {
  import opened Wrappers
  import opened Text

  /** The email-format test the schemas apply to the trimmed address. */
  type EmailFormat = string -> bool

  const MAX_EMAIL := 255
  const MIN_PASSWORD := 8
  const MAX_PASSWORD := 100
  const MAX_FULL_NAME := 100
  const MAX_TITLE := 200
  const MAX_DESCRIPTION := 2000
  const MAX_CATEGORY := 50
  const MAX_TAGS := 10
  const MAX_TAG := 30
  const MAX_VENUE := 200

  /** The trimmed text is between `lo` and `hi` characters long. */
  predicate TrimmedLengthIn(s: string, lo: nat, hi: nat)
  {
    lo <= |Trim(s)| <= hi
  }

  /** An optional field: absent, or present and within bounds once trimmed. */
  predicate OptionalWithin(s: Option<string>, hi: nat)
  {
    s.None? || TrimmedLengthIn(s.value, 0, hi)
  }

  /** An optional field passes exactly when it is absent or its trimmed form
      has at most `hi` characters. */
  lemma OptionalWithinIff(s: Option<string>, hi: nat)
    ensures OptionalWithin(s, hi) <==> (s.Some? ==> |Trim(s.value)| <= hi)
  {
  }

  predicate EmailOk(email: string, isEmail: EmailFormat)
  {
    isEmail(Trim(email)) && |Trim(email)| <= MAX_EMAIL
  }

  /** Passwords are measured as typed, without trimming. */
  predicate PasswordLengthOk(password: string)
  {
    MIN_PASSWORD <= |password| <= MAX_PASSWORD
  }

  predicate HasUppercase(s: string)
  {
    exists i :: 0 <= i < |s| && 'A' <= s[i] <= 'Z'
  }

  predicate HasDigit(s: string)
  {
    exists i :: 0 <= i < |s| && '0' <= s[i] <= '9'
  }

  /** `loginSchema`: a well-formed address of at most 255 characters once
      trimmed, and a password of 8 to 100 characters as typed. */
  predicate LoginAccepts(email: string, password: string, isEmail: EmailFormat)
    ensures LoginAccepts(email, password, isEmail) <==>
      isEmail(Trim(email)) && |Trim(email)| <= 255 && 8 <= |password| <= 100
  {
    EmailOk(email, isEmail) && PasswordLengthOk(password)
  }

  /** `signupSchema`: the login rules, an upper-case letter and a digit in the
      password, and a full name of 1 to 100 characters when one is given. */
  predicate SignupAccepts(email: string, password: string, fullName: Option<string>, isEmail: EmailFormat)
    ensures SignupAccepts(email, password, fullName, isEmail) <==>
      LoginAccepts(email, password, isEmail)
      && (exists i :: 0 <= i < |password| && 'A' <= password[i] <= 'Z')
      && (exists i :: 0 <= i < |password| && '0' <= password[i] <= '9')
      && (fullName.Some? ==> 1 <= |Trim(fullName.value)| <= 100)
  {
    EmailOk(email, isEmail) && PasswordLengthOk(password)
    && HasUppercase(password) && HasDigit(password)
    && (fullName.None? || TrimmedLengthIn(fullName.value, 1, MAX_FULL_NAME))
  }

  /** The fields `eventSchema` checks. */
  datatype EventInput = EventInput(
    title: string,
    description: Option<string>,
    category: Option<string>,
    tags: Option<seq<string>>,
    venue: Option<string>,
    eventDateTime: string)

  predicate TagsOk(tags: Option<seq<string>>)
  {
    tags.None? ||
    (|tags.value| <= MAX_TAGS && forall i :: 0 <= i < |tags.value| ==> |Trim(tags.value[i])| <= MAX_TAG)
  }

  /** `eventSchema`. The date-time text is required but not trimmed. An input
      is accepted exactly when it has a non-blank title of at most 200
      characters once trimmed, a description of at most 2000, a category of at
      most 50 and a venue of at most 200 once trimmed when they are given, at
      most 10 tags of at most 30 characters each once trimmed, and a non-empty
      date-time. */
  predicate EventAccepts(input: EventInput)
    ensures EventAccepts(input) <==>
      1 <= |Trim(input.title)| <= 200
      && (input.description.Some? ==> |Trim(input.description.value)| <= 2000)
      && (input.category.Some? ==> |Trim(input.category.value)| <= 50)
      && (input.tags.Some? ==>
            |input.tags.value| <= 10
            && (forall i :: 0 <= i < |input.tags.value| ==> |Trim(input.tags.value[i])| <= 30))
      && (input.venue.Some? ==> |Trim(input.venue.value)| <= 200)
      && input.eventDateTime != ""
  {
    OptionalWithinIff(input.description, MAX_DESCRIPTION);
    OptionalWithinIff(input.category, MAX_CATEGORY);
    OptionalWithinIff(input.venue, MAX_VENUE);
    TrimmedLengthIn(input.title, 1, MAX_TITLE)
    && OptionalWithin(input.description, MAX_DESCRIPTION)
    && OptionalWithin(input.category, MAX_CATEGORY)
    && TagsOk(input.tags)
    && OptionalWithin(input.venue, MAX_VENUE)
    && |input.eventDateTime| >= 1
  }

  /** Every password signup accepts, login accepts too; the converse fails for
      a password with no upper-case letter. */
  lemma SignupIsStricterThanLogin(email: string, password: string, fullName: Option<string>, isEmail: EmailFormat)
    ensures SignupAccepts(email, password, fullName, isEmail) ==> LoginAccepts(email, password, isEmail)
    ensures !SignupAccepts(email, "abcdefg1", fullName, isEmail)
    ensures EmailOk(email, isEmail) ==> LoginAccepts(email, "abcdefg1", isEmail)
  {
    var p := "abcdefg1";
    forall i | 0 <= i < |p| ensures !('A' <= p[i] <= 'Z') {
    }
  }

  /** An address is judged on its trimmed form: 255 characters pass, 256 do
      not, whatever whitespace surrounds them. */
  lemma EmailLengthBoundary(pre: string, address: string, post: string, isEmail: EmailFormat)
    requires AllWhitespace(pre) && AllWhitespace(post) && Trimmed(address) && address != []
    requires isEmail(address)
    ensures |address| <= 255 ==> EmailOk(pre + address + post, isEmail)
    ensures |address| >= 256 ==> !EmailOk(pre + address + post, isEmail)
  {
    TrimPadded(pre, address, post);
  }

  /** Password length bounds are inclusive and whitespace counts. */
  lemma PasswordLengthBoundary(password: string)
    ensures PasswordLengthOk(password) <==> 8 <= |password| <= 100
    ensures PasswordLengthOk("       x")
  {
  }

  /** A title is judged on its trimmed form: 1 to 200 characters pass, 201 do
      not, and padding with whitespace changes nothing. */
  lemma TitleBoundary(pre: string, title: string, post: string, rest: EventInput)
    requires AllWhitespace(pre) && AllWhitespace(post) && Trimmed(title) && title != []
    ensures |title| <= 200 ==>
      TrimmedLengthIn(rest.(title := pre + title + post).title, 1, MAX_TITLE)
    ensures |title| >= 201 ==> !EventAccepts(rest.(title := pre + title + post))
  {
    TrimPadded(pre, title, post);
  }

  /** Description, category and venue are judged on their trimmed form: a
      core within the field's bound passes, one past it makes the whole event
      fail, padding with whitespace changes nothing, and an absent field always
      passes. */
  lemma OptionalFieldBoundary(pre: string, core: string, post: string, rest: EventInput)
    requires AllWhitespace(pre) && AllWhitespace(post) && Trimmed(core) && core != []
    ensures OptionalWithin(None, MAX_DESCRIPTION) && OptionalWithin(None, MAX_CATEGORY)
      && OptionalWithin(None, MAX_VENUE)
    ensures |core| <= 2000 ==> OptionalWithin(Some(pre + core + post), MAX_DESCRIPTION)
    ensures |core| >= 2001 ==> !EventAccepts(rest.(description := Some(pre + core + post)))
    ensures |core| <= 50 ==> OptionalWithin(Some(pre + core + post), MAX_CATEGORY)
    ensures |core| >= 51 ==> !EventAccepts(rest.(category := Some(pre + core + post)))
    ensures |core| <= 200 ==> OptionalWithin(Some(pre + core + post), MAX_VENUE)
    ensures |core| >= 201 ==> !EventAccepts(rest.(venue := Some(pre + core + post)))
  {
    TrimPadded(pre, core, post);
  }

  /** A title of whitespace only is refused as missing. */
  lemma BlankTitleRejected(input: EventInput)
    requires AllWhitespace(input.title)
    ensures !EventAccepts(input)
  {
    TrimAllWhitespace(input.title);
  }

  /** With every optional field absent, an event is accepted exactly when its
      trimmed title has 1 to 200 characters and a date-time is given. */
  lemma MinimalEventInput(title: string, dateTime: string)
    ensures EventAccepts(EventInput(title, None, None, None, None, dateTime)) <==>
      1 <= |Trim(title)| <= 200 && dateTime != ""
  {
  }

  /** Eleven or more tags fail, whatever they hold. */
  lemma ElevenTagsFail(tags: seq<string>)
    requires |tags| >= 11
    ensures !TagsOk(Some(tags))
  {
  }

  /** Tags whose trimmed lengths are all within 30 pass exactly when there are
      at most ten of them. */
  lemma TagCountBound(tags: seq<string>)
    requires forall i :: 0 <= i < |tags| ==> |Trim(tags[i])| <= 30
    ensures TagsOk(Some(tags)) <==> |tags| <= 10
  {
  }

  /** A tag is judged on its trimmed form: a core of 30 characters passes and
      one of 31 fails, whatever whitespace pads it. */
  lemma TagLengthBoundary(pre: string, core: string, post: string)
    requires AllWhitespace(pre) && AllWhitespace(post) && Trimmed(core) && core != []
    ensures |core| <= 30 ==> TagsOk(Some([pre + core + post]))
    ensures |core| >= 31 ==> !TagsOk(Some([pre + core + post]))
  {
    TrimPadded(pre, core, post);
    OneTagOk(pre + core + post);
  }

  /** A single tag passes exactly when its trimmed form is within 30. */
  lemma OneTagOk(tag: string)
    ensures TagsOk(Some([tag])) <==> |Trim(tag)| <= 30
  {
    assert [tag][0] == tag;
  }

  /** A full name, when given, must have a non-blank trimmed form. */
  lemma BlankFullNameRejected(email: string, password: string, name: string, isEmail: EmailFormat)
    requires AllWhitespace(name)
    ensures !SignupAccepts(email, password, Some(name), isEmail)
    ensures SignupAccepts(email, password, None, isEmail) <==>
      EmailOk(email, isEmail) && PasswordLengthOk(password) && HasUppercase(password) && HasDigit(password)
  {
    TrimAllWhitespace(name);
  }
}
