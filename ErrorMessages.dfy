/** Friendly error messages and form input checks: `friendlyError` maps a raw
    provider message to a user-facing one (role mismatch first, then an exact
    key of the error table, then the first key contained case-insensitively,
    then a generic fallback); `validateEmail` and `validatePassword` check form
    input. */
module ErrorMessages {
  import opened Types
  import opened Strings

  const UnexpectedMessage := "Something unexpected happened. Please try again."
  const FallbackMessage := "Something went wrong on our end. Please try again in a moment."
  const RoleMismatchPrefix := "ROLE_MISMATCH:"

  const AccountExistsMessage := "Looks like you already have an account with us! Try logging in instead."

  /** ERROR_MAP, in declaration order */
  const ErrorMap: seq<(string, string)> := [
    ("User already registered", AccountExistsMessage),
    ("user already exists", AccountExistsMessage),
    ("A user with this email address has already been registered", AccountExistsMessage),
    ("Email rate limit exceeded",
      "Whoa, slow down! Too many attempts — please wait a minute and try again."),
    ("For security purposes, you can only request this after",
      "For your security, please wait a bit before trying again."),
    ("Password should be at least 6 characters",
      "Your password needs to be at least 6 characters long. A little longer goes a long way!"),
    ("Signup requires a valid password",
      "Please enter a valid password (at least 6 characters)."),
    ("Invalid login credentials",
      "Hmm, that email or password doesn't look right. Give it another try!"),
    ("Email not confirmed",
      "You haven't confirmed your email yet. Please check your inbox (and spam folder) for the confirmation link."),
    ("Invalid Refresh Token: Refresh Token Not Found",
      "Your session has expired. Please log in again."),
    ("invalid claim: missing sub claim",
      "Something went wrong with your session. Please log in again."),
    ("Error getting user email from external provider",
      "We couldn't get your email from Google. Please make sure you allow email access and try again."),
    ("Multiple accounts with the same email address in the same linking domain detected",
      "An account with this email already exists. Try logging in with your email and password instead."),
    ("Unverified email with external provider",
      "Google didn't verify your email. Please try again or sign up with email and password."),
    ("Request rate limit reached",
      "Too many requests — please take a breather and try again in a moment."),
    ("over_email_send_rate_limit",
      "We've sent too many emails recently. Please wait a few minutes and try again."),
    ("Failed to fetch",
      "Couldn't reach our servers. Please check your internet connection and try again."),
    ("NetworkError when attempting to fetch resource",
      "It looks like you're offline. Check your connection and give it another shot."),
    ("Load failed",
      "Connection lost — please check your internet and try again.")
  ]

  /* ── friendlyError ── */

  /** Entry i of the table has exactly the key raw. */
  predicate ExactAt(table: seq<(string, string)>, raw: string, i: int) {
    0 <= i < |table| && table[i].0 == raw
  }

  /** The lowercased key of entry i occurs in the lowercased raw message. */
  predicate SubstringAt(table: seq<(string, string)>, raw: string, i: int) {
    0 <= i < |table| && Contains(Lower(raw), Lower(table[i].0))
  }

  /** `ERROR_MAP[raw]`: the first entry, from index `from` on, whose key is raw */
  function ExactIndex(table: seq<(string, string)>, raw: string, from: nat): (r: Option<nat>)
    requires from <= |table|
    ensures r.Some? ==> from <= r.value && ExactAt(table, raw, r.value)
    ensures r.Some? ==> forall j :: from <= j < r.value ==> !ExactAt(table, raw, j)
    ensures r.None? ==> forall j :: from <= j < |table| ==> !ExactAt(table, raw, j)
    decreases |table| - from
  {
    if from == |table| then None
    else if table[from].0 == raw then Some(from)
    else ExactIndex(table, raw, from + 1)
  }

  /** The `for...of` over the table: the first entry, from index `from` on,
      whose lowercased key the lowercased raw message includes */
  function SubstringIndex(table: seq<(string, string)>, raw: string, from: nat): (r: Option<nat>)
    requires from <= |table|
    ensures r.Some? ==> from <= r.value && SubstringAt(table, raw, r.value)
    ensures r.Some? ==> forall j :: from <= j < r.value ==> !SubstringAt(table, raw, j)
    ensures r.None? ==> forall j :: from <= j < |table| ==> !SubstringAt(table, raw, j)
    decreases |table| - from
  {
    if from == |table| then None
    else if Contains(Lower(raw), Lower(table[from].0)) then Some(from)
    else SubstringIndex(table, raw, from + 1)
  }

  function RoleMismatchSentence(actual: string, expected: string): string {
    "You're registered as a " + actual + ". Please use the " + actual
      + " login page instead of the " + expected + " one."
  }

  /** The role-mismatch branch: the second and third colon-separated fields,
      "other" and "this" when missing, each with its first letter capitalised */
  function RoleMismatchMessage(raw: string): (message: string)
    ensures var parts := Split(raw, ':');
      && (|parts| > 2 ==> message == RoleMismatchSentence(Capitalize(parts[1]), Capitalize(parts[2])))
      && (|parts| == 2 ==> message == RoleMismatchSentence(Capitalize(parts[1]), "This"))
      && (|parts| < 2 ==> message == RoleMismatchSentence("Other", "This"))
  {
    var parts := Split(raw, ':');
    var actualRole := if |parts| > 1 then parts[1] else "other";
    var expectedRole := if |parts| > 2 then parts[2] else "this";
    RoleMismatchSentence(Capitalize(actualRole), Capitalize(expectedRole))
  }

  /** The lookup of friendlyError against a given table: the role-mismatch
      sentence first, then the first exact key, then the first key contained
      case-insensitively, then the fallback. `raw` is None for null and undefined. */
  function FriendlyErrorWith(table: seq<(string, string)>, raw: Option<string>): (message: string)
    ensures !Truthy(raw) ==> message == UnexpectedMessage
    ensures Truthy(raw) && StartsWith(raw.value, RoleMismatchPrefix) ==> message == RoleMismatchMessage(raw.value)
    ensures Truthy(raw) && !StartsWith(raw.value, RoleMismatchPrefix) ==>
      forall i :: ExactAt(table, raw.value, i) && (forall j :: 0 <= j < i ==> !ExactAt(table, raw.value, j)) ==>
        message == table[i].1
    ensures Truthy(raw) && !StartsWith(raw.value, RoleMismatchPrefix) && (forall j :: !ExactAt(table, raw.value, j)) ==>
      forall i :: SubstringAt(table, raw.value, i) && (forall j :: 0 <= j < i ==> !SubstringAt(table, raw.value, j)) ==>
        message == table[i].1
    ensures (Truthy(raw) && !StartsWith(raw.value, RoleMismatchPrefix)
      && (forall j :: !ExactAt(table, raw.value, j)) && (forall j :: !SubstringAt(table, raw.value, j))) ==>
        message == FallbackMessage
    ensures Truthy(raw) && !StartsWith(raw.value, RoleMismatchPrefix) ==>
      message == FallbackMessage || exists i :: 0 <= i < |table| && message == table[i].1
  {
    if !Truthy(raw) then UnexpectedMessage
    else if StartsWith(raw.value, RoleMismatchPrefix) then RoleMismatchMessage(raw.value)
    else match ExactIndex(table, raw.value, 0)
      case Some(i) => table[i].1
      case None =>
        match SubstringIndex(table, raw.value, 0)
        case Some(i) => table[i].1
        case None => FallbackMessage
  }

  /** Every friendly message of ERROR_MAP has some text. */
  lemma ErrorMapMessagesNonEmpty()
    ensures forall i :: 0 <= i < |ErrorMap| ==> ErrorMap[i].1 != ""
  {
  }

  /** friendlyError, against ERROR_MAP: never an empty message, and outside
      the role-mismatch case always one of the table's messages or the
      fallback. */
  function FriendlyError(raw: Option<string>): (message: string)
    ensures message != ""
    ensures Truthy(raw) && !StartsWith(raw.value, RoleMismatchPrefix) ==>
      message == FallbackMessage || exists i :: 0 <= i < |ErrorMap| && message == ErrorMap[i].1
  {
    ErrorMapMessagesNonEmpty();
    FriendlyErrorWith(ErrorMap, raw)
  }

  /** "ROLE_MISMATCH:" with no colon in its name part is split into its name
      and the rest, so a role-mismatch message always has a second field and
      the "other" default is never used. */
  lemma {:induction false} RoleMismatchHasActualField(raw: string)
    requires StartsWith(raw, RoleMismatchPrefix)
    ensures |Split(raw, ':')| >= 2
    ensures Split(raw, ':')[0] == "ROLE_MISMATCH"
  {
    var rest := raw[|RoleMismatchPrefix|..];
    var t := ":" + rest;
    assert raw == "ROLE_MISMATCH" + t;
    SplitAfterPlainPrefix("ROLE_MISMATCH", t, ':');
    assert t[1..] == rest;
    assert Split(t, ':') == [""] + Split(rest, ':');
  }

  /** The message built for "ROLE_MISMATCH:actual:expected" names the
      capitalised actual role twice and the capitalised expected role once. */
  lemma RoleMismatchRoundTrip(actual: string, expected: string)
    requires ':' !in actual && ':' !in expected
    ensures FriendlyError(Some(RoleMismatchPrefix + actual + ":" + expected))
      == RoleMismatchSentence(Capitalize(actual), Capitalize(expected))
  {
    var raw := RoleMismatchPrefix + actual + ":" + expected;
    var parts := ["ROLE_MISMATCH", actual, expected];
    assert parts[1..] == [actual, expected] && parts[1..][1..] == [expected];
    assert Join(parts[1..], ":") == actual + ":" + expected;
    assert Join(parts, ":") == "ROLE_MISMATCH" + ":" + (actual + ":" + expected);
    assert Join(parts, ":") == raw;
    JoinThenSplit(parts, ':');
    assert raw[..|RoleMismatchPrefix|] == RoleMismatchPrefix;
  }

  /** Without a third field the expected role defaults to "this", which is
      then capitalised like any other field. */
  lemma RoleMismatchWithoutExpected(actual: string)
    requires ':' !in actual
    ensures FriendlyError(Some(RoleMismatchPrefix + actual))
      == RoleMismatchSentence(Capitalize(actual), "This")
  {
    var raw := RoleMismatchPrefix + actual;
    var parts := ["ROLE_MISMATCH", actual];
    assert parts[1..] == [actual];
    assert Join(parts, ":") == raw;
    JoinThenSplit(parts, ':');
    assert raw[..|RoleMismatchPrefix|] == RoleMismatchPrefix;
  }

  /* ── validateEmail ── */

  const EmptyEmailMessage := "Please enter your email address."
  const InvalidEmailMessage := "That doesn't look like a valid email. Double-check and try again!"

  /** A character of the class `[^\s@]` */
  predicate IsEmailChar(c: char) {
    !IsSpace(c) && c != '@'
  }

  predicate AllEmailChars(s: string) {
    forall i :: 0 <= i < |s| ==> IsEmailChar(s[i])
  }

  /** What `/^[^\s@]+@[^\s@]+\.[^\s@]+$/` accepts: local@domain.tld where the
      three parts are non-empty and free of whitespace and "@" */
  ghost predicate MatchesEmailPattern(t: string) {
    exists k, j :: 0 < k && k + 1 < j && j + 1 < |t| && t[k] == '@' && t[j] == '.'
      && AllEmailChars(t[..k]) && AllEmailChars(t[k + 1..j]) && AllEmailChars(t[j + 1..])
  }

  /** The first position of c in s */
  function IndexOfChar(s: string, c: char): (r: Option<nat>)
    ensures r.Some? ==> r.value < |s| && s[r.value] == c && c !in s[..r.value]
    ensures r.None? ==> c !in s
  {
    if s == [] then None
    else if s[0] == c then Some(0)
    else match IndexOfChar(s[1..], c)
      case Some(i) => assert s[1..][..i] == s[1..i + 1]; Some(i + 1)
      case None => None
  }

  /** A dot strictly inside d, neither first nor last */
  predicate HasInnerDot(d: string) {
    exists j :: 0 < j < |d| - 1 && d[j] == '.'
  }

  /** The pattern checked without backtracking: a non-empty local part up to
      the first "@", then a domain free of whitespace and "@" with an inner dot */
  predicate IsEmailShaped(t: string) {
    var at := IndexOfChar(t, '@');
    at.Some? && at.value > 0 && AllEmailChars(t[..at.value])
      && AllEmailChars(t[at.value + 1..]) && HasInnerDot(t[at.value + 1..])
  }

  /** A character that is preceded only by other characters is found first. */
  lemma IndexOfCharFinds(s: string, c: char, k: nat)
    requires k < |s| && s[k] == c && c !in s[..k]
    ensures IndexOfChar(s, c) == Some(k)
  {
    assert s[k] in s;
  }

  lemma ShapedMatchesPattern(t: string)
    requires IsEmailShaped(t)
    ensures MatchesEmailPattern(t)
  {
    var k := IndexOfChar(t, '@').value;
    var d := t[k + 1..];
    var j' :| 0 < j' < |d| - 1 && d[j'] == '.';
    var j := k + 1 + j';
    assert t[k + 1..j] == d[..j'];
    assert t[j + 1..] == d[j' + 1..];
    assert t[j] == '.';
  }

  lemma PatternIsShaped(t: string, k: nat, j: nat)
    requires 0 < k && k + 1 < j && j + 1 < |t| && t[k] == '@' && t[j] == '.'
    requires AllEmailChars(t[..k]) && AllEmailChars(t[k + 1..j]) && AllEmailChars(t[j + 1..])
    ensures IsEmailShaped(t)
  {
    assert '@' !in t[..k] by {
      forall i | 0 <= i < k ensures t[..k][i] != '@' {
        assert IsEmailChar(t[..k][i]);
      }
    }
    IndexOfCharFinds(t, '@', k);
    var d := t[k + 1..];
    assert d[j - k - 1] == '.';
    forall i | 0 <= i < |d| ensures IsEmailChar(d[i]) {
      if i < j - k - 1 {
        assert d[i] == t[k + 1..j][i];
      } else if i > j - k - 1 {
        assert d[i] == t[j + 1..][i - (j - k)];
      }
    }
  }

  /** The search for the first "@" accepts exactly what the pattern accepts. */
  lemma EmailShapeMatchesPattern(t: string)
    ensures IsEmailShaped(t) <==> MatchesEmailPattern(t)
  {
    if IsEmailShaped(t) {
      ShapedMatchesPattern(t);
    }
    if MatchesEmailPattern(t) {
      var k: nat, j: nat :| 0 < k && k + 1 < j && j + 1 < |t| && t[k] == '@' && t[j] == '.'
        && AllEmailChars(t[..k]) && AllEmailChars(t[k + 1..j]) && AllEmailChars(t[j + 1..]);
      PatternIsShaped(t, k, j);
    }
  }

  /** validateEmail: the empty-address message when blank after trimming, the
      invalid-address message when the trimmed input does not match the
      pattern, null when it does. */
  function ValidateEmail(email: string): (message: Option<string>)
    ensures Trim(email) == "" ==> message == Some(EmptyEmailMessage)
    ensures (forall k :: 0 <= k < |email| ==> IsSpace(email[k])) ==> message == Some(EmptyEmailMessage)
    ensures message.None? <==> MatchesEmailPattern(Trim(email))
    ensures Trim(email) != "" && !MatchesEmailPattern(Trim(email)) ==> message == Some(InvalidEmailMessage)
  {
    var trimmed := Trim(email);
    TrimEmptyIffBlank(email);
    EmailShapeMatchesPattern(trimmed);
    if trimmed == "" then Some(EmptyEmailMessage)
    else if !IsEmailShaped(trimmed) then Some(InvalidEmailMessage)
    else None
  }

  /* ── validatePassword ── */

  const EmptyPasswordMessage := "Please enter a password."
  const ShortPasswordMessage := "Your password needs to be at least 6 characters. Almost there!"
  const MinPasswordLength := 6

  /** validatePassword: empty, too short, or accepted, by length alone */
  function ValidatePassword(password: string): (message: Option<string>)
    ensures message == Some(EmptyPasswordMessage) <==> password == ""
    ensures message == Some(ShortPasswordMessage) <==> 0 < |password| < MinPasswordLength
    ensures message.None? <==> |password| >= MinPasswordLength
  {
    if password == "" then Some(EmptyPasswordMessage)
    else if |password| < MinPasswordLength then Some(ShortPasswordMessage)
    else None
  }
}
