/** The login screen: the sign-up validator (email shape, minimum password
    length), the mapping from provider error codes to user messages, and the
    discipline of the `loading` flag around the provider call. The
    authentication provider is an oracle whose reply is a parameter. */
module Login {
  import opened JsValues

  const MinPasswordLength: nat := 6

  const InvalidEmailNotice: string := "Please enter a valid email address"
  const ShortPasswordNotice: string := "Password must be at least 6 characters long"
  const AccountCreatedNotice: string := "Account created successfully!"
  const RegistrationPrefix: string := "Registration Failed: "
  const LoginPrefix: string := "Login Failed: "

  const EmailInUseCode: string := "auth/email-already-in-use"
  const InvalidEmailCode: string := "auth/invalid-email"
  const WeakPasswordCode: string := "auth/weak-password"

  /** What the provider does with one request: succeed, or throw an error
      carrying `code` and `message`. */
  datatype AuthReply = Signed | AuthError(code: string, message: string)

  /** The observable effect of pressing a button: whether the provider was
      called, the values written to `loading` in order, and the message
      alerted to the user, if any. */
  datatype Attempt = Attempt(providerCalled: bool, loading: seq<bool>, notice: Option<string>)

  // ----- email shape -----

  /** Characters allowed by `[^\s@]`. */
  predicate Plain(s: string)
  {
    forall k :: 0 <= k < |s| ==> s[k] != '@' && !IsSpace(s[k])
  }

  /** A domain: no '@' or whitespace, and a '.' that is neither its first nor
      its last character. */
  predicate ValidDomain(d: string)
  {
    Plain(d) && exists k :: 0 < k < |d| - 1 && d[k] == '.'
  }

  /** The validator: a non-empty local part without '@' or whitespace, then
      '@', then a valid domain. */
  predicate ValidEmail(s: string)
    ensures ValidEmail(s) ==> 5 <= |s| && forall k :: 0 <= k < |s| ==> !IsSpace(s[k])
  {
    exists at :: 0 < at < |s| && s[at] == '@' && Plain(s[..at]) && ValidDomain(s[at + 1..])
  }

  /** `^[^\s@]+@[^\s@]+\.[^\s@]+$` matched with '@' at `i` and the
      separating '.' at `j`. */
  ghost predicate RegexMatchAt(s: string, i: int, j: int)
  {
    && 0 < i && i + 1 < j && j + 1 < |s|
    && s[i] == '@' && s[j] == '.'
    && Plain(s[..i]) && Plain(s[i + 1..j]) && Plain(s[j + 1..])
  }

  ghost predicate MatchesEmailRegex(s: string)
  {
    exists i, j :: RegexMatchAt(s, i, j)
  }

  lemma PlainSlice(s: string, a: int, b: int)
    requires Plain(s) && 0 <= a <= b <= |s|
    ensures Plain(s[a..b])
  {
    forall k | 0 <= k < b - a ensures s[a..b][k] != '@' && !IsSpace(s[a..b][k]) {
      assert s[a..b][k] == s[a + k];
    }
  }

  lemma PlainJoin(x: string, y: string, z: string)
    requires Plain(x) && Plain(z) && y == "."
    ensures Plain(x + y + z)
  {
    var w := x + y + z;
    forall k | 0 <= k < |w| ensures w[k] != '@' && !IsSpace(w[k]) {
      if k < |x| { assert w[k] == x[k]; }
      else if k == |x| { assert w[k] == '.'; }
      else { assert w[k] == z[k - |x| - 1]; }
    }
  }

  lemma ValidEmailMatchesRegex(s: string)
    requires ValidEmail(s)
    ensures MatchesEmailRegex(s)
  {
    var at :| 0 < at < |s| && s[at] == '@' && Plain(s[..at]) && ValidDomain(s[at + 1..]);
    var d := s[at + 1..];
    var k :| 0 < k < |d| - 1 && d[k] == '.';
    var j := at + 1 + k;
    PlainSlice(d, 0, k);
    PlainSlice(d, k + 1, |d|);
    assert d[..k] == s[at + 1..j] && d[k + 1..] == s[j + 1..];
    assert s[j] == d[k];
    assert RegexMatchAt(s, at, j);
  }

  lemma RegexMatchIsValidEmail(s: string, i: int, j: int)
    requires RegexMatchAt(s, i, j)
    ensures ValidEmail(s)
  {
    var d := s[i + 1..];
    assert d == s[i + 1..j] + "." + s[j + 1..];
    PlainJoin(s[i + 1..j], ".", s[j + 1..]);
    assert d[j - i - 1] == '.';
    assert ValidDomain(d);
    assert 0 < i < |s| && s[i] == '@' && Plain(s[..i]) && ValidDomain(s[i + 1..]);
  }

  /** The validator accepts exactly the strings the regular expression
      matches. */
  lemma ValidEmailIffRegex(s: string)
    ensures ValidEmail(s) <==> MatchesEmailRegex(s)
  {
    if ValidEmail(s) {
      ValidEmailMatchesRegex(s);
    }
    if MatchesEmailRegex(s) {
      var i, j :| RegexMatchAt(s, i, j);
      RegexMatchIsValidEmail(s, i, j);
    }
  }

  /** An accepted address holds exactly one '@'. */
  lemma ValidEmailHasOneAt(s: string)
    requires ValidEmail(s)
    ensures exists at :: 0 <= at < |s| && s[at] == '@'
                         && forall k :: 0 <= k < |s| && s[k] == '@' ==> k == at
  {
    var at :| 0 < at < |s| && s[at] == '@' && Plain(s[..at]) && ValidDomain(s[at + 1..]);
    forall k | 0 <= k < |s| && k != at ensures s[k] != '@' {
      if k < at {
        assert s[..at][k] == s[k];
      } else {
        assert s[at + 1..][k - at - 1] == s[k];
      }
    }
  }

  // ----- messages -----

  /** The text after the registration prefix for a provider error. */
  function RegistrationDetail(code: string, message: string): string
  {
    if code == EmailInUseCode then "This email is already registered. Please sign in instead."
    else if code == InvalidEmailCode then "Please enter a valid email address."
    else if code == WeakPasswordCode then "Password is too weak. Please use a stronger password."
    else message
  }

  predicate KnownCode(code: string)
  {
    code == EmailInUseCode || code == InvalidEmailCode || code == WeakPasswordCode
  }

  /** The message alerted when the provider refuses a registration: always
      the registration prefix, then a fixed text for the three known codes
      and the provider's own message for any other code. */
  function RegistrationNotice(code: string, message: string): (r: string)
    ensures |RegistrationPrefix| <= |r| && r[..|RegistrationPrefix|] == RegistrationPrefix
    ensures !KnownCode(code) ==> r[|RegistrationPrefix|..] == message
  {
    RegistrationPrefix + RegistrationDetail(code, message)
  }

  /** For the three known codes the message is fixed: it does not depend on
      the provider's message, and no two known codes share one. */
  lemma KnownCodesFixedAndDistinct(c1: string, c2: string, m1: string, m2: string)
    requires KnownCode(c1) && KnownCode(c2)
    ensures c1 == c2 <==> RegistrationNotice(c1, m1) == RegistrationNotice(c2, m2)
  {
    var p := |RegistrationPrefix|;
    var d1 := RegistrationDetail(c1, m1);
    var d2 := RegistrationDetail(c2, m2);
    assert RegistrationNotice(c1, m1)[p..] == d1;
    assert RegistrationNotice(c2, m2)[p..] == d2;
    var inUse := "This email is already registered. Please sign in instead.";
    var invalid := "Please enter a valid email address.";
    var weak := "Password is too weak. Please use a stronger password.";
    assert |inUse| == 57 && |invalid| == 35 && |weak| == 53;
    if c1 != c2 {
      assert d1 in {inUse, invalid, weak} && d2 in {inUse, invalid, weak};
    }
  }

  // ----- the two buttons -----

  /** `signUp`: validate the email, then the password length, and only then
      raise `loading`, call the provider and lower `loading` again. */
  function SignUp(email: string, password: string, reply: AuthReply): (a: Attempt)
    ensures a.providerCalled <==> ValidEmail(email) && Utf16Length(password) >= MinPasswordLength
    ensures !ValidEmail(email) ==> a.notice == Some(InvalidEmailNotice)
    ensures ValidEmail(email) && Utf16Length(password) < MinPasswordLength
            ==> a.notice == Some(ShortPasswordNotice)
    ensures !a.providerCalled ==> a.loading == []
    ensures a.providerCalled ==> a.loading == [true, false]
    ensures a.providerCalled && reply.AuthError?
            ==> a.notice == Some(RegistrationNotice(reply.code, reply.message))
    ensures a.providerCalled && reply.Signed? ==> a.notice == Some(AccountCreatedNotice)
  {
    if !ValidEmail(email) then Attempt(false, [], Some(InvalidEmailNotice))
    else if Utf16Length(password) < MinPasswordLength then Attempt(false, [], Some(ShortPasswordNotice))
    else
      var notice := match reply
        case Signed => AccountCreatedNotice
        case AuthError(code, message) => RegistrationNotice(code, message);
      Attempt(true, [true, false], Some(notice))
  }

  /** `signIn`: no validation; `loading` is raised before the call and
      lowered afterwards whatever the outcome; a failure is reported with the
      provider's message. */
  function SignIn(email: string, password: string, reply: AuthReply): (a: Attempt)
    ensures a.providerCalled
    ensures |a.loading| == 2 && a.loading[0] && !a.loading[|a.loading| - 1]
    ensures reply.Signed? <==> a.notice.None?
    ensures reply.AuthError? ==> a.notice == Some(LoginPrefix + reply.message)
  {
    match reply
    case Signed => Attempt(true, [true, false], None)
    case AuthError(_, message) => Attempt(true, [true, false], Some(LoginPrefix + message))
  }

  /** A six-character password of ordinary characters is long enough, a
      five-character one is not. */
  lemma PasswordBoundary(email: string, six: string, five: string, reply: AuthReply)
    requires ValidEmail(email)
    requires InBasicPlane(six) && |six| == 6
    requires InBasicPlane(five) && |five| == 5
    ensures SignUp(email, six, reply).providerCalled
    ensures SignUp(email, five, reply) == Attempt(false, [], Some(ShortPasswordNotice))
  {
    BasicPlaneLength(six);
    BasicPlaneLength(five);
  }

  /** The email is checked first: a malformed address is reported as such
      whatever the password, and the provider is never reached. */
  lemma EmailCheckedFirst(email: string, p1: string, p2: string, r1: AuthReply, r2: AuthReply)
    requires MatchesEmailRegex(email) == false
    ensures SignUp(email, p1, r1) == SignUp(email, p2, r2)
    ensures !SignUp(email, p1, r1).providerCalled
    ensures SignUp(email, p1, r1).notice == Some(InvalidEmailNotice)
  {
    ValidEmailIffRegex(email);
  }

  /** `.length` counts UTF-16 code units, so any three characters outside
      the basic plane, such as three emoji, already make a long enough
      password. */
  lemma SurrogatePairsCountTwice(email: string, password: string, reply: AuthReply)
    requires ValidEmail(email) && OutsideBasicPlane(password) && |password| >= 3
    ensures SignUp(email, password, reply).providerCalled
  {
    SupplementaryLength(password);
  }
}
