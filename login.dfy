/**
 * The input checks of the login screen, src/screens/login/login.js: the email
 * regular-expression test (non-space text, '@', non-space text, '.', non-space
 * text, anywhere in the string), the password length test, the order of
 * the guards in `handleLogin`, and when the login button is disabled.
 */
module Login {

  /** JavaScript's `\s`: the ECMAScript WhiteSpace and LineTerminator characters. */
  predicate IsSpace(c: char) {
    || c == '\t' || c == '\n' || c == '\U{000B}' || c == '\U{000C}' || c == '\r' || c == ' '
    || c == '\U{00A0}' || c == '\U{1680}' || ('\U{2000}' <= c <= '\U{200A}')
    || c == '\U{2028}' || c == '\U{2029}' || c == '\U{202F}' || c == '\U{205F}'
    || c == '\U{3000}' || c == '\U{FEFF}'
  }

  /** Any character that is not white space. */
  predicate NonSpace(c: char) {
    !IsSpace(c)
  }

  /**
   * The regular expression matched at s[i..j]: a run of non-space characters
   * s[i..at], an '@', a non-empty run s[at+1..dot], a '.', and a non-empty run
   * s[dot+1..j].
   */
  ghost predicate MatchAt(s: string, i: int, at: int, dot: int, j: int) {
    && 0 <= i < at && at + 1 < dot && dot + 1 < j <= |s|
    && (forall k :: i <= k < at ==> NonSpace(s[k]))
    && s[at] == '@'
    && (forall k :: at < k < dot ==> NonSpace(s[k]))
    && s[dot] == '.'
    && (forall k :: dot < k < j ==> NonSpace(s[k]))
  }

  /** `RegExp.prototype.test` is unanchored: a match anywhere in the string counts. */
  ghost predicate RegexMatches(s: string) {
    exists i, at, dot, j :: MatchAt(s, i, at, dot, j)
  }

  // ---------------------------------------------------------------------------
  // A one-pass scanner for the regular expression

  /**
   * Which positions of the pattern the text read so far can end at:
   * inside the first run, right after the '@', inside the second run, right
   * after the '.', and whether a complete match has been seen.
   */
  datatype Scan = Scan(user: bool, at: bool, host: bool, dot: bool, found: bool)

  function Step(st: Scan, c: char): Scan {
    Scan(NonSpace(c),
         st.user && c == '@',
         NonSpace(c) && (st.at || st.host),
         st.host && c == '.',
         st.found || (st.dot && NonSpace(c)))
  }

  /** The scanner after reading s[..n]. */
  function ScanPrefix(s: string, n: nat): Scan
    requires n <= |s|
    decreases n
  {
    if n == 0 then Scan(false, false, false, false, false)
    else Step(ScanPrefix(s, n - 1), s[n - 1])
  }

  /** s[..n] ends inside a second run that started after an '@' preceded by a non-space character. */
  ghost predicate HostFrom(s: string, n: int, at: int) {
    && 1 <= at && at + 1 < n <= |s|
    && NonSpace(s[at - 1]) && s[at] == '@'
    && (forall k :: at < k < n ==> NonSpace(s[k]))
  }

  /** Some second run is open at the end of s[..n]. */
  ghost predicate HostOpen(s: string, n: int) {
    exists at :: HostFrom(s, n, at)
  }

  /** A shortest-form match inside s[..n]: one character before the '@' and one after the '.'. */
  ghost predicate ShortMatch(s: string, n: int, at: int, dot: int) {
    && 1 <= at && at + 1 < dot && dot + 1 < n <= |s|
    && NonSpace(s[at - 1]) && s[at] == '@'
    && (forall k :: at < k < dot ==> NonSpace(s[k]))
    && s[dot] == '.' && NonSpace(s[dot + 1])
  }

  /** What each flag of the scanner means about the text it has read. */
  lemma {:induction false} ScanMeaning(s: string, n: nat)
    requires n <= |s|
    ensures var st := ScanPrefix(s, n);
      && (st.user <==> n >= 1 && NonSpace(s[n - 1]))
      && (st.at <==> n >= 2 && s[n - 1] == '@' && NonSpace(s[n - 2]))
      && (st.host <==> HostOpen(s, n))
      && (st.dot <==> n >= 1 && s[n - 1] == '.' && HostOpen(s, n - 1))
      && (st.found <==> exists at, dot :: ShortMatch(s, n, at, dot))
    decreases n
  {
    if n > 0 {
      ScanMeaning(s, n - 1);
      var prev := ScanPrefix(s, n - 1);
      var st := ScanPrefix(s, n);
      var c := s[n - 1];
      // the second run
      if st.host {
        if prev.at {
          assert HostFrom(s, n, n - 2);
        } else {
          var at :| HostFrom(s, n - 1, at);
          assert HostFrom(s, n, at);
        }
      }
      if HostOpen(s, n) {
        var at :| HostFrom(s, n, at);
        if at + 1 < n - 1 {
          assert HostFrom(s, n - 1, at);
        }
      }
      // a complete match
      if st.found {
        if prev.found {
          var at, dot :| ShortMatch(s, n - 1, at, dot);
          assert ShortMatch(s, n, at, dot);
        } else {
          var at :| HostFrom(s, n - 2, at);
          assert ShortMatch(s, n, at, n - 2);
        }
      }
      if exists at, dot :: ShortMatch(s, n, at, dot) {
        var at, dot :| ShortMatch(s, n, at, dot);
        if dot + 1 < n - 1 {
          assert ShortMatch(s, n - 1, at, dot);
        } else {
          assert HostFrom(s, n - 2, at);
        }
      }
    }
  }

  /** A match exists iff one of the shortest form exists. */
  lemma ShortMatchSuffices(s: string)
    ensures RegexMatches(s) <==> exists at, dot :: ShortMatch(s, |s|, at, dot)
  {
    if RegexMatches(s) {
      var i, at, dot, j :| MatchAt(s, i, at, dot, j);
      assert ShortMatch(s, |s|, at, dot);
    }
    if exists at, dot :: ShortMatch(s, |s|, at, dot) {
      var at, dot :| ShortMatch(s, |s|, at, dot);
      assert MatchAt(s, at - 1, at, dot, dot + 2);
    }
  }

  /** `isValidEmail`: the scanner accepts exactly the strings the regular expression matches. */
  function IsValidEmail(email: string): (r: bool)
    ensures r <==> RegexMatches(email)
  {
    ScanMeaning(email, |email|);
    ShortMatchSuffices(email);
    ScanPrefix(email, |email|).found
  }

  /** `isValidPassword`: at least six characters. */
  function IsValidPassword(password: string): (r: bool)
    ensures r <==> |password| >= 6
  {
    |password| >= 6
  }

  /** Without an '@' no string is a valid email. */
  lemma NoAtNoEmail(s: string)
    requires '@' !in s
    ensures !IsValidEmail(s)
  {
  }

  /** Every valid email has an '@' preceded by a non-space character and
      followed, after at least one more non-space character, by a '.' that is
      not the last character. */
  lemma ValidEmailShape(s: string)
    requires IsValidEmail(s)
    ensures exists at, dot :: ShortMatch(s, |s|, at, dot)
  {
    ShortMatchSuffices(s);
  }

  /** The test is unanchored: text around a valid address does not invalidate it. */
  lemma SurroundingTextKeepsValid(prefix: string, s: string, suffix: string)
    requires IsValidEmail(s)
    ensures IsValidEmail(prefix + s + suffix)
  {
    var i, at, dot, j :| MatchAt(s, i, at, dot, j);
    var t := prefix + s + suffix;
    var d := |prefix|;
    assert forall k :: 0 <= k < |s| ==> t[d + k] == s[k];
    assert MatchAt(t, i + d, at + d, dot + d, j + d);
  }

  /** Two concrete cases: a plain address passes, an '@' directly before the '.' fails. */
  lemma Examples()
    ensures IsValidEmail("a@b.c")
    ensures !IsValidEmail("a@.c")
  {
    assert MatchAt("a@b.c", 0, 1, 3, 5);
  }

  /** The outcome of `handleLogin`: a toast for the first failing check, or the sign-in call. */
  datatype LoginStep = RejectEmail | RejectPassword | SignIn

  function HandleLogin(email: string, password: string): (r: LoginStep)
    ensures r == SignIn <==> IsValidEmail(email) && IsValidPassword(password)
    ensures !IsValidEmail(email) ==> r == RejectEmail
    ensures r == RejectPassword <==> IsValidEmail(email) && !IsValidPassword(password)
  {
    if !IsValidEmail(email) then RejectEmail
    else if !IsValidPassword(password) then RejectPassword
    else SignIn
  }

  /** The login button is disabled while a field is empty or a request is running. */
  function LoginDisabled(email: string, password: string, isLoading: bool): (r: bool)
    ensures !r <==> |email| > 0 && |password| > 0 && !isLoading
  {
    |email| == 0 || |password| == 0 || isLoading
  }

  /** Inputs that pass both checks never leave the button disabled unless a
      request is already running. */
  lemma PassingInputsEnableButton(email: string, password: string)
    requires HandleLogin(email, password) == SignIn
    ensures !LoginDisabled(email, password, false)
  {
    var i, at, dot, j :| MatchAt(email, i, at, dot, j);
  }

  /** The button only checks that both fields are filled: it can be enabled for
      an email the login handler then rejects. */
  lemma EnabledButtonCanStillReject()
    ensures !LoginDisabled("a", "123456", false) && HandleLogin("a", "123456") == RejectEmail
  {
    NoAtNoEmail("a");
  }
}
