/** The sign-in form of frontend/src/components/auth/LoginForm.tsx: the two field rules checked
    before submission, and the submit handler that calls the store's `login`, classifies a
    failure by its HTTP status and keeps its own loading flag. */
module LoginForm {
  import opened Wrappers
  import opened Text
  import opened ApiClient
  import opened Session
  import AuthStore

  // ----- The e-mail pattern -----

  /** `[A-Z]` under the case-insensitive flag: an ASCII letter of either case. */
  predicate IsLetter(c: char) { IsUpperAscii(c) || IsLowerAscii(c) }

  /** `[A-Z0-9._%+-]`, the class of the part before the `@`. */
  predicate IsLocalChar(c: char) {
    IsLetter(c) || IsDigit(c) || c == '.' || c == '_' || c == '%' || c == '+' || c == '-'
  }

  /** `[A-Z0-9.-]`, the class of the domain. */
  predicate IsDomainChar(c: char) {
    IsLetter(c) || IsDigit(c) || c == '.' || c == '-'
  }

  predicate AllLocal(s: string) { forall k :: 0 <= k < |s| ==> IsLocalChar(s[k]) }
  predicate AllDomain(s: string) { forall k :: 0 <= k < |s| ==> IsDomainChar(s[k]) }
  predicate AllLetters(s: string) { forall k :: 0 <= k < |s| ==> IsLetter(s[k]) }

  /** The pattern read declaratively: s splits at an `@` (index i) and a later `.` (index j)
      into a non-empty local part, a non-empty domain and a top-level label of at least two
      letters that ends the string. */
  predicate MatchesPattern(s: string) {
    exists i, j :: 0 < i && i + 1 < j && j + 3 <= |s| && SplitsAt(s, i, j)
  }

  predicate SplitsAt(s: string, i: int, j: int)
    requires 0 < i && i + 1 < j && j + 3 <= |s|
  {
    s[i] == '@' && s[j] == '.'
    && AllLocal(s[..i]) && AllDomain(s[i + 1..j]) && AllLetters(s[j + 1..])
  }

  /** The recogniser: the first `@` ends the local part, and the last `.` after it starts the
      top-level label. */
  predicate ValidEmail(s: string) {
    var at := FirstIndex(s, '@');
    at.Some? && at.value > 0 && AllLocal(s[..at.value])
    && var rest := s[at.value + 1..];
       var dot := LastIndex(rest, '.');
       dot.Some? && dot.value > 0 && |rest| - dot.value - 1 >= 2
       && AllDomain(rest[..dot.value]) && AllLetters(rest[dot.value + 1..])
  }

  /** Every string the recogniser accepts matches the pattern. */
  lemma {:induction false} ValidEmailSound(s: string)
    requires ValidEmail(s)
    ensures MatchesPattern(s)
  {
    var i := FirstIndex(s, '@').value;
    var rest := s[i + 1..];
    var d := LastIndex(rest, '.').value;
    var j := i + 1 + d;
    assert s[i + 1..j] == rest[..d];
    assert s[j + 1..] == rest[d + 1..];
    assert SplitsAt(s, i, j);
  }

  /** Every string the pattern matches is accepted by the recogniser. */
  lemma {:induction false} ValidEmailComplete(s: string)
    requires MatchesPattern(s)
    ensures ValidEmail(s)
  {
    var i, j :| 0 < i && i + 1 < j && j + 3 <= |s| && SplitsAt(s, i, j);
    AtEndsLocalPart(s, i, j);
    DotStartsLabel(s, i, j);
    AcceptedAt(s, i, j);
  }

  /** The recogniser accepts s once its `@` and last `.` are known and the three parts fit. */
  lemma AcceptedAt(s: string, i: int, j: int)
    requires 0 < i && i + 1 < j && j + 3 <= |s|
    requires FirstIndex(s, '@') == Some(i as nat)
    requires LastIndex(s[i + 1..], '.') == Some((j - i - 1) as nat)
    requires AllLocal(s[..i]) && AllDomain(s[i + 1..j]) && AllLetters(s[j + 1..])
    ensures ValidEmail(s)
  {
    var rest := s[i + 1..];
    assert rest[..j - i - 1] == s[i + 1..j];
    assert rest[j - i..] == s[j + 1..];
  }

  /** No character of the local part is an `@`, so the split's `@` is the first one. */
  lemma AtEndsLocalPart(s: string, i: int, j: int)
    requires 0 < i && i + 1 < j && j + 3 <= |s| && SplitsAt(s, i, j)
    ensures FirstIndex(s, '@') == Some(i as nat)
  {
    var local := s[..i];
    forall m | 0 <= m < i ensures s[m] != '@' {
      assert local[m] == s[m] && IsLocalChar(local[m]);
    }
    FirstIndexIs(s, '@', i);
  }

  /** No letter is a `.`, so the split's `.` is the last one after the `@`. */
  lemma DotStartsLabel(s: string, i: int, j: int)
    requires 0 < i && i + 1 < j && j + 3 <= |s| && SplitsAt(s, i, j)
    ensures LastIndex(s[i + 1..], '.') == Some((j - i - 1) as nat)
  {
    var rest := s[i + 1..];
    var tld := s[j + 1..];
    var d := j - i - 1;
    forall m | d < m < |rest| ensures rest[m] != '.' {
      assert rest[m] == tld[m - d - 1] && IsLetter(tld[m - d - 1]);
    }
    LastIndexIs(rest, '.', d);
  }

  /** The recogniser accepts exactly the strings the pattern matches. */
  lemma ValidEmailMatchesPattern(s: string)
    ensures ValidEmail(s) <==> MatchesPattern(s)
  {
    if ValidEmail(s) { ValidEmailSound(s); }
    if MatchesPattern(s) { ValidEmailComplete(s); }
  }

  /** A matching address holds exactly one `@`: the domain's class excludes it too. */
  lemma {:induction false} PatternHasOneAt(s: string)
    requires MatchesPattern(s)
    ensures FirstIndex(s, '@').Some? && FirstIndex(s, '@') == LastIndex(s, '@')
  {
    var i, j :| 0 < i && i + 1 < j && j + 3 <= |s| && SplitsAt(s, i, j);
    var local, domain, tld := s[..i], s[i + 1..j], s[j + 1..];
    forall m | 0 <= m < |s| && m != i ensures s[m] != '@' {
      if m < i {
        assert local[m] == s[m] && IsLocalChar(local[m]);
      } else if m < j {
        assert domain[m - i - 1] == s[m] && IsDomainChar(domain[m - i - 1]);
      } else if m > j {
        assert tld[m - j - 1] == s[m] && IsLetter(tld[m - j - 1]);
      }
    }
  }

  // ----- The browser's own check -----

  /** `atext` of the HTML valid-e-mail grammar: what the part before the `@` may hold besides `.`. */
  predicate IsAtext(c: char) {
    // The symbols !#$%&'*+-/=?^_`{|}~, written as comparisons and ASCII ranges.
    IsLetter(c) || IsDigit(c)
    || c == '!' || ('#' <= c <= '\'') || c == '*' || c == '+' || c == '-' || c == '/' || c == '='
    || c == '?' || ('^' <= c <= '`') || ('{' <= c <= '~')
  }

  predicate IsLetDig(c: char) { IsLetter(c) || IsDigit(c) }

  /** A domain label: 1 to 63 letters, digits and hyphens, starting and ending with a letter or
      a digit. */
  predicate IsLabel(l: string) {
    1 <= |l| <= 63 && IsLetDig(l[0]) && IsLetDig(l[|l| - 1])
    && forall k :: 0 <= k < |l| ==> IsLetDig(l[k]) || l[k] == '-'
  }

  /** Labels separated by single dots; no label holds a dot, so the first dot ends the first one. */
  predicate IsDomain(d: string)
    decreases |d|
  {
    var dot := FirstIndex(d, '.');
    if dot.None? then IsLabel(d) else IsLabel(d[..dot.value]) && IsDomain(d[dot.value + 1..])
  }

  /** HTML's valid e-mail address: one or more atext or `.`, an `@`, then a domain. No atext is
      an `@`, so the first one is the separator. */
  predicate IsHtmlEmail(s: string) {
    var at := FirstIndex(s, '@');
    at.Some? && at.value > 0
    && (forall k :: 0 <= k < at.value ==> IsAtext(s[k]) || s[k] == '.')
    && IsDomain(s[at.value + 1..])
  }

  /** A domain is never empty and holds only letters, digits, `-` and `.`. */
  lemma {:induction false} DomainChars(d: string)
    requires IsDomain(d)
    ensures |d| > 0 && forall k :: 0 <= k < |d| ==> IsLetDig(d[k]) || d[k] == '-' || d[k] == '.'
    decreases |d|
  {
    var dot := FirstIndex(d, '.');
    if dot.Some? {
      var rest := d[dot.value + 1..];
      DomainChars(rest);
      forall k | 0 <= k < |d| ensures IsLetDig(d[k]) || d[k] == '-' || d[k] == '.' {
        if k < dot.value {
          assert d[k] == d[..dot.value][k];
        } else if k > dot.value {
          assert d[k] == rest[k - dot.value - 1];
        }
      }
    }
  }

  /** An address the browser accepts holds exactly one `@`, neither first nor last, and no
      space. */
  lemma AddressShape(s: string)
    requires IsHtmlEmail(s)
    ensures var at := FirstIndex(s, '@');
            && at.Some? && 0 < at.value < |s| - 1
            && (forall k :: at.value < k < |s| ==> s[k] != '@')
            && (forall k :: 0 <= k < |s| ==> s[k] != ' ')
  {
    var at := FirstIndex(s, '@').value;
    var d := s[at + 1..];
    DomainChars(d);
    assert !IsAtext(' ') by { SpaceIsNotAtext(); }
    forall k | 0 <= k < at ensures s[k] != ' ' {
      assert IsAtext(s[k]) || s[k] == '.';
    }
    forall k | at < k < |s| ensures s[k] != '@' && s[k] != ' ' {
      assert s[k] == d[k - at - 1];
      assert IsLetDig(d[k - at - 1]) || d[k - at - 1] == '-' || d[k - at - 1] == '.';
    }
  }

  lemma SpaceIsNotAtext()
    ensures !IsAtext(' ')
  {
  }

  /** The constraint validation of the `type="email"` input, which runs before the submit event.
      The input carries no `required` attribute, so an empty value passes. */
  function NativeEmailValid(s: string): (b: bool)
    ensures b && s != "" ==>
              var at := FirstIndex(s, '@');
              && at.Some? && 0 < at.value < |s| - 1
              && (forall k :: at.value < k < |s| ==> s[k] != '@')
              && (forall k :: 0 <= k < |s| ==> s[k] != ' ')
  {
    if s == "" then true
    else if IsHtmlEmail(s) then AddressShape(s); true
    else false
  }

  /** Without an `@` the browser refuses to submit, so react-hook-form never shows "invalid". */
  lemma BrowserStopsAddressWithoutAt()
    ensures ValidateEmail("abc") == Some(EmailInvalid)
    ensures !NativeEmailValid("abc")
  {
    assert !MatchesPattern("abc") by {
      if MatchesPattern("abc") { PatternHasOneAt("abc"); }
    }
  }

  /** The pattern lets an empty domain label through, the browser does not: this address never
      reaches `login`. */
  lemma {:induction false} BrowserStopsEmptyLabel()
    ensures MatchesPattern("a@b..com")
    ensures !NativeEmailValid("a@b..com")
  {
    var s := "a@b..com";
    assert SplitsAt(s, 1, 4) by {
      assert s[..1] == "a" && s[2..4] == "b." && s[5..] == "com";
    }
    FirstIndexIs(s, '@', 1);
    var d := s[2..];
    assert d == "b..com";
    FirstIndexIs(d, '.', 1);
    assert d[2..] == ".com";
    FirstIndexIs(d[2..], '.', 0);
    assert !IsLabel(d[2..][..0]);
  }

  /** The browser accepts a domain without a dot; the pattern is the rule that refuses it. */
  lemma {:induction false} PatternStopsDotlessDomain()
    ensures NativeEmailValid("a@b")
    ensures ValidateEmail("a@b") == Some(EmailInvalid)
  {
    var s := "a@b";
    FirstIndexIs(s, '@', 1);
    assert s[2..] == "b";
    assert FirstIndex(s[2..], '.').None?;
    assert IsDomain(s[2..]);
    assert !MatchesPattern(s);
  }

  // ----- Field rules -----

  const EmailRequired: string := "L'email est requis"
  const EmailInvalid: string := "Adresse email invalide"
  const PasswordRequired: string := "Le mot de passe est requis"
  const PasswordTooShort: string := "Le mot de passe doit contenir au moins 6 caractères"
  const MinPasswordLength: nat := 6

  /** The length JavaScript reports: characters outside the Basic Multilingual Plane take two
      UTF-16 code units. */
  function Utf16Length(s: string): (n: nat)
    ensures |s| <= n <= 2 * |s|
  {
    if s == [] then 0 else (if s[0] as int > 0xFFFF then 2 else 1) + Utf16Length(s[1..])
  }

  /** The e-mail field's error, if any: `required` on the empty string, then the pattern. */
  function ValidateEmail(email: string): (error: Option<string>)
    ensures error == Some(EmailRequired) <==> email == ""
    ensures error == Some(EmailInvalid) <==> email != "" && !MatchesPattern(email)
    ensures error.None? <==> MatchesPattern(email)
  {
    ValidEmailMatchesPattern(email);
    if email == "" then Some(EmailRequired)
    else if !ValidEmail(email) then Some(EmailInvalid)
    else None
  }

  /** The password field's error, if any: `required`, then `minLength: 6`. */
  function ValidatePassword(password: string): (error: Option<string>)
    ensures error == Some(PasswordRequired) <==> password == ""
    ensures error == Some(PasswordTooShort) <==> password != "" && Utf16Length(password) < MinPasswordLength
    ensures error.None? <==> Utf16Length(password) >= MinPasswordLength
  {
    if password == "" then Some(PasswordRequired)
    else if Utf16Length(password) < MinPasswordLength then Some(PasswordTooShort)
    else None
  }

  // ----- Submission -----

  const Incorrect: string := "Email ou mot de passe incorrect"
  const SuspendedMessage: string := "Compte suspendu ou inactif"
  const GenericMessage: string := "Erreur de connexion. Veuillez réessayer."
  const SuccessMessage: string := "Connexion réussie !"

  datatype Toast = SuccessToast(message: string) | ErrorToast(message: string)

  /** What the handler shows once `login` has settled: the field errors it sets, the toast, and
      whether it calls `onSuccess`. */
  datatype Feedback = Feedback(emailError: Option<string>, passwordError: Option<string>, toast: Toast, succeeded: bool)

  function FeedbackFor(outcome: Outcome): (f: Feedback)
    ensures f.succeeded <==> !outcome.Rejected?
    ensures f.succeeded ==> f.toast == SuccessToast(SuccessMessage) && f.emailError.None? && f.passwordError.None?
    ensures outcome.Rejected? && outcome.error.status == Some(401) ==>
              f.emailError == Some(Incorrect) && f.passwordError == Some(Incorrect) && f.toast == ErrorToast(Incorrect)
    ensures outcome.Rejected? && outcome.error.status == Some(403) ==>
              f.emailError.None? && f.passwordError.None? && f.toast == ErrorToast(SuspendedMessage)
    ensures outcome.Rejected? && outcome.error.status != Some(401) && outcome.error.status != Some(403) ==>
              f.emailError.None? && f.passwordError.None? && f.toast == ErrorToast(GenericMessage)
  {
    if !outcome.Rejected? then Feedback(None, None, SuccessToast(SuccessMessage), true)
    else if outcome.error.status == Some(401) then Feedback(Some(Incorrect), Some(Incorrect), ErrorToast(Incorrect), false)
    else if outcome.error.status == Some(403) then Feedback(None, None, ErrorToast(SuspendedMessage), false)
    else Feedback(None, None, ErrorToast(GenericMessage), false)
  }

  class Form {
    var isLoading: bool
    var emailError: Option<string>
    var passwordError: Option<string>
    var toasts: seq<Toast>
    /** How many times `onSuccess?.()` was reached. The prop is optional, and the application
        mounts the form on /login without it, so there each of these calls does nothing. */
    var successCalls: nat
    /** How many times the browser refused to submit and showed its own message. */
    var refusals: nat
    /** The values `isLoading` has been set to, in order. */
    ghost var loadingHistory: seq<bool>
    const store: AuthStore.Store

    constructor (store: AuthStore.Store)
      ensures this.store == store && !isLoading && emailError.None? && passwordError.None?
      ensures toasts == [] && successCalls == 0 && refusals == 0 && loadingHistory == []
    {
      this.store := store;
      isLoading := false;
      emailError, passwordError := None, None;
      toasts := [];
      successCalls := 0;
      refusals := 0;
      loadingHistory := [];
    }

    /** `onSubmit`: loading during the call, back to false on every path; `onSuccess` only
        after `login` resolved. */
    method OnSubmit(data: Credentials, reply: Reply<LoginResponse>)
      requires store.Valid()
      modifies this, store, store.storage, store.api
      ensures var s := LoginStep(old(store.Current()), data, reply);
              store.Current() == s.after && store.TrafficIs(s)
              && var f := FeedbackFor(s.outcome);
                 && toasts == old(toasts) + [f.toast]
                 && successCalls == old(successCalls) + (if f.succeeded then 1 else 0)
                 && (f.emailError.Some? ==> emailError == f.emailError)
                 && (f.emailError.None? ==> emailError == old(emailError))
                 && (f.passwordError.Some? ==> passwordError == f.passwordError)
                 && (f.passwordError.None? ==> passwordError == old(passwordError))
      ensures !isLoading && loadingHistory == old(loadingHistory) + [true, false]
      ensures refusals == old(refusals)
    {
      isLoading := true;
      loadingHistory := loadingHistory + [true];
      var outcome := store.Login(data, reply);
      if outcome.Rejected? {
          var e := outcome.error;
          if e.status == Some(401) {
            emailError := Some(Incorrect);
            passwordError := Some(Incorrect);
            toasts := toasts + [ErrorToast(Incorrect)];
          } else if e.status == Some(403) {
            toasts := toasts + [ErrorToast(SuspendedMessage)];
          } else {
            toasts := toasts + [ErrorToast(GenericMessage)];
          }
      } else {
          toasts := toasts + [SuccessToast(SuccessMessage)];
          successCalls := successCalls + 1;
      }
      isLoading := false;
      loadingHistory := loadingHistory + [false];
    }

    /** A press of the submit button. The browser's check of the `type="email"` input comes
        first: when it fails, the submit event never fires and nothing else happens. Then
        `handleSubmit(onSubmit)` checks both rules: any error is shown and nothing is sent;
        otherwise the errors are cleared and `onSubmit` runs. */
    method HandleSubmit(data: Credentials, reply: Reply<LoginResponse>)
      requires store.Valid()
      modifies this, store, store.storage, store.api
      ensures !NativeEmailValid(data.email) ==>
                && refusals == old(refusals) + 1
                && emailError == old(emailError) && passwordError == old(passwordError)
                && store.Current() == old(store.Current()) && store.api.requests == old(store.api.requests)
                && store.api.locations == old(store.api.locations)
                && toasts == old(toasts) && successCalls == old(successCalls)
                && isLoading == old(isLoading) && loadingHistory == old(loadingHistory)
      ensures NativeEmailValid(data.email) && (ValidateEmail(data.email).Some? || ValidatePassword(data.password).Some?) ==>
                && refusals == old(refusals)
                && emailError == ValidateEmail(data.email) && passwordError == ValidatePassword(data.password)
                && store.Current() == old(store.Current()) && store.api.requests == old(store.api.requests)
                && store.api.locations == old(store.api.locations)
                && toasts == old(toasts) && successCalls == old(successCalls)
                && isLoading == old(isLoading) && loadingHistory == old(loadingHistory)
      ensures NativeEmailValid(data.email) && ValidateEmail(data.email).None? && ValidatePassword(data.password).None? ==>
                var s := LoginStep(old(store.Current()), data, reply);
                var f := FeedbackFor(s.outcome);
                && store.Current() == s.after && store.TrafficIs(s)
                && refusals == old(refusals)
                && emailError == f.emailError && passwordError == f.passwordError
                && toasts == old(toasts) + [f.toast]
                && successCalls == old(successCalls) + (if f.succeeded then 1 else 0)
                && !isLoading && loadingHistory == old(loadingHistory) + [true, false]
    {
      if !NativeEmailValid(data.email) {
        refusals := refusals + 1;
        return;
      }
      var emailRule, passwordRule := ValidateEmail(data.email), ValidatePassword(data.password);
      if emailRule.Some? || passwordRule.Some? {
        emailError, passwordError := emailRule, passwordRule;
        return;
      }
      emailError, passwordError := None, None;
      OnSubmit(data, reply);
    }
  }
}
