/** The e-mail verification page: the token check on arrival, the resend button with
    its five-minute countdown, and the `m:ss` rendering of the countdown. */
module EmailVerification {
  import opened Wrappers
  import opened Text
  import opened Numbers

  /** `padStart(2, '0')` on a rendering of at least one digit. */
  function PadTwo(d: string): (r: string)
    requires |d| >= 1
    ensures |r| == if |d| >= 2 then |d| else 2
  {
    if |d| < 2 then "0" + d else d
  }

  /** `formatTime`: whole minutes, a colon, and the remaining seconds padded to two
      digits. The countdown never goes below zero, so `seconds` is a natural number. */
  function FormatTime(seconds: nat): (r: string)
    ensures |Split(r, ':')| == 2
    ensures |Split(r, ':')[1]| == 2
  {
    var m := NatToString(seconds / 60);
    var s := PadTwo(NatToString(seconds % 60));
    TwoDigitsAtMost(seconds % 60);
    NoColonInDigits(m);
    NoColonInDigits(s);
    SplitAfter(m, ':', s);
    m + [':'] + s
  }

  lemma NoColonInDigits(d: string)
    requires AllDigits(d) || (|d| >= 1 && d[0] == '0' && AllDigits(d[1..]))
    ensures ':' !in d
  {
  }

  /** Below 100 a rendering has at most two digits. */
  lemma TwoDigitsAtMost(n: nat)
    requires n < 100
    ensures |NatToString(n)| <= 2
  {
    if n >= 10 {
      assert NatToString(n / 10) == [DigitChar(n / 10)];
    }
  }

  /** Reading an `m:ss` text back: minutes, then exactly two digits of seconds. */
  function ReadTime(t: string): Option<nat> {
    var parts := Split(t, ':');
    if |parts| == 2 && AllDigits(parts[0]) && AllDigits(parts[1]) && |parts[1]| == 2
    then Some(DigitsValue(parts[0]) * 60 + DigitsValue(parts[1]))
    else None
  }

  /** A leading zero does not change the value of a digit string. */
  lemma {:induction false} LeadingZero(d: string)
    requires AllDigits(d)
    ensures AllDigits("0" + d) && DigitsValue("0" + d) == DigitsValue(d)
    decreases |d|
  {
    if |d| > 0 {
      var z := "0" + d;
      assert z[..|z| - 1] == "0" + d[..|d| - 1];
      LeadingZero(d[..|d| - 1]);
    } else {
      assert DigitsValue("0") == DigitsValue("0"[..0]) * 10 + DigitValue('0');
    }
  }

  /** The rendered time reads back as the number of seconds it was made from, and its
      seconds field is below 60: minutes times 60 plus seconds is the countdown. */
  lemma {:induction false} FormatTimeRoundTrip(seconds: nat)
    ensures ReadTime(FormatTime(seconds)) == Some(seconds)
    ensures var parts := Split(FormatTime(seconds), ':');
            AllDigits(parts[1]) && DigitsValue(parts[1]) < 60
  {
    var m := NatToString(seconds / 60);
    var d := NatToString(seconds % 60);
    var s := PadTwo(d);
    TwoDigitsAtMost(seconds % 60);
    NoColonInDigits(m);
    if |d| < 2 {
      LeadingZero(d);
    } else {
      assert d[0] != '0';
    }
    NoColonInDigits(s);
    SplitAfter(m, ':', s);
    assert Split(FormatTime(seconds), ':') == [m, s];
  }

  /** Where the verification stands. */
  datatype Status = Loading | Verified | Failed

  /** The page state: status, message, whether the resend button is enabled, and the
      seconds left before it is. */
  datatype Page = Page(status: Status, message: string, canResend: bool, countdown: nat)

  /** A request the page sends. */
  datatype Request = VerifyToken(token: string) | ResendTo(email: string)

  /** How a request ended: success with the server's message, or failure with the
      server's `error` field if any. */
  datatype Outcome = Succeeded(message: string) | Refused(error: Option<string>)

  /** The page before any effect has run. */
  const Fresh: Page := Page(Loading, "", false, 0)

  /** Arrival: a non-empty `token` query parameter is sent for verification; without one
      the page fails with 'No verification token provided.' and sends nothing. */
  function Arrive(token: Option<string>): (r: (Page, Option<Request>))
    ensures r.1.Some? <==> (token.Some? && token.value != "")
    ensures r.1.Some? ==> r.1.value == VerifyToken(token.value) && r.0 == Fresh
    ensures r.1.None? ==> r.0.status == Failed && r.0.message == "No verification token provided."
  {
    match token
    case Some(t) => if t != "" then (Fresh, Some(VerifyToken(t))) else (Fresh.(status := Failed, message := "No verification token provided."), None)
    case None => (Fresh.(status := Failed, message := "No verification token provided."), None)
  }

  /** The end of the verification request: verified with the server's message, or
      failed with its error or the generic one. */
  function SettleVerify(p: Page, outcome: Outcome): (r: Page)
    ensures r.status == Verified <==> outcome.Succeeded?
    ensures r.status == Failed <==> outcome.Refused?
    ensures outcome.Refused? ==> r.message == ErrorText(outcome.error, "An error occurred during verification. Please try again.")
    ensures r.canResend == p.canResend && r.countdown == p.countdown
  {
    match outcome
    case Succeeded(m) => p.(status := Verified, message := m)
    case Refused(e) => p.(status := Failed, message := ErrorText(e, "An error occurred during verification. Please try again."))
  }

  /** One run of the countdown effect: above zero the countdown drops by one a second
      later; at zero the resend button is enabled. */
  function Tick(p: Page): (r: Page)
    ensures p.countdown > 0 ==> r.countdown == p.countdown - 1 && r.canResend == p.canResend
    ensures p.countdown == 0 ==> r.countdown == 0 && r.canResend
    ensures r.status == p.status && r.message == p.message
  {
    if p.countdown > 0 then p.(countdown := p.countdown - 1) else p.(canResend := true)
  }

  /** `n` runs of the countdown effect. */
  function Ticks(p: Page, n: nat): Page
    decreases n
  {
    if n == 0 then p else Ticks(Tick(p), n - 1)
  }

  /** The countdown falls by exactly one per second until it reaches zero, leaving the
      button as it was; one run later the button is enabled. */
  lemma {:induction false} CountdownRuns(p: Page, n: nat)
    ensures n <= p.countdown ==> Ticks(p, n).countdown == p.countdown - n && Ticks(p, n).canResend == p.canResend
    ensures n > p.countdown ==> Ticks(p, n).countdown == 0 && Ticks(p, n).canResend
    ensures Ticks(p, n).status == p.status && Ticks(p, n).message == p.message
    decreases n
  {
    if n > 0 {
      CountdownRuns(Tick(p), n - 1);
    }
  }

  /** The resend button: before the request, a missing `email` query parameter is
      reported and nothing is sent. */
  function Resend(p: Page, email: Option<string>): (r: (Page, Option<Request>))
    ensures r.1.Some? <==> (email.Some? && email.value != "")
    ensures r.1.Some? ==> r.1.value == ResendTo(email.value) && r.0 == p
    ensures r.1.None? ==> r.0 == p.(message := "Email address not found. Please try registering again.")
  {
    match email
    case Some(e) => if e != "" then (p, Some(ResendTo(e))) else (p.(message := "Email address not found. Please try registering again."), None)
    case None => (p.(message := "Email address not found. Please try registering again."), None)
  }

  /** The countdown a successful resend starts: five minutes. */
  const ResendWait: nat := 300

  /** The end of a resend: success disables the button for five minutes; failure only
      reports the error. */
  function SettleResend(p: Page, outcome: Outcome): (r: Page)
    ensures outcome.Succeeded? ==> !r.canResend && r.countdown == ResendWait
    ensures outcome.Succeeded? ==> r.message == "Verification email sent successfully! Please check your inbox."
    ensures outcome.Refused? ==> r == p.(message := ErrorText(outcome.error, "Failed to resend verification email. Please try again."))
    ensures r.status == p.status
  {
    match outcome
    case Succeeded(_) => p.(message := "Verification email sent successfully! Please check your inbox.", canResend := false, countdown := ResendWait)
    case Refused(e) => p.(message := ErrorText(e, "Failed to resend verification email. Please try again."))
  }

  /** After a successful resend the button stays disabled for 300 runs of the countdown
      and is enabled on the next. */
  lemma ResendWaitsFiveMinutes(p: Page, m: string)
    ensures var q := SettleResend(p, Succeeded(m));
            && !Ticks(q, ResendWait).canResend && Ticks(q, ResendWait).countdown == 0
            && Ticks(q, ResendWait + 1).canResend
  {
    var q := SettleResend(p, Succeeded(m));
    CountdownRuns(q, ResendWait);
    CountdownRuns(q, ResendWait + 1);
  }

  /** The resend button's caption. */
  function ResendCaption(p: Page): (r: string)
    ensures p.canResend ==> r == "Resend Verification Email"
    ensures !p.canResend ==> r == "Resend available in " + FormatTime(p.countdown)
  {
    if p.canResend then "Resend Verification Email" else "Resend available in " + FormatTime(p.countdown)
  }
}
