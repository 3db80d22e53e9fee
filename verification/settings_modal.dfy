/** The account settings dialog: the profile update that sends only changed fields, the
    password change with its two local checks, the subscription tier switch, and the
    tier table. Each handler is split into the step taken before any request (refuse
    with a message, or send a request) and the settlement of the request's outcome. */
module SettingsModal {
  import opened Wrappers
  import opened Text

  /** The signed-in user as the dialog sees it; `tier` is `user.profile.tier`. */
  datatype User = User(username: string, email: string, tier: Option<string>)

  /** The dialog's form fields. */
  datatype ProfileForm = ProfileForm(username: string, email: string,
                                     currentPassword: string, newPassword: string, confirmPassword: string)

  datatype Message = Message(text: string, isError: bool)

  /** The body of `PUT /api/profile/` for a profile update: only the fields present. */
  datatype ProfileChanges = ProfileChanges(username: Option<string>, email: Option<string>)

  datatype Request =
    | PutProfile(changes: ProfileChanges)
    | PutPassword(password: string)
    | PutTier(tier: string)

  /** What a handler does before the network: refuse with a message, or send. */
  datatype Step = Refuse(message: Message) | Send(request: Request)

  /** How the request ended: success, or failure with the server's `error` field if any. */
  datatype Outcome = Succeeded | Failed(error: Option<string>)

  /** `user?.username`: absent when nobody is signed in. */
  function UserName(user: Option<User>): Option<string> {
    match user
    case Some(u) => Some(u.username)
    case None => None
  }

  function UserEmail(user: Option<User>): Option<string> {
    match user
    case Some(u) => Some(u.email)
    case None => None
  }

  /** `handleProfileUpdate` before the request: the fields that differ from the signed-in
      user's (a form string never equals a missing user's field), or 'No changes to save'. */
  function ProfileStep(form: ProfileForm, user: Option<User>): (r: Step)
    ensures r.Refuse? <==> (UserName(user) == Some(form.username) && UserEmail(user) == Some(form.email))
    ensures r.Refuse? ==> r.message == Message("No changes to save", true)
    ensures r.Send? ==> r.request.PutProfile?
    ensures r.Send? ==> (r.request.changes.username.Some? <==> UserName(user) != Some(form.username))
    ensures r.Send? ==> (r.request.changes.email.Some? <==> UserEmail(user) != Some(form.email))
  {
    var username := if UserName(user) != Some(form.username) then Some(form.username) else None;
    var email := if UserEmail(user) != Some(form.email) then Some(form.email) else None;
    if username.None? && email.None? then Refuse(Message("No changes to save", true))
    else Send(PutProfile(ProfileChanges(username, email)))
  }

  /** The server applying a profile update to the user. */
  function Apply(u: User, c: ProfileChanges): User {
    u.(username := c.username.GetOr(u.username), email := c.email.GetOr(u.email))
  }

  /** The changes sent are exactly what it takes to make the user match the form: applied
      to the user they yield the form's name and email, and nothing else changes. */
  lemma ChangesReachForm(form: ProfileForm, u: User)
    requires ProfileStep(form, Some(u)).Send?
    ensures var c := ProfileStep(form, Some(u)).request.changes;
            && Apply(u, c) == u.(username := form.username, email := form.email)
            && (c.username.Some? ==> c.username.value == form.username && u.username != form.username)
            && (c.email.Some? ==> c.email.value == form.email && u.email != form.email)
  {
  }

  /** `handlePasswordChange` before the request: the confirmation must match, then the new
      password must have at least 8 characters; only then is the password sent. */
  function PasswordStep(form: ProfileForm): (r: Step)
    ensures r.Send? <==> (form.newPassword == form.confirmPassword && |form.newPassword| >= 8)
    ensures r.Send? ==> r.request == PutPassword(form.newPassword)
  {
    if form.newPassword != form.confirmPassword then Refuse(Message("New passwords do not match", true))
    else if |form.newPassword| < 8 then Refuse(Message("Password must be at least 8 characters long", true))
    else Send(PutPassword(form.newPassword))
  }

  /** The mismatch is reported before the length: a short mismatching password gets the
      mismatch message, and a matching one shorter than 8 the length message. */
  lemma PasswordChecksInOrder(form: ProfileForm)
    ensures form.newPassword != form.confirmPassword ==>
              PasswordStep(form) == Refuse(Message("New passwords do not match", true))
    ensures form.newPassword == form.confirmPassword && |form.newPassword| < 8 ==>
              PasswordStep(form) == Refuse(Message("Password must be at least 8 characters long", true))
  {
  }

  /** `handleTierChange` before the request: choosing the tier already held is refused. */
  function TierStep(newTier: string, user: Option<User>): (r: Step)
    ensures r.Refuse? <==> (user.Some? && user.value.tier == Some(newTier))
    ensures r.Refuse? ==> r.message == Message("You are already on this tier", true)
    ensures r.Send? ==> r.request == PutTier(newTier)
  {
    if user.Some? && user.value.tier == Some(newTier) then Refuse(Message("You are already on this tier", true))
    else Send(PutTier(newTier))
  }

  /** The form with all three password fields emptied. */
  function ClearPasswords(form: ProfileForm): ProfileForm {
    form.(currentPassword := "", newPassword := "", confirmPassword := "")
  }

  /** The end of a profile or password update: success empties the password fields and
      reports `success`; failure keeps the form and reports the server's error or
      `fallback`. */
  function SettleUpdate(form: ProfileForm, outcome: Outcome, success: string, fallback: string): (r: (ProfileForm, Message))
    ensures outcome.Succeeded? ==> r.0.currentPassword == "" && r.0.newPassword == "" && r.0.confirmPassword == ""
    ensures r.0.username == form.username && r.0.email == form.email
    ensures outcome.Failed? ==> r.0 == form && r.1.isError && r.1.text == ErrorText(outcome.error, fallback)
    ensures outcome.Succeeded? ==> r.1 == Message(success, false)
  {
    match outcome
    case Succeeded => (ClearPasswords(form), Message(success, false))
    case Failed(error) => (form, Message(ErrorText(error, fallback), true))
  }

  /** A successful profile update, then a successful password change: both leave the
      password fields empty and keep the name and email typed. */
  lemma SuccessClearsPasswords(form: ProfileForm)
    ensures SettleUpdate(form, Succeeded, "Profile updated successfully!", "Failed to update profile").0 == ClearPasswords(form)
    ensures SettleUpdate(form, Succeeded, "Password updated successfully!", "Failed to update password").0 == ClearPasswords(form)
  {
  }

  /** The subscription tiers, in the order the dialog lists them. */
  datatype TierKey = Free | Pro | Premium

  datatype TierInfo = TierInfo(name: string, price: string, strategyLimit: nat, backtestLimit: nat)

  const TierKeys: seq<TierKey> := [Free, Pro, Premium]

  function KeyName(k: TierKey): string {
    match k
    case Free => "free"
    case Pro => "pro"
    case Premium => "premium"
  }

  function Info(k: TierKey): TierInfo {
    match k
    case Free => TierInfo("Free", "Free", 1, 3)
    case Pro => TierInfo("Pro", "$9.99/month", 5, 50)
    case Premium => TierInfo("Premium", "$19.99/month", 10, 100)
  }

  /** `tiers[key]`: the table entry for a key, if the table has one. */
  function Lookup(key: string): (r: Option<TierInfo>)
    ensures r.Some? <==> exists k: TierKey :: KeyName(k) == key
    ensures forall k: TierKey :: KeyName(k) == key ==> r == Some(Info(k))
  {
    if key == "free" then assert KeyName(Free) == key; Some(Info(Free))
    else if key == "pro" then assert KeyName(Pro) == key; Some(Info(Pro))
    else if key == "premium" then assert KeyName(Premium) == key; Some(Info(Premium))
    else None
  }

  /** The tiers are listed from cheapest to dearest, and each allows strictly more
      strategies and strictly more daily backtests than the one before. */
  lemma TiersIncrease()
    ensures forall i, j :: 0 <= i < j < |TierKeys| ==>
              Info(TierKeys[i]).strategyLimit < Info(TierKeys[j]).strategyLimit
              && Info(TierKeys[i]).backtestLimit < Info(TierKeys[j]).backtestLimit
    ensures Info(Free).strategyLimit == 1 && Info(Free).backtestLimit == 3
    ensures Info(Pro).strategyLimit == 5 && Info(Pro).backtestLimit == 50
    ensures Info(Premium).strategyLimit == 10 && Info(Premium).backtestLimit == 100
  {
  }

  /** `tiers[user?.profile?.tier || 'free']`: the plan shown as current; None where the
      table has no entry for the user's tier (rendering would fail). */
  function CurrentPlan(user: Option<User>): (r: Option<TierInfo>)
    ensures (user.None? || user.value.tier.None? || user.value.tier.value == "") ==> r == Some(Info(Free))
  {
    var key := if user.Some? && user.value.tier.Some? && user.value.tier.value != "" then user.value.tier.value else "free";
    Lookup(key)
  }

  /** The button on a tier's card: none on the current tier's card, 'Downgrade' on the
      free card, 'Upgrade' on the others whatever the current tier is. */
  function TierButton(k: TierKey, user: Option<User>): (r: Option<string>)
    ensures r.None? <==> (user.Some? && user.value.tier == Some(KeyName(k)))
    ensures r.Some? ==> (r.value == "Downgrade" <==> k == Free)
  {
    if user.Some? && user.value.tier == Some(KeyName(k)) then None
    else if k == Free then Some("Downgrade") else Some("Upgrade")
  }

  /** A card shows a button exactly when pressing it passes the tier guard. */
  lemma ButtonMeansSend(k: TierKey, user: Option<User>)
    ensures TierButton(k, user).Some? <==> TierStep(KeyName(k), user).Send?
  {
  }

  /** The end of a tier change: success names the new tier's plan, downgrades included;
      failure reports the server's error or 'Failed to update tier'. */
  function SettleTier(k: TierKey, outcome: Outcome): (r: Message)
    ensures outcome.Succeeded? <==> !r.isError
    ensures outcome.Succeeded? ==> r.text == "Successfully upgraded to " + Info(k).name + " tier!"
    ensures outcome.Failed? ==> r.text == ErrorText(outcome.error, "Failed to update tier")
  {
    match outcome
    case Succeeded => Message("Successfully upgraded to " + Info(k).name + " tier!", false)
    case Failed(error) => Message(ErrorText(error, "Failed to update tier"), true)
  }

  /** A premium user sees 'Upgrade' on the pro card, although pro allows less. */
  lemma PremiumSeesUpgradeToPro(u: User)
    requires u.tier == Some("premium")
    ensures TierButton(Pro, Some(u)) == Some("Upgrade")
    ensures Info(Pro).strategyLimit < Info(Premium).strategyLimit
  {
  }
}
