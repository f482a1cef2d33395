/** Route values of the VPN app's navigation layer: the source-screen enum, the
    data passed between screens, the route enum and its derived presentation
    properties (title, icon, whether authentication is needed). */
module Routes {

  datatype Option<+T> = None | Some(value: T)

  // ---------------------------------------------------------------------------
  // SourceRoute: a String-backed, CaseIterable enum
  // ---------------------------------------------------------------------------

  datatype SourceRoute =
    | Intro
    | GetStarted
    | SignUp
    | Login
    | ForgotPassword
    | OtpVerification
    | EmailVerification

  /** The string raw value each case declares. */
  function RawValue(s: SourceRoute): string
  {
    match s
    case Intro => "intro"
    case GetStarted => "getStarted"
    case SignUp => "signUp"
    case Login => "login"
    case ForgotPassword => "forgotPassword"
    case OtpVerification => "otpVerification"
    case EmailVerification => "emailVerification"
  }

  /** The failable initialiser from a raw value: the case whose raw value is `raw`, if any. */
  function FromRawValue(raw: string): (r: Option<SourceRoute>)
    ensures r.Some? ==> RawValue(r.value) == raw
  {
    if raw == "intro" then Some(SourceRoute.Intro)
    else if raw == "getStarted" then Some(SourceRoute.GetStarted)
    else if raw == "signUp" then Some(SourceRoute.SignUp)
    else if raw == "login" then Some(SourceRoute.Login)
    else if raw == "forgotPassword" then Some(SourceRoute.ForgotPassword)
    else if raw == "otpVerification" then Some(SourceRoute.OtpVerification)
    else if raw == "emailVerification" then Some(SourceRoute.EmailVerification)
    else None
  }

  /** Every case converts to its raw value and back, so raw values are distinct. */
  lemma {:induction false} RawValueRoundTrip(s: SourceRoute)
    ensures FromRawValue(RawValue(s)) == Some(s)
  {
    match s
    case Intro =>
    case GetStarted =>
    case SignUp =>
    case Login =>
    case ForgotPassword =>
    case OtpVerification =>
    case EmailVerification =>
  }

  /** `allCases`, in declaration order. */
  function AllSourceRoutes(): (cases: seq<SourceRoute>)
    ensures |cases| == 7
    ensures forall i, j :: 0 <= i < j < |cases| ==> cases[i] != cases[j]
  {
    [SourceRoute.Intro, SourceRoute.GetStarted, SourceRoute.SignUp, SourceRoute.Login,
     SourceRoute.ForgotPassword, SourceRoute.OtpVerification, SourceRoute.EmailVerification]
  }

  /** `allCases` lists every case. */
  lemma {:induction false} AllSourceRoutesComplete(s: SourceRoute)
    ensures s in AllSourceRoutes()
  {
    match s
    case Intro =>
    case GetStarted =>
    case SignUp =>
    case Login =>
    case ForgotPassword =>
    case OtpVerification =>
    case EmailVerification =>
  }

  // ---------------------------------------------------------------------------
  // NavigationData
  // ---------------------------------------------------------------------------

  /** Data handed to a screen: where the flow came from and free-form string pairs.
      The defaults are those of the initialiser: no source route, an empty map. */
  datatype NavigationData = NavigationData(
    sourceRoute: Option<SourceRoute> := None,
    additionalData: map<string, string> := map[])

  /** The initialiser called with no arguments. */
  lemma NavigationDataDefaults()
    ensures NavigationData().sourceRoute == None
    ensures NavigationData().additionalData == map[]
    ensures NavigationData() == NavigationData(None, map[])
  {
  }

  /** The hand-written `==`: both components compare equal. It coincides with
      structural equality, so the equality synthesized for routes (which compares
      payloads with this operator) is Dafny's `==` on `AppRoute`. */
  function SameNavigationData(lhs: NavigationData, rhs: NavigationData): (b: bool)
    ensures b <==> lhs == rhs
  {
    lhs.sourceRoute == rhs.sourceRoute && lhs.additionalData == rhs.additionalData
  }

  // ---------------------------------------------------------------------------
  // AppRoute
  // ---------------------------------------------------------------------------

  datatype AppRoute =
    // Onboarding flow
    | Intro
    | GetStarted
    // Authentication flow
    | SignUp
    | Login
    | ForgotPassword
    | OtpVerification(data: Option<NavigationData> := None)
    | UnderVerification(data: Option<NavigationData> := None)
    | ResetPassword(data: Option<NavigationData> := None)
    | PasswordChangeSuccess(data: Option<NavigationData> := None)
    | EmailVerification(data: Option<NavigationData> := None)
    // Main app flow
    | MainTabView
    | Home(data: Option<NavigationData> := None)
    | Dashboard
    | Profile
    | Settings
    | LoanApplication
    | LoanDetails
    | Documents
    | Notifications
    | Wallet
    // Additional flows
    | Help
    | AboutUs
    | TermsAndConditions
    | PrivacyPolicy

  /** The group a case is declared under. */
  datatype Flow = Onboarding | Authentication | MainApp | Additional

  function FlowOf(r: AppRoute): Flow
  {
    match r
    case Intro | GetStarted => Onboarding
    case SignUp | Login | ForgotPassword | OtpVerification(_) | UnderVerification(_)
       | ResetPassword(_) | PasswordChangeSuccess(_) | EmailVerification(_) => Authentication
    case MainTabView | Home(_) | Dashboard | Profile | Settings | LoanApplication
       | LoanDetails | Documents | Notifications | Wallet => MainApp
    case Help | AboutUs | TermsAndConditions | PrivacyPolicy => Additional
  }

  /** Whether the case has a payload slot. */
  predicate CarriesData(r: AppRoute)
  {
    r.OtpVerification? || r.UnderVerification? || r.ResetPassword? ||
    r.PasswordChangeSuccess? || r.EmailVerification? || r.Home?
  }

  /** The payload, `None` for cases without a slot. */
  function DataOf(r: AppRoute): Option<NavigationData>
  {
    match r
    case OtpVerification(d) => d
    case UnderVerification(d) => d
    case ResetPassword(d) => d
    case PasswordChangeSuccess(d) => d
    case EmailVerification(d) => d
    case Home(d) => d
    case _ => None
  }

  /** The same case with its payload set to `d`; cases without a slot are returned unchanged. */
  function WithData(r: AppRoute, d: Option<NavigationData>): (w: AppRoute)
    ensures CarriesData(w) == CarriesData(r)
    ensures DataOf(w) == (if CarriesData(r) then d else None)
  {
    match r
    case OtpVerification(_) => AppRoute.OtpVerification(d)
    case UnderVerification(_) => UnderVerification(d)
    case ResetPassword(_) => ResetPassword(d)
    case PasswordChangeSuccess(_) => PasswordChangeSuccess(d)
    case EmailVerification(_) => AppRoute.EmailVerification(d)
    case Home(_) => Home(d)
    case _ => r
  }

  /** The case with no payload: what a `switch` pattern such as `case .otpVerification:` matches on. */
  function Bare(r: AppRoute): AppRoute
  {
    WithData(r, None)
  }

  /** Both routes are the same case, whatever their payloads. */
  predicate SameCase(a: AppRoute, b: AppRoute)
  {
    Bare(a) == Bare(b)
  }

  /** A route is rebuilt from its case and its payload; setting a payload keeps the case and the flow. */
  lemma {:induction false} WithDataLaws(r: AppRoute, d: Option<NavigationData>)
    ensures WithData(r, DataOf(r)) == r
    ensures WithData(Bare(r), d) == WithData(r, d)
    ensures SameCase(WithData(r, d), r)
    ensures FlowOf(WithData(r, d)) == FlowOf(r)
  {
    match r
    case OtpVerification(_) =>
    case UnderVerification(_) =>
    case ResetPassword(_) =>
    case PasswordChangeSuccess(_) =>
    case EmailVerification(_) =>
    case Home(_) =>
    case _ =>
  }

  /** Two routes are equal exactly when they are the same case with the same payload. */
  lemma {:induction false} RouteEquality(a: AppRoute, b: AppRoute)
    ensures a == b <==> SameCase(a, b) && DataOf(a) == DataOf(b)
  {
    if SameCase(a, b) && DataOf(a) == DataOf(b) {
      WithDataLaws(a, DataOf(a));
      WithDataLaws(b, DataOf(b));
    }
  }

  // ---------------------------------------------------------------------------
  // Derived properties
  // ---------------------------------------------------------------------------

  /** Human-readable title. */
  function Title(r: AppRoute): string
  {
    match r
    case Intro => "Introduction"
    case GetStarted => "Get Started"
    case SignUp => "Sign Up"
    case Login => "Login"
    case ForgotPassword => "Forgot Password"
    case OtpVerification(_) => "OTP Verification"
    case ResetPassword(_) => "Reset Password"
    case EmailVerification(_) => "Email Verification"
    case Dashboard => "Dashboard"
    case Profile => "Profile"
    case Settings => "Settings"
    case LoanApplication => "Loan Application"
    case LoanDetails => "Loan Details"
    case Documents => "Documents"
    case Notifications => "Notifications"
    case Help => "Help"
    case AboutUs => "About Us"
    case TermsAndConditions => "Terms & Conditions"
    case PrivacyPolicy => "Privacy Policy"
    case UnderVerification(_) => "Under Verification"
    case PasswordChangeSuccess(_) => "Password Change Success"
    case MainTabView => "Main Tab View"
    case Home(_) => "Home"
    case Wallet => "My Wallet"
  }

  /** SF Symbol name used for the route's icon. */
  function IconName(r: AppRoute): string
  {
    match r
    case Intro => "book.fill"
    case GetStarted => "play.circle.fill"
    case SignUp => "person.badge.plus"
    case Login => "person.circle.fill"
    case ForgotPassword => "key.fill"
    case OtpVerification(_) => "number.square.fill"
    case ResetPassword(_) => "lock.rotation"
    case EmailVerification(_) => "envelope.badge.fill"
    case Dashboard => "house.fill"
    case Profile => "person.fill"
    case Settings => "gearshape.fill"
    case LoanApplication => "doc.text.fill"
    case LoanDetails => "doc.plaintext.fill"
    case Documents => "folder.fill"
    case Notifications => "bell.fill"
    case Help => "questionmark.circle.fill"
    case AboutUs => "info.circle.fill"
    case TermsAndConditions => "doc.text"
    case PrivacyPolicy => "hand.raised.fill"
    case UnderVerification(_) => "doc.text.fill"
    case PasswordChangeSuccess(_) => "doc.text.fill"
    case MainTabView => "house.fill"
    case Home(_) => "doc.text.fill"
    case Wallet => "doc.text.fill"
  }

  /** Whether the screen may only be shown to a signed-in user. */
  function RequiresAuth(r: AppRoute): bool
  {
    match r
    case Intro | GetStarted | SignUp | Login | ForgotPassword | ResetPassword(_) => false
    case _ => true
  }

  /** The payload-free case whose title is `t`, if any: the inverse of `Title`.
      Titles are looked up by length first, then compared in full. */
  function CaseTitled(t: string): Option<AppRoute>
  {
    match |t|
    case 4 => if t == "Help" then Some(Help) else if t == "Home" then Some(Home()) else None
    case 5 => if t == "Login" then Some(AppRoute.Login) else None
    case 7 =>
      if t == "Sign Up" then Some(AppRoute.SignUp)
      else if t == "Profile" then Some(Profile)
      else None
    case 8 =>
      if t == "Settings" then Some(Settings)
      else if t == "About Us" then Some(AboutUs)
      else None
    case 9 =>
      if t == "Dashboard" then Some(Dashboard)
      else if t == "Documents" then Some(Documents)
      else if t == "My Wallet" then Some(Wallet)
      else None
    case 11 => if t == "Get Started" then Some(AppRoute.GetStarted) else None
    case 12 =>
      if t == "Introduction" then Some(AppRoute.Intro)
      else if t == "Loan Details" then Some(LoanDetails)
      else None
    case 13 =>
      if t == "Notifications" then Some(Notifications)
      else if t == "Main Tab View" then Some(MainTabView)
      else None
    case 14 =>
      if t == "Reset Password" then Some(ResetPassword())
      else if t == "Privacy Policy" then Some(PrivacyPolicy)
      else None
    case 15 => if t == "Forgot Password" then Some(AppRoute.ForgotPassword) else None
    case 16 =>
      if t == "OTP Verification" then Some(AppRoute.OtpVerification())
      else if t == "Loan Application" then Some(LoanApplication)
      else None
    case 18 =>
      if t == "Email Verification" then Some(AppRoute.EmailVerification())
      else if t == "Terms & Conditions" then Some(TermsAndConditions)
      else if t == "Under Verification" then Some(UnderVerification())
      else None
    case 23 => if t == "Password Change Success" then Some(PasswordChangeSuccess()) else None
    case _ => None
  }

  lemma {:induction false} CaseTitledInvertsTitle(r: AppRoute)
    ensures CaseTitled(Title(r)) == Some(Bare(r))
  {
    match FlowOf(r)
    case Onboarding => CaseTitledInvertsOnboarding(r);
    case Authentication => CaseTitledInvertsAuthentication(r);
    case MainApp => CaseTitledInvertsMainApp(r);
    case Additional => CaseTitledInvertsAdditional(r);
  }

  lemma {:induction false} CaseTitledInvertsOnboarding(r: AppRoute)
    requires FlowOf(r) == Onboarding
    ensures CaseTitled(Title(r)) == Some(Bare(r))
  {
    match r
    case Intro =>
    case GetStarted =>
  }

  lemma {:induction false} CaseTitledInvertsAuthentication(r: AppRoute)
    requires FlowOf(r) == Authentication
    ensures CaseTitled(Title(r)) == Some(Bare(r))
  {
    match r
    case SignUp =>
    case Login =>
    case ForgotPassword =>
    case OtpVerification(_) =>
    case ResetPassword(_) =>
    case EmailVerification(_) =>
    case UnderVerification(_) =>
    case PasswordChangeSuccess(_) =>
  }

  lemma {:induction false} CaseTitledInvertsMainApp(r: AppRoute)
    requires FlowOf(r) == MainApp
    ensures CaseTitled(Title(r)) == Some(Bare(r))
  {
    match r
    case MainTabView =>
    case Home(_) =>
    case Dashboard =>
    case Profile =>
    case Settings =>
    case LoanApplication =>
    case LoanDetails =>
    case Documents =>
    case Notifications =>
    case Wallet =>
  }

  lemma {:induction false} CaseTitledInvertsAdditional(r: AppRoute)
    requires FlowOf(r) == Additional
    ensures CaseTitled(Title(r)) == Some(Bare(r))
  {
    match r
    case Help =>
    case AboutUs =>
    case TermsAndConditions =>
    case PrivacyPolicy =>
  }

  /** Titles tell cases apart: two routes share a title exactly when they are the same case. */
  lemma {:induction false} TitleIdentifiesCase(a: AppRoute, b: AppRoute)
    ensures Title(a) == Title(b) <==> SameCase(a, b)
  {
    CaseTitledInvertsTitle(a);
    CaseTitledInvertsTitle(b);
    if SameCase(a, b) {
      PresentationIgnoresPayload(a, None);
      PresentationIgnoresPayload(b, None);
    }
  }

  /** Title, icon and authentication requirement depend on the case only, never on the payload. */
  lemma {:induction false} PresentationIgnoresPayload(r: AppRoute, d: Option<NavigationData>)
    ensures Title(WithData(r, d)) == Title(r)
    ensures IconName(WithData(r, d)) == IconName(r)
    ensures RequiresAuth(WithData(r, d)) == RequiresAuth(r)
  {
    if CarriesData(r) {
      match r
      case OtpVerification(_) =>
      case UnderVerification(_) =>
      case ResetPassword(_) =>
      case PasswordChangeSuccess(_) =>
      case EmailVerification(_) =>
      case Home(_) =>
    }
  }

  /** The six screens reachable without signing in. */
  const PublicRoutes: set<AppRoute> :=
    {AppRoute.Intro, AppRoute.GetStarted, AppRoute.SignUp, AppRoute.Login,
     AppRoute.ForgotPassword, ResetPassword()}

  /** Exactly the six public screens, with any payload, skip authentication. */
  lemma {:induction false} RequiresAuthExactly(r: AppRoute)
    ensures !RequiresAuth(r) <==> Bare(r) in PublicRoutes
  {
    match r
    case Intro =>
    case GetStarted =>
    case SignUp =>
    case Login =>
    case ForgotPassword =>
    case ResetPassword(_) =>
    case OtpVerification(_) =>
    case UnderVerification(_) =>
    case PasswordChangeSuccess(_) =>
    case EmailVerification(_) =>
    case Home(_) =>
    case _ =>
  }

  /** Every screen of the main app and of the additional flows needs authentication,
      no onboarding screen does, and of the authentication screens only sign up, login,
      forgot password and reset password are open. */
  lemma {:induction false} RequiresAuthByFlow(r: AppRoute)
    ensures FlowOf(r) == MainApp || FlowOf(r) == Additional ==> RequiresAuth(r)
    ensures FlowOf(r) == Onboarding ==> !RequiresAuth(r)
    ensures FlowOf(r) == Authentication ==>
      (!RequiresAuth(r) <==> r.SignUp? || r.Login? || r.ForgotPassword? || r.ResetPassword?)
  {
    match r
    case Intro =>
    case GetStarted =>
    case ResetPassword(_) =>
    case _ =>
  }
}
