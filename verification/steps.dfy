/** The controller driven by page events: every click the listeners of
    `setupEventListeners` react to, a user ticking a checkbox, and the global
    reset. The lemmas here are the controller's promises across any run. */
module ConsentSteps {
  import opened Wrappers
  import opened CookieString
  import opened CookieJar
  import opened Integrations
  import opened Consent

  datatype Action =
    | AcceptAll(now: string)            // #cookie-accept-all and #accept-all-settings
    | DeclineNonEssential(now: string)  // #cookie-decline
    | SaveSettings(now: string)         // #save-cookie-preferences
    | ShowSettings                      // #cookie-settings-btn
    | ShowPrivacy                       // any .privacy-policy-link
    | CloseButton                       // any .privacy-modal-close or .cookie-settings-close
    | BackdropClick(target: Modal)      // a window click whose target is a modal itself
    | Tick(box: Checkbox, checked: bool)
    | Reset(markup: View)               // window.resetCookieConsent()
    | CookieExpires                     // the cookie's 365-day lifetime runs out

  /** The user setting a checkbox, which only an existing checkbox allows. */
  function TickBox(s: State, box: Checkbox, checked: bool): (r: State)
    ensures box == FunctionalBox && s.page.hasFunctionalBox ==> r.view == s.view.(functionalChecked := checked)
    ensures box == AnalyticsBox && s.page.hasAnalyticsBox ==> r.view == s.view.(analyticsChecked := checked)
    ensures r == s.(view := r.view)
  {
    match box
    case FunctionalBox =>
      if s.page.hasFunctionalBox then s.(view := s.view.(functionalChecked := checked)) else s
    case AnalyticsBox =>
      if s.page.hasAnalyticsBox then s.(view := s.view.(analyticsChecked := checked)) else s
  }

  /** The window click listener: `closeModal` on the modal element that was
      clicked, which requires that element to exist. */
  function ClickOutside(s: State, target: Modal): (r: State)
    ensures target in s.page.modalsById ==>
              r.view.openModals == s.view.openModals - {target} && !r.view.scrollLocked
    ensures target !in s.page.modalsById ==> r == s
    ensures r.view == s.view.(openModals := r.view.openModals, scrollLocked := r.view.scrollLocked)
    ensures r == s.(view := r.view)
  {
    CloseModal(s, if target in s.page.modalsById then Some(target) else None)
  }

  /** The browser dropping the consent cookie once the expiry `setCookie`
      gave it has passed. Nothing in the controller notices: `localStorage`
      keeps the record, and no page load writes the cookie again. */
  function ExpireCookie(s: State): (r: State)
    ensures Lookup(r.cookies, ConsentKey) == None
    ensures forall other :: other != ConsentKey ==> Lookup(r.cookies, other) == Lookup(s.cookies, other)
    ensures ValidJar(s.cookies) ==> ValidJar(r.cookies)
    ensures r == s.(cookies := r.cookies)
  {
    s.(cookies := Evict(s.cookies, ConsentKey))
  }

  /** The three listeners that save a choice: each records it, sets the
      cookie and applies it. */
  function SaveStep(s: State, a: Action): (r: State)
    requires Chosen(s, a).Some?
    ensures GetCookiePreferences(r.storage) == Chosen(s, a).value
    ensures Decided(r) && CookieSet(r)
    ensures r.log == s.log + ConsentEffects(s.page.hooks, Chosen(s, a).value)
    ensures r.page == s.page
  {
    match a
    case AcceptAll(now) => AcceptAllCookies(s, now)
    case DeclineNonEssential(now) => DeclineNonEssentialCookies(s, now)
    case SaveSettings(now) => SaveCustomPreferences(s, now)
  }

  /** Every other event: only the reset touches storage or the log, and only
      the reset and the cookie's expiry touch the cookie store. */
  function OtherStep(s: State, a: Action): (r: State)
    requires Chosen(s, a).None?
    ensures !a.Reset? ==> r.storage == s.storage && r.log == s.log
    ensures !a.Reset? && !a.CookieExpires? ==> r.cookies == s.cookies
    ensures r.page == s.page
  {
    match a
    case ShowSettings => OpenSettingsModal(s)
    case ShowPrivacy => OpenPrivacyModal(s)
    case CloseButton => CloseModals(s)
    case BackdropClick(target) => ClickOutside(s, target)
    case Tick(box, checked) => TickBox(s, box, checked)
    case Reset(markup) => ResetCookieConsent(s, markup)
    case CookieExpires => ExpireCookie(s)
  }

  /** The listeners of `setupEventListeners`, one event at a time. Only the
      three save actions record a choice, and they apply it; apart from them
      only the reset touches storage or the log, and only the reset and the
      cookie's expiry touch the cookie store. */
  function Step(s: State, a: Action): (r: State)
    ensures r.page == s.page
    ensures Chosen(s, a).Some? ==>
              && GetCookiePreferences(r.storage) == Chosen(s, a).value
              && Decided(r) && CookieSet(r)
              && r.log == s.log + ConsentEffects(s.page.hooks, Chosen(s, a).value)
    ensures Chosen(s, a).None? && !a.Reset? ==> r.storage == s.storage && r.log == s.log
    ensures Chosen(s, a).None? && !a.Reset? && !a.CookieExpires? ==> r.cookies == s.cookies
  {
    if Chosen(s, a).Some? then SaveStep(s, a) else OtherStep(s, a)
  }

  /** The triple an action hands to `saveConsent`, if it saves at all. */
  function Chosen(s: State, a: Action): Option<Preferences> {
    match a
    case AcceptAll(_) => Some(AllAccepted)
    case DeclineNonEssential(_) => Some(NecessaryOnly)
    case SaveSettings(_) => Some(CustomPreferences(s))
    case _ => None
  }

  // ---------------------------------------------------------------------
  // Invariants

  /** Storage as only this controller writes it: both keys or neither, each
      holding its own kind of object, and `necessary` always on. */
  predicate Consistent(storage: Storage) {
    && (ConsentKey in storage <==> PreferencesKey in storage)
    && (ConsentKey in storage ==> storage[ConsentKey].ConsentEntry?)
    && (PreferencesKey in storage ==>
          storage[PreferencesKey].PreferencesEntry? && storage[PreferencesKey].preferences.necessary)
  }

  /** Once consent is recorded, every integration follows the stored triple. */
  predicate Synced(s: State) {
    Decided(s) ==> Reflects(s.log, s.page.hooks, GetCookiePreferences(s.storage))
  }

  /** The consent cookie is set only while a consent record is stored. The
      converse lasts only as long as the cookie: once it expires the record
      stays (see `ExpiryOutlivesCookie`). */
  predicate Mirrored(s: State) {
    CookieSet(s) ==> Decided(s)
  }

  lemma StepKeepsConsistent(s: State, a: Action)
    requires Consistent(s.storage)
    ensures Consistent(Step(s, a).storage)
  {
    var r := Step(s, a);
    if a.AcceptAll? || a.DeclineNonEssential? || a.SaveSettings? {
      assert GetCookiePreferences(r.storage) == Chosen(s, a).value;
    }
  }

  /** A page load brings the integrations in line with a stored choice, and
      every later event keeps them there. */
  lemma PageLoadSyncs(s: State)
    ensures Synced(InitCookieConsent(s))
  {
  }

  lemma StepKeepsSynced(s: State, a: Action)
    requires Synced(s)
    ensures Synced(Step(s, a))
  {
  }

  lemma StepKeepsMirrored(s: State, a: Action)
    requires Mirrored(s)
    ensures Mirrored(Step(s, a))
  {
  }

  /** With a valid cookie store, `getCookie('sgi_cookie_consent')` on what
      `document.cookie` shows reads `"true"` exactly when the cookie is set,
      and then consent is stored. */
  lemma CookieReadsDecision(s: State)
    requires Mirrored(s) && ValidJar(s.cookies)
    ensures GetCookie(Serialize(s.cookies), ConsentKey) == Some(CookieFlag) <==> CookieSet(s)
    ensures GetCookie(Serialize(s.cookies), ConsentKey) == Some(CookieFlag) ==> Decided(s)
  {
    ReadBack(s.cookies, ConsentKey);
  }

  /** Every save sets the cookie again. Once it expires, the stored record
      outlives it: the next page load re-applies the choice but leaves the
      cookie unset. */
  lemma ExpiryOutlivesCookie(s: State)
    requires Decided(s)
    ensures var r := InitCookieConsent(Step(s, CookieExpires));
            Decided(r) && !CookieSet(r) && r.log == s.log + ConsentEffects(s.page.hooks, GetCookiePreferences(s.storage))
  {
    var e := ExpireCookie(s);
    assert Step(s, CookieExpires) == e;
    assert e.storage == s.storage && e.log == s.log && e.page == s.page;
    assert !CookieSet(e);
    var r := InitCookieConsent(e);
    assert r.cookies == e.cookies && r.storage == e.storage;
  }

  // ---------------------------------------------------------------------
  // Undecided and Decided

  /** Only the three save actions record consent. */
  lemma DecisionOnlyByChoice(s: State, a: Action)
    ensures !Decided(s) && Decided(Step(s, a)) <==> !Decided(s) && Chosen(s, a).Some?
  {
  }

  /** Consent once recorded stays recorded until the reset, which always
      leaves the visitor undecided and the banner showing. */
  lemma DecisionSticks(s: State, a: Action)
    ensures Decided(s) && !a.Reset? ==> Decided(Step(s, a))
    ensures a.Reset? ==> !Decided(Step(s, a)) && Step(s, a).log == s.log
    ensures a.Reset? && s.page.hasBanner ==> Step(s, a).view.bannerShown
  {
  }

  /** The effect log is append-only. */
  lemma LogOnlyGrows(s: State, a: Action)
    ensures s.log <= Step(s, a).log
  {
  }

  // ---------------------------------------------------------------------
  // Round trips

  /** Whatever a save action hands to `saveConsent` is what every later read
      returns, with `necessary` on; reopening the settings modal shows it in
      every checkbox the page has. */
  lemma SavedChoiceReadsBack(s: State, a: Action)
    requires Chosen(s, a).Some?
    ensures GetCookiePreferences(Step(s, a).storage) == Chosen(s, a).value
    ensures Chosen(s, a).value.necessary
    ensures var u := OpenSettingsModal(Step(s, a));
            SettingsModal in s.page.modalsById ==>
              && (s.page.hasFunctionalBox ==> u.view.functionalChecked == Chosen(s, a).value.functional)
              && (s.page.hasAnalyticsBox ==> u.view.analyticsChecked == Chosen(s, a).value.analytics)
  {
  }

  /** Saving from the settings modal and reopening it shows the boxes exactly
      as they were ticked. */
  lemma CustomSaveRoundTrip(s: State, now: string)
    requires SettingsModal in s.page.modalsById
    ensures OpenSettingsModal(SaveCustomPreferences(s, now)).view.functionalChecked == s.view.functionalChecked
    ensures OpenSettingsModal(SaveCustomPreferences(s, now)).view.analyticsChecked == s.view.analyticsChecked
  {
  }

  /** Opening either modal and then pressing a close button leaves that modal
      closed and scrolling free again, provided the modal's element carries
      the class the close-all selector matches. */
  lemma OpenThenCloseAll(s: State, a: Action)
    requires a == ShowSettings || a == ShowPrivacy
    ensures var m := if a == ShowSettings then SettingsModal else PrivacyModal;
            var shown := Step(s, a);
            var closed := Step(shown, CloseButton);
            && (m in s.page.modalsById ==> m in shown.view.openModals && shown.view.scrollLocked)
            && (m in s.page.modalsByClass ==> m !in closed.view.openModals && !closed.view.scrollLocked)
            && closed.storage == s.storage && closed.log == s.log
  {
  }

  /** A stored choice of analytics without functional cookies, on a page that
      defines both `gtag` and `dataLayer`: the page load disables functional
      cookies, enables analytics, grants every consent-mode flag and pushes
      the granted event, in that order and nothing more. */
  lemma ReloadWithAnalyticsOnly(s: State)
    requires Consistent(s.storage) && Decided(s)
    requires s.storage[PreferencesKey] == PreferencesEntry(Preferences(true, false, true))
    requires s.page.hooks == Hooks(true, true)
    ensures InitCookieConsent(s).log == s.log + [
              FunctionalCookies(false),
              AnalyticsCookies(true),
              ConsentModeUpdate(Granted, Granted, Granted, Granted),
              DataLayerPush("analytics_consent_granted")]
  {
    ConsentEffectsSpelledOut(s.page.hooks, Preferences(true, false, true));
  }
}
