/** The consent controller of `assets/js/cookie-consent.js` as pure
    transitions over one record: the page's elements and optional globals,
    the two storage keys, the cookie store, what the page currently shows, and
    the log of integration effects. Element lookups become the presence flags
    of `Page`; the clock becomes a `now` argument. */
module Consent {
  import opened Wrappers
  import opened CookieString
  import opened CookieJar
  import opened Integrations

  /** Storage key of the consent record, and name of the mirrored cookie. */
  const ConsentKey: string := "sgi_cookie_consent"
  /** Storage key of the preference triple. */
  const PreferencesKey: string := "sgi_cookie_preferences"
  /** Version tag written into every consent record. */
  const RecordVersion: string := "1.0"
  /** Value of the mirrored cookie. */
  const CookieFlag: string := "true"

  datatype Preferences = Preferences(necessary: bool, functional: bool, analytics: bool)

  /** What accept-all stores. */
  const AllAccepted := Preferences(true, true, true)
  /** What decline stores, and what a read falls back to when nothing is stored. */
  const NecessaryOnly := Preferences(true, false, false)

  datatype ConsentRecord = ConsentRecord(timestamp: string, version: string)

  /** The two shapes of JSON object the controller writes. */
  datatype StoredValue = ConsentEntry(record: ConsentRecord) | PreferencesEntry(preferences: Preferences)

  /** `localStorage`, keys this controller does not know included. */
  type Storage = map<string, StoredValue>

  datatype Modal = PrivacyModal | SettingsModal
  datatype Checkbox = FunctionalBox | AnalyticsBox

  /** The elements and globals the page provides. A modal in `modalsById` is
      found by `getElementById`; one in `modalsByClass` is matched by the
      `.privacy-modal, .cookie-settings-modal` selector. When a modal is in
      both, it is one and the same element. */
  datatype Page = Page(
    hasBanner: bool,
    modalsById: set<Modal>,
    modalsByClass: set<Modal>,
    hasFunctionalBox: bool,
    hasAnalyticsBox: bool,
    hooks: Hooks)

  /** What the page shows: the banner's and the modals' `show` class, the
      body's `overflow: hidden`, and the two checkboxes. */
  datatype View = View(
    bannerShown: bool,
    openModals: set<Modal>,
    scrollLocked: bool,
    functionalChecked: bool,
    analyticsChecked: bool)

  datatype State = State(
    page: Page,
    storage: Storage,
    cookies: seq<Cookie>,
    view: View,
    log: seq<Effect>)

  // ---------------------------------------------------------------------
  // Storage

  /** A consent record is stored. */
  predicate Decided(s: State) {
    ConsentKey in s.storage
  }

  /** `getCookieConsent`: the parsed record, or nothing. Every value the
      controller writes is a non-empty JSON object, so presence of the key is
      what `if (!consent)` tests. */
  function GetCookieConsent(storage: Storage): (r: Option<StoredValue>)
    ensures r.Some? <==> ConsentKey in storage
    ensures r.Some? ==> r.value == storage[ConsentKey]
  {
    if ConsentKey in storage then Some(storage[ConsentKey]) else None
  }

  /** `getCookiePreferences`: the stored triple, or necessary-only when the
      key is absent. A consent record found under the preferences key parses
      to an object without the three fields, each of which reads as false. */
  function GetCookiePreferences(storage: Storage): (r: Preferences)
    ensures PreferencesKey !in storage ==> r == NecessaryOnly
    ensures PreferencesKey in storage && storage[PreferencesKey].PreferencesEntry? ==>
              r == storage[PreferencesKey].preferences
    ensures PreferencesKey in storage && storage[PreferencesKey].ConsentEntry? ==>
              !r.functional && !r.analytics
  {
    if PreferencesKey !in storage then NecessaryOnly
    else match storage[PreferencesKey]
      case PreferencesEntry(p) => p
      case ConsentEntry(_) => Preferences(false, false, false)
  }

  /** The cookie `setCookie(COOKIE_CONSENT_KEY, 'true', 365)` leaves behind,
      as `getCookie` would read it from `document.cookie`. */
  predicate CookieSet(s: State) {
    Lookup(s.cookies, ConsentKey) == Some(CookieFlag)
  }

  /** The two `localStorage.setItem` calls of `saveConsent`. */
  function WriteChoice(storage: Storage, prefs: Preferences, now: string): (r: Storage)
    ensures PreferencesKey in r && r[PreferencesKey] == PreferencesEntry(prefs)
    ensures ConsentKey in r && r[ConsentKey] == ConsentEntry(ConsentRecord(now, RecordVersion))
    ensures r - {ConsentKey, PreferencesKey} == storage - {ConsentKey, PreferencesKey}
  {
    storage[ConsentKey := ConsentEntry(ConsentRecord(now, RecordVersion))][PreferencesKey := PreferencesEntry(prefs)]
  }

  /** `saveConsent`: writes a fresh record and the triple, and sets the
      mirrored cookie (its 365-day expiry lies ahead, so the store keeps it).
      Reading back gives exactly the triple written; nothing else changes. */
  function SaveConsent(s: State, prefs: Preferences, now: string): (r: State)
    ensures GetCookiePreferences(r.storage) == prefs
    ensures PreferencesKey in r.storage && r.storage[PreferencesKey] == PreferencesEntry(prefs)
    ensures GetCookieConsent(r.storage) == Some(ConsentEntry(ConsentRecord(now, RecordVersion)))
    ensures r.storage - {ConsentKey, PreferencesKey} == s.storage - {ConsentKey, PreferencesKey}
    ensures CookieSet(r)
    ensures forall other :: other != ConsentKey ==> Lookup(r.cookies, other) == Lookup(s.cookies, other)
    ensures ValidJar(s.cookies) ==> ValidJar(r.cookies)
    ensures r.page == s.page && r.view == s.view && r.log == s.log
  {
    s.(storage := WriteChoice(s.storage, prefs, now), cookies := Store(s.cookies, ConsentKey, CookieFlag))
  }

  // ---------------------------------------------------------------------
  // Integrations

  /** The integrations, as the log leaves them, follow `prefs`. */
  predicate Reflects(log: seq<Effect>, hooks: Hooks, prefs: Preferences) {
    && Latest(log, Functional) == Some(FunctionalCookies(prefs.functional))
    && Latest(log, Analytics) == Some(AnalyticsCookies(prefs.analytics))
    && (hooks.gtag ==> Latest(log, ConsentMode) == Some(ConsentUpdate(prefs.analytics)))
    && (hooks.dataLayer ==> Latest(log, DataLayer) == Some(ConsentEvent(prefs.analytics)))
  }

  /** The effects of `applyConsent(prefs)`, in order: the functional toggle,
      the analytics toggle, then whichever of the two integration calls the
      page's globals allow. */
  function ConsentEffects(hooks: Hooks, prefs: Preferences): (effects: seq<Effect>)
    ensures |effects| == 2 + (if hooks.gtag then 1 else 0) + (if hooks.dataLayer then 1 else 0)
    ensures effects[0] == FunctionalCookies(prefs.functional)
    ensures effects[1] == AnalyticsCookies(prefs.analytics)
    ensures forall i :: 1 < i < |effects| ==> ChannelOf(effects[i]) in {ConsentMode, DataLayer}
  {
    FunctionalEffects(prefs.functional) + AnalyticsEffects(hooks, prefs.analytics)
  }

  /** The state each channel is left in by `applyConsent(prefs)` alone. */
  lemma ConsentEffectsLatest(hooks: Hooks, prefs: Preferences)
    ensures Reflects(ConsentEffects(hooks, prefs), hooks, prefs)
    ensures !hooks.gtag ==> Latest(ConsentEffects(hooks, prefs), ConsentMode) == None
    ensures !hooks.dataLayer ==> Latest(ConsentEffects(hooks, prefs), DataLayer) == None
  {
    var f, a := FunctionalCookies(prefs.functional), AnalyticsCookies(prefs.analytics);
    var u, v := ConsentUpdate(prefs.analytics), ConsentEvent(prefs.analytics);
    ConsentEffectsSpelledOut(hooks, prefs);
    if hooks.gtag && hooks.dataLayer {
      LatestOfFour(f, a, u, v);
    } else if hooks.gtag {
      LatestOfThree(f, a, u);
    } else if hooks.dataLayer {
      LatestOfThree(f, a, v);
    } else {
      LatestOfTwo(f, a);
    }
  }

  /** The effects of `applyConsent`, one literal sequence per pair of hooks. */
  lemma ConsentEffectsSpelledOut(hooks: Hooks, prefs: Preferences)
    ensures var f, a := FunctionalCookies(prefs.functional), AnalyticsCookies(prefs.analytics);
            var u, v := ConsentUpdate(prefs.analytics), ConsentEvent(prefs.analytics);
            ConsentEffects(hooks, prefs) ==
              if hooks.gtag && hooks.dataLayer then [f, a, u, v]
              else if hooks.gtag then [f, a, u]
              else if hooks.dataLayer then [f, a, v]
              else [f, a]
  {
  }

  lemma LatestOfTwo(x: Effect, y: Effect)
    requires ChannelOf(x) != ChannelOf(y)
    ensures Latest([x, y], ChannelOf(x)) == Some(x)
    ensures Latest([x, y], ChannelOf(y)) == Some(y)
    ensures forall ch :: ch !in {ChannelOf(x), ChannelOf(y)} ==> Latest([x, y], ch) == None
  {
    LatestAt([x, y], 0);
    LatestAt([x, y], 1);
  }

  lemma LatestOfThree(x: Effect, y: Effect, z: Effect)
    requires ChannelOf(x) != ChannelOf(y) && ChannelOf(y) != ChannelOf(z) && ChannelOf(z) != ChannelOf(x)
    ensures Latest([x, y, z], ChannelOf(x)) == Some(x)
    ensures Latest([x, y, z], ChannelOf(y)) == Some(y)
    ensures Latest([x, y, z], ChannelOf(z)) == Some(z)
    ensures forall ch :: ch !in {ChannelOf(x), ChannelOf(y), ChannelOf(z)} ==> Latest([x, y, z], ch) == None
  {
    LatestAt([x, y, z], 0);
    LatestAt([x, y, z], 1);
    LatestAt([x, y, z], 2);
  }

  lemma LatestOfFour(w: Effect, x: Effect, y: Effect, z: Effect)
    requires ChannelOf(w) == Functional && ChannelOf(x) == Analytics
    requires ChannelOf(y) == ConsentMode && ChannelOf(z) == DataLayer
    ensures Latest([w, x, y, z], Functional) == Some(w)
    ensures Latest([w, x, y, z], Analytics) == Some(x)
    ensures Latest([w, x, y, z], ConsentMode) == Some(y)
    ensures Latest([w, x, y, z], DataLayer) == Some(z)
  {
    LatestAt([w, x, y, z], 0);
    LatestAt([w, x, y, z], 1);
    LatestAt([w, x, y, z], 2);
    LatestAt([w, x, y, z], 3);
  }

  /** Whatever came before, the log after `applyConsent(prefs)` leaves every
      integration following `prefs`; a channel whose global is missing keeps
      its earlier state. */
  lemma ConsentEffectsReflect(log: seq<Effect>, hooks: Hooks, prefs: Preferences)
    ensures Reflects(log + ConsentEffects(hooks, prefs), hooks, prefs)
    ensures !hooks.gtag ==> Latest(log + ConsentEffects(hooks, prefs), ConsentMode) == Latest(log, ConsentMode)
    ensures !hooks.dataLayer ==> Latest(log + ConsentEffects(hooks, prefs), DataLayer) == Latest(log, DataLayer)
  {
    var e := ConsentEffects(hooks, prefs);
    ConsentEffectsLatest(hooks, prefs);
    LatestOfAppend(log, e, Functional);
    LatestOfAppend(log, e, Analytics);
    LatestOfAppend(log, e, ConsentMode);
    LatestOfAppend(log, e, DataLayer);
  }

  /** `applyConsent(prefs)`: appends the effects of `ConsentEffects` and
      touches nothing else. */
  function ApplyConsent(s: State, prefs: Preferences): (r: State)
    ensures Reflects(r.log, s.page.hooks, prefs)
    ensures r.log == s.log + ConsentEffects(s.page.hooks, prefs)
    ensures r.page == s.page && r.storage == s.storage && r.cookies == s.cookies && r.view == s.view
  {
    ConsentEffectsReflect(s.log, s.page.hooks, prefs);
    s.(log := s.log + ConsentEffects(s.page.hooks, prefs))
  }

  // ---------------------------------------------------------------------
  // Banner and modals

  /** `showConsentBanner`: adds `show` when the banner element exists. */
  function ShowConsentBanner(s: State): (r: State)
    ensures r.view.bannerShown == (s.view.bannerShown || s.page.hasBanner)
    ensures r.view == s.view.(bannerShown := r.view.bannerShown)
    ensures r == s.(view := r.view)
  {
    if s.page.hasBanner then s.(view := s.view.(bannerShown := true)) else s
  }

  /** `hideConsentBanner`: removes `show` when the banner element exists. */
  function HideConsentBanner(s: State): (r: State)
    ensures s.page.hasBanner ==> !r.view.bannerShown
    ensures !s.page.hasBanner ==> r == s
    ensures r.view == s.view.(bannerShown := r.view.bannerShown)
    ensures r == s.(view := r.view)
  {
    if s.page.hasBanner then s.(view := s.view.(bannerShown := false)) else s
  }

  /** `openPrivacyModal`: shows the modal and locks scrolling, but only when
      the element exists. */
  function OpenPrivacyModal(s: State): (r: State)
    ensures PrivacyModal in s.page.modalsById ==>
              r.view == s.view.(openModals := s.view.openModals + {PrivacyModal}, scrollLocked := true)
    ensures PrivacyModal !in s.page.modalsById ==> r == s
    ensures r == s.(view := r.view)
  {
    if PrivacyModal in s.page.modalsById then
      s.(view := s.view.(openModals := s.view.openModals + {PrivacyModal}, scrollLocked := true))
    else s
  }

  /** `openSettingsModal`: when the element exists, pre-fills each present
      checkbox from the stored (or default) triple, shows the modal and locks
      scrolling; otherwise does nothing at all. */
  function OpenSettingsModal(s: State): (r: State)
    ensures SettingsModal in s.page.modalsById ==>
              && SettingsModal in r.view.openModals && r.view.scrollLocked
              && r.view.openModals == s.view.openModals + {SettingsModal}
              && r.view.bannerShown == s.view.bannerShown
              && (s.page.hasFunctionalBox ==> r.view.functionalChecked == GetCookiePreferences(s.storage).functional)
              && (!s.page.hasFunctionalBox ==> r.view.functionalChecked == s.view.functionalChecked)
              && (s.page.hasAnalyticsBox ==> r.view.analyticsChecked == GetCookiePreferences(s.storage).analytics)
              && (!s.page.hasAnalyticsBox ==> r.view.analyticsChecked == s.view.analyticsChecked)
    ensures SettingsModal !in s.page.modalsById ==> r == s
    ensures r == s.(view := r.view)
  {
    if SettingsModal in s.page.modalsById then
      var prefs := GetCookiePreferences(s.storage);
      var functional := if s.page.hasFunctionalBox then prefs.functional else s.view.functionalChecked;
      var analytics := if s.page.hasAnalyticsBox then prefs.analytics else s.view.analyticsChecked;
      s.(view := s.view.(
        functionalChecked := functional,
        analyticsChecked := analytics,
        openModals := s.view.openModals + {SettingsModal},
        scrollLocked := true))
    else s
  }

  /** `closeModal(modal)`: for an element, removes its `show` and clears the
      scroll lock, whichever modal set the lock; for `null`, nothing. */
  function CloseModal(s: State, modal: Option<Modal>): (r: State)
    ensures modal.Some? ==> r.view.openModals == s.view.openModals - {modal.value} && !r.view.scrollLocked
    ensures modal.None? ==> r == s
    ensures r.view == s.view.(openModals := r.view.openModals, scrollLocked := r.view.scrollLocked)
    ensures r == s.(view := r.view)
  {
    match modal
    case None => s
    case Some(m) => s.(view := s.view.(openModals := s.view.openModals - {m}, scrollLocked := false))
  }

  /** `closeModal` applied to each element in turn. */
  function CloseEach(s: State, elements: seq<Modal>): (r: State)
    ensures r.view.openModals == s.view.openModals - set m | m in elements
    ensures r.view.scrollLocked == (s.view.scrollLocked && elements == [])
    ensures r.view == s.view.(openModals := r.view.openModals, scrollLocked := r.view.scrollLocked)
    ensures r == s.(view := r.view)
    decreases |elements|
  {
    if elements == [] then s
    else
      var r := CloseEach(CloseModal(s, Some(elements[0])), elements[1..]);
      assert (set m | m in elements) == {elements[0]} + set m | m in elements[1..];
      r
  }

  /** The elements `.privacy-modal, .cookie-settings-modal` matches. */
  function ClassMatched(page: Page): (elements: seq<Modal>)
    ensures forall m :: m in elements <==> m in page.modalsByClass
  {
    assert forall m :: m in page.modalsByClass ==> m.PrivacyModal? || m.SettingsModal?;
    (if PrivacyModal in page.modalsByClass then [PrivacyModal] else [])
      + (if SettingsModal in page.modalsByClass then [SettingsModal] else [])
  }

  /** `closeModals`: hides every modal the class selector matches; the scroll
      lock is released if and only if at least one element matched. */
  function CloseModals(s: State): (r: State)
    ensures r.view.openModals == s.view.openModals - s.page.modalsByClass
    ensures r.view.scrollLocked <==> s.view.scrollLocked && s.page.modalsByClass == {}
    ensures r.view == s.view.(openModals := r.view.openModals, scrollLocked := r.view.scrollLocked)
    ensures r == s.(view := r.view)
  {
    var elements := ClassMatched(s.page);
    assert (set m | m in elements) == s.page.modalsByClass;
    assert elements == [] <==> s.page.modalsByClass == {} by {
      if elements != [] { assert elements[0] in s.page.modalsByClass; }
    }
    CloseEach(s, elements)
  }

  // ---------------------------------------------------------------------
  // The three consent actions

  /** `acceptAllCookies`. */
  function AcceptAllCookies(s: State, now: string): (r: State)
    ensures GetCookiePreferences(r.storage) == AllAccepted
    ensures PreferencesKey in r.storage && r.storage[PreferencesKey] == PreferencesEntry(AllAccepted)
    ensures GetCookieConsent(r.storage) == Some(ConsentEntry(ConsentRecord(now, RecordVersion)))
    ensures r.storage - {ConsentKey, PreferencesKey} == s.storage - {ConsentKey, PreferencesKey}
    ensures CookieSet(r)
    ensures forall other :: other != ConsentKey ==> Lookup(r.cookies, other) == Lookup(s.cookies, other)
    ensures ValidJar(s.cookies) ==> ValidJar(r.cookies)
    ensures Reflects(r.log, s.page.hooks, AllAccepted)
    ensures r.log == s.log + ConsentEffects(s.page.hooks, AllAccepted)
    ensures s.page.hasBanner ==> !r.view.bannerShown
    ensures !s.page.hasBanner ==> r.view.bannerShown == s.view.bannerShown
    ensures r.view.openModals == s.view.openModals - s.page.modalsByClass
    ensures r.view.scrollLocked <==> s.view.scrollLocked && s.page.modalsByClass == {}
    ensures r.view.functionalChecked == s.view.functionalChecked
    ensures r.view.analyticsChecked == s.view.analyticsChecked
    ensures r.page == s.page
  {
    var prefs := AllAccepted;
    CloseModals(HideConsentBanner(ApplyConsent(SaveConsent(s, prefs, now), prefs)))
  }

  /** `declineNonEssentialCookies`: unlike the other two actions it leaves
      every open modal, and the scroll lock, as they were. */
  function DeclineNonEssentialCookies(s: State, now: string): (r: State)
    ensures GetCookiePreferences(r.storage) == NecessaryOnly
    ensures PreferencesKey in r.storage && r.storage[PreferencesKey] == PreferencesEntry(NecessaryOnly)
    ensures GetCookieConsent(r.storage) == Some(ConsentEntry(ConsentRecord(now, RecordVersion)))
    ensures r.storage - {ConsentKey, PreferencesKey} == s.storage - {ConsentKey, PreferencesKey}
    ensures CookieSet(r)
    ensures forall other :: other != ConsentKey ==> Lookup(r.cookies, other) == Lookup(s.cookies, other)
    ensures ValidJar(s.cookies) ==> ValidJar(r.cookies)
    ensures Reflects(r.log, s.page.hooks, NecessaryOnly)
    ensures r.log == s.log + ConsentEffects(s.page.hooks, NecessaryOnly)
    ensures s.page.hasBanner ==> !r.view.bannerShown
    ensures !s.page.hasBanner ==> r.view.bannerShown == s.view.bannerShown
    ensures r.view.openModals == s.view.openModals
    ensures r.view.scrollLocked == s.view.scrollLocked
    ensures r.view.functionalChecked == s.view.functionalChecked
    ensures r.view.analyticsChecked == s.view.analyticsChecked
    ensures r.page == s.page
  {
    var prefs := NecessaryOnly;
    HideConsentBanner(ApplyConsent(SaveConsent(s, prefs, now), prefs))
  }

  /** The triple the settings modal describes: `necessary` forced on, each
      other category ticked only if its checkbox exists and is checked. */
  function CustomPreferences(s: State): (prefs: Preferences)
    ensures prefs.necessary
    ensures prefs.functional <==> s.page.hasFunctionalBox && s.view.functionalChecked
    ensures prefs.analytics <==> s.page.hasAnalyticsBox && s.view.analyticsChecked
  {
    Preferences(
      true,
      s.page.hasFunctionalBox && s.view.functionalChecked,
      s.page.hasAnalyticsBox && s.view.analyticsChecked)
  }

  /** `saveCustomPreferences`. */
  function SaveCustomPreferences(s: State, now: string): (r: State)
    ensures GetCookiePreferences(r.storage) == CustomPreferences(s)
    ensures PreferencesKey in r.storage && r.storage[PreferencesKey] == PreferencesEntry(CustomPreferences(s))
    ensures GetCookieConsent(r.storage) == Some(ConsentEntry(ConsentRecord(now, RecordVersion)))
    ensures r.storage - {ConsentKey, PreferencesKey} == s.storage - {ConsentKey, PreferencesKey}
    ensures CookieSet(r)
    ensures forall other :: other != ConsentKey ==> Lookup(r.cookies, other) == Lookup(s.cookies, other)
    ensures ValidJar(s.cookies) ==> ValidJar(r.cookies)
    ensures Reflects(r.log, s.page.hooks, CustomPreferences(s))
    ensures r.log == s.log + ConsentEffects(s.page.hooks, CustomPreferences(s))
    ensures s.page.hasBanner ==> !r.view.bannerShown
    ensures !s.page.hasBanner ==> r.view.bannerShown == s.view.bannerShown
    ensures r.view.openModals == s.view.openModals - s.page.modalsByClass
    ensures r.view.scrollLocked <==> s.view.scrollLocked && s.page.modalsByClass == {}
    ensures r.view.functionalChecked == s.view.functionalChecked
    ensures r.view.analyticsChecked == s.view.analyticsChecked
    ensures r.page == s.page
  {
    var prefs := CustomPreferences(s);
    CloseModals(HideConsentBanner(ApplyConsent(SaveConsent(s, prefs, now), prefs)))
  }

  // ---------------------------------------------------------------------
  // Page load and reset

  /** `initCookieConsent`: without a stored record it shows the banner and
      leaves the integrations alone; with one it re-applies the stored (or
      default) triple and leaves the page as it is. */
  function InitCookieConsent(s: State): (r: State)
    ensures !Decided(s) ==> r == ShowConsentBanner(s) && r.log == s.log
    ensures Decided(s) ==> r.view == s.view && r.log == s.log + ConsentEffects(s.page.hooks, GetCookiePreferences(s.storage))
    ensures Decided(s) ==> Reflects(r.log, s.page.hooks, GetCookiePreferences(s.storage))
    ensures r.page == s.page && r.storage == s.storage && r.cookies == s.cookies
  {
    if GetCookieConsent(s.storage).None? then ShowConsentBanner(s)
    else ApplyConsent(s, GetCookiePreferences(s.storage))
  }

  /** A reload: storage, cookies and the effect log carry over; the page
      shows its markup again. */
  function Reload(s: State, markup: View): State {
    s.(view := markup)
  }

  /** `resetCookieConsent`: removes both keys, expires the cookie, reloads,
      and lets the page load run `initCookieConsent` afresh. */
  function ResetCookieConsent(s: State, markup: View): (r: State)
    ensures ConsentKey !in r.storage && PreferencesKey !in r.storage
    ensures r.storage == s.storage - {ConsentKey, PreferencesKey}
    ensures Lookup(r.cookies, ConsentKey) == None
    ensures forall other :: other != ConsentKey ==> Lookup(r.cookies, other) == Lookup(s.cookies, other)
    ensures ValidJar(s.cookies) ==> ValidJar(r.cookies)
    ensures r.view.bannerShown == (markup.bannerShown || s.page.hasBanner)
    ensures r.log == s.log
  {
    var cleared := s.(storage := s.storage - {ConsentKey, PreferencesKey},
                      cookies := Evict(s.cookies, ConsentKey));
    InitCookieConsent(Reload(cleared, markup))
  }
}
