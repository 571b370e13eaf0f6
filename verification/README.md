# Cookie-consent controller, modelled in Dafny

This project models the consent controller of a static site's
`assets/js/cookie-consent.js`: a banner and two modal dialogs that record a
visitor's cookie choice, keep it in two `localStorage` keys
(`sgi_cookie_consent`, `sgi_cookie_preferences`) plus a mirrored
`sgi_cookie_consent=true` cookie, and switch the optional functional and
analytics integrations (Google consent mode via `gtag`, a `dataLayer` event)
on or off. It also models the file's pure `getCookie` parser over the
`document.cookie` string.

The whole page is one immutable record, `Consent.State`:

- `page`: which elements and globals exist (banner, the two modals by id and
  by class, the two checkboxes, `gtag`, `dataLayer`);
- `storage`: `localStorage` as a typed map;
- `cookies`: the browser's cookie store, in creation order;
- `view`: banner shown, open modals, scroll lock, checkbox values;
- `log`: the append-only log of integration effects.

Every function of the controller is a pure transition over that record.

Files and modules:

- `wrappers.dfy` (`Wrappers`): `Option`, standing for `null`.
- `cookie_string.dfy` (`CookieString`): `split(';')`, the blank-stripping
  loop and `getCookie`, with `Split`/`Join` proved inverse.
- `cookie_jar.dfy` (`CookieJar`): the browser's cookie store.
  - Writing a pair follows the storage model of section 5.3 of RFC 6265.
  - Reading `document.cookie` follows section 5.4 of RFC 6265.
  - `ReadBack` proves that `getCookie` on that string returns exactly the
    stored value.
- `integrations.dfy` (`Integrations`): the effects of the enable/disable
  helpers. `Latest` reads back the state each integration channel was last
  put in.
- `consent.dfy` (`Consent`): the state record and every operation of the
  controller.
- `steps.dfy` (`ConsentSteps`): the page events as one `Step` function. It
  also holds the invariants kept across any run and the save/read round trips.

Two behaviours of the code are kept as written:

- `JSON.parse` at lines 177 and 182 is not guarded, so a corrupt stored value
  throws. The typed storage here cannot hold one (see Left out).
- `closeModals` releases the scroll lock only through `closeModal` on an
  element the class selector matched. When no element matches, the lock
  stays on.
- The consent cookie expires 365 days after the last save, but the stored
  record never does, and no page load writes the cookie again. So a stored
  decision outlives its cookie (`ConsentSteps.ExpiryOutlivesCookie`).

## Model

| member | source | states |
|---|---|---|
| CookieString.Split | assets/js/cookie-consent.js:302 | `split(';')` always yields at least one piece. No piece contains `;`. Joining the pieces with `;` gives back the original string. |
| CookieString.SplitJoin | assets/js/cookie-consent.js:302 | Splitting is the inverse of joining: splitting a join of `;`-free pieces returns exactly those pieces. |
| CookieString.TrimDropsBlanks | assets/js/cookie-consent.js:305 | The result is a suffix of the piece. Everything dropped is a blank. The result is empty or does not start with a blank. |
| CookieString.FirstMatchIndex | assets/js/cookie-consent.js:303-306 | Gives the index of the first piece whose trimmed form starts with `name=`, or the number of pieces when there is none. No earlier piece matches, and the piece at that index does. |
| CookieString.FirstValue | assets/js/cookie-consent.js:303-308 | The result is null exactly when no trimmed piece starts with `name=`. Otherwise it is the text after `name=` in the first such piece. |
| CookieString.GetCookie | assets/js/cookie-consent.js:300-309 | `getCookie` returns null iff no `;`-piece, once its leading blanks are stripped, starts with `name=`. Otherwise it returns the rest of the first such piece. A name that occurs only inside a piece is never read. |
| CookieJar.Store | assets/js/cookie-consent.js:293-297 | After `setCookie` with an expiry still ahead, the cookie reads the new value. Every other name reads as before. A valid store stays valid. |
| CookieJar.Evict | assets/js/cookie-consent.js:315 | After the reset writes an already-expired cookie, that name reads as absent. Every other name reads as before. |
| CookieJar.ReadBack | assets/js/cookie-consent.js:300-309 | For a valid store and any name without `=`, `getCookie` over `document.cookie` returns exactly the store's value for that name, or null. |
| Integrations.FunctionalEffects | assets/js/cookie-consent.js:205-213 | Enabling or disabling functional cookies emits exactly one functional entry carrying the chosen state. |
| Integrations.AnalyticsEffects | assets/js/cookie-consent.js:215-251 | Emits the analytics entry first. The consent-mode update comes iff `gtag` exists, and the dataLayer event iff `dataLayer` exists. Exactly those entries occur, in that order: the update second when present, the event last when present. It never signals the opposite choice. |
| Consent.GetCookieConsent | assets/js/cookie-consent.js:175-178 | A record is returned iff the consent key is stored, and it is the stored one. |
| Consent.GetCookiePreferences | assets/js/cookie-consent.js:180-187 | Returns the stored triple. With the key absent it returns `{true,false,false}`. |
| Consent.WriteChoice | assets/js/cookie-consent.js:167-169 | Both keys hold exactly the new record and the triple. Every other key keeps its value. |
| Consent.SaveConsent | assets/js/cookie-consent.js:161-173 | The preferences key holds exactly the triple saved, so reading it back returns that triple. The record holds the timestamp and version `1.0`. The consent cookie reads `true`. Other storage keys and other cookies are untouched. |
| Consent.ConsentEffectsSpelledOut | assets/js/cookie-consent.js:189-251 | The complete effect list of `applyConsent` for each pair of globals: functional toggle, analytics toggle, then the consent-mode update if `gtag` exists, then the dataLayer event if `dataLayer` exists. |
| Consent.ConsentEffects | assets/js/cookie-consent.js:189-203 | `applyConsent` emits 2 entries, plus one per present global. The functional entry comes first and the analytics entry second, each matching the triple. |
| Consent.ConsentEffectsReflect | assets/js/cookie-consent.js:189-251 | Whatever the log held before, after `applyConsent(p)` every integration channel is last set according to `p`. A channel whose global is missing keeps its earlier state. |
| Consent.ApplyConsent | assets/js/cookie-consent.js:189-203 | Only the effect log changes, and afterwards the integrations follow the given triple. |
| Consent.ShowConsentBanner | assets/js/cookie-consent.js:109-114 | The banner is shown iff its element exists or it was already shown. Nothing else changes. |
| Consent.HideConsentBanner | assets/js/cookie-consent.js:116-121 | If the banner element exists it is hidden afterwards. Without the element the state is unchanged. Nothing else changes. |
| Consent.OpenPrivacyModal | assets/js/cookie-consent.js:253-259 | If the element exists, the modal opens and the scroll lock is set. Otherwise nothing changes. |
| Consent.OpenSettingsModal | assets/js/cookie-consent.js:261-276 | If the element exists, each present checkbox takes the stored (or default) category value, the modal opens and the lock is set. Otherwise nothing changes. |
| Consent.CloseModal | assets/js/cookie-consent.js:285-290 | For an element, removes only that modal's `show` and always clears the scroll lock, whichever modal set it. For null, nothing changes. |
| Consent.CloseEach | assets/js/cookie-consent.js:280-282 | Closing element by element removes exactly the listed modals. The lock is cleared iff the list is non-empty. |
| Consent.ClassMatched | assets/js/cookie-consent.js:279 | The selector matches exactly the modals that carry their class. |
| Consent.CloseModals | assets/js/cookie-consent.js:278-283 | Closes every modal the class selector matches and leaves the others. The lock is released iff at least one element matched. |
| Consent.AcceptAllCookies | assets/js/cookie-consent.js:123-134 | Stores `{true,true,true}` with a fresh record and sets the cookie. It applies the triple, hides the banner and closes all class-matched modals. The banner flag is kept when there is no banner element. Other storage keys and other cookies are untouched. |
| Consent.DeclineNonEssentialCookies | assets/js/cookie-consent.js:136-146 | Stores `{true,false,false}`, records consent, sets the cookie, applies the triple and hides the banner. The preferences key holds exactly that triple. The open modals, the scroll lock, other storage keys and other cookies are left unchanged. |
| Consent.CustomPreferences | assets/js/cookie-consent.js:149-153 | `necessary` is always true. Each other category is true iff its checkbox exists and is checked. |
| Consent.SaveCustomPreferences | assets/js/cookie-consent.js:148-159 | Stores the checkbox-derived triple with a fresh record and sets the cookie. It applies the triple, hides the banner and closes the matched modals. The preferences key holds exactly that triple, even with both boxes unticked. Other storage keys and other cookies are untouched. |
| Consent.InitCookieConsent | assets/js/cookie-consent.js:21-31 | With no record, it shows the banner and appends nothing to the log. With a record, it appends exactly the effects of the stored (or default) triple, after which the integrations follow it. |
| Consent.ResetCookieConsent | assets/js/cookie-consent.js:312-317 | Both keys are removed, the cookie reads as absent, and the other keys and cookies are kept. The reloaded page takes the banner branch and appends nothing. |
| ConsentSteps.ClickOutside | assets/js/cookie-consent.js:80-90 | A click on an existing modal closes that modal and releases the lock. Storage, cookies, the log, the banner and the checkboxes are untouched. Without the element nothing changes. |
| ConsentSteps.ExpireCookie | assets/js/cookie-consent.js:293-297 | When the cookie's expiry passes, the consent cookie reads as absent. Other cookies and all other state are untouched. |
| ConsentSteps.SaveStep | assets/js/cookie-consent.js:39-53 | The accept-all and decline listeners, and likewise the two settings-modal buttons at lines 93-106, each record the chosen triple, set the cookie and append exactly its effects. |
| ConsentSteps.OtherStep | assets/js/cookie-consent.js:55-91 | The settings button, privacy links, close buttons and backdrop clicks, like a checkbox tick, leave storage, cookies and the log alone. Among the non-saving events only the reset touches storage or the log, and only the reset and the cookie's expiry change the cookie store. |
| ConsentSteps.Step | assets/js/cookie-consent.js:37-107 | Dispatches each event to its listener: both accept buttons to accept-all, decline, save-settings, the two open links, the close buttons, the backdrop click, a checkbox tick and the reset. The page never changes. A save records, sets the cookie and applies the chosen triple. Other events leave storage and the log alone. |
| ConsentSteps.StepKeepsConsistent | assets/js/cookie-consent.js:161-169 | Every event keeps the storage consistent: both keys present or neither, each holding its own kind of object, and `necessary` stored as true. |
| ConsentSteps.PageLoadSyncs | assets/js/cookie-consent.js:21-31 | After a page load, a recorded consent means every integration follows the stored triple. |
| ConsentSteps.StepKeepsSynced | assets/js/cookie-consent.js:123-159 | Every event preserves "recorded consent implies the integrations follow the stored triple". |
| ConsentSteps.StepKeepsMirrored | assets/js/cookie-consent.js:161-173 | Every event, cookie expiry included, preserves "the consent cookie reads `true` only while a consent record is stored". |
| ConsentSteps.CookieReadsDecision | assets/js/cookie-consent.js:300-309 | `getCookie('sgi_cookie_consent')` returns `true` iff the cookie is set. When it does, consent is recorded. |
| ConsentSteps.ExpiryOutlivesCookie | assets/js/cookie-consent.js:21-31 | After the cookie expires, the record is still stored. The next page load re-applies the stored triple but does not set the cookie again. |
| ConsentSteps.DecisionOnlyByChoice | assets/js/cookie-consent.js:123-159 | An undecided visitor becomes decided exactly when the event is accept-all, decline or a custom save. |
| ConsentSteps.DecisionSticks | assets/js/cookie-consent.js:312-317 | Only the reset takes a decided visitor back to undecided. After a reset the banner shows and the log is unchanged. |
| ConsentSteps.LogOnlyGrows | assets/js/cookie-consent.js:189-251 | No event removes or rewrites an integration effect. |
| ConsentSteps.SavedChoiceReadsBack | assets/js/cookie-consent.js:161-187 | After any save action, reading returns exactly the triple handed to `saveConsent`, with `necessary` on. Reopening the settings modal pre-fills each present checkbox with it. |
| ConsentSteps.OpenThenCloseAll | assets/js/cookie-consent.js:253-283 | Opening a modal whose element exists shows it and sets the lock. A following close-button click hides it and frees scrolling if the element carries its class. Storage and the log are untouched. |
| ConsentSteps.ReloadWithAnalyticsOnly | assets/js/cookie-consent.js:21-31 | With `{true,false,true}` stored and both globals present, a page load appends exactly: functional disabled, analytics enabled, all four consent-mode flags granted, and the `analytics_consent_granted` event. |
| ConsentSteps.CustomSaveRoundTrip | assets/js/cookie-consent.js:148-159 | Saving from the settings modal and reopening it shows both checkboxes exactly as they were ticked. |

## Left out

- Event registration (`setupEventListeners`, lines 37-107) and the `DOMContentLoaded` hook (lines 17-19) are not modelled as such. A click is a `ConsentSteps.Action`. A button that is absent simply never produces its action.
- Element lookups become the presence flags of `Consent.Page`. A modal found by id and a modal matched by its class are taken to be the same element.
- `console.log` text and the internals of `gtag` and `dataLayer` are foreign calls. Each call is one entry in the effect log, and the two globals are presence flags.
- Clock: the consent timestamp is an opaque `now` argument.
- Cookie expiry: the date arithmetic of `setCookie` and the 365-day constant are not modelled. A write with a future expiry is `CookieJar.Store`. The reset's 1970 expiry is `CookieJar.Evict`. The lapse of the 365 days is the `ConsentSteps.CookieExpires` event, which may happen at any point.
- JSON text and `localStorage` itself: storage is a map holding the two object shapes the controller writes. A corrupt value, which makes the unguarded `JSON.parse` throw, cannot be represented. Neither can a JSON `null` or `false` written by another script, which would read as "no consent".
- Cookie order: the store keeps cookies in creation order. Section 5.4 of RFC 6265 also sorts by path length, which matters only for cookies with other paths.
- `location.reload()` is modelled as `Consent.Reload` followed by a fresh `InitCookieConsent`. No page lifecycle is modelled.
- Cross-tab races on shared storage are concurrency, outside this code's logic.
- The unused `cookieCategories` constant (lines 10-14) has no counterpart. `getCookie` is never called in the file; it is modelled on its own.
