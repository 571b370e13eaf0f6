/** What the controller does to the outside world when it applies consent:
    the console lines of the four enable/disable helpers, the consent-mode
    update handed to `gtag` and the event pushed onto `dataLayer`. The log is
    append-only; `Latest` reads back the state each channel was last put in. */
module Integrations {
  import opened Wrappers

  datatype Grant = Granted | Denied

  /** Which of the two optional globals the hosting page defines. */
  datatype Hooks = Hooks(gtag: bool, dataLayer: bool)

  datatype Effect =
    | FunctionalCookies(enabled: bool)
    | AnalyticsCookies(enabled: bool)
    | ConsentModeUpdate(adStorage: Grant, adUserData: Grant, adPersonalization: Grant, analyticsStorage: Grant)
    | DataLayerPush(event: string)

  /** The four independent things an effect can set. */
  datatype Channel = Functional | Analytics | ConsentMode | DataLayer

  const GrantedEvent: string := "analytics_consent_granted"
  const DeniedEvent: string := "analytics_consent_denied"

  function ChannelOf(e: Effect): Channel {
    match e
    case FunctionalCookies(_) => Functional
    case AnalyticsCookies(_) => Analytics
    case ConsentModeUpdate(_, _, _, _) => ConsentMode
    case DataLayerPush(_) => DataLayer
  }

  function GrantOf(enabled: bool): Grant {
    if enabled then Granted else Denied
  }

  /** The `gtag('consent', 'update', …)` call: all four flags alike. */
  function ConsentUpdate(enabled: bool): Effect {
    var g := GrantOf(enabled);
    ConsentModeUpdate(g, g, g, g)
  }

  /** The `dataLayer.push({event: …})` call. */
  function ConsentEvent(enabled: bool): Effect {
    DataLayerPush(if enabled then GrantedEvent else DeniedEvent)
  }

  /** `enableFunctionalCookies` / `disableFunctionalCookies`: one console line. */
  function FunctionalEffects(enabled: bool): (effects: seq<Effect>)
    ensures |effects| == 1 && ChannelOf(effects[0]) == Functional
    ensures effects[0].enabled == enabled
  {
    [FunctionalCookies(enabled)]
  }

  /** `enableAnalyticsCookies` / `disableAnalyticsCookies`: the console line,
      then the consent-mode update only if `gtag` is defined, then the event
      only if `dataLayer` is; never a signal of the opposite choice. */
  function AnalyticsEffects(hooks: Hooks, enabled: bool): (effects: seq<Effect>)
    ensures |effects| == 1 + (if hooks.gtag then 1 else 0) + (if hooks.dataLayer then 1 else 0)
    ensures effects[0] == AnalyticsCookies(enabled)
    ensures hooks.gtag ==> effects[1] == ConsentUpdate(enabled)
    ensures hooks.dataLayer ==> effects[|effects| - 1] == ConsentEvent(enabled)
    ensures forall i :: 0 <= i < |effects| ==> ChannelOf(effects[i]) != Functional
    ensures ConsentUpdate(enabled) in effects <==> hooks.gtag
    ensures ConsentEvent(enabled) in effects <==> hooks.dataLayer
    ensures ConsentUpdate(!enabled) !in effects && ConsentEvent(!enabled) !in effects
  {
    [AnalyticsCookies(enabled)]
      + (if hooks.gtag then [ConsentUpdate(enabled)] else [])
      + (if hooks.dataLayer then [ConsentEvent(enabled)] else [])
  }

  /** The last effect on channel `ch`, if any: the state that channel is in. */
  function Latest(log: seq<Effect>, ch: Channel): (r: Option<Effect>)
    ensures r.Some? ==> ChannelOf(r.value) == ch && r.value in log
    ensures r.None? <==> forall i :: 0 <= i < |log| ==> ChannelOf(log[i]) != ch
    decreases |log|
  {
    if log == [] then None
    else if ChannelOf(log[|log| - 1]) == ch then Some(log[|log| - 1])
    else
      var front := log[..|log| - 1];
      assert forall i :: 0 <= i < |front| ==> front[i] == log[i];
      Latest(front, ch)
  }

  /** Appending effects leaves a channel as the appended part last set it, or
      as it was when the appended part does not touch it. */
  lemma {:induction false} LatestOfAppend(log: seq<Effect>, more: seq<Effect>, ch: Channel)
    ensures Latest(log + more, ch) == if Latest(more, ch).Some? then Latest(more, ch) else Latest(log, ch)
    decreases |more|
  {
    if more == [] {
      assert log + more == log;
    } else {
      var all := log + more;
      assert all[|all| - 1] == more[|more| - 1];
      if ChannelOf(more[|more| - 1]) != ch {
        assert all[..|all| - 1] == log + more[..|more| - 1];
        LatestOfAppend(log, more[..|more| - 1], ch);
      }
    }
  }

  /** The effect at `i` is the latest on its channel when nothing after it
      touches that channel. */
  lemma LatestAt(log: seq<Effect>, i: int)
    requires 0 <= i < |log|
    requires forall j :: i < j < |log| ==> ChannelOf(log[j]) != ChannelOf(log[i])
    ensures Latest(log, ChannelOf(log[i])) == Some(log[i])
  {
    var ch := ChannelOf(log[i]);
    var front, back := log[..i + 1], log[i + 1..];
    assert log == front + back;
    assert forall j :: 0 <= j < |back| ==> back[j] == log[i + 1 + j];
    LatestOfAppend(front, back, ch);
  }
}
