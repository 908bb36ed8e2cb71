/** lib/consent.ts: the visitor's analytics consent, kept in localStorage under
    `analytics_consent` and forwarded to Google's consent mode. */
module Consent {
  import opened Wrappers

  const ConsentKey := "analytics_consent"

  /** The event `setConsent` dispatches on `window`. */
  const ConsentChanged := "consent-changed"

  /** `ConsentState`. */
  datatype ConsentState = Granted | Denied {
    function Name(): string {
      if this == Granted then "granted" else "denied"
    }
  }

  /** The stored value, read back: only the exact strings 'granted' and 'denied' count. */
  function ConsentOf(v: Option<string>): (r: Option<ConsentState>)
    ensures r.Some? <==> v == Some("granted") || v == Some("denied")
    ensures r.Some? ==> v == Some(r.value.Name())
  {
    if v == Some("granted") then Some(Granted)
    else if v == Some("denied") then Some(Denied)
    else None
  }

  /** Storing a state and reading it back gives that state. */
  lemma ConsentRoundTrip(s: ConsentState)
    ensures ConsentOf(Some(s.Name())) == Some(s)
  {
  }

  /** `window.gtag('consent', 'update', {...})`: the four consent-mode flags. */
  datatype GtagConsentUpdate = GtagConsentUpdate(adStorage: ConsentState, analyticsStorage: ConsentState,
                                                 adUserData: ConsentState, adPersonalization: ConsentState)

  /** The browser side: whether there is a `window` and a `gtag` function on it, the
      `analytics_consent` slot of localStorage, the consent updates sent to gtag and the
      events dispatched on `window`. */
  class ConsentBrowser {
    const hasWindow: bool
    const hasGtag: bool
    var stored: Option<string>
    var gtagCalls: seq<GtagConsentUpdate>
    var events: seq<string>

    constructor (hasWindow: bool, hasGtag: bool, stored: Option<string>)
      ensures this.hasWindow == hasWindow && this.hasGtag == hasGtag && this.stored == stored
      ensures gtagCalls == [] && events == []
    {
      this.hasWindow := hasWindow;
      this.hasGtag := hasGtag;
      this.stored := stored;
      gtagCalls := [];
      events := [];
    }

    /** `readConsent()`: null without a window or without a recognised stored value. */
    function ReadConsent(): (r: Option<ConsentState>)
      reads this
      ensures !hasWindow ==> r == None
      ensures hasWindow ==> r == ConsentOf(stored)
    {
      if !hasWindow then None else ConsentOf(stored)
    }

    /** `hasAnalyticsConsent()`. */
    function HasAnalyticsConsent(): (r: bool)
      reads this
      ensures r <==> hasWindow && stored == Some("granted")
    {
      ReadConsent() == Some(Granted)
    }

    /** `applyGoogleConsent(state)`: one update setting all four flags to `state`, or
        nothing when there is no window or no gtag. */
    method ApplyGoogleConsent(state: ConsentState)
      modifies this
      ensures hasWindow && hasGtag ==> gtagCalls == old(gtagCalls) + [GtagConsentUpdate(state, state, state, state)]
      ensures !(hasWindow && hasGtag) ==> gtagCalls == old(gtagCalls)
      ensures stored == old(stored) && events == old(events)
    {
      if !hasWindow || !hasGtag {
        return;
      }
      var flag := if state == Granted then Granted else Denied;
      gtagCalls := gtagCalls + [GtagConsentUpdate(flag, flag, flag, flag)];
    }

    /** `setConsent(state)`: store it, tell gtag, announce the change; nothing without a
        window.  Afterwards `readConsent()` returns `state`. */
    method SetConsent(state: ConsentState)
      modifies this
      ensures !hasWindow ==> stored == old(stored) && gtagCalls == old(gtagCalls) && events == old(events)
      ensures hasWindow ==> stored == Some(state.Name()) && events == old(events) + [ConsentChanged]
      ensures hasWindow && hasGtag ==> gtagCalls == old(gtagCalls) + [GtagConsentUpdate(state, state, state, state)]
      ensures hasWindow && !hasGtag ==> gtagCalls == old(gtagCalls)
      ensures hasWindow ==> ReadConsent() == Some(state)
    {
      if !hasWindow {
        return;
      }
      stored := Some(state.Name());
      ApplyGoogleConsent(state);
      events := events + [ConsentChanged];
      ConsentRoundTrip(state);
    }
  }
}
