/**
 * The FbSettings UserSettings delegate: which Firebolt events it handles,
 * subscribing to them (registering its notification handler with the
 * UserSettings plugin on the first subscription only), and the split of
 * a presentation-language change into a locale and a language event.
 *
 * Whether the shell exists and whether the UserSettings interface can be
 * obtained are inputs to each subscription.
 */
module UserSettingsDelegate {
  import opened Text
  import opened EventDelegate

  const LOCALE_CHANGED: string := "localization.onlocalechanged"
  const LANGUAGE_CHANGED: string := "localization.onlanguagechanged"

  const VALID_USER_SETTINGS_EVENT: set<string> := {
    LANGUAGE_CHANGED,
    LOCALE_CHANGED,
    "localization.onpreferredaudiolanguageschanged",
    "accessibility.onaudiodescriptionsettingschanged",
    "accessibility.onhighcontrastuichanged",
    "closedcaptions.onenabledchanged",
    "closedcaptions.onpreferredlanguageschanged",
    "accessibility.onclosedcaptionssettingschanged",
    "accessibility.onvoiceguidancesettingschanged"
  }

  lemma NineEvents()
    ensures |VALID_USER_SETTINGS_EVENT| == 9
  {
  }

  /** The events a presentation-language change dispatches, before the registration filter. */
  function PresentationLanguageEvents(lang: string): seq<(string, string)>
  {
    [(LOCALE_CHANGED, lang)]
      + (if Has(lang, '-') then [(LANGUAGE_CHANGED, Before(lang, '-'))] else [])
  }

  /** The jobs a presentation-language change submits: `PresentationLanguageEvents` filtered by registration. */
  function PresentationLanguageJobs(registered: set<string>, lang: string): seq<(string, string)>
  {
    DispatchJobs(registered, LOCALE_CHANGED, lang)
      + (if Has(lang, '-') then DispatchJobs(registered, LANGUAGE_CHANGED, Before(lang, '-')) else [])
  }

  /** With both events registered, every event of the change is dispatched. */
  lemma PresentationLanguageAllRegistered(registered: set<string>, lang: string)
    requires LOCALE_CHANGED in registered && LANGUAGE_CHANGED in registered
    ensures PresentationLanguageJobs(registered, lang) == PresentationLanguageEvents(lang)
  {
    LowerNoUpper(LOCALE_CHANGED);
    LowerNoUpper(LANGUAGE_CHANGED);
  }

  /**
   * A tag with a '-' also announces its language, the part before the
   * first '-'; a tag without one announces only the locale.
   */
  lemma PresentationLanguageSplit(lang: string, i: nat)
    requires i <= |lang|
    requires '-' !in lang[..i] && (i < |lang| ==> lang[i] == '-')
    ensures i < |lang| ==> PresentationLanguageEvents(lang) == [(LOCALE_CHANGED, lang), (LANGUAGE_CHANGED, lang[..i])]
    ensures i == |lang| ==> PresentationLanguageEvents(lang) == [(LOCALE_CHANGED, lang)]
  {
    var b := Before(lang, '-');
    assert b == lang[..i];
    FindFirst(lang, '-');
    if i == |lang| {
      assert lang[..i] == lang;
    } else {
      assert Has(lang, '-');
    }
  }

  /** "en-US" gives the locale "en-US" and the language "en"; "en" gives only the locale. */
  lemma PresentationLanguageExamples()
    ensures PresentationLanguageEvents("en-US")
      == [(LOCALE_CHANGED, "en-US"), (LANGUAGE_CHANGED, "en")]
    ensures PresentationLanguageEvents("en") == [(LOCALE_CHANGED, "en")]
  {
    assert "en-US"[2] == '-';
    assert Find("en-US", '-', 0) == 2;
    assert "en-US"[..2] == "en";
    assert !Has("en", '-');
  }

  class UserSettingsDelegate {
    const base: BaseEventDelegate
    /** Whether `mUserSettings` is non-null. */
    var hasUserSettings: bool
    /** The notification handler's `registered` flag. */
    var handlerRegistered: bool
    /** How many times the handler was registered with the plugin. */
    var registrations: nat

    ghost predicate Valid()
      reads this, base
    {
      base.Valid() && (handlerRegistered <==> registrations > 0) && registrations <= 1
    }

    constructor()
      ensures Valid() && fresh(base)
      ensures base.registered == {} && base.submitted == []
      ensures !hasUserSettings && !handlerRegistered && registrations == 0
    {
      base := new BaseEventDelegate();
      hasUserSettings, handlerRegistered, registrations := false, false, 0;
    }

    /**
     * `HandleSubscription(event, listen)`. With `listen`, the interface is
     * looked up again (`shellPresent`, `found`); without it the event is
     * forgotten.
     */
    method HandleSubscription(event: string, listen: bool, shellPresent: bool, found: bool) returns (r: bool)
      requires Valid()
      modifies this, base
      ensures Valid()
      ensures base.submitted == old(base.submitted)
      ensures !listen ==>
        !r && base.registered == WithoutNotification(old(base.registered), event)
        && handlerRegistered == old(handlerRegistered) && registrations == old(registrations)
      ensures listen && !(shellPresent && found) ==>
        !r && base.registered == old(base.registered) && handlerRegistered == old(handlerRegistered)
        && registrations == old(registrations)
      ensures listen && shellPresent && found ==>
        base.registered == WithNotification(old(base.registered), event)
        && r == !old(handlerRegistered) && handlerRegistered
        && registrations == 1
      ensures listen && shellPresent ==> hasUserSettings == found
      ensures !(listen && shellPresent) ==> hasUserSettings == old(hasUserSettings)
    {
      if listen {
        if shellPresent {
          hasUserSettings := found;
          if !hasUserSettings {
            return false;
          }
        } else {
          return false;
        }
        if !hasUserSettings {
          return false;
        }
        base.AddNotification(event);
        if !handlerRegistered {
          registrations := registrations + 1;
          handlerRegistered := true;
          return true;
        }
      } else {
        base.RemoveNotification(event);
      }
      return false;
    }

    /**
     * `HandleEvent`: `registrationError` is an in/out parameter, written
     * only for an event this delegate handles.
     */
    method HandleEvent(event: string, listen: bool, registrationErrorIn: bool, shellPresent: bool, found: bool)
      returns (handled: bool, registrationError: bool)
      requires Valid()
      modifies this, base
      ensures Valid()
      ensures handled <==> Lower(event) in VALID_USER_SETTINGS_EVENT
      ensures !handled ==>
        registrationError == registrationErrorIn && base.registered == old(base.registered)
        && handlerRegistered == old(handlerRegistered) && hasUserSettings == old(hasUserSettings)
        && base.submitted == old(base.submitted) && registrations == old(registrations)
      ensures handled ==> base.submitted == old(base.submitted)
      ensures handled && !listen ==>
        !registrationError && base.registered == WithoutNotification(old(base.registered), event)
        && handlerRegistered == old(handlerRegistered) && registrations == old(registrations)
      ensures handled && listen && !(shellPresent && found) ==>
        !registrationError && base.registered == old(base.registered) && handlerRegistered == old(handlerRegistered)
        && registrations == old(registrations)
      ensures handled && listen && shellPresent && found ==>
        base.registered == WithNotification(old(base.registered), event)
        && registrationError == !old(handlerRegistered) && handlerRegistered && registrations == 1
      ensures handled && listen && shellPresent ==> hasUserSettings == found
      ensures handled && !(listen && shellPresent) ==> hasUserSettings == old(hasUserSettings)
    {
      var eventLower := Lower(event);
      if eventLower in VALID_USER_SETTINGS_EVENT {
        registrationError := HandleSubscription(event, listen, shellPresent, found);
        return true, registrationError;
      }
      return false, registrationErrorIn;
    }

    /** `OnPresentationLanguageChanged`: the locale event always, the language event only for "xx-…". */
    method OnPresentationLanguageChanged(presentationLanguage: string)
      requires Valid()
      modifies base
      ensures Valid()
      ensures base.registered == old(base.registered)
      ensures base.submitted == old(base.submitted) + PresentationLanguageJobs(old(base.registered), presentationLanguage)
    {
      var _ := base.Dispatch(LOCALE_CHANGED, presentationLanguage);
      var pos := Find(presentationLanguage, '-', 0);
      FindFirst(presentationLanguage, '-');
      if pos != |presentationLanguage| {
        var language := presentationLanguage[..pos];
        assert language == Before(presentationLanguage, '-');
        var _ := base.Dispatch(LANGUAGE_CHANGED, language);
      }
    }
  }
}
