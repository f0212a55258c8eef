/** The toolbar badge (`src/js/browser-action-manager.js`): icon, text and colour computed
    from the pause flag and the number of active modifiers, pushed to the browser only
    when they differ from what was last pushed. */
module BrowserAction {
  import opened Common
  import opened Text

  const DisabledIcon: string := "images/icon_bw.png"
  const RegularIcon: string := "images/icon.png"
  /** Two heavy vertical bars, U+275A U+275A. */
  const PausedText: string := "❚❚"
  const PausedColor: string := "#666"
  const IdleColor: string := "#fff"

  datatype Settings = Settings(icon: string, text: string, color: string)

  /** Reading `backgroundColor` of an undefined selected profile throws. */
  datatype BadgeError = NoSelectedProfile

  /** The modifiers of one profile that the badge counts: request and response headers,
      Set-Cookie headers and URL replacements. */
  function ProfileCount(p: Profile): nat {
    |p.headers| + |p.respHeaders| + |p.setCookieHeaders| + |p.urlReplacements|
  }

  /** The badge count over a list of active profiles. */
  function ModifierCount(profiles: seq<Profile>): nat
    decreases |profiles|
  {
    if |profiles| == 0 then 0
    else ModifierCount(profiles[..|profiles| - 1]) + ProfileCount(profiles[|profiles| - 1])
  }

  /** The count of two lists put together is the sum of their counts. */
  lemma {:induction false} ModifierCountAppend(a: seq<Profile>, b: seq<Profile>)
    ensures ModifierCount(a + b) == ModifierCount(a) + ModifierCount(b)
    decreases |b|
  {
    if |b| > 0 {
      ModifierCountAppend(a, b[..|b| - 1]);
      assert (a + b)[..|a + b| - 1] == a + b[..|b| - 1];
      assert (a + b)[|a + b| - 1] == b[|b| - 1];
    } else {
      assert a + b == a;
    }
  }

  /** The count is zero exactly when no active profile has a counted modifier. */
  lemma {:induction false} ModifierCountZero(profiles: seq<Profile>)
    ensures ModifierCount(profiles) == 0 <==> forall k :: 0 <= k < |profiles| ==> ProfileCount(profiles[k]) == 0
    decreases |profiles|
  {
    if |profiles| > 0 {
      var init := profiles[..|profiles| - 1];
      ModifierCountZero(init);
      assert forall k :: 0 <= k < |init| ==> init[k] == profiles[k];
    }
  }

  /** Cookie and CSP modifiers are not counted: profiles that agree on the four counted
      lists' lengths have the same count, whatever their other lists hold. */
  lemma {:induction false} ModifierCountIgnoresCookieAndCsp(ps: seq<Profile>, qs: seq<Profile>)
    requires |ps| == |qs|
    requires forall k :: 0 <= k < |ps| ==>
      && |ps[k].headers| == |qs[k].headers|
      && |ps[k].respHeaders| == |qs[k].respHeaders|
      && |ps[k].setCookieHeaders| == |qs[k].setCookieHeaders|
      && |ps[k].urlReplacements| == |qs[k].urlReplacements|
    ensures ModifierCount(ps) == ModifierCount(qs)
    decreases |ps|
  {
    if |ps| > 0 {
      ModifierCountIgnoresCookieAndCsp(ps[..|ps| - 1], qs[..|qs| - 1]);
    }
  }

  /** The settings `resetBrowserActions` asks for. */
  function BadgeSettings(paused: bool, activeProfiles: seq<Profile>, selectedActiveProfile: Option<Profile>): Result<Settings, BadgeError> {
    if paused then Success(Settings(DisabledIcon, PausedText, PausedColor))
    else if ModifierCount(activeProfiles) == 0 then Success(Settings(DisabledIcon, "", IdleColor))
    else if selectedActiveProfile.None? then Failure(NoSelectedProfile)
    else Success(Settings(RegularIcon, Decimal(ModifierCount(activeProfiles)), selectedActiveProfile.value.backgroundColor))
  }

  /** The three badges: paused whatever the profiles, disabled with no text when nothing is
      counted, and otherwise the count in decimal on the selected profile's colour, which
      fails when no profile is selected. The icon is the regular one exactly when the
      extension is not paused and something is counted. */
  lemma BadgeCases(paused: bool, activeProfiles: seq<Profile>, selectedActiveProfile: Option<Profile>)
    ensures var r := BadgeSettings(paused, activeProfiles, selectedActiveProfile);
      var n := ModifierCount(activeProfiles);
      && (paused ==> r == Success(Settings(DisabledIcon, PausedText, PausedColor)))
      && (!paused && n == 0 ==> r == Success(Settings(DisabledIcon, "", IdleColor)))
      && (r.Failure? <==> !paused && n > 0 && selectedActiveProfile.None?)
      && (r.Success? ==> (r.value.icon == RegularIcon <==> !paused && n > 0))
      && (r.Success? && !paused && n > 0 ==>
            r.value.text == Decimal(n) && DigitsValue(r.value.text) == n
            && r.value.color == selectedActiveProfile.value.backgroundColor)
  {
    DecimalRoundTrip(ModifierCount(activeProfiles));
  }

  /** The badge state of the worker: the settings last pushed, and every push made. */
  class BadgeManager {
    var currentSettings: Option<Settings>
    var calls: seq<Settings>

    constructor ()
      ensures currentSettings == None && calls == []
    {
      currentSettings := None;
      calls := [];
    }

    /** `updateBrowserActionIfNeeded`: push only settings that differ from the last ones. */
    method UpdateBrowserActionIfNeeded(newSettings: Settings)
      modifies this
      ensures currentSettings == Some(newSettings)
      ensures calls == if old(currentSettings) == Some(newSettings) then old(calls) else old(calls) + [newSettings]
    {
      if currentSettings == Some(newSettings) {
        return;
      }
      currentSettings := Some(newSettings);
      calls := calls + [newSettings];
    }

    /** `resetBrowserActions`, given the storage and the reload response. */
    method ResetBrowserActions(local: map<string, Json>, activeProfiles: seq<Profile>, selectedActiveProfile: Option<Profile>)
      returns (r: Result<Settings, BadgeError>)
      modifies this
      ensures r == BadgeSettings(Truthy(Get(local, "isPaused")), activeProfiles, selectedActiveProfile)
      ensures r.Failure? ==> currentSettings == old(currentSettings) && calls == old(calls)
      ensures r.Success? ==> currentSettings == Some(r.value)
      ensures r.Success? ==> calls == if old(currentSettings) == Some(r.value) then old(calls) else old(calls) + [r.value]
    {
      var settings: Settings;
      if Truthy(Get(local, "isPaused")) {
        settings := Settings(DisabledIcon, PausedText, PausedColor);
      } else {
        var numHeaders := 0;
        var i := 0;
        while i < |activeProfiles|
          invariant 0 <= i <= |activeProfiles|
          invariant numHeaders == ModifierCount(activeProfiles[..i])
        {
          var currentProfile := activeProfiles[i];
          assert activeProfiles[..i + 1][..i] == activeProfiles[..i];
          numHeaders := numHeaders + |currentProfile.headers| + |currentProfile.respHeaders|
            + |currentProfile.setCookieHeaders| + |currentProfile.urlReplacements|;
          i := i + 1;
        }
        assert activeProfiles[..i] == activeProfiles;
        if numHeaders == 0 {
          settings := Settings(DisabledIcon, "", IdleColor);
        } else {
          if selectedActiveProfile.None? {
            return Failure(NoSelectedProfile);
          }
          settings := Settings(RegularIcon, Decimal(numHeaders), selectedActiveProfile.value.backgroundColor);
        }
      }
      UpdateBrowserActionIfNeeded(settings);
      return Success(settings);
    }

    /** Resetting twice from the same input pushes at most once, and the second reset
        pushes nothing. */
    method ResetTwice(local: map<string, Json>, activeProfiles: seq<Profile>, selectedActiveProfile: Option<Profile>)
      modifies this
      ensures |calls| <= |old(calls)| + 1
      ensures BadgeSettings(Truthy(Get(local, "isPaused")), activeProfiles, selectedActiveProfile).Success? ==>
        currentSettings == Some(BadgeSettings(Truthy(Get(local, "isPaused")), activeProfiles, selectedActiveProfile).value)
    {
      var first := ResetBrowserActions(local, activeProfiles, selectedActiveProfile);
      ghost var between := calls;
      var second := ResetBrowserActions(local, activeProfiles, selectedActiveProfile);
      assert calls == between;
    }
  }
}
