/**
 * The popup's speed and boost controls: the sliders, the stored positions,
 * the preset buttons, the two turn-off buttons and the start-up restore, each
 * ending in a call injected into the active tab.
 */
module PopupControls {
  import opened Wrappers
  import opened Curves
  import opened MediaPage

  /** `result.speed || 1.0` (and the same for `boost`): an absent or zero stored position restores as 1.0. */
  function RestoredPosition(stored: Option<real>): (p: real)
    ensures stored.Some? && stored.value != 0.0 ==> p == stored.value
    ensures (stored.None? || stored.value == 0.0) ==> p == 1.0
  {
    if stored.Some? && stored.value != 0.0 then stored.value else 1.0
  }

  /**
   * The popup's own state. The active tab is passed to each handler as a
   * `Page?`: `null` when there is no tab or it is a `chrome://` page, where
   * `runScriptOnActiveTab` does nothing.
   */
  class Popup {
    var speedSlider: real
    var boostSlider: real
    /** `chrome.storage.local` under the keys `speed` and `boost`. */
    var storedSpeed: Option<real>
    var storedBoost: Option<real>
    /** The popup's own document, where `disableBooster` looks for media first. */
    const doc: Page
    const math: HostMath

    constructor (doc: Page, math: HostMath, speedSlider: real, boostSlider: real,
                 storedSpeed: Option<real>, storedBoost: Option<real>)
      ensures this.doc == doc && this.math == math
      ensures this.speedSlider == speedSlider && this.boostSlider == boostSlider
      ensures this.storedSpeed == storedSpeed && this.storedBoost == storedBoost
    {
      this.doc := doc;
      this.math := math;
      this.speedSlider := speedSlider;
      this.boostSlider := boostSlider;
      this.storedSpeed := storedSpeed;
      this.storedBoost := storedBoost;
    }

    /** `setSpeed(value)`: store the position and enforce its speed in the tab. */
    method SetSpeed(value: real, tab: Page?)
      requires tab != null ==> tab.Valid()
      modifies this`storedSpeed, tab
      ensures storedSpeed == Some(value)
      ensures tab != null ==> && tab.Valid() && tab.EnforcingRate(CalculateSpeed(math, value))
                              && tab.media == old(tab.media) && tab.gains == old(tab.gains) && tab.built == old(tab.built)
    {
      var speed := CalculateSpeed(math, value);
      storedSpeed := Some(value);
      if tab != null {
        tab.SetVideoSpeed(speed, true);
      }
    }

    /** A speed preset button: move the slider to the preset's position and apply it. */
    method SelectSpeedPreset(speedValue: real, tab: Page?)
      requires LogsDefined(math)
      requires tab != null ==> tab.Valid()
      modifies this`speedSlider, this`storedSpeed, tab
      ensures speedSlider == CalculateSpeedSlider(math, speedValue) && storedSpeed == Some(speedSlider)
      ensures tab != null ==> && tab.Valid() && tab.EnforcingRate(CalculateSpeed(math, speedSlider))
                              && tab.media == old(tab.media) && tab.gains == old(tab.gains) && tab.built == old(tab.built)
      ensures 0.25 <= speedValue <= 1.75 && tab != null ==> tab.EnforcingRate(speedValue)
    {
      var speedPercent := CalculateSpeedSlider(math, speedValue);
      speedSlider := speedPercent;
      SetSpeed(speedPercent, tab);
      if 0.25 <= speedValue <= 1.75 {
        SpeedSliderRoundTrip(math, speedValue);
      }
    }

    /** `clearSpeedModifications`: slider and store back to the neutral position, the tab's interval stopped and its videos at rate 1. */
    method ClearSpeedModifications(tab: Page?)
      requires tab != null ==> tab.Valid()
      modifies this`speedSlider, this`storedSpeed, tab
      ensures speedSlider == 50.0 && storedSpeed == Some(50.0)
      ensures CalculateSpeed(math, speedSlider) == 1.0
      ensures tab != null ==> && tab.Valid() && tab.speedIntervalId == 0 && tab.activeTimers == map[]
                              && tab.media == WithVideoRate(old(tab.media), 1.0) && tab.gains == old(tab.gains)
                              && tab.built == old(tab.built)
    {
      speedSlider := 50.0;
      storedSpeed := Some(50.0);
      if tab != null {
        tab.SetVideoSpeed(1.0, false);
      }
      SpeedAnchors(math);
    }

    /** `setVolume(level)`: store the position and boost the tab's media with its gain. */
    method SetVolume(level: real, tab: Page?)
      requires tab != null ==> tab.Valid()
      modifies this`storedBoost, tab
      ensures storedBoost == Some(level)
      ensures tab != null ==> && tab.Valid() && tab.media == UnboostedAll(old(tab.media))
                              && tab.gains == BoostAll(old(tab.gains), old(tab.media), CalculateBoost(math, level))
                              && tab.built == old(tab.built) + BuiltAll(old(tab.gains), old(tab.media), CalculateBoost(math, level))
                              && tab.speedIntervalId == old(tab.speedIntervalId)
                              && tab.activeTimers == old(tab.activeTimers)
                              && tab.nextHandle == old(tab.nextHandle)
    {
      var boost := CalculateBoost(math, level);
      storedBoost := Some(level);
      if tab != null {
        tab.SetVideoVolumeBoost(boost);
      }
    }

    /** A boost preset button labelled with a percentage: its gain is `percent / 100`. */
    method SelectBoostPreset(percent: real, tab: Page?)
      requires LogsDefined(math)
      requires tab != null ==> tab.Valid()
      modifies this`boostSlider, this`storedBoost, tab
      ensures boostSlider == CalculateBoostSlider(math, percent / 100.0) && storedBoost == Some(boostSlider)
      ensures tab != null ==> && tab.Valid() && tab.media == UnboostedAll(old(tab.media))
                              && tab.gains == BoostAll(old(tab.gains), old(tab.media), CalculateBoost(math, boostSlider))
                              && tab.built == old(tab.built) + BuiltAll(old(tab.gains), old(tab.media), CalculateBoost(math, boostSlider))
                              && tab.speedIntervalId == old(tab.speedIntervalId)
                              && tab.activeTimers == old(tab.activeTimers)
                              && tab.nextHandle == old(tab.nextHandle)
      ensures percent <= 500.0 && tab != null ==>
                tab.gains == BoostAll(old(tab.gains), old(tab.media), percent / 100.0)
    {
      var boostValue := percent / 100.0;
      var boostPercent := CalculateBoostSlider(math, boostValue);
      boostSlider := boostPercent;
      SetVolume(boostPercent, tab);
      if percent <= 500.0 {
        BoostSliderRoundTrip(math, boostValue);
      }
    }

    /**
     * `disableBooster`: reset the nodes of the popup's own document, put slider
     * and store at the unity-gain position 15, and boost the tab at gain 1.
     */
    method DisableBooster(tab: Page?)
      requires tab != doc
      requires doc.Valid() && (tab != null ==> tab.Valid())
      modifies this`boostSlider, this`storedBoost, doc`gains, tab
      ensures boostSlider == 15.0 && storedBoost == Some(15.0)
      ensures CalculateBoost(math, boostSlider) == 1.0
      ensures doc.Valid() && doc.gains == ResetAll(old(doc.gains), doc.media)
      ensures tab != null ==> && tab.Valid() && tab.media == UnboostedAll(old(tab.media))
                              && tab.gains == BoostAll(old(tab.gains), old(tab.media), 1.0)
                              && tab.built == old(tab.built) + BuiltAll(old(tab.gains), old(tab.media), 1.0)
                              && tab.speedIntervalId == old(tab.speedIntervalId)
                              && tab.activeTimers == old(tab.activeTimers)
                              && tab.nextHandle == old(tab.nextHandle)
    {
      doc.ResetGains();
      boostSlider := 15.0;
      storedBoost := Some(15.0);
      if tab != null {
        tab.SetVideoVolumeBoost(1.0);
      }
      BoostAnchors(math);
    }

    /** `setValuesFromMem`, run when the popup opens: restore both sliders and apply them. */
    method Open(tab: Page?)
      requires tab != null ==> tab.Valid()
      modifies this`speedSlider, this`boostSlider, this`storedSpeed, this`storedBoost, tab
      ensures speedSlider == RestoredPosition(old(storedSpeed)) && storedSpeed == Some(speedSlider)
      ensures boostSlider == RestoredPosition(old(storedBoost)) && storedBoost == Some(boostSlider)
      ensures tab != null ==> && tab.Valid() && tab.EnforcingRate(CalculateSpeed(math, speedSlider))
                              && tab.media == UnboostedAll(old(tab.media))
                              && tab.gains == BoostAll(old(tab.gains), old(tab.media), CalculateBoost(math, boostSlider))
                              && tab.built == old(tab.built) + BuiltAll(old(tab.gains), old(tab.media), CalculateBoost(math, boostSlider))
    {
      var speed := RestoredPosition(storedSpeed);
      speedSlider := speed;
      SetSpeed(speed, tab);
      var boost := RestoredPosition(storedBoost);
      boostSlider := boost;
      SetVolume(boost, tab);
    }
  }
}
