/**
 * The settings and the capture cycle of the main process (main.js).
 *
 * The main process keeps the hotkey and the target language in module-level
 * variables loaded from a key-value store, rebinds the global hotkey when the
 * user changes it, writes every change through to the store, and on each
 * hotkey press scales the stored capture area from logical to physical
 * pixels and picks the prompt for the translation request.
 *
 * The store is a `map<string, Value>`, the operating system's shortcut
 * registry is the set of accelerators this application holds in it, and the
 * windows are reduced to whether they can still be used. Whether the
 * operating system accepts a registration is a parameter.
 */
module MainProcess {
  import opened Wrappers
  import opened Selection

  /** What the store holds under a key: a string, or a rectangle object. */
  datatype Value = Str(s: string) | Coords(rect: Rect)

  const HotkeyKey := "hotkey"
  const LanguageKey := "targetLanguage"
  const AreaKey := "captureArea"

  const DefaultHotkey := "F1"
  const DefaultLanguage := "english"

  /**
   * The keys this program reads hold the kind of value it writes there:
   * strings for the hotkey and the language, a rectangle for the area.
   */
  predicate WellTyped(store: map<string, Value>)
  {
    (HotkeyKey in store ==> store[HotkeyKey].Str?) &&
    (LanguageKey in store ==> store[LanguageKey].Str?) &&
    (AreaKey in store ==> store[AreaKey].Coords?)
  }

  /** `store.get(key, default)` for a key that holds a string when present. */
  function LoadString(store: map<string, Value>, key: string, default: string): (v: string)
    requires key in store ==> store[key].Str?
    ensures key in store ==> store[key] == Str(v)
    ensures key !in store ==> v == default
  {
    if key in store then store[key].s else default
  }

  /** With nothing stored, the hotkey is F1 and the language English. */
  lemma DefaultSettings()
    ensures LoadString(map[], HotkeyKey, DefaultHotkey) == "F1"
    ensures LoadString(map[], LanguageKey, DefaultLanguage) == "english"
  {
  }

  // ---------------------------------------------------------------------
  // Scaling from logical to physical pixels
  // ---------------------------------------------------------------------

  type Positive = n: int | n > 0 witness 1

  /** The display's scale factor as the exact fraction num / den. */
  datatype ScaleFactor = ScaleFactor(num: int, den: Positive)

  /**
   * JavaScript's `Math.round(n / d)`: the integer nearest to n / d, with a
   * half rounded up (towards positive infinity), so -2.5 becomes -2.
   */
  function RoundDiv(n: int, d: Positive): (r: int)
    ensures 2 * d * r <= 2 * n + d < 2 * d * r + 2 * d
  {
    (2 * n + d) / (2 * d)
  }

  lemma MulStrictBound(d: Positive, k: int)
    requires d * k < d
    ensures k < 1
  {
  }

  /** The bound in `RoundDiv`'s contract pins the result down. */
  lemma RoundDivUnique(n: int, d: Positive, k: int)
    requires 2 * d * k <= 2 * n + d < 2 * d * k + 2 * d
    ensures RoundDiv(n, d) == k
  {
    var r := RoundDiv(n, d);
    assert 2 * d * (r - k) < 2 * d;
    assert 2 * d * (k - r) < 2 * d;
    MulStrictBound(2 * d, r - k);
    MulStrictBound(2 * d, k - r);
  }

  /** Rounding keeps the order of the numerators. */
  lemma RoundDivMonotone(n: int, m: int, d: Positive)
    requires n <= m
    ensures RoundDiv(n, d) <= RoundDiv(m, d)
  {
    var rn, rm := RoundDiv(n, d), RoundDiv(m, d);
    var twice: Positive := 2 * d;
    assert twice * rn <= 2 * n + d;
    assert 2 * m + d < twice * rm + twice;
    assert twice * (rn - rm) == twice * rn - twice * rm;
    MulStrictBound(twice, rn - rm);
  }

  /** When n / d is at least the integer k, so is its rounding. */
  lemma RoundDivAtLeast(n: int, d: Positive, k: int)
    requires k * d <= n
    ensures RoundDiv(n, d) >= k
  {
    var r := RoundDiv(n, d);
    var twice: Positive := 2 * d;
    assert 2 * n + d < twice * r + twice;
    assert twice * k <= 2 * n;
    assert twice * (k - r) == twice * k - twice * r;
    MulStrictBound(twice, k - r);
  }

  /** `Math.round(v * scaleFactor)`, one coordinate. */
  function ScaleCoord(v: int, f: ScaleFactor): (r: int)
    ensures 2 * f.den * r <= 2 * v * f.num + f.den < 2 * f.den * r + 2 * f.den
  {
    RoundDiv(v * f.num, f.den)
  }

  /**
   * The physical-pixel rectangle: each field, on its own, is the integer
   * nearest to that field times the scale factor, halves rounded up.
   */
  function ScaleRect(r: Rect, f: ScaleFactor): (q: Rect)
    ensures 2 * f.den * q.x <= 2 * r.x * f.num + f.den < 2 * f.den * q.x + 2 * f.den
    ensures 2 * f.den * q.y <= 2 * r.y * f.num + f.den < 2 * f.den * q.y + 2 * f.den
    ensures 2 * f.den * q.width <= 2 * r.width * f.num + f.den < 2 * f.den * q.width + 2 * f.den
    ensures 2 * f.den * q.height <= 2 * r.height * f.num + f.den < 2 * f.den * q.height + 2 * f.den
  {
    Rect(ScaleCoord(r.x, f), ScaleCoord(r.y, f), ScaleCoord(r.width, f), ScaleCoord(r.height, f))
  }

  /** A scale factor of 1 leaves a coordinate unchanged. */
  lemma ScaleByOne(v: int, f: ScaleFactor)
    requires f.num == f.den
    ensures ScaleCoord(v, f) == v
  {
    assert v * f.num == v * f.den;
    RoundDivUnique(v * f.num, f.den, v);
  }

  /** A non-negative coordinate stays non-negative under a non-negative scale factor. */
  lemma ScaleNonNegative(v: int, f: ScaleFactor)
    requires v >= 0 && f.num >= 0
    ensures ScaleCoord(v, f) >= 0
  {
  }

  /** Scaling keeps the order of coordinates. */
  lemma ScaleMonotone(v: int, w: int, f: ScaleFactor)
    requires v <= w && f.num >= 0
    ensures ScaleCoord(v, f) <= ScaleCoord(w, f)
  {
    assert v * f.num <= w * f.num by {
      assert (w - v) * f.num >= 0;
    }
    RoundDivMonotone(v * f.num, w * f.num, f.den);
  }

  /** A scale factor of at least 1 never shrinks a non-negative coordinate. */
  lemma ScaleNotShrinking(v: int, f: ScaleFactor)
    requires v >= 0 && f.num >= f.den
    ensures ScaleCoord(v, f) >= v
  {
    assert v * f.den <= v * f.num by {
      assert v * (f.num - f.den) >= 0;
    }
    RoundDivAtLeast(v * f.num, f.den, v);
  }

  /** Scaling by 1 leaves the whole rectangle unchanged. */
  lemma ScaleRectByOne(r: Rect, f: ScaleFactor)
    requires f.num == f.den
    ensures ScaleRect(r, f) == r
  {
    ScaleByOne(r.x, f);
    ScaleByOne(r.y, f);
    ScaleByOne(r.width, f);
    ScaleByOne(r.height, f);
  }

  /** A rectangle with non-negative fields scales to one with non-negative fields. */
  lemma ScaleRectNonNegative(r: Rect, f: ScaleFactor)
    requires r.x >= 0 && r.y >= 0 && r.width >= 0 && r.height >= 0 && f.num >= 0
    ensures var q := ScaleRect(r, f); q.x >= 0 && q.y >= 0 && q.width >= 0 && q.height >= 0
  {
    ScaleNonNegative(r.x, f);
    ScaleNonNegative(r.y, f);
    ScaleNonNegative(r.width, f);
    ScaleNonNegative(r.height, f);
  }

  /**
   * On a display scaled by at least 1, a saved selection (both sides above
   * 10 logical pixels) still has both sides above 10 physical pixels.
   */
  lemma SavedAreaStaysLarge(r: Rect, f: ScaleFactor)
    requires r.width > MinSide && r.height > MinSide && f.num >= f.den
    ensures ScaleRect(r, f).width > MinSide && ScaleRect(r, f).height > MinSide
  {
    ScaleNotShrinking(r.width, f);
    ScaleNotShrinking(r.height, f);
  }

  /** Halves round up, as `Math.round` does: 15 * 1.5 = 22.5 gives 23, -5 * 0.5 = -2.5 gives -2. */
  lemma RoundingExamples()
    ensures ScaleCoord(15, ScaleFactor(3, 2)) == 23
    ensures ScaleCoord(-5, ScaleFactor(1, 2)) == -2
    ensures ScaleCoord(100, ScaleFactor(5, 4)) == 125
  {
  }

  // ---------------------------------------------------------------------
  // Prompt selection
  // ---------------------------------------------------------------------

  const DefaultPrompt := "You are a helpful assistant. Translate the text from this screenshot of a video game chat. Provide only the clean translation."
  const GermanPrompt := "You are a helpful assistant. Translate the text from this screenshot of a video game chat into German. Provide only the clean translation."
  const EnglishPrompt := "You are a helpful assistant. Translate the text from this screenshot of a video game chat into English. Provide only the clean translation."

  /** The instruction sent with the screenshot, chosen by the target language. */
  function PromptFor(language: string): (p: string)
    ensures p == GermanPrompt <==> language == "german"
    ensures p == EnglishPrompt <==> language == "english"
    ensures p == DefaultPrompt <==> language != "german" && language != "english"
  {
    assert |DefaultPrompt| < |GermanPrompt| < |EnglishPrompt|;
    if language == "german" then GermanPrompt
    else if language == "english" then EnglishPrompt
    else DefaultPrompt
  }

  // ---------------------------------------------------------------------
  // The main process
  // ---------------------------------------------------------------------

  /**
   * A window reference as the handlers see it. `w && !w.isDestroyed()`
   * holds exactly of `Open`; closing a window and its 'closed' handler,
   * which sets the reference to null, are one step here, so a destroyed
   * window whose reference is still set never arises.
   */
  datatype Window = Absent | Open

  /** The 'load-settings' message sent to the translation window. */
  datatype SettingsMessage = SettingsMessage(hotkey: string, targetLanguage: string)

  /** How far one capture cycle gets in this model. */
  datatype Capture =
    | AreaNotSet                          // returned before scaling, screenshot or request
    | Request(area: Rect, prompt: string) // the crop rectangle and the prompt for the request

  class App {
    var store: map<string, Value>
    var currentHotkey: string
    var targetLanguage: string
    /** The accelerators this application holds in the global shortcut registry. */
    var shortcuts: set<string>
    var setupWindow: Window
    var translationWindow: Window
    /**
     * Whether the shortcut registry can parse a string as an accelerator;
     * `register` and `isRegistered` throw on one it cannot.
     */
    const isAccelerator: string -> bool

    /**
     * The settings in memory agree with the store wherever the store has a
     * value (every change is written through), and the only shortcut held is
     * the current hotkey, which then is a parseable accelerator.
     */
    ghost predicate Valid()
      reads this
    {
      WellTyped(store) &&
      (HotkeyKey in store ==> store[HotkeyKey] == Str(currentHotkey)) &&
      (LanguageKey in store ==> store[LanguageKey] == Str(targetLanguage)) &&
      shortcuts <= {currentHotkey} &&
      (currentHotkey in shortcuts ==> isAccelerator(currentHotkey))
    }

    /** Module load: settings from the store or their defaults, nothing registered, no windows. */
    constructor (saved: map<string, Value>, isAccelerator: string -> bool)
      requires WellTyped(saved)
      ensures Valid()
      ensures store == saved && this.isAccelerator == isAccelerator
      ensures currentHotkey == LoadString(saved, HotkeyKey, DefaultHotkey)
      ensures targetLanguage == LoadString(saved, LanguageKey, DefaultLanguage)
      ensures shortcuts == {} && setupWindow == Absent && translationWindow == Absent
    {
      store := saved;
      currentHotkey := LoadString(saved, HotkeyKey, DefaultHotkey);
      targetLanguage := LoadString(saved, LanguageKey, DefaultLanguage);
      shortcuts := {};
      setupWindow := Absent;
      translationWindow := Absent;
      this.isAccelerator := isAccelerator;
    }

    /**
     * App ready: open the translation window, try to register the hotkey
     * (`registered` says whether the operating system accepted it) and send
     * the initial settings to the window. A hotkey the registry cannot
     * parse makes `register` throw, which ends the handler before the
     * settings are sent.
     */
    method Ready(registered: bool) returns (sent: Option<SettingsMessage>)
      requires Valid()
      modifies this
      ensures Valid()
      ensures translationWindow == Open
      ensures shortcuts ==
        if isAccelerator(currentHotkey) && registered then old(shortcuts) + {currentHotkey} else old(shortcuts)
      ensures sent.Some? <==> isAccelerator(currentHotkey)
      ensures sent.Some? ==> sent.value == SettingsMessage(currentHotkey, targetLanguage)
      ensures store == old(store) && currentHotkey == old(currentHotkey)
      ensures targetLanguage == old(targetLanguage) && setupWindow == old(setupWindow)
    {
      translationWindow := Open;
      if !isAccelerator(currentHotkey) {
        return None;
      }
      if registered {
        shortcuts := shortcuts + {currentHotkey};
      }
      sent := Some(SettingsMessage(currentHotkey, targetLanguage));
    }

    /** The tray's 'Set Capture Area' item: the setup window now exists. */
    method OpenSetupWindow()
      requires Valid()
      modifies this
      ensures Valid()
      ensures setupWindow == Open
      ensures store == old(store) && currentHotkey == old(currentHotkey)
      ensures targetLanguage == old(targetLanguage) && shortcuts == old(shortcuts)
      ensures translationWindow == old(translationWindow)
    {
      setupWindow := Open;
    }

    /** The translation window's 'closed' handler drops the reference. */
    method TranslationWindowClosed()
      requires Valid()
      modifies this
      ensures Valid()
      ensures translationWindow == Absent
      ensures store == old(store) && currentHotkey == old(currentHotkey)
      ensures targetLanguage == old(targetLanguage) && shortcuts == old(shortcuts)
      ensures setupWindow == old(setupWindow)
    {
      translationWindow := Absent;
    }

    /**
     * 'save-coords': store the selection as the capture area, unchanged, and
     * close the setup window if it is still open.
     */
    method SaveCoords(coords: Rect)
      requires Valid()
      modifies this
      ensures Valid()
      ensures store == old(store)[AreaKey := Coords(coords)]
      ensures setupWindow == Absent
      ensures currentHotkey == old(currentHotkey) && targetLanguage == old(targetLanguage)
      ensures shortcuts == old(shortcuts) && translationWindow == old(translationWindow)
    {
      store := store[AreaKey := Coords(coords)];
      if setupWindow == Open {
        setupWindow := Absent;
      }
    }

    /** 'close-setup': close the setup window if it is still open; nothing is stored. */
    method CloseSetup()
      requires Valid()
      modifies this
      ensures Valid()
      ensures setupWindow == Absent
      ensures store == old(store) && currentHotkey == old(currentHotkey)
      ensures targetLanguage == old(targetLanguage) && shortcuts == old(shortcuts)
      ensures translationWindow == old(translationWindow)
    {
      if setupWindow == Open {
        setupWindow := Absent;
      }
    }

    /**
     * 'save-hotkey': release the old hotkey if it is held, adopt and store
     * the new one whatever happens next, then try to register it
     * (`registered` says whether the operating system accepted it).
     * `ok` is false when the handler throws: `isRegistered` throws on a
     * current hotkey the registry cannot parse, before anything changes, so
     * such a hotkey can never be replaced; `register` throws on a new one it
     * cannot parse, after that hotkey has been adopted and stored.
     */
    method SaveHotkey(newHotkey: string, registered: bool) returns (ok: bool)
      requires Valid()
      modifies this
      ensures Valid()
      ensures ok <==> isAccelerator(old(currentHotkey)) && isAccelerator(newHotkey)
      ensures !isAccelerator(old(currentHotkey)) ==>
        currentHotkey == old(currentHotkey) && store == old(store) && shortcuts == old(shortcuts)
      ensures isAccelerator(old(currentHotkey)) ==>
        currentHotkey == newHotkey && store == old(store)[HotkeyKey := Str(newHotkey)] &&
        shortcuts == (old(shortcuts) - {old(currentHotkey)}) +
                     (if isAccelerator(newHotkey) && registered then {newHotkey} else {})
      ensures newHotkey in shortcuts <==>
        isAccelerator(old(currentHotkey)) && isAccelerator(newHotkey) && registered
      ensures old(currentHotkey) != newHotkey ==> old(currentHotkey) !in shortcuts
      ensures targetLanguage == old(targetLanguage) && setupWindow == old(setupWindow)
      ensures translationWindow == old(translationWindow)
    {
      if !isAccelerator(currentHotkey) {
        return false;
      }
      if currentHotkey in shortcuts {
        shortcuts := shortcuts - {currentHotkey};
      }
      currentHotkey := newHotkey;
      store := store[HotkeyKey := Str(currentHotkey)];
      if !isAccelerator(currentHotkey) {
        return false;
      }
      if registered {
        shortcuts := shortcuts + {currentHotkey};
      }
      ok := true;
    }

    /** 'save-language': adopt and store the new target language; nothing else changes. */
    method SaveLanguage(newLanguage: string)
      requires Valid()
      modifies this
      ensures Valid()
      ensures targetLanguage == newLanguage
      ensures store == old(store)[LanguageKey := Str(newLanguage)]
      ensures currentHotkey == old(currentHotkey) && shortcuts == old(shortcuts)
      ensures setupWindow == old(setupWindow) && translationWindow == old(translationWindow)
    {
      targetLanguage := newLanguage;
      store := store[LanguageKey := Str(targetLanguage)];
    }

    /**
     * 'request-settings': report the current hotkey and language to the
     * translation window, if it is open; the report agrees with the store.
     */
    method RequestSettings() returns (sent: Option<SettingsMessage>)
      requires Valid()
      ensures sent.Some? <==> translationWindow == Open
      ensures sent.Some? ==> sent.value == SettingsMessage(currentHotkey, targetLanguage)
      ensures sent.Some? ==> (HotkeyKey in store ==> store[HotkeyKey] == Str(sent.value.hotkey))
      ensures sent.Some? ==> (LanguageKey in store ==> store[LanguageKey] == Str(sent.value.targetLanguage))
    {
      if translationWindow == Open {
        sent := Some(SettingsMessage(currentHotkey, targetLanguage));
      } else {
        sent := None;
      }
    }

    /**
     * The first part of a capture cycle, before the screenshot is awaited:
     * give up when no area is stored, otherwise scale the area to physical
     * pixels.
     */
    method StartCapture(scale: ScaleFactor) returns (area: Option<Rect>)
      requires Valid()
      ensures area.None? <==> AreaKey !in store
      ensures area.Some? ==> area.value == ScaleRect(store[AreaKey].rect, scale)
    {
      if AreaKey !in store {
        return None;
      }
      var rect := store[AreaKey].rect;
      area := Some(ScaleRect(rect, scale));
    }

    /**
     * The part of a capture cycle after the crop has been awaited: the
     * prompt for the target language as it is at that moment.
     */
    method ChoosePrompt() returns (prompt: string)
      ensures prompt == PromptFor(targetLanguage)
    {
      prompt := PromptFor(targetLanguage);
    }

    /**
     * A capture cycle during which no other event is handled: the area
     * check and scaling, then the prompt choice.
     */
    method CaptureAndTranslate(scale: ScaleFactor) returns (c: Capture)
      requires Valid()
      ensures c.AreaNotSet? <==> AreaKey !in store
      ensures c.Request? ==> c.area == ScaleRect(store[AreaKey].rect, scale)
      ensures c.Request? ==> c.prompt == PromptFor(targetLanguage)
    {
      var area := StartCapture(scale);
      if area.None? {
        return AreaNotSet;
      }
      var prompt := ChoosePrompt();
      c := Request(area.value, prompt);
    }

    /**
     * The operating system reports a key press: a held shortcut runs the
     * capture cycle (every registration binds the same callback).
     */
    method HotkeyPressed(key: string, scale: ScaleFactor) returns (c: Option<Capture>)
      requires Valid()
      ensures c.Some? <==> key in shortcuts
      ensures c.Some? ==> key == currentHotkey
      ensures c.Some? ==> (c.value.AreaNotSet? <==> AreaKey !in store)
      ensures c.Some? && c.value.Request? ==>
        c.value.area == ScaleRect(store[AreaKey].rect, scale) && c.value.prompt == PromptFor(targetLanguage)
    {
      if key in shortcuts {
        var cycle := CaptureAndTranslate(scale);
        c := Some(cycle);
      } else {
        c := None;
      }
    }

    /** 'will-quit': every shortcut is released. */
    method WillQuit()
      requires Valid()
      modifies this
      ensures Valid()
      ensures shortcuts == {}
      ensures store == old(store) && currentHotkey == old(currentHotkey)
      ensures targetLanguage == old(targetLanguage) && setupWindow == old(setupWindow)
      ensures translationWindow == old(translationWindow)
    {
      shortcuts := {};
    }
  }

  /**
   * Rebinding from F1 to F2 with both registrations accepted: afterwards F1
   * no longer starts a capture cycle and F2 does.
   */
  method RebindExample(scale: ScaleFactor) returns (oldFires: bool, newFires: bool)
    ensures !oldFires && newFires
  {
    var app := new App(map[], k => k == "F1" || k == "F2");
    var _ := app.Ready(true);
    var _ := app.SaveHotkey("F2", true);
    var pressedOld := app.HotkeyPressed("F1", scale);
    var pressedNew := app.HotkeyPressed("F2", scale);
    oldFires, newFires := pressedOld.Some?, pressedNew.Some?;
  }

  /**
   * Saving a hotkey the registry cannot parse: it is adopted and stored,
   * nothing is registered, and every later attempt to rebind fails without
   * changing it, so no key starts a capture cycle any more.
   */
  method UnparseableHotkeyExample(scale: ScaleFactor) returns (current: string, stored: Value, newFires: bool)
    ensures current == "Ctrl+" && stored == Str("Ctrl+") && !newFires
  {
    var app := new App(map[], k => k != "Ctrl+");
    var _ := app.Ready(true);
    var _ := app.SaveHotkey("Ctrl+", true);
    var _ := app.SaveHotkey("F2", true);
    var pressedNew := app.HotkeyPressed("F2", scale);
    current, stored, newFires := app.currentHotkey, app.store[HotkeyKey], pressedNew.Some?;
  }

  /**
   * A capture cycle started in English whose prompt is chosen after the
   * user switched to German while the screenshot was pending: the request
   * carries the German prompt.
   */
  method LanguageChangeMidCycle(area: Rect, scale: ScaleFactor) returns (prompt: string)
    ensures prompt == GermanPrompt
  {
    var app := new App(map[AreaKey := Coords(area)], k => true);
    var started := app.StartCapture(scale);
    app.SaveLanguage("german");
    prompt := app.ChoosePrompt();
  }
}
