/**
 * The theme switch of `src/components/ui/ThemeToggle.tsx`: the dark flag,
 * the `theme` entry of local storage and the `dark` class of the document
 * root. A stored value wins over the system preference; the persist effect
 * stores the current choice whenever it changes.
 */
module Theme {
  import opened Wrappers

  /** The stored entry as the truthiness test `if (saved)` sees it: present and non-empty. */
  predicate HasSaved(stored: Option<string>) {
    stored.Some? && stored.value != ""
  }

  /**
   * The `useState` initialiser: a saved value decides, else the system
   * preference; without a window, dark. A value the persist effect wrote is
   * read back as the choice it stored.
   */
  function InitialIsDark(hasWindow: bool, stored: Option<string>, systemDark: bool): (d: bool)
    ensures !hasWindow ==> d
    ensures hasWindow && HasSaved(stored) ==> (d <==> stored == Some(StoredValue(true)))
    ensures hasWindow && !HasSaved(stored) ==> d == systemDark
  {
    if !hasWindow then true
    else if HasSaved(stored) then stored.value == "dark"
    else systemDark
  }

  /**
   * The initial choice case by case: only exactly "dark" saved means dark,
   * any other saved value means light, and an empty saved value counts as
   * nothing saved.
   */
  lemma InitialChoice(hasWindow: bool, stored: Option<string>, systemDark: bool)
    ensures !hasWindow ==> InitialIsDark(hasWindow, stored, systemDark)
    ensures hasWindow && HasSaved(stored) ==>
              (InitialIsDark(hasWindow, stored, systemDark) <==> stored.value == "dark")
    ensures hasWindow && !HasSaved(stored) ==> InitialIsDark(hasWindow, stored, systemDark) == systemDark
    ensures InitialIsDark(hasWindow, Some(""), systemDark) == InitialIsDark(hasWindow, None, systemDark)
  {
  }

  /** The value the persist effect writes. */
  function StoredValue(isDark: bool): (v: string)
    ensures v == "dark" <==> isDark
    ensures v != ""
  {
    if isDark then "dark" else "light"
  }

  /** Persisting and reloading round-trips: the next mount starts with the persisted choice, whatever the system says. */
  lemma ReloadRestoresChoice(isDark: bool, systemDark: bool)
    ensures HasSaved(Some(StoredValue(isDark)))
    ensures InitialIsDark(true, Some(StoredValue(isDark)), systemDark) == isDark
  {
  }

  class ThemeToggle {
    var isDark: bool
    var stored: Option<string>
    var rootDark: bool

    /** Storage and the root class agree with `isDark`, as the persist effect leaves them. */
    ghost predicate InSync()
      reads this
    {
      stored == Some(StoredValue(isDark)) && rootDark == isDark
    }

    /**
     * Mounting: the initial choice, then, in a browser, the persist effect's
     * first run (the system listener is registered after it). Rendered without
     * a window the component is dark and no effect runs, so storage keeps what
     * it held and the document root, absent there, is modelled without the class.
     */
    constructor (hasWindow: bool, saved: Option<string>, systemDark: bool)
      ensures isDark == InitialIsDark(hasWindow, saved, systemDark)
      ensures hasWindow ==> InSync()
      ensures !hasWindow ==> stored == saved && !rootDark
    {
      isDark := InitialIsDark(hasWindow, saved, systemDark);
      stored := saved;
      rootDark := false;
      new;
      if hasWindow {
        PersistEffect();
      }
    }

    /** The persist effect: the root gets the `dark` class and storage `"dark"`, or loses it and gets `"light"`. */
    method PersistEffect()
      modifies this
      ensures isDark == old(isDark) && InSync()
    {
      if isDark {
        rootDark := true;
        stored := Some("dark");
      } else {
        rootDark := false;
        stored := Some("light");
      }
    }

    /** A click negates the flag; the persist effect follows separately. */
    method Click()
      modifies this
      ensures isDark == !old(isDark) && stored == old(stored) && rootDark == old(rootDark)
    {
      isDark := !isDark;
    }

    /** A click together with the effect it triggers. */
    method Toggle()
      modifies this
      ensures isDark == !old(isDark) && InSync()
    {
      Click();
      PersistEffect();
    }

    /** The system listener: the new preference is taken only when nothing is saved. */
    method SystemChange(matches: bool)
      modifies this
      ensures isDark == if HasSaved(old(stored)) then old(isDark) else matches
      ensures stored == old(stored) && rootDark == old(rootDark)
    {
      if !HasSaved(stored) {
        isDark := matches;
      }
    }

    /**
     * A system change together with the persist effect it triggers: the effect
     * runs only when the flag actually changed, and then stores the new choice.
     */
    method SystemChangeWithEffect(matches: bool)
      modifies this
      ensures isDark == if HasSaved(old(stored)) then old(isDark) else matches
      ensures isDark != old(isDark) ==> InSync()
      ensures isDark == old(isDark) ==> stored == old(stored) && rootDark == old(rootDark)
    {
      var before := isDark;
      SystemChange(matches);
      if isDark != before {
        PersistEffect();
      }
    }

    /** Storage cleared from outside the component (another tab, the browser's tools). */
    method StorageCleared()
      modifies this
      ensures stored == None && isDark == old(isDark) && rootDark == old(rootDark)
    {
      stored := None;
    }
  }

  /**
   * Once the persist effect has run, something is saved, so a system change
   * leaves the theme as it is; since mounting runs that effect and every click
   * is followed by it, system changes are ignored until storage is cleared.
   */
  method SystemChangeAfterPersist(t: ThemeToggle, matches: bool)
    requires t.InSync()
    modifies t
    ensures t.isDark == old(t.isDark) && t.InSync()
  {
    t.SystemChange(matches);
  }

  /**
   * With storage cleared from outside, the next system change is followed
   * again; storage stays empty only until the persist effect that a changed
   * flag triggers has run (`SystemChangeWithEffect`).
   */
  method SystemChangeAfterClearing(t: ThemeToggle, matches: bool)
    modifies t
    ensures t.isDark == matches && t.stored == None
  {
    t.StorageCleared();
    t.SystemChange(matches);
  }

  /**
   * After storage is cleared, a system change that flips the theme is followed
   * and then stored by the effect, so later system changes are ignored again;
   * one that leaves the theme as it is keeps storage empty.
   */
  method SystemChangeAfterClearingWithEffect(t: ThemeToggle, matches: bool)
    modifies t
    ensures t.isDark == matches
    ensures matches != old(t.isDark) ==> t.InSync() && HasSaved(t.stored)
    ensures matches == old(t.isDark) ==> t.stored == None
  {
    t.StorageCleared();
    t.SystemChangeWithEffect(matches);
  }
}
