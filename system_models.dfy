/**
 * The system-integration models: the tray icon's visibility and tooltip,
 * the notification policy with its bounded history, and the window's
 * minimized flag. Signals are recorded as event sequences; the clock that
 * stamps history entries is a parameter.
 */
module SystemModels {
  import opened Values
  import opened Application

  /** `QSystemTrayIcon.MessageIcon`, the values the models use. */
  datatype MessageIcon = Information | Warning | Critical

  // ---------------------------------------------------------------- tray icon

  datatype TrayEvent =
    | IconVisibilityChanged(visible: bool)
    | TooltipChanged(tooltip: string)
    | NotificationRequested(title: string, message: string, icon: MessageIcon)
    | MenuUpdateRequested

  const DEFAULT_TOOLTIP := "Desktop Utilities"

  class TrayIconModel {
    var visible: bool
    var tooltip: string
    var supportsNotifications: bool
    var events: seq<TrayEvent>

    constructor()
      ensures !visible && tooltip == DEFAULT_TOOLTIP && !supportsNotifications && events == []
    {
      visible := false;
      tooltip := DEFAULT_TOOLTIP;
      supportsNotifications := false;
      events := [];
    }

    /** `show_icon`: signals only when the icon was hidden. */
    method ShowIcon()
      modifies this
      ensures visible
      ensures events == old(events) + (if old(visible) then [] else [IconVisibilityChanged(true)])
      ensures tooltip == old(tooltip) && supportsNotifications == old(supportsNotifications)
    {
      if !visible {
        visible := true;
        events := events + [IconVisibilityChanged(true)];
      }
    }

    /** `hide_icon`: signals only when the icon was shown. */
    method HideIcon()
      modifies this
      ensures !visible
      ensures events == old(events) + (if old(visible) then [IconVisibilityChanged(false)] else [])
      ensures tooltip == old(tooltip) && supportsNotifications == old(supportsNotifications)
    {
      if visible {
        visible := false;
        events := events + [IconVisibilityChanged(false)];
      }
    }

    /** `set_tooltip`: signals only when the text differs. */
    method SetTooltip(text: string)
      modifies this
      ensures tooltip == text
      ensures events == old(events) + (if old(tooltip) == text then [] else [TooltipChanged(text)])
      ensures visible == old(visible) && supportsNotifications == old(supportsNotifications)
    {
      if tooltip != text {
        tooltip := text;
        events := events + [TooltipChanged(text)];
      }
    }

    /** `set_supports_notifications`. */
    method SetSupportsNotifications(supported: bool)
      modifies this
      ensures supportsNotifications == supported
      ensures visible == old(visible) && tooltip == old(tooltip) && events == old(events)
    {
      supportsNotifications := supported;
    }

    /** `show_notification`: forwarded only when the tray supports it. */
    method ShowNotification(title: string, message: string, icon: MessageIcon)
      modifies this
      ensures events == old(events)
        + (if old(supportsNotifications) then [NotificationRequested(title, message, icon)] else [])
      ensures visible == old(visible) && tooltip == old(tooltip) && supportsNotifications == old(supportsNotifications)
    {
      if supportsNotifications {
        events := events + [NotificationRequested(title, message, icon)];
      }
    }
  }

  // ---------------------------------------------------------------- notifications

  /** One history entry; the timestamp is the caller's clock reading. */
  datatype Notification = Notification(title: string, message: string, icon: MessageIcon, timestamp: int)

  datatype NotificationEvent =
    | NotificationShown(title: string, message: string, icon: MessageIcon)
    | NotificationSettingsChanged(settings: seq<(string, PyValue)>)

  const MAX_HISTORY := 100

  /** The last `MAX_HISTORY` entries of `h`, in order. */
  function Capped(h: seq<Notification>): (r: seq<Notification>)
    ensures |r| <= MAX_HISTORY
    ensures |r| == if |h| <= MAX_HISTORY then |h| else MAX_HISTORY
    ensures r == h[|h| - |r|..]
  {
    if |h| > MAX_HISTORY then h[|h| - MAX_HISTORY..] else h
  }

  /** Appending to a capped history and capping again is capping the whole. */
  lemma CappedAppend(h: seq<Notification>, n: Notification)
    ensures Capped(Capped(h) + [n]) == Capped(h + [n])
  {
    var a := Capped(Capped(h) + [n]);
    var b := Capped(h + [n]);
    assert |a| == |b|;
    forall i | 0 <= i < |a|
      ensures a[i] == b[i]
    {
      if i == |a| - 1 {
        assert a[i] == n == b[i];
      }
    }
  }

  /** The history after adding `added` one by one, from `h`. */
  function AfterAdding(h: seq<Notification>, added: seq<Notification>): seq<Notification>
    decreases |added|
  {
    if added == [] then h
    else AfterAdding(Capped(h + [added[0]]), added[1..])
  }

  /** However many notifications were added, the history holds the most
      recent ones, at most `MAX_HISTORY`, in the order they came. */
  lemma {:induction false} HistoryKeepsMostRecent(h: seq<Notification>, added: seq<Notification>)
    requires |h| <= MAX_HISTORY
    ensures AfterAdding(h, added) == Capped(h + added)
    decreases |added|
  {
    if added == [] {
      assert h + added == h;
    } else {
      var g := h + [added[0]];
      HistoryKeepsMostRecent(Capped(g), added[1..]);
      CappedPrefix(g, added[1..]);
      assert g + added[1..] == h + added;
      calc {
        AfterAdding(h, added);
        AfterAdding(Capped(g), added[1..]);
        Capped(Capped(g) + added[1..]);
        Capped(g + added[1..]);
      }
    }
  }

  /** Capping before appending more loses nothing the final cap keeps. */
  lemma {:induction false} CappedPrefix(h: seq<Notification>, more: seq<Notification>)
    ensures Capped(Capped(h) + more) == Capped(h + more)
    decreases |more|
  {
    if more == [] {
      assert Capped(h) + more == Capped(h);
      assert h + more == h;
    } else {
      var last := more[|more| - 1];
      var front := more[..|more| - 1];
      assert more == front + [last];
      CappedPrefix(h, front);
      assert Capped(h) + more == (Capped(h) + front) + [last];
      assert h + more == (h + front) + [last];
      CappedAppend(Capped(h) + front, last);
      CappedAppend(h + front, last);
    }
  }

  /** `should_show_notification`: script notifications follow their
      setting, startup notifications theirs, every other kind is shown. */
  predicate ShouldShow(showScript: bool, showStartup: bool, kind: string)
  {
    if kind == "script" then showScript
    else if kind == "startup" then showStartup
    else true
  }

  /** The title of a script notification. */
  function ScriptTitle(scriptName: string, success: bool): string
  {
    if success then "Script Completed: " + scriptName else "Script Failed: " + scriptName
  }

  const STARTUP_TITLE := "Desktop Utilities"
  const STARTUP_MESSAGE := "Application started in system tray. Click the tray icon to access scripts."

  class NotificationModel {
    const app: ApplicationStateModel
    var history: seq<Notification>
    var events: seq<NotificationEvent>

    predicate Valid()
      reads this
    {
      |history| <= MAX_HISTORY
    }

    constructor(app: ApplicationStateModel)
      ensures this.app == app && history == [] && events == [] && Valid()
    {
      this.app := app;
      history := [];
      events := [];
    }

    /** `should_show_notification`. */
    predicate ShouldShowNotification(kind: string)
      reads this, app, app.settings
    {
      ShouldShow(app.ShouldShowScriptNotifications(), app.ShouldShowStartupNotification(), kind)
    }

    /** `_add_to_history`. */
    method AddToHistory(title: string, message: string, icon: MessageIcon, now: int)
      requires Valid()
      modifies this
      ensures Valid()
      ensures history == Capped(old(history) + [Notification(title, message, icon, now)])
      ensures history[|history| - 1] == Notification(title, message, icon, now)
      ensures events == old(events)
    {
      history := history + [Notification(title, message, icon, now)];
      if |history| > MAX_HISTORY {
        history := history[|history| - MAX_HISTORY..];
      }
    }

    /** `show_notification`: recorded and shown only when the settings allow. */
    method ShowNotification(title: string, message: string, icon: MessageIcon, kind: string, now: int)
      requires Valid()
      modifies this
      ensures Valid()
      ensures old(ShouldShowNotification(kind)) ==>
        history == Capped(old(history) + [Notification(title, message, icon, now)])
        && events == old(events) + [NotificationShown(title, message, icon)]
      ensures !old(ShouldShowNotification(kind)) ==> history == old(history) && events == old(events)
    {
      if ShouldShowNotification(kind) {
        AddToHistory(title, message, icon, now);
        events := events + [NotificationShown(title, message, icon)];
      }
    }

    /** `show_script_notification`. */
    method ShowScriptNotification(scriptName: string, message: string, success: bool, now: int)
      requires Valid()
      modifies this
      ensures Valid()
      ensures var icon := if success then Information else Warning;
        if old(app.ShouldShowScriptNotifications()) then
          history == Capped(old(history) + [Notification(ScriptTitle(scriptName, success), message, icon, now)])
          && events == old(events) + [NotificationShown(ScriptTitle(scriptName, success), message, icon)]
        else history == old(history) && events == old(events)
    {
      var title := ScriptTitle(scriptName, success);
      var icon := if success then Information else Warning;
      ShowNotification(title, message, icon, "script", now);
    }

    /** `show_startup_notification`. */
    method ShowStartupNotification(now: int)
      requires Valid()
      modifies this
      ensures Valid()
      ensures if old(app.ShouldShowStartupNotification()) then
          history == Capped(old(history) + [Notification(STARTUP_TITLE, STARTUP_MESSAGE, Information, now)])
          && events == old(events) + [NotificationShown(STARTUP_TITLE, STARTUP_MESSAGE, Information)]
        else history == old(history) && events == old(events)
    {
      if app.ShouldShowStartupNotification() {
        ShowNotification(STARTUP_TITLE, STARTUP_MESSAGE, Information, "startup", now);
      }
    }

    /** `show_error_notification`: shown whatever the settings say. */
    method ShowErrorNotification(title: string, message: string, now: int)
      requires Valid()
      modifies this
      ensures Valid()
      ensures history == Capped(old(history) + [Notification(title, message, Critical, now)])
      ensures events == old(events) + [NotificationShown(title, message, Critical)]
    {
      AddToHistory(title, message, Critical, now);
      events := events + [NotificationShown(title, message, Critical)];
    }

    /** `show_warning_notification`: a general notification, always shown. */
    method ShowWarningNotification(title: string, message: string, now: int)
      requires Valid()
      modifies this
      ensures Valid()
      ensures history == Capped(old(history) + [Notification(title, message, Warning, now)])
      ensures events == old(events) + [NotificationShown(title, message, Warning)]
    {
      ShowNotification(title, message, Warning, "general", now);
    }

    /** `clear_notification_history`. */
    method ClearHistory()
      modifies this
      ensures Valid() && history == [] && events == old(events)
    {
      history := [];
    }

    /** `_on_behavior_settings_changed`: the new behavior settings are passed on. */
    method OnBehaviorSettingsChanged(settings: seq<(string, PyValue)>)
      modifies this
      ensures history == old(history) && events == old(events) + [NotificationSettingsChanged(settings)]
    {
      events := events + [NotificationSettingsChanged(settings)];
    }
  }

  // ---------------------------------------------------------------- window state

  datatype WindowEvent = WindowMinimizeRequested | WindowRestoreRequested

  class WindowStateModel {
    var minimized: bool
    var events: seq<WindowEvent>

    constructor()
      ensures !minimized && events == []
    {
      minimized := false;
      events := [];
    }

    /** `set_minimized`: signals only on a change, minimize or restore as
        the new state says. */
    method SetMinimized(m: bool)
      modifies this
      ensures minimized == m
      ensures events == old(events)
        + (if old(minimized) == m then [] else if m then [WindowMinimizeRequested] else [WindowRestoreRequested])
    {
      if minimized != m {
        minimized := m;
        if m {
          events := events + [WindowMinimizeRequested];
        } else {
          events := events + [WindowRestoreRequested];
        }
      }
    }
  }
}
