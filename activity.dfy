/**
 * The non-visual logic of the main screen: the rule toggles (one app or the
 * current selection), the selection mode, the copy of one mode's rules onto
 * the other, and the refresh of the shown list. Work the screen hands to a
 * background coroutine is recorded as a `Job` instead of being run.
 */
module Activity {

  import opened Wrappers
  import opened FirewallTypes
  import opened Preferences
  import opened AppList

  /** Which of an app's two switches was tapped. */
  datatype Toggle = WifiToggle | DataToggle

  /** Background work the screen launches: it is recorded, not performed. */
  datatype Job =
    | ApplyShizukuRule(packageName: string, isBlocked: bool)  // look up the UID, then apply the rule through the privileged backend
    | RestartVpn                                            // send STOP, then START, to the tunnel service
    | LoadApps                                              // rebuild the master list from the package manager

  /**
   * The (Wi-Fi, data) flags a tap produces. The privileged backend has a
   * single rule per app, so in SHIZUKU mode both flags take the negation of
   * the tapped one; in VPN mode only the tapped flag flips.
   */
  function ToggleState(mode: FirewallMode, toggle: Toggle, wifi: bool, data: bool): (r: (bool, bool))
    ensures mode == SHIZUKU ==> r.0 == r.1
    ensures mode == SHIZUKU && toggle == WifiToggle ==> r.0 == !wifi
    ensures mode == SHIZUKU && toggle == DataToggle ==> r.0 == !data
    ensures mode == VPN ==> r.0 == (wifi != (toggle == WifiToggle)) && r.1 == (data != (toggle == DataToggle))
  {
    var newWifi := if toggle == WifiToggle then !wifi else wifi;
    var newData := if toggle == DataToggle then !data else data;
    if mode == SHIZUKU then
      var newState := if toggle == WifiToggle then newWifi else newData;
      (newState, newState)
    else
      (newWifi, newData)
  }

  /** The apps of `s` whose selection flag is set, in list order. */
  function SelectedApps(s: seq<AppInfo>): (r: seq<AppInfo>)
    reads (set a | a in s)`isSelected
    ensures forall a | a in r :: a in s && a.isSelected
    ensures forall a | a in s && a.isSelected :: a in r
  {
    if |s| == 0 then []
    else (if s[0].isSelected then [s[0]] else []) + SelectedApps(s[1..])
  }

  /** The package names of `apps`, in order. */
  function Packages(apps: seq<AppInfo>): seq<string> {
    if |apps| == 0 then [] else Packages(apps[..|apps| - 1]) + [apps[|apps| - 1].packageName]
  }

  lemma {:induction false} PackagesSpec(apps: seq<AppInfo>)
    ensures |Packages(apps)| == |apps| && forall i | 0 <= i < |apps| :: Packages(apps)[i] == apps[i].packageName
  {
    if |apps| > 0 {
      PackagesSpec(apps[..|apps| - 1]);
    }
  }

  /** One rule job per target, each carrying the Wi-Fi flag the target was given. */
  function RuleJobs(targets: seq<AppInfo>, isBlocked: bool): seq<Job> {
    if |targets| == 0 then []
    else RuleJobs(targets[..|targets| - 1], isBlocked) + [ApplyShizukuRule(targets[|targets| - 1].packageName, isBlocked)]
  }

  lemma {:induction false} RuleJobsSpec(targets: seq<AppInfo>, isBlocked: bool)
    ensures |RuleJobs(targets, isBlocked)| == |targets|
    ensures forall i | 0 <= i < |targets| :: RuleJobs(targets, isBlocked)[i] == ApplyShizukuRule(targets[i].packageName, isBlocked)
  {
    if |targets| > 0 {
      RuleJobsSpec(targets[..|targets| - 1], isBlocked);
    }
  }

  /**
   * The jobs one tap launches: a rule job per target in SHIZUKU mode, or one
   * tunnel restart in VPN mode when the tunnel is switched on; none when the
   * mode is not enabled.
   */
  function TapJobs(mode: FirewallMode, targets: seq<AppInfo>, wifi: bool, isEnabledForMode: bool,
                   isVpnEnabled: bool, shizukuPermitted: bool): seq<Job>
  {
    (if isEnabledForMode && mode == SHIZUKU && shizukuPermitted then RuleJobs(targets, wifi) else []) +
    (if isEnabledForMode && mode == VPN && isVpnEnabled then [RestartVpn] else [])
  }

  /** The store after both flags of every package in `pkgs` are written, first to last. */
  function RecordFlags(m: Store, pkgs: seq<string>, wifi: bool, data: bool): Store {
    if |pkgs| == 0 then m
    else
      var p := pkgs[|pkgs| - 1];
      RecordFlags(m, pkgs[..|pkgs| - 1], wifi, data)[GetKey(p, WIFI) := BoolPref(wifi)][GetKey(p, DATA) := BoolPref(data)]
  }

  /** Writing one more package is writing it on the store the earlier writes left. */
  lemma RecordFlagsSnoc(m: Store, pkgs: seq<string>, p: string, wifi: bool, data: bool)
    ensures RecordFlags(m, pkgs + [p], wifi, data) == RecordFlags(RecordFlags(m, pkgs, wifi, data), [p], wifi, data)
  {
    assert (pkgs + [p])[..|pkgs|] == pkgs;
  }

  /**
   * After the writes, every listed package reads back the written flags and
   * every other package reads what it read before.
   */
  lemma {:induction false} RecordFlagsSpec(m: Store, pkgs: seq<string>, wifi: bool, data: bool)
    ensures forall q :: Lookup(RecordFlags(m, pkgs, wifi, data), GetKey(q, WIFI)) ==
                        if q in pkgs then wifi else Lookup(m, GetKey(q, WIFI))
    ensures forall q :: Lookup(RecordFlags(m, pkgs, wifi, data), GetKey(q, DATA)) ==
                        if q in pkgs then data else Lookup(m, GetKey(q, DATA))
  {
    if |pkgs| > 0 {
      var p := pkgs[|pkgs| - 1];
      var init := pkgs[..|pkgs| - 1];
      RecordFlagsSpec(m, init, wifi, data);
      assert pkgs == init + [p];
      forall q
        ensures Lookup(RecordFlags(m, pkgs, wifi, data), GetKey(q, WIFI)) ==
                if q in pkgs then wifi else Lookup(m, GetKey(q, WIFI))
        ensures Lookup(RecordFlags(m, pkgs, wifi, data), GetKey(q, DATA)) ==
                if q in pkgs then data else Lookup(m, GetKey(q, DATA))
      {
        GetKeyInjective(q, p, WIFI, WIFI);
        GetKeyInjective(q, p, WIFI, DATA);
        GetKeyInjective(q, p, DATA, WIFI);
        GetKeyInjective(q, p, DATA, DATA);
      }
    }
  }

  class MainActivity {
    const prefs: FirewallPreferences
    var currentMode: FirewallMode
    var masterAppList: seq<AppInfo>
    /** The list the adapter holds. */
    var displayed: seq<AppInfo>
    var currentSortFilterMode: SortFilterMode
    var isSortBlockedFirst: bool
    var currentSearchQuery: Option<string>
    /** Also stands for "an action mode is open": the two are set and cleared together. */
    var isInSelectionMode: bool

    constructor(prefs: FirewallPreferences)
      ensures this.prefs == prefs && currentMode == SHIZUKU
      ensures masterAppList == [] && displayed == []
      ensures currentSortFilterMode == NAME && !isSortBlockedFirst && currentSearchQuery == None
      ensures !isInSelectionMode
    {
      this.prefs := prefs;
      currentMode := SHIZUKU;
      masterAppList := [];
      displayed := [];
      currentSortFilterMode := NAME;
      isSortBlockedFirst := false;
      currentSearchQuery := None;
      isInSelectionMode := false;
    }

    /** The list shown for the current master list, search, filter and sort option. */
    function Shown(): seq<AppInfo>
      reads this`masterAppList, this`currentSearchQuery, this`currentSortFilterMode, this`isSortBlockedFirst
      reads (set a | a in masterAppList)`isWifiBlocked, (set a | a in masterAppList)`isDataBlocked
    {
      DisplayList(masterAppList, currentSearchQuery, currentSortFilterMode, isSortBlockedFirst)
    }

    /** The apps a tap on `app`'s switch applies to: the selection in selection mode, otherwise `app`. */
    function Targets(app: AppInfo): (r: seq<AppInfo>)
      reads this`masterAppList, this`isInSelectionMode, (set a | a in masterAppList)`isSelected
      ensures forall t | t in r :: t in masterAppList || t == app
    {
      if isInSelectionMode then SelectedApps(masterAppList) else [app]
    }

    /**
     * Recomputes the shown list; `DisplayListSpec` states what it holds and
     * in which order.
     */
    method SortAndDisplayApps()
      modifies this`displayed
      ensures displayed == Shown()
    {
      displayed := DisplayList(masterAppList, currentSearchQuery, currentSortFilterMode, isSortBlockedFirst);
    }

    /** Leaving selection mode clears every selection and refreshes the list; no rule flag changes. */
    method OnDestroyActionMode()
      modifies this`isInSelectionMode, this`displayed, (set a | a in masterAppList)`isSelected
      ensures !isInSelectionMode
      ensures forall a | a in masterAppList :: !a.isSelected
      ensures displayed == Shown()
    {
      isInSelectionMode := false;
      for i := 0 to |masterAppList|
        invariant !isInSelectionMode
        invariant forall j | 0 <= j < i :: !masterAppList[j].isSelected
      {
        masterAppList[i].isSelected := false;
      }
      SortAndDisplayApps();
    }

    /** After `app`'s flag flips, no master app would be selected any more. */
    ghost predicate SelectionEmptiesOnFlip(app: AppInfo)
      reads this`masterAppList, app`isSelected, (set a | a in masterAppList)`isSelected
    {
      (app in masterAppList ==> app.isSelected) &&
      forall a | a in masterAppList && a != app :: !a.isSelected
    }

    /**
     * Flips `app`'s selection; when that leaves the master list with no
     * selected app, the open action mode is finished.
     */
    method ToggleSelection(app: AppInfo)
      modifies app`isSelected, this`isInSelectionMode, this`displayed, (set a | a in masterAppList)`isSelected
      ensures app.isSelected == !old(app.isSelected)
      ensures old(isInSelectionMode && SelectionEmptiesOnFlip(app)) ==>
                !isInSelectionMode && (forall a | a in masterAppList :: !a.isSelected) && displayed == Shown()
      ensures !old(isInSelectionMode && SelectionEmptiesOnFlip(app)) ==>
                isInSelectionMode == old(isInSelectionMode) && displayed == old(displayed) &&
                forall a | a in masterAppList && a != app :: a.isSelected == old(a.isSelected)
    {
      app.isSelected := !app.isSelected;
      var selectedCount := |SelectedApps(masterAppList)|;
      if selectedCount == 0 && isInSelectionMode {
        OnDestroyActionMode();
      } else {
        assert !old(isInSelectionMode && SelectionEmptiesOnFlip(app)) by {
          if isInSelectionMode {
            var b := SelectedApps(masterAppList)[0];
            assert b in masterAppList && b.isSelected;
          }
        }
      }
    }

    /** A long press opens selection mode when it is closed, then toggles `app`. */
    method OnItemLongClick(app: AppInfo)
      modifies app`isSelected, this`isInSelectionMode, this`displayed, (set a | a in masterAppList)`isSelected
      ensures app.isSelected == !old(app.isSelected)
      ensures old(SelectionEmptiesOnFlip(app)) ==>
                !isInSelectionMode && (forall a | a in masterAppList :: !a.isSelected) && displayed == Shown()
      ensures !old(SelectionEmptiesOnFlip(app)) ==>
                isInSelectionMode && displayed == old(displayed) &&
                forall a | a in masterAppList && a != app :: a.isSelected == old(a.isSelected)
    {
      if !isInSelectionMode {
        isInSelectionMode := true;
      }
      ToggleSelection(app);
    }

    /**
     * Selects every shown app, or, when all of them already are, clears
     * the selection of every shown app.
     */
    method SelectAllApps()
      modifies (set a | a in displayed)`isSelected
      ensures forall a | a in displayed :: a.isSelected == !old(forall b | b in displayed :: b.isSelected)
    {
      var visibleApps := displayed;
      var allSelected := forall b | b in visibleApps :: b.isSelected;
      for i := 0 to |visibleApps|
        invariant forall j | 0 <= j < i :: visibleApps[j].isSelected == !allSelected
      {
        visibleApps[i].isSelected := !allSelected;
      }
    }

    /** With the privileged backend permitted, launches the rule job for `app`'s current Wi-Fi flag. */
    method CheckShizukuAndApplyRule(app: AppInfo, shizukuPermitted: bool) returns (jobs: seq<Job>)
      ensures shizukuPermitted ==> jobs == [ApplyShizukuRule(app.packageName, app.isWifiBlocked)]
      ensures !shizukuPermitted ==> jobs == []
    {
      jobs := [];
      if shizukuPermitted {
        jobs := [ApplyShizukuRule(app.packageName, app.isWifiBlocked)];
      }
    }

    /**
     * The writes of one pass of the tap loop: the two flags of one target,
     * in the rules of `mode` and on the target itself. The apps of `others`
     * other than the target keep their flags.
     */
    method UpdateTarget(mode: FirewallMode, targetApp: AppInfo, wifi: bool, data: bool, ghost others: seq<AppInfo>)
      modifies prefs, targetApp`isWifiBlocked, targetApp`isDataBlocked
      ensures targetApp.isWifiBlocked == wifi && targetApp.isDataBlocked == data
      ensures forall t | t in others && t != targetApp ::
                t.isWifiBlocked == old(t.isWifiBlocked) && t.isDataBlocked == old(t.isDataBlocked)
      ensures prefs.GetPrefs(mode) == RecordFlags(old(prefs.GetPrefs(mode)), [targetApp.packageName], wifi, data)
      ensures prefs.GetPrefs(mode.Other()) == old(prefs.GetPrefs(mode.Other()))
      ensures prefs.defaultPrefs == old(prefs.defaultPrefs)
    {
      prefs.SetWifiBlocked(mode, targetApp.packageName, wifi);
      prefs.SetDataBlocked(mode, targetApp.packageName, data);
      targetApp.isWifiBlocked := wifi;
      targetApp.isDataBlocked := data;
    }

    /**
     * Stores the flags `wifi` and `data` for every target, first to last, in
     * the rules of `mode` and on the target itself; returns the rule job of
     * each target when the mode is SHIZUKU and enabled and the privileged
     * backend is permitted.
     */
    method UpdateEach(mode: FirewallMode, targets: seq<AppInfo>, wifi: bool, data: bool, isEnabledForCurrentMode: bool,
                      shizukuPermitted: bool) returns (jobs: seq<Job>)
      modifies prefs, (set t | t in targets)`isWifiBlocked, (set t | t in targets)`isDataBlocked
      ensures forall t | t in targets :: t.isWifiBlocked == wifi && t.isDataBlocked == data
      ensures prefs.GetPrefs(mode) == RecordFlags(old(prefs.GetPrefs(mode)), Packages(targets), wifi, data)
      ensures prefs.GetPrefs(mode.Other()) == old(prefs.GetPrefs(mode.Other()))
      ensures prefs.defaultPrefs == old(prefs.defaultPrefs)
      ensures jobs == if isEnabledForCurrentMode && mode == SHIZUKU && shizukuPermitted then RuleJobs(targets, wifi) else []
    {
      var launchRules := isEnabledForCurrentMode && mode == SHIZUKU && shizukuPermitted;
      jobs := [];
      for i := 0 to |targets|
        invariant forall t | t in targets[..i] :: t.isWifiBlocked == wifi && t.isDataBlocked == data
        invariant prefs.GetPrefs(mode) == RecordFlags(old(prefs.GetPrefs(mode)), Packages(targets[..i]), wifi, data)
        invariant prefs.GetPrefs(mode.Other()) == old(prefs.GetPrefs(mode.Other()))
        invariant prefs.defaultPrefs == old(prefs.defaultPrefs)
        invariant jobs == if launchRules then RuleJobs(targets[..i], wifi) else []
      {
        UpdateTarget(mode, targets[i], wifi, data, targets[..i]);
        if isEnabledForCurrentMode && mode == SHIZUKU {
          var launchedJobs := CheckShizukuAndApplyRule(targets[i], shizukuPermitted);
          jobs := jobs + launchedJobs;
        }
        assert targets[..i + 1][..i] == targets[..i];
        RecordFlagsSnoc(old(prefs.GetPrefs(mode)), Packages(targets[..i]), targets[i].packageName, wifi, data);
      }
      assert targets[..|targets|] == targets;
    }

    /**
     * The writes of a tap: every target's flags in the current mode's rules;
     * returns the rule jobs (SHIZUKU) or one tunnel restart (VPN, when the
     * tunnel is switched on), all only when the mode is enabled.
     */
    method UpdateTargets(targets: seq<AppInfo>, wifi: bool, data: bool, isEnabledForCurrentMode: bool,
                         isVpnEnabled: bool, shizukuPermitted: bool) returns (jobs: seq<Job>)
      modifies prefs, (set t | t in targets)`isWifiBlocked, (set t | t in targets)`isDataBlocked
      ensures forall t | t in targets :: t.isWifiBlocked == wifi && t.isDataBlocked == data
      ensures prefs.GetPrefs(currentMode) == RecordFlags(old(prefs.GetPrefs(currentMode)), Packages(targets), wifi, data)
      ensures prefs.GetPrefs(currentMode.Other()) == old(prefs.GetPrefs(currentMode.Other()))
      ensures prefs.defaultPrefs == old(prefs.defaultPrefs)
      ensures jobs == TapJobs(currentMode, targets, wifi, isEnabledForCurrentMode, isVpnEnabled, shizukuPermitted)
    {
      jobs := UpdateEach(currentMode, targets, wifi, data, isEnabledForCurrentMode, shizukuPermitted);
      if isEnabledForCurrentMode && currentMode == VPN {
        // forceVpnRestart returns at once when the tunnel is switched off.
        if isVpnEnabled {
          jobs := jobs + [RestartVpn];
        }
      }
    }

    /** The end of a tap: the list is refreshed when sorted blocked-first, and selection mode is finished. */
    method FinishToggle()
      modifies this`displayed, this`isInSelectionMode, (set a | a in masterAppList)`isSelected
      ensures !isInSelectionMode
      ensures forall a | a in masterAppList :: a.isSelected == (!old(isInSelectionMode) && old(a.isSelected))
      ensures displayed == if old(isInSelectionMode) || isSortBlockedFirst then Shown() else old(displayed)
    {
      if isSortBlockedFirst {
        SortAndDisplayApps();
      }
      if isInSelectionMode {
        OnDestroyActionMode();
      }
    }

    /** The effect of a tap once its targets and flags are known. */
    method ApplyTap(targets: seq<AppInfo>, wifi: bool, data: bool, isEnabledForCurrentMode: bool, isVpnEnabled: bool,
                    shizukuPermitted: bool) returns (jobs: seq<Job>)
      modifies prefs, (set t | t in targets)`isWifiBlocked, (set t | t in targets)`isDataBlocked
      modifies (set a | a in masterAppList)`isSelected
      modifies this`displayed, this`isInSelectionMode
      ensures forall t | t in targets :: t.isWifiBlocked == wifi && t.isDataBlocked == data
      ensures forall a | a in masterAppList && a !in targets ::
                a.isWifiBlocked == old(a.isWifiBlocked) && a.isDataBlocked == old(a.isDataBlocked)
      ensures prefs.GetPrefs(currentMode) == RecordFlags(old(prefs.GetPrefs(currentMode)), Packages(targets), wifi, data)
      ensures prefs.GetPrefs(currentMode.Other()) == old(prefs.GetPrefs(currentMode.Other()))
      ensures prefs.defaultPrefs == old(prefs.defaultPrefs)
      ensures jobs == TapJobs(currentMode, targets, wifi, isEnabledForCurrentMode, isVpnEnabled, shizukuPermitted)
      ensures !isInSelectionMode
      ensures forall a | a in masterAppList :: a.isSelected == (!old(isInSelectionMode) && old(a.isSelected))
      ensures displayed == if old(isInSelectionMode) || isSortBlockedFirst then Shown() else old(displayed)
    {
      jobs := UpdateTargets(targets, wifi, data, isEnabledForCurrentMode, isVpnEnabled, shizukuPermitted);
      FinishToggle();
    }

    /**
     * A tap on one of `app`'s switches: computes the new flags from `app`,
     * stores them for every target, launches the rule jobs (SHIZUKU) or the
     * tunnel restart (VPN) when the mode is enabled, refreshes the list when
     * it is sorted blocked-first, and ends selection mode. The ghost results
     * name the targets and the two flags they were given.
     */
    method OnToggleClicked(app: AppInfo, toggle: Toggle, isEnabledForCurrentMode: bool, isVpnEnabled: bool,
                           shizukuPermitted: bool)
      returns (jobs: seq<Job>, ghost targets: seq<AppInfo>, ghost wifi: bool, ghost data: bool)
      modifies prefs, (set a | a in masterAppList)`isWifiBlocked, (set a | a in masterAppList)`isDataBlocked
      modifies (set a | a in masterAppList)`isSelected, app`isWifiBlocked, app`isDataBlocked
      modifies this`displayed, this`isInSelectionMode
      ensures targets == old(Targets(app))
      ensures (wifi, data) == ToggleState(currentMode, toggle, old(app.isWifiBlocked), old(app.isDataBlocked))
      ensures forall t | t in targets :: t.isWifiBlocked == wifi && t.isDataBlocked == data
      ensures forall a | a in masterAppList && a !in targets ::
                a.isWifiBlocked == old(a.isWifiBlocked) && a.isDataBlocked == old(a.isDataBlocked)
      ensures prefs.GetPrefs(currentMode) == RecordFlags(old(prefs.GetPrefs(currentMode)), Packages(targets), wifi, data)
      ensures prefs.GetPrefs(currentMode.Other()) == old(prefs.GetPrefs(currentMode.Other()))
      ensures prefs.defaultPrefs == old(prefs.defaultPrefs)
      ensures jobs == TapJobs(currentMode, targets, wifi, isEnabledForCurrentMode, isVpnEnabled, shizukuPermitted)
      ensures !isInSelectionMode
      ensures forall a | a in masterAppList :: a.isSelected == (!old(isInSelectionMode) && old(a.isSelected))
      ensures displayed == if old(isInSelectionMode) || isSortBlockedFirst then Shown() else old(displayed)
    {
      var (finalWifiState, finalDataState) := ToggleState(currentMode, toggle, app.isWifiBlocked, app.isDataBlocked);
      var targetApps := if isInSelectionMode then SelectedApps(masterAppList) else [app];
      // Can never fire: outside selection mode the targets are [app].
      if |targetApps| == 0 && !isInSelectionMode {
        targetApps := [app];
      }
      targets, wifi, data := targetApps, finalWifiState, finalDataState;
      assert forall t | t in targetApps :: t in masterAppList || t == app;
      jobs := ApplyTap(targetApps, finalWifiState, finalDataState, isEnabledForCurrentMode, isVpnEnabled, shizukuPermitted);
    }

    /**
     * Finishes the action mode, then launches a rebuild of the master list
     * from the package manager; the rebuild itself is not modelled.
     */
    method LoadApps() returns (jobs: seq<Job>)
      modifies (set a | a in masterAppList)`isSelected, this`isInSelectionMode, this`displayed
      ensures jobs == [Job.LoadApps]
      ensures !isInSelectionMode
      ensures old(isInSelectionMode) ==> (forall a | a in masterAppList :: !a.isSelected) && displayed == Shown()
      ensures !old(isInSelectionMode) ==> displayed == old(displayed)
    {
      if isInSelectionMode {
        OnDestroyActionMode();
      }
      jobs := [Job.LoadApps];
    }

    /** Copies the other mode's rules onto the current mode, then reloads the app list. */
    method CopySettings() returns (jobs: seq<Job>)
      modifies prefs, (set a | a in masterAppList)`isSelected, this`isInSelectionMode, this`displayed
      ensures prefs.GetPrefs(currentMode) == BoolEntries(old(prefs.GetPrefs(currentMode.Other())))
      ensures prefs.GetPrefs(currentMode.Other()) == old(prefs.GetPrefs(currentMode.Other()))
      ensures prefs.defaultPrefs == old(prefs.defaultPrefs)
      ensures jobs == [Job.LoadApps]
      ensures !isInSelectionMode
      ensures old(isInSelectionMode) ==> (forall a | a in masterAppList :: !a.isSelected) && displayed == Shown()
      ensures !old(isInSelectionMode) ==> displayed == old(displayed)
    {
      prefs.CopySettings(currentMode.Other(), currentMode);
      jobs := LoadApps();
    }
  }
}
