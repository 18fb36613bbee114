# FireWall-Blocks in Dafny

A model of the rule-keeping and rule-enforcing core of FireWall-Blocks. FireWall-Blocks is an
Android firewall that blocks the network per app, in one of two operating modes:

- **SHIZUKU**: a privileged broker enforces the rules. It uses the connectivity shell chain on
  Android 13 and later. On older releases it uses an iptables chain of owner-match DROP rules when
  the broker runs as root, and a reflective call on the connectivity service otherwise.
- **VPN**: the blocked apps are routed into a local tunnel that goes nowhere.

The model has four parts:

- The **rule store** (`preferences.dfy`, class `FirewallPreferences`) keeps one key-value file per
  mode. Its keys are `<package>_wifi` and `<package>_data`. A third file holds the master switch.
  The store also supports copying one mode's rules onto the other, the blocked-package query, and
  export and import as a JSON tree.
- The **enforcement coordinator** (`enforcement.dfy`, class `ShizukuManager`) holds the
  initialisation flags and the caches for the broker UID and the reflective service. The device it
  drives is class `Device`: two iptables tables, the connectivity-shell switches and the reflective
  per-UID rules. Each shell command is a datatype (`commands.dfy`) whose text is shown to read back
  as the same value.
- The **tunnel service** (`tunnel.dfy`, class `FirewallVpnService`) holds the interface, the tracked
  network, the Wi-Fi flag and the reconfiguration guard. It decides to close the tunnel or rebuild it
  from the VPN mode's blocked set for the network class in use.
- The **main screen's list and toggle logic** has two files. `applist.dfy` holds the search filter,
  the category filter and the sort. `activity.dfy` (class `MainActivity`) holds the switch taps on
  one app or on the selection, selection mode and the copy between modes.

Background work that the screen launches (a rule through the broker, a tunnel restart, a reload of
the app list) is returned as a list of `Job` values. The model records it and does not run it.

Shared files: `wrappers.dfy` (Option), `text.dfy` (the string operations the code relies on),
`types.dfy` (`FirewallMode`, `SortFilterMode`, `AppInfo`).

Inputs the code receives from Android, the broker or the network are parameters of each call, as
the datatypes `Env`, `Connectivity` and `EstablishResult`. These are the OS release, the UID the
broker reports, whether the broker can spawn a shell, what the reflective lookup finds, which
reflective invocations throw, the default network and the capabilities of each network, the
installed packages, and the outcome of `establish()`.

## Model

All source paths are under `app/src/main/java/com/shayan/firewall/`.

| member | source | states |
|---|---|---|
| FirewallTypes.AppInfo.constructor | app/src/main/java/com/shayan/firewall/Applnfo.kt:8-17 | A new app entry carries the given identity and rule flags and is not selected |
| Text.LastIndexOf | app/src/main/java/com/shayan/firewall/FirewallPreferences.kt:84 | The result is -1 or a position holding the character, and no later position holds it |
| Text.SubstringBeforeLast | app/src/main/java/com/shayan/firewall/FirewallPreferences.kt:84 | Without the character the whole string comes back; otherwise a proper prefix that is followed by the character, with no occurrence after it |
| Text.BeforeLastOfJoin | app/src/main/java/com/shayan/firewall/FirewallPreferences.kt:84 | Cutting `p + "_" + t` at its last underscore gives back `p` when `t` has no underscore |
| Text.Lower | app/src/main/java/com/shayan/firewall/MainActivity.kt:559-563 | ASCII lowercasing: it keeps the length and folds each character on its own, only `A`..`Z` changing |
| Text.ContainsIgnoreCase | app/src/main/java/com/shayan/firewall/MainActivity.kt:544 | The case-insensitive search contains the empty query in every string and no query longer than the string |
| Text.LowerIdempotent | app/src/main/java/com/shayan/firewall/MainActivity.kt:544 | Lowercasing an already lowercased string changes nothing |
| Text.ContainsIgnoresCase | app/src/main/java/com/shayan/firewall/MainActivity.kt:544 | The search ignores case: lowercasing the name or the query first gives the same answer, and an exact occurrence of the query always matches |
| Text.IsBlank | app/src/main/java/com/shayan/firewall/MainActivity.kt:542 | The definition of `isBlank` over ASCII whitespace: a query is blank when every character is whitespace, so the empty query is blank |
| Text.LexLeReflexive | app/src/main/java/com/shayan/firewall/MainActivity.kt:560 | Every string is ordered before or equal to itself |
| Text.LexLeTotal | app/src/main/java/com/shayan/firewall/MainActivity.kt:560 | Any two strings are comparable in string order |
| Text.LexLeTransitive | app/src/main/java/com/shayan/firewall/MainActivity.kt:560 | String order is transitive |
| Text.NatToString | app/src/main/java/com/shayan/firewall/ShizukuManager.kt:142 | The rendering of a UID is a non-empty run of decimal digits |
| Text.DigitsValueOfNatToString | app/src/main/java/com/shayan/firewall/ShizukuManager.kt:142 | The digits of a natural number read back as that number |
| Text.IntRoundTrip | app/src/main/java/com/shayan/firewall/ShizukuManager.kt:142 | Rendering any integer, negative ones included, and reading it back gives the same integer |
| ShellCommands.RuleCode | app/src/main/java/com/shayan/firewall/ShizukuManager.kt:209 | The code is DENY (2) exactly when blocked and ALLOW (1) exactly when allowed |
| ShellCommands.DropRuleRoundTrip | app/src/main/java/com/shayan/firewall/ShizukuManager.kt:142-149 | The DROP rule text determines its UID, so the rules of two UIDs never coincide |
| ShellCommands.PackageNetworkingRoundTrip | app/src/main/java/com/shayan/firewall/ShizukuManager.kt:263-267 | The package-networking command names exactly its flag (`!isBlocked`) and its package |
| Preferences.GetKeyInjective | app/src/main/java/com/shayan/firewall/FirewallPreferences.kt:25-27 | Two storage keys are equal exactly when package and type are both equal |
| Preferences.BlockedAfterSet | app/src/main/java/com/shayan/firewall/FirewallPreferences.kt:74-92 | After storing true under a non-empty package's key, the blocked query for that network class returns the package |
| Preferences.BlockedWhenSet | app/src/main/java/com/shayan/firewall/FirewallPreferences.kt:74-92 | A package whose key for a class holds true is in that class's blocked set, whatever other keys the store holds |
| Preferences.BlockedExactlyWhenSet | app/src/main/java/com/shayan/firewall/FirewallPreferences.kt:74-92 | On a store written only by the setters, a package is in the query's result exactly when it is non-empty and its key for the class holds true |
| Preferences.ContributingKeyIsPackageKey | app/src/main/java/com/shayan/firewall/FirewallPreferences.kt:83-86 | On such a store, every key the query accepts is the key of the package it yields |
| Preferences.ContributingKeyHasClassSuffix | app/src/main/java/com/shayan/firewall/FirewallPreferences.kt:83-86 | On a store written only by the setters, every key the query accepts ends with `_` and the class name |
| Preferences.SuffixMatchedWithoutUnderscore | app/src/main/java/com/shayan/firewall/FirewallPreferences.kt:83 | The suffix test has no underscore, so a key such as `<p>_nowifi` holding true also puts `p` in the Wi-Fi result |
| Preferences.ConvertExported | app/src/main/java/com/shayan/firewall/FirewallPreferences.kt:93-143 | An exported all-Boolean section converts back to the same entries |
| Preferences.ExportImportRoundTrip | app/src/main/java/com/shayan/firewall/FirewallPreferences.kt:93-143 | Importing the exported tree restores both modes' files when they hold only Booleans |
| Preferences.ReadBooleanEntries | app/src/main/java/com/shayan/firewall/FirewallPreferences.kt:57-61 | The loop collects exactly the Boolean entries of the source file |
| Preferences.ReadSection | app/src/main/java/com/shayan/firewall/FirewallPreferences.kt:126-128 | Reading a section gives every member as a Boolean, or fails when some member is not one |
| Preferences.FirewallPreferences.constructor | app/src/main/java/com/shayan/firewall/FirewallPreferences.kt:8-17 | The three files open with their persisted contents |
| Preferences.FirewallPreferences.PutBoolean | app/src/main/java/com/shayan/firewall/FirewallPreferences.kt:32 | One key of the mode's file is written; the other mode's file and the master file are unchanged |
| Preferences.FirewallPreferences.SetWifiBlocked | app/src/main/java/com/shayan/firewall/FirewallPreferences.kt:31-37 | Afterwards `IsWifiBlocked(mode, p)` reads the written flag, every data flag and every other package's Wi-Fi flag read as before, and the other mode is untouched |
| Preferences.FirewallPreferences.SetDataBlocked | app/src/main/java/com/shayan/firewall/FirewallPreferences.kt:41-47 | The same as SetWifiBlocked for the data flag |
| Preferences.FirewallPreferences.IsWifiBlocked | app/src/main/java/com/shayan/firewall/FirewallPreferences.kt:35-37 | A missing key reads as not blocked, and a package whose Wi-Fi switch is on is also returned by the Wi-Fi blocked-package query |
| Preferences.FirewallPreferences.IsDataBlocked | app/src/main/java/com/shayan/firewall/FirewallPreferences.kt:45-47 | A missing key reads as not blocked, and a package whose data switch is on is also returned by the data blocked-package query |
| Preferences.FirewallPreferences.IsFirewallEnabled | app/src/main/java/com/shayan/firewall/FirewallPreferences.kt:71-73 | The master switch reads as off until it has been set |
| Preferences.FirewallPreferences.ExportAllSettings | app/src/main/java/com/shayan/firewall/FirewallPreferences.kt:93-115 | When both files hold only Booleans, each section of the exported tree converts back to its mode's file |
| Preferences.FirewallPreferences.CopySettings | app/src/main/java/com/shayan/firewall/FirewallPreferences.kt:51-63 | The destination file becomes exactly the Boolean entries of the source file. The other mode's file (also when copying a mode onto itself) and the master file are unchanged |
| Preferences.FirewallPreferences.SetFirewallEnabled | app/src/main/java/com/shayan/firewall/FirewallPreferences.kt:67-73 | The master switch reads back the written value; the mode files are unchanged |
| Preferences.FirewallPreferences.GetBlockedPackagesForNetwork | app/src/main/java/com/shayan/firewall/FirewallPreferences.kt:74-92 | The loop returns the non-empty text before the last underscore of every key that holds true and ends with the class name |
| Preferences.FirewallPreferences.ImportAllSettings | app/src/main/java/com/shayan/firewall/FirewallPreferences.kt:120-143 | Returns true exactly when both sections convert, and then each file holds exactly its section's entries. A valid SHIZUKU section is committed even when the VPN section then fails. The master file never changes |
| Enforcement.Run | app/src/main/java/com/shayan/firewall/ShizukuManager.kt:113-152 | Every iptables command keeps a chain hooked at most once, and a missing chain has no hook and no rule |
| Enforcement.SelectBackend | app/src/main/java/com/shayan/firewall/ShizukuManager.kt:274-291 | The connectivity shell exactly on release 33 and later; before it iptables exactly when the broker is UID 0, and reflection otherwise |
| Enforcement.EffectiveUid | app/src/main/java/com/shayan/firewall/ShizukuManager.kt:47-60 | A filled cache is the answer; an empty one (-1) gives the broker's UID, or -1 when asking throws |
| Enforcement.RemoveFirstCounts | app/src/main/java/com/shayan/firewall/ShizukuManager.kt:144-145 | `-D` takes away one occurrence of the UID's rule, when there is one, and nothing else |
| Enforcement.RemoveFirstCons | app/src/main/java/com/shayan/firewall/ShizukuManager.kt:144-145 | `-D` skips a leading rule of another UID |
| Enforcement.RemoveFirstSkip | app/src/main/java/com/shayan/firewall/ShizukuManager.kt:144-145 | `-D` skips a run of rules that does not hold the UID |
| Enforcement.CreateChainsHooksOnce | app/src/main/java/com/shayan/firewall/ShizukuManager.kt:113-121 | After creation the chain exists and is hooked exactly once, an existing chain keeps its rules, and creating again changes nothing |
| Enforcement.DeleteChainsRemovesAll | app/src/main/java/com/shayan/firewall/ShizukuManager.kt:129-139 | Unhook, flush and delete leave no chain, no hook and no rule |
| Enforcement.DropUpdateCounts | app/src/main/java/com/shayan/firewall/ShizukuManager.kt:141-152 | With at most one rule for the UID before, there is exactly one after when blocked and none otherwise; other UIDs' rules and the hook are unchanged |
| Enforcement.DropUpdateIdempotent | app/src/main/java/com/shayan/firewall/ShizukuManager.kt:141-152 | Repeating the per-UID update with the same arguments leaves the chain unchanged |
| Enforcement.ReflectRetryPolicy | app/src/main/java/com/shayan/firewall/ShizukuManager.kt:208-240 | At most two attempts. An unresolvable service ends the call before any invocation. A second attempt follows only when one of the first attempt's invocations threw, and an abort needs a throw in both attempts |
| Enforcement.IptablesRuleBlocks | app/src/main/java/com/shayan/firewall/ShizukuManager.kt:281-286 | An iptables rule leaves the chain hooked once, holding one DROP rule for the UID exactly when it is blocked, with other UIDs unchanged |
| Enforcement.SyncTableExact | app/src/main/java/com/shayan/firewall/ShizukuManager.kt:317-328 | From a flushed chain, the rule loop leaves one DROP rule per UID of an installed app whose SHIZUKU Wi-Fi flag is set, and nothing else |
| Enforcement.RulesReflectStep | app/src/main/java/com/shayan/firewall/ShizukuManager.kt:333-336 | One more successful invocation extends the "each UID carries its last app's rule" property by one app |
| Enforcement.ReflectionPassStep | app/src/main/java/com/shayan/firewall/ShizukuManager.kt:330-340 | One more app of the reflective pass changes no UID outside the apps seen so far, and without failures extends "each UID carries its last app's rule" by that app |
| Enforcement.WriteChainsSpec | app/src/main/java/com/shayan/firewall/ShizukuManager.kt:218-223 | After a run of invocations, exactly the written chains of the UID hold the rule and every other entry is as before |
| Enforcement.WriteChainsAppend | app/src/main/java/com/shayan/firewall/ShizukuManager.kt:212-237 | The invocations of two attempts compose: writing both runs is writing the first, then the second |
| Enforcement.WriteChainsAgree | app/src/main/java/com/shayan/firewall/ShizukuManager.kt:208-240 | A reflective call changes only the entries of its own UID, also when an attempt was cut short |
| Enforcement.ReflectWrites | app/src/main/java/com/shayan/firewall/ShizukuManager.kt:208-240 | A successful attempt sets both chains of its method. A first invocation that returned keeps its write even when the second throws and the call later aborts. Only chains of the resolved methods are written, and nothing without a service |
| Enforcement.WrittenWithoutFailure | app/src/main/java/com/shayan/firewall/ShizukuManager.kt:217-229 | When the first attempt throws nowhere, the call is exactly one invocation of the first method on its two chains |
| Enforcement.WriteChainsBothAttempts | app/src/main/java/com/shayan/firewall/ShizukuManager.kt:212-237 | After a thrown first attempt, the writes of the two attempts together are the writes of the whole call |
| Enforcement.ShizukuManager.constructor | app/src/main/java/com/shayan/firewall/ShizukuManager.kt:21-39 | Starts uninitialised, with no cached service and the UID cache empty (-1) |
| Enforcement.ShizukuManager.ClearUidCache | app/src/main/java/com/shayan/firewall/ShizukuManager.kt:41-45 | The UID cache is -1 again, and the service and both method handles are forgotten |
| Enforcement.ShizukuManager.GetShizukuUid | app/src/main/java/com/shayan/firewall/ShizukuManager.kt:47-60 | Answers from a filled cache without asking. Otherwise it caches what the broker reports, or returns -1 and caches nothing when asking throws |
| Enforcement.ShizukuManager.ExecuteShellCommand | app/src/main/java/com/shayan/firewall/ShizukuManager.kt:62-101 | A live broker applies the command's effect; otherwise the result is (-1, failure message) and nothing changes |
| Enforcement.ShizukuManager.ExecuteIptablesCommand | app/src/main/java/com/shayan/firewall/ShizukuManager.kt:103-109 | A non-root UID is refused with (-1, "Not in root mode") and changes nothing; as root the command runs |
| Enforcement.ShizukuManager.CreateIptablesChains | app/src/main/java/com/shayan/firewall/ShizukuManager.kt:113-121 | Both families' chains are created and hooked; the flag is set |
| Enforcement.ShizukuManager.ClearIptablesChains | app/src/main/java/com/shayan/firewall/ShizukuManager.kt:123-127 | Both families' chains are flushed |
| Enforcement.ShizukuManager.DeleteIptablesChains | app/src/main/java/com/shayan/firewall/ShizukuManager.kt:129-139 | Both families' chains are unhooked, flushed and deleted; the flag is cleared |
| Enforcement.ShizukuManager.ApplyIptablesRule | app/src/main/java/com/shayan/firewall/ShizukuManager.kt:141-152 | Both families get the delete-then-append-when-blocked update for the UID |
| Enforcement.ShizukuManager.GetConnectivityService | app/src/main/java/com/shayan/firewall/ShizukuManager.kt:156-206 | A cached service is returned without resolving. Otherwise `setUidFirewallRule` is preferred, and with neither method nothing is cached and the result is "none" |
| Enforcement.ShizukuManager.RefreshConnectivityService | app/src/main/java/com/shayan/firewall/ShizukuManager.kt:242-247 | The service and both method handles are forgotten |
| Enforcement.ShizukuManager.ApplyConnectivityReflectionRule | app/src/main/java/com/shayan/firewall/ShizukuManager.kt:208-240 | The retry loop ends as the policy above says. The UID's DENY/ALLOW code lands on exactly the chains the call's invocations reached, a half-finished attempt included (see ReflectWrites). The cache afterwards is as the policy says |
| Enforcement.ShizukuManager.InvokeCached | app/src/main/java/com/shayan/firewall/ShizukuManager.kt:218-226 | `setUidFirewallRule` writes chain 1, then chain 2; `setFirewallUidRule` chain 0, then chain 1. A throwing invocation ends the attempt, so a throw on the second leaves the first chain written |
| Enforcement.ShizukuManager.EnableConnectivityShellChain | app/src/main/java/com/shayan/firewall/ShizukuManager.kt:251-255 | Chain 3 is switched on and the flag is set |
| Enforcement.ShizukuManager.DisableConnectivityShellChain | app/src/main/java/com/shayan/firewall/ShizukuManager.kt:257-261 | Chain 3 is switched off and the flag is cleared |
| Enforcement.ShizukuManager.ApplyConnectivityShellRule | app/src/main/java/com/shayan/firewall/ShizukuManager.kt:263-269 | The package's networking is switched to `!isBlocked` |
| Enforcement.ShizukuManager.ApplyRule | app/src/main/java/com/shayan/firewall/ShizukuManager.kt:274-291 | Picks shell (release 33 and later), then iptables (UID 0), then reflection. Chain 3 is enabled only when not yet initialised, and iptables chains are created only when not yet initialised. Each backend's effect is stated, reflection's with its partial writes, and the other backends' state is unchanged |
| Enforcement.ShizukuManager.ApplyAllRules | app/src/main/java/com/shayan/firewall/ShizukuManager.kt:293-342 | The same backend order. Shell: chain 3 on and every installed package switched by its SHIZUKU Wi-Fi flag. iptables: the chain holds exactly the blocked installed UIDs. Reflection: every UID carries its last app's code |
| Enforcement.ShizukuManager.ReapplyIptables | app/src/main/java/com/shayan/firewall/ShizukuManager.kt:311-328 | The chain is created and hooked once when not initialised, then flushed and refilled with exactly the blocked installed UIDs |
| Enforcement.ShizukuManager.SyncConnectivityShell | app/src/main/java/com/shayan/firewall/ShizukuManager.kt:299-306 | Each installed package's switch is set to the negation of its SHIZUKU Wi-Fi flag; other packages' switches are unchanged |
| Enforcement.NetworkingSyncedStep | app/src/main/java/com/shayan/firewall/ShizukuManager.kt:299-306 | Switching one more package by its flag extends the synced set by that package and leaves the others as they were |
| Enforcement.ShizukuManager.SyncIptables | app/src/main/java/com/shayan/firewall/ShizukuManager.kt:317-324 | The loop applies one update per blocked installed app, in list order |
| Enforcement.ShizukuManager.SetReflectionRules | app/src/main/java/com/shayan/firewall/ShizukuManager.kt:330-340 | Only installed UIDs change. Without failures each UID carries its last app's code on both chains of the resolved method, and with no method nothing changes |
| Enforcement.ShizukuManager.RemoveAllRules | app/src/main/java/com/shayan/firewall/ShizukuManager.kt:344-368 | The same backend order. Chain 3 is disabled only when initialised. iptables chains are deleted only when initialised, and then no chain or hook remains. Otherwise every installed UID gets ALLOW |
| Tunnel.PlanAsWritten | app/src/main/java/com/shayan/firewall/FirewallVpnService.kt:178-229 | The code's decision: rebuild exactly when a transport is up and some package is blocked, allowing exactly the blocked packages that are installed, bound to the observed network |
| Tunnel.PlanFor | app/src/main/java/com/shayan/firewall/FirewallVpnService.kt:178-229 | The intended decision: rebuild exactly when a transport is up and some blocked package is installed, so the allowed set is never empty |
| Tunnel.PlanAsWrittenCutsOffUnblocked | app/src/main/java/com/shayan/firewall/FirewallVpnService.kt:187-229 | For every blocked set with no installed package, while a transport is up, the code as written builds a tunnel with no allowed application, which routes every installed app into it |
| Tunnel.PlanAsWrittenCutsOffBrowser | app/src/main/java/com/shayan/firewall/FirewallVpnService.kt:187-229 | The instance above: with only a removed app blocked, an unblocked browser is cut off |
| Tunnel.PlanRoutesExactlyBlocked | app/src/main/java/com/shayan/firewall/FirewallVpnService.kt:178-229 | With the corrected decision, exactly the installed blocked packages are routed into the tunnel while a transport is up, and none otherwise |
| Tunnel.PlanAgreesWhenSomeBlockedInstalled | app/src/main/java/com/shayan/firewall/FirewallVpnService.kt:187-227 | The correction decides as the code does whenever some blocked package is installed |
| Tunnel.AllowedApplications | app/src/main/java/com/shayan/firewall/FirewallVpnService.kt:220-227 | The builder's allowed list is the blocked set without the packages that are not installed |
| Tunnel.FirewallVpnService.constructor | app/src/main/java/com/shayan/firewall/FirewallVpnService.kt:87-100 | Starts in the foreground with the callback registered, no interface, no tracked network and the guard released |
| Tunnel.FirewallVpnService.CloseInterface | app/src/main/java/com/shayan/firewall/FirewallVpnService.kt:191-194 | No interface is held or open afterwards |
| Tunnel.FirewallVpnService.UpdateCurrentNetworkState | app/src/main/java/com/shayan/firewall/FirewallVpnService.kt:156-165 | Reads the tracked network, else the default one. The Wi-Fi flag is that network's Wi-Fi transport, and the result is "Wi-Fi or cellular" |
| Tunnel.FirewallVpnService.PlanNow | app/src/main/java/com/shayan/firewall/FirewallVpnService.kt:178-229 | From the present state: rebuild exactly when the observed network has a transport and the VPN file blocks some package for its class, with the installed ones of those allowed |
| Tunnel.FirewallVpnService.UpdateVpnConfiguration | app/src/main/java/com/shayan/firewall/FirewallVpnService.kt:167-243 | A call made while the guard is held changes nothing. Otherwise the guard is released on every path, the held interface is the one the code's plan yields (an empty allowed set included), and there is one establish attempt exactly when it rebuilds; at most one interface is ever open |
| Tunnel.FirewallVpnService.ApplyPlan | app/src/main/java/com/shayan/firewall/FirewallVpnService.kt:175-238 | With no transport, or no blocked package for the class, no interface is held and nothing is established. Otherwise the tunnel is rebuilt for the installed blocked packages, even when none of them is installed |
| Tunnel.FirewallVpnService.RebuildInterface | app/src/main/java/com/shayan/firewall/FirewallVpnService.kt:199-238 | The old interface is closed first. `establish()` is called once, a null or thrown result leaves no interface, and an exception never escapes |
| Tunnel.FirewallVpnService.OnAvailable | app/src/main/java/com/shayan/firewall/FirewallVpnService.kt:46-57 | Tracks the network. It reconfigures by the code's plan for that network only when the Wi-Fi flag flipped; otherwise interface, attempts and guard are unchanged |
| Tunnel.FirewallVpnService.OnLost | app/src/main/java/com/shayan/firewall/FirewallVpnService.kt:59-72 | Acts only for the tracked network, which it forgets. It closes the interface only when the default network has no Wi-Fi or cellular transport |
| Tunnel.FirewallVpnService.OnCapabilitiesChanged | app/src/main/java/com/shayan/firewall/FirewallVpnService.kt:74-84 | It reconfigures by the code's plan only when the Wi-Fi flag flipped, so a change within the same class rebuilds nothing |
| Tunnel.FirewallVpnService.StopVpn | app/src/main/java/com/shayan/firewall/FirewallVpnService.kt:144-154 | Leaves the foreground, asks to stop, and holds no interface |
| Tunnel.FirewallVpnService.OnStartCommand | app/src/main/java/com/shayan/firewall/FirewallVpnService.kt:123-142 | STOP stops, holds no interface and returns NOT_STICKY. REFRESH and any other start reconfigure by the code's plan and return STICKY |
| Tunnel.FirewallVpnService.OnDestroy | app/src/main/java/com/shayan/firewall/FirewallVpnService.kt:245-261 | Unregisters the callback and holds no interface |
| AppList.Keep | app/src/main/java/com/shayan/firewall/MainActivity.kt:543-553 | A filter keeps only apps of its input |
| AppList.KeepCounts | app/src/main/java/com/shayan/firewall/MainActivity.kt:543-553 | A filter keeps each accepted app as often as it occurs and drops every other one |
| AppList.SearchFilter | app/src/main/java/com/shayan/firewall/MainActivity.kt:541-547 | The search keeps only apps of its input (ASCII case folding and whitespace) |
| AppList.CategoryFilter | app/src/main/java/com/shayan/firewall/MainActivity.kt:549-554 | The category filter keeps only apps of its input |
| AppList.FiltersKeepMatching | app/src/main/java/com/shayan/firewall/MainActivity.kt:539-554 | Both filters together keep each app exactly as often as it occurs when it matches. The search is case-insensitive and ignored for a blank query. SYSTEM, USER and INTERNET_ONLY select by their flag, and NAME keeps all |
| AppList.KeyLeTotal | app/src/main/java/com/shayan/firewall/MainActivity.kt:556-564 | Any two apps are comparable under the sort key |
| AppList.KeyLeTransitive | app/src/main/java/com/shayan/firewall/MainActivity.kt:556-564 | The sort key order is transitive |
| AppList.Insert | app/src/main/java/com/shayan/firewall/MainActivity.kt:556-564 | Insertion adds only the inserted app |
| AppList.InsertPermutes | app/src/main/java/com/shayan/firewall/MainActivity.kt:556-564 | Insertion adds exactly one copy of the app |
| AppList.InsertSorted | app/src/main/java/com/shayan/firewall/MainActivity.kt:556-564 | Insertion into a sorted list keeps it sorted |
| AppList.SortApps | app/src/main/java/com/shayan/firewall/MainActivity.kt:556-564 | The sort returns only apps of its input |
| AppList.SortAppsPermutes | app/src/main/java/com/shayan/firewall/MainActivity.kt:556-564 | The sort is a permutation |
| AppList.SortAppsSorted | app/src/main/java/com/shayan/firewall/MainActivity.kt:556-564 | The sort result is ordered by blocked-first rank (when on), then by lowercased name |
| AppList.DisplayListSpec | app/src/main/java/com/shayan/firewall/MainActivity.kt:538-566 | The shown list is sorted, and holds each matching master app exactly as often as it occurs there and no other app |
| AppList.BlockedFirstOrder | app/src/main/java/com/shayan/firewall/MainActivity.kt:557-561 | With blocked-first on, every app with a blocked flag is shown before every app with none |
| Activity.ToggleState | app/src/main/java/com/shayan/firewall/MainActivity.kt:570-579 | In SHIZUKU mode both flags become the negation of the tapped one. In VPN mode only the tapped flag flips |
| Activity.SelectedApps | app/src/main/java/com/shayan/firewall/MainActivity.kt:582 | Holds exactly the selected master apps |
| Activity.PackagesSpec | app/src/main/java/com/shayan/firewall/MainActivity.kt:594-595 | The package list has one name per target, in order |
| Activity.RuleJobsSpec | app/src/main/java/com/shayan/firewall/MainActivity.kt:593-605 | One rule job per target, in order, each carrying the target's package and new Wi-Fi flag |
| Activity.RecordFlagsSnoc | app/src/main/java/com/shayan/firewall/MainActivity.kt:593-598 | Writing one more target is writing it on the store the earlier writes left |
| Activity.RecordFlagsSpec | app/src/main/java/com/shayan/firewall/MainActivity.kt:593-598 | After the loop's writes every target reads back both new flags and every other package reads as before |
| Activity.MainActivity.constructor | app/src/main/java/com/shayan/firewall/MainActivity.kt:63-72 | Starts in SHIZUKU mode, NAME filter, no search, blocked-first off, empty lists, not in selection mode |
| Activity.MainActivity.Targets | app/src/main/java/com/shayan/firewall/MainActivity.kt:581-589 | The targets come from the master list or are the tapped app |
| Activity.MainActivity.SortAndDisplayApps | app/src/main/java/com/shayan/firewall/MainActivity.kt:538-567 | The adapter's list becomes the display list of the current state (see AppList.DisplayListSpec) |
| Activity.MainActivity.OnDestroyActionMode | app/src/main/java/com/shayan/firewall/MainActivity.kt:651-657 | Leaves selection mode, clears every master app's selection and refreshes the list |
| Activity.MainActivity.ToggleSelection | app/src/main/java/com/shayan/firewall/MainActivity.kt:660-678 | Flips the app. When no master app remains selected, selection mode ends; otherwise nothing else changes |
| Activity.MainActivity.OnItemLongClick | app/src/main/java/com/shayan/firewall/MainActivity.kt:205-210 | Opens selection mode when closed, then toggles the app |
| Activity.MainActivity.SelectAllApps | app/src/main/java/com/shayan/firewall/MainActivity.kt:680-691 | Every shown app is deselected when all were selected, and selected otherwise |
| Activity.MainActivity.CheckShizukuAndApplyRule | app/src/main/java/com/shayan/firewall/MainActivity.kt:472-484 | With permission, one rule job for the app's current Wi-Fi flag; without, none |
| Activity.MainActivity.UpdateTarget | app/src/main/java/com/shayan/firewall/MainActivity.kt:594-598 | One target's two flags are written in the mode's file and on the target; other apps and the other mode are untouched |
| Activity.MainActivity.UpdateEach | app/src/main/java/com/shayan/firewall/MainActivity.kt:593-605 | Every target ends with the new flags in the store and on itself, in order. The rule jobs are launched only in an enabled SHIZUKU mode with permission |
| Activity.MainActivity.UpdateTargets | app/src/main/java/com/shayan/firewall/MainActivity.kt:591-609 | The loop, plus one tunnel restart after it in an enabled VPN mode whose tunnel is switched on |
| Activity.MainActivity.FinishToggle | app/src/main/java/com/shayan/firewall/MainActivity.kt:611-625 | Refreshes the list when sorted blocked-first, and ends selection mode, clearing every selection |
| Activity.MainActivity.ApplyTap | app/src/main/java/com/shayan/firewall/MainActivity.kt:591-625 | The writes, jobs and teardown of a tap with known targets and flags |
| Activity.MainActivity.OnToggleClicked | app/src/main/java/com/shayan/firewall/MainActivity.kt:570-626 | The targets are the selection (possibly empty) in selection mode, else the tapped app. Each gets both new flags in the store and on itself, no other app changes, the jobs are those above, and selection mode ends |
| Activity.MainActivity.LoadApps | app/src/main/java/com/shayan/firewall/MainActivity.kt:494-500 | Finishes an open action mode, then launches the reload job |
| Activity.MainActivity.CopySettings | app/src/main/java/com/shayan/firewall/MainActivity.kt:807-817 | The current mode's file becomes the Boolean entries of the other mode's file, which is unchanged, and the list is reloaded |

## Left out

- Process spawning, the reflective lookup and the package manager are not modelled. A command's
  effect on the device is modelled directly, and the lookup result, the installed list and
  whether listing throws are inputs.
- Enforcement.ShizukuManager.ExecuteShellCommand: returns exit code 0 and empty output for every
  command a live broker runs. The real exit code and output depend on the command. No caller reads
  them.
- The org.json text of export and import is not modelled; `ExportAllSettings` returns the tree, and
  import takes a parsed tree. A string that does not parse is a tree that is not an object.
- A stored value of another type reads as false through `Lookup`. Android's `getBoolean` would
  throw for such a value. The setters only ever store Booleans.
- Text.Lower: folds ASCII letters only and always keeps the length. Kotlin's `lowercase()` folds
  every Unicode letter and can lengthen a string (U+0130 becomes two characters), so non-ASCII app
  names sort differently from the code.
- Text.ContainsIgnoreCase: matches with the ASCII folding of Text.Lower, so a non-ASCII query can
  match where the code does not, or the reverse.
- Text.IsBlank: knows ASCII whitespace only; Kotlin's `isBlank` also accepts Unicode whitespace.
- AppList.SearchFilter: inherits the ASCII limits of Text.ContainsIgnoreCase and Text.IsBlank.
- Text.LexLe: compares Unicode scalar values, while Kotlin's `String.compareTo` compares UTF-16
  code units. The two orders differ between supplementary characters (emoji) and U+E000 to U+FFFF.
- Coroutines, `@Volatile`, `AtomicBoolean` and the `delay` calls are not modelled. Work launched
  on a background coroutine is returned as a `Job` and not run. The rule job carries the Wi-Fi flag
  at launch, while the coroutine reads `app.isWifiBlocked` when it runs. The two agree unless
  something else changes the flag in between. The reconfiguration guard is a plain boolean.
- Enforcement.ShizukuManager.ApplyAllRules: for the reflective backend, it states each UID's rule
  only when no invocation throws. With failures it states only that no other UID's rule changes;
  the per-call effect of a failure is stated by ApplyConnectivityReflectionRule.
- Enforcement.ShizukuManager.SetReflectionRules: the same restriction as ApplyAllRules.
- Enforcement.ShizukuManager.RemoveAllRules: the same restriction as ApplyAllRules for the
  reflective backend.
- Activity.MainActivity.SortAndDisplayApps: its own contract only says the adapter's list is
  recomputed from the current state. What that list holds and in which order is stated by
  AppList.DisplayListSpec about the same function.
- The enumeration in `loadApps` (package manager, labels, icons, permissions) is not modelled; it
  is the `LoadApps` job.
- The permission decision tree `checkShizukuPermission` is the parameter `shizukuPermitted`. The
  UID lookup inside the rule job is part of the `ApplyShizukuRule` job. The STOP-then-START
  sequence of `forceVpnRestart` is the `RestartVpn` job.
- `isEnabledForMode` and `isVpnEnabled` are called but not defined in the preference class. They
  are parameters of the tap. `isSortBlockedFirst` is a field of the screen.
- The UI is not modelled: views, toasts, menus, the action-mode title, toolbar visibility,
  `notifyItemChanged`, notifications and the help screen. An open action mode is represented by
  `isInSelectionMode`, which the code sets and clears together with it.
- The switch type is the datatype `Toggle` instead of the strings "wifi" and "data".
- `SortFilterMode.kt` declares `BLOCKED`, while the list code matches on `INTERNET_ONLY`. The
  model follows the list code and has NAME, SYSTEM, USER and INTERNET_ONLY.
- The tunnel's fixed configuration is not modelled: session name, address, route and DNS server.
  Neither are the notification or an exception from closing an interface, which the code swallows.
  Closing always succeeds. The network the tunnel is bound to is recorded.
- The reboot receiver is not part of this model.

## Findings

| source | as written | input that shows it | evidently intended | confidence | as-written member | corrected member |
|---|---|---|---|---|---|---|
| app/src/main/java/com/shayan/firewall/FirewallVpnService.kt:187-229 | The tunnel is rebuilt whenever the blocked set is non-empty. An uninstalled package's `addAllowedApplication` throws, which is caught and skipped. If every blocked package is uninstalled, `establish()` runs with no allowed application, and Android then routes every app into the black-hole tunnel | A Wi-Fi network is up. The VPN mode blocks only `com.removed.app`, which is not installed. `com.example.browser` is installed and not blocked. It is cut off | Close the interface, as for an empty blocked set, when no blocked package could be added | medium, not executed | Tunnel.PlanAsWrittenCutsOffUnblocked | Tunnel.PlanRoutesExactlyBlocked |

The service class follows the code as written (`PlanAsWritten`). `PlanFor` is the intended
decision, and `PlanAgreesWhenSomeBlockedInstalled` shows the two differ only on the input above.
