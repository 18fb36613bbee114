/**
 * The VPN backend. The service holds at most one tunnel interface; the apps
 * the tunnel is built for are routed into it and their traffic goes nowhere,
 * so they are cut off. Whenever the network class (Wi-Fi or mobile data)
 * changes, or the UI asks for a refresh, the tunnel is rebuilt from the VPN
 * mode's blocked set for the class now in use.
 *
 * The connectivity manager, the installed package list and the outcome of
 * `establish()` are inputs of each call.
 */
module Tunnel {

  import opened Wrappers
  import opened FirewallTypes
  import opened Preferences

  const ACTION_STOP := "com.shayan.firewall.STOP_VPN"
  const ACTION_REFRESH := "com.shayan.firewall.REFRESH_VPN"

  /** Android's `Service.START_STICKY` and `Service.START_NOT_STICKY`. */
  const START_STICKY := 1
  const START_NOT_STICKY := 2

  /** The transports a network has. */
  datatype Transports = Transports(wifi: bool, cellular: bool)

  /** The connectivity manager's view: the default network and each network's capabilities. */
  datatype Connectivity = Connectivity(activeNetwork: Option<int>, capabilities: map<int, Transports>)

  /** What `builder.establish()` does. */
  datatype EstablishResult = Established | ReturnsNull | Throws

  /** A tunnel interface: its descriptor number, the apps routed into it and the network it is bound to. */
  datatype TunnelInterface = TunnelInterface(id: nat, allowed: set<string>, underlying: Option<int>)

  /** The network the service looks at: the one it tracks, else the default one. */
  function ObservedNetwork(current: Option<int>, conn: Connectivity): Option<int> {
    if current.Some? then current else conn.activeNetwork
  }

  /** The transports of a network; no network, or one without capabilities, has none. */
  function TransportsOf(conn: Connectivity, network: Option<int>): Transports {
    if network.Some? && network.value in conn.capabilities then conn.capabilities[network.value]
    else Transports(false, false)
  }

  // ---------------------------------------------------------------------------
  // The decision procedure of one reconfiguration.

  /** Close the interface, or rebuild it for `allowed` bound to `underlying`. */
  datatype Plan = Close | Rebuild(allowed: set<string>, underlying: Option<int>)

  /**
   * The decision as written: no transport or no blocked package closes the
   * interface; otherwise a tunnel is built whose allowed applications are the
   * blocked packages that are installed.
   */
  function PlanAsWritten(hasTransport: bool, blocked: set<string>, installed: set<string>,
                         underlying: Option<int>): (r: Plan)
    ensures r.Rebuild? <==> hasTransport && blocked != {}
    ensures r.Rebuild? ==> r.allowed <= blocked && r.allowed <= installed && r.underlying == underlying
    ensures r.Rebuild? ==> forall p :: p in blocked && p in installed ==> p in r.allowed
  {
    if !hasTransport then Close
    else if blocked == {} then Close
    else Rebuild(blocked * installed, underlying)
  }

  /**
   * The evidently intended decision: a tunnel is built only when at least one
   * allowed application remains. The service follows `PlanAsWritten`; this is
   * the reference it is compared with.
   */
  function PlanFor(hasTransport: bool, blocked: set<string>, installed: set<string>,
                   underlying: Option<int>): (r: Plan)
    ensures r.Rebuild? <==> hasTransport && blocked * installed != {}
    ensures r.Rebuild? ==> r.allowed != {} && r.allowed == blocked * installed && r.underlying == underlying
  {
    if !hasTransport then Close
    else if blocked == {} then Close
    else if blocked * installed == {} then Close
    else Rebuild(blocked * installed, underlying)
  }

  /**
   * The apps whose traffic enters the tunnel. A builder given no allowed
   * application applies to every app (Android's `VpnService.Builder` only
   * restricts the tunnel once `addAllowedApplication` has succeeded).
   */
  function Routed(plan: Plan, installed: set<string>): set<string> {
    match plan
    case Close => {}
    case Rebuild(allowed, _) => if allowed == {} then installed else allowed
  }

  /**
   * As written, whenever a transport is up and packages are blocked but none
   * of them is installed, the tunnel is built with no allowed application and
   * cuts off every installed app, blocked or not.
   */
  lemma PlanAsWrittenCutsOffUnblocked(blocked: set<string>, installed: set<string>, underlying: Option<int>)
    requires blocked != {} && blocked * installed == {}
    ensures PlanAsWritten(true, blocked, installed, underlying) == Rebuild({}, underlying)
    ensures Routed(PlanAsWritten(true, blocked, installed, underlying), installed) == installed
  {
  }

  /** For instance, a browser that is not blocked loses its network when only a removed app is blocked. */
  lemma PlanAsWrittenCutsOffBrowser()
    ensures "com.example.browser" in Routed(PlanAsWritten(true, {"com.removed.app"}, {"com.example.browser"}, None),
                                            {"com.example.browser"})
  {
    var blocked: set<string> := {"com.removed.app"};
    var installed: set<string> := {"com.example.browser"};
    assert "com.removed.app" !in installed;
    assert blocked * installed == {};
    PlanAsWrittenCutsOffUnblocked(blocked, installed, None);
  }

  /**
   * With the corrected decision, while a transport is up exactly the installed
   * blocked packages are cut off, and without one nothing is.
   */
  lemma PlanRoutesExactlyBlocked(hasTransport: bool, blocked: set<string>, installed: set<string>,
                                 underlying: Option<int>)
    ensures Routed(PlanFor(hasTransport, blocked, installed, underlying), installed) ==
            if hasTransport then blocked * installed else {}
  {
  }

  /** The correction changes nothing while some blocked package is installed. */
  lemma PlanAgreesWhenSomeBlockedInstalled(hasTransport: bool, blocked: set<string>, installed: set<string>,
                                           underlying: Option<int>)
    requires blocked * installed != {}
    ensures PlanFor(hasTransport, blocked, installed, underlying) ==
            PlanAsWritten(hasTransport, blocked, installed, underlying)
  {
    assert blocked != {};
  }

  /** The interface a rebuild leaves held. */
  function Held(plan: Plan, establish: EstablishResult, id: nat): Option<TunnelInterface> {
    match plan
    case Close => None
    case Rebuild(allowed, underlying) =>
      if establish == Established then Some(TunnelInterface(id, allowed, underlying)) else None
  }

  // ---------------------------------------------------------------------------

  /**
   * The service. `openTunnels` and `establishAttempts` are the system's side:
   * the interfaces not yet closed and the number of `establish()` calls.
   */
  class FirewallVpnService {
    var vpnInterface: Option<TunnelInterface>
    var isWifiActive: bool
    var currentNetwork: Option<int>
    var isReconfiguring: bool
    var callbackRegistered: bool
    var isForeground: bool
    var stopRequested: bool
    var nextTunnelId: nat
    ghost var openTunnels: set<nat>
    ghost var establishAttempts: nat

    /** The interface held is the only one open. */
    ghost predicate Valid()
      reads this
    {
      openTunnels == (if vpnInterface.Some? then {vpnInterface.value.id} else {}) &&
      (vpnInterface.Some? ==> vpnInterface.value.id < nextTunnelId)
    }

    /** `onCreate`: runs in the foreground and registers the default-network callback. */
    constructor()
      ensures Valid()
      ensures vpnInterface == None && currentNetwork == None && !isWifiActive && !isReconfiguring
      ensures callbackRegistered && isForeground && !stopRequested
      ensures establishAttempts == 0
    {
      vpnInterface := None;
      isWifiActive := false;
      currentNetwork := None;
      isReconfiguring := false;
      callbackRegistered := true;
      isForeground := true;
      stopRequested := false;
      nextTunnelId := 0;
      openTunnels := {};
      establishAttempts := 0;
    }

    /** Closes the held interface, if any, and forgets it. */
    method CloseInterface()
      requires Valid()
      modifies this`vpnInterface, this`openTunnels
      ensures Valid()
      ensures vpnInterface == None && openTunnels == {}
    {
      if vpnInterface.Some? {
        openTunnels := openTunnels - {vpnInterface.value.id};
      }
      vpnInterface := None;
    }

    /** Reads the transports of the observed network; true when Wi-Fi or cellular is up. */
    method UpdateCurrentNetworkState(conn: Connectivity) returns (hasTransport: bool)
      modifies this`isWifiActive
      ensures isWifiActive == TransportsOf(conn, ObservedNetwork(currentNetwork, conn)).wifi
      ensures hasTransport == (TransportsOf(conn, ObservedNetwork(currentNetwork, conn)).wifi ||
                               TransportsOf(conn, ObservedNetwork(currentNetwork, conn)).cellular)
    {
      var network := ObservedNetwork(currentNetwork, conn);
      var capabilities := TransportsOf(conn, network);
      isWifiActive := capabilities.wifi;
      var isCellularActive := capabilities.cellular;
      return isWifiActive || isCellularActive;
    }

    /** The plan one reconfiguration follows from the present state, as the code decides it. */
    function PlanNow(prefs: FirewallPreferences, conn: Connectivity, installed: set<string>): (r: Plan)
      reads this, prefs
      ensures var t := TransportsOf(conn, ObservedNetwork(currentNetwork, conn));
        (r.Rebuild? <==> (t.wifi || t.cellular) && BlockedPackages(prefs.vpnPrefs, t.wifi) != {}) &&
        (r.Rebuild? ==> r.allowed == BlockedPackages(prefs.vpnPrefs, t.wifi) * installed &&
                        r.underlying == ObservedNetwork(currentNetwork, conn))
    {
      var t := TransportsOf(conn, ObservedNetwork(currentNetwork, conn));
      PlanAsWritten(t.wifi || t.cellular, BlockedPackages(prefs.vpnPrefs, t.wifi), installed,
                    ObservedNetwork(currentNetwork, conn))
    }

    /**
     * Rebuilds the tunnel for the current network class. A call made while
     * another is running returns at once; otherwise the guard is released on
     * every exit path. The interface is closed before a new one is built, so
     * at most one is ever open.
     */
    method UpdateVpnConfiguration(prefs: FirewallPreferences, conn: Connectivity, installed: set<string>,
                                  establish: EstablishResult)
      requires Valid()
      modifies this
      ensures Valid()
      ensures old(isReconfiguring) ==>
        isReconfiguring && vpnInterface == old(vpnInterface) && isWifiActive == old(isWifiActive) &&
        establishAttempts == old(establishAttempts)
      ensures !old(isReconfiguring) ==>
        var plan := old(PlanNow(prefs, conn, installed));
        !isReconfiguring &&
        isWifiActive == TransportsOf(conn, ObservedNetwork(currentNetwork, conn)).wifi &&
        vpnInterface == Held(plan, establish, old(nextTunnelId)) &&
        establishAttempts == old(establishAttempts) + (if plan.Rebuild? then 1 else 0)
      ensures currentNetwork == old(currentNetwork) && callbackRegistered == old(callbackRegistered)
      ensures isForeground == old(isForeground) && stopRequested == old(stopRequested)
    {
      if isReconfiguring {
        return;
      }
      isReconfiguring := true;
      ApplyPlan(prefs, conn, installed, establish);
      isReconfiguring := false;
    }

    /** The work done while the guard is held: read the network, then close or rebuild the tunnel. */
    method ApplyPlan(prefs: FirewallPreferences, conn: Connectivity, installed: set<string>,
                     establish: EstablishResult)
      requires Valid()
      modifies this`isWifiActive, this`vpnInterface, this`openTunnels, this`nextTunnelId, this`establishAttempts
      ensures Valid()
      ensures isWifiActive == TransportsOf(conn, ObservedNetwork(currentNetwork, conn)).wifi
      ensures vpnInterface == Held(old(PlanNow(prefs, conn, installed)), establish, old(nextTunnelId))
      ensures establishAttempts == old(establishAttempts) + (if old(PlanNow(prefs, conn, installed)).Rebuild? then 1 else 0)
    {
      var hasTransport := UpdateCurrentNetworkState(conn);
      if !hasTransport {
        CloseInterface();
      } else {
        var blockedPackages := prefs.GetBlockedPackagesForNetwork(VPN, isWifiActive);
        if blockedPackages == {} {
          CloseInterface();
        } else {
          var allowed := AllowedApplications(blockedPackages, installed);
          RebuildInterface(allowed, ObservedNetwork(currentNetwork, conn), establish);
        }
      }
    }

    /** Closes the old interface, then builds and establishes a tunnel for `allowed`. */
    method RebuildInterface(allowed: set<string>, underlying: Option<int>, establish: EstablishResult)
      requires Valid()
      modifies this`vpnInterface, this`openTunnels, this`nextTunnelId, this`establishAttempts
      ensures Valid()
      ensures vpnInterface == Held(Rebuild(allowed, underlying), establish, old(nextTunnelId))
      ensures establishAttempts == old(establishAttempts) + 1
    {
      CloseInterface();
      establishAttempts := establishAttempts + 1;
      match establish {
        case Established =>
          vpnInterface := Some(TunnelInterface(nextTunnelId, allowed, underlying));
          openTunnels := {nextTunnelId};
          nextTunnelId := nextTunnelId + 1;
        case ReturnsNull =>
          vpnInterface := None;
        case Throws =>
      }
    }

    /** A network became the default: rebuild only if the Wi-Fi/cellular class flipped. */
    method OnAvailable(network: int, prefs: FirewallPreferences, conn: Connectivity, installed: set<string>,
                       establish: EstablishResult)
      requires Valid()
      modifies this
      ensures Valid()
      ensures currentNetwork == Some(network)
      ensures isWifiActive == TransportsOf(conn, Some(network)).wifi
      ensures isWifiActive == old(isWifiActive) ==>
        vpnInterface == old(vpnInterface) && establishAttempts == old(establishAttempts) &&
        isReconfiguring == old(isReconfiguring)
      ensures isWifiActive != old(isWifiActive) && !old(isReconfiguring) ==>
        var t := TransportsOf(conn, Some(network));
        var plan := PlanAsWritten(t.wifi || t.cellular, BlockedPackages(prefs.vpnPrefs, t.wifi), installed, Some(network));
        !isReconfiguring &&
        vpnInterface == Held(plan, establish, old(nextTunnelId)) &&
        establishAttempts == old(establishAttempts) + (if plan.Rebuild? then 1 else 0)
    {
      currentNetwork := Some(network);
      var oldWifiState := isWifiActive;
      var _ := UpdateCurrentNetworkState(conn);
      if isWifiActive != oldWifiState {
        UpdateVpnConfiguration(prefs, conn, installed, establish);
      }
    }

    /**
     * A network went away. Only the tracked network counts: it is forgotten,
     * and the interface is closed when no Wi-Fi or cellular transport remains.
     */
    method OnLost(network: int, conn: Connectivity)
      requires Valid()
      modifies this
      ensures Valid()
      ensures old(currentNetwork) != Some(network) ==>
        currentNetwork == old(currentNetwork) && isWifiActive == old(isWifiActive) &&
        vpnInterface == old(vpnInterface)
      ensures old(currentNetwork) == Some(network) ==>
        var t := TransportsOf(conn, conn.activeNetwork);
        currentNetwork == None && isWifiActive == t.wifi &&
        vpnInterface == (if t.wifi || t.cellular then old(vpnInterface) else None)
      ensures establishAttempts == old(establishAttempts) && isReconfiguring == old(isReconfiguring)
    {
      if Some(network) == currentNetwork {
        currentNetwork := None;
        var hasTransport := UpdateCurrentNetworkState(conn);
        if !hasTransport {
          CloseInterface();
        }
      }
    }

    /** The default network's capabilities changed: rebuild only if the Wi-Fi/cellular class flipped. */
    method OnCapabilitiesChanged(prefs: FirewallPreferences, conn: Connectivity, installed: set<string>,
                                 establish: EstablishResult)
      requires Valid()
      modifies this
      ensures Valid()
      ensures currentNetwork == old(currentNetwork)
      ensures isWifiActive == TransportsOf(conn, ObservedNetwork(currentNetwork, conn)).wifi
      ensures isWifiActive == old(isWifiActive) ==>
        vpnInterface == old(vpnInterface) && establishAttempts == old(establishAttempts) &&
        isReconfiguring == old(isReconfiguring)
      ensures isWifiActive != old(isWifiActive) && !old(isReconfiguring) ==>
        var plan := old(PlanNow(prefs, conn, installed));
        !isReconfiguring &&
        vpnInterface == Held(plan, establish, old(nextTunnelId)) &&
        establishAttempts == old(establishAttempts) + (if plan.Rebuild? then 1 else 0)
    {
      var oldWifiState := isWifiActive;
      var _ := UpdateCurrentNetworkState(conn);
      if isWifiActive != oldWifiState {
        UpdateVpnConfiguration(prefs, conn, installed, establish);
      }
    }

    /** Leaves the foreground, asks to be stopped and closes the interface. */
    method StopVpn()
      requires Valid()
      modifies this
      ensures Valid()
      ensures vpnInterface == None && !isForeground && stopRequested
      ensures currentNetwork == old(currentNetwork) && isWifiActive == old(isWifiActive)
      ensures establishAttempts == old(establishAttempts) && isReconfiguring == old(isReconfiguring)
      ensures callbackRegistered == old(callbackRegistered)
    {
      isForeground := false;
      stopRequested := true;
      CloseInterface();
    }

    /**
     * STOP stops the service and asks not to be restarted; REFRESH rebuilds;
     * any other start (also one without an intent) re-reads the network first,
     * then rebuilds, and both ask to be restarted.
     */
    method OnStartCommand(action: Option<string>, prefs: FirewallPreferences, conn: Connectivity,
                          installed: set<string>, establish: EstablishResult)
      returns (result: int)
      requires Valid()
      modifies this
      ensures Valid()
      ensures action == Some(ACTION_STOP) ==>
        result == START_NOT_STICKY && vpnInterface == None && stopRequested && !isForeground &&
        establishAttempts == old(establishAttempts)
      ensures action != Some(ACTION_STOP) ==>
        result == START_STICKY && stopRequested == old(stopRequested) &&
        (!old(isReconfiguring) ==>
          var plan := old(PlanNow(prefs, conn, installed));
          !isReconfiguring &&
          isWifiActive == TransportsOf(conn, ObservedNetwork(currentNetwork, conn)).wifi &&
          vpnInterface == Held(plan, establish, old(nextTunnelId)) &&
          establishAttempts == old(establishAttempts) + (if plan.Rebuild? then 1 else 0)) &&
        (old(isReconfiguring) ==> vpnInterface == old(vpnInterface))
      ensures currentNetwork == old(currentNetwork)
    {
      if action == Some(ACTION_STOP) {
        StopVpn();
        return START_NOT_STICKY;
      } else if action == Some(ACTION_REFRESH) {
        UpdateVpnConfiguration(prefs, conn, installed, establish);
      } else {
        var _ := UpdateCurrentNetworkState(conn);
        UpdateVpnConfiguration(prefs, conn, installed, establish);
      }
      return START_STICKY;
    }

    /** Unregisters the callback and closes the interface. */
    method OnDestroy()
      requires Valid()
      modifies this
      ensures Valid()
      ensures vpnInterface == None && !callbackRegistered
      ensures currentNetwork == old(currentNetwork) && isWifiActive == old(isWifiActive)
      ensures establishAttempts == old(establishAttempts)
    {
      callbackRegistered := false;
      CloseInterface();
    }
  }

  /**
   * The builder's allowed-application loop: each blocked package is added,
   * and one that is not installed is skipped.
   */
  method AllowedApplications(blockedPackages: set<string>, installed: set<string>) returns (allowed: set<string>)
    ensures allowed == blockedPackages * installed
  {
    allowed := {};
    var remaining := blockedPackages;
    while remaining != {}
      invariant remaining <= blockedPackages
      invariant allowed == (blockedPackages - remaining) * installed
      decreases remaining
    {
      var pkgName :| pkgName in remaining;
      if pkgName in installed {
        allowed := allowed + {pkgName};
      }
      remaining := remaining - {pkgName};
    }
  }
}
