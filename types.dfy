/** The value types shared by the store, the coordinator and the app list. */
module FirewallTypes {

  /** The two operating modes; each keeps its own rules under its own preference file. */
  datatype FirewallMode = SHIZUKU | VPN {
    /** The name of the preference file, also the section name in an exported settings file. */
    function Key(): string {
      match this
      case SHIZUKU => "shizuku_prefs"
      case VPN => "vpn_prefs"
    }

    /** The mode the copy command reads from when this one is current. */
    function Other(): FirewallMode {
      match this
      case SHIZUKU => VPN
      case VPN => SHIZUKU
    }
  }

  /** The list filters the app list offers: NAME shows every app. */
  datatype SortFilterMode = NAME | SYSTEM | USER | INTERNET_ONLY

  /**
   * One installed application as the list shows it. The identity fields never
   * change; the two rule flags and the selection flag are updated in place by
   * the list controller. The icon is not part of the model.
   */
  class AppInfo {
    const appName: string
    const packageName: string
    const isSystemApp: bool
    const hasInternetPermission: bool
    var isWifiBlocked: bool
    var isDataBlocked: bool
    var isSelected: bool

    constructor(appName: string, packageName: string, isSystemApp: bool, hasInternetPermission: bool,
                isWifiBlocked: bool, isDataBlocked: bool)
      ensures this.appName == appName && this.packageName == packageName
      ensures this.isSystemApp == isSystemApp && this.hasInternetPermission == hasInternetPermission
      ensures this.isWifiBlocked == isWifiBlocked && this.isDataBlocked == isDataBlocked
      ensures !this.isSelected
    {
      this.appName := appName;
      this.packageName := packageName;
      this.isSystemApp := isSystemApp;
      this.hasInternetPermission := hasInternetPermission;
      this.isWifiBlocked := isWifiBlocked;
      this.isDataBlocked := isDataBlocked;
      this.isSelected := false;
    }
  }
}
