/**
 * The rule store. Each operating mode keeps a key-value preference file whose
 * keys are `<package>_wifi` and `<package>_data` and whose values say whether
 * that package is blocked on that network class. A third file holds the master
 * firewall switch. Settings are exported and imported as a JSON object with
 * one member per mode; the text form of JSON is not modelled, the parsed tree is.
 */
module Preferences {

  import opened Wrappers
  import opened Text
  import opened FirewallTypes

  /** A stored preference value: a Boolean, or a value of any other type. */
  datatype PrefValue = BoolPref(b: bool) | OtherPref

  /** The contents of one preference file. */
  type Store = map<string, PrefValue>

  const WIFI := "wifi"
  const DATA := "data"
  const FIREWALL_ENABLED_KEY := "is_firewall_enabled"

  /** The storage key of one package and one network class. */
  function GetKey(packageName: string, kind: string): string {
    packageName + "_" + kind
  }

  /** The network-class suffix used for Wi-Fi (`true`) or mobile data (`false`). */
  function KindOf(isWifi: bool): string {
    if isWifi then WIFI else DATA
  }

  /** `getBoolean(key, false)`: a missing key reads as false. */
  predicate Lookup(m: Store, key: string) {
    key in m && m[key] == BoolPref(true)
  }

  /** The Boolean entries of a store, the only ones a copy carries over. */
  function BoolEntries(m: Store): Store {
    map k | k in m && m[k].BoolPref? :: m[k]
  }

  /** The key of one package and class determines the package and the class. */
  lemma GetKeyInjective(p: string, q: string, s: string, t: string)
    requires s in {WIFI, DATA} && t in {WIFI, DATA}
    ensures GetKey(p, s) == GetKey(q, t) <==> p == q && s == t
  {
    if GetKey(p, s) == GetKey(q, t) {
      var k := GetKey(p, s);
      assert k[|k| - 1] == s[3] && k[|k| - 1] == t[3];
      assert |p| == |q|;
      assert p == k[..|p|] == q;
    }
  }

  /**
   * A key takes part in the blocked-package query for a network class when its
   * value is true, it ends with the class name (no underscore is required) and
   * the text before its last underscore is not empty.
   */
  predicate Contributes(m: Store, k: string, isWifi: bool) {
    k in m && m[k] == BoolPref(true) && EndsWith(k, KindOf(isWifi)) && SubstringBeforeLast(k, '_') != ""
  }

  /** The packages contributed by the keys in `keys`. */
  function BlockedFrom(m: Store, keys: set<string>, isWifi: bool): set<string> {
    set k | k in keys && Contributes(m, k, isWifi) :: SubstringBeforeLast(k, '_')
  }

  /** The blocked-package set of a store for one network class. */
  function BlockedPackages(m: Store, isWifi: bool): set<string> {
    BlockedFrom(m, m.Keys, isWifi)
  }

  /** Storing `true` under a package's key puts that package in the blocked set of its class. */
  lemma BlockedAfterSet(m: Store, p: string, isWifi: bool)
    requires p != ""
    ensures p in BlockedPackages(m[GetKey(p, KindOf(isWifi)) := BoolPref(true)], isWifi)
  {
    var kind := KindOf(isWifi);
    var k := GetKey(p, kind);
    var m' := m[k := BoolPref(true)];
    BeforeLastOfJoin(p, '_', kind);
    assert k == p + ['_'] + kind;
    assert k[|k| - |kind|..] == kind;
    assert Contributes(m', k, isWifi);
  }

  /** Every key of the store has the shape `<package>_wifi` or `<package>_data`. */
  predicate WellKeyed(m: Store) {
    forall k :: k in m ==> EndsWith(k, "_" + WIFI) || EndsWith(k, "_" + DATA)
  }

  /** A package whose key holds true is in the blocked set of its class, whatever else the store holds. */
  lemma BlockedWhenSet(m: Store, p: string, isWifi: bool)
    requires p != "" && Lookup(m, GetKey(p, KindOf(isWifi)))
    ensures p in BlockedPackages(m, isWifi)
  {
    BlockedAfterSet(m, p, isWifi);
    assert m[GetKey(p, KindOf(isWifi)) := BoolPref(true)] == m;
  }

  /**
   * On a store written only through the setters, a package is in the blocked
   * set of a class exactly when its name is not empty and its key for that
   * class holds true.
   */
  lemma BlockedExactlyWhenSet(m: Store, p: string, isWifi: bool)
    requires WellKeyed(m)
    ensures p in BlockedPackages(m, isWifi) <==> p != "" && Lookup(m, GetKey(p, KindOf(isWifi)))
  {
    if p != "" && Lookup(m, GetKey(p, KindOf(isWifi))) {
      BlockedWhenSet(m, p, isWifi);
    }
    if p in BlockedPackages(m, isWifi) {
      var k :| k in m && Contributes(m, k, isWifi) && SubstringBeforeLast(k, '_') == p;
      ContributingKeyIsPackageKey(m, k, isWifi);
    }
  }

  /** A string that ends with `t` ends with `t`'s last character. */
  lemma LastOfSuffix(s: string, t: string)
    requires |t| > 0
    ensures EndsWith(s, t) ==> s[|s| - 1] == t[|t| - 1]
  {
    if EndsWith(s, t) {
      assert s[|s| - |t|..][|t| - 1] == s[|s| - 1];
    }
  }

  /** A string that ends with `t` is its part before `t` followed by `t`. */
  lemma SplitAtSuffix(s: string, t: string)
    requires EndsWith(s, t)
    ensures s == s[..|s| - |t|] + t
  {
  }

  lemma NoUnderscoreInKind(isWifi: bool)
    ensures '_' !in KindOf(isWifi)
  {
    var kind := KindOf(isWifi);
    forall j | 0 <= j < |kind|
      ensures kind[j] != '_'
    {
    }
  }

  /** In a well-keyed store, a contributing key is the key of the package it contributes. */
  lemma ContributingKeyIsPackageKey(m: Store, k: string, isWifi: bool)
    requires WellKeyed(m) && Contributes(m, k, isWifi)
    ensures k == GetKey(SubstringBeforeLast(k, '_'), KindOf(isWifi))
  {
    var kind := KindOf(isWifi);
    var tail := "_" + kind;
    ContributingKeyHasClassSuffix(m, k, isWifi);
    SplitAtSuffix(k, tail);
    var q := k[..|k| - |tail|];
    assert q + ("_" + kind) == q + "_" + kind;
    NoUnderscoreInKind(isWifi);
    BeforeLastOfJoin(q, '_', kind);
  }

  /** In a well-keyed store, a contributing key ends with `_` and the class name. */
  lemma ContributingKeyHasClassSuffix(m: Store, k: string, isWifi: bool)
    requires WellKeyed(m) && Contributes(m, k, isWifi)
    ensures EndsWith(k, "_" + KindOf(isWifi))
  {
    var kind := KindOf(isWifi);
    var other := if isWifi then DATA else WIFI;
    assert EndsWith(k, "_" + kind) || EndsWith(k, "_" + other);
    LastOfSuffix(k, kind);
    LastOfSuffix(k, "_" + other);
  }

  /** A key ending in the class name without an underscore still counts, e.g. `<p>_nowifi`. */
  lemma SuffixMatchedWithoutUnderscore(m: Store, p: string)
    requires p != ""
    ensures p in BlockedPackages(m[p + "_nowifi" := BoolPref(true)], true)
  {
    var k := p + "_nowifi";
    var m' := m[k := BoolPref(true)];
    assert k == p + ['_'] + "nowifi";
    BeforeLastOfJoin(p, '_', "nowifi");
    NowifiEndsWithWifi(p);
    assert Contributes(m', k, true);
    assert k in m'.Keys;
  }

  lemma NowifiEndsWithWifi(p: string)
    ensures EndsWith(p + "_nowifi", WIFI)
  {
    var k := p + "_nowifi";
    assert k[|k| - 4..] == "_nowifi"[3..];
  }

  // ---------------------------------------------------------------------------
  // Settings files: a parsed JSON tree.

  datatype JsonValue =
    | JBool(b: bool)
    | JString(s: string)
    | JObject(fields: map<string, JsonValue>)
    | JOther                                  // numbers, arrays and null

  /** `JSONObject.getBoolean`: a Boolean, or the strings "true"/"false" in any case; anything else throws. */
  function JsonBoolean(v: JsonValue): Option<bool> {
    match v
    case JBool(b) => Some(b)
    case JString(s) =>
      if Lower(s) == "true" then Some(true)
      else if Lower(s) == "false" then Some(false)
      else None
    case _ => None
  }

  /** The store an imported section becomes, or None when some member is not a Boolean. */
  function ConvertObject(obj: map<string, JsonValue>): Option<Store> {
    if forall k :: k in obj ==> JsonBoolean(obj[k]).Some?
    then Some(map k | k in obj :: BoolPref(JsonBoolean(obj[k]).value))
    else None
  }

  /** The store imported for one mode's section, or None when `getJSONObject` or `getBoolean` throws. */
  function ConvertSection(root: JsonValue, section: string): Option<Store> {
    if root.JObject? && section in root.fields && root.fields[section].JObject?
    then ConvertObject(root.fields[section].fields)
    else None
  }

  function ToJson(v: PrefValue): JsonValue {
    match v
    case BoolPref(b) => JBool(b)
    case OtherPref => JOther
  }

  /** The exported settings tree: one object per mode, holding that mode's entries. */
  function ExportTree(shizuku: Store, vpn: Store): JsonValue {
    JObject(map[SHIZUKU.Key() := JObject(map k | k in shizuku :: ToJson(shizuku[k])),
                VPN.Key() := JObject(map k | k in vpn :: ToJson(vpn[k]))])
  }

  predicate AllBoolean(m: Store) {
    forall k :: k in m ==> m[k].BoolPref?
  }

  lemma ConvertExported(m: Store)
    requires AllBoolean(m)
    ensures ConvertObject(map k | k in m :: ToJson(m[k])) == Some(m)
  {
    var obj := map k | k in m :: ToJson(m[k]);
    assert forall k :: k in obj ==> JsonBoolean(obj[k]) == Some(m[k].b);
    var r := map k | k in obj :: BoolPref(JsonBoolean(obj[k]).value);
    assert ConvertObject(obj) == Some(r);
    assert r.Keys == m.Keys;
    assert r == m;
  }

  /** Importing an export restores both stores, as long as they hold only Booleans. */
  lemma ExportImportRoundTrip(shizuku: Store, vpn: Store)
    requires AllBoolean(shizuku) && AllBoolean(vpn)
    ensures ConvertSection(ExportTree(shizuku, vpn), SHIZUKU.Key()) == Some(shizuku)
    ensures ConvertSection(ExportTree(shizuku, vpn), VPN.Key()) == Some(vpn)
  {
    ConvertExported(shizuku);
    ConvertExported(vpn);
  }

  // ---------------------------------------------------------------------------

  /** The three preference files of the app and the operations on them. */
  class FirewallPreferences {
    var shizukuPrefs: Store
    var vpnPrefs: Store
    var defaultPrefs: Store

    /** Opens the three files with their persisted contents. */
    constructor(shizuku: Store, vpn: Store, defaults: Store)
      ensures shizukuPrefs == shizuku && vpnPrefs == vpn && defaultPrefs == defaults
    {
      shizukuPrefs := shizuku;
      vpnPrefs := vpn;
      defaultPrefs := defaults;
    }

    /** SHIZUKU reads and writes its own file; every other mode uses the VPN file. */
    function GetPrefs(mode: FirewallMode): Store
      reads this
    {
      if mode == SHIZUKU then shizukuPrefs else vpnPrefs
    }

    /** Writes one Boolean and commits it. */
    method PutBoolean(mode: FirewallMode, key: string, value: bool)
      modifies this
      ensures GetPrefs(mode) == old(GetPrefs(mode))[key := BoolPref(value)]
      ensures GetPrefs(mode.Other()) == old(GetPrefs(mode.Other()))
      ensures defaultPrefs == old(defaultPrefs)
    {
      if mode == SHIZUKU {
        shizukuPrefs := shizukuPrefs[key := BoolPref(value)];
      } else {
        vpnPrefs := vpnPrefs[key := BoolPref(value)];
      }
    }

    method SetWifiBlocked(mode: FirewallMode, packageName: string, isBlocked: bool)
      modifies this
      ensures GetPrefs(mode) == old(GetPrefs(mode))[GetKey(packageName, WIFI) := BoolPref(isBlocked)]
      ensures GetPrefs(mode.Other()) == old(GetPrefs(mode.Other()))
      ensures defaultPrefs == old(defaultPrefs)
      ensures IsWifiBlocked(mode, packageName) == isBlocked
      ensures forall q :: IsDataBlocked(mode, q) == old(IsDataBlocked(mode, q))
      ensures forall q :: q != packageName ==> IsWifiBlocked(mode, q) == old(IsWifiBlocked(mode, q))
    {
      PutBoolean(mode, GetKey(packageName, WIFI), isBlocked);
      forall q ensures GetKey(packageName, WIFI) != GetKey(q, DATA) {
        GetKeyInjective(packageName, q, WIFI, DATA);
      }
      forall q | q != packageName ensures GetKey(packageName, WIFI) != GetKey(q, WIFI) {
        GetKeyInjective(packageName, q, WIFI, WIFI);
      }
    }

    /**
     * The Wi-Fi switch of a package: false when the key is missing. A package
     * whose switch is on is also in the blocked-package query for Wi-Fi.
     */
    function IsWifiBlocked(mode: FirewallMode, packageName: string): (r: bool)
      reads this
      ensures GetKey(packageName, WIFI) !in GetPrefs(mode) ==> !r
      ensures r && packageName != "" ==> packageName in BlockedPackages(GetPrefs(mode), true)
    {
      var r := Lookup(GetPrefs(mode), GetKey(packageName, WIFI));
      if r && packageName != "" then BlockedWhenSet(GetPrefs(mode), packageName, true); r else r
    }

    method SetDataBlocked(mode: FirewallMode, packageName: string, isBlocked: bool)
      modifies this
      ensures GetPrefs(mode) == old(GetPrefs(mode))[GetKey(packageName, DATA) := BoolPref(isBlocked)]
      ensures GetPrefs(mode.Other()) == old(GetPrefs(mode.Other()))
      ensures defaultPrefs == old(defaultPrefs)
      ensures IsDataBlocked(mode, packageName) == isBlocked
      ensures forall q :: IsWifiBlocked(mode, q) == old(IsWifiBlocked(mode, q))
      ensures forall q :: q != packageName ==> IsDataBlocked(mode, q) == old(IsDataBlocked(mode, q))
    {
      PutBoolean(mode, GetKey(packageName, DATA), isBlocked);
      forall q ensures GetKey(packageName, DATA) != GetKey(q, WIFI) {
        GetKeyInjective(packageName, q, DATA, WIFI);
      }
      forall q | q != packageName ensures GetKey(packageName, DATA) != GetKey(q, DATA) {
        GetKeyInjective(packageName, q, DATA, DATA);
      }
    }

    /** The mobile-data switch of a package, read like the Wi-Fi switch. */
    function IsDataBlocked(mode: FirewallMode, packageName: string): (r: bool)
      reads this
      ensures GetKey(packageName, DATA) !in GetPrefs(mode) ==> !r
      ensures r && packageName != "" ==> packageName in BlockedPackages(GetPrefs(mode), false)
    {
      var r := Lookup(GetPrefs(mode), GetKey(packageName, DATA));
      if r && packageName != "" then BlockedWhenSet(GetPrefs(mode), packageName, false); r else r
    }

    /** Replaces the destination mode's file with the Boolean entries of the source mode's file. */
    method CopySettings(from: FirewallMode, to: FirewallMode)
      modifies this
      ensures GetPrefs(to) == BoolEntries(old(GetPrefs(from)))
      ensures from != to ==> GetPrefs(from) == old(GetPrefs(from))
      ensures GetPrefs(to.Other()) == old(GetPrefs(to.Other()))
      ensures defaultPrefs == old(defaultPrefs)
    {
      var entries := ReadBooleanEntries(GetPrefs(from));
      if to == SHIZUKU {
        shizukuPrefs := entries;
      } else {
        vpnPrefs := entries;
      }
    }

    method SetFirewallEnabled(isEnabled: bool)
      modifies this
      ensures defaultPrefs == old(defaultPrefs)[FIREWALL_ENABLED_KEY := BoolPref(isEnabled)]
      ensures shizukuPrefs == old(shizukuPrefs) && vpnPrefs == old(vpnPrefs)
      ensures IsFirewallEnabled() == isEnabled
    {
      defaultPrefs := defaultPrefs[FIREWALL_ENABLED_KEY := BoolPref(isEnabled)];
    }

    /** The master switch; off until it has been set. */
    function IsFirewallEnabled(): (r: bool)
      reads this
      ensures FIREWALL_ENABLED_KEY !in defaultPrefs ==> !r
    {
      Lookup(defaultPrefs, FIREWALL_ENABLED_KEY)
    }

    /** The packages blocked in `mode` on Wi-Fi (`isWifi`) or on mobile data. */
    method GetBlockedPackagesForNetwork(mode: FirewallMode, isWifi: bool) returns (blocked: set<string>)
      ensures blocked == BlockedPackages(GetPrefs(mode), isWifi)
    {
      var prefs := GetPrefs(mode);
      var keyType := if isWifi then "wifi" else "data";
      blocked := {};
      var remaining := prefs.Keys;
      while remaining != {}
        invariant remaining <= prefs.Keys
        invariant blocked == BlockedFrom(prefs, prefs.Keys - remaining, isWifi)
        decreases remaining
      {
        var key :| key in remaining;
        ghost var done := prefs.Keys - remaining;
        if prefs[key] == BoolPref(true) {
          if EndsWith(key, keyType) {
            var packageName := SubstringBeforeLast(key, '_');
            if packageName != "" {
              blocked := blocked + {packageName};
            }
          }
        }
        remaining := remaining - {key};
        assert prefs.Keys - remaining == done + {key};
      }
    }

    /** The exported tree of both modes' files. */
    function ExportAllSettings(): (r: JsonValue)
      reads this
      ensures AllBoolean(shizukuPrefs) && AllBoolean(vpnPrefs) ==>
        ConvertSection(r, SHIZUKU.Key()) == Some(shizukuPrefs) && ConvertSection(r, VPN.Key()) == Some(vpnPrefs)
    {
      if AllBoolean(shizukuPrefs) && AllBoolean(vpnPrefs) then
        ExportImportRoundTrip(shizukuPrefs, vpnPrefs);
        ExportTree(shizukuPrefs, vpnPrefs)
      else
        ExportTree(shizukuPrefs, vpnPrefs)
    }

    /**
     * Replaces each mode's file with the Boolean members of its section. The
     * SHIZUKU section is committed before the VPN section is read, so a bad
     * VPN section fails the import after SHIZUKU has already been replaced.
     */
    method ImportAllSettings(root: JsonValue) returns (ok: bool)
      modifies this
      ensures ok <==> ConvertSection(root, SHIZUKU.Key()).Some? && ConvertSection(root, VPN.Key()).Some?
      ensures shizukuPrefs == match ConvertSection(root, SHIZUKU.Key())
                              case Some(m) => m
                              case None => old(shizukuPrefs)
      ensures vpnPrefs == if ok then ConvertSection(root, VPN.Key()).value else old(vpnPrefs)
      ensures defaultPrefs == old(defaultPrefs)
    {
      if !root.JObject? || SHIZUKU.Key() !in root.fields || !root.fields[SHIZUKU.Key()].JObject? {
        return false;
      }
      var shizuku := ReadSection(root.fields[SHIZUKU.Key()].fields);
      if shizuku.None? {
        return false;
      }
      shizukuPrefs := shizuku.value;
      if VPN.Key() !in root.fields || !root.fields[VPN.Key()].JObject? {
        return false;
      }
      var vpn := ReadSection(root.fields[VPN.Key()].fields);
      if vpn.None? {
        return false;
      }
      vpnPrefs := vpn.value;
      return true;
    }
  }

  /** Collects the Boolean entries of a store, one key at a time. */
  method ReadBooleanEntries(m: Store) returns (entries: Store)
    ensures entries == BoolEntries(m)
  {
    entries := map[];
    var remaining := m.Keys;
    while remaining != {}
      invariant remaining <= m.Keys
      invariant entries == map k | k in m.Keys - remaining && m[k].BoolPref? :: m[k]
      decreases remaining
    {
      var key :| key in remaining;
      if m[key].BoolPref? {
        entries := entries[key := m[key]];
      }
      remaining := remaining - {key};
    }
  }

  /** Reads one section member by member with `getBoolean`, stopping at the first that throws. */
  method ReadSection(obj: map<string, JsonValue>) returns (r: Option<Store>)
    ensures r == ConvertObject(obj)
  {
    var editor: Store := map[];
    var remaining := obj.Keys;
    while remaining != {}
      invariant remaining <= obj.Keys
      invariant forall k :: k in obj.Keys - remaining ==> JsonBoolean(obj[k]).Some?
      invariant editor == map k | k in obj.Keys - remaining :: BoolPref(JsonBoolean(obj[k]).value)
      decreases remaining
    {
      var key :| key in remaining;
      var value := JsonBoolean(obj[key]);
      if value.None? {
        return None;
      }
      editor := editor[key := BoolPref(value.value)];
      remaining := remaining - {key};
    }
    assert obj.Keys - remaining == obj.Keys;
    return Some(editor);
  }
}
