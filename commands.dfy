/**
 * The command lines the enforcement coordinator hands to the privileged shell,
 * and the rule codes of the reflective firewall call. Each command line is
 * rendered from a small datatype; the parsers show that the text determines
 * the datatype value again, so the model can give commands their effect on
 * the datatype instead of on the text.
 */
module ShellCommands {

  import opened Wrappers
  import opened Text

  const CHAIN_OUTPUT := "firewall_blocks_output"
  const IPTABLES := "iptables"
  const IP6TABLES := "ip6tables"

  const FIREWALL_RULE_ALLOW := 1
  const FIREWALL_RULE_DENY := 2

  /** The rule code of the reflective call: DENY for a blocked application, ALLOW otherwise. */
  function RuleCode(isBlocked: bool): (code: int)
    ensures code == FIREWALL_RULE_DENY <==> isBlocked
    ensures code == FIREWALL_RULE_ALLOW <==> !isBlocked
  {
    if isBlocked then FIREWALL_RULE_DENY else FIREWALL_RULE_ALLOW
  }

  /** Kotlin's rendering of a `Boolean` in a string template. */
  function BoolText(b: bool): string {
    if b then "true" else "false"
  }

  // ---------------------------------------------------------------------------
  // The owner-match DROP rule of the iptables backend.

  const DropRulePrefix := "-m owner --uid-owner "
  const DropRuleSuffix := " -j DROP"

  /** The rule text that matches the packets of one UID and drops them. */
  function DropRule(uid: int): string {
    DropRulePrefix + IntToString(uid) + DropRuleSuffix
  }

  /** Reads the UID back out of a DROP rule. */
  function ParseDropRule(s: string): Option<int> {
    if |DropRulePrefix| + |DropRuleSuffix| <= |s| && StartsWith(s, DropRulePrefix) && EndsWith(s, DropRuleSuffix)
    then ParseInt(s[|DropRulePrefix|..|s| - |DropRuleSuffix|])
    else None
  }

  /** Every UID has its own rule text, so deleting one UID's rule never touches another's. */
  lemma DropRuleRoundTrip(uid: int)
    ensures ParseDropRule(DropRule(uid)) == Some(uid)
  {
    var digits := IntToString(uid);
    var s := DropRule(uid);
    assert s[..|DropRulePrefix|] == DropRulePrefix;
    assert s[|s| - |DropRuleSuffix|..] == DropRuleSuffix;
    assert s[|DropRulePrefix|..|s| - |DropRuleSuffix|] == digits;
    IntRoundTrip(uid);
  }

  // ---------------------------------------------------------------------------
  // The connectivity shell commands (Android 13 and later).

  const PackageNetworkingPrefix := "cmd connectivity set-package-networking-enabled "
  const Chain3Prefix := "cmd connectivity set-chain3-enabled "

  /** Allows (`enabled`) or denies the network to one package. */
  function PackageNetworkingCommand(enabled: bool, packageName: string): string {
    PackageNetworkingPrefix + BoolText(enabled) + " " + packageName
  }

  /** Switches the OEM_DENY firewall chain (chain 3) on or off. */
  function Chain3Command(enabled: bool): string {
    Chain3Prefix + BoolText(enabled)
  }

  /** Reads the flag and the package name back out of a package-networking command. */
  function ParsePackageNetworkingCommand(s: string): Option<(bool, string)> {
    if StartsWith(s, PackageNetworkingPrefix) then
      var rest := s[|PackageNetworkingPrefix|..];
      if StartsWith(rest, "true ") then Some((true, rest[5..]))
      else if StartsWith(rest, "false ") then Some((false, rest[6..]))
      else None
    else None
  }

  /** The package-networking command names exactly one package and one flag. */
  lemma PackageNetworkingRoundTrip(enabled: bool, packageName: string)
    ensures ParsePackageNetworkingCommand(PackageNetworkingCommand(enabled, packageName)) == Some((enabled, packageName))
  {
    var s := PackageNetworkingCommand(enabled, packageName);
    assert s[..|PackageNetworkingPrefix|] == PackageNetworkingPrefix;
    var rest := s[|PackageNetworkingPrefix|..];
    assert rest == BoolText(enabled) + " " + packageName;
    if enabled {
      assert rest[..5] == "true ";
    } else {
      assert rest[0] == 'f';
      assert !StartsWith(rest, "true ");
      assert rest[..6] == "false ";
    }
  }

  /** The two connectivity shell commands. */
  datatype ShellCommand =
    | SetChain3Enabled(enabled: bool)
    | SetPackageNetworkingEnabled(enabled: bool, packageName: string)

  /** The exact command line of a connectivity shell command. */
  function ShellLine(c: ShellCommand): string {
    match c
    case SetChain3Enabled(enabled) => Chain3Command(enabled)
    case SetPackageNetworkingEnabled(enabled, packageName) => PackageNetworkingCommand(enabled, packageName)
  }

  // ---------------------------------------------------------------------------
  // The iptables command lines. Every line is run once for IPv4 and once for IPv6.

  datatype Family = V4 | V6

  function Binary(f: Family): string {
    match f
    case V4 => IPTABLES
    case V6 => IP6TABLES
  }

  /** The iptables operations the coordinator issues on its own chain and on OUTPUT. */
  datatype IptablesCommand =
    | CreateChain          // -N CHAIN, tolerated when it exists
    | HookChain            // -C OUTPUT -j CHAIN, or else -I OUTPUT -j CHAIN
    | FlushChain           // -F CHAIN
    | UnhookChain          // -D OUTPUT -j CHAIN
    | DeleteChain          // -X CHAIN
    | DeleteDrop(uid: int) // -D CHAIN <drop rule>
    | AppendDrop(uid: int) // -A CHAIN <drop rule>

  /** The exact command line of one iptables operation. */
  function IptablesLine(f: Family, c: IptablesCommand): string {
    var ipt := Binary(f);
    match c
    case CreateChain => ipt + " -N " + CHAIN_OUTPUT + " 2>/dev/null || true"
    case HookChain =>
      ipt + " -C OUTPUT -j " + CHAIN_OUTPUT + " 2>/dev/null || " + ipt + " -I OUTPUT -j " + CHAIN_OUTPUT
    case FlushChain => ipt + " -F " + CHAIN_OUTPUT + " 2>/dev/null || true"
    case UnhookChain => ipt + " -D OUTPUT -j " + CHAIN_OUTPUT + " 2>/dev/null || true"
    case DeleteChain => ipt + " -X " + CHAIN_OUTPUT + " 2>/dev/null || true"
    case DeleteDrop(uid) => ipt + " -D " + CHAIN_OUTPUT + " " + DropRule(uid) + " 2>/dev/null || true"
    case AppendDrop(uid) => ipt + " -A " + CHAIN_OUTPUT + " " + DropRule(uid)
  }
}
