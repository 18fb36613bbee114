/**
 * The privileged enforcement coordinator. It turns one rule, or the whole rule
 * set, into effects on the device through one of three backends:
 *
 *   - Android 13 and later: the connectivity shell (chain 3 and per-package
 *     networking switches);
 *   - older releases with a broker running as UID 0: an iptables chain of
 *     owner-match DROP rules hooked into OUTPUT, for IPv4 and IPv6;
 *   - older releases otherwise: a reflective call on the connectivity service,
 *     with one retry after refreshing the cached service.
 *
 * The device is modelled by the state those commands change. The broker, the
 * OS release and the reflective lookup are inputs of each call (`Env`).
 */
module Enforcement {

  import opened Wrappers
  import opened ShellCommands
  import opened FirewallTypes
  import opened Preferences

  /** The first release that has the connectivity shell chain (Android 13). */
  const TIRAMISU := 33

  const NOT_IN_ROOT_MODE := "Not in root mode"
  const EXECUTION_FAILED := "Shizuku command execution failed"

  // ---------------------------------------------------------------------------
  // Inputs of one call.

  /** What the reflective lookup of the connectivity service finds on this device. */
  datatype ServiceLookup =
    | Unreachable                                   // no binder, or `asInterface` gave null or threw
    | Found(hasSetUidFirewallRule: bool, hasSetFirewallUidRule: bool)

  /** The two firewall methods the connectivity service may expose. */
  datatype FirewallMethod = SetUidFirewallRule | SetFirewallUidRule

  /**
   * The inputs the coordinator does not control: the OS release, the UID the
   * broker reports (None when asking it throws), whether the broker can spawn a
   * shell, what the reflective lookup finds, and the reflective invocations
   * that throw, as (uid, attempt, call) triples: call 1 is the invocation on
   * the method's first chain and call 2 the one on its second chain.
   */
  datatype Env = Env(sdk: int, brokerUid: Option<int>, brokerAlive: bool,
                     lookup: ServiceLookup, failing: set<(int, int, int)>)

  /** One installed package as the package manager lists it. */
  datatype InstalledApp = InstalledApp(packageName: string, uid: int)

  datatype Backend = ConnectivityShell | Iptables | ConnectivityReflection

  /** The backend all three entry points pick, in the same order. */
  function SelectBackend(sdk: int, uid: int): (r: Backend)
    ensures r == ConnectivityShell <==> sdk >= TIRAMISU
    ensures r == Iptables <==> sdk < TIRAMISU && uid == 0
    ensures r == ConnectivityReflection <==> sdk < TIRAMISU && uid != 0
  {
    if sdk >= TIRAMISU then ConnectivityShell
    else if uid == 0 then Iptables
    else ConnectivityReflection
  }

  /** The UID the coordinator works with: the cached one, else what the broker reports, else -1. */
  function EffectiveUid(cache: int, brokerUid: Option<int>): (r: int)
    ensures cache != -1 ==> r == cache
    ensures cache == -1 ==> r == (if brokerUid.Some? then brokerUid.value else -1)
  {
    if cache != -1 then cache
    else if brokerUid.Some? then brokerUid.value
    else -1
  }

  /** The method handle resolution keeps: `setUidFirewallRule` is preferred. */
  function Resolve(lookup: ServiceLookup): Option<FirewallMethod> {
    match lookup
    case Unreachable => None
    case Found(v1, v2) =>
      if v1 then Some(SetUidFirewallRule)
      else if v2 then Some(SetFirewallUidRule)
      else None
  }

  /** The two firewall chains a method is invoked on. */
  function Chains(m: FirewallMethod): (int, int) {
    match m
    case SetUidFirewallRule => (1, 2)
    case SetFirewallUidRule => (0, 1)
  }

  // ---------------------------------------------------------------------------
  // The iptables state of one address family.

  /** The coordinator's chain: whether it exists, how many OUTPUT jumps point at it, its DROP rules in order. */
  datatype Table = Table(chainExists: bool, hooks: nat, drops: seq<int>)

  /** A chain is hooked at most once, and a missing chain has no hook and no rule. */
  predicate WellFormedTable(t: Table) {
    t.hooks <= 1 && (!t.chainExists ==> t.hooks == 0 && t.drops == [])
  }

  /** `iptables -D`: removes the first rule for `x`, if there is one. */
  function RemoveFirst(s: seq<int>, x: int): seq<int> {
    if |s| == 0 then []
    else if s[0] == x then s[1..]
    else [s[0]] + RemoveFirst(s[1..], x)
  }

  /** Deleting takes away one occurrence of `x`, when there is one, and nothing else. */
  lemma {:induction false} RemoveFirstCounts(s: seq<int>, x: int)
    ensures multiset(RemoveFirst(s, x)) == multiset(s) - multiset{x}
  {
    if |s| > 0 {
      assert s == [s[0]] + s[1..];
      if s[0] != x {
        RemoveFirstCounts(s[1..], x);
      }
    }
  }

  /** Deleting `x` skips a prefix that does not hold it. */
  lemma RemoveFirstCons(a: int, w: seq<int>, x: int)
    requires a != x
    ensures RemoveFirst([a] + w, x) == [a] + RemoveFirst(w, x)
  {
    assert ([a] + w)[1..] == w;
  }

  lemma {:induction false} RemoveFirstSkip(s: seq<int>, t: seq<int>, x: int)
    requires x !in s
    ensures RemoveFirst(s + t, x) == s + RemoveFirst(t, x)
  {
    if |s| == 0 {
      assert s + t == t;
    } else {
      var a, rest := s[0], s[1..];
      assert s == [a] + rest;
      assert x !in rest;
      RemoveFirstSkip(rest, t, x);
      assert s + t == [a] + (rest + t);
      RemoveFirstCons(a, rest + t, x);
      assert [a] + (rest + RemoveFirst(t, x)) == s + RemoveFirst(t, x);
    }
  }

  /** The effect of one command line on the chain; a command that fails changes nothing. */
  function Run(t: Table, c: IptablesCommand): (r: Table)
    ensures WellFormedTable(t) ==> WellFormedTable(r)
  {
    match c
    case CreateChain => if t.chainExists then t else Table(true, 0, [])
    case HookChain => if t.chainExists && t.hooks == 0 then t.(hooks := 1) else t
    case FlushChain => t.(drops := [])
    case UnhookChain => if t.hooks > 0 then t.(hooks := t.hooks - 1) else t
    case DeleteChain => if t.chainExists && t.hooks == 0 && t.drops == [] then Table(false, 0, []) else t
    case DeleteDrop(uid) => t.(drops := RemoveFirst(t.drops, uid))
    case AppendDrop(uid) => if t.chainExists then t.(drops := t.drops + [uid]) else t
  }

  /** The chain after `-N` and `-C || -I`. */
  function CreateChains(t: Table): Table {
    Run(Run(t, CreateChain), HookChain)
  }

  /** The chain after `-D OUTPUT`, `-F` and `-X`. */
  function DeleteChains(t: Table): Table {
    Run(Run(Run(t, UnhookChain), FlushChain), DeleteChain)
  }

  /** The chain after the per-UID update: delete the rule, then append it when blocked. */
  function DropUpdate(t: Table, uid: int, isBlocked: bool): Table {
    var t1 := Run(t, DeleteDrop(uid));
    if isBlocked then Run(t1, AppendDrop(uid)) else t1
  }

  /** Creation leaves the chain present and hooked exactly once, keeping the rules of an existing chain. */
  lemma CreateChainsHooksOnce(t: Table)
    requires WellFormedTable(t)
    ensures CreateChains(t).chainExists && CreateChains(t).hooks == 1
    ensures t.chainExists ==> CreateChains(t).drops == t.drops
    ensures CreateChains(CreateChains(t)) == CreateChains(t)
  {
  }

  /** Removal leaves neither the chain nor a hook. */
  lemma DeleteChainsRemovesAll(t: Table)
    requires WellFormedTable(t)
    ensures DeleteChains(t) == Table(false, 0, [])
  {
  }

  /**
   * With at most one rule for `uid` before, the update leaves exactly one rule
   * for it when blocked and none otherwise, and no other UID's rules change.
   */
  lemma DropUpdateCounts(t: Table, uid: int, isBlocked: bool)
    requires t.chainExists && multiset(t.drops)[uid] <= 1
    ensures var r := DropUpdate(t, uid, isBlocked);
      r.chainExists && r.hooks == t.hooks &&
      multiset(r.drops)[uid] == (if isBlocked then 1 else 0) &&
      forall u :: u != uid ==> multiset(r.drops)[u] == multiset(t.drops)[u]
  {
    RemoveFirstCounts(t.drops, uid);
  }

  /** Repeating the update with the same arguments changes nothing more. */
  lemma DropUpdateIdempotent(t: Table, uid: int, isBlocked: bool)
    requires multiset(t.drops)[uid] <= 1
    ensures DropUpdate(DropUpdate(t, uid, isBlocked), uid, isBlocked) == DropUpdate(t, uid, isBlocked)
  {
    var s := RemoveFirst(t.drops, uid);
    RemoveFirstCounts(t.drops, uid);
    assert uid !in s by {
      assert multiset(s)[uid] == 0;
    }
    RemoveFirstSkip(s, [], uid);
    assert s + [] == s;
    if isBlocked && t.chainExists {
      RemoveFirstSkip(s, [uid], uid);
    }
  }

  // ---------------------------------------------------------------------------
  // The device.

  /** Both families' chains. */
  datatype IptablesState = IptablesState(v4: Table, v6: Table) {
    function Get(f: Family): Table {
      match f
      case V4 => v4
      case V6 => v6
    }

    function With(f: Family, t: Table): IptablesState {
      match f
      case V4 => this.(v4 := t)
      case V6 => this.(v6 := t)
    }

    predicate WellFormed() {
      WellFormedTable(v4) && WellFormedTable(v6)
    }
  }

  /** The connectivity shell state: chain 3 and the per-package networking switches. */
  datatype ShellState = ShellState(chain3Enabled: bool, packageNetworking: map<string, bool>)

  /** Every command the coordinator hands to the broker's shell. */
  datatype Command = Shell(sc: ShellCommand) | Ipt(family: Family, ic: IptablesCommand)

  /** The command line of a command. */
  function CommandLine(c: Command): string {
    match c
    case Shell(sc) => ShellLine(sc)
    case Ipt(f, ic) => IptablesLine(f, ic)
  }

  function ShellAfter(s: ShellState, c: Command): ShellState {
    match c
    case Shell(SetChain3Enabled(enabled)) => s.(chain3Enabled := enabled)
    case Shell(SetPackageNetworkingEnabled(enabled, p)) => s.(packageNetworking := s.packageNetworking[p := enabled])
    case Ipt(_, _) => s
  }

  function IptablesAfter(s: IptablesState, c: Command): IptablesState {
    match c
    case Shell(_) => s
    case Ipt(f, ic) => s.With(f, Run(s.Get(f), ic))
  }

  /** The firewall state of the device that the three backends change. */
  class Device {
    var iptables: IptablesState
    var shell: ShellState
    /** The reflective firewall rules, by (chain, uid). */
    var uidRules: map<(int, int), int>

    ghost predicate Valid()
      reads this
    {
      iptables.WellFormed()
    }

    constructor(iptables: IptablesState, shell: ShellState, uidRules: map<(int, int), int>)
      requires iptables.WellFormed()
      ensures Valid()
      ensures this.iptables == iptables && this.shell == shell && this.uidRules == uidRules
    {
      this.iptables := iptables;
      this.shell := shell;
      this.uidRules := uidRules;
    }

    /** Runs one shell command line as the broker. */
    method Execute(c: Command)
      requires Valid()
      modifies this
      ensures Valid()
      ensures iptables == IptablesAfter(old(iptables), c)
      ensures shell == ShellAfter(old(shell), c)
      ensures uidRules == old(uidRules)
    {
      iptables := IptablesAfter(iptables, c);
      shell := ShellAfter(shell, c);
    }

    /** One reflective firewall call. */
    method SetFirewallRule(chain: int, uid: int, rule: int)
      modifies this
      ensures uidRules == old(uidRules)[(chain, uid) := rule]
      ensures iptables == old(iptables) && shell == old(shell)
    {
      uidRules := uidRules[(chain, uid) := rule];
    }
  }

  // ---------------------------------------------------------------------------
  // Specifications of the composite operations.

  /** The result of one shell command: exit code and trimmed output. */
  datatype CommandResult = CommandResult(exitCode: int, output: string)

  /** Where one call of the reflective rule ends. */
  datatype ReflectOutcome =
    | NoService(attempt: int)                          // no service could be obtained
    | Applied(attempt: int, handle: FirewallMethod)    // both invocations of this attempt returned
    | Aborted                                          // an invocation threw in both attempts

  /** The method used by the first attempt: the cached one, else a fresh resolution. */
  function FirstMethod(cached: Option<FirewallMethod>, lookup: ServiceLookup): Option<FirewallMethod> {
    if cached.Some? then cached else Resolve(lookup)
  }

  /** One of the two invocations of attempt `attempt` for `uid` throws. */
  predicate AttemptThrows(failing: set<(int, int, int)>, uid: int, attempt: int) {
    (uid, attempt, 1) in failing || (uid, attempt, 2) in failing
  }

  /** The reference definition of the retry policy. */
  function ReflectOutcomeOf(cached: Option<FirewallMethod>, lookup: ServiceLookup,
                            failing: set<(int, int, int)>, uid: int): ReflectOutcome
  {
    var first := FirstMethod(cached, lookup);
    if first.None? then NoService(1)
    else if !AttemptThrows(failing, uid, 1) then Applied(1, first.value)
    else if Resolve(lookup).None? then NoService(2)
    else if !AttemptThrows(failing, uid, 2) then Applied(2, Resolve(lookup).value)
    else Aborted
  }

  /**
   * The chains one attempt with method `m` writes, in order: none when its
   * first invocation throws, only the first chain when the second throws.
   */
  function AttemptWrites(m: FirewallMethod, failing: set<(int, int, int)>, uid: int, attempt: int): seq<int> {
    if (uid, attempt, 1) in failing then []
    else if (uid, attempt, 2) in failing then [Chains(m).0]
    else [Chains(m).0, Chains(m).1]
  }

  /** The chains a whole call writes for `uid`, in order, across its attempts. */
  function WrittenChains(cached: Option<FirewallMethod>, lookup: ServiceLookup,
                         failing: set<(int, int, int)>, uid: int): seq<int>
  {
    var first := FirstMethod(cached, lookup);
    if first.None? then []
    else if !AttemptThrows(failing, uid, 1) || Resolve(lookup).None? then AttemptWrites(first.value, failing, uid, 1)
    else AttemptWrites(first.value, failing, uid, 1) + AttemptWrites(Resolve(lookup).value, failing, uid, 2)
  }

  /** The reflective rules after invoking `m` for `uid`. */
  function Invoke(rules: map<(int, int), int>, m: FirewallMethod, uid: int, rule: int): map<(int, int), int> {
    rules[(Chains(m).0, uid) := rule][(Chains(m).1, uid) := rule]
  }

  /** The reflective rules after `rule` is set for `uid` on each of `chains` in turn. */
  function WriteChains(rules: map<(int, int), int>, chains: seq<int>, uid: int, rule: int): map<(int, int), int>
    decreases |chains|
  {
    if chains == [] then rules
    else WriteChains(rules, chains[..|chains| - 1], uid, rule)[(chains[|chains| - 1], uid) := rule]
  }

  /** Writing one or two chains is one or two map updates. */
  lemma WriteChainsShort(rules: map<(int, int), int>, a: int, b: int, uid: int, rule: int)
    ensures WriteChains(rules, [a], uid, rule) == rules[(a, uid) := rule]
    ensures WriteChains(rules, [a, b], uid, rule) == rules[(a, uid) := rule][(b, uid) := rule]
  {
    assert [a][..0] == [];
    assert [a, b][..1] == [a];
  }

  /** Writing two runs of chains is writing the first, then the second. */
  lemma {:induction false} WriteChainsAppend(rules: map<(int, int), int>, a: seq<int>, b: seq<int>, uid: int, rule: int)
    ensures WriteChains(rules, a + b, uid, rule) == WriteChains(WriteChains(rules, a, uid, rule), b, uid, rule)
    decreases |b|
  {
    if b == [] {
      assert a + b == a;
    } else {
      var b' := b[..|b| - 1];
      assert (a + b)[..|a + b| - 1] == a + b';
      WriteChainsAppend(rules, a, b', uid, rule);
    }
  }

  /**
   * Exactly the written chains of `uid` hold `rule` afterwards; every other
   * entry, of this UID or another, is as before.
   */
  lemma {:induction false} WriteChainsSpec(rules: map<(int, int), int>, chains: seq<int>, uid: int, rule: int)
    ensures forall c :: c in chains ==> HasRule(WriteChains(rules, chains, uid, rule), c, uid, rule)
    ensures forall k: (int, int) :: !(k.1 == uid && k.0 in chains) ==>
      (k in WriteChains(rules, chains, uid, rule) <==> k in rules) &&
      (k in rules ==> WriteChains(rules, chains, uid, rule)[k] == rules[k])
    decreases |chains|
  {
    if chains != [] {
      var init := chains[..|chains| - 1];
      WriteChainsSpec(rules, init, uid, rule);
      assert chains == init + [chains[|chains| - 1]];
      forall c | c in chains
        ensures HasRule(WriteChains(rules, chains, uid, rule), c, uid, rule)
      {
        if c != chains[|chains| - 1] {
          assert c in init;
        }
      }
    }
  }

  /**
   * What a call leaves behind: a successful attempt sets both chains of its
   * method; an invocation that returned keeps its write even when the next one
   * throws; only chains of the methods resolved are written, and nothing when
   * no service is found.
   */
  lemma ReflectWrites(cached: Option<FirewallMethod>, lookup: ServiceLookup, failing: set<(int, int, int)>, uid: int)
    ensures var o := ReflectOutcomeOf(cached, lookup, failing, uid);
            var w := WrittenChains(cached, lookup, failing, uid);
            var first := FirstMethod(cached, lookup);
      (o.Applied? ==> Chains(o.handle).0 in w && Chains(o.handle).1 in w) &&
      (first.Some? && (uid, 1, 1) !in failing ==> Chains(first.value).0 in w) &&
      (first.None? ==> w == []) &&
      (forall c :: c in w ==>
         (first.Some? && (c == Chains(first.value).0 || c == Chains(first.value).1)) ||
         (Resolve(lookup).Some? && (c == Chains(Resolve(lookup).value).0 || c == Chains(Resolve(lookup).value).1)))
  {
  }

  /** After a thrown first attempt, the writes of both attempts are those of the whole call. */
  lemma WriteChainsBothAttempts(rules: map<(int, int), int>, cached: Option<FirewallMethod>, lookup: ServiceLookup,
                                failing: set<(int, int, int)>, uid: int, rule: int)
    requires FirstMethod(cached, lookup).Some? && AttemptThrows(failing, uid, 1) && Resolve(lookup).Some?
    ensures WriteChains(WriteChains(rules, AttemptWrites(FirstMethod(cached, lookup).value, failing, uid, 1), uid, rule),
                        AttemptWrites(Resolve(lookup).value, failing, uid, 2), uid, rule) ==
            WriteChains(rules, WrittenChains(cached, lookup, failing, uid), uid, rule)
  {
    WriteChainsAppend(rules, AttemptWrites(FirstMethod(cached, lookup).value, failing, uid, 1),
                      AttemptWrites(Resolve(lookup).value, failing, uid, 2), uid, rule);
  }

  /** Without a thrown first attempt, a call is one invocation of the first method. */
  lemma WrittenWithoutFailure(cached: Option<FirewallMethod>, lookup: ServiceLookup, failing: set<(int, int, int)>,
                              uid: int, rules: map<(int, int), int>, rule: int)
    requires FirstMethod(cached, lookup).Some? && !AttemptThrows(failing, uid, 1)
    ensures WriteChains(rules, WrittenChains(cached, lookup, failing, uid), uid, rule) ==
            Invoke(rules, FirstMethod(cached, lookup).value, uid, rule)
  {
    var m := FirstMethod(cached, lookup).value;
    assert WrittenChains(cached, lookup, failing, uid) == [Chains(m).0, Chains(m).1];
    WriteChainsShort(rules, Chains(m).0, Chains(m).1, uid, rule);
  }

  /** The cached method handle after the call. */
  function CacheAfter(outcome: ReflectOutcome, lookup: ServiceLookup): Option<FirewallMethod> {
    match outcome
    case NoService(_) => None
    case Applied(_, m) => Some(m)
    case Aborted => Resolve(lookup)
  }

  /**
   * The retry policy: an unresolvable service ends the call before any
   * invocation; a second attempt happens only after the first invocation threw;
   * there is never a third; a transient failure is recovered by the retry.
   */
  lemma ReflectRetryPolicy(cached: Option<FirewallMethod>, lookup: ServiceLookup, failing: set<(int, int, int)>, uid: int)
    ensures var o := ReflectOutcomeOf(cached, lookup, failing, uid);
      (o.NoService? || o.Applied? ==> o.attempt in {1, 2}) &&
      (o.NoService? && o.attempt == 1 <==> FirstMethod(cached, lookup).None?) &&
      (o.Applied? && o.attempt == 1 <==> FirstMethod(cached, lookup).Some? && !AttemptThrows(failing, uid, 1)) &&
      (o.Applied? && o.attempt == 2 ==> AttemptThrows(failing, uid, 1) && Some(o.handle) == Resolve(lookup)) &&
      (o.Aborted? <==> FirstMethod(cached, lookup).Some? && Resolve(lookup).Some? &&
                       AttemptThrows(failing, uid, 1) && AttemptThrows(failing, uid, 2))
  {
  }

  /** The per-rule state of the shell path: enable chain 3 unless done, then switch the package. */
  function ShellRuleAfter(s: ShellState, initialized: bool, packageName: string, isBlocked: bool): ShellState {
    var s1 := if initialized then s else ShellAfter(s, Shell(SetChain3Enabled(true)));
    ShellAfter(s1, Shell(SetPackageNetworkingEnabled(!isBlocked, packageName)))
  }

  /** The per-rule state of one iptables family: create the chain unless done, then update the UID. */
  function IptablesRuleAfter(t: Table, initialized: bool, uid: int, isBlocked: bool): Table {
    DropUpdate(if initialized then t else CreateChains(t), uid, isBlocked)
  }

  /**
   * One iptables rule on a chain that is set up (or is about to be) leaves the
   * chain hooked once, with one DROP rule for the UID exactly when it is blocked.
   */
  lemma IptablesRuleBlocks(t: Table, initialized: bool, uid: int, isBlocked: bool)
    requires WellFormedTable(t) && (initialized ==> t.chainExists && t.hooks == 1)
    requires multiset(t.drops)[uid] <= 1
    ensures var r := IptablesRuleAfter(t, initialized, uid, isBlocked);
      r.chainExists && r.hooks == 1 &&
      (multiset(r.drops)[uid] == 1 <==> isBlocked) &&
      forall u :: u != uid ==> multiset(r.drops)[u] == multiset(t.drops)[u]
  {
    var t0 := if initialized then t else CreateChains(t);
    CreateChainsHooksOnce(t);
    assert forall u :: multiset(t0.drops)[u] == multiset(t.drops)[u];
    DropUpdateCounts(t0, uid, isBlocked);
  }

  function WifiBlocked(store: Store, packageName: string): bool {
    Lookup(store, GetKey(packageName, WIFI))
  }

  function PackagesOf(apps: seq<InstalledApp>): set<string> {
    set a | a in apps :: a.packageName
  }

  function UidsOf(apps: seq<InstalledApp>): set<int> {
    set a | a in apps :: a.uid
  }

  /** The UIDs of the listed apps whose SHIZUKU Wi-Fi flag is set. */
  function BlockedUids(apps: seq<InstalledApp>, store: Store): set<int> {
    set a | a in apps && WifiBlocked(store, a.packageName) :: a.uid
  }

  /** The chain after the rule loop of the full sync: one update per blocked app, in list order. */
  function SyncTable(t: Table, apps: seq<InstalledApp>, store: Store): Table {
    if |apps| == 0 then t
    else
      var t1 := SyncTable(t, apps[..|apps| - 1], store);
      var last := apps[|apps| - 1];
      if WifiBlocked(store, last.packageName) then DropUpdate(t1, last.uid, true) else t1
  }

  /**
   * Starting from a flushed chain, the rule loop leaves the chain and its hook
   * as they were, and an existing chain holds one DROP rule for each blocked
   * app's UID and nothing else.
   */
  lemma {:induction false} SyncTableExact(t: Table, apps: seq<InstalledApp>, store: Store)
    requires WellFormedTable(t) && t.drops == []
    ensures var r := SyncTable(t, apps, store);
      WellFormedTable(r) && r.chainExists == t.chainExists && r.hooks == t.hooks &&
      (t.chainExists ==> DropsExactly(r, BlockedUids(apps, store))) &&
      (!t.chainExists ==> r == t)
  {
    if |apps| > 0 {
      var init := apps[..|apps| - 1];
      var last := apps[|apps| - 1];
      SyncTableExact(t, init, store);
      var t1 := SyncTable(t, init, store);
      assert apps == init + [last];
      assert BlockedUids(apps, store) ==
        BlockedUids(init, store) + (if WifiBlocked(store, last.packageName) then {last.uid} else {});
      if t.chainExists && WifiBlocked(store, last.packageName) {
        DropUpdateCounts(t1, last.uid, true);
      }
    }
  }

  /**
   * Starting from `before`, the packages in `pkgs` have networking exactly
   * when not blocked on Wi-Fi, and every other package is as it was.
   */
  ghost predicate NetworkingSynced(before: map<string, bool>, now: map<string, bool>, pkgs: set<string>, store: Store) {
    now.Keys == before.Keys + pkgs &&
    (forall p :: p in pkgs ==> now[p] == !WifiBlocked(store, p)) &&
    (forall p :: p in before && p !in pkgs ==> now[p] == before[p])
  }

  lemma NetworkingSyncedStep(before: map<string, bool>, now: map<string, bool>, pkgs: set<string>, store: Store, q: string)
    requires NetworkingSynced(before, now, pkgs, store)
    ensures NetworkingSynced(before, now[q := !WifiBlocked(store, q)], pkgs + {q}, store)
  {
  }

  /** The chain holds exactly one DROP rule per UID in `uids` and no other. */
  ghost predicate DropsExactly(t: Table, uids: set<int>) {
    forall u :: multiset(t.drops)[u] == (if u in uids then 1 else 0)
  }

  /** `r` and `s` agree on every entry of a UID outside `uids`. */
  ghost predicate AgreeOutside(r: map<(int, int), int>, s: map<(int, int), int>, uids: set<int>) {
    forall k: (int, int) :: k.1 !in uids ==> (k in r <==> k in s) && (k in r ==> r[k] == s[k])
  }

  /** The reflective rule of `uid` on `chain` is `code`. */
  predicate HasRule(rules: map<(int, int), int>, chain: int, uid: int, code: int) {
    (chain, uid) in rules && rules[(chain, uid)] == code
  }

  /** The app at `i` is the last one in the list with its UID. */
  predicate LastWithUid(apps: seq<InstalledApp>, i: int)
    requires 0 <= i < |apps|
  {
    LastUpTo(apps, |apps|, i)
  }

  /** No app after `i` and before `n` shares the UID of the app at `i`. */
  predicate LastUpTo(apps: seq<InstalledApp>, n: int, i: int)
    requires 0 <= i < n <= |apps|
  {
    forall j :: i < j < n ==> apps[j].uid != apps[i].uid
  }

  /** The rule an app gets in a full reflective pass. */
  function RuleFor(store: Store, allowAll: bool, packageName: string): int {
    RuleCode(!allowAll && WifiBlocked(store, packageName))
  }

  /** After the first `n` apps, each UID carries on both chains of `m` the rule of the last of them with that UID. */
  ghost predicate RulesReflect(rules: map<(int, int), int>, apps: seq<InstalledApp>, n: int,
                               m: FirewallMethod, store: Store, allowAll: bool)
    requires 0 <= n <= |apps|
  {
    forall j :: 0 <= j < n && LastUpTo(apps, n, j) ==>
      HasRule(rules, Chains(m).0, apps[j].uid, RuleFor(store, allowAll, apps[j].packageName)) &&
      HasRule(rules, Chains(m).1, apps[j].uid, RuleFor(store, allowAll, apps[j].packageName))
  }

  /** One more successful invocation extends the pass by one app. */
  lemma RulesReflectStep(rules: map<(int, int), int>, apps: seq<InstalledApp>, n: int,
                         m: FirewallMethod, store: Store, allowAll: bool)
    requires 0 <= n < |apps| && RulesReflect(rules, apps, n, m, store, allowAll)
    ensures RulesReflect(Invoke(rules, m, apps[n].uid, RuleFor(store, allowAll, apps[n].packageName)),
                         apps, n + 1, m, store, allowAll)
  {
    var rules' := Invoke(rules, m, apps[n].uid, RuleFor(store, allowAll, apps[n].packageName));
    forall j | 0 <= j < n + 1 && LastUpTo(apps, n + 1, j)
      ensures HasRule(rules', Chains(m).0, apps[j].uid, RuleFor(store, allowAll, apps[j].packageName))
      ensures HasRule(rules', Chains(m).1, apps[j].uid, RuleFor(store, allowAll, apps[j].packageName))
    {
      if j < n {
        assert LastUpTo(apps, n, j);
        assert apps[n].uid != apps[j].uid;
      }
    }
  }

  /** One call of the reflective rule changes only the entries of its own UID. */
  lemma WriteChainsAgree(rules: map<(int, int), int>, chains: seq<int>, uid: int, rule: int)
    ensures AgreeOutside(WriteChains(rules, chains, uid, rule), rules, {uid})
  {
    WriteChainsSpec(rules, chains, uid, rule);
  }

  /** One app of a reflective pass: the pass's two invariants carry over to one more app. */
  lemma ReflectionPassStep(start: map<(int, int), int>, before: map<(int, int), int>, after: map<(int, int), int>,
                           apps: seq<InstalledApp>, i: int, cached: Option<FirewallMethod>, lookup: ServiceLookup,
                           failing: set<(int, int, int)>, store: Store, allowAll: bool)
    requires 0 <= i < |apps|
    requires after == WriteChains(before, WrittenChains(cached, lookup, failing, apps[i].uid), apps[i].uid,
                                  RuleFor(store, allowAll, apps[i].packageName))
    requires AgreeOutside(before, start, UidsOf(apps[..i]))
    ensures AgreeOutside(after, start, UidsOf(apps[..i + 1]))
    ensures failing == {} && FirstMethod(cached, lookup).Some? &&
            RulesReflect(before, apps, i, FirstMethod(cached, lookup).value, store, allowAll) ==>
            RulesReflect(after, apps, i + 1, FirstMethod(cached, lookup).value, store, allowAll)
  {
    var rule := RuleFor(store, allowAll, apps[i].packageName);
    WriteChainsAgree(before, WrittenChains(cached, lookup, failing, apps[i].uid), apps[i].uid, rule);
    assert apps[..i + 1] == apps[..i] + [apps[i]];
    assert UidsOf(apps[..i + 1]) == UidsOf(apps[..i]) + {apps[i].uid};
    AgreeOutsideTrans(after, before, start, {apps[i].uid}, UidsOf(apps[..i]));
    if failing == {} && FirstMethod(cached, lookup).Some? {
      WrittenWithoutFailure(cached, lookup, failing, apps[i].uid, before, rule);
      if RulesReflect(before, apps, i, FirstMethod(cached, lookup).value, store, allowAll) {
        RulesReflectStep(before, apps, i, FirstMethod(cached, lookup).value, store, allowAll);
      }
    }
  }

  lemma AgreeOutsideTrans(a: map<(int, int), int>, b: map<(int, int), int>, c: map<(int, int), int>,
                          u: set<int>, v: set<int>)
    requires AgreeOutside(a, b, u) && AgreeOutside(b, c, v)
    ensures AgreeOutside(a, c, u + v)
  {
  }

  /** The list the package manager returned, or nothing when listing threw. */
  function Listed(installed: Option<seq<InstalledApp>>): seq<InstalledApp> {
    if installed.Some? then installed.value else []
  }

  // ---------------------------------------------------------------------------

  /**
   * The coordinator. Fields are the Kotlin object's flags and caches; the
   * cached service handle is modelled by whether one is held and which method
   * handle was resolved with it.
   */
  class ShizukuManager {
    const device: Device
    var hasInitializedIptables: bool
    var connectivityService: bool
    var setUidFirewallRuleMethod: bool
    var setFirewallUidRuleMethod: bool
    var hasInitializedConnectivityShell: bool
    var shizukuUidCache: int

    /** A service is cached exactly when one method handle is. */
    ghost predicate Valid()
      reads this, device
    {
      device.Valid() &&
      (connectivityService <==> setUidFirewallRuleMethod || setFirewallUidRuleMethod) &&
      !(setUidFirewallRuleMethod && setFirewallUidRuleMethod)
    }

    constructor(device: Device)
      requires device.Valid()
      ensures Valid()
      ensures this.device == device
      ensures !hasInitializedIptables && !hasInitializedConnectivityShell
      ensures !connectivityService && shizukuUidCache == -1
    {
      this.device := device;
      hasInitializedIptables := false;
      connectivityService := false;
      setUidFirewallRuleMethod := false;
      setFirewallUidRuleMethod := false;
      hasInitializedConnectivityShell := false;
      shizukuUidCache := -1;
    }

    /** The method handle currently cached. */
    function CachedMethod(): Option<FirewallMethod>
      reads this
    {
      if setUidFirewallRuleMethod then Some(SetUidFirewallRule)
      else if setFirewallUidRuleMethod then Some(SetFirewallUidRule)
      else None
    }

    function BrokerUid(env: Env): int
      reads this
    {
      EffectiveUid(shizukuUidCache, env.brokerUid)
    }

    /** iptables commands run: the broker is UID 0 and can spawn a shell. */
    predicate RootShell(env: Env)
      reads this
    {
      BrokerUid(env) == 0 && env.brokerAlive
    }

    /** Empties the UID cache and the reflective service cache. */
    method ClearUidCache()
      requires Valid()
      modifies this`shizukuUidCache, this`connectivityService,
               this`setUidFirewallRuleMethod, this`setFirewallUidRuleMethod
      ensures Valid()
      ensures shizukuUidCache == -1 && !connectivityService && CachedMethod() == None
    {
      shizukuUidCache := -1;
      RefreshConnectivityService();
    }

    /** Answers from the cache, else asks the broker and caches its answer; -1 when asking throws. */
    method GetShizukuUid(env: Env) returns (uid: int)
      modifies this`shizukuUidCache
      ensures uid == old(BrokerUid(env)) == BrokerUid(env)
      ensures old(shizukuUidCache) != -1 ==> shizukuUidCache == old(shizukuUidCache)
      ensures old(shizukuUidCache) == -1 ==> shizukuUidCache == uid
    {
      if shizukuUidCache != -1 {
        return shizukuUidCache;
      }
      match env.brokerUid
      case Some(u) =>
        shizukuUidCache := u;
        return u;
      case None =>
        return -1;
    }

    /** Runs one command line through the broker; a broker that cannot spawn it gives exit code -1. */
    method ExecuteShellCommand(c: Command, env: Env) returns (r: CommandResult)
      requires Valid()
      modifies device
      ensures Valid()
      ensures env.brokerAlive ==>
        r.exitCode == 0 &&
        device.iptables == IptablesAfter(old(device.iptables), c) &&
        device.shell == ShellAfter(old(device.shell), c)
      ensures !env.brokerAlive ==>
        r == CommandResult(-1, EXECUTION_FAILED) &&
        device.iptables == old(device.iptables) && device.shell == old(device.shell)
      ensures device.uidRules == old(device.uidRules)
    {
      if !env.brokerAlive {
        return CommandResult(-1, EXECUTION_FAILED);
      }
      device.Execute(c);
      r := CommandResult(0, "");
    }

    /** Runs an iptables command only as UID 0; otherwise refuses it. */
    method ExecuteIptablesCommand(f: Family, c: IptablesCommand, env: Env) returns (r: CommandResult)
      requires Valid()
      modifies this`shizukuUidCache, device
      ensures Valid()
      ensures BrokerUid(env) == old(BrokerUid(env))
      ensures old(BrokerUid(env)) != 0 ==> r == CommandResult(-1, NOT_IN_ROOT_MODE)
      ensures device.iptables == if old(RootShell(env)) then old(device.iptables).With(f, Run(old(device.iptables).Get(f), c))
                                 else old(device.iptables)
      ensures device.shell == old(device.shell) && device.uidRules == old(device.uidRules)
    {
      var uid := GetShizukuUid(env);
      if uid != 0 {
        return CommandResult(-1, NOT_IN_ROOT_MODE);
      }
      r := ExecuteShellCommand(Ipt(f, c), env);
    }

    /** Creates and hooks the chain for both families, and marks it initialised. */
    method CreateIptablesChains(env: Env)
      requires Valid()
      modifies this`shizukuUidCache, this`hasInitializedIptables, device
      ensures Valid()
      ensures hasInitializedIptables && BrokerUid(env) == old(BrokerUid(env))
      ensures device.iptables == if old(RootShell(env))
                                 then IptablesState(CreateChains(old(device.iptables).v4), CreateChains(old(device.iptables).v6))
                                 else old(device.iptables)
      ensures device.shell == old(device.shell) && device.uidRules == old(device.uidRules)
    {
      var _ := ExecuteIptablesCommand(V4, CreateChain, env);
      var _ := ExecuteIptablesCommand(V4, HookChain, env);
      var _ := ExecuteIptablesCommand(V6, CreateChain, env);
      var _ := ExecuteIptablesCommand(V6, HookChain, env);
      hasInitializedIptables := true;
    }

    /** Flushes the chain of both families. */
    method ClearIptablesChains(env: Env)
      requires Valid()
      modifies this`shizukuUidCache, device
      ensures Valid()
      ensures BrokerUid(env) == old(BrokerUid(env))
      ensures device.iptables == if old(RootShell(env))
                                 then IptablesState(Run(old(device.iptables).v4, FlushChain), Run(old(device.iptables).v6, FlushChain))
                                 else old(device.iptables)
      ensures device.shell == old(device.shell) && device.uidRules == old(device.uidRules)
    {
      var _ := ExecuteIptablesCommand(V4, FlushChain, env);
      var _ := ExecuteIptablesCommand(V6, FlushChain, env);
    }

    /** Unhooks, flushes and deletes the chain of both families, and marks it uninitialised. */
    method DeleteIptablesChains(env: Env)
      requires Valid()
      modifies this`shizukuUidCache, this`hasInitializedIptables, device
      ensures Valid()
      ensures !hasInitializedIptables && BrokerUid(env) == old(BrokerUid(env))
      ensures device.iptables == if old(RootShell(env))
                                 then IptablesState(DeleteChains(old(device.iptables).v4), DeleteChains(old(device.iptables).v6))
                                 else old(device.iptables)
      ensures device.shell == old(device.shell) && device.uidRules == old(device.uidRules)
    {
      var _ := ExecuteIptablesCommand(V4, UnhookChain, env);
      var _ := ExecuteIptablesCommand(V4, FlushChain, env);
      var _ := ExecuteIptablesCommand(V4, DeleteChain, env);
      var _ := ExecuteIptablesCommand(V6, UnhookChain, env);
      var _ := ExecuteIptablesCommand(V6, FlushChain, env);
      var _ := ExecuteIptablesCommand(V6, DeleteChain, env);
      hasInitializedIptables := false;
    }

    /** Deletes the UID's DROP rule in both families, then appends it again when blocked. */
    method ApplyIptablesRule(uid: int, isBlocked: bool, env: Env)
      requires Valid()
      modifies this`shizukuUidCache, device
      ensures Valid()
      ensures BrokerUid(env) == old(BrokerUid(env))
      ensures device.iptables == if old(RootShell(env))
                                 then IptablesState(DropUpdate(old(device.iptables).v4, uid, isBlocked),
                                                    DropUpdate(old(device.iptables).v6, uid, isBlocked))
                                 else old(device.iptables)
      ensures device.shell == old(device.shell) && device.uidRules == old(device.uidRules)
    {
      var _ := ExecuteIptablesCommand(V4, DeleteDrop(uid), env);
      var _ := ExecuteIptablesCommand(V6, DeleteDrop(uid), env);
      if isBlocked {
        var _ := ExecuteIptablesCommand(V4, AppendDrop(uid), env);
        var _ := ExecuteIptablesCommand(V6, AppendDrop(uid), env);
      }
    }

    /**
     * Returns the cached service, or resolves one: the service is kept only
     * when one of the two firewall methods exists, and `setUidFirewallRule`
     * wins when both do.
     */
    method GetConnectivityService(env: Env) returns (found: bool)
      requires Valid()
      modifies this`connectivityService, this`setUidFirewallRuleMethod, this`setFirewallUidRuleMethod
      ensures Valid()
      ensures CachedMethod() == if old(connectivityService) then old(CachedMethod()) else Resolve(env.lookup)
      ensures found == connectivityService == CachedMethod().Some?
    {
      if connectivityService {
        return true;
      }
      match env.lookup
      case Unreachable =>
        return false;
      case Found(hasV1, hasV2) =>
        if hasV1 {
          setUidFirewallRuleMethod := true;
        } else if hasV2 {
          setFirewallUidRuleMethod := true;
        }
        if !setUidFirewallRuleMethod && !setFirewallUidRuleMethod {
          return false;
        }
        connectivityService := true;
        return true;
    }

    /** Forgets the cached service and both method handles. */
    method RefreshConnectivityService()
      modifies this`connectivityService, this`setUidFirewallRuleMethod, this`setFirewallUidRuleMethod
      ensures !connectivityService && CachedMethod() == None
    {
      connectivityService := false;
      setUidFirewallRuleMethod := false;
      setFirewallUidRuleMethod := false;
    }

    /**
     * Sets the UID's rule (DENY when blocked, ALLOW otherwise) on both chains of
     * the resolved method, in at most two attempts with a refresh in between.
     * The outcome stands for the exit path the Kotlin code logs.
     */
    method ApplyConnectivityReflectionRule(uid: int, isBlocked: bool, env: Env) returns (outcome: ReflectOutcome)
      requires Valid()
      modifies this`connectivityService, this`setUidFirewallRuleMethod, this`setFirewallUidRuleMethod, device
      ensures Valid()
      ensures outcome == ReflectOutcomeOf(old(CachedMethod()), env.lookup, env.failing, uid)
      ensures device.uidRules ==
        WriteChains(old(device.uidRules), WrittenChains(old(CachedMethod()), env.lookup, env.failing, uid), uid, RuleCode(isBlocked))
      ensures CachedMethod() == CacheAfter(outcome, env.lookup)
      ensures device.iptables == old(device.iptables) && device.shell == old(device.shell)
    {
      var rule := RuleCode(isBlocked);
      ghost var first := FirstMethod(old(CachedMethod()), env.lookup);
      for attempt := 1 to 3
        invariant Valid()
        invariant device.iptables == old(device.iptables) && device.shell == old(device.shell)
        invariant attempt == 1 ==> CachedMethod() == old(CachedMethod()) && device.uidRules == old(device.uidRules)
        invariant attempt >= 2 ==> first.Some? && AttemptThrows(env.failing, uid, 1)
        invariant attempt == 2 ==> CachedMethod() == None &&
                                   device.uidRules == WriteChains(old(device.uidRules), AttemptWrites(first.value, env.failing, uid, 1), uid, rule)
        invariant attempt == 3 ==> Resolve(env.lookup).Some? && AttemptThrows(env.failing, uid, 2) &&
                                   CachedMethod() == Resolve(env.lookup) &&
                                   device.uidRules == WriteChains(old(device.uidRules), WrittenChains(old(CachedMethod()), env.lookup, env.failing, uid), uid, rule)
      {
        var found := GetConnectivityService(env);
        if !found {
          return NoService(attempt);
        }
        var m := CachedMethod().value;
        var threw := InvokeCached(uid, rule, attempt, env.failing);
        if attempt == 2 {
          WriteChainsBothAttempts(old(device.uidRules), old(CachedMethod()), env.lookup, env.failing, uid, rule);
        }
        if !threw {
          return Applied(attempt, m);
        }
        if attempt == 1 {
          RefreshConnectivityService();
        }
      }
      return Aborted;
    }

    /**
     * Invokes the cached method handle on its two chains for the UID, one
     * invocation after the other; a throw ends the attempt, so a second
     * invocation that throws leaves the first chain written.
     */
    method InvokeCached(uid: int, rule: int, attempt: int, failing: set<(int, int, int)>) returns (threw: bool)
      requires Valid() && CachedMethod().Some?
      modifies device
      ensures Valid()
      ensures threw == AttemptThrows(failing, uid, attempt)
      ensures device.uidRules ==
        WriteChains(old(device.uidRules), AttemptWrites(CachedMethod().value, failing, uid, attempt), uid, rule)
      ensures device.iptables == old(device.iptables) && device.shell == old(device.shell)
    {
      var first, second := 1, 2;
      if setFirewallUidRuleMethod {
        first, second := 0, 1;
      }
      WriteChainsShort(device.uidRules, first, second, uid, rule);
      if (uid, attempt, 1) in failing {
        return true;
      }
      device.SetFirewallRule(first, uid, rule);
      if (uid, attempt, 2) in failing {
        return true;
      }
      device.SetFirewallRule(second, uid, rule);
      return false;
    }

    /** Switches chain 3 on and marks the shell path initialised. */
    method EnableConnectivityShellChain(env: Env)
      requires Valid()
      modifies this`hasInitializedConnectivityShell, device
      ensures Valid()
      ensures hasInitializedConnectivityShell
      ensures device.shell == if env.brokerAlive then old(device.shell).(chain3Enabled := true) else old(device.shell)
      ensures device.iptables == old(device.iptables) && device.uidRules == old(device.uidRules)
    {
      var _ := ExecuteShellCommand(Shell(SetChain3Enabled(true)), env);
      hasInitializedConnectivityShell := true;
    }

    /** Switches chain 3 off and marks the shell path uninitialised. */
    method DisableConnectivityShellChain(env: Env)
      requires Valid()
      modifies this`hasInitializedConnectivityShell, device
      ensures Valid()
      ensures !hasInitializedConnectivityShell
      ensures device.shell == if env.brokerAlive then old(device.shell).(chain3Enabled := false) else old(device.shell)
      ensures device.iptables == old(device.iptables) && device.uidRules == old(device.uidRules)
    {
      var _ := ExecuteShellCommand(Shell(SetChain3Enabled(false)), env);
      hasInitializedConnectivityShell := false;
    }

    /** Switches the package's networking on when allowed and off when blocked (Wi-Fi and mobile alike). */
    method ApplyConnectivityShellRule(packageName: string, isBlocked: bool, env: Env)
      requires Valid()
      modifies device
      ensures Valid()
      ensures device.shell == if env.brokerAlive
                              then old(device.shell).(packageNetworking := old(device.shell).packageNetworking[packageName := !isBlocked])
                              else old(device.shell)
      ensures device.iptables == old(device.iptables) && device.uidRules == old(device.uidRules)
    {
      var enabled := !isBlocked;
      var _ := ExecuteShellCommand(Shell(SetPackageNetworkingEnabled(enabled, packageName)), env);
    }

    /** Applies one app's rule through the backend the release and the broker UID select. */
    method ApplyRule(uid: int, packageName: string, isBlocked: bool, env: Env) returns (backend: Backend)
      requires Valid()
      modifies this, device
      ensures Valid()
      ensures backend == SelectBackend(env.sdk, old(BrokerUid(env)))
      ensures BrokerUid(env) == old(BrokerUid(env))
      ensures backend == ConnectivityShell ==>
        hasInitializedConnectivityShell &&
        device.shell == (if env.brokerAlive
                         then ShellRuleAfter(old(device.shell), old(hasInitializedConnectivityShell), packageName, isBlocked)
                         else old(device.shell)) &&
        device.iptables == old(device.iptables) && device.uidRules == old(device.uidRules) &&
        hasInitializedIptables == old(hasInitializedIptables) && CachedMethod() == old(CachedMethod())
      ensures backend == Iptables ==>
        hasInitializedIptables &&
        device.iptables == (if env.brokerAlive
                            then IptablesState(
                              IptablesRuleAfter(old(device.iptables).v4, old(hasInitializedIptables), uid, isBlocked),
                              IptablesRuleAfter(old(device.iptables).v6, old(hasInitializedIptables), uid, isBlocked))
                            else old(device.iptables)) &&
        device.shell == old(device.shell) && device.uidRules == old(device.uidRules) &&
        hasInitializedConnectivityShell == old(hasInitializedConnectivityShell) && CachedMethod() == old(CachedMethod())
      ensures backend == ConnectivityReflection ==>
        var outcome := ReflectOutcomeOf(old(CachedMethod()), env.lookup, env.failing, uid);
        device.uidRules == WriteChains(old(device.uidRules), WrittenChains(old(CachedMethod()), env.lookup, env.failing, uid),
                                       uid, RuleCode(isBlocked)) &&
        CachedMethod() == CacheAfter(outcome, env.lookup) &&
        device.iptables == old(device.iptables) && device.shell == old(device.shell) &&
        hasInitializedIptables == old(hasInitializedIptables) &&
        hasInitializedConnectivityShell == old(hasInitializedConnectivityShell)
    {
      if env.sdk >= TIRAMISU {
        backend := ConnectivityShell;
        if !hasInitializedConnectivityShell {
          EnableConnectivityShellChain(env);
        }
        ApplyConnectivityShellRule(packageName, isBlocked, env);
      } else {
        var brokerUid := GetShizukuUid(env);
        if brokerUid == 0 {
          backend := Iptables;
          if !hasInitializedIptables {
            CreateIptablesChains(env);
          }
          ApplyIptablesRule(uid, isBlocked, env);
        } else {
          backend := ConnectivityReflection;
          var _ := ApplyConnectivityReflectionRule(uid, isBlocked, env);
        }
      }
    }

    /**
     * Re-applies the whole SHIZUKU rule set (the Wi-Fi flag of every installed
     * package) through the selected backend. `installed` is None when listing
     * the packages threw.
     */
    method ApplyAllRules(installed: Option<seq<InstalledApp>>, prefs: FirewallPreferences, env: Env)
      returns (backend: Backend)
      requires Valid()
      modifies this, device
      ensures Valid()
      ensures backend == SelectBackend(env.sdk, old(BrokerUid(env)))
      ensures BrokerUid(env) == old(BrokerUid(env))
      ensures backend == ConnectivityShell ==>
        var apps := Listed(installed);
        var store := prefs.shizukuPrefs;
        hasInitializedConnectivityShell &&
        (env.brokerAlive ==>
          device.shell.chain3Enabled &&
          device.shell.packageNetworking.Keys == old(device.shell.packageNetworking).Keys + PackagesOf(apps) &&
          (forall p :: p in PackagesOf(apps) ==> device.shell.packageNetworking[p] == !WifiBlocked(store, p)) &&
          (forall p :: p in old(device.shell.packageNetworking) && p !in PackagesOf(apps) ==>
             device.shell.packageNetworking[p] == old(device.shell.packageNetworking)[p])) &&
        (!env.brokerAlive ==> device.shell == old(device.shell)) &&
        device.iptables == old(device.iptables) && device.uidRules == old(device.uidRules)
      ensures backend == Iptables ==>
        var apps := Listed(installed);
        var t4 := if old(hasInitializedIptables) then old(device.iptables).v4 else CreateChains(old(device.iptables).v4);
        var t6 := if old(hasInitializedIptables) then old(device.iptables).v6 else CreateChains(old(device.iptables).v6);
        hasInitializedIptables &&
        (env.brokerAlive ==>
          device.iptables.v4.chainExists == t4.chainExists && device.iptables.v4.hooks == t4.hooks &&
          device.iptables.v6.chainExists == t6.chainExists && device.iptables.v6.hooks == t6.hooks &&
          (t4.chainExists ==> DropsExactly(device.iptables.v4, BlockedUids(apps, prefs.shizukuPrefs))) &&
          (t6.chainExists ==> DropsExactly(device.iptables.v6, BlockedUids(apps, prefs.shizukuPrefs))) &&
          (!old(hasInitializedIptables) ==>
             device.iptables.v4.chainExists && device.iptables.v4.hooks == 1 &&
             device.iptables.v6.chainExists && device.iptables.v6.hooks == 1)) &&
        (!env.brokerAlive ==> device.iptables == old(device.iptables)) &&
        device.shell == old(device.shell) && device.uidRules == old(device.uidRules)
      ensures backend == ConnectivityReflection ==>
        var apps := Listed(installed);
        var m := FirstMethod(old(CachedMethod()), env.lookup);
        AgreeOutside(device.uidRules, old(device.uidRules), UidsOf(apps)) &&
        (env.failing == {} && m.None? ==> device.uidRules == old(device.uidRules)) &&
        (env.failing == {} && m.Some? ==>
          forall i :: 0 <= i < |apps| && LastWithUid(apps, i) ==>
            var code := RuleCode(WifiBlocked(prefs.shizukuPrefs, apps[i].packageName));
            HasRule(device.uidRules, Chains(m.value).0, apps[i].uid, code) &&
            HasRule(device.uidRules, Chains(m.value).1, apps[i].uid, code)) &&
        device.iptables == old(device.iptables) && device.shell == old(device.shell)
    {
      if env.sdk >= TIRAMISU {
        backend := ConnectivityShell;
        EnableConnectivityShellChain(env);
        if installed.Some? {
          SyncConnectivityShell(installed.value, prefs, env);
        }
      } else {
        var brokerUid := GetShizukuUid(env);
        if brokerUid == 0 {
          backend := Iptables;
          ReapplyIptables(Listed(installed), prefs, env);
        } else {
          backend := ConnectivityReflection;
          SetReflectionRules(Listed(installed), prefs.shizukuPrefs, false, env);
        }
      }
    }

    /**
     * The iptables part of the full sync, with the broker running as root:
     * the chain is created and hooked once, flushed, and refilled with one
     * DROP rule per blocked UID.
     */
    method ReapplyIptables(apps: seq<InstalledApp>, prefs: FirewallPreferences, env: Env)
      requires Valid() && BrokerUid(env) == 0
      modifies this, device
      ensures Valid()
      ensures BrokerUid(env) == old(BrokerUid(env))
      ensures var t4 := if old(hasInitializedIptables) then old(device.iptables).v4 else CreateChains(old(device.iptables).v4);
        var t6 := if old(hasInitializedIptables) then old(device.iptables).v6 else CreateChains(old(device.iptables).v6);
        hasInitializedIptables &&
        (env.brokerAlive ==>
          device.iptables.v4.chainExists == t4.chainExists && device.iptables.v4.hooks == t4.hooks &&
          device.iptables.v6.chainExists == t6.chainExists && device.iptables.v6.hooks == t6.hooks &&
          (t4.chainExists ==> DropsExactly(device.iptables.v4, BlockedUids(apps, prefs.shizukuPrefs))) &&
          (t6.chainExists ==> DropsExactly(device.iptables.v6, BlockedUids(apps, prefs.shizukuPrefs))) &&
          (!old(hasInitializedIptables) ==>
             device.iptables.v4.chainExists && device.iptables.v4.hooks == 1 &&
             device.iptables.v6.chainExists && device.iptables.v6.hooks == 1)) &&
        (!env.brokerAlive ==> device.iptables == old(device.iptables)) &&
        device.shell == old(device.shell) && device.uidRules == old(device.uidRules)
      ensures hasInitializedConnectivityShell == old(hasInitializedConnectivityShell)
    {
      if !hasInitializedIptables {
        CreateIptablesChains(env);
        CreateChainsHooksOnce(old(device.iptables).v4);
        CreateChainsHooksOnce(old(device.iptables).v6);
      }
      ClearIptablesChains(env);
      ghost var flushed := device.iptables;
      SyncIptables(apps, prefs, env);
      if env.brokerAlive {
        SyncTableExact(flushed.v4, apps, prefs.shizukuPrefs);
        SyncTableExact(flushed.v6, apps, prefs.shizukuPrefs);
      }
    }

    /** The shell part of the full sync: one package-networking switch per installed package. */
    method SyncConnectivityShell(apps: seq<InstalledApp>, prefs: FirewallPreferences, env: Env)
      requires Valid()
      modifies device
      ensures Valid()
      ensures env.brokerAlive ==>
        device.shell.chain3Enabled == old(device.shell.chain3Enabled) &&
        device.shell.packageNetworking.Keys == old(device.shell.packageNetworking).Keys + PackagesOf(apps) &&
        (forall p :: p in PackagesOf(apps) ==> device.shell.packageNetworking[p] == !WifiBlocked(prefs.shizukuPrefs, p)) &&
        (forall p :: p in old(device.shell.packageNetworking) && p !in PackagesOf(apps) ==>
           device.shell.packageNetworking[p] == old(device.shell.packageNetworking)[p])
      ensures !env.brokerAlive ==> device.shell == old(device.shell)
      ensures device.iptables == old(device.iptables) && device.uidRules == old(device.uidRules)
    {
      for i := 0 to |apps|
        invariant Valid()
        invariant env.brokerAlive ==>
          device.shell.chain3Enabled == old(device.shell.chain3Enabled) &&
          NetworkingSynced(old(device.shell.packageNetworking), device.shell.packageNetworking,
                           PackagesOf(apps[..i]), prefs.shizukuPrefs)
        invariant !env.brokerAlive ==> device.shell == old(device.shell)
        invariant device.iptables == old(device.iptables) && device.uidRules == old(device.uidRules)
      {
        var isBlocked := prefs.IsWifiBlocked(SHIZUKU, apps[i].packageName);
        assert PackagesOf(apps[..i + 1]) == PackagesOf(apps[..i]) + {apps[i].packageName} by {
          assert apps[..i + 1] == apps[..i] + [apps[i]];
        }
        if env.brokerAlive {
          NetworkingSyncedStep(old(device.shell.packageNetworking), device.shell.packageNetworking,
                               PackagesOf(apps[..i]), prefs.shizukuPrefs, apps[i].packageName);
        }
        ApplyConnectivityShellRule(apps[i].packageName, isBlocked, env);
      }
      assert apps[..|apps|] == apps;
    }

    /** The iptables part of the full sync: one DROP rule per blocked installed package. */
    method SyncIptables(apps: seq<InstalledApp>, prefs: FirewallPreferences, env: Env)
      requires Valid()
      modifies this`shizukuUidCache, device
      ensures Valid()
      ensures BrokerUid(env) == old(BrokerUid(env))
      ensures device.iptables == if old(RootShell(env))
                                 then IptablesState(SyncTable(old(device.iptables).v4, apps, prefs.shizukuPrefs),
                                                    SyncTable(old(device.iptables).v6, apps, prefs.shizukuPrefs))
                                 else old(device.iptables)
      ensures device.shell == old(device.shell) && device.uidRules == old(device.uidRules)
    {
      for i := 0 to |apps|
        invariant Valid()
        invariant BrokerUid(env) == old(BrokerUid(env))
        invariant device.iptables == if old(RootShell(env))
                                     then IptablesState(SyncTable(old(device.iptables).v4, apps[..i], prefs.shizukuPrefs),
                                                        SyncTable(old(device.iptables).v6, apps[..i], prefs.shizukuPrefs))
                                     else old(device.iptables)
        invariant device.shell == old(device.shell) && device.uidRules == old(device.uidRules)
      {
        var isBlocked := prefs.IsWifiBlocked(SHIZUKU, apps[i].packageName);
        assert apps[..i + 1][..i] == apps[..i];
        if isBlocked {
          ApplyIptablesRule(apps[i].uid, true, env);
        }
      }
      assert apps[..|apps|] == apps;
    }

    /**
     * The reflective part of the full sync and of the removal: every installed
     * app gets the rule its flag asks for (`allowAll` sets ALLOW for all).
     */
    method SetReflectionRules(apps: seq<InstalledApp>, store: Store, allowAll: bool, env: Env)
      requires Valid()
      modifies this`connectivityService, this`setUidFirewallRuleMethod, this`setFirewallUidRuleMethod, device
      ensures Valid()
      ensures AgreeOutside(device.uidRules, old(device.uidRules), UidsOf(apps))
      ensures env.failing == {} && FirstMethod(old(CachedMethod()), env.lookup).None? ==>
        device.uidRules == old(device.uidRules)
      ensures env.failing == {} && FirstMethod(old(CachedMethod()), env.lookup).Some? ==>
        RulesReflect(device.uidRules, apps, |apps|, FirstMethod(old(CachedMethod()), env.lookup).value, store, allowAll)
      ensures device.iptables == old(device.iptables) && device.shell == old(device.shell)
    {
      ghost var m := FirstMethod(old(CachedMethod()), env.lookup);
      for i := 0 to |apps|
        invariant Valid()
        invariant AgreeOutside(device.uidRules, old(device.uidRules), UidsOf(apps[..i]))
        invariant env.failing == {} && m.None? ==> device.uidRules == old(device.uidRules) && CachedMethod() == None
        invariant env.failing == {} && m.Some? ==>
          FirstMethod(CachedMethod(), env.lookup) == m &&
          RulesReflect(device.uidRules, apps, i, m.value, store, allowAll)
        invariant device.iptables == old(device.iptables) && device.shell == old(device.shell)
      {
        var isBlocked := !allowAll && WifiBlocked(store, apps[i].packageName);
        ghost var before := device.uidRules;
        ghost var cachedBefore := CachedMethod();
        var outcome := ApplyConnectivityReflectionRule(apps[i].uid, isBlocked, env);
        ReflectionPassStep(old(device.uidRules), before, device.uidRules, apps, i, cachedBefore, env.lookup, env.failing,
                           store, allowAll);
      }
      assert apps[..|apps|] == apps;
    }

    /**
     * Takes every rule away through the selected backend: chain 3 is switched
     * off, the iptables chains are deleted, or every installed app gets ALLOW.
     */
    method RemoveAllRules(installed: Option<seq<InstalledApp>>, env: Env) returns (backend: Backend)
      requires Valid()
      modifies this, device
      ensures Valid()
      ensures backend == SelectBackend(env.sdk, old(BrokerUid(env)))
      ensures BrokerUid(env) == old(BrokerUid(env))
      ensures backend == ConnectivityShell ==>
        !hasInitializedConnectivityShell &&
        device.shell == (if old(hasInitializedConnectivityShell) && env.brokerAlive
                         then old(device.shell).(chain3Enabled := false) else old(device.shell)) &&
        device.iptables == old(device.iptables) && device.uidRules == old(device.uidRules)
      ensures backend == Iptables ==>
        !hasInitializedIptables &&
        device.iptables == (if old(hasInitializedIptables) && env.brokerAlive
                            then IptablesState(Table(false, 0, []), Table(false, 0, []))
                            else old(device.iptables)) &&
        device.shell == old(device.shell) && device.uidRules == old(device.uidRules)
      ensures backend == ConnectivityReflection ==>
        var apps := Listed(installed);
        var m := FirstMethod(old(CachedMethod()), env.lookup);
        AgreeOutside(device.uidRules, old(device.uidRules), UidsOf(apps)) &&
        (env.failing == {} && m.Some? ==>
          forall a :: a in apps ==>
            HasRule(device.uidRules, Chains(m.value).0, a.uid, FIREWALL_RULE_ALLOW) &&
            HasRule(device.uidRules, Chains(m.value).1, a.uid, FIREWALL_RULE_ALLOW)) &&
        device.iptables == old(device.iptables) && device.shell == old(device.shell)
    {
      if env.sdk >= TIRAMISU {
        backend := ConnectivityShell;
        if hasInitializedConnectivityShell {
          DisableConnectivityShellChain(env);
        }
      } else {
        var brokerUid := GetShizukuUid(env);
        if brokerUid == 0 {
          backend := Iptables;
          if hasInitializedIptables {
            DeleteIptablesChains(env);
            DeleteChainsRemovesAll(old(device.iptables).v4);
            DeleteChainsRemovesAll(old(device.iptables).v6);
          }
        } else {
          backend := ConnectivityReflection;
          var apps := Listed(installed);
          SetReflectionRules(apps, map[], true, env);
          forall a | a in apps
            ensures exists i :: 0 <= i < |apps| && LastWithUid(apps, i) && apps[i].uid == a.uid
          {
            LastOccurrence(apps, a);
          }
        }
      }
    }
  }

  /** Every listed app's UID is also the UID of the last app that has it. */
  lemma LastOccurrence(apps: seq<InstalledApp>, a: InstalledApp)
    requires a in apps
    ensures exists i :: 0 <= i < |apps| && LastWithUid(apps, i) && apps[i].uid == a.uid
  {
    var i :| 0 <= i < |apps| && apps[i] == a;
    while !LastWithUid(apps, i)
      invariant 0 <= i < |apps| && apps[i].uid == a.uid
      decreases |apps| - i
    {
      var j :| i < j < |apps| && apps[j].uid == apps[i].uid;
      i := j;
    }
  }
}
