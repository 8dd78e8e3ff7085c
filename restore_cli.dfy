/**
 * The restore launcher: which push scripts it starts, in which order, in
 * which folder, and on which YAML file, for the resource (`-R`), policy
 * (`-P`) and site (`-S`) restores, optionally pointed at one file (`-F`).
 */
module RestoreCli {
  import opened Wrappers
  import Text

  /** The backup file of each policy kind, relative to the project root. */
  const PolicyFiles: map<string, string> := map[
    "path" := "01_backups/02_policies/path_policyconfig.yml",
    "qos" := "01_backups/02_policies/qos_policyconfig.yml",
    "nat" := "01_backups/02_policies/nat_policyconfig.yml",
    "security" := "01_backups/02_policies/security_policyconfig.yml",
    "performance" := "01_backups/02_policies/performance_policyconfig.yml"
  ]

  /** The kinds `-P` (or `-P all`) restores, in this order. */
  const AllPolicies: seq<string> := ["nat", "path", "qos", "security", "performance"]

  /** One `run_cmd` call: what it reports, the shell command, and the folder it runs in. */
  datatype Command = Command(name: string, cmd: string, cwd: string)

  /** A command-line option that was given a non-empty value (Python truthiness of a string). */
  predicate Given(o: Option<string>) {
    o.Some? && o.value != ""
  }

  /** `-P` names one kind, or `all` for every kind in the fixed order. */
  function Targets(policies: string): (r: seq<string>)
    ensures policies == "all" ==> r == AllPolicies
    ensures policies != "all" ==> r == [policies]
    ensures forall p | p in r :: p == policies || p in AllPolicies
  {
    if policies == "all" then AllPolicies else [policies]
  }

  /** Every kind `all` stands for has a backup file, and those are all the kinds. */
  lemma AllCoversPolicyFiles()
    ensures forall p :: p in AllPolicies <==> p in PolicyFiles
  {
  }

  /**
   * The file a policy push reads: `-F` when given, made parent-relative with
   * a `../` prefix unless it already starts with `..` or `/`; otherwise the
   * kind's backup file under `../`.
   */
  function PolicyPath(p: string, filename: Option<string>): (r: string)
    requires p in PolicyFiles
    ensures !Given(filename) ==> r == "../" + PolicyFiles[p]
    ensures Given(filename) && (Text.StartsWith(filename.value, "..") || Text.StartsWith(filename.value, "/")) ==>
              r == filename.value
    ensures Given(filename) && !Text.StartsWith(filename.value, "..") && !Text.StartsWith(filename.value, "/") ==>
              r == "../" + filename.value
  {
    if Given(filename) && !Text.StartsWith(filename.value, "..") && !Text.StartsWith(filename.value, "/") then
      "../" + filename.value
    else if Given(filename) then filename.value
    else "../" + PolicyFiles[p]
  }

  /** The script runs one folder down, so every path it hands on leaves that folder or is absolute. */
  lemma PolicyPathAnchored(p: string, filename: Option<string>)
    requires p in PolicyFiles
    ensures Text.StartsWith(PolicyPath(p, filename), "..") || Text.StartsWith(PolicyPath(p, filename), "/")
  {
    var r := PolicyPath(p, filename);
    if !Given(filename) || (!Text.StartsWith(filename.value, "..") && !Text.StartsWith(filename.value, "/")) {
      assert r[..2] == "..";
    }
  }

  /** Feeding a chosen path back in as `-F` chooses it again: the prefix is added at most once. */
  lemma PolicyPathIdempotent(p: string, filename: Option<string>)
    requires p in PolicyFiles
    ensures PolicyPath(p, Some(PolicyPath(p, filename))) == PolicyPath(p, filename)
  {
    PolicyPathAnchored(p, filename);
  }

  /** The push of one policy kind. */
  function PolicyCommand(p: string, path: string): Command {
    Command("Policy: " + p, "python3 push_policy_refactored_original-gemini.py -PT " + p + " -F '" + path + "'",
            "02_policy_scripts")
  }

  /** The policy loop: one push per target that has a backup file, in target order; others are skipped. */
  function PolicyCommands(targets: seq<string>, filename: Option<string>): (r: seq<Command>)
    ensures |r| <= |targets|
    decreases |targets|
  {
    if targets == [] then []
    else
      var rest := PolicyCommands(targets[1..], filename);
      if targets[0] in PolicyFiles then [PolicyCommand(targets[0], PolicyPath(targets[0], filename))] + rest
      else rest
  }

  /** Exactly the targets that have a backup file get a push, each on its chosen path. */
  lemma {:induction false} PolicyCommandsMembers(targets: seq<string>, filename: Option<string>)
    ensures forall p | p in targets && p in PolicyFiles :: PolicyCommand(p, PolicyPath(p, filename)) in PolicyCommands(targets, filename)
    ensures forall c | c in PolicyCommands(targets, filename) ::
              exists p | p in targets && p in PolicyFiles :: c == PolicyCommand(p, PolicyPath(p, filename))
    decreases |targets|
  {
    if targets != [] {
      PolicyCommandsMembers(targets[1..], filename);
      assert forall p | p in targets[1..] :: p in targets;
      assert forall p | p in targets :: p == targets[0] || p in targets[1..];
    }
  }

  /** The policy loop splits over its targets, so each target contributes its own command or none. */
  lemma {:induction false} PolicyCommandsAppend(a: seq<string>, b: seq<string>, filename: Option<string>)
    ensures PolicyCommands(a + b, filename) == PolicyCommands(a, filename) + PolicyCommands(b, filename)
    decreases |a|
  {
    if a == [] {
      assert a + b == b;
    } else {
      assert (a + b)[1..] == a[1..] + b;
      PolicyCommandsAppend(a[1..], b, filename);
    }
  }

  /** `-P all` without `-F` pushes every kind from its own backup file, in the fixed order. */
  lemma AllPoliciesPlan()
    ensures PolicyCommands(Targets("all"), None) == [
      PolicyCommand("nat", "../" + PolicyFiles["nat"]),
      PolicyCommand("path", "../" + PolicyFiles["path"]),
      PolicyCommand("qos", "../" + PolicyFiles["qos"]),
      PolicyCommand("security", "../" + PolicyFiles["security"]),
      PolicyCommand("performance", "../" + PolicyFiles["performance"])
    ]
  {
    var t := AllPolicies;
    assert t[1..] == ["path", "qos", "security", "performance"];
    assert t[1..][1..] == ["qos", "security", "performance"];
    assert t[1..][1..][1..] == ["security", "performance"];
    assert t[1..][1..][1..][1..] == ["performance"];
    assert t[1..][1..][1..][1..][1..] == [];
  }

  /** A single kind with no backup file starts nothing. */
  lemma UnknownPolicySkipped(p: string, filename: Option<string>)
    requires p != "all" && p !in PolicyFiles
    ensures PolicyCommands(Targets(p), filename) == []
  {
    assert [p][1..] == [];
  }

  /** The resource backup pushed when no `-F` is given. */
  const LatestResources: string := "../01_backups/01_resources/latest_resources.yml"

  /** The resource push: `-F`, or the latest resource backup. */
  function ResourceCommand(filename: Option<string>): (r: Command)
    ensures r.cwd == "02_policy_scripts"
    ensures Given(filename) ==> r.cmd == "python3 push_resources_refactored.py --filename '" + filename.value + "'"
    ensures !Given(filename) ==> r.cmd == "python3 push_resources_refactored.py --filename '" + LatestResources + "'"
  {
    var fname := if Given(filename) then filename.value else LatestResources;
    Command("Resources", "python3 push_resources_refactored.py --filename '" + fname + "'", "02_policy_scripts")
  }

  /** The site push: `-F`, or the site's own backup named after it. */
  function SiteCommand(site: string, filename: Option<string>): (r: Command)
    ensures r.cwd == "03_config_tool" && r.name == "Site: " + site
    ensures Given(filename) ==> r.cmd == "python3 do_site.py --force-update '" + filename.value + "'"
    ensures !Given(filename) ==> r.cmd == "python3 do_site.py --force-update '../01_backups/03_sites/" + site + ".yml'"
  {
    var fname := if Given(filename) then filename.value else "../01_backups/03_sites/" + site + ".yml";
    Command("Site: " + site, "python3 do_site.py --force-update '" + fname + "'", "03_config_tool")
  }

  /**
   * `main`: the commands started, in order — resources when `-R`, then the
   * policy pushes when `-P` has a value, then the site when `-S` has one.
   */
  function Plan(resources: bool, policies: Option<string>, site: Option<string>, filename: Option<string>): (r: seq<Command>)
    ensures var res := if resources then [ResourceCommand(filename)] else [];
            var pol := if Given(policies) then PolicyCommands(Targets(policies.value), filename) else [];
            var st := if Given(site) then [SiteCommand(site.value, filename)] else [];
            r == res + pol + st
    ensures !resources && !Given(policies) && !Given(site) ==> r == []
  {
    (if resources then [ResourceCommand(filename)] else [])
    + (if Given(policies) then PolicyCommands(Targets(policies.value), filename) else [])
    + (if Given(site) then [SiteCommand(site.value, filename)] else [])
  }
}
