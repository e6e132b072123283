/**
 * The configuration model of stm, the system tool manager: the package
 * managers it knows (how to install and update through each) and the tools
 * it tracks (which manager owns which package, and how to tell whether it
 * is already installed), with the queries the commands are built on.
 */
module Stm {
  import opened Wrappers
  import opened Seqs

  /** A package manager: its name (the key tools refer to) and its two command templates. */
  datatype Manager = Manager(name: string, installCommand: string, updateCommand: string)
  {
    /** `Manager::new`: every field is taken from the argument of the same name. */
    static function New(name: string, installCommand: string, updateCommand: string): (m: Manager)
      ensures m.name == name
      ensures m.installCommand == installCommand
      ensures m.updateCommand == updateCommand
    {
      Manager(name, installCommand, updateCommand)
    }
  }

  /** The configured managers, in declaration order. */
  datatype ManagerList = ManagerList(items: seq<Manager>)
  {
    /** The manager names, one per manager and in declaration order. */
    function Names(): (r: seq<string>)
      ensures |r| == |items|
      ensures forall i :: 0 <= i < |items| ==> r[i] == items[i].name
    {
      Map(items, (m: Manager) => m.name)
    }
  }

  /**
   * A tracked tool: the package to hand to its manager, the manager's name,
   * and the binary name or file path whose presence means it is installed.
   */
  datatype Tool = Tool(package: string, binary: Option<string>, path: Option<string>, manager: string)
  {
    /**
     * `Tool::new`: an absent binary or path is stored as the empty string
     * rather than as None, so both optional fields always end up present.
     */
    static function New(package: string, binary: Option<string>, path: Option<string>, manager: string): (t: Tool)
      ensures t.package == package && t.manager == manager
      ensures t.binary.Some? && t.path.Some?
      ensures binary.Some? ==> t.binary == binary
      ensures binary.None? ==> t.binary == Some("")
      ensures path.Some? ==> t.path == path
      ensures path.None? ==> t.path == Some("")
    {
      Tool(package, Some(OrEmpty(binary)), Some(OrEmpty(path)), manager)
    }

    /** `Tool::new_binary`: detected by a binary name; the path is `Some("")`, not None. */
    static function NewBinary(package: string, binary: string, manager: string): (t: Tool)
      ensures t.package == package && t.manager == manager
      ensures t.binary == Some(binary)
      ensures t.path == Some("")
    {
      New(package, Some(binary), None, manager)
    }

    /** `Tool::new_path`: detected by a file path; the binary is `Some("")`, not None. */
    static function NewPath(package: string, path: string, manager: string): (t: Tool)
      ensures t.package == package && t.manager == manager
      ensures t.binary == Some("")
      ensures t.path == Some(path)
    {
      New(package, None, Some(path), manager)
    }
  }

  /** `unwrap_or("")` on an optional string. */
  function OrEmpty(s: Option<string>): string
  {
    match s
    case Some(v) => v
    case None => ""
  }

  /** The predicate "this tool belongs to `manager`", compared by name. */
  function ManagedBy(manager: string): Tool -> bool
  {
    (t: Tool) => manager == t.manager
  }

  /** The tracked tools, in declaration order. */
  datatype ToolList = ToolList(items: seq<Tool>)
  {
    /**
     * The tools whose manager is `manager`, in their original relative
     * order; empty when no tool names it, whether or not such a manager is
     * configured.
     */
    function FilterByManager(manager: string): (r: seq<Tool>)
      ensures IsSubseq(r, items) && |r| <= |items|
      ensures forall i :: 0 <= i < |r| ==> r[i].manager == manager
      ensures forall t: Tool :: t.manager == manager ==> multiset(r)[t] == multiset(items)[t]
      ensures r == [] <==> forall i :: 0 <= i < |items| ==> items[i].manager != manager
    {
      FilterMultiset(items, ManagedBy(manager));
      FilterMembers(items, ManagedBy(manager));
      Filter(items, ManagedBy(manager))
    }
  }

  /** A loaded configuration: the managers and the tools, both read-only. */
  datatype Config = Config(managers: ManagerList, tools: ToolList)
  {
    /** `Config::find_manager`: a manager with exactly this name, if any. */
    function FindManager(name: string): (r: Option<Manager>)
      ensures r.Some? ==> r.value in managers.items && r.value.name == name
      ensures r.None? <==> forall i :: 0 <= i < |managers.items| ==> managers.items[i].name != name
    {
      FirstNamed(managers.items, name)
    }
  }

  /** The first manager of `ms` named `name`, scanning from the front (`iter().find`). */
  function FirstNamed(ms: seq<Manager>, name: string): (r: Option<Manager>)
    ensures r.Some? ==> r.value in ms && r.value.name == name
    ensures r.None? <==> forall i :: 0 <= i < |ms| ==> ms[i].name != name
  {
    if ms == [] then None
    else if name == ms[0].name then Some(ms[0])
    else FirstNamed(ms[1..], name)
  }

  /**
   * When several managers share a name, FindManager returns the one declared
   * first.
   */
  lemma {:induction false} FindManagerFirst(config: Config, name: string, i: nat)
    requires i < |config.managers.items| && config.managers.items[i].name == name
    requires forall j :: 0 <= j < i ==> config.managers.items[j].name != name
    ensures config.FindManager(name) == Some(config.managers.items[i])
    decreases i
  {
    var ms := config.managers.items;
    if i > 0 {
      var tail := Config(ManagerList(ms[1..]), config.tools);
      assert ms[0].name != name;
      forall j | 0 <= j < i - 1 ensures tail.managers.items[j].name != name {
        assert tail.managers.items[j] == ms[j + 1];
      }
      FindManagerFirst(tail, name, i - 1);
    }
  }

  /** Filtering the tools of a manager again by the same manager changes nothing. */
  lemma FilterByManagerIdempotent(tools: ToolList, manager: string)
    ensures ToolList(tools.FilterByManager(manager)).FilterByManager(manager) == tools.FilterByManager(manager)
  {
    FilterIdempotent(tools.items, ManagedBy(manager));
  }

  /**
   * FilterByManager is determined by its contract: the only order-preserving
   * subsequence of the tools that holds only tools of `manager` and keeps
   * every one of them is its result.
   */
  lemma FilterByManagerExact(tools: ToolList, manager: string, r: seq<Tool>)
    requires IsSubseq(r, tools.items)
    requires forall i :: 0 <= i < |r| ==> r[i].manager == manager
    requires forall t: Tool :: t.manager == manager ==> multiset(r)[t] == multiset(tools.items)[t]
    ensures r == tools.FilterByManager(manager)
  {
    FilterUnique(tools.items, ManagedBy(manager), r);
  }

  /** The configuration the source's unit tests build. */
  function TestConfig(): Config
  {
    Config(
      ManagerList([
        Manager.New("arch", "yay -Sy {{packages}}", "yay -Syu"),
        Manager.New("cargo", "cargo install --force {{packages}}", "cargo install --force {{packages}}"),
        Manager.New("misc", "misc.sh install", "misc.sh update")
      ]),
      ToolList([
        Tool.NewBinary("alacritty", "alacritty", "arch"),
        Tool.NewPath("ttf-fira-code", "/usr/share/fonts/TTF/FiraCode-Regular.ttf", "arch"),
        Tool.NewPath("cargo-watch", "$CARGO_HOME/bin/cargo-watch", "cargo")
      ]))
  }

  /** The test expecting the manager names in declaration order. */
  lemma TestConfigNames()
    ensures TestConfig().managers.Names() == ["arch", "cargo", "misc"]
  {
  }

  /** The test expecting "arch" and "misc" as the first and last managers, and no "rust". */
  lemma TestConfigFindManager()
    ensures TestConfig().FindManager("arch") == Some(TestConfig().managers.items[0])
    ensures TestConfig().FindManager("misc") == Some(TestConfig().managers.items[2])
    ensures TestConfig().FindManager("rust") == None
  {
    var c := TestConfig();
    var ms := c.managers.items;
    assert ms[0].name == "arch" && ms[1].name == "cargo" && ms[2].name == "misc";
    FindManagerFirst(c, "arch", 0);
    FindManagerFirst(c, "misc", 2);
    TestConfigNames();
  }

  /** The test expecting both "arch" tools, in declaration order. */
  lemma TestConfigToolsOfArch()
    ensures TestConfig().tools.FilterByManager("arch") == TestConfig().tools.items[..2]
  {
    var ts := TestConfig().tools.items;
    var arch := ManagedBy("arch");
    assert arch(ts[0]) && arch(ts[1]) && !arch(ts[2]);
    assert ts[1..] == [ts[1], ts[2]] && ts[1..][1..] == [ts[2]] && [ts[2]][1..] == [];
    assert Filter([ts[2]], arch) == [];
    assert Filter(ts[1..], arch) == [ts[1]];
    assert ts[..2] == [ts[0], ts[1]];
  }

  /** The tests expecting no tools for "misc" (configured, owns none) and "rust" (not configured). */
  lemma TestConfigToolsOfOthers()
    ensures TestConfig().tools.FilterByManager("misc") == []
    ensures TestConfig().tools.FilterByManager("rust") == []
  {
    var ts := TestConfig().tools.items;
    assert ts[0].manager == "arch" && ts[1].manager == "arch" && ts[2].manager == "cargo";
  }
}
