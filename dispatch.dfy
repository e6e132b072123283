/**
 * The commands of stm: validating the manager names given on the command
 * line, choosing the packages to hand to each manager, running the
 * managers one after another until one fails, and listing the managers.
 *
 * Whether a tool is installed and whether a manager's command succeeds
 * are decided outside this model (a search of the executable path or the
 * file system, and a spawned process); both enter as parameters.
 */
module Dispatch {
  import opened Wrappers
  import opened Seqs
  import opened Stm

  /** `has_valid_manager`: accepts exactly the configured manager names. */
  function HasValidManager(config: Config, v: string): (r: Result<(), string>)
    ensures r.Ok? <==> exists i :: 0 <= i < |config.managers.items| && config.managers.items[i].name == v
    ensures r.Err? ==> r.error == "invalid manager " + v
  {
    if v !in config.managers.Names() then Err("invalid manager " + v) else Ok(())
  }

  /**
   * A name that passed validation is found by FindManager, so unwrapping
   * its lookup cannot fail; and a name FindManager finds passes validation.
   */
  lemma ValidManagerIsFound(config: Config, v: string)
    ensures HasValidManager(config, v).Ok? <==> config.FindManager(v).Some?
    ensures config.FindManager(v).Some? ==> config.FindManager(v).value.name == v
  {
    var names := config.managers.Names();
    if HasValidManager(config, v).Ok? {
      var i :| 0 <= i < |config.managers.items| && config.managers.items[i].name == v;
      assert names[i] == v;
    }
  }

  /** The package of a tool. */
  function PackageOf(t: Tool): string
  {
    t.package
  }

  /** The predicate "this tool is not installed", given the installed-state check. */
  function NotInstalled(installed: Tool -> bool): Tool -> bool
  {
    (t: Tool) => !installed(t)
  }

  /**
   * The packages `update` hands to manager `m`: the package of every tool of
   * `m`, in tool order, whatever their installed state.
   */
  function UpdateList(config: Config, m: Manager): (r: seq<string>)
    ensures IsSubseq(r, Map(config.tools.items, PackageOf)) && |r| <= |config.tools.items|
  {
    var mine := config.tools.FilterByManager(m.name);
    MapSubseq(mine, config.tools.items, PackageOf);
    Map(mine, PackageOf)
  }

  /**
   * The packages `install` hands to manager `m`: the package of every tool of
   * `m` that is not installed, in tool order; always an order-preserving
   * part of what update would hand over.
   */
  function InstallList(config: Config, m: Manager, installed: Tool -> bool): (r: seq<string>)
    ensures IsSubseq(r, UpdateList(config, m)) && |r| <= |UpdateList(config, m)|
  {
    var mine := config.tools.FilterByManager(m.name);
    var missing := Filter(mine, NotInstalled(installed));
    MapSubseq(missing, mine, PackageOf);
    SubseqLength(Map(missing, PackageOf), Map(mine, PackageOf));
    Map(missing, PackageOf)
  }

  /** The update list holds the package of every tool of `m`. */
  lemma UpdateListComplete(config: Config, m: Manager)
    ensures forall t :: t in config.tools.items && t.manager == m.name ==> t.package in UpdateList(config, m)
  {
    var ts := config.tools.items;
    var mine := Filter(ts, ManagedBy(m.name));
    FilterMembers(ts, ManagedBy(m.name));
    var r := Map(mine, PackageOf);
    assert UpdateList(config, m) == r;
    forall t | t in ts && t.manager == m.name ensures t.package in r {
      var k :| 0 <= k < |mine| && mine[k] == t;
      assert r[k] == t.package;
    }
  }

  /** Every package in the update list is the package of some tool of `m`. */
  lemma UpdateListSound(config: Config, m: Manager)
    ensures forall p :: p in UpdateList(config, m) ==>
      (exists i :: 0 <= i < |config.tools.items| && config.tools.items[i].manager == m.name
                   && config.tools.items[i].package == p)
  {
    var ts := config.tools.items;
    var mine := Filter(ts, ManagedBy(m.name));
    FilterMembers(ts, ManagedBy(m.name));
    var r := Map(mine, PackageOf);
    assert UpdateList(config, m) == r;
    forall p | p in r
      ensures exists i :: 0 <= i < |ts| && ts[i].manager == m.name && ts[i].package == p
    {
      var k :| 0 <= k < |r| && r[k] == p;
      assert mine[k] in ts;
      var i :| 0 <= i < |ts| && ts[i] == mine[k];
    }
  }

  /** The install list holds the package of every tool of `m` that is not installed. */
  lemma InstallListComplete(config: Config, m: Manager, installed: Tool -> bool)
    ensures forall t :: t in config.tools.items && t.manager == m.name && !installed(t) ==>
      t.package in InstallList(config, m, installed)
  {
    var ts := config.tools.items;
    var mine := Filter(ts, ManagedBy(m.name));
    var missing := Filter(mine, NotInstalled(installed));
    FilterMembers(ts, ManagedBy(m.name));
    FilterMembers(mine, NotInstalled(installed));
    var r := Map(missing, PackageOf);
    assert InstallList(config, m, installed) == r;
    forall t | t in ts && t.manager == m.name && !installed(t) ensures t.package in r {
      assert t in mine;
      var k :| 0 <= k < |missing| && missing[k] == t;
      assert r[k] == t.package;
    }
  }

  /** Every package in the install list is the package of a tool of `m` that is not installed. */
  lemma InstallListSound(config: Config, m: Manager, installed: Tool -> bool)
    ensures forall p :: p in InstallList(config, m, installed) ==>
      (exists i :: 0 <= i < |config.tools.items| && config.tools.items[i].manager == m.name
                   && !installed(config.tools.items[i]) && config.tools.items[i].package == p)
  {
    var ts := config.tools.items;
    var mine := Filter(ts, ManagedBy(m.name));
    var missing := Filter(mine, NotInstalled(installed));
    FilterMembers(ts, ManagedBy(m.name));
    FilterMembers(mine, NotInstalled(installed));
    var r := Map(missing, PackageOf);
    assert InstallList(config, m, installed) == r;
    forall p | p in r
      ensures exists i :: 0 <= i < |ts| && ts[i].manager == m.name && !installed(ts[i]) && ts[i].package == p
    {
      var k :| 0 <= k < |r| && r[k] == p;
      assert missing[k] in mine;
      assert missing[k] in ts;
      var i :| 0 <= i < |ts| && ts[i] == missing[k];
    }
  }

  /**
   * The install list is one pass over the tools: the packages of the tools
   * that belong to `m` and are not installed, in tool order.
   */
  lemma InstallListSinglePass(config: Config, m: Manager, installed: Tool -> bool)
    ensures InstallList(config, m, installed)
         == Map(Filter(config.tools.items, (t: Tool) => t.manager == m.name && !installed(t)), PackageOf)
  {
    FilterFilter(config.tools.items, ManagedBy(m.name), NotInstalled(installed),
                 (t: Tool) => t.manager == m.name && !installed(t));
  }

  /** When none of the tools is installed, install hands over what update would. */
  lemma InstallListNothingInstalled(config: Config, m: Manager, installed: Tool -> bool)
    requires forall t :: t in config.tools.items ==> !installed(t)
    ensures InstallList(config, m, installed) == UpdateList(config, m)
  {
    var mine := config.tools.FilterByManager(m.name);
    FilterAllPass(mine, NotInstalled(installed));
  }

  /** When every tool is installed, install hands over no package. */
  lemma InstallListAllInstalled(config: Config, m: Manager, installed: Tool -> bool)
    requires forall t :: t in config.tools.items ==> installed(t)
    ensures InstallList(config, m, installed) == []
  {
    var mine := Filter(config.tools.items, ManagedBy(m.name));
    FilterMembers(config.tools.items, ManagedBy(m.name));
    FilterMembers(mine, NotInstalled(installed));
    if Filter(mine, NotInstalled(installed)) != [] {
      assert Filter(mine, NotInstalled(installed))[0] in mine;
    }
  }

  /** The two subcommands that run managers. */
  datatype Command = Install | Update

  /** One execution of a manager's command template with a package list. */
  datatype Run = Run(manager: Manager, command: Command, packages: seq<string>)

  /**
   * How a run over the requested managers ends: every manager ran and
   * succeeded; a name had no manager (the `unwrap` panics); or a manager's
   * command failed (the `expect` panics).
   */
  datatype Outcome = Completed | UnknownManager(name: string) | ExecutionFailed(failed: Run)

  /** The commands executed, in order, and how the invocation ended. */
  datatype Trace = Trace(runs: seq<Run>, outcome: Outcome)

  /** The packages a command hands to manager `m`. */
  function Packages(config: Config, m: Manager, command: Command, installed: Tool -> bool): seq<string>
  {
    match command
    case Install => InstallList(config, m, installed)
    case Update => UpdateList(config, m)
  }

  /** The package list of every manager for a command, as one function. */
  function PackageLists(config: Config, command: Command, installed: Tool -> bool): Manager -> seq<string>
  {
    (m: Manager) => Packages(config, m, command, installed)
  }

  /**
   * What running `command` for the managers named in `names` does, given the
   * package list `lists(m)` of each manager `m`: each name in turn is looked
   * up and its manager run with its package list; the first lookup that
   * finds nothing or the first run that fails ends it. `turn` is the number
   * of runs made before `names[0]` in the whole invocation, and
   * `succeeds(k, run)` says whether the run made at turn k returns `Ok`, so
   * the same run repeated later in one invocation may end differently.
   */
  function Dispatched(config: Config, names: seq<string>, turn: nat, command: Command,
                      lists: Manager -> seq<string>, succeeds: (nat, Run) -> bool): Trace
    decreases |names|
  {
    if names == [] then Trace([], Completed)
    else
      match config.FindManager(names[0])
      case None => Trace([], UnknownManager(names[0]))
      case Some(m) =>
        var run := Run(m, command, lists(m));
        if !succeeds(turn, run) then Trace([run], ExecutionFailed(run))
        else
          var rest := Dispatched(config, names[1..], turn + 1, command, lists, succeeds);
          Trace([run] + rest.runs, rest.outcome)
  }

  /**
   * Managers run strictly in argument order: run i is the manager named by
   * argument i, with that manager's package list.
   */
  lemma {:induction false} DispatchedInOrder(config: Config, names: seq<string>, turn: nat, command: Command,
                                             lists: Manager -> seq<string>, succeeds: (nat, Run) -> bool)
    ensures var t := Dispatched(config, names, turn, command, lists, succeeds);
      && |t.runs| <= |names|
      && forall i :: 0 <= i < |t.runs| ==>
           && config.FindManager(names[i]) == Some(t.runs[i].manager)
           && t.runs[i].command == command
           && t.runs[i].packages == lists(t.runs[i].manager)
    decreases |names|
  {
    if names != [] && config.FindManager(names[0]).Some? {
      var m := config.FindManager(names[0]).value;
      var run := Run(m, command, lists(m));
      if succeeds(turn, run) {
        var rest := Dispatched(config, names[1..], turn + 1, command, lists, succeeds);
        DispatchedInOrder(config, names[1..], turn + 1, command, lists, succeeds);
        var runs := [run] + rest.runs;
        assert Dispatched(config, names, turn, command, lists, succeeds).runs == runs;
        forall i | 1 <= i < |runs|
          ensures config.FindManager(names[i]) == Some(runs[i].manager)
        {
          assert runs[i] == rest.runs[i - 1] && names[i] == names[1..][i - 1];
        }
      }
    }
  }

  /** Stop on first failure: every run but the last one succeeded at its turn. */
  lemma {:induction false} DispatchedEarlierRunsSucceeded(config: Config, names: seq<string>, turn: nat, command: Command,
                                                          lists: Manager -> seq<string>, succeeds: (nat, Run) -> bool)
    ensures forall i :: 0 <= i < |Dispatched(config, names, turn, command, lists, succeeds).runs| - 1 ==>
      succeeds(turn + i, Dispatched(config, names, turn, command, lists, succeeds).runs[i])
    decreases |names|
  {
    if names != [] && config.FindManager(names[0]).Some? {
      var m := config.FindManager(names[0]).value;
      var run := Run(m, command, lists(m));
      if succeeds(turn, run) {
        var rest := Dispatched(config, names[1..], turn + 1, command, lists, succeeds);
        DispatchedEarlierRunsSucceeded(config, names[1..], turn + 1, command, lists, succeeds);
        var runs := [run] + rest.runs;
        assert Dispatched(config, names, turn, command, lists, succeeds).runs == runs;
        forall i | 0 <= i < |runs| - 1 ensures succeeds(turn + i, runs[i]) {
          if i > 0 {
            assert runs[i] == rest.runs[i - 1] && turn + i == (turn + 1) + (i - 1);
          }
        }
      }
    }
  }

  /** A completed invocation ran one command per name, and the last one succeeded at its turn. */
  lemma {:induction false} DispatchedCompleted(
      config: Config, names: seq<string>, turn: nat, command: Command,
      lists: Manager -> seq<string>, succeeds: (nat, Run) -> bool)
    ensures var t := Dispatched(config, names, turn, command, lists, succeeds);
      t.outcome.Completed? ==> |t.runs| == |names| && (t.runs != [] ==> succeeds(turn + |t.runs| - 1, t.runs[|t.runs| - 1]))
    decreases |names|
  {
    if names != [] {
      match config.FindManager(names[0])
      case None =>
      case Some(m) =>
        var run := Run(m, command, lists(m));
        if succeeds(turn, run) {
          var rest := Dispatched(config, names[1..], turn + 1, command, lists, succeeds);
          DispatchedCompleted(config, names[1..], turn + 1, command, lists, succeeds);
          var t := Dispatched(config, names, turn, command, lists, succeeds);
          assert t.runs == [run] + rest.runs && t.outcome == rest.outcome;
          if rest.outcome.Completed? && rest.runs != [] {
            assert t.runs[|t.runs| - 1] == rest.runs[|rest.runs| - 1];
            assert turn + |t.runs| - 1 == turn + 1 + |rest.runs| - 1;
          }
        }
    }
  }

  /** A failed invocation ends with the run that failed, which did not succeed at its turn. */
  lemma {:induction false} DispatchedFailed(
      config: Config, names: seq<string>, turn: nat, command: Command,
      lists: Manager -> seq<string>, succeeds: (nat, Run) -> bool)
    ensures var t := Dispatched(config, names, turn, command, lists, succeeds);
      t.outcome.ExecutionFailed? ==>
        && 0 < |t.runs| <= |names|
        && t.outcome.failed == t.runs[|t.runs| - 1]
        && !succeeds(turn + |t.runs| - 1, t.outcome.failed)
    decreases |names|
  {
    if names != [] {
      match config.FindManager(names[0])
      case None =>
      case Some(m) =>
        var run := Run(m, command, lists(m));
        if succeeds(turn, run) {
          var rest := Dispatched(config, names[1..], turn + 1, command, lists, succeeds);
          DispatchedFailed(config, names[1..], turn + 1, command, lists, succeeds);
          var t := Dispatched(config, names, turn, command, lists, succeeds);
          assert t.runs == [run] + rest.runs && t.outcome == rest.outcome;
          if rest.outcome.ExecutionFailed? {
            assert t.runs[|t.runs| - 1] == rest.runs[|rest.runs| - 1];
            assert turn + |t.runs| - 1 == turn + 1 + |rest.runs| - 1;
          }
        }
    }
  }

  /**
   * An unknown name ends the invocation at its own turn, before anything runs
   * for it or after it, and no configured manager carries that name.
   */
  lemma {:induction false} DispatchedUnknown(
      config: Config, names: seq<string>, turn: nat, command: Command,
      lists: Manager -> seq<string>, succeeds: (nat, Run) -> bool)
    ensures var t := Dispatched(config, names, turn, command, lists, succeeds);
      t.outcome.UnknownManager? ==>
        && |t.runs| < |names|
        && t.outcome.name == names[|t.runs|]
        && config.FindManager(t.outcome.name).None?
    decreases |names|
  {
    if names != [] {
      match config.FindManager(names[0])
      case None =>
      case Some(m) =>
        var run := Run(m, command, lists(m));
        if succeeds(turn, run) {
          var rest := Dispatched(config, names[1..], turn + 1, command, lists, succeeds);
          DispatchedUnknown(config, names[1..], turn + 1, command, lists, succeeds);
          var t := Dispatched(config, names, turn, command, lists, succeeds);
          assert t.runs == [run] + rest.runs && t.outcome == rest.outcome;
          if rest.outcome.UnknownManager? {
            assert names[|t.runs|] == names[1..][|rest.runs|];
          }
        }
    }
  }

  /**
   * How each ending looks: a completed invocation ran one command per name,
   * the last one successful; a failed one ends with the run that failed; an
   * unknown name ends it at that name's own turn, before anything runs for
   * it or after it.
   */
  lemma DispatchedOutcome(
      config: Config, names: seq<string>, turn: nat, command: Command,
      lists: Manager -> seq<string>, succeeds: (nat, Run) -> bool)
    ensures var t := Dispatched(config, names, turn, command, lists, succeeds);
      && (t.outcome.Completed? ==>
            |t.runs| == |names| && (t.runs != [] ==> succeeds(turn + |t.runs| - 1, t.runs[|t.runs| - 1])))
      && (t.outcome.ExecutionFailed? ==>
            && 0 < |t.runs| <= |names|
            && t.outcome.failed == t.runs[|t.runs| - 1]
            && !succeeds(turn + |t.runs| - 1, t.outcome.failed))
      && (t.outcome.UnknownManager? ==>
            && |t.runs| < |names|
            && t.outcome.name == names[|t.runs|]
            && config.FindManager(t.outcome.name).None?)
  {
    DispatchedCompleted(config, names, turn, command, lists, succeeds);
    DispatchedFailed(config, names, turn, command, lists, succeeds);
    DispatchedUnknown(config, names, turn, command, lists, succeeds);
  }

  /** Names that passed validation never make the invocation stop at an unknown manager. */
  lemma ValidatedNamesAreFound(config: Config, names: seq<string>, turn: nat, command: Command,
                               lists: Manager -> seq<string>, succeeds: (nat, Run) -> bool)
    requires forall i :: 0 <= i < |names| ==> HasValidManager(config, names[i]).Ok?
    ensures !Dispatched(config, names, turn, command, lists, succeeds).outcome.UnknownManager?
  {
    var t := Dispatched(config, names, turn, command, lists, succeeds);
    DispatchedOutcome(config, names, turn, command, lists, succeeds);
    if t.outcome.UnknownManager? {
      ValidManagerIsFound(config, names[|t.runs|]);
      assert false;
    }
  }

  /** With validated names and commands that all succeed, every requested manager runs. */
  lemma AllSucceedCompletes(config: Config, names: seq<string>, turn: nat, command: Command,
                            lists: Manager -> seq<string>, succeeds: (nat, Run) -> bool)
    requires forall i :: 0 <= i < |names| ==> HasValidManager(config, names[i]).Ok?
    requires forall k, run :: succeeds(k, run)
    ensures Dispatched(config, names, turn, command, lists, succeeds).outcome == Completed
    ensures |Dispatched(config, names, turn, command, lists, succeeds).runs| == |names|
  {
    ValidatedNamesAreFound(config, names, turn, command, lists, succeeds);
    DispatchedOutcome(config, names, turn, command, lists, succeeds);
  }

  /** What a dispatch does depends on the package lists only through their values. */
  lemma {:induction false} DispatchedSameLists(config: Config, names: seq<string>, turn: nat, command: Command,
                                               lists: Manager -> seq<string>, lists': Manager -> seq<string>,
                                               succeeds: (nat, Run) -> bool)
    requires forall m :: lists(m) == lists'(m)
    ensures Dispatched(config, names, turn, command, lists, succeeds)
         == Dispatched(config, names, turn, command, lists', succeeds)
    decreases |names|
  {
    if names != [] {
      DispatchedSameLists(config, names[1..], turn + 1, command, lists, lists', succeeds);
    }
  }

  /** `update` never consults the installed-state check. */
  lemma UpdateIgnoresInstalled(config: Config, names: seq<string>, turn: nat,
                               installed: Tool -> bool, installed': Tool -> bool, succeeds: (nat, Run) -> bool)
    ensures Dispatched(config, names, turn, Update, PackageLists(config, Update, installed), succeeds)
         == Dispatched(config, names, turn, Update, PackageLists(config, Update, installed'), succeeds)
  {
    DispatchedSameLists(config, names, turn, Update, PackageLists(config, Update, installed),
                        PackageLists(config, Update, installed'), succeeds);
  }

  /** The runs already made, followed by what the rest of the dispatch does. */
  function Resumed(runs: seq<Run>, rest: Trace): Trace
  {
    Trace(runs + rest.runs, rest.outcome)
  }

  /**
   * One step of Dispatched at argument i, after the runs of the i earlier
   * arguments: the lookup of names[i] ends it, or its run fails at turn i
   * and ends it, or its run succeeds and the dispatch goes on from
   * argument i + 1.
   */
  lemma DispatchedStep(config: Config, names: seq<string>, i: nat, runs: seq<Run>, command: Command,
                       lists: Manager -> seq<string>, succeeds: (nat, Run) -> bool)
    requires i < |names|
    ensures var now := Resumed(runs, Dispatched(config, names[i..], i, command, lists, succeeds));
      match config.FindManager(names[i])
      case None => now == Trace(runs, UnknownManager(names[i]))
      case Some(m) =>
        var run := Run(m, command, lists(m));
        if succeeds(i, run) then
          now == Resumed(runs + [run], Dispatched(config, names[i + 1..], i + 1, command, lists, succeeds))
        else now == Trace(runs + [run], ExecutionFailed(run))
  {
    assert names[i..][0] == names[i];
    assert names[i..][1..] == names[i + 1..];
    assert runs + [] == runs;
    match config.FindManager(names[i])
    case None =>
    case Some(m) =>
      var run := Run(m, command, lists(m));
      var rest := Dispatched(config, names[i + 1..], i + 1, command, lists, succeeds);
      assert runs + ([run] + rest.runs) == (runs + [run]) + rest.runs;
  }

  /**
   * The loop shared by `install_command` and `update_command`: for each
   * requested name in turn, look up its manager, build its package list with
   * `lists` and run the command, stopping at the first name not found or
   * command failed.
   */
  method RunManagers(config: Config, names: seq<string>, command: Command,
                     lists: Manager -> seq<string>, succeeds: (nat, Run) -> bool) returns (t: Trace)
    ensures t == Dispatched(config, names, 0, command, lists, succeeds)
  {
    var runs: seq<Run> := [];
    var i := 0;
    assert names[0..] == names && runs + Dispatched(config, names, 0, command, lists, succeeds).runs
      == Dispatched(config, names, 0, command, lists, succeeds).runs;
    while i < |names|
      invariant 0 <= i <= |names|
      invariant Dispatched(config, names, 0, command, lists, succeeds)
        == Resumed(runs, Dispatched(config, names[i..], i, command, lists, succeeds))
    {
      DispatchedStep(config, names, i, runs, command, lists, succeeds);
      var found := config.FindManager(names[i]);
      if found.None? {
        return Trace(runs, UnknownManager(names[i]));
      }
      var m := found.value;
      var run := Run(m, command, lists(m));
      if !succeeds(i, run) {
        return Trace(runs + [run], ExecutionFailed(run));
      }
      runs := runs + [run];
      i := i + 1;
    }
    assert names[i..] == [] && runs + [] == runs;
    t := Trace(runs, Completed);
  }

  /** `install_command`: installs the tools not yet installed, manager by manager. */
  method InstallCommand(config: Config, names: seq<string>,
                        installed: Tool -> bool, succeeds: (nat, Run) -> bool) returns (t: Trace)
    ensures t == Dispatched(config, names, 0, Install, PackageLists(config, Install, installed), succeeds)
  {
    t := RunManagers(config, names, Install, PackageLists(config, Install, installed), succeeds);
  }

  /** `update_command`: updates every tool, manager by manager. */
  method UpdateCommand(config: Config, names: seq<string>,
                       installed: Tool -> bool, succeeds: (nat, Run) -> bool) returns (t: Trace)
    ensures t == Dispatched(config, names, 0, Update, PackageLists(config, Update, installed), succeeds)
  {
    t := RunManagers(config, names, Update, PackageLists(config, Update, installed), succeeds);
  }

  /**
   * The validator over all values of the `managers` argument, in order: the
   * first value it rejects decides the error.
   */
  function ValidateAll(config: Config, names: seq<string>): (r: Result<(), string>)
    ensures r.Ok? <==> forall i :: 0 <= i < |names| ==> HasValidManager(config, names[i]).Ok?
    ensures r.Err? ==> exists i :: 0 <= i < |names| && HasValidManager(config, names[i]) == Err(r.error)
                                   && forall j :: 0 <= j < i ==> HasValidManager(config, names[j]).Ok?
    decreases |names|
  {
    if names == [] then Ok(())
    else if HasValidManager(config, names[0]).Err? then HasValidManager(config, names[0])
    else
      var rest := ValidateAll(config, names[1..]);
      assert forall i :: 1 <= i < |names| ==> names[i] == names[1..][i - 1];
      rest
  }

  /** Why the command line is refused before any command runs. */
  datatype CliError = MissingManagers | InvalidValue(message: string)

  /**
   * The `install` and `update` subcommands as `main` runs them: the
   * `managers` argument is required, every value goes through
   * `has_valid_manager` first, and only a command line that passes both
   * reaches the dispatch, which then never meets an unknown name.
   */
  function RunSubcommand(config: Config, names: seq<string>, command: Command,
                         lists: Manager -> seq<string>, succeeds: (nat, Run) -> bool): (r: Result<Trace, CliError>)
    ensures r == Err(MissingManagers) <==> names == []
    ensures r.Ok? <==> names != [] && forall i :: 0 <= i < |names| ==> HasValidManager(config, names[i]).Ok?
    ensures r.Err? && r.error.InvalidValue? ==>
      exists i :: 0 <= i < |names| && HasValidManager(config, names[i]) == Err(r.error.message)
    ensures r.Ok? ==> r.value == Dispatched(config, names, 0, command, lists, succeeds)
                      && !r.value.outcome.UnknownManager?
  {
    if names == [] then Err(MissingManagers)
    else
      match ValidateAll(config, names)
      case Err(e) => Err(InvalidValue(e))
      case Ok(_) =>
        ValidatedNamesAreFound(config, names, 0, command, lists, succeeds);
        Ok(Dispatched(config, names, 0, command, lists, succeeds))
  }

  /** `list_command`: one output line per configured manager, its name, in declaration order. */
  method ListCommand(config: Config) returns (lines: seq<string>)
    ensures |lines| == |config.managers.items|
    ensures forall i :: 0 <= i < |lines| ==> lines[i] == config.managers.items[i].name
  {
    var names := config.managers.Names();
    lines := [];
    var i := 0;
    while i < |names|
      invariant 0 <= i <= |names|
      invariant lines == names[..i]
    {
      lines := lines + [names[i]];
      i := i + 1;
    }
  }

  /** On the unit tests' configuration, update hands "arch" both of its packages. */
  lemma TestConfigUpdateArch()
    ensures UpdateList(TestConfig(), TestConfig().managers.items[0]) == ["alacritty", "ttf-fira-code"]
  {
    TestConfigToolsOfArch();
    var ts := TestConfig().tools.items;
    assert ts[..2][1..] == [ts[1]];
    assert Map(ts[..2], PackageOf) == [ts[0].package] + Map([ts[1]], PackageOf);
  }

  /**
   * On the unit tests' configuration, "arch" may be named twice: the same
   * run is made twice, and the second time it can fail after the first
   * succeeded.
   */
  lemma TestConfigUpdateArchTwice(lists: Manager -> seq<string>)
    ensures var arch := TestConfig().managers.items[0];
      var run := Run(arch, Update, lists(arch));
      Dispatched(TestConfig(), ["arch", "arch"], 0, Update, lists, (k: nat, r: Run) => k == 0)
        == Trace([run, run], ExecutionFailed(run))
  {
    TestConfigFindManager();
    assert ["arch", "arch"][1..] == ["arch"];
  }

  /**
   * On the unit tests' configuration, "rust" fails validation with its
   * message, so a command line naming it after "arch" is refused as a whole
   * and nothing runs, not even "arch"; handed to the dispatch directly, it
   * would end at its own lookup.
   */
  lemma TestConfigRejectsRust(installed: Tool -> bool, succeeds: (nat, Run) -> bool)
    ensures HasValidManager(TestConfig(), "rust") == Err("invalid manager rust")
    ensures RunSubcommand(TestConfig(), ["arch", "rust"], Install, PackageLists(TestConfig(), Install, installed), succeeds)
         == Err(InvalidValue("invalid manager rust"))
    ensures Dispatched(TestConfig(), ["rust"], 0, Install, PackageLists(TestConfig(), Install, installed), succeeds)
         == Trace([], UnknownManager("rust"))
  {
    TestConfigNames();
    TestConfigFindManager();
    assert "invalid manager " + "rust" == "invalid manager rust";
    assert ["arch", "rust"][1..] == ["rust"] && ["rust"][1..] == [];
    assert HasValidManager(TestConfig(), "arch").Ok?;
  }
}
