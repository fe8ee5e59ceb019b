/**
 * The Eisenhardt Project: a Magento installation known by its
 * installation directory, which must hold a `.eisenhardt` directory.
 *
 * The project derives its name and its Docker network name from the
 * directory, builds the argument lists it hands to docker-compose and
 * docker (start the stack, stop its containers, list their status, run an
 * ephemeral console container, repair file permissions), and parses the
 * plain-text output docker prints.
 *
 * Running a process is an input here: a `Host` says what each argument
 * list prints on stdout and whether it exits successfully, and supplies the
 * user id, the environment, glob() and Symfony's makePathRelative().
 */
module Eisenhardt {
  import opened Wrappers
  import opened Exceptions
  import opened Php
  import opened Params
  import Finder

  /** The marker directory of an Eisenhardt project. */
  const DIRECTORY_NAME := ".eisenhardt"

  /** What follows the project name in the name of its Docker network. */
  const NETWORK_SUFFIX := "_eisenhardt"

  /** The group id the console containers run under, next to the script owner's uid. */
  const CONTAINER_GROUP := "10118"

  /** Where the Magento installation is mounted inside the containers. */
  const MAGENTO_ROOT := "/mnt/magento"

  datatype Project = Project(installationDirectory: string)

  /** Everything outside the program that the project reads. */
  datatype Host = Host(
    stdout: seq<string> -> string,                 // what running an argument list prints
    succeeds: seq<string> -> bool,                 // whether it exits with status 0
    uid: nat,                                      // getmyuid(): the uid of the running script's owner
    getenv: string -> Option<string>,              // getenv(); None for PHP's false
    glob: string -> seq<string>,                   // glob()
    makePathRelative: (string, string) -> string)  // Filesystem::makePathRelative($end, $start)

  // ---------------------------------------------------------------------
  // Locating and constructing a project

  /** getEisenhardtDirectory(): the project's configuration directory. */
  function EisenhardtDirectory(p: Project): string {
    p.installationDirectory + "/" + DIRECTORY_NAME
  }

  /**
   * new Project($dir, $logger): the constructor throws unless
   * `"<dir>/.eisenhardt"` exists.
   */
  function NewProject(fs: Finder.FileSystem, installationDirectory: string): (r: Result<Project, Exception>)
    ensures r.Success? <==> installationDirectory + "/" + DIRECTORY_NAME in fs
    ensures r.Success? ==> r.value.installationDirectory == installationDirectory
    ensures r.Failure? ==> r.error == FileNotFoundException(
                             "Could not find `.eisenhardt/` directory inside " + installationDirectory)
  {
    var p := Project(installationDirectory);
    if EisenhardtDirectory(p) in fs then Success(p)
    else Failure(FileNotFoundException("Could not find `.eisenhardt/` directory inside " + installationDirectory))
  }

  /**
   * For an absolute installation directory written without a trailing
   * slash, the configuration directory is its `.eisenhardt` child: its
   * dirname is the installation directory and its basename the marker.
   */
  lemma EisenhardtDirectoryIsChild(p: Project)
    requires IsAbsolute(p.installationDirectory)
    requires p.installationDirectory == "/" || p.installationDirectory[|p.installationDirectory| - 1] != '/'
    ensures Dirname(EisenhardtDirectory(p)) == p.installationDirectory
    ensures Basename(EisenhardtDirectory(p)) == DIRECTORY_NAME
  {
    assert '/' !in DIRECTORY_NAME;
    ChildPath(p.installationDirectory, DIRECTORY_NAME);
  }

  /**
   * ProjectFactory::findFromDirectory(): the project rooted at the nearest
   * ancestor of `directory` that holds `.eisenhardt`. It fails, with the
   * "run eisenhardt init" message, exactly when no ancestor does.
   */
  function FindFromDirectory(fs: Finder.FileSystem, directory: string): (r: Result<Project, Exception>)
    requires IsAbsolute(directory)
    ensures r.Success? <==> !Finder.NoneContains(fs, DIRECTORY_NAME, Finder.Ancestors(directory))
    ensures r.Success? ==> EisenhardtDirectory(r.value) in fs
    ensures r.Success? ==> exists k :: Finder.FirstContaining(fs, DIRECTORY_NAME, Finder.Ancestors(directory), k)
                                       && Finder.Ancestors(directory)[k] == r.value.installationDirectory
    ensures r.Failure? ==> r.error == GenericException("Not an eisenhardt project. Please run eisenhardt init.")
  {
    Finder.FindInParentFailsIff(fs, DIRECTORY_NAME, directory);
    var found := Finder.FindInParent(fs, DIRECTORY_NAME, directory);
    if found.Failure? then Failure(GenericException("Not an eisenhardt project. Please run eisenhardt init."))
    else
      Finder.FindInParentIsNearest(fs, DIRECTORY_NAME, directory);
      NewProject(fs, found.value)
  }

  // ---------------------------------------------------------------------
  // Names

  predicate IsAlphanumeric(c: char) { 'a' <= c <= 'z' || 'A' <= c <= 'Z' || '0' <= c <= '9' }

  /** A character a project name may hold: a lower-case letter or a digit. */
  predicate IsNameChar(c: char) { 'a' <= c <= 'z' || '0' <= c <= '9' }

  /** preg_replace('{[^a-zA-Z0-9]}', '', $s): `s` with every other character removed. */
  function RemoveNonAlphanumerics(s: string): (r: string)
    ensures |r| <= |s|
    ensures forall i :: 0 <= i < |r| ==> IsAlphanumeric(r[i])
  {
    if s == [] then []
    else (if IsAlphanumeric(s[0]) then [s[0]] else []) + RemoveNonAlphanumerics(s[1..])
  }

  /** strtolower(preg_replace('{[^a-zA-Z0-9]}', '', $s)) */
  function Slug(s: string): (r: string)
    ensures forall i :: 0 <= i < |r| ==> IsNameChar(r[i])
  {
    StrToLower(RemoveNonAlphanumerics(s))
  }

  /** getProjectName(): the basename of the installation directory, reduced to lower-case letters and digits. */
  function ProjectName(p: Project): (r: string)
    ensures forall i :: 0 <= i < |r| ==> IsNameChar(r[i])
  {
    Slug(Basename(p.installationDirectory))
  }

  lemma {:induction false} RemoveNonAlphanumericsAppend(a: string, b: string)
    ensures RemoveNonAlphanumerics(a + b) == RemoveNonAlphanumerics(a) + RemoveNonAlphanumerics(b)
    decreases |a|
  {
    if a != [] {
      assert (a + b)[1..] == a[1..] + b;
      RemoveNonAlphanumericsAppend(a[1..], b);
    } else {
      assert a + b == b;
    }
  }

  /**
   * The name keeps the alphanumerics of the directory name in order: the
   * name of a concatenation is the concatenation of the names, and a single
   * character contributes itself lower-cased when it is a letter or digit,
   * nothing otherwise. Together these determine Slug on every string.
   */
  lemma SlugAppend(a: string, b: string)
    ensures Slug(a + b) == Slug(a) + Slug(b)
  {
    RemoveNonAlphanumericsAppend(a, b);
    var x, y := RemoveNonAlphanumerics(a), RemoveNonAlphanumerics(b);
    assert StrToLower(x + y) == StrToLower(x) + StrToLower(y);
  }

  lemma SlugChar(c: char)
    ensures Slug([c]) == if IsAlphanumeric(c) then [LowerChar(c)] else []
  {
    assert RemoveNonAlphanumerics([c]) == (if IsAlphanumeric(c) then [c] else []) + RemoveNonAlphanumerics([]);
  }

  lemma {:induction false} RemoveNonAlphanumericsKeeps(s: string)
    requires forall i :: 0 <= i < |s| ==> IsAlphanumeric(s[i])
    ensures RemoveNonAlphanumerics(s) == s
    decreases |s|
  {
    if s != [] {
      RemoveNonAlphanumericsKeeps(s[1..]);
      assert [s[0]] + s[1..] == s;
    }
  }

  /** A string made only of lower-case letters and digits: a possible project name. */
  predicate IsName(s: string) { forall i :: 0 <= i < |s| ==> IsNameChar(s[i]) }

  /** A name is its own name. */
  lemma SlugOfName(s: string)
    requires IsName(s)
    ensures Slug(s) == s
  {
    RemoveNonAlphanumericsKeeps(s);
    assert StrToLower(s) == s;
  }

  /** Deriving a name twice changes nothing. */
  lemma SlugIdempotent(s: string)
    ensures Slug(Slug(s)) == Slug(s)
  {
    SlugOfName(Slug(s));
  }

  /** A separator between two parts of a directory name is dropped, whatever the parts hold. */
  lemma SlugDropsSeparator(a: string, sep: char, b: string)
    requires !IsAlphanumeric(sep)
    ensures Slug(a + [sep] + b) == Slug(a) + Slug(b)
  {
    SlugAppend(a + [sep], b);
    SlugAppend(a, [sep]);
    SlugChar(sep);
  }

  /**
   * The names the project's tests expect: the directories `project`,
   * `project_other` and `project_other_254` inside a temporary directory
   * are named `project`, `projectother` and `projectother254`.
   */
  lemma TestProjectNames(dir: string)
    requires IsAbsolute(dir) && (dir == "/" || dir[|dir| - 1] != '/')
    ensures ProjectName(Project(dir + "/" + "project")) == "project"
    ensures ProjectName(Project(dir + "/" + "project_other")) == "projectother"
    ensures ProjectName(Project(dir + "/" + "project_other_254")) == "projectother254"
  {
    TestNameParts();
    ProjectNameOfChild(dir, "project");
    ProjectNameOfChild(dir, "project_other");
    ProjectNameOfChild(dir, "project_other_254");
    TestSlugProject();
    TestSlugProjectOther();
    TestSlugProjectOther254();
  }

  /** The name of a project in `dir/name` is the slug of `name`. */
  lemma ProjectNameOfChild(dir: string, name: string)
    requires IsAbsolute(dir) && (dir == "/" || dir[|dir| - 1] != '/')
    requires name != [] && '/' !in name
    ensures ProjectName(Project(dir + "/" + name)) == Slug(name)
  {
    ChildPath(dir, name);
  }

  lemma TestSlugProject()
    ensures Slug("project") == "project"
  {
    SlugOfName("project");
  }

  lemma TestSlugProjectOther()
    ensures Slug("project_other") == "projectother"
  {
    TestSlugProject();
    TestNameParts();
    JoinedSlug("project", "other", "project_other", "project", "projectother");
  }

  lemma TestSlugProjectOther254()
    ensures Slug("project_other_254") == "projectother254"
  {
    TestSlugProjectOther();
    TestNameParts();
    JoinedSlug("project_other", "254", "project_other_254", "projectother", "projectother254");
  }

  /** How the test directory names split at `_`, and where their names come from. */
  lemma TestNameParts()
    ensures "project_other" == "project" + ['_'] + "other" && "projectother" == "project" + "other"
    ensures "project_other_254" == "project_other" + ['_'] + "254" && "projectother254" == "projectother" + "254"
    ensures IsName("other") && IsName("254")
    ensures '/' !in "project" && '/' !in "project_other" && '/' !in "project_other_254"
  {
  }

  /** `s` is `a` and a name `b` joined by `_`: its slug is the slug of `a` followed by `b`. */
  lemma JoinedSlug(a: string, b: string, s: string, sa: string, r: string)
    requires Slug(a) == sa && IsName(b) && s == a + ['_'] + b && r == sa + b
    ensures Slug(s) == r
  {
    SlugDropsSeparator(a, '_', b);
    SlugOfName(b);
  }

  lemma {:induction false} RemoveNonAlphanumericsEmptyIff(s: string)
    ensures RemoveNonAlphanumerics(s) == [] <==> forall i :: 0 <= i < |s| ==> !IsAlphanumeric(s[i])
    decreases |s|
  {
    if s != [] {
      RemoveNonAlphanumericsEmptyIff(s[1..]);
      if forall i :: 0 <= i < |s| ==> !IsAlphanumeric(s[i]) {
        forall i | 0 <= i < |s[1..]|
          ensures !IsAlphanumeric(s[1..][i])
        {
          assert s[1..][i] == s[i + 1];
        }
      } else {
        var i :| 0 <= i < |s| && IsAlphanumeric(s[i]);
        if i > 0 {
          assert s[1..][i - 1] == s[i];
        }
      }
    }
  }

  /**
   * The name is empty exactly when the directory name holds no letter and
   * no digit: nothing stops a project from having an empty name.
   */
  lemma SlugEmptyIff(s: string)
    ensures Slug(s) == [] <==> forall i :: 0 <= i < |s| ==> !IsAlphanumeric(s[i])
  {
    RemoveNonAlphanumericsEmptyIff(s);
  }

  /** getNetworkName() */
  function NetworkName(p: Project): string {
    ProjectName(p) + NETWORK_SUFFIX
  }

  /**
   * The network name is the project name, one underscore, then
   * `eisenhardt`: splitting it at `_` gives back exactly the project name
   * and the rest of the suffix.
   */
  lemma NetworkNameParts(p: Project)
    ensures Explode('_', NetworkName(p)) == [ProjectName(p), NETWORK_SUFFIX[1..]]
  {
    NameWithNetworkSuffix(ProjectName(p));
  }

  /** A name followed by the network suffix explodes at `_` into the name and the suffix's text. */
  lemma NameWithNetworkSuffix(name: string)
    requires IsName(name)
    ensures Explode('_', name + NETWORK_SUFFIX) == [name, NETWORK_SUFFIX[1..]]
  {
    NetworkSuffixParts();
    assert '_' !in name;
    assert name + NETWORK_SUFFIX == name + ['_'] + NETWORK_SUFFIX[1..];
    ExplodePair('_', name, NETWORK_SUFFIX[1..]);
  }

  /** The network suffix is one underscore followed by text without any. */
  lemma NetworkSuffixParts()
    ensures NETWORK_SUFFIX == ['_'] + NETWORK_SUFFIX[1..]
    ensures '_' !in NETWORK_SUFFIX[1..]
  {
  }

  // ---------------------------------------------------------------------
  // The docker commands the project queries

  function ProjectFilter(p: Project): string {
    "--filter=label=com.docker.compose.project=" + ProjectName(p)
  }

  /** The `docker ps` of getInfo(): one `<name>|<status>` line per container of the project. */
  function InfoArgv(p: Project): seq<string> {
    ["docker", "ps", ProjectFilter(p), "--format={{.Names}}|{{.Status}}"]
  }

  /** The `docker inspect` of getContainerIpAddress(). */
  function InspectIpArgv(p: Project, containerName: string): seq<string> {
    ["docker", "inspect", "-f{{ .NetworkSettings.Networks." + NetworkName(p) + ".IPAddress }}", containerName]
  }

  /** The `docker ps` of getContainerId(). */
  function ContainerIdArgv(p: Project, service: string): seq<string> {
    ["docker", "ps", ProjectFilter(p), "--filter=label=com.docker.compose.service=" + service, "--format={{.ID}}"]
  }

  /** The `docker exec` of getPhpVersion(). */
  function PhpVersionArgv(containerId: string): seq<string> {
    ["docker", "exec", containerId, "php", "-r", "echo PHP_VERSION;"]
  }

  /** The command of getLocalIpAddress(). */
  const HOSTNAME_ARGV: seq<string> := ["hostname", "-I"]

  /** getContainerIpAddress($name): what `docker inspect` prints, without surrounding whitespace. */
  function ContainerIpAddress(p: Project, host: Host, containerName: string): (ip: string)
    ensures ip == [] || (!IsTrimChar(ip[0]) && !IsTrimChar(ip[|ip| - 1]))
  {
    var out := host.stdout(InspectIpArgv(p, containerName));
    Trim(out)
  }

  /** getContainerId($service): what `docker ps` prints, without surrounding whitespace. */
  function ContainerId(p: Project, host: Host, service: string): (id: string)
    ensures id == [] || (!IsTrimChar(id[0]) && !IsTrimChar(id[|id| - 1]))
  {
    var out := host.stdout(ContainerIdArgv(p, service));
    Trim(out)
  }

  /** The address is the `docker inspect` output with only whitespace cut from its two ends. */
  lemma ContainerIpAddressOfInspect(p: Project, host: Host, containerName: string)
    ensures exists k :: Trimmed(host.stdout(InspectIpArgv(p, containerName)), ContainerIpAddress(p, host, containerName), k)
  {
    var out := host.stdout(InspectIpArgv(p, containerName));
    assert ContainerIpAddress(p, host, containerName) == Trim(out);
    TrimCutsEdges(out);
  }

  /** The id is the `docker ps` output with only whitespace cut from its two ends. */
  lemma ContainerIdOfPs(p: Project, host: Host, service: string)
    ensures exists k :: Trimmed(host.stdout(ContainerIdArgv(p, service)), ContainerId(p, host, service), k)
  {
    var out := host.stdout(ContainerIdArgv(p, service));
    assert ContainerId(p, host, service) == Trim(out);
    TrimCutsEdges(out);
  }

  // ---------------------------------------------------------------------
  // Container status: getInfo()

  /** One row of getInfo(): `is_running`, `name` and `ip_address`. */
  datatype ContainerRow = ContainerRow(isRunning: bool, name: string, ipAddress: Option<string>)

  /**
   * The row getInfo() makes of one line of `docker ps` output. The name is
   * the text before the first `|` (the whole line when there is none); the
   * container runs exactly when the text after that `|` starts with `Up`;
   * it has an IP address, the one `ipOf` gives for its name, exactly when it
   * runs.
   */
  function ParseRow(line: string, ipOf: string -> string): (row: ContainerRow)
    ensures '|' !in row.name && |row.name| <= |line| && line[..|row.name|] == row.name
    ensures |row.name| < |line| ==> line[|row.name|] == '|'
    ensures row.isRunning <==> |row.name| < |line| && "Up" <= line[|row.name| + 1..]
    ensures row.ipAddress.Some? <==> row.isRunning
    ensures row.isRunning ==> row.ipAddress.value == ipOf(row.name)
  {
    var fields := Explode('|', line);
    var name := fields[0];
    var status := if |fields| >= 2 then Some(fields[1]) else None;
    var isUp := status.Some? && StrPos(status.value, "Up") == Some(0);
    ExplodeFirst('|', line);
    StatusIsUp(line);
    ContainerRow(isUp, name, if isUp then Some(ipOf(name)) else None)
  }

  /**
   * The status field of a line starts with `Up` exactly when the line has a
   * `|` and the text after the first one starts with `Up`.
   */
  lemma StatusIsUp(line: string)
    ensures var fields := Explode('|', line);
      (|fields| >= 2 && StrPos(fields[1], "Up") == Some(0)) <==> (|fields[0]| < |line| && "Up" <= line[|fields[0]| + 1..])
  {
    var fields := Explode('|', line);
    ExplodeFirst('|', line);
    if |fields[0]| < |line| {
      var rest := line[|fields[0]| + 1..];
      assert fields[1] == Explode('|', rest)[0];
      FieldStartsWithUp(rest);
    }
  }

  /** The text before the first `|` starts with `Up` exactly when the whole text does. */
  lemma FieldStartsWithUp(rest: string)
    ensures StrPos(Explode('|', rest)[0], "Up") == Some(0) <==> "Up" <= rest
  {
    var f := Explode('|', rest)[0];
    ExplodeFirst('|', rest);
    StrPosZeroIffPrefix(f, "Up");
    if "Up" <= rest {
      assert rest[0] != '|' && rest[1] != '|';
      assert |f| >= 2;
      assert f[..2] == rest[..2];
    }
  }

  /** array_map over the lines: one row per line, in order. */
  function ParseRows(lines: seq<string>, ipOf: string -> string): (rows: seq<ContainerRow>)
    ensures |rows| == |lines|
    ensures forall i :: 0 <= i < |rows| ==> rows[i] == ParseRow(lines[i], ipOf)
  {
    seq(|lines|, i requires 0 <= i < |lines| => ParseRow(lines[i], ipOf))
  }

  /**
   * The rows getInfo() makes of `docker ps` output: one row per line of
   * the trimmed output, in order, and so always at least one row.
   */
  function ParseInfo(output: string, ipOf: string -> string): (rows: seq<ContainerRow>)
    ensures var lines := Explode('\n', Trim(output));
      && |rows| == |lines| >= 1
      && forall i :: 0 <= i < |rows| ==> rows[i] == ParseRow(lines[i], ipOf)
  {
    ParseRows(Explode('\n', Trim(output)), ipOf)
  }

  /** When docker lists no container, getInfo() still yields one row: unnamed and not running. */
  lemma ParseInfoOfNoContainers(ipOf: string -> string)
    ensures ParseInfo("\n", ipOf) == [ContainerRow(false, "", None)]
  {
    assert Trim("\n") == "";
    assert Explode('\n', "") == [""];
    var row := ParseRow("", ipOf);
    assert !row.isRunning;
  }

  /**
   * getInfo(): the status rows of the project's containers, one per line
   * `docker ps` prints; a running container's address is the one `docker
   * inspect` reports for its name, and a stopped one has none.
   */
  function GetInfo(p: Project, host: Host): (rows: seq<ContainerRow>)
    ensures |rows| >= 1
    ensures forall i :: 0 <= i < |rows| ==> (rows[i].ipAddress.Some? <==> rows[i].isRunning)
    ensures forall i :: 0 <= i < |rows| && rows[i].isRunning ==>
              rows[i].ipAddress.value == ContainerIpAddress(p, host, rows[i].name)
  {
    var ipOf := (name: string) => ContainerIpAddress(p, host, name);
    ParseInfoAddresses(host.stdout(InfoArgv(p)), ipOf);
    ParseInfo(host.stdout(InfoArgv(p)), ipOf)
  }

  /** A row has an address exactly when it runs, and then it is the one `ipOf` gives for its name. */
  lemma ParseInfoAddresses(output: string, ipOf: string -> string)
    ensures var rows := ParseInfo(output, ipOf);
      && (forall i :: 0 <= i < |rows| ==> (rows[i].ipAddress.Some? <==> rows[i].isRunning))
      && (forall i :: 0 <= i < |rows| && rows[i].isRunning ==> rows[i].ipAddress.value == ipOf(rows[i].name))
  {
    var rows := ParseInfo(output, ipOf);
    forall i | 0 <= i < |rows|
      ensures rows[i].ipAddress.Some? <==> rows[i].isRunning
      ensures rows[i].isRunning ==> rows[i].ipAddress.value == ipOf(rows[i].name)
    {
      var row := rows[i];
      assert row == ParseRow(Explode('\n', Trim(output))[i], ipOf);
    }
  }

  // ---------------------------------------------------------------------
  // stop()

  /** The names of the running containers among `rows`, in order. */
  function RunningNames(rows: seq<ContainerRow>): seq<string>
  {
    if rows == [] then []
    else
      var last := rows[|rows| - 1];
      RunningNames(rows[..|rows| - 1]) + (if last.isRunning then [last.name] else [])
  }

  function StopArgv(containerName: string): seq<string> {
    ["docker", "stop", containerName]
  }

  /** The names among `names` whose `docker stop` fails, in order. */
  function FailedStops(host: Host, names: seq<string>): seq<string>
  {
    if names == [] then []
    else
      var last := names[|names| - 1];
      FailedStops(host, names[..|names| - 1]) + (if host.succeeds(StopArgv(last)) then [] else [last])
  }

  /**
   * stop(): one `docker stop <name>` per running row of getInfo(), in
   * order; rows that do not run are skipped. A stop that fails is only
   * reported (logged as a warning): the commands issued do not depend on
   * `host.succeeds`.
   */
  method Stop(p: Project, host: Host) returns (stopped: seq<seq<string>>, failed: seq<string>)
    ensures var names := RunningNames(GetInfo(p, host));
      && |stopped| == |names|
      && (forall k :: 0 <= k < |stopped| ==> stopped[k] == StopArgv(names[k]))
      && failed == FailedStops(host, names)
  {
    var rows := GetInfo(p, host);
    stopped, failed := StopContainers(rows, host);
  }

  /** The loop of stop() over the rows of getInfo(). */
  method StopContainers(rows: seq<ContainerRow>, host: Host) returns (stopped: seq<seq<string>>, failed: seq<string>)
    ensures var names := RunningNames(rows);
      && |stopped| == |names|
      && (forall k :: 0 <= k < |stopped| ==> stopped[k] == StopArgv(names[k]))
      && failed == FailedStops(host, names)
  {
    stopped, failed := [], [];
    var i := 0;
    while i < |rows|
      invariant 0 <= i <= |rows|
      invariant |stopped| == |RunningNames(rows[..i])|
      invariant forall k :: 0 <= k < |stopped| ==> stopped[k] == StopArgv(RunningNames(rows[..i])[k])
      invariant failed == FailedStops(host, RunningNames(rows[..i]))
    {
      var container := rows[i];
      assert rows[..i + 1][..i] == rows[..i];
      ghost var names := RunningNames(rows[..i]);
      if !container.isRunning {
        assert RunningNames(rows[..i + 1]) == names;
        i := i + 1;
        continue;
      }
      var command := StopArgv(container.name);
      stopped := stopped + [command];
      assert RunningNames(rows[..i + 1]) == names + [container.name];
      assert (names + [container.name])[..|names|] == names;
      if !host.succeeds(command) {
        failed := failed + [container.name];
      }
      i := i + 1;
    }
    assert rows[..|rows|] == rows;
  }

  lemma {:induction false} RunningNamesAppend(a: seq<ContainerRow>, b: seq<ContainerRow>)
    ensures RunningNames(a + b) == RunningNames(a) + RunningNames(b)
    decreases |b|
  {
    if b != [] {
      assert (a + b)[..|a + b| - 1] == a + b[..|b| - 1];
      RunningNamesAppend(a, b[..|b| - 1]);
    } else {
      assert a + b == a;
    }
  }

  /** A name is stopped exactly when some row of that name runs. */
  lemma {:induction false} RunningNamesMembers(rows: seq<ContainerRow>, name: string)
    ensures name in RunningNames(rows) <==> exists i :: 0 <= i < |rows| && rows[i].isRunning && rows[i].name == name
    decreases |rows|
  {
    if rows != [] {
      var init := rows[..|rows| - 1];
      RunningNamesMembers(init, name);
      if exists i :: 0 <= i < |init| && init[i].isRunning && init[i].name == name {
        var i :| 0 <= i < |init| && init[i].isRunning && init[i].name == name;
        assert rows[i] == init[i];
      }
      if exists i :: 0 <= i < |rows| && rows[i].isRunning && rows[i].name == name {
        var i :| 0 <= i < |rows| && rows[i].isRunning && rows[i].name == name;
        if i < |init| { assert init[i] == rows[i]; }
      }
    }
  }

  /** A name is reported as failed exactly when it was stopped and its `docker stop` fails. */
  lemma {:induction false} FailedStopsMembers(host: Host, names: seq<string>, name: string)
    ensures name in FailedStops(host, names) <==> name in names && !host.succeeds(StopArgv(name))
    decreases |names|
  {
    if names != [] {
      var init := names[..|names| - 1];
      FailedStopsMembers(host, init, name);
      assert names == init + [names[|names| - 1]];
    }
  }

  /** No two rows share a name, as for the containers docker lists. */
  predicate DistinctNames(rows: seq<ContainerRow>) {
    forall i, j :: 0 <= i < j < |rows| ==> rows[i].name != rows[j].name
  }

  /** stop() never issues `docker stop` for a container that does not run. */
  lemma NotRunningNotStopped(rows: seq<ContainerRow>, i: int)
    requires DistinctNames(rows)
    requires 0 <= i < |rows| && !rows[i].isRunning
    ensures rows[i].name !in RunningNames(rows)
  {
    RunningNamesMembers(rows, rows[i].name);
  }

  // ---------------------------------------------------------------------
  // start()

  /** The configuration directory relative to the installation directory, as Symfony prints it. */
  function RelativeEisenhardtDirectory(p: Project, host: Host): string {
    host.makePathRelative(EisenhardtDirectory(p), p.installationDirectory)
  }

  /** The pattern getContribFiles() globs for. */
  function ContribPattern(p: Project): string {
    EisenhardtDirectory(p) + "/contrib" + "/*.yml"
  }

  /**
   * getContribFiles(): nothing unless contrib files are included; otherwise
   * the basename of every `.yml` file glob() finds in `contrib/`, in glob's
   * order.
   */
  function ContribFiles(p: Project, params: StartParams, host: Host): (files: seq<string>)
    ensures !params.includeContrib ==> files == []
    ensures params.includeContrib ==> |files| == |host.glob(ContribPattern(p))|
    ensures params.includeContrib ==> forall i :: 0 <= i < |files| ==> files[i] == Basename(host.glob(ContribPattern(p))[i])
    ensures forall i :: 0 <= i < |files| ==> '/' !in files[i]
  {
    if !params.includeContrib then []
    else
      var paths := host.glob(ContribPattern(p));
      seq(|paths|, i requires 0 <= i < |paths| => Basename(paths[i]))
  }

  /** The `-f` option that adds one contrib file. */
  function ContribOption(dir: string, file: string): string {
    "-f" + dir + "/contrib/" + file
  }

  function ContribOptions(dir: string, files: seq<string>): (r: seq<string>)
    ensures |r| == |files|
    ensures forall i :: 0 <= i < |files| ==> r[i] == ContribOption(dir, files[i])
  {
    seq(|files|, i requires 0 <= i < |files| => ContribOption(dir, files[i]))
  }

  /**
   * The `docker-compose` argument list of start(), given the configuration
   * directory as passed to docker-compose, whether ports are mapped, the
   * contrib files and the project name.
   */
  function ComposeCommand(dir: string, mapPorts: bool, files: seq<string>, name: string): seq<string> {
    ["docker-compose", "-f" + dir + "base.yml", "-f" + dir + "dev.yml"]
    + (if mapPorts then ["-f" + dir + "/ports.yml"] else [])
    + ContribOptions(dir, files)
    + ["-p " + name, "up", "-d", "--force-recreate"]
  }

  /** The command start() runs for a project. */
  function StartArgv(p: Project, params: StartParams, host: Host): seq<string> {
    ComposeCommand(RelativeEisenhardtDirectory(p, host), params.mapPorts, ContribFiles(p, params, host), ProjectName(p))
  }

  /** start(): builds the `docker-compose` command as the source does, one option at a time. */
  method Start(p: Project, params: StartParams, host: Host) returns (command: seq<string>)
    ensures command == StartArgv(p, params, host)
  {
    var dir := RelativeEisenhardtDirectory(p, host);
    var files := ContribFiles(p, params, host);
    var name := ProjectName(p);
    command := BuildComposeCommand(dir, params.mapPorts, params.includeContrib, files, name);
  }

  /** The body of start(), over the values it reads from the project. */
  method BuildComposeCommand(dir: string, mapPorts: bool, includeContrib: bool, files: seq<string>, name: string)
    returns (command: seq<string>)
    requires !includeContrib ==> files == []
    ensures command == ComposeCommand(dir, mapPorts, files, name)
  {
    command := ["docker-compose", "-f" + dir + "base.yml", "-f" + dir + "dev.yml"];
    if mapPorts {
      command := command + ["-f" + dir + "/ports.yml"];
    }
    if includeContrib {
      command := AppendContribOptions(command, dir, files);
    } else {
      assert ContribOptions(dir, files) == [];
      assert command + [] == command;
    }
    command := command + ["-p " + name];
    command := command + ["up"];
    command := command + ["-d"];
    command := command + ["--force-recreate"];
  }

  /** The foreach of start() over the contrib files: one `-f` option appended per file, in order. */
  method AppendContribOptions(command: seq<string>, dir: string, files: seq<string>) returns (r: seq<string>)
    ensures r == command + ContribOptions(dir, files)
  {
    r := command;
    var i := 0;
    while i < |files|
      invariant 0 <= i <= |files|
      invariant |r| == |command| + i && r[..|command|] == command
      invariant forall k :: 0 <= k < i ==> r[|command| + k] == ContribOption(dir, files[k])
    {
      r := r + ["-f" + dir + "/contrib/" + files[i]];
      i := i + 1;
    }
  }

  /**
   * The shape of the start command: `docker-compose` and the base and dev
   * files first; the ports file next exactly when ports are mapped; then
   * one option per contrib file, in order; and last `-p <name>` as a
   * single argument, `up`, `-d`, `--force-recreate`.
   */
  lemma ComposeCommandShape(dir: string, mapPorts: bool, files: seq<string>, name: string)
    ensures var c := ComposeCommand(dir, mapPorts, files, name);
      var ports := if mapPorts then 1 else 0;
      && |c| == 7 + ports + |files|
      && c[..3] == ["docker-compose", "-f" + dir + "base.yml", "-f" + dir + "dev.yml"]
      && (mapPorts ==> c[3] == "-f" + dir + "/ports.yml")
      && (forall k :: 0 <= k < |files| ==> c[3 + ports + k] == ContribOption(dir, files[k]))
      && c[|c| - 4..] == ["-p " + name, "up", "-d", "--force-recreate"]
  {
    var c := ComposeCommand(dir, mapPorts, files, name);
    var ports := if mapPorts then 1 else 0;
    var head := ["docker-compose", "-f" + dir + "base.yml", "-f" + dir + "dev.yml"]
                + (if mapPorts then ["-f" + dir + "/ports.yml"] else []);
    var tail := ["-p " + name, "up", "-d", "--force-recreate"];
    assert c == head + ContribOptions(dir, files) + tail;
    assert c[..3] == head[..3];
    assert c[|c| - 4..] == tail;
    forall k | 0 <= k < |files|
      ensures c[3 + ports + k] == ContribOption(dir, files[k])
    {
      assert c[3 + ports + k] == ContribOptions(dir, files)[k];
    }
  }

  /** The ports file is among the options exactly when ports are mapped. */
  lemma ComposeMapsPortsIff(dir: string, mapPorts: bool, files: seq<string>, name: string)
    ensures ("-f" + dir + "/ports.yml" in ComposeCommand(dir, mapPorts, files, name)) <==> mapPorts
  {
    var c := ComposeCommand(dir, mapPorts, files, name);
    var ports := "-f" + dir + "/ports.yml";
    var n := |dir|;
    ComposeCommandShape(dir, mapPorts, files, name);
    if mapPorts {
      assert c[3] == ports;
    } else {
      forall i | 0 <= i < |c|
        ensures c[i] != ports
      {
        if i == 0 {
          DifferAt(ports, c[i], 0);
        } else if i < 3 {
          assert c[i] == c[..3][i];
          DifferAt(ports, c[i], n + 2);
        } else if i < 3 + |files| {
          assert c[i] == ContribOption(dir, files[i - 3]);
          DifferAt(ports, c[i], n + 3);
        } else {
          assert c[i] == c[|c| - 4..][i - (|c| - 4)];
          if i == |c| - 3 {
            DifferAt(ports, c[i], 0);
          } else {
            DifferAt(ports, c[i], 1);
          }
        }
      }
    }
  }

  /**
   * The contrib options are exactly the arguments that name a file under
   * `/contrib/`: they sit right after the base, dev and ports files, one per
   * contrib file.
   */
  lemma ComposeContribOptions(dir: string, mapPorts: bool, files: seq<string>, name: string)
    ensures var c := ComposeCommand(dir, mapPorts, files, name);
      var first := if mapPorts then 4 else 3;
      forall i :: 0 <= i < |c| ==> (("-f" + dir + "/contrib/" <= c[i]) <==> first <= i < first + |files|)
  {
    var c := ComposeCommand(dir, mapPorts, files, name);
    var contrib := "-f" + dir + "/contrib/";
    var n := |dir|;
    var first := if mapPorts then 4 else 3;
    ComposeCommandShape(dir, mapPorts, files, name);
    forall i | 0 <= i < |c|
      ensures (contrib <= c[i]) <==> first <= i < first + |files|
    {
      if i == 0 {
        DifferAt(contrib, c[i], 0);
      } else if i < 3 {
        assert c[i] == c[..3][i];
        DifferAt(contrib, c[i], n + 2);
      } else if i < first {
        DifferAt(contrib, c[i], n + 3);
      } else if i < first + |files| {
        assert c[i] == ContribOption(dir, files[i - first]);
        assert c[i] == contrib + files[i - first];
      } else {
        assert c[i] == c[|c| - 4..][i - (|c| - 4)];
        if i == |c| - 3 {
          DifferAt(contrib, c[i], 0);
        } else {
          DifferAt(contrib, c[i], 1);
        }
      }
    }
  }

  // ---------------------------------------------------------------------
  // run(): the pieces of the command

  /** `getenv('COMPOSER_HOME') ?? "{$home}/.config/composer"`, as written: getenv() returns false, not null, for an unset variable, so `??` never falls back. */
  function ComposerHomeAsWritten(host: Host): (r: string)
    ensures host.getenv("COMPOSER_HOME").Some? ==> r == host.getenv("COMPOSER_HOME").value
    ensures host.getenv("COMPOSER_HOME").None? ==> r == ""
  {
    Interpolate(host.getenv("COMPOSER_HOME"))
  }

  /**
   * When COMPOSER_HOME is unset, the composer mount as written has an empty
   * source: the argument is `-v:<home>/.composer`.
   */
  lemma ComposerHomeAsWrittenIgnoresFallback(host: Host)
    requires host.getenv("COMPOSER_HOME") == None
    ensures ComposerHomeAsWritten(host) == ""
    ensures "-v" + ComposerHomeAsWritten(host) + ":" == "-v:"
  {
  }

  /**
   * The composer home the code evidently means: COMPOSER_HOME when it is
   * set, `<home>/.config/composer` otherwise.
   */
  function ComposerHome(host: Host): (r: string)
    ensures host.getenv("COMPOSER_HOME").Some? ==> r == host.getenv("COMPOSER_HOME").value
    ensures host.getenv("COMPOSER_HOME").None? ==> EndsWith(r, "/.config/composer") && r != ""
    ensures host.getenv("COMPOSER_HOME").None? ==> r[..|r| - |"/.config/composer"|] == Interpolate(host.getenv("HOME"))
  {
    match host.getenv("COMPOSER_HOME")
    case Some(dir) => dir
    case None => Interpolate(host.getenv("HOME")) + "/.config/composer"
  }

  /**
   * getLocalIpAddress(): the first space-separated token of `hostname -I`:
   * the output up to its first space, or all of it when it has none.
   */
  function LocalIpAddress(host: Host): (ip: string)
    ensures var out := host.stdout(HOSTNAME_ARGV);
      && ' ' !in ip && |ip| <= |out| && out[..|ip|] == ip
      && (|ip| < |out| ==> out[|ip|] == ' ')
  {
    var out := host.stdout(HOSTNAME_ARGV);
    ExplodeFirst(' ', out);
    Explode(' ', out)[0]
  }

  /** The value of XDEBUG_CONFIG: the four settings joined by spaces. */
  function XdebugConfig(ip: string): string {
    Implode(' ', XdebugSettings(ip))
  }

  function XdebugSettings(ip: string): seq<string> {
    ["remote_host=" + ip, "remote_connect_back=0", "xdebug.remote_mode=req", "xdebug.remote_port=9000"]
  }

  /**
   * For an address without spaces, as getLocalIpAddress() yields, splitting
   * XDEBUG_CONFIG at its spaces gives back exactly the four settings, the
   * remote host first.
   */
  lemma XdebugConfigSettings(ip: string)
    requires ' ' !in ip
    ensures Explode(' ', XdebugConfig(ip)) == XdebugSettings(ip)
    ensures Explode(' ', XdebugConfig(ip))[0] == "remote_host=" + ip
  {
    var parts := XdebugSettings(ip);
    assert ' ' !in "remote_host=";
    assert ' ' !in parts[0];
    assert ' ' !in parts[1] && ' ' !in parts[2] && ' ' !in parts[3];
    ExplodeImplode(' ', parts);
  }

  /**
   * `$userString`: `root:root` exactly when running as root, otherwise the
   * uid of the owner of the running script (`getmyuid()`) and the container group.
   */
  function UserString(params: RunParams, uid: nat): (r: string)
    ensures (r == "root:root") <==> params.asRoot
    ensures !params.asRoot ==> r == NatToString(uid) + ":" + CONTAINER_GROUP
  {
    if params.asRoot then "root:root"
    else
      var r := NatToString(uid) + ":" + CONTAINER_GROUP;
      assert IsDigit(r[0]);
      r
  }

  /** The three components getPhpVersion() returns; a missing component is PHP's null. */
  datatype Version = Version(release: Option<string>, major: Option<string>, minor: Option<string>)

  function Component(parts: seq<string>, i: nat): Option<string> {
    if i < |parts| then Some(parts[i]) else None
  }

  /** The components of a version string split at `.`; there is always a first one. */
  function SplitVersion(version: string): (v: Version)
    ensures v.release.Some?
  {
    var components := Explode('.', version);
    Version(Component(components, 0), Component(components, 1), Component(components, 2))
  }

  /** `<release>.<major>.<minor>` is read back component by component. */
  lemma SplitVersionOfDotted(release: string, major: string, minor: string)
    requires '.' !in release && '.' !in major && '.' !in minor
    ensures SplitVersion(release + "." + major + "." + minor) == Version(Some(release), Some(major), Some(minor))
  {
    var parts := [release, major, minor];
    assert parts[1..] == [major, minor] && parts[1..][1..] == [minor];
    assert Implode('.', [minor]) == minor;
    assert Implode('.', [major, minor]) == major + "." + minor;
    assert Implode('.', parts) == release + "." + (major + "." + minor);
    assert release + "." + (major + "." + minor) == release + "." + major + "." + minor;
    ExplodeImplode('.', parts);
  }

  /**
   * Any version with at least two dots, such as a distribution build
   * `7.4.3-4ubuntu2.18`, gives its text before the first dot as the release
   * and its text between the first two dots as the major component.
   */
  lemma SplitVersionOfAny(release: string, major: string, rest: string)
    requires '.' !in release && '.' !in major
    ensures var v := SplitVersion(release + "." + major + "." + rest);
      v.release == Some(release) && v.major == Some(major)
  {
    ExplodeAppend('.', major, rest);
    ExplodeAppend('.', release, major + "." + rest);
    assert release + "." + (major + "." + rest) == release + "." + major + "." + rest;
  }

  /** The version getPhpVersion() reads from `echo PHP_VERSION;`: the trimmed output split at `.`. */
  function ParseVersion(output: string): (v: Version)
    ensures v.release.Some?
  {
    SplitVersion(Trim(output))
  }

  /** getPhpVersion(): the PHP version of the project's appserver container; its release component is always there. */
  function PhpVersion(p: Project, host: Host): (v: Version)
    ensures v.release.Some?
  {
    ParseVersion(host.stdout(PhpVersionArgv(ContainerId(p, host, "appserver"))))
  }

  /** `$versionString` of getRunTag(): the requested version, or `release.major` of the running one. */
  function VersionString(p: Project, params: RunParams, host: Host): string {
    match params.phpVersion
    case Some(version) => version
    case None =>
      var v := PhpVersion(p, host);
      Interpolate(v.release) + "." + Interpolate(v.major)
  }

  /** The tag suffix of the console image with and without Xdebug. */
  const XDEBUG_SUFFIX := "-console-xdebug"
  const CONSOLE_SUFFIX := "-console"

  /**
   * getRunTag(): the console image tag. It starts with the requested PHP
   * version verbatim, when one is given, and ends with `-console-xdebug`
   * exactly when debugging, with `-console` otherwise.
   */
  function RunTag(p: Project, params: RunParams, host: Host): (tag: string)
    ensures params.phpVersion.Some? ==> params.phpVersion.value <= tag
    ensures EndsWith(tag, XDEBUG_SUFFIX) <==> params.debug
    ensures !params.debug ==> EndsWith(tag, CONSOLE_SUFFIX)
  {
    var version := VersionString(p, params, host);
    TagSuffix(version, params.debug);
    version + (if params.debug then XDEBUG_SUFFIX else CONSOLE_SUFFIX)
  }

  lemma TagSuffix(version: string, debug: bool)
    ensures var tag := version + (if debug then XDEBUG_SUFFIX else CONSOLE_SUFFIX);
      && (EndsWith(tag, XDEBUG_SUFFIX) <==> debug)
      && (!debug ==> EndsWith(tag, CONSOLE_SUFFIX))
  {
    var suffix := if debug then XDEBUG_SUFFIX else CONSOLE_SUFFIX;
    var tag := version + suffix;
    EndsWithAppend(version, suffix);
    if !debug {
      assert tag[|tag| - 1] == CONSOLE_SUFFIX[|CONSOLE_SUFFIX| - 1];
      NotEndsWith(tag, XDEBUG_SUFFIX);
    }
  }

  /** With a requested version the tag is that version verbatim, directly followed by the suffix. */
  lemma RunTagOfExplicitVersion(p: Project, params: RunParams, host: Host, version: string)
    requires params.phpVersion == Some(version)
    ensures RunTag(p, params, host) == version + (if params.debug then XDEBUG_SUFFIX else CONSOLE_SUFFIX)
  {
  }

  /** Without a requested version the tag uses the release and major components of the container's PHP. */
  lemma RunTagOfContainerVersion(p: Project, params: RunParams, host: Host, release: string, major: string, rest: string)
    requires params.phpVersion == None
    requires '.' !in release && '.' !in major
    requires Trim(host.stdout(PhpVersionArgv(ContainerId(p, host, "appserver")))) == release + "." + major + "." + rest
    ensures RunTag(p, params, host) == release + "." + major + (if params.debug then XDEBUG_SUFFIX else CONSOLE_SUFFIX)
  {
    SplitVersionOfAny(release, major, rest);
  }

  /** The values run() interpolates into the options of `docker run`. */
  datatype RunSettings = RunSettings(
    containerId: string,       // the appserver container, whose volumes are mounted
    network: string,
    user: string,              // `uid:gid` or `root:root`
    home: string,
    composerHome: string,
    sshSocket: string,
    xdebug: string,            // the value of XDEBUG_CONFIG
    workingDirectory: string,
    tag: string)               // the console image tag

  /** The settings run() reads from the project, its parameters and the host. */
  function Settings(p: Project, params: RunParams, host: Host): RunSettings {
    RunSettings(
      ContainerId(p, host, "appserver"),
      NetworkName(p),
      UserString(params, host.uid),
      Interpolate(host.getenv("HOME")),
      ComposerHome(host),
      Interpolate(host.getenv("SSH_AUTH_SOCK")),
      XdebugConfig(LocalIpAddress(host)),
      params.workingDirectory,
      RunTag(p, params, host))
  }

  /**
   * The fifteen options run() passes between `-it` and the user's command:
   * `--rm` first, the user flag fourth, the working directory next to last
   * and the console image last; none of them is `-it`.
   */
  function RunOptions(s: RunSettings): (opts: seq<string>)
    ensures |opts| == 15
    ensures opts[0] == "--rm" && opts[3] == "-u" + s.user
    ensures opts[13] == "-w" + s.workingDirectory && opts[14] == "maxbucknell/php:" + s.tag
    ensures "-it" !in opts
  {
    var opts := [
      "--rm",
      "--volumes-from=" + s.containerId,
      "--net=" + s.network,
      "-u" + s.user,
      "-v/etc/passwd:/etc/passwd",
      "-v" + s.home + "/.ssh/known_hosts:" + s.home + "/.ssh/known_hosts",
      "-v" + s.composerHome + ":" + s.home + "/.composer",
      "-eCOMPOSER_HOME=" + s.home + "/.composer",
      "-v" + s.home + "/.npm:" + s.home + "/.npm",
      "-v" + s.home + "/.gitconfig:" + s.home + "/.gitconfig",
      "-v" + s.sshSocket + ":" + s.sshSocket,
      "-ePHP_IDE_CONFIG=serverName='eisenhardt'",
      "-eXDEBUG_CONFIG='" + s.xdebug + "'",
      "-w" + s.workingDirectory,
      "maxbucknell/php:" + s.tag];
    forall k | 0 <= k < |opts|
      ensures opts[k] != "-it"
    {
      if k == 14 {
        DifferAt("-it", opts[k], 0);
      } else {
        assert opts[k][1] != 'i';
        DifferAt("-it", opts[k], 1);
      }
    }
    opts
  }

  /**
   * With the composer home as written and COMPOSER_HOME unset, the composer
   * mount run() passes has an empty source: `-v:<home>/.composer`.
   */
  lemma ComposerMountAsWritten(s: RunSettings, host: Host)
    requires host.getenv("COMPOSER_HOME") == None && s.composerHome == ComposerHomeAsWritten(host)
    ensures RunOptions(s)[6] == "-v:" + s.home + "/.composer"
  {
    assert "-v" + "" + ":" == "-v:";
  }

  /** The `docker run` argument list for the given settings and user command. */
  function DockerRun(interactive: bool, s: RunSettings, command: seq<string>): seq<string> {
    ["docker", "run"] + (if interactive then ["-it"] else []) + RunOptions(s) + command
  }

  /** The `docker run` argument list run() executes. */
  function RunArgv(p: Project, params: RunParams, host: Host): seq<string> {
    DockerRun(params.interactive, Settings(p, params, host), params.command)
  }

  /** run(): reads the host, then builds the `docker run` command. */
  method Run(p: Project, params: RunParams, host: Host) returns (command: seq<string>)
    ensures command == RunArgv(p, params, host)
  {
    var uid := host.uid;
    var home := Interpolate(host.getenv("HOME"));
    var composerHome := ComposerHome(host);
    var ipAddress := LocalIpAddress(host);
    var sshSocket := Interpolate(host.getenv("SSH_AUTH_SOCK"));
    var xdebugString := XdebugConfig(ipAddress);
    var userString := UserString(params, uid);
    var settings := RunSettings(ContainerId(p, host, "appserver"), NetworkName(p), userString, home,
                                composerHome, sshSocket, xdebugString, params.workingDirectory, RunTag(p, params, host));
    command := BuildDockerRun(params.interactive, settings, params.command);
  }

  /** The body of run() that assembles the command, appending step by step. */
  method BuildDockerRun(interactive: bool, s: RunSettings, userCommand: seq<string>) returns (command: seq<string>)
    ensures command == DockerRun(interactive, s, userCommand)
  {
    command := ["docker", "run"];
    if interactive {
      command := command + ["-it"];
    }
    command := command + [
      "--rm",
      "--volumes-from=" + s.containerId,
      "--net=" + s.network,
      "-u" + s.user,
      "-v/etc/passwd:/etc/passwd",
      "-v" + s.home + "/.ssh/known_hosts:" + s.home + "/.ssh/known_hosts",
      "-v" + s.composerHome + ":" + s.home + "/.composer",
      "-eCOMPOSER_HOME=" + s.home + "/.composer",
      "-v" + s.home + "/.npm:" + s.home + "/.npm",
      "-v" + s.home + "/.gitconfig:" + s.home + "/.gitconfig",
      "-v" + s.sshSocket + ":" + s.sshSocket,
      "-ePHP_IDE_CONFIG=serverName='eisenhardt'",
      "-eXDEBUG_CONFIG='" + s.xdebug + "'",
      "-w" + s.workingDirectory,
      "maxbucknell/php:" + s.tag];
    command := command + userCommand;
  }

  /**
   * The shape of the run command: `docker run`; `-it` among the options
   * exactly when interactive; `--rm`; the user flag; the working directory;
   * the console image; and the user's command last, unchanged.
   */
  lemma DockerRunShape(interactive: bool, s: RunSettings, command: seq<string>)
    ensures var c := DockerRun(interactive, s, command);
      var o := if interactive then 1 else 0;
      && |c| == 17 + o + |command|
      && c[..2] == ["docker", "run"]
      && (interactive ==> c[2] == "-it")
      && c[2 + o] == "--rm"
      && c[5 + o] == "-u" + s.user
      && c[15 + o] == "-w" + s.workingDirectory
      && c[16 + o] == "maxbucknell/php:" + s.tag
      && c[17 + o..] == command
      && (("-it" in c[..17 + o]) <==> interactive)
  {
    var c := DockerRun(interactive, s, command);
    var o := if interactive then 1 else 0;
    var opts := RunOptions(s);
    var head := ["docker", "run"] + (if interactive then ["-it"] else []);
    assert c == head + opts + command;
    assert c[..17 + o] == head + opts;
    assert c[17 + o..] == command;
    forall k | 0 <= k < 15
      ensures c[2 + o + k] == opts[k]
    {
    }
    if !interactive {
      assert "-it" !in head;
    }
  }

  // ---------------------------------------------------------------------
  // repairPermissions()

  /**
   * The commands repairPermissions() runs, with their descriptions, in
   * order: eight of them, the first handing ownership of everything outside
   * `.eisenhardt` to the uid of the owner of the running script
   * (`getmyuid()`) and the container group.
   */
  function RepairCommands(uid: nat): (tasks: seq<(string, seq<string>)>)
    ensures |tasks| == 8 && |tasks[0].1| == 14
    ensures tasks[0].1[..4] == ["find", ".", "-type", "d"]
    ensures tasks[0].1[4..8] == ["-path", "./.eisenhardt", "-prune", "-o"]
    ensures tasks[0].1[8..12] == ["-exec", "chown", "-v", NatToString(uid) + ":" + CONTAINER_GROUP]
    ensures forall i :: 1 <= i < 8 ==> "chmod" in tasks[i].1
  {
    [ ("file ownership",
        ["find", ".", "-type", "d", "-path", "./.eisenhardt", "-prune", "-o",
         "-exec", "chown", "-v", NatToString(uid) + ":" + CONTAINER_GROUP, "{}", ";"]),
      ("file permissions",
        ["find", ".", "-type", "d", "-path", "./.eisenhardt", "-prune", "-o",
         "-type", "f", "-exec", "chmod", "-v", "744", "{}", ";"]),
      ("directory permissions",
        ["find", ".", "-type", "d", "-path", "./.eisenhardt", "-prune", "-o",
         "-type", "d", "-exec", "chmod", "-v", "755", "{}", ";", "-exec", "chmod", "-v", "g+s", "{}", ";"]),
      ("var permissions", ["chmod", "-v", "-R", "g+w", "var"]),
      ("pub permissions", ["chmod", "-v", "-R", "g+w", "pub"]),
      ("app/etc permissions", ["chmod", "-v", "-R", "g+w", "app/etc"]),
      ("generated permissions", ["chmod", "-v", "-R", "g+w", "generated"]),
      ("bin/magento permissions", ["chmod", "-v", "+x", "bin/magento"]) ]
  }

  /** The parameters repairPermissions() runs each command with. */
  function RepairParams(command: seq<string>): RunParams {
    RunParams(command, MAGENTO_ROOT, false, None, true, false)
  }

  /**
   * repairPermissions(): one run() per repair command, in order, each as
   * root, not interactive, from /mnt/magento, and with that command last.
   */
  method RepairPermissions(p: Project, host: Host) returns (issued: seq<seq<string>>)
    ensures var tasks := RepairCommands(host.uid);
      && |issued| == |tasks| == 8
      && forall i :: 0 <= i < |issued| ==>
           && issued[i] == RunArgv(p, RepairParams(tasks[i].1), host)
           && issued[i][2] == "--rm"
           && issued[i][5] == "-u" + "root:root"
           && issued[i][15] == "-w" + MAGENTO_ROOT
           && issued[i][17..] == tasks[i].1
           && "-it" !in issued[i][..17]
  {
    var tasks := RepairCommands(host.uid);
    issued := RunRepairs(RepairSettings(p, host), tasks);
    RepairRunsFacts(p, host, tasks, issued);
  }

  /**
   * The loop of repairPermissions(): the docker run of each task's command,
   * in order, with the settings every repair run shares.
   */
  method RunRepairs(settings: RunSettings, tasks: seq<(string, seq<string>)>) returns (issued: seq<seq<string>>)
    ensures |issued| == |tasks|
    ensures forall k :: 0 <= k < |tasks| ==> issued[k] == DockerRun(false, settings, tasks[k].1)
  {
    issued := [];
    var i := 0;
    while i < |tasks|
      invariant 0 <= i <= |tasks| && |issued| == i
      invariant forall k :: 0 <= k < i ==> issued[k] == DockerRun(false, settings, tasks[k].1)
    {
      var command := BuildDockerRun(false, settings, tasks[i].1);
      issued := issued + [command];
      i := i + 1;
    }
  }

  /**
   * Each repair run is run() with the repair parameters for its task's
   * command: as root, not interactive, from /mnt/magento, with the command
   * last.
   */
  lemma RepairRunsFacts(p: Project, host: Host, tasks: seq<(string, seq<string>)>, issued: seq<seq<string>>)
    requires |issued| == |tasks|
    requires forall k :: 0 <= k < |tasks| ==> issued[k] == DockerRun(false, RepairSettings(p, host), tasks[k].1)
    ensures forall i :: 0 <= i < |issued| ==>
           && issued[i] == RunArgv(p, RepairParams(tasks[i].1), host)
           && issued[i][2] == "--rm"
           && issued[i][5] == "-u" + "root:root"
           && issued[i][15] == "-w" + MAGENTO_ROOT
           && issued[i][17..] == tasks[i].1
           && "-it" !in issued[i][..17]
  {
    var settings := RepairSettings(p, host);
    forall k | 0 <= k < |issued|
      ensures issued[k] == RunArgv(p, RepairParams(tasks[k].1), host)
      ensures issued[k][2] == "--rm" && issued[k][5] == "-u" + "root:root"
      ensures issued[k][15] == "-w" + MAGENTO_ROOT && issued[k][17..] == tasks[k].1
      ensures "-it" !in issued[k][..17]
    {
      RepairRunArgv(p, host, tasks[k].1);
      DockerRunShape(false, settings, tasks[k].1);
    }
  }

  /** The settings shared by every repair run. */
  function RepairSettings(p: Project, host: Host): (s: RunSettings)
    ensures s.user == "root:root" && s.workingDirectory == MAGENTO_ROOT
  {
    Settings(p, RepairParams([]), host)
  }

  /** The settings of a run do not depend on its command, so every repair run shares them. */
  lemma RepairRunArgv(p: Project, host: Host, command: seq<string>)
    ensures RunArgv(p, RepairParams(command), host) == DockerRun(false, RepairSettings(p, host), command)
  {
    var params, base := RepairParams(command), RepairParams([]);
    assert UserString(params, host.uid) == UserString(base, host.uid);
    assert RunTag(p, params, host) == RunTag(p, base, host);
  }
}
