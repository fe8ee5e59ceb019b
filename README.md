# Eisenhardt, modelled in Dafny

Eisenhardt is a command-line tool that runs a Magento development
environment in Docker. A project is any directory holding a `.eisenhardt/`
directory. The tool finds the project by looking upwards from the working
directory. From the project's directory name it derives a project name
(lower-case letters and digits only) and a network name. It then builds
the `docker-compose` command line that starts the stack, stops running
containers, and builds the `docker run` command line of a throw-away
console container. That console container is what runs the user's
commands and the permission repairs. The legacy Redbox Docker code it grew
out of has its own copy of the upward search and its own console image
choice.

The model covers these parts:

- `wrappers.dfy`: `Option`, `Result`, and the two exceptions the code throws.
- `php.dfy`: the PHP built-ins the code relies on, written as functions
  over strings. These are `explode`/`implode`, `trim`, `strpos`,
  `strtolower`, decimal printing of an integer, `basename`, and `dirname`.
- `finder.dfy`: `Finder::findInParent`. The filesystem is the set of
  paths for which `file_exists` holds.
- `redbox_factory.dfy` and `redbox_run.dfy`: the legacy Redbox project
  factory and its `run` command's image choice.
- `params.dfy`: the `RunParams` and `StartParams` value objects.
- `project.dfy`: `Eisenhardt\Project` and `ProjectFactory::findFromDirectory`.

The model replaces everything outside the program with a `Host` value:

- The standard output of each external command, looked up by its argument
  vector: `docker ps` (the container list of getInfo, and the container id
  of getContainerId), `docker inspect` (a container's IP address),
  `docker exec <id> php -r` (the PHP version) and `hostname -I` (the local
  IP address).
- Whether an external command exits successfully, also looked up by its
  argument vector: stop reads this for each `docker stop <name>`.
- The uid of the owner of the running script (`getmyuid()`). This is not necessarily the uid of the user who runs it.
- The environment (`getenv`, where `false` is `None`).
- The result of `glob`.
- Symfony's `makePathRelative`.

Commands that Eisenhardt executes become the argument vectors it would
hand to the process runner. The `docker-compose` command of start() and
the `docker run` command of run() are built by methods step by step, the
way the PHP code builds their arrays (Eisenhardt.BuildComposeCommand,
Eisenhardt.AppendContribOptions, Eisenhardt.BuildDockerRun). Each method is
proved equal to a function, and the properties of the command's shape are
proved about that function. The other vectors are literal lists in the PHP
code and are plain functions here: `docker ps` (Eisenhardt.InfoArgv,
Eisenhardt.ContainerIdArgv), `docker inspect` (Eisenhardt.InspectIpArgv),
`docker exec` (Eisenhardt.PhpVersionArgv), `hostname -I`
(Eisenhardt.HOSTNAME_ARGV) and `docker stop` (Eisenhardt.StopArgv).

## Model

| member | source | states |
|---|---|---|
| Php.Implode | src/MaxBucknell/Eisenhardt/Project.php:327-335 | no contract of its own: the parts joined by the separator; Php.ExplodeImplode and Php.Explode state that explode undoes it |
| Php.Explode | src/MaxBucknell/Eisenhardt/Project.php:269-272 | explode gives at least one part, no part holds the separator, and joining the parts with the separator gives the input back |
| Php.ExplodeImplode | src/MaxBucknell/Eisenhardt/Project.php:481 | splitting the join of separator-free parts gives exactly those parts back |
| Php.ExplodeAppend | src/MaxBucknell/Eisenhardt/Project.php:481 | a separator-free head followed by the separator splits into that head followed by the split of the rest |
| Php.ExplodeNoSeparator | src/MaxBucknell/Eisenhardt/Project.php:272 | a string without the separator splits into itself alone |
| Php.ExplodePair | src/MaxBucknell/Eisenhardt/Project.php:272 | two separator-free pieces joined by the separator explode into exactly those two pieces |
| Php.ExplodeFirst | src/MaxBucknell/Eisenhardt/Project.php:413-414 | the first part is the input up to its first separator, or all of it when there is none |
| Php.TrimRight | src/MaxBucknell/Eisenhardt/Project.php:269 | the result is a prefix of the input, it does not end in whitespace, and only whitespace was removed |
| Php.TrimLeft | src/MaxBucknell/Eisenhardt/Project.php:269 | the result is a suffix of the input, it does not start with whitespace, and only whitespace was removed |
| Php.Trim | src/MaxBucknell/Eisenhardt/Project.php:269 | the result neither starts nor ends in whitespace, and a string already without edge whitespace is unchanged |
| Php.TrimCutsEdges | src/MaxBucknell/Eisenhardt/Project.php:269 | trim's result is a slice of the input, and every character cut before or after it is whitespace |
| Php.IsTrimChar | src/MaxBucknell/Eisenhardt/Project.php:269 | no contract of its own: trim()'s default character set (space, tab, newline, carriage return, NUL, vertical tab), used by every trim of Project.php (lines 269, 311, 480 and 517); Php.Trim and Php.TrimCutsEdges state that exactly these characters are cut from the edges |
| Php.Interpolate | src/MaxBucknell/Eisenhardt/Project.php:354-359 | no contract of its own: `"{$x}"` of a value that may be false or null, which PHP prints as the empty string; Eisenhardt.ComposerHomeAsWrittenIgnoresFallback and Eisenhardt.ComposerMountAsWritten state what it makes of an unset COMPOSER_HOME |
| Php.StrPos | src/MaxBucknell/Eisenhardt/Project.php:273 | strpos returns the first index at which the needle occurs, or nothing when it occurs nowhere |
| Php.StrPosFrom | src/MaxBucknell/Eisenhardt/Project.php:273 | the search from an offset returns the first occurrence at or after the offset, or nothing |
| Php.StrPosZeroIffPrefix | src/MaxBucknell/Eisenhardt/Project.php:273 | `strpos(...) === 0` holds exactly when the needle is a prefix |
| Php.StrToLower | src/MaxBucknell/Eisenhardt/Project.php:101 | strtolower keeps the length and lowers each character in place |
| Php.LowerChar | src/MaxBucknell/Eisenhardt/Project.php:101 | no contract of its own: strtolower's mapping of one character, `A`-`Z` to `a`-`z` and every other character unchanged; Php.StrToLower states that it is applied at each position |
| Php.DigitChar | src/MaxBucknell/Eisenhardt/Project.php:337 | a decimal digit value prints as a digit character |
| Php.NatToString | src/MaxBucknell/Eisenhardt/Project.php:337 | an integer prints as a non-empty string of digits with no leading zero unless it is 0 |
| Php.NatToStringValue | src/MaxBucknell/Eisenhardt/Project.php:337 | reading back the printed digits gives the number |
| Php.TrimTrailingSlashes | src/MaxBucknell/Eisenhardt/Project.php:99 | removes exactly the trailing slashes |
| Php.DropLastSegment | src/MaxBucknell/Eisenhardt/Util/Finder.php:31 | removes exactly the final run of non-slash characters |
| Php.DropLastSegmentAppend | src/MaxBucknell/Eisenhardt/Util/Finder.php:31 | appending slash-free text does not change what the final-segment removal leaves |
| Php.Basename | src/MaxBucknell/Eisenhardt/Project.php:99 | basename is slash-free and is the last whole segment of the path without trailing slashes |
| Php.Dirname | src/MaxBucknell/Eisenhardt/Util/Finder.php:31 | the dirname of an absolute path is an absolute prefix of it, strictly shorter unless the path is "/"; an absolute path other than "/" without trailing or doubled slashes is its dirname (nothing when that is "/"), one slash, and its basename |
| Php.ChildPath | src/MaxBucknell/Eisenhardt/Project.php:71-76 | for a canonical absolute directory and a plain name, dirname of `dir/name` is dir and basename is name |
| Finder.Ancestors | src/MaxBucknell/Eisenhardt/Util/Finder.php:19-32 | the directories findInParent visits start at the given directory |
| Finder.Contains | src/MaxBucknell/Eisenhardt/Util/Finder.php:21 | no contract of its own: `file_exists("{$dir}/{$filename}")` over the set of existing paths; Finder.FindInParentHere, Finder.FindInParentFailsIff and Finder.FindInParentIsNearest state the search in terms of it |
| Finder.AncestorsChain | src/MaxBucknell/Eisenhardt/Util/Finder.php:25-31 | each visited directory is an absolute prefix of the start and the dirname of the one before, and the walk ends at "/" and nowhere earlier |
| Finder.NotFound | src/MaxBucknell/Eisenhardt/Util/Finder.php:27 | no contract of its own: the FileNotFoundException message `File <name> not found in any parent directory`; Finder.FindInParent and Finder.FindInParentFailsIff state when it is thrown |
| Finder.FindInParent | src/MaxBucknell/Eisenhardt/Util/Finder.php:19-32 | success returns a visited directory that holds the file; failure throws the not-found exception and only after "/" was checked |
| Finder.FindInParentHere | src/MaxBucknell/Eisenhardt/Util/Finder.php:21-23 | a start directory that holds the file is returned at once |
| Finder.FindInParentFailsIff | src/MaxBucknell/Eisenhardt/Util/Finder.php:19-32 | the search fails exactly when no ancestor, "/" included, holds the file |
| Finder.FindInParentIsNearest | src/MaxBucknell/Eisenhardt/Util/Finder.php:19-32 | the answer is the nearest ancestor holding the file: no directory visited before it holds it |
| Finder.NoneContainsCons | src/MaxBucknell/Eisenhardt/Util/Finder.php:21-31 | no directory of a list headed by d holds the file exactly when d does not and the rest do not |
| Finder.FirstContainingCons | src/MaxBucknell/Eisenhardt/Util/Finder.php:21-31 | a directory without the file in front moves the nearest holder back by one place |
| RedboxFactory.FindInParent | src/Redbox/RD/ProjectFactory.php:43-56 | no contract of its own: the legacy copy of findInParent; RedboxFactory.FindInParentAgrees shows it equals Finder.FindInParent, whose contract and lemmas then hold of it |
| RedboxFactory.FindInParentAgrees | src/Redbox/RD/ProjectFactory.php:43-56 | the legacy copy of findInParent returns exactly what Finder::findInParent returns |
| RedboxFactory.NewProject | src/Redbox/RD/Project.php:34-45 | a Redbox project can be built in a directory exactly when it holds `.rd` |
| RedboxFactory.FindFromWorkingDirectory | src/Redbox/RD/ProjectFactory.php:27-33 | succeeds exactly when some ancestor of the working directory holds `.rd`, and then picks the nearest such ancestor |
| RedboxRun.GetTag | src/Redbox/RD/Command/RunCommand.php:123-140 | no contract of its own: the four literal branches; RedboxRun.GetTagBase, RedboxRun.GetTagDebug, RedboxRun.GetTagDebian and RedboxRun.GetTagValues state them |
| RedboxRun.GetTagBase | src/Redbox/RD/Command/RunCommand.php:123-140 | every image getTag chooses starts with the repository's PHP 7.0 console image |
| RedboxRun.GetTagDebug | src/Redbox/RD/Command/RunCommand.php:127-133 | getTag chooses an `-xdebug` image exactly when debugging |
| RedboxRun.GetTagDebian | src/Redbox/RD/Command/RunCommand.php:127-137 | getTag chooses an image ending in `-debian` exactly when Debian is asked for |
| RedboxRun.GetTagIsConsoleImage | src/Redbox/RD/Command/RunCommand.php:123-140 | getTag's value on its own is a valid reference to a tag of the console repository |
| RedboxRun.GetTagValues | src/Redbox/RD/Command/RunCommand.php:127-139 | the four literal images, one per option combination |
| RedboxRun.ImageAsWritten | src/Redbox/RD/Command/RunCommand.php:89 | no contract of its own: the repository, `:` and getTag's value; RedboxRun.ImageAsWrittenRepeatsRepository states what is wrong with it |
| RedboxRun.ImageAsWrittenRepeatsRepository | src/Redbox/RD/Command/RunCommand.php:85-89 | the image reference the command builds repeats the repository and is not a valid console image reference |
| RedboxRun.Image | src/Redbox/RD/Command/RunCommand.php:85-89 | the corrected image, getTag's value used as it is, is a valid console image reference with the same PHP 7.0, debug and Debian choices |
| Params.RunParamsDefaults | src/MaxBucknell/Eisenhardt/RunParams.php:39-53 | the defaults: `bash`, `/mnt/magento`, no debug, no PHP version, not as root, interactive |
| Params.RunParamsFourArguments | src/MaxBucknell/Eisenhardt/Command/RunCommand.php:87-92 | the run command's four-argument construction runs not as root and interactively |
| Params.RunParamsGetters | src/MaxBucknell/Eisenhardt/RunParams.php:58-101 | each getter returns its constructor argument |
| Params.StartParamsGetters | src/MaxBucknell/Eisenhardt/StartParams.php:23-45 | isMapPorts and isIncludeContrib return their constructor arguments |
| Eisenhardt.NewProject | src/MaxBucknell/Eisenhardt/Project.php:41-54 | the constructor succeeds exactly when `<dir>/.eisenhardt` exists, keeps the directory, and otherwise throws the not-found exception with its message |
| Eisenhardt.EisenhardtDirectory | src/MaxBucknell/Eisenhardt/Project.php:71-76 | no contract of its own: `<dir>/.eisenhardt`; Eisenhardt.EisenhardtDirectoryIsChild states its dirname and basename |
| Eisenhardt.EisenhardtDirectoryIsChild | src/MaxBucknell/Eisenhardt/Project.php:71-76 | the Eisenhardt directory sits directly inside the installation directory and is named `.eisenhardt` |
| Eisenhardt.FindFromDirectory | src/MaxBucknell/Eisenhardt/ProjectFactory.php:41-50 | succeeds exactly when some ancestor holds `.eisenhardt`, then picks the nearest such ancestor, and otherwise throws "Not an eisenhardt project" |
| Eisenhardt.RemoveNonAlphanumerics | src/MaxBucknell/Eisenhardt/Project.php:101 | the result is no longer than the input and holds only ASCII letters and digits |
| Eisenhardt.RemoveNonAlphanumericsAppend | src/MaxBucknell/Eisenhardt/Project.php:101 | the removal works piece by piece over a concatenation |
| Eisenhardt.RemoveNonAlphanumericsKeeps | src/MaxBucknell/Eisenhardt/Project.php:101 | an all-alphanumeric string is kept whole |
| Eisenhardt.RemoveNonAlphanumericsEmptyIff | src/MaxBucknell/Eisenhardt/Project.php:101 | the removal leaves nothing exactly when the input has no letter or digit |
| Eisenhardt.Slug | src/MaxBucknell/Eisenhardt/Project.php:101 | the slug holds only lower-case letters and digits |
| Eisenhardt.SlugAppend | src/MaxBucknell/Eisenhardt/Project.php:101 | the slug of a concatenation is the concatenation of the slugs |
| Eisenhardt.SlugChar | src/MaxBucknell/Eisenhardt/Project.php:101 | a single character becomes its lower-case form if it is a letter or digit, and otherwise disappears |
| Eisenhardt.SlugOfName | src/MaxBucknell/Eisenhardt/Project.php:101 | a string already made of lower-case letters and digits is its own slug |
| Eisenhardt.SlugIdempotent | src/MaxBucknell/Eisenhardt/Project.php:101 | taking the slug twice is the same as once |
| Eisenhardt.SlugDropsSeparator | src/MaxBucknell/Eisenhardt/Project.php:101 | a character that is not a letter or digit between any two parts is dropped: the slug of `a<sep>b` is the slug of `a` followed by the slug of `b` |
| Eisenhardt.ProjectNameOfChild | src/MaxBucknell/Eisenhardt/Project.php:97-102 | the name of the project in `dir/name` is the slug of `name` |
| Eisenhardt.TestSlugProject | test/MaxBucknell/Eisenhardt/ProjectTest.php:85-92 | the slug of `project` is `project` |
| Eisenhardt.TestSlugProjectOther | test/MaxBucknell/Eisenhardt/ProjectTest.php:94-101 | the slug of `project_other` is `projectother` |
| Eisenhardt.TestSlugProjectOther254 | test/MaxBucknell/Eisenhardt/ProjectTest.php:103-110 | the slug of `project_other_254` is `projectother254` |
| Eisenhardt.TestProjectNames | test/MaxBucknell/Eisenhardt/ProjectTest.php:85-110 | the projects in `<dir>/project`, `<dir>/project_other` and `<dir>/project_other_254` are named `project`, `projectother` and `projectother254`, as the test expects |
| Eisenhardt.SlugEmptyIff | src/MaxBucknell/Eisenhardt/Project.php:101 | the slug is empty exactly when the name has no letter or digit |
| Eisenhardt.ProjectName | src/MaxBucknell/Eisenhardt/Project.php:97-102 | the project name holds only lower-case letters and digits |
| Eisenhardt.NetworkName | src/MaxBucknell/Eisenhardt/Project.php:109-112 | no contract of its own: the project name followed by `_eisenhardt`; Eisenhardt.NetworkNameParts states how it splits |
| Eisenhardt.NetworkNameParts | src/MaxBucknell/Eisenhardt/Project.php:109-112 | the network name splits at `_` into exactly the project name and `eisenhardt` |
| Eisenhardt.NameWithNetworkSuffix | src/MaxBucknell/Eisenhardt/Project.php:109-112 | any name of lower-case letters and digits followed by the network suffix splits at `_` into that name and `eisenhardt` |
| Eisenhardt.NetworkSuffixParts | src/MaxBucknell/Eisenhardt/Project.php:111 | the network suffix is one underscore followed by text without underscores |
| Eisenhardt.InspectIpArgv | src/MaxBucknell/Eisenhardt/Project.php:290-295 | no contract of its own: the literal `docker inspect` of getContainerIpAddress(), asking for the address on the project's network; Eisenhardt.ContainerIpAddressOfInspect states what is taken from its output |
| Eisenhardt.ContainerIpAddress | src/MaxBucknell/Eisenhardt/Project.php:288-312 | the address has no whitespace at either end; Eisenhardt.ContainerIpAddressOfInspect ties it to the output |
| Eisenhardt.ContainerIpAddressOfInspect | src/MaxBucknell/Eisenhardt/Project.php:288-312 | the address is the `docker inspect` output for the container with only whitespace cut from its two ends |
| Eisenhardt.ContainerIdArgv | src/MaxBucknell/Eisenhardt/Project.php:492-498 | no contract of its own: the literal `docker ps` of getContainerId(), filtered by project and service, printing the ids; Eisenhardt.ContainerIdOfPs states what is taken from its output |
| Eisenhardt.ContainerId | src/MaxBucknell/Eisenhardt/Project.php:490-518 | the id has no whitespace at either end; Eisenhardt.ContainerIdOfPs ties it to the output |
| Eisenhardt.ContainerIdOfPs | src/MaxBucknell/Eisenhardt/Project.php:490-518 | the id is the `docker ps` output for the service's container with only whitespace cut from its two ends |
| Eisenhardt.InfoArgv | src/MaxBucknell/Eisenhardt/Project.php:247-252 | no contract of its own: the literal `docker ps` of getInfo(), filtered by the project's compose label, with the format `{{.Names}}|{{.Status}}`; Eisenhardt.ParseRow and Eisenhardt.ParseInfo state how its output is read |
| Eisenhardt.ProjectFilter | src/MaxBucknell/Eisenhardt/Project.php:250 | no contract of its own: the argument `--filter=label=com.docker.compose.project=<project name>` that getInfo() (line 250) and getContainerId() (line 495) pass to `docker ps` |
| Eisenhardt.GetInfo | src/MaxBucknell/Eisenhardt/Project.php:245-286 | at least one row; a row has an IP address exactly when its container runs, and then it is the address `docker inspect` reports for that container's name |
| Eisenhardt.ParseInfoAddresses | src/MaxBucknell/Eisenhardt/Project.php:271-283 | a parsed row has an address exactly when it runs, and then it is the address looked up for its name |
| Eisenhardt.ParseRow | src/MaxBucknell/Eisenhardt/Project.php:271-281 | a row's name is the line up to its first pipe character; the container runs exactly when the status after it starts with `Up`; it has an IP address exactly when it runs, and that address is the one looked up for its name |
| Eisenhardt.StatusIsUp | src/MaxBucknell/Eisenhardt/Project.php:272-273 | the status field starts with `Up` exactly when the line has a pipe character and the text after the first one starts with `Up` |
| Eisenhardt.FieldStartsWithUp | src/MaxBucknell/Eisenhardt/Project.php:272-273 | the text before the first pipe character starts with `Up` exactly when the whole text does |
| Eisenhardt.ParseRows | src/MaxBucknell/Eisenhardt/Project.php:270-283 | array_map gives one row per line, each the row of that line, in order |
| Eisenhardt.ParseInfo | src/MaxBucknell/Eisenhardt/Project.php:269-285 | one row per line of the trimmed `docker ps` output, in order, and so always at least one row |
| Eisenhardt.ParseInfoOfNoContainers | src/MaxBucknell/Eisenhardt/Project.php:269-285 | output with no containers still yields a single unnamed row that does not run |
| Eisenhardt.StopArgv | src/MaxBucknell/Eisenhardt/Project.php:220-224 | no contract of its own: the literal `docker stop <name>`; Eisenhardt.Stop and Eisenhardt.FailedStopsMembers state when it is issued and how its failure is reported |
| Eisenhardt.RunningNames | src/MaxBucknell/Eisenhardt/Project.php:212-218 | no contract of its own: the names of the running rows, in order; Eisenhardt.RunningNamesMembers and Eisenhardt.RunningNamesAppend state its members and how it splits |
| Eisenhardt.FailedStops | src/MaxBucknell/Eisenhardt/Project.php:238-240 | no contract of its own: the names whose `docker stop` fails, in order; Eisenhardt.FailedStopsMembers states its members |
| Eisenhardt.FailedStopsMembers | src/MaxBucknell/Eisenhardt/Project.php:220-240 | a name is reported as failed exactly when it was stopped and its `docker stop` fails |
| Eisenhardt.Stop | src/MaxBucknell/Eisenhardt/Project.php:210-243 | one `docker stop <name>` per running container, in order, and the failed ones are exactly those whose stop command fails |
| Eisenhardt.StopContainers | src/MaxBucknell/Eisenhardt/Project.php:212-242 | the loop issues one stop per running row, in row order, and collects the failures |
| Eisenhardt.RunningNamesAppend | src/MaxBucknell/Eisenhardt/Project.php:212-242 | the running names of a concatenation are the running names of the parts, concatenated |
| Eisenhardt.RunningNamesMembers | src/MaxBucknell/Eisenhardt/Project.php:212-242 | a name is stopped exactly when some row with that name runs |
| Eisenhardt.NotRunningNotStopped | src/MaxBucknell/Eisenhardt/Project.php:212-242 | with distinct names, a container that does not run is never stopped |
| Eisenhardt.RelativeEisenhardtDirectory | src/MaxBucknell/Eisenhardt/Project.php:84-90 | no contract of its own: makePathRelative of the configuration directory against the installation directory, which start() passes to docker-compose (line 140); Eisenhardt.ComposeCommandShape states where it appears |
| Eisenhardt.ContribPattern | src/MaxBucknell/Eisenhardt/Project.php:195-196 | no contract of its own: the literal `<dir>/.eisenhardt/contrib/*.yml` that getContribFiles() globs; Eisenhardt.ContribFiles states what is kept of its matches |
| Eisenhardt.ContribFiles | src/MaxBucknell/Eisenhardt/Project.php:189-201 | no files when contrib is off; otherwise the basename of each globbed file, in glob order |
| Eisenhardt.ContribOptions | src/MaxBucknell/Eisenhardt/Project.php:156-161 | one `-f<dir>/contrib/<file>` option per contrib file, in order |
| Eisenhardt.ContribOption | src/MaxBucknell/Eisenhardt/Project.php:159 | no contract of its own: the literal `-f<dir>/contrib/<file>`; Eisenhardt.ContribOptions and Eisenhardt.ComposeContribOptions state where these options sit in the compose command |
| Eisenhardt.ComposeCommand | src/MaxBucknell/Eisenhardt/Project.php:145-166 | no contract of its own: the compose argument list; Eisenhardt.ComposeCommandShape, Eisenhardt.ComposeMapsPortsIff and Eisenhardt.ComposeContribOptions state its shape |
| Eisenhardt.StartArgv | src/MaxBucknell/Eisenhardt/Project.php:134-183 | no contract of its own: the compose command of the project's relative directory, port flag, contrib files and name; Eisenhardt.Start is proved equal to it, and Eisenhardt.ComposeCommandShape states its shape |
| Eisenhardt.Start | src/MaxBucknell/Eisenhardt/Project.php:134-183 | the command start runs is the compose command of the project's relative Eisenhardt directory, the port flag, the contrib files and the project name |
| Eisenhardt.BuildComposeCommand | src/MaxBucknell/Eisenhardt/Project.php:145-166 | the array built step by step is the compose command |
| Eisenhardt.AppendContribOptions | src/MaxBucknell/Eisenhardt/Project.php:156-161 | the foreach appends exactly one `-f<dir>/contrib/<file>` option per contrib file, in order, after what was already there |
| Eisenhardt.ComposeCommandShape | src/MaxBucknell/Eisenhardt/Project.php:145-166 | docker-compose with the base and dev files, then ports when mapped, then one option per contrib file, and last `-p <name> up -d --force-recreate` |
| Eisenhardt.ComposeMapsPortsIff | src/MaxBucknell/Eisenhardt/Project.php:151-154 | the ports file is in the command exactly when ports are mapped |
| Eisenhardt.ComposeContribOptions | src/MaxBucknell/Eisenhardt/Project.php:156-161 | the contrib options sit exactly at the positions after the base, dev and ports options |
| Eisenhardt.ComposerHomeAsWritten | src/MaxBucknell/Eisenhardt/Project.php:323 | as written: COMPOSER_HOME's value when it is set, and the empty string PHP prints for `false` when it is not |
| Eisenhardt.ComposerMountAsWritten | src/MaxBucknell/Eisenhardt/Project.php:323-355 | as written, with COMPOSER_HOME unset, run()'s composer mount is `-v:<home>/.composer` |
| Eisenhardt.ComposerHomeAsWrittenIgnoresFallback | src/MaxBucknell/Eisenhardt/Project.php:323 | as written, an unset COMPOSER_HOME gives an empty composer home and the volume option `-v:` |
| Eisenhardt.ComposerHome | src/MaxBucknell/Eisenhardt/Project.php:322-323 | COMPOSER_HOME when it is set, and otherwise `$HOME/.config/composer` |
| Eisenhardt.HOSTNAME_ARGV | src/MaxBucknell/Eisenhardt/Project.php:395-398 | no contract of its own: the literal `hostname -I`; Eisenhardt.LocalIpAddress states what is taken from its output |
| Eisenhardt.LocalIpAddress | src/MaxBucknell/Eisenhardt/Project.php:393-419 | the local IP address is the `hostname -I` output up to its first space |
| Eisenhardt.XdebugSettings | src/MaxBucknell/Eisenhardt/Project.php:329-334 | no contract of its own: the literal four Xdebug settings, the address first; Eisenhardt.XdebugConfigSettings states that the joined value splits back into them |
| Eisenhardt.XdebugConfig | src/MaxBucknell/Eisenhardt/Project.php:327-335 | no contract of its own: the four Xdebug settings joined by spaces; Eisenhardt.XdebugConfigSettings states that they split back apart |
| Eisenhardt.XdebugConfigSettings | src/MaxBucknell/Eisenhardt/Project.php:327-335 | for an address without spaces, XDEBUG_CONFIG splits at its spaces into exactly the four settings, `remote_host=<address>` first |
| Eisenhardt.UserString | src/MaxBucknell/Eisenhardt/Project.php:337 | `root:root` exactly when running as root, and otherwise `<uid>:10118` |
| Eisenhardt.SplitVersion | src/MaxBucknell/Eisenhardt/Project.php:481-487 | the release component is always present |
| Eisenhardt.Component | src/MaxBucknell/Eisenhardt/Project.php:483-486 | no contract of its own: `$components[i]`, which is PHP's null (None) when the offset is missing; Eisenhardt.SplitVersion, Eisenhardt.SplitVersionOfDotted and Eisenhardt.SplitVersionOfAny state what it reads |
| Eisenhardt.SplitVersionOfDotted | src/MaxBucknell/Eisenhardt/Project.php:481-487 | `a.b.c` gives release a, major b and minor c |
| Eisenhardt.SplitVersionOfAny | src/MaxBucknell/Eisenhardt/Project.php:481-487 | any version with two or more dots, such as `7.4.3-4ubuntu2.18`, gives the text before the first dot as release and the text between the first two dots as major |
| Eisenhardt.ParseVersion | src/MaxBucknell/Eisenhardt/Project.php:480-487 | the trimmed output always yields a release component |
| Eisenhardt.PhpVersionArgv | src/MaxBucknell/Eisenhardt/Project.php:454-461 | no contract of its own: the literal `docker exec <id> php -r 'echo PHP_VERSION;'`; Eisenhardt.ParseVersion and Eisenhardt.PhpVersion state how its output is read |
| Eisenhardt.PhpVersion | src/MaxBucknell/Eisenhardt/Project.php:452-488 | the version read from the appserver container always has a release component |
| Eisenhardt.VersionString | src/MaxBucknell/Eisenhardt/Project.php:433-438 | no contract of its own: the requested version, or `<release>.<major>` of the running one; Eisenhardt.RunTag and Eisenhardt.RunTagOfContainerVersion state the tag built from it |
| Eisenhardt.RunTag | src/MaxBucknell/Eisenhardt/Project.php:430-445 | an explicit PHP version starts the tag (Eisenhardt.RunTagOfExplicitVersion states that the suffix follows it directly); the tag ends in `-console-xdebug` exactly when debugging, and otherwise in `-console` |
| Eisenhardt.RunTagOfExplicitVersion | src/MaxBucknell/Eisenhardt/Project.php:433-444 | with a requested PHP version, the tag is that version verbatim directly followed by `-console-xdebug` when debugging and `-console` otherwise |
| Eisenhardt.TagSuffix | src/MaxBucknell/Eisenhardt/Project.php:440-444 | a version followed by the debug suffix ends in it; followed by the plain suffix it does not |
| Eisenhardt.RunTagOfContainerVersion | src/MaxBucknell/Eisenhardt/Project.php:434-436 | with no explicit version and any trimmed container PHP version of the form `<release>.<major>.<rest>` (two or more dots, the rest free), the tag is `<release>.<major>` followed by the suffix |
| Eisenhardt.Settings | src/MaxBucknell/Eisenhardt/Project.php:321-337 | no contract of its own: what run() reads from the project, its parameters and the host, with the corrected composer home; Eisenhardt.RepairSettings, Eisenhardt.ComposerMountAsWritten and Eisenhardt.RunOptions state what reaches the command |
| Eisenhardt.RunOptions | src/MaxBucknell/Eisenhardt/Project.php:339-366 | the fifteen fixed options start with `--rm`, carry the user and working directory at their places, end with the `maxbucknell/php` image, and never include `-it` |
| Eisenhardt.DockerRun | src/MaxBucknell/Eisenhardt/Project.php:339-366 | no contract of its own: `docker run`, `-it` when interactive, the fixed options and the user's command; Eisenhardt.DockerRunShape states its shape and Eisenhardt.BuildDockerRun is proved equal to it |
| Eisenhardt.RunArgv | src/MaxBucknell/Eisenhardt/Project.php:319-386 | no contract of its own: the docker run command of run()'s settings; Eisenhardt.Run is proved equal to it, and Eisenhardt.RepairRunArgv and Eisenhardt.RepairRunsFacts state it for the repairs |
| Eisenhardt.Run | src/MaxBucknell/Eisenhardt/Project.php:319-386 | the command run() executes is the docker run command of its settings and the user's command |
| Eisenhardt.BuildDockerRun | src/MaxBucknell/Eisenhardt/Project.php:339-366 | the array built step by step is the docker run command |
| Eisenhardt.DockerRunShape | src/MaxBucknell/Eisenhardt/Project.php:339-366 | `docker run`, then `-it` exactly when interactive, `--rm`, the user, the working directory and the image at fixed places, then the user's command unchanged |
| Eisenhardt.RepairCommands | src/MaxBucknell/Eisenhardt/Project.php:523-616 | eight commands; the first is a `find . -type d` that prunes `./.eisenhardt` (`-path ./.eisenhardt -prune -o`) and runs `-exec chown -v <uid>:10118` on the rest, and each of the other seven runs chmod |
| Eisenhardt.RepairParams | src/MaxBucknell/Eisenhardt/Project.php:620-627 | no contract of its own: the parameters each repair runs with; Eisenhardt.RepairRunArgv and Eisenhardt.RepairRunsFacts state that they run as root, non-interactively, from `/mnt/magento` |
| Eisenhardt.RepairSettings | src/MaxBucknell/Eisenhardt/Project.php:618-627 | a repair runs as `root:root` in `/mnt/magento` |
| Eisenhardt.RepairRunArgv | src/MaxBucknell/Eisenhardt/Project.php:618-627 | the settings of a repair run do not depend on its command |
| Eisenhardt.RepairRunsFacts | src/MaxBucknell/Eisenhardt/Project.php:618-628 | each such docker run is the run() of its task with the repair parameters, as root, in `/mnt/magento`, with `--rm`, without `-it`, and with the task's command last |
| Eisenhardt.RepairPermissions | src/MaxBucknell/Eisenhardt/Project.php:520-629 | the eight repair commands are run in order, each as root, non-interactively, from `/mnt/magento` |
| Eisenhardt.RunRepairs | src/MaxBucknell/Eisenhardt/Project.php:618-628 | the loop issues one non-interactive docker run per task, in order, each with the shared repair settings and that task's command |

## Left out

- Php.StrPos: an empty needle gives index 0, as PHP 8 does; PHP 7 returns false with a warning. The code only ever searches for `Up`, so the difference never arises.
- Process execution is not modelled. Symfony `Process`, `mustRun`, TTY handling and the exceptions a failing process throws are replaced by the `Host` lookups. The working directory a process is started in is not modelled either. start() starts docker-compose in the installation directory (Project.php:174-177), and the relative `-f` paths of Eisenhardt.StartArgv are resolved against it.
- Logging (the Monolog calls) is not modelled, since no result depends on it.
- `glob`, `getenv`, `getmyuid` and Symfony's `makePathRelative` are not modelled, because they are external: they are inputs carried by `Host`.
- `file_exists` is tested on the path string exactly as the code spells it. Kernel path normalisation (`..`, doubled slashes, symbolic links) is not modelled.
- Finder.FindInParent: requires an absolute start directory. Starting from a relative path, PHP's `dirname` reaches `.` instead of `/`. The PHP loop then ends only if some relative ancestor, or `.` itself, holds the file, and otherwise runs forever. That case is not modelled.
- Eisenhardt.RunOptions: its contract states only `--rm`, the user, the working directory, the image and the absence of `-it`. The `--net`, `-v`, `-e` and `--volumes-from` options are in the model, but no contract states them.
- Eisenhardt.Settings: run()'s settings take the corrected composer home, Eisenhardt.ComposerHome, and not the code as written, as the next line explains.
- Eisenhardt.RunArgv: goes through Eisenhardt.Settings, so it carries the corrected composer home, as the next line explains.
- Eisenhardt.Run: the model of run() uses the corrected composer home, Eisenhardt.ComposerHome, and not the code as written. With COMPOSER_HOME unset the model passes `-v<home>/.config/composer:<home>/.composer`, where the code as written passes `-v:<home>/.composer`, as Eisenhardt.ComposerMountAsWritten states. The same holds for Eisenhardt.RunArgv, Eisenhardt.RepairPermissions and Eisenhardt.RepairRunsFacts, which go through run()'s settings.
- Eisenhardt.RepairPermissions: the eight repair commands and their descriptions are the literal argument vectors. The shell scripts inside them are not interpreted.
- Eisenhardt.RunRepairs: the model computes run()'s settings once, before the loop, and does not recompute them for every command. The settings depend only on the host, which the loop does not change. Eisenhardt.RepairRunArgv shows that every run() with the repair parameters has these settings, so each command issued is the one run() would build.
- installContribFile (`mkdir` plus `cp`) is not modelled: it only copies files.
- ProjectFactory::createInDirectory and initialiseTls are not modelled: they are `cp`, `sed`, `mkcert` and `mv` run through the shell.
- The heredoc shell scripts of the FixPermissions commands and of the Redbox start, stop, info and run commands are not modelled: they are opaque shell text.
- SyncCommand, StandupCommand and the Redbox `Project::getRelativeDirectory` are not modelled: they call methods or use variables that do not exist.
- MagentoInstallation and Platform are not modelled: they only shell out to composer and docker.
- The Application classes, the console command classes (apart from the `RunParams` the run command builds) and InfoCommand's table rendering are not modelled: they are command-line registration and user interface.
- `dockerfiles/build.py` and `fix_glob_brace.php` are not modelled: image building and a one-line constant are outside the core.
- The project test's expectation of a `_magento` network suffix is not modelled. The code appends `_eisenhardt`, and the model follows the code.
- The uid is a `nat` and is printed in decimal. PHP's `getmyuid` returning `false` is not modelled.
- `getenv` returning `false` is modelled as `None`. PHP's `??` only falls back on `null`, and that gap is the first finding below.
- The project names the tests expect (`project`, `projectother`, `projectother254`) are stated by Eisenhardt.TestProjectNames. The other test files' expectations are not stated, because they exercise commands outside the model.

## Findings

| source | as written | input that shows it | evidently intended | confidence | as-written member | corrected member |
|---|---|---|---|---|---|---|
| src/MaxBucknell/Eisenhardt/Project.php:323 | `getenv('COMPOSER_HOME') ?? "{$home}/.config/composer"`: getenv returns `false`, not `null`, for an unset variable, so `??` never falls back | COMPOSER_HOME unset: the composer home is empty and the volume option becomes `-v:` | `$HOME/.config/composer` when COMPOSER_HOME is unset | not executed | Eisenhardt.ComposerHomeAsWritten, Eisenhardt.ComposerHomeAsWrittenIgnoresFallback | Eisenhardt.ComposerHome |
| src/Redbox/RD/Command/RunCommand.php:89 | `"redboxdigital/docker-console:{$tag}"`, but getTag already returns the whole reference | any options, e.g. no debug and no Debian: `redboxdigital/docker-console:redboxdigital/docker-console:7.0` | use getTag's value as the image | not executed | RedboxRun.ImageAsWritten, RedboxRun.ImageAsWrittenRepeatsRepository | RedboxRun.Image |
