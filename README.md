# venvy, modelled in Dafny

venvy is a command-line "context manager" for the shell. A `venvy.toml` file declares
projects and modules. Each module is a unit of shell set-up: a Python virtualenv, a
prompt prefix, environment variables, a tmux window, a jump to the project root, an
arbitrary command. Running `venvy <project>` builds the project's modules in order. It
writes every module's activation lines to one file and their deactivation lines, last
module first, to another, and the `shell-init` helper sources them. Scripts in a
project's script directories become sub-commands `venvy <project>.<script>`, each run
as one more module. Configuration files are found through git, the working directory
and a history of configurations seen before.

The model covers both generations of the program:

- **The newer packages.**
  - `cli.go` and `cli_loader.go` discover configurations and scripts and build the commands.
  - `manager/project_manager.go` resolves and runs the modules of one project.
  - `venvy/` holds the configuration types, the configuration manager and the data manager.
  - `modules/` holds the module types and their registry.
  - `util/util.go` holds the shared helpers.
- **The older single package.**
  - `config_loader.go` and `project_manager.go` hold the older loader and project manager.
  - `config.go` holds the older configuration types and registry.
  - `module_python.go`, `module_ps1.go`, `module_exec.go` and `module_debug.go` hold the older modules.
  - `util.go` holds the older helpers.

`util.go`, `module_exec.go` and `module_debug.go` are the newer `util/util.go`,
`modules/exec.go` and `modules/debug.go` under other names. They are modelled by the same
members. The same holds for the parts of `config_loader.go` that `cli_loader.go` repeats:
`foundConfig`, `extractScript`, the docstring scan and the script cache.

Each source file maps to a Dafny module. The pure parts are functions on datatypes, with
lemmas about them. The stateful parts keep their form:

- **Classes.** Objects whose methods update fields are classes:
  - `DataManagers.DataManager`
  - `Manager.ProjectManager`, which holds the active project and its data manager
  - `LegacyManager.ProjectManager`, which holds the `sync.Once` memo of loaded modules
  - `ConfigManagers.ConfigManager`
  - `Loader.FoundConfig`, which has two `sync.Once` latches
- **Loops.** Loops are methods with invariants, each proved equal to a specification
  function. That function's properties are proved as lemmas.

Everything the program reads from outside the process is one `World.World` value. That
covers the environment, the working directory, file contents and `os.Stat`, the tmux and
git outputs, MD5 and the TOML, dotenv and JSON text parsers.

## Model

| member | source | states |
|---|---|---|
| Util.UnmarshalEmpty | util/util.go:22-27 | empty data decodes to no fields at all (the target keeps its values); any other data is decoded as JSON into the struct |
| Util.IsCleanName | util/util.go:79 | a name `^[a-z0-9_\-]+$` accepts is non-empty and holds no '/' and no '.' |
| Util.Ancestors | util/util.go:52-67 | the directories the search visits: `start` first, each next one the `path.Dir` of the one before, the walk ending at "/" or "." |
| Util.Nearest | util/util.go:60-62 | the first directory of a list holding the target, and none exactly when no directory of the list holds it |
| Util.FindPathInAncestors | util/util.go:52-67 | with an empty start, an unreadable working directory is that error; otherwise the nearest of the start and its ancestors holding the target, or "not found" |
| Util.SearchFindsNearest | util/util.go:60-66 | FindPathInAncestors returns the nearest of `start` and its ancestors that holds the target, and "not found" when none does |
| Util.AncestorsOfAbsolute | util/util.go:66 | from an absolute start every directory visited is absolute, so the result is too |
| Util.SearchFramed | util/util.go:60 | the search depends only on which paths exist |
| Venvy.ProjectError | venvy/venvy.go:21-28 | no error exactly when every project has a clean name and a non-negative generation |
| Venvy.ModuleError | venvy/venvy.go:10-14 | no error exactly when every module has a clean name and a non-empty type; the payload is not checked |
| Venvy.Validate | venvy/venvy.go:30-33 | a configuration validates exactly when every project and every module validates (`dive`), and comes back unchanged |
| Venvy.RawField | venvy/venvy.go:13 | the `Config` payload is absent exactly when no member carries that key, and is otherwise the value of a member that does |
| Venvy.DecodeModules | venvy/venvy.go:30-33 | decoding a list of modules keeps one entry per element |
| Venvy.DecodeProjects | venvy/venvy.go:30-33 | decoding a list of projects keeps one entry per element |
| Venvy.DecodeModuleJson | venvy/venvy.go:10-14 | a module declaration written as JSON decodes back to itself |
| Venvy.ModuleJsonStrings | venvy/venvy.go:11-12 | the name and the type read back from the JSON form as they were |
| Venvy.ModuleJsonConfig | venvy/venvy.go:13 | the payload reads back from the JSON form as it was, absent when it was absent |
| DataManagers.StoragePath | venvy/data_manager.go:50-52 | the storage directory joined with the elements; absolute when the storage directory is |
| DataManagers.RemoveInside | venvy/data_manager.go:43 | removing the storage directory drops exactly the stores inside it and leaves the others as they were |
| DataManagers.Get | venvy/data_manager.go:58-65 | a read succeeds exactly when the key is stored, and then gives its value |
| DataManagers.DataManager.constructor | venvy/data_manager.go:88 | a manager on the given storage directory with no store open yet |
| DataManagers.DataManager.Path | venvy/data_manager.go:50-52 | the storage path of the elements; absolute when the storage directory is |
| DataManagers.DataManager.Setup | venvy/data_manager.go:18-31 | when the data directory can be created the store is opened on `<storageDir>/kvData`, keeping what is already stored there; otherwise an error and nothing changes |
| DataManagers.DataManager.ChDir | venvy/data_manager.go:33-36 | the storage directory becomes the new one; a locked data directory is an error that leaves handle and stores as they were; otherwise the store is opened there, keeping its contents when it existed and starting empty when not, and every other store is unchanged |
| DataManagers.DataManager.Reset | venvy/data_manager.go:38-48 | each step's failure is stated with the exact stores it leaves: a locked store removes nothing, a locked storage directory leaves only the store removed, a locked data directory leaves both removed; on success the store is open and empty under the same directory, and exactly the stores outside both the storage directory and the old store's directory survive, with their contents |
| DataManagers.DataManager.SetKey | venvy/data_manager.go:54-56 | only the open store changes, and only at the key, which now reads back the value |
| DataManagers.DataManager.GetKey | venvy/data_manager.go:58-65 | the value last stored under the key, or an error when there is none |
| DataManagers.DataManager.WriteJson | venvy/data_manager.go:67-73 | the JSON text of the value is stored under the key and reads back |
| DataManagers.DataManager.ReadJson | venvy/data_manager.go:75-81 | a missing key is an error; otherwise the stored text is parsed |
| DataManagers.ParseStored | venvy/data_manager.go:76-80 | a read error is passed on unchanged |
| DataManagers.WriteThenRead | venvy/data_manager.go:67-81 | a value written with WriteJson reads back with ReadJson when the parser inverts the encoder |
| DataManagers.NewDataManager | venvy/data_manager.go:83-90 | a relative storage directory is refused with "storage dir … not an absolute path" and touches nothing; an absolute one gives a fresh manager that is open unless setup failed |
| Registry.DefaultTags | modules/modules.go:5-13 | the registry holds exactly python, jump, ps1, debug, exec, env and tmux-window; "env" maps to the env-var constructor, "tmux-window" to the tmux constructor and every other tag to its same-named constructor |
| Registry.MakeDefaults | modules/modules.go:5-13 | the debug constructor always succeeds with the debug unit; python and exec accept a missing payload (exec with empty lists); tmux-window refuses one, since it needs a name |
| Registry.Deactivate | venvy/venvy.go:16-19 | no unit's deactivation can fail |
| Registry.ActivationFailures | venvy/venvy.go:16-19 | only python, env and tmux-window units can fail to produce activation lines |
| Registry.ShellActivateCommands | venvy/venvy.go:17 | the interface call gives the unit's own activation |
| Registry.ShellDeactivateCommands | venvy/venvy.go:18 | the interface call gives the unit's own deactivation |
| Debug.New | modules/debug.go:15-17 | the constructor ignores the payload and never fails |
| Debug.Activation | modules/debug.go:7-9 | whatever the shell did before, the lines turn tracing on |
| Debug.Deactivation | modules/debug.go:11-13 | whatever the shell did before, the lines turn tracing off |
| Debug.TraceOnThenOff | modules/debug.go:7-13 | after the activation line (`set -x`) the shell traces, and after the deactivation line (`set +x`) it does not, whatever it did before |
| Exec.New | modules/exec.go:27-34 | a missing payload gives two empty lists; a payload that is not a JSON object is a constructor error |
| Exec.NewOfMembers | modules/exec.go:27-34 | a payload whose two lists decode gives the unit holding exactly those lists |
| Exec.GetStringsOnce | modules/exec.go:8-11 | a list given once as an array of strings decodes to that list |
| Exec.ValuesOfPair | modules/exec.go:8-11 | of two members with different keys, each field sees only its own value |
| Exec.LinesVerbatim | modules/exec.go:18-25 | whatever lines the payload lists, activation returns the activation list and deactivation the deactivation list verbatim, and neither fails |
| Exec.Activation | modules/exec.go:18-21 | the payload's activation list verbatim, stated by `Exec.LinesVerbatim` |
| Exec.Deactivation | modules/exec.go:23-25 | the payload's deactivation list verbatim, stated by `Exec.LinesVerbatim` |
| Exec.PayloadLists | modules/exec.go:9-10 | each of the payload's two lists reads back as itself |
| Jump.Decode | modules/jump.go:33-38 | a missing payload decodes to an empty target and jump-back enabled |
| Jump.StartDir | modules/jump.go:34 | the directory captured at construction is the working directory, or "" when it cannot be read |
| Jump.New | modules/jump.go:32-43 | construction fails exactly when the payload does not decode; `lastDir` is the captured directory, the jump-back flag is the payload's, and an empty target becomes the project root, so the target is never empty |
| Jump.Activation | modules/jump.go:21-23 | activation is exactly one line, `cd <ToDir>` |
| Jump.Deactivation | modules/jump.go:25-30 | deactivation is one line exactly when `lastDir` is set and jump-back is not disabled, otherwise none; that line is `cd <lastDir>` |
| Jump.ThereAndBack | modules/jump.go:21-43 | for every payload that decodes, activation is `cd` to the configured directory, or to the project root when none is set, and deactivation is `cd` back to the captured directory exactly when that directory is not empty and jump-back is on |
| Jump.ThereAndBackByDefault | modules/jump.go:21-43 | with no payload the unit changes to the project root and, when the captured directory is not empty, back to it |
| ProjectPaths.RootDir | manager/project_manager.go:45-57 | an empty `Root` gives the cleaned directory of the configuration file, an absolute `Root` stands, a relative one is joined onto that directory; never empty, and absolute whenever the configuration path is |
| ProjectPaths.RootPath | manager/project_manager.go:59-68 | a single absolute element is returned unchanged; otherwise the elements are joined onto the root directory; absolute whenever the configuration path is |
| ProjectPaths.ResolveRootPath | manager/project_manager.go:70-76 | `RootPath` of that one path, whether it is absolute or not; absolute whenever the configuration path is |
| ProjectPaths.StoragePath | venvy/data_manager.go:50-52 | absolute below an absolute storage directory |
| ProjectPaths.AbsoluteConfigDir | manager/project_manager.go:46 | the directory of an absolute configuration path is absolute |
| ProjectPaths.JoinOntoAbsolute | manager/project_manager.go:66-67 | joining onto an absolute first element gives an absolute path |
| ProjectPaths.ResolveIsRootPath | manager/project_manager.go:70-76 | resolving a path is `RootPath` of that one path, whether it is absolute or not |
| ProjectPaths.ResolvedAbsolute | manager/project_manager.go:70-76 | with the configuration file at an absolute path, every resolved path is absolute |
| Manager.ResolveOne | manager/project_manager.go:28-40 | a name missing from the related modules is the error "module … not found for project …"; a success carries the name and needs the declaration's type to be in the registry |
| Manager.All | manager/project_manager.go:27-42 | a success holds every result's value, in order, one per result |
| Manager.AllOrNothing | manager/project_manager.go:27-42 | collecting succeeds exactly when every result does, so there is no partial list |
| Manager.AllErrorSticks | manager/project_manager.go:29-39 | once a prefix fails, the whole list fails with the same error |
| Manager.AllStep | manager/project_manager.go:27-42 | one more result: a success extends the list, a failure is the failure of the whole |
| Manager.AllFirstError | manager/project_manager.go:29-39 | the error of the whole is that of the first result that fails |
| Manager.ResolveEach | manager/project_manager.go:27-40 | every name is resolved on its own, one result per name |
| Manager.Resolve | manager/project_manager.go:25-43 | a resolved list has one unit per module name, in the same order, each named after its module |
| Manager.ResolveAllOrNothing | manager/project_manager.go:25-43 | resolution succeeds exactly when every name resolves: an unknown name, an unknown type or a failing constructor leaves no list |
| Manager.ResolveFirstError | manager/project_manager.go:29-39 | a failed resolution reports the first name that does not resolve |
| Manager.Lines | manager/project_manager.go:102-106 | deactivation lines of a unit are its own, unlabelled |
| Manager.Outcomes | manager/project_manager.go:101-107 | one outcome per unit |
| Manager.SetupGroups | manager/project_manager.go:101-107 | one group of activation lines per unit |
| Manager.ActivationInOrder | manager/project_manager.go:94-109 | activation succeeds exactly when every unit's does, and is then the concatenation of their lines in module order |
| Manager.SetupKeeps | manager/project_manager.go:102-106 | a unit's activation lines pass through unchanged and its error is labelled "module … for project … could not generate activation lines, had err …" |
| Manager.DeactivationNeverFails | manager/project_manager.go:111-127 | deactivating a resolved list never fails |
| Manager.Reverse | manager/project_manager.go:118 | the reversed list: element i is element N-1-i |
| Manager.Names | manager/project_manager.go:81 | the names of the declarations, in order |
| Manager.Register | manager/project_manager.go:80 | registering declarations adds exactly their names to the related modules' keys |
| Manager.RegisterStep | manager/project_manager.go:79-82 | registering one more declaration updates that name's entry |
| Manager.PrependStep | manager/project_manager.go:87-91 | one prepend step puts the name in front and registers its declaration |
| Manager.RegisterLastWins | manager/project_manager.go:79-82 | when names repeat, the last declaration with a name is the one registered |
| Manager.RegisterKeepsOthers | manager/project_manager.go:79-82 | a name no declaration mentions keeps its old entry |
| Manager.ProjectManager.constructor | manager/project_manager.go:14-19 | a manager over the given project, related modules, configuration path, registry and data manager |
| Manager.ProjectManager.Modulers | manager/project_manager.go:25-43 | the loop gives exactly the resolution of the project's module names |
| Manager.ProjectManager.ResolveName | manager/project_manager.go:28-40 | one loop step gives exactly the resolution of that name |
| Manager.ProjectManager.ShellActivateCommands | manager/project_manager.go:94-109 | a resolution error is returned as it is; otherwise the activation lines collected in module order |
| Manager.ProjectManager.ShellDeactivateCommands | manager/project_manager.go:111-127 | a resolution error is returned as it is; otherwise the deactivation lines collected from the last module to the first |
| Manager.ProjectManager.AppendModules | manager/project_manager.go:78-83 | the names are added at the end in argument order and each declaration is registered, a later one replacing an earlier one of the same name |
| Manager.ProjectManager.PrependModules | manager/project_manager.go:85-92 | the list becomes the names in argument order followed by the old list; declarations are registered from the last to the first |
| Manager.TeardownGroupsSnoc | manager/project_manager.go:118-125 | a unit added at the end is torn down first, before the others in their reverse order |
| Manager.TeardownGroupsCons | manager/project_manager.go:118-125 | a unit added in front is torn down last, after the others in their reverse order |
| Manager.DeactivationReversed | manager/project_manager.go:111-127 | deactivation is the concatenation of the teardown groups: the i-th unit torn down is the (N-1-i)-th one set up |
| Manager.ActivationLines | manager/project_manager.go:99-108 | the forward loop gives every unit's labelled lines in order, or the first error |
| Manager.DeactivationLines | manager/project_manager.go:116-126 | the backward loop gives every unit's lines from the last unit to the first |
| Manager.PrependFirstWins | manager/project_manager.go:85-92 | after prepending, the first declaration of a repeated name is the one registered |
| ConfigManagers.LastProject | venvy/config_manager.go:20-25 | a project found carries the name asked for |
| ConfigManagers.LastProjectIsLast | venvy/config_manager.go:20-28 | a project is found exactly when one has the name, and then it is the last one with it, since the loop has no `break` |
| ConfigManagers.FirstModule | venvy/config_manager.go:35-40 | a declaration found carries the name and is one of the configuration's; none is found exactly when no declaration has the name |
| ConfigManagers.FirstModuleIsFirst | venvy/config_manager.go:35-40 | the declaration found is the first with its name, since the inner loop breaks on it |
| ConfigManagers.Related | venvy/config_manager.go:33-44 | the related modules' keys are exactly the project's module names, each bound to the first declaration with that name |
| ConfigManagers.RelatedFails | venvy/config_manager.go:41-43 | binding fails exactly when some module name of the project has no declaration |
| ConfigManagers.ConfigManager.constructor | venvy/config_manager.go:58-63 | a config manager over the given data manager, configuration, path and registry, with an empty project-manager cache |
| ConfigManagers.ConfigManager.ProjectManager | venvy/config_manager.go:15-51 | a cached manager is returned as it is; an unknown project is "project … not found in config"; a relative storage path is "storage dir … not an absolute path" and a locked data directory an error, both with no manager; otherwise the last project with the name is bound to its modules, failing with the binding's error, or comes back in a fresh manager whose data manager lives at `StoragePath(projectName)`; the cache is never written |
| ConfigManagers.FindProject | venvy/config_manager.go:20-25 | the project loop keeps the last match |
| ConfigManagers.BindModules | venvy/config_manager.go:33-44 | the binding loops give exactly the related-modules map, or the first missing module's error |
| ConfigManagers.ScanModules | venvy/config_manager.go:35-40 | the inner loop stops at the first declaration with the name |
| ConfigManagers.FirstAt | venvy/config_manager.go:35-40 | the declaration at j with no earlier one of its name is the first |
| ConfigManagers.RelatedErrorSticks | venvy/config_manager.go:41-43 | once a prefix of the names fails to bind, the whole binding fails the same way |
| ConfigManagers.NewConfigManager | venvy/config_manager.go:53-65 | there is a config manager exactly when there is no error; a relative storage directory is refused; the new manager starts with an empty cache on the given storage directory |
| EnvVar.Decode | modules/envvar.go:13-17 | a missing payload gives no vars, files or unsets; the decoded `vars` have distinct names (the last duplicate wins) |
| EnvVar.New | modules/envvar.go:70-77 | construction succeeds exactly when the payload decodes, and the unit holds the decoded configuration |
| EnvVar.Texts | modules/envvar.go:35-43 | one shell line per modelled line, in order |
| EnvVar.Exports | modules/envvar.go:39-41 | one `export K="V"` per pair, in order |
| EnvVar.Unsets | modules/envvar.go:42-44 | one `unset X` per name, in list order |
| EnvVar.Restores | modules/envvar.go:51-59 | one line per `vars` name: the export of its current value when it is set, else `unset` |
| EnvVar.Reexports | modules/envvar.go:61-66 | only exports of names that are set, with their current values, and one for every listed name that is set |
| EnvVar.TextsAppend | modules/envvar.go:25-45 | rendering distributes over concatenation |
| EnvVar.RenderExports | modules/envvar.go:39-41 | the export loop renders exactly the exports of the pairs |
| EnvVar.RenderUnsets | modules/envvar.go:42-44 | the unset loop renders exactly the unsets of the names |
| EnvVar.ShellActivateCommands | modules/envvar.go:24-46 | the exports of each env file in file order, then one export per `vars` entry, then one unset per `unset_vars` entry; an unreadable file stops it with that file's error and no lines |
| EnvVar.Activation | modules/envvar.go:24-46 | fails exactly when an env file is unreadable; otherwise, run from any environment, the lines leave every `unset_vars` variable unset |
| EnvVar.FirstFailure | modules/envvar.go:27-32 | the first unreadable env file gives "unable to find file … at <resolved path>" |
| EnvVar.RestoresStep | modules/envvar.go:51-59 | one more restore line extends the rendered list by exactly that line |
| EnvVar.RenderRestores | modules/envvar.go:51-59 | the first deactivation loop renders exactly the restore lines |
| EnvVar.RenderReexports | modules/envvar.go:61-66 | the second deactivation loop renders exactly the re-exports |
| EnvVar.ShellDeactivateCommands | modules/envvar.go:48-68 | deactivation is the restore lines of `vars` followed by the re-exports of `unset_vars` read from the current environment, and never fails |
| EnvVar.Deactivation | modules/envvar.go:48-68 | every line names a `vars` or an `unset_vars` variable |
| EnvVar.ReexportsAppend | modules/envvar.go:61-66 | one more name adds its export exactly when it is set |
| EnvVar.RunAppend | modules/envvar.go:24-68 | running two blocks of lines is running the first, then the second |
| EnvVar.KeepsRun | modules/envvar.go:24-68 | lines that leave a variable alone keep its value |
| EnvVar.LastWins | modules/envvar.go:24-68 | the last line naming a variable decides its value |
| EnvVar.RestoredVar | modules/envvar.go:51-59 | with values read literally (`EnvVar.Run`), the restore line of a `vars` variable gives it back its former value whatever activation did |
| EnvVar.UnsetsClear | modules/envvar.go:42-44 | after the unsets every variable they name is unset |
| EnvVar.ReexportedUnset | modules/envvar.go:61-66 | with values read literally (`EnvVar.Run`), an `unset_vars` variable comes back from its re-export with its former value |
| EnvVar.LiteralRestores | modules/envvar.go:39-66 | whatever the shell made of the activation lines, deactivation computed from the earlier environment and read literally gives every `vars` and `unset_vars` variable back its former value, or leaves it unset if it was unset |
| EnvVar.DeactivationPlain | modules/envvar.go:48-68 | deactivation prints only former values of its own names, so its values are plain text when those former values are |
| EnvVar.DeactivationRestores | modules/envvar.go:39-66 | activation followed by deactivation computed from the earlier environment, both read by the shell, gives every `vars` and `unset_vars` variable back its former value, or leaves it unset if it was unset, when those former values hold no `"`, `$`, backquote or backslash |
| EnvVar.PlainPrefix | modules/envvar.go:35-64 | text without `"`, `$`, backquote or backslash in front of the rest of a double-quoted value is read back as written |
| EnvVar.PlainExpands | modules/envvar.go:35-64 | a value without `"`, `$`, backquote or backslash is read back as written, whatever the environment |
| EnvVar.PlainThenParam | modules/envvar.go:35-64 | plain text followed by `${name}` reads as that text followed by the variable's value, or by nothing when it is unset |
| EnvVar.ShellRunPlain | modules/envvar.go:35-64 | where every printed value is plain text, the shell's reading of the lines is the literal one |
| EnvVar.ShellRunAppend | modules/envvar.go:24-68 | the shell reading two blocks of lines reads the first, then the second from where the first left off |
| EnvVar.DollarValueNotRestored | modules/envvar.go:55 | with `vars` {"X": "x"} and X set to `a$b` while `b` is unset, the printed deactivation leaves X as `a`, not its former value |
| EnvVar.QuoteExpands | modules/envvar.go:55 | a value with a backslash before each `"`, `$`, backquote and backslash is read back by the shell as exactly that value |
| EnvVar.ShellRunQuoted | modules/envvar.go:48-68 | with every value quoted that way, the shell's reading of any lines is the literal one |
| EnvVar.QuotedDeactivationRestores | modules/envvar.go:48-68 | with the restored values quoted, deactivation gives every `vars` and `unset_vars` variable back its former value whatever characters it holds |
| EnvVar.DeactivationNames | modules/envvar.go:48-68 | deactivation names only `vars` and `unset_vars` variables, so variables loaded from env files are not restored |
| EnvVar.EmptyConfigIsSilent | modules/envvar.go:70-77 | an empty payload gives a unit that emits no lines in either direction |
| Python.New | modules/python.go:171-185 | a missing payload gives interpreter "python3.6", virtualenv command "virtualenv" and no dependencies; whatever the payload, an empty interpreter or virtualenv command is defaulted, and the unit keeps the module's name |
| Python.RequirementFiles | modules/python.go:86-95 | at most one tracked file per dependency (the ".txt" ones) |
| Python.Resolved | modules/python.go:96-102 | every additional tracked file resolved below the root, in order |
| Python.RequirementFilesAppend | modules/python.go:86-95 | one more dependency adds its resolved path exactly when it ends in ".txt" |
| Python.ContentsFailureSticks | modules/python.go:78-85 | once a read fails, reading more files keeps that error |
| Python.ContentsStep | modules/python.go:78-85 | reading one more file appends its contents or stops with its error |
| Python.ReadFiles | modules/python.go:78-102 | the files are read in order into one text; the first unreadable file is the error |
| Python.TrackRequirements | modules/python.go:86-95 | the first hash loop tracks exactly the ".txt" dependencies, resolved below the root |
| Python.TrackAdditional | modules/python.go:96-102 | the second hash loop tracks every additional file, resolved below the root |
| Python.CalculateDepHash | modules/python.go:67-104 | no dependencies give the hash ""; otherwise the digest of the JSON dependency list followed by the contents of every ".txt" dependency and then every additional file, or the first read error |
| Python.InstallCmd | modules/python.go:108-122 | a "!" entry is the command without its "!"; a ".txt" entry is "pip install -r <root path>"; anything else is "pip install <dep>" |
| Python.InstallCmds | modules/python.go:106-124 | one install command per dependency, in the order they are listed |
| Python.AutoInstallCmds | modules/python.go:106-124 | the loop builds exactly the install commands |
| Python.ShellActivateCommands | modules/python.go:130-160 | a hash error gives no lines; otherwise the create line when `<venvDir>/bin` is missing, then the env lines for VIRTUAL_ENV, PATH and PYTHONHOME, then the install lines and the hash-recording line when the hash changed and there are dependencies |
| Python.Activation | modules/python.go:130-160 | fails exactly when the dependency hash does; otherwise the three virtualenv env lines follow the create line, when there is one |
| Python.ShellDeactivateCommands | modules/python.go:162-169 | deactivation is exactly the env-var deactivation of the virtualenv's variables |
| Python.VenvVarsActivate | modules/python.go:37-45 | the virtualenv's env lines never fail: export VIRTUAL_ENV, export PATH, unset PYTHONHOME |
| Python.VenvLinesRun | modules/python.go:37-45 | read by the shell, the lines export VIRTUAL_ENV as the virtualenv path and PATH as its `bin` directory, a colon and the former PATH, then unset PYTHONHOME |
| Python.ActivationPrependsBin | modules/python.go:37-45 | read by the shell, activation's env lines point VIRTUAL_ENV at the virtualenv, put its `bin` directory in front of the former PATH and unset PYTHONHOME, when the virtualenv path is plain text |
| Python.DeactivationRestoresVenv | modules/python.go:146-169 | read by the shell, deactivation puts VIRTUAL_ENV, PATH and PYTHONHOME back as they were before activation, when the virtualenv path and those former values are plain text |
| Python.NoDependenciesNoInstall | modules/python.go:130-158 | without dependencies activation cannot fail and emits only the optional create line and the three env lines |
| Python.RecordedHashStopsReinstall | modules/python.go:135-158 | once the recording line has written the hash, the next activation with the same inputs installs nothing |
| Python.ContentsUntouched | modules/python.go:78-85 | writing a file outside the tracked ones does not change what reading them gives |
| Python.InstallIffChanged | modules/python.go:135-158 | with the virtualenv present, install lines appear exactly when the hash changed and there are dependencies, and are then the install commands followed by `echo <hash> > …/autoinstall_dep_sha.txt` |
| Tmux.DecodePanes | modules/tmux_window.go:13-16 | one pane per element of the list |
| Tmux.Decode | modules/tmux_window.go:20-25 | a decoded configuration has a non-empty name, so a missing payload is refused |
| Tmux.New | modules/tmux_window.go:129-143 | construction succeeds exactly when the payload decodes with a name; the unit keeps that name, has at least one pane and a non-empty layout ("tiled" by default) |
| Tmux.IndexOf | modules/tmux_window.go:119 | the first position of the character, or -1 exactly when it does not occur |
| Tmux.ParseWindowAsWritten | modules/tmux_window.go:118-121 | as the program reads it, a line is read exactly when it holds a '\|', and neither the ID nor the name read holds one |
| Tmux.ParseWindow | modules/tmux_window.go:118-121 | corrected reading: a listing line is read exactly when it holds a '\|', the name being everything after the first one |
| Tmux.ParseFormatted | modules/tmux_window.go:113-123 | the line tmux prints for a window (`#I\|#W`) reads back as that window, whatever its name |
| Tmux.AsWrittenParsesPlainNames | modules/tmux_window.go:119-120 | the code as written reads a window back when its name has no '\|' |
| Tmux.AsWrittenTruncatesName | modules/tmux_window.go:119-120 | as written, a window named "p-a\|b" is read back as "p-a"; the corrected reading keeps "p-a\|b" |
| Tmux.ParseWindows | modules/tmux_window.go:118-121 | a listing parses exactly when every line holds a '\|'; then it has one window per line, each read as the program reads it, `data[0]` and `data[1]` of the split |
| Tmux.ListedWindows | modules/tmux_window.go:113-123 | a tmux error passes through; otherwise the listing is read exactly when every line holds a '\|', one window per line |
| Tmux.ListWindows | modules/tmux_window.go:113-123 | the listing loop, with the program's `data[1]` reading, gives exactly the parse of the output's lines, or the tmux error |
| Tmux.ParseWindowsFailure | modules/tmux_window.go:119-120 | a line without '\|' stops the listing with the index error |
| Tmux.PaneLines | modules/tmux_window.go:64-86 | a pane gives its opening line and its layout line, and a send-keys line only when it has commands |
| Tmux.OpenPanes | modules/tmux_window.go:64-87 | the pane loop gives, pane by pane, each pane's lines: `new-window` for the first pane and `split-window` for the others, send-keys only for a pane with commands, then the layout |
| Tmux.OpenPane | modules/tmux_window.go:65-86 | one turn of the pane loop gives exactly that pane's lines |
| Tmux.KillExisting | modules/tmux_window.go:52-62 | a window with the target name is an error when destroying is disabled; otherwise one `tmux kill-window -t <ID>` per such window |
| Tmux.ShellActivateCommands | modules/tmux_window.go:33-90 | a failed or empty session is an error; a target equal to the current window gives no lines; otherwise the kill lines, then the pane lines |
| Tmux.Activation | modules/tmux_window.go:33-90 | an empty session is the "no session" error; lines come only when the target is not the current window, and then end with the pane lines, after a listing that succeeded and, when destroying is disabled, holds no window with the target name |
| Tmux.ListedPrefix | modules/tmux_window.go:53-62 | a window listed in a prefix is listed in the whole |
| Tmux.ShellDeactivateCommands | modules/tmux_window.go:92-94 | deactivation emits no lines |
| Tmux.KillsEveryMatch | modules/tmux_window.go:53-62 | every listed window with the target name gets a kill line |
| Tmux.KillsOnlyMatches | modules/tmux_window.go:53-62 | only listed windows with the target name get a kill line |
| Tmux.PanesLinesCount | modules/tmux_window.go:64-87 | at least two lines per pane, the first being `new-window … -n <target>` at the first pane's root |
| Tmux.ReactivationKillsOldWindow | modules/tmux_window.go:41-62 | activating again while a window made by this unit still exists kills it, provided neither its ID nor its name holds a '\|' |
| Tmux.PipedTargetIsNeverKilled | modules/tmux_window.go:41-62 | a target name holding '\|' matches no window as the program reads the listing, so activation kills nothing, refuses nothing and emits only the pane lines |
| Tmux.CurrentWindowIsLeftAlone | modules/tmux_window.go:41-47 | when the target is the current window, activation emits nothing and does not fail |
| PS1.Codes | modules/ps1.go:35-38 | one decimal code per attribute, in order |
| PS1.FormatColorSeq | modules/ps1.go:34-40 | the loop that fills the slice of codes and joins it gives exactly the colour sequence |
| PS1.ColorSeqSplits | modules/ps1.go:34-40 | splitting the colour sequence at ';' gives back the codes |
| PS1.ColorSeq | modules/ps1.go:34-40 | for at least one attribute, splitting the sequence at ';' gives back the codes |
| PS1.ColorString | modules/ps1.go:33-51 | the data between the attribute escape and the reset escape, both marked as taking no room; stated by `PS1.WrappedFirst` |
| PS1.ReplaceNoPrint | modules/ps1.go:27-31 | text holding no '_' holds no marker and passes unchanged |
| PS1.ColorPrefixPlain | modules/ps1.go:48 | the escape for one attribute is `ESC[<code>m` and holds no '_', so it never forms part of a marker |
| PS1.WrappedFirst | modules/ps1.go:77-84 | the joined coloured pieces are the first piece's `colorString` followed by the rest |
| PS1.DefaultColoredWrapped | modules/ps1.go:77-84 | the joined `colorString`s are the pieces each wrapped as marker-escape-marker, data, marker-reset-marker |
| PS1.JoinedSuffix | modules/ps1.go:84 | joining a suffix of the coloured pieces gives the wrapped form of that suffix |
| PS1.EndSkipsStartPass | modules/ps1.go:28 | an end marker followed by safe text is left alone by the start-marker pass |
| PS1.PlainThenStartSafe | modules/ps1.go:28 | plain data followed by a start marker is safe after an end marker |
| PS1.WrappedSafe | modules/ps1.go:28 | wrapped text is safe after an end marker |
| PS1.StartPassHead | modules/ps1.go:28 | the start-marker pass over one coloured piece replaces exactly its two start markers |
| PS1.StartPass | modules/ps1.go:28 | the start-marker pass over coloured text replaces exactly the start markers |
| PS1.EndPass | modules/ps1.go:29 | the end-marker pass then replaces exactly the end markers |
| PS1.ReplaceColored | modules/ps1.go:27-31 | `replaceNoPrint` on coloured text puts the shell's pair in place of every marker and leaves the data alone, for data that cannot run into a marker |
| PS1.Decode | modules/ps1.go:70-74 | a missing payload gives three empty values |
| PS1.New | modules/ps1.go:69-96 | construction fails exactly when the payload does not decode; an empty `Value` gives the three default prefixes, whatever bash or zsh value was given; otherwise an empty bash or zsh value falls back to `Value`; no prefix is ever empty |
| PS1.DefaultNonEmpty | modules/ps1.go:76-88 | none of the three default prefixes is empty |
| PS1.DefaultPrompt | modules/ps1.go:76-88 | the defaults are the coloured `[venvy:<project>]` with no pair, with zsh's `%{ %}` and with bash's `\[ \]` around every escape |
| PS1.Activation | modules/ps1.go:53-61 | exactly five lines, the first saving OLD_PS1 and the last choosing the zsh, bash or generic prefix at run time |
| PS1.Deactivation | modules/ps1.go:63-67 | a single line that restores PS1 and unsets OLD_PS1 only when OLD_PS1 is not empty |
| PS1.Activate | modules/ps1.go:53-61 | after activation OLD_PS1 holds the former prompt and the prompt ends with " " and the former prompt |
| PS1.Deactivate | modules/ps1.go:65 | the guarded restore puts back a non-empty saved prompt and clears it; otherwise nothing changes |
| PS1.RoundTripRestores | modules/ps1.go:53-67 | deactivating after activating gives back the former prompt exactly when it was not empty |
| Loader.DotDir | cli_loader.go:27-29 | `<dir>/.venvy`, never empty, and absolute when the directory is |
| Loader.ExecPrefixFor | cli_loader.go:90-96 | an interpreter is known exactly for ".py", ".js", ".rb", ".bash" and ".sh", and is always `/usr/bin/env <interpreter>` |
| Loader.FirstQuote | cli_loader.go:25 | the first quote at or after a position, or the end of the line |
| Loader.DocText | cli_loader.go:128-131 | a line the docstring pattern matches has the documented shape (leader characters, a quote, a non-empty run of non-quote characters, a quote ending the line), and the capture is that text |
| Loader.DocTextOfShape | cli_loader.go:25 | every line of that shape matches, and the pattern captures exactly its text |
| Loader.ScanFromFinds | cli_loader.go:126-132 | the scan stops at the first matching line within the lines still allowed |
| Loader.ScanFromMisses | cli_loader.go:133-137 | with no match, the scan gives "No docstring" when it used up its lines and "" when the file ran out first |
| Loader.DocstringIsFirstMatch | cli_loader.go:124-139 | the docstring is the text of the first of the first five lines that matches; with no match among them it is "No docstring" when the file has five lines or more, and "" when it has fewer |
| Loader.Docstring | cli_loader.go:124-139 | stated by `Loader.DocstringIsFirstMatch` |
| Loader.ScanDocstring | cli_loader.go:124-139 | the loop with its `linesToScan` counter gives exactly that docstring |
| Loader.BaseName | cli_loader.go:99-101 | the file name less its last extension, which put back gives the name |
| Loader.Extracted | cli_loader.go:98-144 | extraction succeeds exactly when the name less its extension is a clean name and the file is executable or has a known extension; the script then records the path, that sub-command, the mod-time, the docstring of its first lines, and no prefix when executable or the extension's interpreter otherwise |
| Loader.ExtractedPrefix | cli_loader.go:106-118 | an extracted script's prefix is "" or an interpreter, never " " |
| Loader.ExtractScript | cli_loader.go:98-144 | the method gives exactly that extraction |
| Loader.Lookup | cli_loader.go:184 | a cache lookup finds an entry of the cache, and none exactly when no entry has the key |
| Loader.LookupPair | cli_loader.go:184 | with distinct keys, the lookup finds the entry's value |
| Loader.LookupPut | cli_loader.go:194 | after storing a script under a key, the key reads as it and every other key as before |
| Loader.ScriptRoundTrip | cli_loader.go:41-47 | a script written to the cache decodes back to itself |
| Loader.DecodeEntries | cli_loader.go:160-161 | the decoded cache has distinct keys |
| Loader.EntriesAppend | cli_loader.go:160-161 | decoding the entries of a cache behind others appends them, when no key repeats |
| Loader.EntriesStep | cli_loader.go:160-161 | one decoded entry is put into the map and decoding goes on |
| Loader.CacheRoundTrip | cli_loader.go:198-203 | a cache written as JSON decodes back to the same entries in the same order |
| Loader.ReadCache | cli_loader.go:159-164 | the starting cache has distinct keys, and is empty when the cache file is missing |
| Loader.CacheWrittenIsRead | cli_loader.go:159-206 | a cache written by one run is the cache the next run starts from, when the parser reads back what the encoder wrote |
| Loader.Visit | cli_loader.go:182-196 | a file adds at most one script; an added script is the cache entry for its path, which is fresh for the file's mod-time; no other entry changes; a file that cannot be extracted changes nothing |
| Loader.VisitAgainReuses | cli_loader.go:184-186 | visiting the same file again reuses what the first visit left: the same script once more, the cache unchanged |
| Loader.ScanFiles | cli_loader.go:182-196 | the files of a source add at most one script each, after those already found, and lose no cache entry |
| Loader.VisitFiles | cli_loader.go:182-196 | the file loop gives exactly that scan |
| Loader.VisitFile | cli_loader.go:183-195 | one loop step reuses a fresh cached script or extracts the file again |
| Loader.SourceFiles | cli_loader.go:166-180 | a source gives files only when the path, taken relative to the configuration's directory unless absolute, exists |
| Loader.ScanSources | cli_loader.go:165-197 | the sources of a project only add scripts after those already found and lose no cache entry |
| Loader.VisitSources | cli_loader.go:165-197 | the source loop gives exactly that scan |
| Loader.ScriptsOf | cli_loader.go:186-193 | a name without an entry reads as no scripts; otherwise its entry's scripts |
| Loader.ScriptsOfPut | cli_loader.go:186-193 | after setting a name's scripts, it reads as them and every other name as before |
| Loader.ProjectScan | cli_loader.go:154-197 | one project's scan keeps the cache keys distinct |
| Loader.LoadProject | cli_loader.go:153-208 | a project without script sources changes nothing |
| Loader.AddScan | cli_loader.go:186-207 | adding a scan keeps the names distinct |
| Loader.AddScanEffect | cli_loader.go:186-207 | a scan's scripts are appended to its name's entry, no other entry changes, and the cache file is written only when the cache is not empty |
| Loader.LoadProjectEffect | cli_loader.go:153-208 | a project with script sources appends what it found to its entry and writes its cache file when the cache is not empty; no other entry changes |
| Loader.LoadAll | cli_loader.go:153-209 | the loaded scripts have distinct names |
| Loader.LoadAllNames | cli_loader.go:155-193 | only projects with script sources get an entry |
| Loader.LoadAllFiles | cli_loader.go:198-206 | loading writes no file but the cache files of projects with script sources |
| Loader.LoadScripts | cli_loader.go:146-212 | the projects loop gives exactly the loaded scripts and the files after the cache writes |
| Loader.ReadConfig | cli_loader.go:58-83 | a configuration is kept exactly when the file is read, converted from TOML, decoded and validated; a kept one is valid |
| Loader.FoundConfig.constructor | cli_loader.go:49-56 | a found configuration with the recorded scripts and neither latch taken |
| Loader.FoundConfig.Config | cli_loader.go:85-88 | the configuration is read at the first call only; later calls return the same one |
| Loader.FoundConfig.Scripts | cli_loader.go:146-217 | at the first call, the scripts of every project replace the recorded ones, or stay when there is no configuration; later calls change nothing and write nothing |
| Loader.UniqueSnoc | cli_loader.go:300-312 | one more configuration is kept exactly when its path is new |
| Loader.UniqueProps | cli_loader.go:298-313 | the de-duplicated list has distinct paths, the same set of paths, and only input elements |
| Loader.Unique | cli_loader.go:298-313 | stated by `Loader.UniqueProps`: distinct paths, the same set of paths, only input elements |
| Loader.UniquePaths | cli_loader.go:298-313 | de-duplication loses no path |
| Loader.UniqueDistinct | cli_loader.go:298-313 | no path is kept twice |
| Loader.UniqueWithin | cli_loader.go:298-313 | only configurations of the input are kept |
| Loader.UniqueKeepsFirst | cli_loader.go:302-311 | every configuration kept is the first of the input with its path |
| Loader.KeptIsFirst | cli_loader.go:302-311 | the configuration kept at a position is the first of the input with its path, at a position returned |
| Loader.UniqueExtends | cli_loader.go:300-312 | configurations appended later only add after what was kept, with paths new to the earlier ones |
| Loader.UniqueSeen | cli_loader.go:302-303 | configurations whose paths were all seen add nothing |
| Loader.UniqueFresh | cli_loader.go:302-311 | configurations with new, distinct paths are all kept, in order |
| Loader.UniqueTail | cli_loader.go:300-312 | what later configurations add has distinct paths, none seen before |
| Loader.UniqueAgain | cli_loader.go:298-313 | de-duplicating an already de-duplicated list after the same prefix changes nothing |
| Loader.Dedupe | cli_loader.go:298-313 | the nested `pathsSeen` loops give exactly the de-duplication of the concatenated lists |
| Loader.DedupeGroup | cli_loader.go:301-312 | the inner loop extends the de-duplication by one list |
| Loader.MatchingExact | cli_loader.go:244-251 | exactly the listed lines ending in "venvy.toml" give a configuration |
| Loader.GitGroups | cli_loader.go:235-254 | one group of configurations per listing, in order |
| Loader.ConfigPathsFromGit | cli_loader.go:219-257 | the loops give exactly the de-duplicated configurations of the three listings |
| Loader.FlattenStep | cli_loader.go:235 | one more listing adds its configurations at the end |
| Loader.AddListing | cli_loader.go:239-253 | a failed listing adds nothing; a successful one adds its matching lines |
| Loader.AddListed | cli_loader.go:244-252 | the line loop adds the matching lines whose paths are new |
| Loader.FlattenMember | cli_loader.go:235 | a configuration is in the concatenation exactly when it is in one of the listings |
| Loader.GitConfigsListed | cli_loader.go:219-257 | inside a work tree, the configurations found are exactly those the listings name, each path once |
| Loader.GitConfigs | cli_loader.go:219-257 | stated by `Loader.GitConfigsListed` and `Loader.GitConfigsOutside` |
| Loader.GitConfigsOutside | cli_loader.go:222-226 | outside a work tree git contributes nothing |
| Loader.PwdConfigs | cli_loader.go:275-288 | at most one configuration: `<cwd>/venvy.toml` with storage `<cwd>/.venvy`, exactly when the working directory is known and that file exists |
| Loader.DecodeScriptList | cli_loader.go:52 | one script per element of a recorded list |
| Loader.MergeKnown | cli_loader.go:52 | the recorded scripts keep distinct names, a later one replacing an earlier one |
| Loader.KnownFrom | cli_loader.go:52 | the recorded scripts decoded from an entry keep distinct names |
| Loader.DecodeFound | cli_loader.go:49-52 | a decoded history entry records its scripts as a map with distinct names |
| Loader.FoundsWellKnown | cli_loader.go:266 | every decoded history entry records its scripts that way |
| Loader.DecodeHistory | cli_loader.go:266 | every entry of a decoded history is well formed |
| Loader.HistoryConfigs | cli_loader.go:259-273 | the history gives only well-formed entries, none when unreadable or undecodable |
| Loader.ScriptListStep | cli_loader.go:52 | a recorded list whose first item is a written script decodes to it followed by the rest |
| Loader.ScriptListRoundTrip | cli_loader.go:52 | a written list of scripts decodes to the same scripts |
| Loader.MergeKnownAppend | cli_loader.go:52 | merging written entries behind others appends them, when all names differ |
| Loader.KnownSkip | cli_loader.go:49-52 | a member under another key leaves the recorded scripts alone |
| Loader.KnownObjStep | cli_loader.go:52 | a `known_scripts` object is merged in and decoding goes on |
| Loader.KnownLast | cli_loader.go:52 | a written `known_scripts` member reads back as the recorded scripts |
| Loader.KnownRoundTrip | cli_loader.go:49-52 | the scripts of a written entry read back |
| Loader.FoundStrings | cli_loader.go:50-51 | the path and storage directory of a written entry read back |
| Loader.FoundFields | cli_loader.go:49-52 | an entry whose three fields read back decodes to itself |
| Loader.FoundRoundTrip | cli_loader.go:49-52 | a written history entry decodes to the same entry |
| Loader.FoundsStep | cli_loader.go:266 | a history whose first item is a written entry decodes to it followed by the rest |
| Loader.FoundsRoundTrip | cli_loader.go:259-273 | a written history decodes to the same entries |
| Loader.HistoryRoundTrip | cli_loader.go:314-324 | decoding the history written for a list gives back the list |
| Loader.LoadConfigs | cli_loader.go:290-326 | the configurations of git, then the working directory, then the history when used, de-duplicated by path; the history file is overwritten with that list exactly when history is used |
| Loader.FlattenOf | cli_loader.go:291-297 | the lists walked are git's, the working directory's, then the history's when used |
| Loader.GitConfigsDistinct | cli_loader.go:247-249 | git's list has distinct paths and records no scripts |
| Loader.JoinedUnique | cli_loader.go:298-313 | the joined lists de-duplicated: no path twice, none lost, each kept configuration the first of its path |
| Loader.JoinedGitFirst | cli_loader.go:298-313 | a first list with distinct paths stays in front, whole and in order |
| Loader.JoinedHistoryAdds | cli_loader.go:295-297 | adding the history only appends paths git and the working directory did not give |
| Loader.ConfigsUnique | cli_loader.go:290-326 | `LoadConfigs` returns no path twice and loses none, each configuration the first of its path in the order git, working directory, history |
| Loader.Configs | cli_loader.go:290-313 | stated by `Loader.ConfigsUnique` and `Loader.GitComesFirst` |
| Loader.GitComesFirst | cli_loader.go:291-313 | git's configurations come first, all of them, in git's order |
| Loader.HistoryOnlyAdds | cli_loader.go:295-313 | using the history only adds configurations after the others, with paths neither git nor the working directory gave |
| Loader.ConfigsWellKnown | cli_loader.go:298-313 | every configuration returned can be written to the history and read back |
| Loader.HistoryStable | cli_loader.go:290-326 | with history in use, a second `LoadConfigs` over the files the first left finds the same configurations and writes the same history |
| Loader.FilesFramed | cli_loader.go:219-288 | finding the configuration files from git and the working directory reads no file contents |
| Loader.HistoryReadsBack | cli_loader.go:314-324 | the history written for well-formed configurations reads back as the same list |
| Cli.EvalPaths | cli.go:31-37 | both paths are set exactly when both variables are non-empty, and are then their values |
| Cli.UseHistory | cli.go:223-232 | the history is used unless the disable variable is set and non-empty; a CI environment does not matter |
| Cli.ExecMembersLists | cli.go:87 | the encoded exec configuration holds the command as its only activation line and no deactivation lines |
| Cli.ExecPayloadDecodes | cli.go:86-89 | the appended module decodes to an exec unit that runs the command and has nothing to undo |
| Cli.ResolveWithExec | cli.go:89-90 | with the exec module appended, resolving the modules gives the old units followed by the exec unit, or the old error |
| Cli.WithExec | cli.go:89-90 | stated by `Cli.ResolveWithExec` and `Cli.CollectWithExec` |
| Cli.ExecUnitLines | cli.go:87-89 | the exec unit's activation is its command and its deactivation is empty |
| Cli.CollectWithExec | cli.go:90-94 | the activation lines gain the command at the end |
| Cli.TeardownWithExec | cli.go:90-96 | the deactivation lines are unchanged by the exec unit |
| Cli.ExecRunsLast | cli.go:85-96 | after the exec module is appended, the activation lines are the project's own lines followed by the command |
| Cli.ExecLeavesDeactivation | cli.go:85-96 | appending the exec module leaves the deactivation lines as they were |
| Cli.ScriptBodyLines | cli.go:97-101 | read back line by line, the script is `set -e`, then the activation lines, then the deactivation lines |
| Cli.ScriptBody | cli.go:97-101 | stated by `Cli.ScriptBodyLines` |
| Cli.JoinContinued | cli.go:137-140 | joining with ` && \` and a newline is joining with newlines the lines with the continuation added to all but the last |
| Cli.ActivationFileLines | cli.go:137-140 | read back line by line, a written file holds each line once, in order, all but the last ending in ` && \` |
| Cli.ActivationFile | cli.go:137-140 | stated by `Cli.ActivationFileLines` |
| Cli.IssueExec | cli.go:85-101 | the exec module is appended to the project manager, and the script is built from its activation and deactivation lines, or fails with their first error |
| Cli.ScriptOf | cli.go:93-101 | the script of the manager as it stands |
| Cli.IssueActivate | cli.go:133-149 | both line lists, then both files written, the first error stopping it |
| Cli.BuiltinsFirst | cli.go:179-181 | unless disabled, the prompt and the jump built-ins are put in front of the project's modules, in that order, each bound to its declaration |
| Cli.WithBuiltins | cli.go:179-181 | stated by `Cli.BuiltinsFirst` |
| Cli.PrependBuiltins | cli.go:179-181 | the method puts the built-ins in front, as above |
| Cli.RunActivation | cli.go:170-195 | the built-ins are put in front; without arguments both activation files are written when the shell helper passed both paths and the shell-support error is given otherwise; with arguments they are space-joined and run as one exec command |
| Cli.ScriptCommandWords | cli.go:206-212 | for any prefix but " ", the command is the prefix, the path and the arguments, joined by spaces |
| Cli.ExtractedScriptCommand | cli.go:206-212 | every extracted script takes the prefix branch, so an executable script (prefix "") runs as a space followed by its path and arguments |
| Cli.RunScript | cli.go:197-214 | the script's command line is appended as the exec module and run |
| Cli.AddProjectsStep | cli.go:242-273 | one more project of the loop; a failing one is the loop's failure |
| Cli.AddProjectsErrorSticks | cli.go:249-250 | once a project fails, the rest of the loop does not matter |
| Cli.CommandsErrorSticks | cli.go:240-241 | once a configuration fails, the rest of the loop does not matter |
| Cli.AppendScripts | cli.go:261-272 | the script loop appends one sub-command per script, in order |
| Cli.VisitProjects | cli.go:242-273 | the project loop gives exactly the fold over the configuration's projects |
| Cli.VisitProject | cli.go:243-272 | a name seen before is skipped; a new one is recorded with this configuration's path and gets its commands |
| Cli.CommandsOf | cli.go:249-272 | a project's commands: its activate command, then one per script, or the project manager's error |
| Cli.LoadConfigCommands | cli.go:223-277 | the loops give exactly the commands of the fold over the configurations, or its first error |
| Cli.AddProjectsSeen | cli.go:242-248 | the project loop records every new name of the configuration with this configuration's path, and keeps the others |
| Cli.AddEntrySeen | cli.go:235-248 | one configuration records the names it declares that are new, with its own path; one without a configuration adds nothing |
| Cli.AddEntry | cli.go:235-248 | stated by `Cli.AddEntrySeen` |
| Cli.SeenDeclared | cli.go:234-248 | `seenProjects` holds exactly the names some configuration declares |
| Cli.SeenFirst | cli.go:243-248 | a name maps to the path of the first configuration, in discovery order, that declares it |
| Cli.ProjectCommandsShape | cli.go:251-271 | a project's commands: first its activate command, named after it, for its configuration; then script commands named `<project>.<sub-command>` on the same project |
| Cli.ProjectCommands | cli.go:251-271 | stated by `Cli.ProjectCommandsShape` |
| Cli.AddProjectTracks | cli.go:243-271 | adding a project keeps the commands in step with `seenProjects` |
| Cli.AppendTracked | cli.go:248-260 | appending a new project's commands keeps every activation command recorded with its path |
| Cli.AppendDistinct | cli.go:243-260 | appending a new project's commands keeps the activation commands' names distinct |
| Cli.AppendActivated | cli.go:248-260 | appending keeps every recorded name with its activation command |
| Cli.AppendFollow | cli.go:260-271 | appending keeps every script command after its project's activation command |
| Cli.AddProjectsTracks | cli.go:242-273 | the project loop keeps the commands in step with `seenProjects` |
| Cli.CommandsTrack | cli.go:235-274 | the whole loop keeps the commands in step with `seenProjects` |
| Cli.FirstConfigWins | cli.go:242-260 | the first configuration declaring a name wins: the name has exactly one activation command, built from that configuration; later declarations are skipped |
| Cli.OnlyActivation | cli.go:243-260 | a recorded name has exactly one activation command, with the recorded path |
| Cli.SameUse | cli.go:243-248 | two activation commands with the same name are the same command |
| Cli.ActivationsDeclared | cli.go:242-260 | every activation command is for a project some configuration declares |
| LegacyPaths.StoragePath | project_manager.go:26-30 | never empty, and absolute when the storage root is |
| LegacyPaths.RootDir | project_manager.go:32-44 | never empty, and absolute when the configuration path or `Root` is |
| LegacyPaths.RootPath | project_manager.go:46-49 | absolute when the configuration path or `Root` is |
| LegacyPaths.RootDirAgrees | project_manager.go:32-44 | the older root equals the newer manager's when `Root` is empty, and is the newer one cleaned otherwise |
| LegacyPaths.RootPathNestsAbsolute | project_manager.go:46-49 | an absolute element is joined below the root: with root `/a`, `/b` becomes `/a/b`, where the newer `RootPath` gives `/b` |
| LegacyPaths.RootPathNestsEveryAbsolute | project_manager.go:46-49 | for every context and element, the absolute element `/t` gives the same path as the relative `t`: it is joined below the root |
| LegacyPython.New | module_python.go:130-150 | decoding fails exactly when the payload does; a decoded unit keeps the dependencies and the auto-install flag, has a non-empty interpreter, pip commands and virtualenv command, and keeps a given interpreter; an absent payload gives all the defaults |
| LegacyPython.HashInputReadsEach | module_python.go:55-70 | what the hash reads fails exactly when some ".txt" entry's file is missing; otherwise it is, entry by entry, the file's contents or the entry's text |
| LegacyPython.HashInputErrorSticks | module_python.go:62-65 | the first unreadable file ends the loop |
| LegacyPython.CalculateDepHash | module_python.go:50-72 | the loop gives "" without dependencies and otherwise the digest of everything read, or the first read error |
| LegacyPython.DepHash | module_python.go:50-72 | "" without dependencies; otherwise an error exactly when some ".txt" entry's file is missing |
| LegacyPython.ArgsNameHashedFiles | module_python.go:57-85 | in the corrected arguments, every ".txt" entry is installed with `-r` from the very file its contents were hashed from, and every other entry is passed as it is |
| LegacyPython.AsWrittenAgreesOnRelative | module_python.go:59-79 | for a relative entry, the argument as written and the corrected one agree |
| LegacyPython.AsWrittenMisplacesAbsolute | module_python.go:57-79 | with root `/a`, an absolute entry `/b` ending in ".txt" is hashed from `/b` but, as written, installed with `-r /a/b` |
| LegacyPython.ArgAsWritten | module_python.go:76-82 | for a relative entry, the argument the program builds is the corrected one |
| LegacyPython.Args | module_python.go:74-85 | one install argument per dependency |
| LegacyPython.InstalledRelativeFilesAreHashed | module_python.go:55-85 | as written, a relative ".txt" entry is installed with `-r` from the very file its contents were hashed from, and any other entry is passed as it is |
| LegacyPython.AutoInstallArgs | module_python.go:74-85 | the argument loop gives the space-joined arguments as the program builds them: `-r` and the entry below the root for a ".txt" entry, the entry itself otherwise |
| LegacyPython.ShellActivateCommands | module_python.go:91-124 | the lines, or the hash error that stops them |
| LegacyPython.Activation | module_python.go:91-124 | fails exactly when the dependency hash does; otherwise the virtualenv's source line is always among the lines |
| LegacyPython.LinesFor | module_python.go:96-123 | the lines appended group by group, once the hash is known |
| LegacyPython.ActivationShape | module_python.go:91-124 | the source line alone, or the two creation lines, the source line and the pip upgrade when the virtualenv is missing; then the install and recording lines exactly when the hash changed and auto-install is on |
| LegacyPython.InstallsWithoutDependencies | module_python.go:117-122 | with no dependencies, auto-install on and a recorded hash, the install line still runs, with no arguments, and the recorded hash becomes "" |
| LegacyPython.RecordedHashRead | module_python.go:42-48 | after the recording line writes the hash and a newline, the hash read back is the one recomputed |
| LegacyPython.RecordedHashStopsReinstall | module_python.go:117-122 | the next activation with the same inputs installs nothing |
| LegacyPS1.Decode | module_ps1.go:33-37 | an absent payload gives an empty value |
| LegacyPS1.New | module_ps1.go:32-49 | decoding fails exactly when the payload does; a given value is kept, an empty one becomes the default prefix; the value is never empty |
| LegacyPS1.DefaultNonEmpty | module_ps1.go:38-47 | the default prefix is never empty |
| LegacyPS1.Activation | module_ps1.go:18-23 | two lines: the first saves the prompt, the second is `export PS1="<value> $PS1"` |
| LegacyPS1.Deactivation | module_ps1.go:25-30 | two lines: the first is `export PS1="$OLD_PS1"`, the second forgets the saved prompt |
| LegacyPS1.Activate | module_ps1.go:18-23 | the prompt is saved, and the new prompt is the prefix, a space and the old prompt |
| LegacyPS1.Deactivate | module_ps1.go:25-30 | the saved prompt is forgotten and, when there was one, restored |
| LegacyPS1.RoundTrip | module_ps1.go:18-30 | deactivating after activating gives back every prompt, the empty one included |
| LegacyPS1.DeactivateUnsaved | module_ps1.go:27 | with nothing saved, deactivation empties the prompt, where the newer unit's guard keeps it |
| LegacyPS1.PlainDefault | module_ps1.go:38-47 | without colours the default is `[venvy:<project>]` |
| LegacyPS1.ColoredJoined | module_ps1.go:39-46 | the coloured pieces joined are the pieces with their escapes |
| LegacyPS1.ColoredMatchesNewer | module_ps1.go:38-47 | on a colour terminal the default is the one the newer unit gives shells other than bash and zsh |
| LegacyManager.Tags | config.go:36-42 | the older registry knows "python", "jump", "ps1", "debug" and "exec", each bound to its constructor, and neither "env" nor "tmux-window" |
| LegacyManager.NewExec | module_exec.go:22-29 | the older exec constructor decodes as the newer one does |
| LegacyManager.Make | config.go:33-42 | the debug constructor always succeeds; the exec one gives an empty unit for an absent payload; the python and ps1 ones fail exactly when their payloads do not decode |
| LegacyManager.Activate | config.go:13-16 | only a python or jump unit's activation can fail |
| LegacyManager.Deactivate | config.go:13-16 | only a jump unit's deactivation can fail |
| LegacyManager.Instantiate | project_manager.go:59-69 | an unknown type gives the "has unkown type" error; a unit made is named after the name asked for |
| LegacyManager.DeclaredCount | project_manager.go:55-58 | a name is declared exactly when some declaration carries it |
| LegacyManager.ScanCounts | project_manager.go:56-71 | the inner loop yields one unit per declaration carrying the name, each under that name |
| LegacyManager.ScanFails | project_manager.go:59-68 | the inner loop fails exactly when some declaration with the name cannot be instantiated |
| LegacyManager.ScanErrorSticks | project_manager.go:60-68 | once a prefix of the declarations fails, the whole scan fails the same way |
| LegacyManager.AbortSticks | project_manager.go:61-67 | once the loop has returned early, later names change nothing |
| LegacyManager.LoadedNames | project_manager.go:54-76 | a run that does not return early yields one unit per declaration carrying each name, in order: a repeated declaration repeats the unit and a missing one gives none |
| LegacyManager.AbortsIff | project_manager.go:54-76 | the run returns early exactly when some declaration of some listed name cannot be instantiated |
| LegacyManager.LastMissingReported | project_manager.go:72-74 | a missing name does not stop the loop; the error left is that of the last missing name, and there is none exactly when every name is declared |
| LegacyManager.Load | project_manager.go:51-80 | stated by `LegacyManager.AbortsIff` and `LegacyManager.LastMissingReported` |
| LegacyManager.GatherAll | project_manager.go:87-96 | gathering succeeds exactly when every result does, and then concatenates their lines |
| LegacyManager.ActivationInOrder | project_manager.go:82-97 | activation succeeds exactly when every unit's does, and strings their lines together in module order |
| LegacyManager.LabelledKeeps | project_manager.go:91-93 | labelling an error with the unit and project keeps success and the lines |
| LegacyManager.DeactivationReversed | project_manager.go:99-115 | deactivation takes the units last first; it succeeds exactly when every unit's does, which can only fail for a jump unit |
| LegacyManager.ActivationLines | project_manager.go:87-95 | the activation loop gives exactly that gathering |
| LegacyManager.UnitActivation | project_manager.go:90-94 | one turn: the unit's lines appended, or its error as the loop's result |
| LegacyManager.DeactivationLines | project_manager.go:104-113 | the deactivation loop gives exactly the reversed gathering |
| LegacyManager.ScanDecls | project_manager.go:55-74 | the inner loop gives exactly the scan, and `found` exactly when the name is declared |
| LegacyManager.ScanStep | project_manager.go:56-71 | a declaration carrying another name is passed over; only a matching one can fail |
| LegacyManager.DeclaredStep | project_manager.go:57-58 | one more declaration declares the name exactly when it carries it or an earlier one did |
| LegacyManager.InstantiateDecl | project_manager.go:59-69 | the body of the inner loop gives exactly that instantiation |
| LegacyManager.ProjectManager.constructor | project_manager.go:125-127 | a manager on the configuration, the active project, the paths, with the once-function not yet run |
| LegacyManager.ProjectManager.Modulers | project_manager.go:51-80 | the first call runs the once-function and remembers its outcome; later calls return it again, whatever the configuration has become |
| LegacyManager.ProjectManager.ShellActivateSh | project_manager.go:82-97 | the units' activation lines in module order, joined by `\|\| return $?` and a newline |
| LegacyManager.ProjectManager.ShellDeactivateSh | project_manager.go:99-115 | the units' deactivation lines, last unit first, joined by `\|\| return 1` and a newline |
| LegacyManager.ProjectManager.AppendModulesOnProject | project_manager.go:117-123 | the declarations go at the end of the configuration's, their names at the end of the active project's list; what `Modulers` remembered stays |
| LegacyManager.LastIndex | project_manager.go:128-132 | the index found holds a project with the name |
| LegacyManager.LastIndexAgrees | project_manager.go:128-132 | the older manager picks the last project with the name, as the newer configuration manager does |
| LegacyManager.NewProjectManager | project_manager.go:125-141 | the last project with the name becomes the active one; without one it fails with "project <name> not found in config" |
| LegacyLoader.ConfigPathsFromGit | config_loader.go:214-242 | the loops give every configuration line of the two listings, repeats kept, and nothing outside a work tree |
| LegacyLoader.AppendListed | config_loader.go:233-238 | the line loop appends each line naming a configuration, repeats too |
| LegacyLoader.LoadConfigs | config_loader.go:273-306 | the de-duplicated configurations of git, the working directory and the history, the history always read; the history file is rewritten exactly when `saveInHistory` is set |
| LegacyLoader.ConfigsUnique | config_loader.go:273-294 | no path is returned twice, and every path of git, the working directory and the history is returned |
| LegacyLoader.Configs | config_loader.go:273-306 | stated by `LegacyLoader.ConfigsUnique` |
| LegacyLoader.UniqueUnique | config_loader.go:279-294 | de-duplicating a prefix first changes nothing once the whole list is de-duplicated |
| LegacyLoader.FlattenWithoutPlain | config_loader.go:227 | without output from the newer loader's third listing, its listings flatten to the older loader's two |
| LegacyLoader.JoinedUniqueGit | config_loader.go:279-294 | whether git's list is de-duplicated first or not, `LoadConfigs` returns the same |
| LegacyLoader.AgreesWithNewer | config_loader.go:214-306 | without the third listing, the older loader finds the same configurations as the newer one using history |

## Left out

- Running processes is left out. That covers `exec.Command` for the exec script, tmux and git, the temporary file of `issueExec`, the signal handler, `os.Exit` and `errExit`. The outputs of tmux and git are fields of `World.World`, and a command's effect is the text it would run.
- The cobra command tree, its flags (`--reset`, `--temp`, `--print-root`, `--print-path`, `--verbose`) and `main` are left out. Commands are modelled as data: name, description, target and action.
- Logging is left out. It has no effect on results.
- Concurrency is left out. The prefetch goroutines of `LoadConfigs` are not modelled, and `sync.Once` is modelled as sequential memoisation, not thread-safe.
- Directory creation is left out: `os.MkdirAll` in `NewProjectManager` and the `init` functions, and the permission bits of files written.
- Home-directory expansion (`homedir.Expand`, `MustExpandPath`) is taken as the identity. The home directory is a field of the world only where a path is built from it explicitly.
- MD5, TOML-to-JSON conversion, dotenv parsing and JSON text parsing are abstract functions in `World.World`. Compact JSON encoding is written out.
- The diskv store's on-disk layout is left out. The store is a map per data directory.
- Go's sorting of map keys when marshalling is left out. Maps written as JSON (the script cache) are sequences of pairs with distinct keys in insertion order. Maps iterated in Go's unspecified order (environment variables) are kept in declaration order.
- JSON numbers are integers: floating point is left out.
- `evalScript` and `util.StringTemplate` (the `html/template` rendering of the shell helper) are left out. Only the constants the helper shares with the rest are modelled.
- `isCIEnv` is left out: it only logs.
- The rest of the version command and the logger's configuration are left out.
- module_jump.go is not part of this model. The older registry's jump constructor is a parameter supplied by the caller.
- `UnmarshalAndValidate` is not part of this model. The tmux module's use of it is modelled as `UnmarshalEmpty` followed by the required-name check that its struct tags ask for.
- The text of the validator's error messages is left out. Only which declarations fail validation, and where, is modelled.
- ParseWindows, ListWindows, Tmux.Activation and Tmux.ShellActivateCommands: a listing line without '|' makes the program index past the end of the split (modules/tmux_window.go:120) and crash, since nothing recovers from the panic. The model turns that crash into the error `IndexPanic`, which activation reports with the "could not list current tmux windows" label; the program prints no such message.
- EnvVar.DeactivationRestores, EnvVar.RestoredVar, EnvVar.ReexportedUnset and Python.DeactivationRestoresVenv: every value is printed between double quotes without escaping (modules/envvar.go:35-64), so the shell expands `$`, backquotes and backslashes in it and a `"` ends it. `RestoredVar` and `ReexportedUnset` are stated for the literal reading `EnvVar.Run`. `DeactivationRestores` and `DeactivationRestoresVenv` are stated for the shell's reading `EnvVar.ShellRun`, and only where the restored former values (and the virtualenv path) hold none of those characters; `EnvVar.DollarValueNotRestored` shows the promise failing otherwise. The prompt prefixes written into PS1 go through the same expansion, which the PS1 members do not model.
- The shell's reading of a double-quoted value (`EnvVar.Expand`) covers `$name`, `${name}` and the backslash escapes. Command substitution, positional and special parameters, and `${…}` with operators give no result rather than a modelled one.
- Loader.ReadCache and Loader.DecodeEntries: one cache entry that is not an object, or that has a field of the wrong type, makes the model drop the whole cache. `json.Unmarshal` into `map[string]*foundScript` (cli_loader.go:159-164) keeps the other entries and stores a zero `foundScript` for the bad one, which is parsed again since its empty `LastModified` never matches. A `null` entry is stored as nil and panics at cli_loader.go:185 when its file is listed. The model therefore parses the good entries again too, does not write the bad entries back, and has no such panic.
- Cli.AddEntry and Cli.ProjectCommands: a data directory that cannot be created (venvy/data_manager.go:20) makes `NewConfigManager` (venvy/config_manager.go:54-56) or `ProjectManager` (venvy/config_manager.go:29-31) fail, and the program then exits (cli.go:240-241 and 249-250). `Cli.AddEntry` fails only on a relative storage directory, and `Cli.ProjectCommands` assumes the data directory can be created.
- Cli.IssueExec: the script body is modelled but its execution is not, so the exit status of the command is not modelled.
- LegacyPaths.RootDir: the contract states non-emptiness and absoluteness; its value is stated relative to the newer `RootDir` by `LegacyPaths.RootDirAgrees`.
- LegacyPaths.StoragePath: the contract states non-emptiness and absoluteness, not the joined value.

## Findings

The activation and deactivation members follow the code as written; each corrected member states the intended property on its own and is not used by them.

| source | as written | input that shows it | evidently intended | confidence | as-written member | corrected member |
|---|---|---|---|---|---|---|
| modules/tmux_window.go:119-120 | the window name is `data[1]` of `strings.Split(line, "\|")`, so a name containing '\|' is cut at its first '\|' | a window with index "2" named "p-a\|b", printed as "2\|p-a\|b", is read as the window "p-a" | the name is everything after the first '\|' | not executed | Tmux.AsWrittenTruncatesName | Tmux.ParseFormatted |
| module_python.go:77-79 | every ".txt" dependency is installed with `-r` and `RootPath(dep)`, while the hash (lines 57-61) reads an absolute dependency from where it is | with project root `/a`, the dependency `/b.txt` is hashed from `/b.txt` but installed with `-r /a/b.txt` | install the file that was hashed: an absolute dependency as it is | not executed | LegacyPython.AsWrittenMisplacesAbsolute | LegacyPython.ArgsNameHashedFiles |
| modules/envvar.go:55 | a former value is printed between double quotes unescaped, so the shell expands `$`, backquotes and backslashes in it when deactivation runs | with `vars` {"X": "x"} and X set to `a$b` while `b` is unset, deactivation leaves X as `a` | the former value comes back unchanged: each `"`, `$`, backquote and backslash escaped with a backslash | not executed | EnvVar.DollarValueNotRestored | EnvVar.QuotedDeactivationRestores |
