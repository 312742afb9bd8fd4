# rpk and pal_app skeleton generation, modelled in Dafny

`rpk` generates source-tree skeletons for robot applications built of five
kinds of units ("families"): intent extractors, skills, tasks, mission
controllers and whole applications. Each family holds templates. A template
lists blueprint-tree locations, a short description, a post-install help
text and, optionally, dependency lists. A dependency names a template of
another family together with the id and name its generated unit gets.
`rpk create` does three things:

- It asks for what the command line did not give: the id, the name, the
  family, the template and the robot.
- It generates the chosen template's dependencies depth-first, each in a
  copy of the `data` dictionary with its own id and name.
- It renders every blueprint of the template's locations into
  `root/<location's last segment>/<blueprint name>`. The id is substituted
  in both names and the `.j2` extension is cut off. Blueprints marked
  `pages_only_ari` are skipped unless their name mentions the robot.

`pal_app create` is the older generator. It uses the same id question, a
name question, two menus that catch every exception, and one
`python_script` template rendered into `path/id`.

The model has one module per concern:

- `Py`: the Python string and `int()` behaviour the programs rely on.
- `Catalog`: the catalog as ordered association lists, and its
  well-formedness and acyclicity.
- `Output`: the file system as a map from path to content (last write
  wins) and the log of reported effects, together in a `Workspace` class.
- `Generator`: `generate_skeleton` as a specification function, `Expand`,
  and its properties.
- `Skeleton`: `generate_skeleton` as the imperative recursive procedure over
  a mutable `Context` (the `data` dictionary). It is proved to have exactly
  the effects `Expand` describes.
- `Prompt`: standard input as a `Console` class, the id loop, and numbered
  menus with Python's negative indexing.
- `Interactive`: `rpk`'s `interactive_create`.
- `CreateCommand`: `rpk create` after argument parsing.
- `PalApp`: `pal_app`'s questions and generation.

External collaborators become parameters:

- jinja2 is a `Loader`: the blueprint names a location lists, and the text
  a blueprint renders to. The `Loader` also carries the naming conventions
  (the `{{id}}` placeholder, the `j2` extension and the `pages_only_ari`
  marker). `rpk create` requires rpk's own conventions; pal_app uses its own.
- `random_id` is a `randomId` argument of five lower-case letters.
- `get_intents` is an `intents` argument.
- The current year is a `year` argument.
- The user's answers are the lines of a `Console`.

An absent value (`None`) is `""`, which is just as falsy. An uncaught
exception or `sys.exit` is a value of the session or status type.

Three behaviours of the code that a reader may not expect, which the model
follows:

- A unit's `dependencies` lists only its immediate dependencies. Each
  recursive call rebinds `data["dependencies"]` to a new list in its own
  copy, so grandchildren never reach the grandparent's list (`ImmediateDependencies`).
- The post-install banner is printed at the end of every generated unit,
  dependencies included, not once per run (`HelpPerUnit`).
- A location always renders into `root/<last segment>`, even when the
  template has a single location (`OutputPath`, `OutputPathOf`).

## Model

| member | source | states |
|---|---|---|
| Catalog.Keys | rpk/rpk.py:247 | the list of a dictionary's keys has one entry per item, in declaration order |
| Catalog.LookupFound | rpk/rpk.py:251 | `d[k]` succeeds exactly when k is one of the keys, and then gives the value stored under k |
| Catalog.LookupAt | rpk/rpk.py:122-143 | in a dictionary with distinct keys, each entry is what its own key looks up |
| Catalog.UniqueFamilyKeys | rpk/rpk.py:122-143 | the five family names are distinct |
| Catalog.FamilyOfKeyOf | rpk/rpk.py:310 | `key.split("_")[0]` of `a + "_" + b` is a when a has no underscore |
| Catalog.KindFamily | rpk/rpk.py:305-310 | the four dependency kinds name the families intent, skill, task and mission, in that order |
| Catalog.TemplateIndex | rpk/rpk.py:122-143 | a template that can be looked up sits at a position of its family's list, under its own name |
| Catalog.TemplateAt | rpk/rpk.py:122-143 | every template entry of the catalog is found by its family and template name |
| Catalog.SoundAt | rpk/rpk.py:299 | in a sound catalog, a template that is found is well formed |
| Catalog.SupervisorDependencies | rpk/rpk.py:95-105 | both dependencies of llm_supervisor_python exist: ollama_connector_python in intent, greet_task_python in task |
| Catalog.SupervisorWellFormed | rpk/rpk.py:95-105 | llm_supervisor_python has a location, its dependencies are of lower layers and all resolve |
| Catalog.ChatbotDependency | rpk/rpk.py:116-118 | the dependency of llm_chatbot_python, llm_supervisor_python, exists in mission |
| Catalog.ChatbotWellFormed | rpk/rpk.py:109-120 | llm_chatbot_python has a location, its dependency is of a lower layer and resolves |
| Catalog.EntryWellFormed | rpk/rpk.py:37-143 | every template of every family in the catalog is well formed |
| Catalog.CatalogWellFormed | rpk/rpk.py:37-143 | every template the generator can look up is well formed |
| Catalog.CatalogSound | rpk/rpk.py:37-143 | the program's catalog is sound: the generator's precondition holds for it |
| Catalog.EdgeDescends | rpk/rpk.py:305-317 | a dependency edge leads to a template that exists, in a strictly lower layer |
| Catalog.PathDescends | rpk/rpk.py:305-317 | along a chain of dependency edges the layer falls by at least one per edge |
| Catalog.Acyclic | rpk/rpk.py:305-317 | no chain of dependencies returns to its start, and none has more than five templates, so the recursion ends |
| Output.ApplyAppend | rpk/rpk.py:354-355 | writing `a` then `b` leaves the files as writing `a + b` does |
| Output.ApplyLastWrite | rpk/rpk.py:354-355 | `open(p, "w")` overwrites: a path holds its last write, and a path never written keeps its old content or stays absent |
| Output.LastWriteOnly | rpk/rpk.py:354-355 | a path that is written, and always with the same text, ends up with that text as its last write |
| Output.Idempotent | rpk/rpk.py:322-355 | running the same generation twice leaves the same files as running it once |
| Output.Workspace.WriteFile | rpk/rpk.py:353-355 | the file gets the content, the write is logged after the earlier effects, and the files stay the replay of the log |
| Output.Workspace.ShowHelp | rpk/rpk.py:357-361 | the banner is logged and no file changes |
| Generator.KindBelow | rpk/rpk.py:305-311 | the dependencies of one kind of a well-formed template are in families of lower layers |
| Generator.DepItemsBelow | rpk/rpk.py:305-317 | every dependency a well-formed template visits is in a family of a lower layer |
| Generator.Kept | rpk/rpk.py:342-343 | a name is kept if and only if it is listed and the robot filter does not skip it |
| Generator.ExpandDepsCons | rpk/rpk.py:311-317 | generating a run of dependencies is generating the first, then, if it succeeded, the rest in the context it left |
| Generator.ExpandDepsAppend | rpk/rpk.py:305-317 | generating the lists of several kinds in turn is generating the first, then, if it succeeded, the others in the context it left |
| Generator.RenderNamesKept | rpk/rpk.py:341-355 | the writes for a location are exactly those of the blueprints the filter keeps, in listing order |
| Generator.RobotFilter | rpk/rpk.py:342-343 | a listed blueprint is written if and only if it is unmarked or its name mentions the robot |
| Generator.MarkedKeptForAri | rpk/rpk.py:342 | for robot `ari` no marked blueprint is skipped, since the marker's name contains "ari" |
| Generator.ReplaceBeforeExtension | rpk/rpk.py:345 | substituting the id in `base.j2` leaves the `.j2` extension in place |
| Generator.DropExtension | rpk/rpk.py:351 | cutting `1 + len(TPL_EXT)` characters removes exactly `.j2` |
| Generator.OutputPathOf | rpk/rpk.py:345-351 | blueprint `base.j2` of location `dir/seg` renders to `root/seg'/base'`, primes marking the id substituted |
| Generator.UnitDirOfPlaceholder | rpk/rpk.py:348 | a location ending in `{{id}}` renders into a directory named after the unit's id |
| Generator.RenderLocationsDone | rpk/rpk.py:322-339 | rendering succeeds if and only if every location lists a blueprint, and then writes every kept blueprint of every location in order |
| Generator.RenderLocationsStops | rpk/rpk.py:330-339 | at the first location listing nothing generation exits with that location as cause, after the writes of the locations before it |
| Generator.ExpandDepsRecords | rpk/rpk.py:311-317 | a run of dependencies adds a prefix of their ids to the parent's list: all of them on success, at least the failing one's otherwise |
| Generator.ImmediateDependencies | rpk/rpk.py:301-317 | a unit's dependency list holds its immediate dependencies' ids in visiting order (a prefix of them if generation stops), never theirs |
| Generator.ChatbotLookup | rpk/rpk.py:109-120 | llm_chatbot_python of app is the catalog's application template |
| Generator.SupervisorLookup | rpk/rpk.py:95-105 | llm_supervisor_python of mission is the third mission-controller template |
| Generator.IdsOfDepItems | rpk/rpk.py:305-315 | the ids the generator records are the declared ids, kind by kind, in declaration order |
| Generator.ChatbotIds | rpk/rpk.py:116-118 | the sample application declares the single dependency id llm_supervisor |
| Generator.DeclaredIdsOfIntentAndTask | rpk/rpk.py:305-308 | with one intent and one task dependency, the intent's id is recorded before the task's |
| Generator.SupervisorIds | rpk/rpk.py:101-104 | the sample supervisor declares ollama_connector and then greet_task |
| Generator.ChatbotDependencies | rpk/rpk.py:301-317 | generating llm_chatbot_python records exactly ["llm_supervisor"], not the supervisor's own dependencies, however it ends |
| Generator.SupervisorDependencies | rpk/rpk.py:301-317 | a successful llm_supervisor_python records ["ollama_connector", "greet_task"] |
| Generator.CountHelpAppend | rpk/rpk.py:357-361 | the banners of `a + b` are those of a plus those of b |
| Generator.RenderNamesNoHelp | rpk/rpk.py:341-355 | rendering a location's blueprints shows no banner |
| Generator.AllWritesNoHelp | rpk/rpk.py:322-355 | rendering all locations of a template shows no banner |
| Generator.HelpPerUnit | rpk/rpk.py:297-361 | a successful call shows one banner per unit it generates, its dependencies' included, and its own banner, with its root and id, last |
| Generator.HelpPerUnitOf | rpk/rpk.py:311-317 | a successful run of dependencies shows one banner per unit generated for them |
| Generator.DependenciesFirst | rpk/rpk.py:305-361 | a successful call ends with its own writes in location order, then its banner; every dependency banner comes before those writes |
| Generator.ResolvedConcat | rpk/rpk.py:305-317 | two runs of resolving dependencies together resolve |
| Generator.KindResolved | rpk/rpk.py:309-317 | every dependency of one kind of a well-formed template names a catalog template |
| Generator.DepItemsResolved | rpk/rpk.py:305-317 | every dependency a well-formed template visits names a catalog template |
| Generator.CatalogGenerates | rpk/rpk.py:297-361 | when every location lists a blueprint, generating any template of a sound catalog succeeds: no KeyError, no exit |
| Generator.CatalogGeneratesOf | rpk/rpk.py:305-317 | when every location lists a blueprint, a run of resolving dependencies is generated without failure |
| Skeleton.Context.Copy | rpk/rpk.py:313 | `dict(data)` is a new dictionary with the same entries |
| Skeleton.GenerateSkeleton | rpk/rpk.py:297-361 | the status, every write and banner, and the final dependency list of `data` are those Expand specifies |
| Skeleton.GenerateTemplate | rpk/rpk.py:299-361 | after the lookup: dependencies, own locations, banner, as ExpandTemplate specifies |
| Skeleton.GenerateDependencies | rpk/rpk.py:301-317 | the loop over the four kinds has the effects and leaves the dependency list ExpandDeps specifies |
| Skeleton.GenerateKind | rpk/rpk.py:309-317 | the loop over one kind's declarations has the effects and leaves the list ExpandDeps specifies for it |
| Skeleton.GenerateDependency | rpk/rpk.py:312-317 | one dependency: copy, new id and name, id recorded in the parent, recursion, as ExpandOne specifies |
| Skeleton.RenderTemplateLocations | rpk/rpk.py:320-355 | the loop over the locations logs the writes and ends with the status RenderLocations specifies |
| Skeleton.RenderBlueprints | rpk/rpk.py:341-355 | the loop over one location's blueprints logs exactly the writes RenderNames specifies |
| Py.StripLeftRemoves | rpk/rpk.py:270 | stripping the front of a text removes only white space and leaves a suffix that does not start with it |
| Py.StripRightRemoves | rpk/rpk.py:270 | stripping the back of a text removes only white space and leaves a prefix that does not end with it |
| Py.StripBothEnds | rpk/rpk.py:270 | what `str.strip()` leaves neither starts nor ends with white space in the sense of `str.isspace()`, the information separators 0x1C-0x1F included; the same holds for the narrower white space `int()` skips |
| Py.StripBothKeeps | rpk/rpk.py:270 | stripping keeps every character that is not white space |
| Py.StripPadded | rpk/rpk.py:270 | a text that neither starts nor ends with white space, surrounded by white space, strips to exactly that text |
| Py.StripDecimal | rpk/rpk.py:266-268 | `str.strip()` of a numeral with white space around it is the numeral |
| Py.ParseIntPadded | rpk/rpk.py:245 | `int()` reads a numeral surrounded by the white space it skips as the number it denotes, and raises ValueError when the numeral has more than 4300 digits |
| Py.ParseDecimal | rpk/rpk.py:245 | `int(str(n))` is n for every natural number n of at most 4300 digits, and a ValueError for longer ones |
| Py.ParseIntRejectsSeparator | rpk/rpk.py:245 | `int()` raises ValueError on any text holding an information separator 0x1C-0x1F, even at an end where `str.strip()` would have removed it |
| Prompt.Screened | rpk/rpk.py:210-212 | the id is kept if absent or valid, dropped if it contains a space or a hyphen; the result is absent or valid (pal_app's check is the same) |
| Prompt.AskId | rpk/rpk.py:218-226 | the id loop gives a valid answer, the last one it consumes, or ends in EOFError |
| Prompt.AskIdSkipsInvalid | rpk/rpk.py:218-226 | the answers before the accepted one are all invalid, and EOFError comes only when every answer is |
| Prompt.IdLoop | rpk/rpk.py:214-226 | an id it enters with is kept and nothing is asked; otherwise it asks for a valid id, or ends in EOFError |
| Prompt.AskIdPrefix | rpk/rpk.py:218-226 | answers after the first valid one do not change the id loop's outcome |
| Prompt.Console.ReadLine | rpk/rpk.py:219 | `input()` gives the next line and advances one line, or raises EOFError at the end without reading |
| Prompt.ReadId | rpk/rpk.py:218-226 | the method's loop has the outcome IdLoop specifies and reads exactly the answers it consumes |
| Prompt.Answer | rpk/rpk.py:244-249 | one answer chooses an entry of the menu, asks again, or raises ValueError exactly when `int()` rejects it (not a number, or more than 4300 digits) and the loop does not catch everything |
| Prompt.AskMenu | rpk/rpk.py:239-249 | a menu loop gives an entry chosen by its last consumed answer, or ends in EOFError or ValueError when it catches only IndexError, or asks forever when it catches everything |
| Prompt.AskMenuSkipsAgain | rpk/rpk.py:239-249 | every answer a menu loop passes over asks again; it runs out only when every answer did |
| Prompt.ChoiceOfNumber | rpk/rpk.py:245 | typing the decimal digits of k reads as k when there are at most 4300 of them, and is a ValueError otherwise |
| Prompt.ChoiceOfPadded | rpk/rpk.py:270 | in a menu that strips its answers, the digits of k with any white space `str.strip()` removes around them read as k, or are a ValueError past 4300 digits |
| Prompt.MenuRejects | rpk/rpk.py:244-249 | an answer `int()` rejects ends the menu with ValueError, or asks again when the loop catches everything |
| Prompt.MenuChooses | rpk/rpk.py:245-247 | an answer that reads as k, between 1 and the number of entries, selects the k-th entry |
| Prompt.MenuSelects | rpk/rpk.py:245-247 | choice k, between 1 and the number of entries, selects the k-th entry in display order; written with more than 4300 digits it is rejected as non-numbers are |
| Prompt.MenuSelectsPadded | rpk/rpk.py:270-272 | in a menu that strips its answers, choice k padded with white space, the information separators included, selects the k-th entry; past 4300 digits it is rejected |
| Prompt.MenuZeroIsLast | rpk/rpk.py:247 | choice 0 selects the last entry: index -1 counts from the end |
| Prompt.MenuBeyond | rpk/rpk.py:247-249 | a choice past the last entry is an IndexError and the menu asks again; one of more than 4300 digits is a ValueError, which ends a menu that catches only IndexError |
| Prompt.MenuDefault | rpk/rpk.py:264-268 | in a menu with a default, an answer that is empty after `str.strip()` (white space only, the information separators 0x1C-0x1F included) selects the first entry |
| Prompt.MenuEmptyAnswer | rpk/rpk.py:269-270 | in a menu without a default, an empty answer is a ValueError that ends the session, or a new question when the loop catches everything |
| Prompt.AskMenuPrefix | rpk/rpk.py:239-249 | answers after the one that chooses do not change the menu's outcome |
| Prompt.AskMenuFirst | rpk/rpk.py:239-249 | a menu loop's outcome is decided by its first answer, or by the rest when that one asks again |
| Prompt.ReadReply | rpk/rpk.py:245 | one answer is read and classified, or the input has ended and nothing is read |
| Prompt.ReadMenu | rpk/rpk.py:239-249 | the method's loop has the outcome AskMenu specifies and reads exactly the answers it consumes |
| Prompt.Given | rpk/rpk.py:257 | a value already set asks nothing and is taken as is; otherwise the menu gives one of its entries |
| Prompt.ReadGiven | rpk/rpk.py:257-274 | the method has the outcome Given specifies, advances the console by exactly the answers it consumed and leaves the rest |
| Interactive.RandomIdValid | rpk/rpk.py:150-153 | five lower-case letters form a valid id |
| Interactive.StartId | rpk/rpk.py:210-215 | the id loop starts with the command-line id when it is valid; otherwise with the random one in `--yes` mode and with none without it |
| Interactive.FromRobot | rpk/rpk.py:276-290 | the robot is the given one, "generic" in `--yes` mode, or a chosen entry of AVAILABLE_ROBOTS; otherwise the session crashes |
| Interactive.FromTemplate | rpk/rpk.py:257-290 | the template is the given one or a key of the family's templates, then the robot question follows |
| Interactive.FromFamily | rpk/rpk.py:239-290 | the family is the given one or a chosen key; a missing family is a KeyError, one without templates exits with 1 |
| Interactive.FromName | rpk/rpk.py:228-235 | the name is asked only without a given name and without `--yes`: then it is the first answer, the id when that answer is empty, and the end of input is EOFError; otherwise nothing is read and the name is the given one or the id |
| Interactive.Create | rpk/rpk.py:203-294 | a created session has a valid id and a non-empty name, a family of the catalog with templates, one of its templates and a robot, each the given value when given; otherwise it exits with 1 or crashes with EOFError, ValueError or the KeyError of an unknown given family |
| Interactive.YesAsksNothing | rpk/rpk.py:210-277 | with `--yes`, a known family and a template given, nothing is read; the id is the valid given one or the random one, the robot the given one or "generic" |
| Interactive.UnknownFamilyCrashes | rpk/rpk.py:251 | right after the name, a given family the catalog lacks ends the session with its KeyError, whatever the id, the name and the answers |
| Interactive.EmptyFamilyExits | rpk/rpk.py:251-255 | right after the name, a given family without templates ends the program with status 1, whatever the id, the name and the answers |
| Interactive.NoValidIdCrashes | rpk/rpk.py:218-226 | without `--yes` or a valid id, input with no valid id ends in EOFError |
| Interactive.EmptyNameIsId | rpk/rpk.py:228-235 | pressing Return at the name question gives the id as the name |
| Interactive.CatalogFamilyMenu | rpk/rpk.py:239-247 | the family menu offers intent, skill, task, mission and app, in that order |
| Interactive.RobotMenuChoices | rpk/rpk.py:279-288 | at the robot menu an answer that strips to nothing selects "generic", 0 selects "tiago", and "2" followed by the separator 0x1F strips to "2" and selects "ari" |
| Interactive.FamilySeparatorRaises | rpk/rpk.py:244-247 | the family menu does not strip, so "2" followed by the separator 0x1F is a ValueError that ends the session |
| Interactive.InteractiveCreate | rpk/rpk.py:203-294 | the questions asked on standard input end in exactly the session Create specifies; when it creates, the console has advanced by exactly the lines the session used |
| Interactive.AskFromName | rpk/rpk.py:228-235 | the name question and what follows end as FromName specifies; when it creates, the console has advanced by exactly the lines the session used |
| Interactive.AskFromFamily | rpk/rpk.py:239-255 | the family question and what follows end as FromFamily specifies; when it creates, the console has advanced by exactly the lines the session used |
| Interactive.AskFromTemplate | rpk/rpk.py:257-274 | the template question and what follows end as FromTemplate specifies; when it creates, the console has advanced by exactly the lines the session used |
| Interactive.AskFromRobot | rpk/rpk.py:276-290 | the robot question ends as FromRobot specifies; when it creates, the console has advanced by exactly the lines the session used |
| CreateCommand.Create | rpk/rpk.py:463-483 | the session is interactive_create's; when it creates, the log grows by exactly what generate_skeleton of the chosen template with the new data does, and by nothing otherwise |
| PalApp.FromRobot | pal_app/pal_app.py:104-126 | the robot and template are the given ones or the menus' only entries; if the input runs out in a menu the program asks forever |
| PalApp.AppCreate | pal_app/pal_app.py:80-128 | a chosen session has a valid id, a non-empty name, robot ARI and template python unless given; the only crash is EOFError |
| PalApp.MenusCatchAll | pal_app/pal_app.py:109-126 | every answer to either menu chooses its entry or asks again, so no session ends with ValueError |
| PalApp.EmptyNameIsId | pal_app/pal_app.py:96-102 | pressing Return at the name question gives the id as the name |
| PalApp.OnlyNameAsked | pal_app/pal_app.py:80-128 | with the id, the robot and the template given, only the name is read |
| PalApp.RobotMenuAsksAgain | pal_app/pal_app.py:104-114 | any answer to the robot menu that `int()` rejects asks again, and with the input exhausted the menu asks forever |
| PalApp.MenusFirstEntry | pal_app/pal_app.py:104-126 | choice 1 selects ARI and python |
| PalApp.InteractiveCreate | pal_app/pal_app.py:80-128 | the questions asked on standard input end in exactly the session AppCreate specifies; when a session is chosen, the console has advanced by exactly the lines it used |
| PalApp.AskFromRobot | pal_app/pal_app.py:104-126 | the menus end as FromRobot specifies; when a session is chosen, the console has advanced by exactly the lines it used |
| PalApp.AppWrites | pal_app/pal_app.py:225-232 | one write per listed blueprint, in listing order |
| PalApp.Generate | pal_app/pal_app.py:205-243 | generation succeeds if and only if the template is python and it lists a blueprint; any other template is refused; a failed run writes nothing |
| PalApp.GenerateWritesAll | pal_app/pal_app.py:225-238 | a successful run writes every listed blueprint to path/id/name, none skipped, then shows one banner |
| PalApp.OutputFileOf | pal_app/pal_app.py:227-228 | blueprint `base.j2` is written as base with the id substituted |
| PalApp.GeneratedFile | pal_app/pal_app.py:225-232 | after a run, a blueprint whose output name no other shares holds what it renders to |
| PalApp.GenerateApp | pal_app/pal_app.py:200-243 | the log grows by exactly the effects Generate specifies, and the exit code is 0 on success, 1 otherwise |
| PalApp.Create | pal_app/pal_app.py:193-243 | the session is interactive_create's; when chosen, the log grows by the run of the chosen template with the new data into path/id |

## Left out

- Argument parsing (`argparse`): the commands take the parsed values. The `choices=` checks on `--template` and `--robot` are not modelled, so a given template or robot is taken as is.
- The `list` command and the missing-command messages of both `main` functions: they only print.
- `get_intents`: it imports ROS packages and reads a message definition. Its result is an `intents` parameter.
- The jinja2 engine: the loader's listing and rendering are function parameters. `trim_blocks`, `lstrip_blocks` and autoescaping belong to rendering.
- `PKG_PATH` and where the blueprint directories are installed: a location is the string from the catalog.
- Directory creation (`mkdir`) and `Path.resolve()`: the file system is a map from paths to contents. pal_app's `mkdir` of `path/id` before the template check is left out with it. Paths are lists of parts and are never normalised, so `ApplyLastWrite`, `Idempotent` and `GeneratedFile` speak of model paths: an id such as `.`, `..` or `a/b`, which the id check lets through, or an output name holding `/`, can make two different model paths name one file on disk.
- The printed messages and ANSI colours. A write's "Creating" report is the `Wrote` effect. The post-install banner is a `Help` effect holding the unformatted text, the root and the id; `str.format` is not modelled.
- `random_id` and its randomness: the drawn id is a parameter, required to be five lower-case letters.
- The current year (`datetime.now()`): a parameter.
- `KeyboardInterrupt`: the user's input is a finite list of lines, which cannot be interrupted.
- `setup.py` and the test directory: packaging and a linter run.
- Py.ParseInt: `int()` is modelled for ASCII digits with one optional sign, with the white space it skips around them (ASCII tab to carriage return, space, and the non-ASCII spaces). Underscores between digits and non-ASCII digits are not accepted, so a few answers Python reads as numbers are `ValueError` in the model. The digit limit of CPython 3.11 (and 3.10.7 on), 4300 digits by default, is modelled; older versions without it read any length. `str.strip()` is modelled with the full `str.isspace()` set, the information separators 0x1C-0x1F included.
- PalApp.InteractiveCreate: when the input runs out inside a menu, the program loops forever. The model returns `Hangs` instead.
- PalApp.Create: the exit code it returns for a session that crashes or hangs stands for no real run.
- Interactive.Create: the function bounds the number of answers a created session consumes but does not give it. The methods `InteractiveCreate` and `AskFrom*` state that they read exactly that many lines.
