# setup_vscode.py, modelled in Dafny

This project models `setup_vscode.py`, the part of the project template that
sets up VS Code for a ROS 2 workspace. It finds the Python import roots that
Pylance needs and writes them to `.vscode/settings.json`. It also finds the
workspace's local packages and merges them into Ruff's
`[tool.ruff.lint.isort].known-first-party` list in `pyproject.toml`.
Everything else in the repository is shell and Makefile glue.

The model has one module per component:

- `PathDiscovery` models `find_paths_and_packages` and `get_python_version_string`.
  It collects candidate roots in three stages, in this order:
  - the ROS system paths, probed only when a distribution is named;
  - up to three roots inside each directory under `install/`;
  - the non-empty `PYTHONPATH` segments that are directories.

  The roots are then de-duplicated, keeping each one at its first occurrence.
  The package names are returned as a sorted set. Without `install/`, both
  results are empty. Each stage is a method with the source's loop, proved
  against a function over the inputs. The filesystem is reduced to what the
  function asks of it: an `isDir` predicate, the names listed under
  `install/`, and the `PYTHONPATH` string.
- `Sequences` holds the order-preserving de-duplication (`Dedup`, and the
  `seen`-set loop `DedupInOrder` proved to compute it) and filtering.
- `StringOrder` holds Python's string order and `sorted(list(set(xs)))` as
  `SortedUnique`. A strictly ascending list is shown to be determined by its
  elements.
- `Text` holds `str.split(':')` with its inverse `':'.join`, decimal
  rendering, and the path join.
- `VscodeSettings` models `update_vscode_settings` on the parsed JSON
  object. Six keys are set and every other key is kept. A missing or corrupt
  file starts from the empty map. Valid JSON that is not an object raises an
  uncaught `TypeError`, which the model reports as a failure.
- `Pyproject` models `update_pyproject_toml` on the parsed TOML document.
  The `setdefault` chain becomes `SetDefaultTable`, and the nested update
  is specified by `UpdatedAlong`. The `known-first-party` merge is
  `MergeKnownFirstParty`. Every exception that the `try` block catches
  (a non-table on the path, a value that is not a list of strings)
  becomes a `PyprojectError`, and the file is left unchanged.
- `Configurator` models `main`: the exits, and the dispatch to the two
  updates.

The code is followed where it is malformed. The second per-package
candidate is built with a backslash line continuation inside an f-string.
Python keeps the next line's twelve leading spaces, so the candidate is
`lib/python` + twelve spaces + `X.Y/site-packages`. The model builds exactly
that string (`PathDiscovery.ContinuationIndent`).

## Model

| member | source | states |
|---|---|---|
| `Sequences.Dedup` | setup_vscode.py:123-129 | the de-duplicated paths contain no repeated element and have exactly the elements of the collected list |
| `Sequences.DedupInOrder` | setup_vscode.py:123-129 | the `seen`/`unique_paths` loop computes `Dedup`: the result is duplicate-free with the same elements as the input |
| `Sequences.DedupFollowsFirstOccurrences` | setup_vscode.py:123-129 | an element earlier in the output first occurs earlier in the input |
| `Sequences.DedupPreservesRelativeOrder` | setup_vscode.py:123-129 | if `a` first occurs before `b` in the input, `a` comes before `b` in the output |
| `Sequences.DedupAppend` | setup_vscode.py:123-129 | de-duplicating `a + b` keeps `Dedup(a)` as a prefix; later entries come from `b` and are absent from `a` |
| `Sequences.DedupOfDistinct` | setup_vscode.py:123-129 | a list without duplicates is left unchanged |
| `Sequences.DedupIdempotent` | setup_vscode.py:123-129 | de-duplicating twice equals de-duplicating once |
| `Sequences.FilterMembers` | setup_vscode.py:110-112 | the `is_dir` filter keeps exactly the candidates that are directories, and no more than it was given |
| `StringOrder.LessTransitive` | setup_vscode.py:131 | Python's string `<`, which `sorted` uses, is transitive |
| `StringOrder.LessTotal` | setup_vscode.py:131 | any two different strings are ordered one way or the other |
| `StringOrder.SortedUnique` | setup_vscode.py:131 | `sorted(list(set(xs)))` is strictly ascending and has exactly the elements of `xs` |
| `StringOrder.StrictlyAscendingUnique` | setup_vscode.py:131 | two strictly ascending lists with the same elements are equal, so the sorted set is unique |
| `StringOrder.SortedUniqueOfSameElements` | setup_vscode.py:205 | the sorted set depends only on the set of elements, not on their order or repetition |
| `StringOrder.SortedUniqueOfAscending` | setup_vscode.py:205 | an already strictly ascending list comes back unchanged |
| `Text.Split` | setup_vscode.py:118 | `split(':')` gives at least one piece, and no piece contains ':' |
| `Text.JoinWithSplit` | setup_vscode.py:118 | joining the pieces with ':' gives back the `PYTHONPATH` string |
| `Text.SplitJoinWith` | setup_vscode.py:118 | splitting a ':'-join of ':'-free pieces gives back the pieces |
| `Text.ParseDecimalOfDecimal` | setup_vscode.py:47 | the decimal rendering of a version number reads back as that number |
| `PathDiscovery.PythonVersion` | setup_vscode.py:45-47 | the string is `python`, a digit run, a dot and a digit run, each run exactly as long as `str()` of its number and reading back as that number, so the runs are `str(major)` and `str(minor)` |
| `PathDiscovery.PythonVersionInjective` | setup_vscode.py:45-47 | different `(major, minor)` versions give different `pythonX.Y` strings |
| `PathDiscovery.RosPathsMembers` | setup_vscode.py:55-85 | a ROS root is taken exactly when a distribution is named and that candidate is a directory |
| `PathDiscovery.CollectRosPaths` | setup_vscode.py:55-85 | the three guarded appends produce `RosPaths` |
| `PathDiscovery.PackageNamesMembers` | setup_vscode.py:94-99 | a name is collected exactly when its `install/` entry is a directory |
| `PathDiscovery.PackageCandidates` | setup_vscode.py:102-108 | three distinct candidates, each under `<package>/lib`: the intended site-packages path, the one with the continued line's twelve spaces after `python`, and `lib` itself |
| `PathDiscovery.PackagePathsMembers` | setup_vscode.py:94-113 | a path is collected in the per-package stage exactly when it is a directory and a candidate of an `install/` entry that is a directory |
| `PathDiscovery.PackagePathsAreDirectories` | setup_vscode.py:101-113 | every per-package root collected is a directory |
| `PathDiscovery.CollectPackages` | setup_vscode.py:94-113 | the nested loops over entries and candidates produce `PackageNames` and `PackagePaths` |
| `PathDiscovery.EnvPathsMembers` | setup_vscode.py:115-121 | a `PYTHONPATH` segment is taken exactly when the variable is set and the segment is non-empty and a directory; no taken segment contains ':' |
| `PathDiscovery.CollectEnvPaths` | setup_vscode.py:115-121 | the loop over the split variable produces `EnvPaths` |
| `PathDiscovery.FindPathsAndPackages` | setup_vscode.py:50-141 | returns the de-duplicated three-stage collection and the sorted package set; both are empty when `install/` is not a directory, even if ROS roots were found; paths are duplicate-free; packages are strictly ascending |
| `PathDiscovery.EnvPathsComeLast` | setup_vscode.py:115-129 | the result starts with the de-duplicated ROS and package roots; every later entry is a usable `PYTHONPATH` segment that is none of them |
| `PathDiscovery.FoundPathsAreDirectories` | setup_vscode.py:55-129 | every root handed to Pylance is a directory |
| `PathDiscovery.FoundPackagesAreInstalledDirectories` | setup_vscode.py:88-131 | the packages are strictly ascending and are exactly the `install/` entries that are directories |
| `VscodeSettings.InitialSettings` | setup_vscode.py:150-157 | a missing or corrupt file starts from no settings; a loaded JSON object is kept as it is; any other loaded JSON value is a failure, and only that |
| `VscodeSettings.UpdateVscodeSettings` | setup_vscode.py:144-169 | missing or corrupt file: the six keys only; non-object JSON: failure; otherwise the six keys hold the interpreter, `python_paths` twice, 'basic', 'openFilesOnly' and false, and every other key is unchanged |
| `VscodeSettings.SettingsUpdatedUnique` | setup_vscode.py:159-169 | the update determines the written settings uniquely from the settings read |
| `VscodeSettings.SettingsUpdateIdempotent` | setup_vscode.py:150-169 | running the update again on the settings it wrote changes nothing |
| `Pyproject.SetDefaultTable` | setup_vscode.py:195-198 | `setdefault(key, {})` yields the existing table, an empty one when the key is absent, and fails when the key holds a non-table |
| `Pyproject.StringItems` | setup_vscode.py:201-205 | a TOML array is read as a string list exactly when every item is a string |
| `Pyproject.ExistingKnownFirstParty` | setup_vscode.py:201 | no `known-first-party` key reads as the empty list; a present value is read exactly when it is an array of strings, and the list read is that array's contents |
| `Pyproject.MergeKnownFirstParty` | setup_vscode.py:205 | the merged list is strictly ascending in Python string order and its elements are those of the existing list and the local packages together |
| `Pyproject.MergeKnownFirstPartyUnion` | setup_vscode.py:201-208 | the merged list is sorted and duplicate-free, and holds exactly the existing entries and the local packages, so manual entries are never dropped |
| `Pyproject.MergeKnownFirstPartyIdempotent` | setup_vscode.py:205 | merging the same packages again leaves the list unchanged |
| `Pyproject.UpdatePyprojectToml` | setup_vscode.py:180-217 | no file or an unreadable file: left alone; otherwise success exactly when the path to `isort` crosses only tables and the existing list holds only strings; on success only the keys along `tool.ruff.lint.isort` change, and `known-first-party` is the merged list |
| `Pyproject.SectionOfEmpty` | setup_vscode.py:195-198 | sections created by the `setdefault` chain are empty all the way down |
| `Pyproject.UpdatedAlongReadBack` | setup_vscode.py:195-208 | after the update, the `isort` section exists and holds the merged list |
| `Pyproject.UpdatedAlongSelf` | setup_vscode.py:195-208 | a document that already holds the value at the path counts as its own update |
| `Pyproject.UpdatedAlongUnique` | setup_vscode.py:195-208 | the nested update is determined by the original document |
| `Pyproject.PyprojectUpdateIdempotent` | setup_vscode.py:189-212 | running the update again on the document it wrote changes nothing |
| `Configurator.Configure` | setup_vscode.py:220-266 | exits without an argument; exits when both results are empty; updates the settings iff there are paths and `pyproject.toml` iff there are packages; a non-object settings file stops the run before `pyproject.toml` is updated |

## Left out

- Filesystem access (`Path.is_dir`, `iterdir`, `exists`, `mkdir`, opening, reading and writing files) is replaced by inputs. These are an `isDir` predicate, the `install/` entry names in listing order, and the state of each file as read. The updates return the data that would be written.
- The `json` and `toml` parsers and serialisers are foreign libraries. Documents are modelled as parsed values: JSON and TOML numbers, floats and dates are opaque literals. Read errors other than a decode error (permissions, encodings) are not modelled.
- The construction of the three ROS candidate strings (setup_vscode.py:58-79) is not modelled. Those f-strings contain line continuations with embedded spaces, a stray `]` and a literal backslash. The candidates are opaque inputs (`RosCandidates`, a function of the distribution name in `Configurator`).
- `Text.Join` is plain concatenation with '/'. `pathlib`'s normalisation of repeated or trailing slashes and of `.` segments is not modelled.
- `sys.argv`, `sys.executable`, `sys.version_info`, `os.environ` and `Path.cwd()` become fields of `Configurator.Invocation`. `sys.exit(1)` becomes a `RunOutcome`. All `print` output is left out.
- The exception handlers around the writes (setup_vscode.py:176-177, 216-217) only log I/O failures and are left out.
- `Pyproject.UpdatePyprojectToml`: a `known-first-party` list of mutually comparable non-string items (integers, floats, booleans or dates), or a single non-string item, merged with no packages would sort in Python and be written back. The model treats any non-string item as `NotAStringList`. `main` never calls the update without packages.
- Both updates change Python dictionaries in place. The model rebuilds immutable maps instead, because no alias of those dictionaries is observable. Maps have no key order, so the model does not capture the order in which the written `settings.json` and `pyproject.toml` list their keys: Python keeps existing keys where they were and appends new keys at the end.
- Strings compare by Unicode scalar value. Python strings with lone surrogates cannot be represented.
- The shell scripts and the Makefile are sequential command glue. They are not part of this model.
