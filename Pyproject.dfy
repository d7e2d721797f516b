/**
  `update_pyproject_toml` of setup_vscode.py: the parsed `pyproject.toml` is
  a nested map; the `setdefault` chain finds or creates
  `[tool.ruff.lint.isort]`, and its `known-first-party` list becomes the
  sorted, duplicate-free union of what it held and the local packages.
*/
module Pyproject {
  import opened Wrappers
  import opened Sequences
  import opened StringOrder

  /** A parsed TOML value; floats and dates are kept as their literal text. */
  datatype Toml =
    | TString(s: string)
    | TInteger(i: int)
    | TBool(b: bool)
    | TOther(literal: string)
    | TArray(items: seq<Toml>)
    | TTable(entries: map<string, Toml>)

  /** What reading `pyproject.toml` yields. */
  datatype PyprojectFile =
    | NoFile                                   // the file does not exist
    | Unparsable                               // `toml.load` raised
    | Parsed(document: map<string, Toml>)

  /**
    Why the file is left as it is.  All but `NotFound` are exceptions raised
    inside the `try` block and only reported.
  */
  datatype PyprojectError =
    | NotFound
    | LoadFailed
    | NotATable(key: string)    // `.setdefault` or `.get` called on a non-table
    | NotAStringList            // `known-first-party` is no list of strings

  const RuffIsortPath: seq<string> := ["tool", "ruff", "lint", "isort"]
  const KnownFirstPartyKey: string := "known-first-party"

  /**
    `table.setdefault(key, {})` followed by use as a table: the section under
    `key`, an empty one when absent, `None` when `key` holds something else.
  */
  function SetDefaultTable(table: map<string, Toml>, key: string): (r: Option<map<string, Toml>>)
    ensures key !in table ==> r == Some(map[])
    ensures r.Some? && key in table ==> table[key] == TTable(r.value)
    ensures r.None? <==> key in table && !table[key].TTable?
  {
    if key !in table then Some(map[])
    else match table[key]
      case TTable(entries) => Some(entries)
      case _ => None
  }

  /** The section reached by following `path` with `SetDefaultTable`. */
  function SectionAt(table: map<string, Toml>, path: seq<string>): Option<map<string, Toml>>
    decreases |path|
  {
    if path == [] then Some(table)
    else match SetDefaultTable(table, path[0])
      case None => None
      case Some(sub) => SectionAt(sub, path[1..])
  }

  /** The strings of a TOML array, when every item is a string. */
  function StringItems(items: seq<Toml>): (r: Option<seq<string>>)
    ensures r.Some? ==> |r.value| == |items|
    ensures r.Some? <==> forall k :: 0 <= k < |items| ==> items[k].TString?
    ensures r.Some? ==> forall k :: 0 <= k < |items| ==> items[k] == TString(r.value[k])
  {
    if items == [] then Some([])
    else match items[0]
      case TString(s) =>
        (match StringItems(items[1..])
          case Some(rest) => Some([s] + rest)
          case None => None)
      case _ => None
  }

  /** A Python list of strings as a TOML array. */
  function StringArray(xs: seq<string>): (t: Toml)
    ensures t.TArray? && StringItems(t.items) == Some(xs)
  {
    var t := TArray(seq(|xs|, k requires 0 <= k < |xs| => TString(xs[k])));
    assert StringItems(t.items).Some?;
    assert StringItems(t.items).value == xs;
    t
  }

  /** `isort_section.get('known-first-party', [])`, when it is a list of strings. */
  function ExistingKnownFirstParty(isort: map<string, Toml>): (r: Option<seq<string>>)
    ensures KnownFirstPartyKey !in isort ==> r == Some([])
    ensures KnownFirstPartyKey in isort ==>
              (r.Some? <==> isort[KnownFirstPartyKey].TArray? &&
                            forall k :: 0 <= k < |isort[KnownFirstPartyKey].items| ==> isort[KnownFirstPartyKey].items[k].TString?)
    ensures KnownFirstPartyKey in isort && r.Some? ==> isort[KnownFirstPartyKey] == StringArray(r.value)
  {
    if KnownFirstPartyKey !in isort then Some([])
    else match isort[KnownFirstPartyKey]
      case TArray(items) =>
        var r := StringItems(items);
        if r.Some? then
          assert StringArray(r.value).items == items;
          r
        else r
      case _ => None
  }

  /** Line 205: `sorted(list(set(known_first_party + local_packages)))`. */
  function MergeKnownFirstParty(existing: seq<string>, localPackages: seq<string>): (r: seq<string>)
    ensures StrictlyAscending(r)
    ensures Elems(r) == Elems(existing) + Elems(localPackages)
  {
    assert Elems(existing + localPackages) == Elems(existing) + Elems(localPackages);
    SortedUnique(existing + localPackages)
  }

  /**
    The merged list is sorted and duplicate-free, and holds exactly the
    entries that were there and the local packages: nothing added by hand is
    dropped.
  */
  lemma MergeKnownFirstPartyUnion(existing: seq<string>, localPackages: seq<string>)
    ensures StrictlyAscending(MergeKnownFirstParty(existing, localPackages))
    ensures NoDuplicates(MergeKnownFirstParty(existing, localPackages))
    ensures forall x :: x in MergeKnownFirstParty(existing, localPackages) <==>
              x in existing || x in localPackages
  {
    var merged := MergeKnownFirstParty(existing, localPackages);
    StrictlyAscendingNoDuplicates(merged);
    assert forall x :: x in merged <==> x in Elems(existing + localPackages);
  }

  /** Merging the same packages again leaves the list as it is. */
  lemma MergeKnownFirstPartyIdempotent(existing: seq<string>, localPackages: seq<string>)
    ensures var once := MergeKnownFirstParty(existing, localPackages);
            MergeKnownFirstParty(once, localPackages) == once
  {
    var once := MergeKnownFirstParty(existing, localPackages);
    assert Elems(once + localPackages) == Elems(existing + localPackages);
    SortedUniqueOfSameElements(once + localPackages, existing + localPackages);
  }

  /** `updated` keeps every entry of `original` except the one under `key`, which it has. */
  predicate ExtendsAt(original: map<string, Toml>, updated: map<string, Toml>, key: string) {
    && updated.Keys == original.Keys + {key}
    && forall k :: k in original && k != key ==> updated[k] == original[k]
  }

  /** The Ruff section can be reached and its list read without an exception. */
  predicate RuffSectionUsable(document: map<string, Toml>) {
    && SectionAt(document, RuffIsortPath).Some?
    && ExistingKnownFirstParty(SectionAt(document, RuffIsortPath).value).Some?
  }

  /**
    `updated` is `original` with `value` stored under `key` in the section at
    `path`: along the path each table changes only under the key that leads
    on (created when absent), and every other key at every level keeps its
    value.
  */
  predicate UpdatedAlong(original: map<string, Toml>, updated: map<string, Toml>,
                         path: seq<string>, key: string, value: Toml)
    decreases |path|
  {
    if path == [] then
      ExtendsAt(original, updated, key) && updated[key] == value
    else
      && SetDefaultTable(original, path[0]).Some?
      && ExtendsAt(original, updated, path[0])
      && updated[path[0]].TTable?
      && UpdatedAlong(SetDefaultTable(original, path[0]).value, updated[path[0]].entries,
                      path[1..], key, value)
  }

  /**
    `result` is `document` with `tool.ruff.lint.isort.known-first-party` set
    to the merge of the list found there with the local packages.
  */
  predicate PyprojectUpdated(document: map<string, Toml>, result: map<string, Toml>,
                             localPackages: seq<string>)
  {
    && RuffSectionUsable(document)
    && var existing := ExistingKnownFirstParty(SectionAt(document, RuffIsortPath).value).value;
       UpdatedAlong(document, result, RuffIsortPath, KnownFirstPartyKey,
                    StringArray(MergeKnownFirstParty(existing, localPackages)))
  }

  /** The whole contract of `update_pyproject_toml`, on the document it would write. */
  predicate PyprojectOutcome(file: PyprojectFile, localPackages: seq<string>,
                             r: Result<map<string, Toml>, PyprojectError>)
  {
    && (file.NoFile? ==> r == Failure(NotFound))
    && (file.Unparsable? ==> r == Failure(LoadFailed))
    && (file.Parsed? ==> (r.Success? <==> RuffSectionUsable(file.document)))
    && (r.Success? ==> file.Parsed? && PyprojectUpdated(file.document, r.value, localPackages))
  }

  /**
    `update_pyproject_toml`: walks (and creates) `tool.ruff.lint.isort`,
    merges `known-first-party` with the local packages and returns the
    document written back, or why the file is left alone.
  */
  method UpdatePyprojectToml(file: PyprojectFile, localPackages: seq<string>)
    returns (r: Result<map<string, Toml>, PyprojectError>)
    ensures PyprojectOutcome(file, localPackages, r)
  {
    if file.NoFile? {
      return Failure(NotFound);
    }
    if file.Unparsable? {
      return Failure(LoadFailed);
    }
    var tomlData := file.document;
    var toolSection := SetDefaultTable(tomlData, "tool");
    if toolSection.None? {
      return Failure(NotATable("tool"));
    }
    var ruffSection := SetDefaultTable(toolSection.value, "ruff");
    if ruffSection.None? {
      return Failure(NotATable("ruff"));
    }
    var lintSection := SetDefaultTable(ruffSection.value, "lint");
    if lintSection.None? {
      return Failure(NotATable("lint"));
    }
    var isortSection := SetDefaultTable(lintSection.value, "isort");
    if isortSection.None? {
      return Failure(NotATable("isort"));
    }
    var knownFirstParty := ExistingKnownFirstParty(isortSection.value);
    if knownFirstParty.None? {
      return Failure(NotAStringList);
    }
    var updatedList := MergeKnownFirstParty(knownFirstParty.value, localPackages);

    // Write the changed sections back up the path, as the in-place updates do.
    var isort' := isortSection.value[KnownFirstPartyKey := StringArray(updatedList)];
    var lint' := lintSection.value["isort" := TTable(isort')];
    var ruff' := ruffSection.value["lint" := TTable(lint')];
    var tool' := toolSection.value["ruff" := TTable(ruff')];
    var result := tomlData["tool" := TTable(tool')];

    ghost var value := StringArray(updatedList);
    assert UpdatedAlong(isortSection.value, isort', [], KnownFirstPartyKey, value);
    assert UpdatedAlong(lintSection.value, lint', ["isort"], KnownFirstPartyKey, value);
    assert UpdatedAlong(ruffSection.value, ruff', ["lint", "isort"], KnownFirstPartyKey, value);
    assert UpdatedAlong(toolSection.value, tool', ["ruff", "lint", "isort"], KnownFirstPartyKey, value);
    assert UpdatedAlong(tomlData, result, RuffIsortPath, KnownFirstPartyKey, value);
    assert SectionAt(lintSection.value, ["isort"]) == isortSection;
    assert SectionAt(ruffSection.value, ["lint", "isort"]) == isortSection;
    assert SectionAt(toolSection.value, ["ruff", "lint", "isort"]) == isortSection;
    assert SectionAt(tomlData, RuffIsortPath) == isortSection;
    r := Success(result);
  }

  /** After the update the section at `path` exists and holds `value` under `key`. */
  lemma {:induction false} UpdatedAlongReadBack(original: map<string, Toml>, updated: map<string, Toml>,
                                                path: seq<string>, key: string, value: Toml)
    requires UpdatedAlong(original, updated, path, key, value)
    decreases |path|
    ensures SectionAt(updated, path).Some?
    ensures key in SectionAt(updated, path).value && SectionAt(updated, path).value[key] == value
  {
    if path != [] {
      UpdatedAlongReadBack(SetDefaultTable(original, path[0]).value, updated[path[0]].entries,
                           path[1..], key, value);
    }
  }

  /** A section that has to be created is empty all the way down. */
  lemma {:induction false} SectionOfEmpty(path: seq<string>)
    ensures SectionAt(map[], path) == Some(map[])
    decreases |path|
  {
    if path != [] {
      SectionOfEmpty(path[1..]);
    }
  }

  /** A document that already holds `value` at `path` is its own update. */
  lemma {:induction false} UpdatedAlongSelf(table: map<string, Toml>, path: seq<string>, key: string, value: Toml)
    requires SectionAt(table, path).Some?
    requires key in SectionAt(table, path).value && SectionAt(table, path).value[key] == value
    ensures UpdatedAlong(table, table, path, key, value)
    decreases |path|
  {
    if path != [] {
      SectionOfEmpty(path[1..]);
      assert path[0] in table;
      UpdatedAlongSelf(SetDefaultTable(table, path[0]).value, path[1..], key, value);
    }
  }

  /** The nested update is determined by the original document. */
  lemma {:induction false} UpdatedAlongUnique(original: map<string, Toml>, u1: map<string, Toml>, u2: map<string, Toml>,
                                              path: seq<string>, key: string, value: Toml)
    requires UpdatedAlong(original, u1, path, key, value)
    requires UpdatedAlong(original, u2, path, key, value)
    ensures u1 == u2
    decreases |path|
  {
    var next := if path == [] then key else path[0];
    if path != [] {
      UpdatedAlongUnique(SetDefaultTable(original, path[0]).value, u1[path[0]].entries,
                         u2[path[0]].entries, path[1..], key, value);
      assert u1[next] == u2[next];
    }
    forall k | k in u1.Keys
      ensures u1[k] == u2[k]
    {
      if k != next {
        assert k in original;
      }
    }
  }

  /**
    Running the configurator again on the document it wrote changes nothing:
    the list it wrote reads back, and merging the same packages into it
    again gives it back.
  */
  lemma PyprojectUpdateIdempotent(document: map<string, Toml>, written: map<string, Toml>,
                                  rewritten: map<string, Toml>, localPackages: seq<string>)
    requires PyprojectUpdated(document, written, localPackages)
    requires PyprojectUpdated(written, rewritten, localPackages)
    ensures rewritten == written
  {
    var existing := ExistingKnownFirstParty(SectionAt(document, RuffIsortPath).value).value;
    var merged := MergeKnownFirstParty(existing, localPackages);
    UpdatedAlongReadBack(document, written, RuffIsortPath, KnownFirstPartyKey, StringArray(merged));
    var isort := SectionAt(written, RuffIsortPath).value;
    assert ExistingKnownFirstParty(isort) == Some(merged);
    MergeKnownFirstPartyIdempotent(existing, localPackages);
    UpdatedAlongSelf(written, RuffIsortPath, KnownFirstPartyKey, StringArray(merged));
    UpdatedAlongUnique(written, rewritten, written, RuffIsortPath, KnownFirstPartyKey, StringArray(merged));
  }
}
