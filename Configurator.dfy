/**
  `main` of setup_vscode.py: reads the ROS distribution from the command
  line, collects paths and packages, and dispatches to the two updates.
*/
module Configurator {
  import opened Wrappers
  import opened PathDiscovery
  import opened VscodeSettings
  import opened Pyproject

  /** Everything `main` takes from the process and the filesystem. */
  datatype Invocation = Invocation(
    argv: seq<string>,                        // `sys.argv`, program name first
    root: string,                             // `Path.cwd()`
    version: Version,                         // `sys.version_info`
    interpreterPath: string,                  // `sys.executable`
    rosCandidates: string -> RosCandidates,   // the three ROS paths built from a distribution name
    host: Host,
    settingsFile: SettingsFile,
    pyprojectFile: PyprojectFile)

  datatype RunOutcome =
    | MissingRosDistro    // no argument: exit status 1 before anything else
    | NothingFound        // no paths and no packages: exit status 1
    | SettingsCrashed     // the settings file held a non-object: uncaught TypeError
    | Finished(settings: Option<map<string, Json>>,
               pyproject: Option<Result<map<string, Toml>, PyprojectError>>)

  /**
    `main`: exits when the distribution argument is missing or when nothing
    was found; otherwise updates the editor settings only when there are
    paths and `pyproject.toml` only when there are packages.
  */
  method Configure(inv: Invocation) returns (outcome: RunOutcome)
    ensures outcome == MissingRosDistro <==> |inv.argv| < 2
    ensures |inv.argv| >= 2 ==>
              var rosDistro := inv.argv[1];
              var paths := FoundPaths(inv.root, inv.version, rosDistro, inv.rosCandidates(rosDistro), inv.host);
              var packages := FoundPackages(inv.root, inv.host);
              && (outcome == NothingFound <==> paths == [] && packages == [])
              && (outcome == SettingsCrashed <==>
                    paths != [] && InitialSettings(inv.settingsFile).Failure?)
              && (outcome.Finished? ==>
                    && (outcome.settings.Some? <==> paths != [])
                    && (outcome.pyproject.Some? <==> packages != [])
                    && (outcome.settings.Some? ==>
                          SettingsOutcome(inv.settingsFile, paths, inv.interpreterPath,
                                          Success(outcome.settings.value)))
                    && (outcome.pyproject.Some? ==>
                          PyprojectOutcome(inv.pyprojectFile, packages, outcome.pyproject.value)))
  {
    if |inv.argv| < 2 {
      return MissingRosDistro;
    }
    var rosDistro := inv.argv[1];
    var pythonPaths, localPackages :=
      FindPathsAndPackages(inv.root, inv.version, rosDistro, inv.rosCandidates(rosDistro), inv.host);

    if pythonPaths == [] && localPackages == [] {
      return NothingFound;
    }

    var settings: Option<map<string, Json>> := None;
    if pythonPaths != [] {
      var written := UpdateVscodeSettings(inv.settingsFile, pythonPaths, inv.interpreterPath);
      if written.Failure? {
        return SettingsCrashed;
      }
      settings := Some(written.value);
    }

    var pyproject: Option<Result<map<string, Toml>, PyprojectError>> := None;
    if localPackages != [] {
      var updated := UpdatePyprojectToml(inv.pyprojectFile, localPackages);
      pyproject := Some(updated);
    }
    outcome := Finished(settings, pyproject);
  }
}
