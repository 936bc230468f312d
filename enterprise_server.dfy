/**
  The Enterprise Server installer entry points: `Install` (silent or wizard),
  `Setup` (reconfigure an installed server) and `Update` (upgrade one).
  Everything the entry points call but do not define (parameter lookup,
  `InitInstall`, the action manager's preparation and `Start`, the unattended
  setup file, the component settings store, the connection-string builder,
  the wizard's modal loop) is an input: a value or a function in a host record.
 */
module EnterpriseServer {
  import opened Wrappers
  import opened Versions

  // ---------------------------------------------------------------------------
  // Setup variables, actions, pages

  datatype SetupActions = Install | Uninstall | Update | Setup

  /** The per-run configuration aggregate. Nullable strings are `Option`s;
      a field that no initializer sets is `None` (or `false`). */
  datatype SetupVariables = SetupVariables(
    componentId: Option<string>,
    connectionString: Option<string>,
    databaseServer: Option<string>,
    database: Option<string>,
    createDatabase: bool,
    webSiteIP: Option<string>,
    webSitePort: Option<string>,
    webSiteDomain: Option<string>,
    newWebSite: bool,
    newVirtualDirectory: bool,
    configurationFile: Option<string>,
    updateServerAdminPassword: bool,
    serverAdminPassword: Option<string>,
    dbInstallConnectionString: Option<string>,
    iisVersion: Option<Version>,
    setupAction: Option<SetupActions>,
    setupXml: Option<string>)

  /** `new SetupVariables()` before any initializer runs. */
  function NewSetupVariables(): SetupVariables
  {
    SetupVariables(None, None, None, None, false, None, None, None, false, false,
                   None, false, None, None, None, None, None)
  }

  datatype ActionTypes =
    | UpdateWebSite | UpdateServerAdminPassword | UpdateConfig
    | Backup | DeleteFiles | CopyFiles | ExecuteSql

  /** An `InstallAction` as it is enqueued: its type, description and path. */
  datatype InstallAction = InstallAction(actionType: ActionTypes, description: string, path: Option<string>)

  /** The page that runs a list of actions; `Setup` and `Update` fill its
      list one `Add` at a time. */
  class ExpressInstallPage {
    var actions: seq<InstallAction>

    constructor ()
      ensures actions == []
    {
      actions := [];
    }

    method Add(action: InstallAction)
      modifies this
      ensures actions == old(actions) + [action]
    {
      actions := actions + [action];
    }
  }

  datatype CheckTypes = OperationSystem | IISVersion | ASPNET

  datatype ConfigurationCheck = ConfigurationCheck(checkType: CheckTypes, description: string)

  datatype Page =
    | IntroductionPage
    | LicenseAgreementPage
    | ConfigurationCheckPage(checks: seq<ConfigurationCheck>)
    | InstallFolderPage
    | WebPage
    | UserAccountPage
    | DatabasePage
    | ServerAdminPasswordPage
    | ExpressInstallPage2
    | ExpressInstall(page: ExpressInstallPage)
    | FinishPage

  datatype DialogResult = OK | Cancel

  /** A wizard as it is shown: its variables, its linked pages in order and
      the page selected first. */
  datatype Wizard = Wizard(variables: SetupVariables, pages: seq<Page>, selectedPage: Page)

  // ---------------------------------------------------------------------------
  // Action errors in silent mode

  /** One notification from the action manager's `Start`: an action that
      completed, or an `ActionError` event carrying its message. */
  datatype ActionEvent = ActionCompleted | ActionError(message: string)

  /** What `Start` does in one run: the events it raises in order, and whether
      an exception escapes it after the last of them. */
  datatype StartRun = StartRun(events: seq<ActionEvent>, throws: bool)

  /** What the installer writes to the console, the log or a message box. */
  datatype Report =
    | ConsoleObsolete(minimal: Version)
    | ConsoleError(message: string)
    | LogError(message: string)
    | LogInstallFailed
    | ObsoleteWarning(minimal: Version)

  /** The messages of the `ActionError` events, in the order raised. */
  function ErrorMessages(events: seq<ActionEvent>): (ms: seq<string>)
    ensures |ms| <= |events|
  {
    if events == [] then []
    else
      var front := ErrorMessages(events[..|events| - 1]);
      match events[|events| - 1]
      case ActionCompleted => front
      case ActionError(m) => front + [m]
  }

  /** What the silent installer's `ActionError` handler writes for each
      message: a console line, then a log entry. */
  function HandlerReports(ms: seq<string>): (rs: seq<Report>)
    ensures |rs| == 2 * |ms|
  {
    if ms == [] then []
    else HandlerReports(ms[..|ms| - 1]) + [ConsoleError(ms[|ms| - 1]), LogError(ms[|ms| - 1])]
  }

  /** `Start` with the silent installer's handler subscribed: the handler
      reports every `ActionError` and clears the `success` flag, which
      starts out true. */
  method RaiseActionErrors(events: seq<ActionEvent>) returns (success: bool, reports: seq<Report>)
    ensures success <==> ErrorMessages(events) == []
    ensures reports == HandlerReports(ErrorMessages(events))
  {
    success := true;
    reports := [];
    var i := 0;
    while i < |events|
      invariant 0 <= i <= |events|
      invariant success <==> ErrorMessages(events[..i]) == []
      invariant reports == HandlerReports(ErrorMessages(events[..i]))
    {
      assert events[..i + 1][..i] == events[..i];
      if events[i].ActionError? {
        var m := events[i].message;
        ghost var ms := ErrorMessages(events[..i]);
        assert (ms + [m])[..|ms|] == ms;
        reports := reports + [ConsoleError(m), LogError(m)];
        success := false;
      }
      i := i + 1;
    }
    assert events[..|events|] == events;
  }

  lemma {:induction false} ErrorMessagesAppend(a: seq<ActionEvent>, b: seq<ActionEvent>)
    ensures ErrorMessages(a + b) == ErrorMessages(a) + ErrorMessages(b)
    decreases |b|
  {
    if b == [] {
      assert a + b == a;
    } else {
      var b' := b[..|b| - 1];
      assert (a + b)[..|a + b| - 1] == a + b';
      ErrorMessagesAppend(a, b');
    }
  }

  /** Once the flag is false it stays false: later events cannot remove an
      error already raised. */
  lemma FailureIsSticky(a: seq<ActionEvent>, b: seq<ActionEvent>)
    requires ErrorMessages(a) != []
    ensures ErrorMessages(a + b) != []
    ensures ErrorMessages(a) <= ErrorMessages(a + b)
  {
    ErrorMessagesAppend(a, b);
  }

  /** No error messages exactly when no event is an `ActionError`. */
  lemma {:induction false} NoErrorsIffAllCompleted(events: seq<ActionEvent>)
    ensures ErrorMessages(events) == [] <==> forall i :: 0 <= i < |events| ==> events[i].ActionCompleted?
  {
    if events != [] {
      var front := events[..|events| - 1];
      NoErrorsIffAllCompleted(front);
      assert forall i :: 0 <= i < |front| ==> front[i] == events[i];
    }
  }

  /** A message is reported exactly when some event is an `ActionError`
      carrying it. */
  lemma {:induction false} ErrorMessagesExact(events: seq<ActionEvent>, m: string)
    ensures m in ErrorMessages(events) <==> exists i :: 0 <= i < |events| && events[i] == ActionError(m)
  {
    if events != [] {
      var front := events[..|events| - 1];
      ErrorMessagesExact(front, m);
      assert forall i :: 0 <= i < |front| ==> front[i] == events[i];
    }
  }

  /** The k-th error message is written to the console and then to the log. */
  lemma {:induction false} HandlerReportsAt(ms: seq<string>, k: nat)
    requires k < |ms|
    ensures HandlerReports(ms)[2 * k] == ConsoleError(ms[k])
    ensures HandlerReports(ms)[2 * k + 1] == LogError(ms[k])
  {
    var front := ms[..|ms| - 1];
    if k < |front| {
      HandlerReportsAt(front, k);
    }
  }

  // ---------------------------------------------------------------------------
  // Install

  /** Installer-wide constants the defaults use; their values are not part
      of this model. */
  datatype EntServerConstants = EntServerConstants(
    aspNetConnectionStringFormat: string,
    defaultDbServer: string,
    defaultDatabase: string,
    defaultIP: string,
    defaultPort: string)

  /** The setup parameters `InstallBase` reads. The shell version is given
      parsed; `None` stands for a string the `Version` constructor rejects. */
  datatype InstallArgs = InstallArgs(
    shellVersion: Option<ParsedVersion>,
    shellMode: string,
    serverAdminPassword: Option<string>,
    databaseName: Option<string>,
    databaseServer: Option<string>,
    dbServerAdmin: Option<string>,
    dbServerAdminPassword: Option<string>)

  /** The collaborators of `InstallBase`, given as inputs. */
  datatype InstallHost = InstallHost(
    constants: EntServerConstants,
    silentInstallerShell: string,
    // ordinal ignore-case comparison: two strings are equal when their folds are
    ordinalFold: string -> string,
    initInstall: SetupVariables -> SetupVariables,
    prepareDistributiveDefaults: SetupVariables -> SetupVariables,
    masterConnectionString: (Option<string>, Option<string>, Option<string>) -> string,
    loadSetupXml: (Option<string>, SetupVariables) -> SetupVariables,
    // an exception while the silent overrides are read and applied
    overridesThrow: bool,
    start: StartRun,
    // what the wizard's modal loop returns
    wizardResult: DialogResult)

  datatype InstallOutcome = Faulted | SilentResult(success: bool) | DialogOutcome(dialog: DialogResult)

  /** What one `InstallBase` call did: its result, what it reported, the
      defaults it built, the variables as they stood when the version gate was
      evaluated, the variables `Start` ran with (silent mode) and the wizard it
      showed (interactive mode). */
  datatype InstallRun = InstallRun(
    outcome: InstallOutcome,
    reports: seq<Report>,
    seeded: Option<SetupVariables>,
    gated: Option<SetupVariables>,
    started: Option<SetupVariables>,
    wizard: Option<Wizard>)

  /** The minimum shell version `Install` demands, "1.0.1" parsed. */
  const MinimalInstallerVersion: ParsedVersion := Version(1, 0, 1, -1)

  /** `shellMode.Equals(SilentInstallerShell, OrdinalIgnoreCase)`. */
  predicate IsSilentShell(shellMode: string, host: InstallHost): (b: bool)
    ensures shellMode == host.silentInstallerShell ==> b
  {
    host.ordinalFold(shellMode) == host.ordinalFold(host.silentInstallerShell)
  }

  /** The default table `Install` builds before `InitInstall`. */
  predicate HasInstallDefaults(v: SetupVariables, c: EntServerConstants)
  {
    && v.connectionString == Some(c.aspNetConnectionStringFormat)
    && v.databaseServer == Some(c.defaultDbServer)
    && v.database == Some(c.defaultDatabase)
    && v.createDatabase
    && v.webSiteIP == Some(c.defaultIP)
    && v.webSitePort == Some(c.defaultPort)
    && v.webSiteDomain == Some("")
    && v.newWebSite
    && !v.newVirtualDirectory
    && v.configurationFile == Some("web.config")
    && v.updateServerAdminPassword
    && v.serverAdminPassword == Some("")
    // every field the initializer does not name keeps its default
    && v.componentId.None? && v.dbInstallConnectionString.None? && v.iisVersion.None?
    && v.setupAction.None? && v.setupXml.None?
  }

  /** The silent overrides: exactly these four fields change. */
  function SilentOverrides(v: SetupVariables, args: InstallArgs, host: InstallHost): (w: SetupVariables)
    ensures w.serverAdminPassword == args.serverAdminPassword
    ensures w.database == args.databaseName && w.databaseServer == args.databaseServer
    // the master connection string is built from the database server just overridden
    ensures w.dbInstallConnectionString ==
      Some(host.masterConnectionString(w.databaseServer, args.dbServerAdmin, args.dbServerAdminPassword))
    // every other field keeps its value
    ensures w.(serverAdminPassword := v.serverAdminPassword, database := v.database,
               databaseServer := v.databaseServer, dbInstallConnectionString := v.dbInstallConnectionString) == v
  {
    v.(serverAdminPassword := args.serverAdminPassword,
       database := args.databaseName,
       databaseServer := args.databaseServer,
       dbInstallConnectionString :=
         Some(host.masterConnectionString(args.databaseServer, args.dbServerAdmin, args.dbServerAdminPassword)))
  }

  /** The Install wizard's pages in order. */
  predicate IsInstallPageChain(pages: seq<Page>)
  {
    pages == [
      IntroductionPage,
      LicenseAgreementPage,
      ConfigurationCheckPage([
        ConfigurationCheck(OperationSystem, "Operating System Requirement"),
        ConfigurationCheck(IISVersion, "IIS Requirement"),
        ConfigurationCheck(ASPNET, "ASP.NET Requirement")]),
      InstallFolderPage,
      WebPage,
      UserAccountPage,
      DatabasePage,
      ServerAdminPasswordPage,
      ExpressInstallPage2,
      FinishPage]
  }

  /** Everything `InstallBase` promises, for a given minimum version. */
  predicate InstallContract(args: InstallArgs, host: InstallHost, minimal: Version, r: InstallRun)
  {
    if args.shellVersion.None? then
      // the Version constructor throws before anything else happens
      r == InstallRun(Faulted, [], None, None, None, None)
    else
      var gateFails := Less(args.shellVersion.value, minimal);
      && r.seeded.Some?
      && HasInstallDefaults(r.seeded.value, host.constants)
      && var prepared := host.prepareDistributiveDefaults(host.initInstall(r.seeded.value));
      // InitInstall and PrepareDistributiveDefaults have run, in that order,
      // before the gate is evaluated, in either mode
      && r.gated == Some(prepared)
      && if IsSilentShell(args.shellMode, host) then
        && r.wizard.None?
        && (gateFails ==>
              r.outcome == SilentResult(false) && r.started.None? && r.reports == [ConsoleObsolete(minimal)])
        && (!gateFails && host.overridesThrow ==>
              r.outcome == SilentResult(false) && r.started.None? && r.reports == [LogInstallFailed])
        && (!gateFails && !host.overridesThrow ==>
              var ms := ErrorMessages(host.start.events);
              && r.started == Some(SilentOverrides(prepared, args, host))
              && r.outcome == SilentResult(ms == [] && !host.start.throws)
              && r.reports == HandlerReports(ms) + (if host.start.throws then [LogInstallFailed] else []))
      else
        && r.started.None?
        && (gateFails ==>
              r.outcome == DialogOutcome(Cancel) && r.wizard.None? && r.reports == [ObsoleteWarning(minimal)])
        && (!gateFails ==>
              && r.outcome == DialogOutcome(host.wizardResult)
              && r.reports == []
              && r.wizard.Some?
              && r.wizard.value.variables == host.loadSetupXml(prepared.setupXml, prepared)
              && IsInstallPageChain(r.wizard.value.pages)
              && r.wizard.value.selectedPage == IntroductionPage)
  }

  method InstallBase(args: InstallArgs, host: InstallHost, minimal: Version) returns (r: InstallRun)
    ensures InstallContract(args, host, minimal, r)
  {
    if args.shellVersion.None? {
      return InstallRun(Faulted, [], None, None, None, None);
    }
    var version := args.shellVersion.value;
    var setupVariables := NewSetupVariables().(
      connectionString := Some(host.constants.aspNetConnectionStringFormat),
      databaseServer := Some(host.constants.defaultDbServer),
      database := Some(host.constants.defaultDatabase),
      createDatabase := true,
      webSiteIP := Some(host.constants.defaultIP),
      webSitePort := Some(host.constants.defaultPort),
      webSiteDomain := Some(""),
      newWebSite := true,
      newVirtualDirectory := false,
      configurationFile := Some("web.config"),
      updateServerAdminPassword := true,
      serverAdminPassword := Some(""));
    var seeded := setupVariables;
    setupVariables := host.initInstall(setupVariables);
    setupVariables := host.prepareDistributiveDefaults(setupVariables);
    var gated := setupVariables;
    if IsSilentShell(args.shellMode, host) {
      if Less(version, minimal) {
        return InstallRun(SilentResult(false), [ConsoleObsolete(minimal)], Some(seeded), Some(gated), None, None);
      }
      if host.overridesThrow {
        return InstallRun(SilentResult(false), [LogInstallFailed], Some(seeded), Some(gated), None, None);
      }
      setupVariables := setupVariables.(serverAdminPassword := args.serverAdminPassword);
      setupVariables := setupVariables.(database := args.databaseName);
      setupVariables := setupVariables.(databaseServer := args.databaseServer);
      setupVariables := setupVariables.(dbInstallConnectionString :=
        Some(host.masterConnectionString(setupVariables.databaseServer, args.dbServerAdmin, args.dbServerAdminPassword)));
      var success, reports := RaiseActionErrors(host.start.events);
      if host.start.throws {
        success := false;
        reports := reports + [LogInstallFailed];
      }
      return InstallRun(SilentResult(success), reports, Some(seeded), Some(gated), Some(setupVariables), None);
    } else {
      if Less(version, minimal) {
        return InstallRun(DialogOutcome(Cancel), [ObsoleteWarning(minimal)], Some(seeded), Some(gated), None, None);
      }
      var variables := host.loadSetupXml(setupVariables.setupXml, setupVariables);
      var checks := [
        ConfigurationCheck(OperationSystem, "Operating System Requirement"),
        ConfigurationCheck(IISVersion, "IIS Requirement"),
        ConfigurationCheck(ASPNET, "ASP.NET Requirement")];
      var pages := [IntroductionPage, LicenseAgreementPage, ConfigurationCheckPage(checks), InstallFolderPage,
                    WebPage, UserAccountPage, DatabasePage, ServerAdminPasswordPage, ExpressInstallPage2, FinishPage];
      var wizard := Wizard(variables, pages, IntroductionPage);
      return InstallRun(DialogOutcome(host.wizardResult), [], Some(seeded), Some(gated), None, Some(wizard));
    }
  }

  method Install(args: InstallArgs, host: InstallHost) returns (r: InstallRun)
    ensures InstallContract(args, host, MinimalInstallerVersion, r)
  {
    r := InstallBase(args, host, MinimalInstallerVersion);
  }

  /** The gate at "1.0.1": an equal shell version and a newer one pass,
      "1.0.0" and "1.0" are rejected. */
  lemma MinimalInstallerVersionGate()
    ensures !Less(Version(1, 0, 1, -1), MinimalInstallerVersion)
    ensures !Less(Version(1, 0, 1, 0), MinimalInstallerVersion)
    ensures !Less(Version(2, 0, -1, -1), MinimalInstallerVersion)
    ensures Less(Version(1, 0, 0, -1), MinimalInstallerVersion)
    ensures Less(Version(1, 0, -1, -1), MinimalInstallerVersion)
  {
  }

  /** A failing gate stops the run before `Start` and before any wizard,
      with `false` in silent mode and `Cancel` in interactive mode. The
      variables were then left with `InitInstall` and
      `PrepareDistributiveDefaults` applied to the default table, and none of
      the silent overrides. */
  lemma GateFailureStopsEverything(args: InstallArgs, host: InstallHost, minimal: Version, r: InstallRun)
    requires InstallContract(args, host, minimal, r)
    requires args.shellVersion.Some? && Less(args.shellVersion.value, minimal)
    ensures r.seeded.Some? && HasInstallDefaults(r.seeded.value, host.constants)
    ensures r.gated == Some(host.prepareDistributiveDefaults(host.initInstall(r.seeded.value)))
    ensures r.started.None? && r.wizard.None?
    ensures r.outcome == SilentResult(false) || r.outcome == DialogOutcome(Cancel)
    ensures r.outcome.SilentResult? <==> IsSilentShell(args.shellMode, host)
    ensures |r.reports| == 1
  {
  }

  /** In silent mode the result is true exactly when the gate passes, no
      exception is thrown inside the `try`, and no `ActionError` fires. */
  lemma SilentSuccessIff(args: InstallArgs, host: InstallHost, minimal: Version, r: InstallRun)
    requires InstallContract(args, host, minimal, r)
    requires args.shellVersion.Some? && IsSilentShell(args.shellMode, host)
    ensures r.outcome.SilentResult?
    ensures r.outcome.success <==>
      && !Less(args.shellVersion.value, minimal)
      && !host.overridesThrow
      && !host.start.throws
      && forall i :: 0 <= i < |host.start.events| ==> host.start.events[i].ActionCompleted?
  {
    NoErrorsIffAllCompleted(host.start.events);
  }

  /** In silent mode every `ActionError` message is written to the console
      and to the log, console first. */
  lemma SilentErrorsShownAndLogged(args: InstallArgs, host: InstallHost, minimal: Version, r: InstallRun, i: nat)
    requires InstallContract(args, host, minimal, r)
    requires args.shellVersion.Some? && IsSilentShell(args.shellMode, host)
    requires !Less(args.shellVersion.value, minimal) && !host.overridesThrow
    requires i < |host.start.events| && host.start.events[i].ActionError?
    ensures exists k :: (0 <= k < |r.reports| - 1
      && r.reports[k] == ConsoleError(host.start.events[i].message)
      && r.reports[k + 1] == LogError(host.start.events[i].message))
  {
    var m := host.start.events[i].message;
    var ms := ErrorMessages(host.start.events);
    ErrorMessagesExact(host.start.events, m);
    var j :| 0 <= j < |ms| && ms[j] == m;
    HandlerReportsAt(ms, j);
    var handled := HandlerReports(ms);
    assert r.reports[2 * j] == handled[2 * j] && r.reports[2 * j + 1] == handled[2 * j + 1];
  }

  // ---------------------------------------------------------------------------
  // Setup and Update

  /** The collaborators of `Setup` and `Update`. */
  datatype ConfigureHost = ConfigureHost(
    iisVersion: Option<Version>,
    loadComponentSettings: SetupVariables -> SetupVariables,
    wizardResult: DialogResult)

  /** What one `Setup` or `Update` call did: the variables it built before
      loading the component settings, the wizard it showed and its result. */
  datatype WizardRun = WizardRun(seeded: SetupVariables, wizard: Wizard, result: DialogResult)

  method Setup(componentId: Option<string>, host: ConfigureHost) returns (r: WizardRun)
    ensures r.seeded == NewSetupVariables().(componentId := componentId, configurationFile := Some("web.config"),
                                             iisVersion := host.iisVersion, setupAction := Some(SetupActions.Setup))
    ensures !r.seeded.createDatabase && !r.seeded.newWebSite
    ensures r.wizard.variables == host.loadComponentSettings(r.seeded)
    ensures |r.wizard.pages| == 4
    ensures r.wizard.pages[0] == WebPage && r.wizard.pages[1] == ServerAdminPasswordPage
    ensures r.wizard.pages[2].ExpressInstall? && r.wizard.pages[3] == FinishPage
    ensures r.wizard.selectedPage == WebPage
    ensures r.wizard.pages[2].page.actions == [
      InstallAction(UpdateWebSite, "Updating web site...", None),
      InstallAction(UpdateServerAdminPassword, "Updating serveradmin password...", None),
      InstallAction(UpdateConfig, "Updating system configuration...", None)]
    ensures forall a <- r.wizard.pages[2].page.actions :: a.path.None?
    ensures r.result == host.wizardResult
  {
    var setupVariables := NewSetupVariables().(
      componentId := componentId,
      configurationFile := Some("web.config"),
      iisVersion := host.iisVersion,
      setupAction := Some(SetupActions.Setup));
    var variables := host.loadComponentSettings(setupVariables);
    var page3 := new ExpressInstallPage();
    page3.Add(InstallAction(UpdateWebSite, "Updating web site...", None));
    page3.Add(InstallAction(UpdateServerAdminPassword, "Updating serveradmin password...", None));
    page3.Add(InstallAction(UpdateConfig, "Updating system configuration...", None));
    var wizard := Wizard(variables, [WebPage, ServerAdminPasswordPage, ExpressInstall(page3), FinishPage], WebPage);
    r := WizardRun(setupVariables, wizard, host.wizardResult);
  }

  method Update(componentId: Option<string>, host: ConfigureHost) returns (r: WizardRun)
    ensures r.seeded == NewSetupVariables().(componentId := componentId, setupAction := Some(SetupActions.Update),
                                             iisVersion := host.iisVersion)
    ensures !r.seeded.createDatabase && !r.seeded.newWebSite
    ensures r.wizard.variables == host.loadComponentSettings(r.seeded)
    ensures |r.wizard.pages| == 4
    ensures r.wizard.pages[0] == IntroductionPage && r.wizard.pages[1] == LicenseAgreementPage
    ensures r.wizard.pages[2].ExpressInstall? && r.wizard.pages[3] == FinishPage
    ensures r.wizard.selectedPage == IntroductionPage
    ensures r.wizard.pages[2].page.actions == [
      InstallAction(Backup, "Backing up...", None),
      InstallAction(DeleteFiles, "Deleting files...", Some("setup\\delete.txt")),
      InstallAction(CopyFiles, "Copying files...", None),
      InstallAction(ExecuteSql, "Updating database...", Some("setup\\update_db.sql")),
      InstallAction(UpdateConfig, "Updating system configuration...", None)]
    ensures forall a <- r.wizard.pages[2].page.actions ::
      a.path.Some? <==> a.actionType == DeleteFiles || a.actionType == ExecuteSql
    ensures r.result == host.wizardResult
  {
    var setupVariables := NewSetupVariables().(
      componentId := componentId,
      setupAction := Some(SetupActions.Update),
      iisVersion := host.iisVersion);
    var variables := host.loadComponentSettings(setupVariables);
    var page2 := new ExpressInstallPage();
    page2.Add(InstallAction(Backup, "Backing up...", None));
    page2.Add(InstallAction(DeleteFiles, "Deleting files...", Some("setup\\delete.txt")));
    page2.Add(InstallAction(CopyFiles, "Copying files...", None));
    page2.Add(InstallAction(ExecuteSql, "Updating database...", Some("setup\\update_db.sql")));
    page2.Add(InstallAction(UpdateConfig, "Updating system configuration...", None));
    var wizard := Wizard(variables, [IntroductionPage, LicenseAgreementPage, ExpressInstall(page2), FinishPage],
                         IntroductionPage);
    r := WizardRun(setupVariables, wizard, host.wizardResult);
  }
}
