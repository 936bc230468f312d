# WebsitePanel installer orchestration and deleted-user tabs, in Dafny

This project models two small pieces of WebsitePanel's decision logic.

**Enterprise Server installer** (`EnterpriseServer.cs`, module `EnterpriseServer`,
version ordering in module `Versions`):

- `Install` calls `InstallBase` with the minimum shell version "1.0.1".
- `InstallBase` builds the default `SetupVariables` table. It runs `InitInstall` and the
  action manager's `PrepareDistributiveDefaults`, then branches on the shell mode.
- Silent mode: a shell version older than the minimum returns `false` with a console
  message. Otherwise the four parameter overrides are applied and `Start` runs with an
  `ActionError` handler that reports each error and clears the `success` flag. An
  exception inside the `try` returns `false`.
- Interactive mode: an older shell version returns `Cancel` after a warning box.
  Otherwise the unattended-setup file is loaded and the ten-page Install wizard is shown.
- `Setup` and `Update` build their variables and their wizards. The plan of actions is
  filled by repeated `Add`, type, description and path per action.

The version gate uses .NET `System.Version` ordering. Major, Minor, Build and Revision
are compared in turn, and an absent component counts as -1. The model proves that
this ordering is the lexicographic order of the components, and that it is a strict
total order. So the gate admits exactly the versions equal to or newer than the minimum.

**Deleted-user tabs** (`DeletedUserTabs.ascx.cs`, module `ExchangeServerUserControls`):

- `BindTabs` always offers the general tab.
- It adds the member-of tab when the security-groups quota passes, or when the
  distribution-lists quota passes and the user is a mailbox, room or equipment account.
  The user's settings are fetched only when the first quota fails.
- The highlighted index comes from a linear scan. It stops at the first tab whose id
  equals the selection ignoring case, and ends at the tab count when no tab matches.

Collaborators that the code calls but does not define are inputs of the model:

- a record of values and functions (`InstallHost`, `ConfigureHost`);
- quota results as a function of the quota;
- the user's account type;
- ignore-case comparisons as case-fold functions on strings.

The model follows the code in these details:

- Both paths run `InitInstall` and `PrepareDistributiveDefaults` BEFORE the
  version gate. The variables the gate sees are recorded, so a rejected run
  provably carries both of them and none of the silent overrides.
- On a silent gate failure, line 82 calls only `Utils.ShowConsoleErrorMessage`.
  Unlike the `ActionError` handler, it makes no `Log.WriteError` call.
- `Setup` and `Update` have no version gate, no re-run check and no missing-parameter
  error.

## Model

| member | source | states |
|---|---|---|
| `Versions.CompareTo` | WebsitePanel.Installer/Sources/WebsitePanel.Setup/EnterpriseServer.cs:80 | the comparison yields -1, 0 or 1, and 0 exactly when the two versions are equal |
| `Versions.Less` | WebsitePanel.Installer/Sources/WebsitePanel.Setup/EnterpriseServer.cs:80 | `a < b` holds exactly when `b` compares greater than `a`, and never for equal versions |
| `Versions.CompareToAntisymmetric` | WebsitePanel.Installer/Sources/WebsitePanel.Setup/EnterpriseServer.cs:80 | swapping the operands negates the comparison |
| `Versions.LessIsLexicographic` | WebsitePanel.Installer/Sources/WebsitePanel.Setup/EnterpriseServer.cs:80 | `version < minimal` holds exactly when Major, Minor, Build, Revision (absent = -1) are lexicographically smaller |
| `Versions.LessIsStrictTotalOrder` | WebsitePanel.Installer/Sources/WebsitePanel.Setup/EnterpriseServer.cs:123 | version `<` is irreflexive, transitive, asymmetric and total on distinct versions |
| `Versions.GateAdmitsEqualOrNewer` | WebsitePanel.Installer/Sources/WebsitePanel.Setup/EnterpriseServer.cs:80-85 | the gate rejects only a strictly older shell version; an equal or newer one passes |
| `EnterpriseServer.MinimalInstallerVersionGate` | WebsitePanel.Installer/Sources/WebsitePanel.Setup/EnterpriseServer.cs:44 | with minimum "1.0.1", shells "1.0.1", "1.0.1.0" and "2.0" pass; "1.0.0" and "1.0" are rejected |
| `EnterpriseServer.Install` | WebsitePanel.Installer/Sources/WebsitePanel.Setup/EnterpriseServer.cs:42-45 | `Install` keeps every promise of `InstallBase`, with the minimum fixed at "1.0.1" |
| `EnterpriseServer.InstallBase` | WebsitePanel.Installer/Sources/WebsitePanel.Setup/EnterpriseServer.cs:47-164 | an unparsable shell version faults before anything is built; otherwise the default table holds, and the gate sees exactly the defaults after `InitInstall` then `PrepareDistributiveDefaults`, in both modes; silent mode: gate failure returns false with one console message and no `Start`; an exception in the overrides returns false with a log entry; otherwise `Start` runs on variables where exactly ServerAdminPassword, Database, DatabaseServer and DbInstallConnectionString are overridden, and the result is true iff no `ActionError` fired and `Start` did not throw; interactive mode: gate failure returns Cancel with a warning and no wizard, else the ten-page Install chain starting at the intro page and holding the OS, IIS, ASP.NET checks in that order |
| `EnterpriseServer.IsSilentShell` | WebsitePanel.Installer/Sources/WebsitePanel.Setup/EnterpriseServer.cs:78 | the silent-installer shell name itself always selects silent mode |
| `EnterpriseServer.SilentOverrides` | WebsitePanel.Installer/Sources/WebsitePanel.Setup/EnterpriseServer.cs:91-99 | ServerAdminPassword, Database and DatabaseServer take the setup parameters; DbInstallConnectionString is built from the database server just set and the admin credentials; every other field is unchanged |
| `EnterpriseServer.ErrorMessages` | WebsitePanel.Installer/Sources/WebsitePanel.Setup/EnterpriseServer.cs:101-108 | the error messages are never more than the events raised |
| `EnterpriseServer.HandlerReports` | WebsitePanel.Installer/Sources/WebsitePanel.Setup/EnterpriseServer.cs:101-106 | the handler writes exactly two reports per error message |
| `EnterpriseServer.RaiseActionErrors` | WebsitePanel.Installer/Sources/WebsitePanel.Setup/EnterpriseServer.cs:89-112 | the flag starts true and ends true iff no `ActionError` message was raised; the handler writes each message to the console and then to the log, in order |
| `EnterpriseServer.ErrorMessagesAppend` | WebsitePanel.Installer/Sources/WebsitePanel.Setup/EnterpriseServer.cs:101-110 | the error messages of two consecutive stretches of a run are those of the first followed by those of the second |
| `EnterpriseServer.FailureIsSticky` | WebsitePanel.Installer/Sources/WebsitePanel.Setup/EnterpriseServer.cs:107 | once an `ActionError` has fired, later events never restore success, and earlier messages are kept |
| `EnterpriseServer.NoErrorsIffAllCompleted` | WebsitePanel.Installer/Sources/WebsitePanel.Setup/EnterpriseServer.cs:101-108 | no error message exists exactly when every event of the run is a completion |
| `EnterpriseServer.ErrorMessagesExact` | WebsitePanel.Installer/Sources/WebsitePanel.Setup/EnterpriseServer.cs:101-108 | a message is reported iff some `ActionError` event carries it |
| `EnterpriseServer.HandlerReportsAt` | WebsitePanel.Installer/Sources/WebsitePanel.Setup/EnterpriseServer.cs:103-105 | the k-th error message is the console line at position 2k and the log entry at 2k+1 |
| `EnterpriseServer.GateFailureStopsEverything` | WebsitePanel.Installer/Sources/WebsitePanel.Setup/EnterpriseServer.cs:78-127 | a failing gate yields false (silent) or Cancel (interactive) with one report, never runs `Start` and never builds a wizard; the variables were left as the default table after `InitInstall` and `PrepareDistributiveDefaults`, with no override applied |
| `EnterpriseServer.SilentSuccessIff` | WebsitePanel.Installer/Sources/WebsitePanel.Setup/EnterpriseServer.cs:87-119 | silent install returns true iff the gate passes, no exception occurs in the `try`, and every event of `Start` is a completion |
| `EnterpriseServer.SilentErrorsShownAndLogged` | WebsitePanel.Installer/Sources/WebsitePanel.Setup/EnterpriseServer.cs:101-106 | every `ActionError` during a silent install is written to the console and, right after, to the log |
| `EnterpriseServer.ExpressInstallPage.constructor` | WebsitePanel.Installer/Sources/WebsitePanel.Setup/EnterpriseServer.cs:195 | a new express-install page has no actions |
| `EnterpriseServer.ExpressInstallPage.Add` | WebsitePanel.Installer/Sources/WebsitePanel.Setup/EnterpriseServer.cs:199 | `Actions.Add` appends the action at the end and changes nothing else |
| `EnterpriseServer.Setup` | WebsitePanel.Installer/Sources/WebsitePanel.Setup/EnterpriseServer.cs:171-217 | variables get the component id, ConfigurationFile "web.config", the IIS version and SetupAction Setup, and CreateDatabase and NewWebSite are left false; the wizard is web, admin password, express install, finish, starting at the web page; the plan is exactly UpdateWebSite, UpdateServerAdminPassword, UpdateConfig with their descriptions and no paths |
| `EnterpriseServer.Update` | WebsitePanel.Installer/Sources/WebsitePanel.Setup/EnterpriseServer.cs:219-272 | variables get the component id, SetupAction Update and the IIS version, and CreateDatabase and NewWebSite are left false; the wizard is intro, licence, express install, finish, starting at intro; the plan is exactly Backup, DeleteFiles, CopyFiles, ExecuteSql, UpdateConfig with their descriptions; only DeleteFiles ("setup\delete.txt") and ExecuteSql ("setup\update_db.sql") carry a path |
| `ExchangeServerUserControls.Matches` | WebsitePanel/Sources/WebsitePanel.WebPortal/DesktopModules/WebsitePanel/ExchangeServer/UserControls/DeletedUserTabs.ascx.cs:81 | a null selection matches no tab; a selection equal to a tab's id always matches it |
| `ExchangeServerUserControls.BuildTabs` | WebsitePanel/Sources/WebsitePanel.WebPortal/DesktopModules/WebsitePanel/ExchangeServer/UserControls/DeletedUserTabs.ascx.cs:54-75 | one or two tabs, the first always "view_deleted_user"; "deleted_user_memberof" appears only second, and exactly when the security-groups quota passes or the distribution-lists quota passes for a mailbox, room or equipment account; user settings are fetched iff the security-groups quota fails, and the outside calls are exactly the security-groups check, then (only if it fails) the user lookup and the distribution-lists check |
| `ExchangeServerUserControls.FindSelectedIndex` | WebsitePanel/Sources/WebsitePanel.WebPortal/DesktopModules/WebsitePanel/ExchangeServer/UserControls/DeletedUserTabs.ascx.cs:77-85 | the index is at most the tab count; no earlier tab id matches the selection ignoring case; an index below the count points at a matching tab; with no match, or no selection, it equals the count |
| `ExchangeServerUserControls.DataList.constructor` | WebsitePanel/Sources/WebsitePanel.WebPortal/DesktopModules/WebsitePanel/ExchangeServer/UserControls/DeletedUserTabs.ascx.cs:85-87 | a fresh data list has no data source and no selected item |
| `ExchangeServerUserControls.DeletedUserTabs.BindTabs` | WebsitePanel/Sources/WebsitePanel.WebPortal/DesktopModules/WebsitePanel/ExchangeServer/UserControls/DeletedUserTabs.ascx.cs:52-89 | the data source is the general tab ("view_deleted_user", "Tab.General"), followed by the member-of tab ("deleted_user_memberof", "Tab.MemberOf") exactly when it is allowed; the selected index is the first case-insensitive match (or the count); the outside calls are the same trace as `BuildTabs`; the selection itself is unchanged |

## Left out

- `new Version(string)` parsing is not modelled. The shell version arrives already parsed, and `None` stands for a string the constructor rejects; that exception escapes `InstallBase` as `Faulted`. The minimum is given as its parsed value, so "1.0.1" is `Version(1, 0, 1, -1)`.
- Exceptions thrown outside the `try` by `InitInstall`, `PrepareDistributiveDefaults`, the shell-mode lookup (including a null shell mode) or the wizard's construction are not modelled. The model also does not separate an exception in one override from one in another: all of lines 91-99 are one `overridesThrow` input.
- The internals of the action manager are not part of this model, and neither are the per-action executors. `Start` is an abstract list of completed / `ActionError` events plus whether it throws. The code shows no continue-or-abort policy, no re-run rejection and no missing-parameter error, so none is modelled.
- `Utils.GetSetupParameters` / `GetStringSetupParameter`, `InitInstall`, `AppConfig.*`, `LoadSetupVariablesFromSetupXml` and `SqlUtils.BuildDbServerMasterConnectionString` are uninterpreted functions or input values, and so are the `Global.EntServer.*` constants. `Setup` reads the ShellVersion parameter and never uses it, so that read is omitted.
- Aliasing: the action manager, the wizard and the configuration checks share one `SetupVariables` object. The model passes values. The variables `Start` runs with are the post-override value, which is what the sharing produces. Changes that `Start` or the wizard pages later make to the shared object are not observed.
- `InstallAction` is a class whose description and path are set before it is added. The model builds each action as a complete value.
- The Windows Forms user interface is reduced to the ordered page list, the first selected page and the OK/Cancel result of the modal loop. That covers `InstallerForm`, `Wizard.LinkPages`, `MessageBox` and `ShowModal`/`ShowDialog` with its owner window. Console and log output are `Report` values; the message text of `Global.Messages.InstallerVersionIsObsolete` is reduced to the minimum version it is formatted with.
- `Uninstall` (EnterpriseServer.cs:166-169) only forwards to `UninstallBase`, which is not part of this model.
- Enumerations list only the values the code uses. `ActionTypes`, `ExchangeAccountType` (other values are `OtherAccountType`) and `DialogResult` have more values in the C# code, and the order of `SetupActions`, which fixes the C# default value, is not known. A field no initializer sets is modelled as unset (`None`, or `false` for a bool field).
- Culture-aware ignore-case comparison (`String.Compare(..., true)`) and ordinal ignore-case comparison are abstract case folds on whole strings. No particular culture's rules are modelled.
- DeletedUserTabs: localisation and URL building inside `CreateTab` are left out; a tab keeps its id and caption key, so `CreateTab` is the `Tab` constructor. `DataBind`, `Page_Load`, the cached package context and a null user returned by `GetUserGeneralSettings` are left out too. The web-service call itself is replaced by the account type it returns, and the call is recorded in the lookup trace.
- `WebsitePanel.EnterpriseServer/Global.asax.cs` is left out. It is an HTTP keep-alive driven by a timer callback, with static shared state and a network request, so it is about concurrency and I/O.
