/**
 * The browser-side steps of the run (main.py, lines 93-204), with the browser
 * abstracted away. Each step is a fixed plan of driver calls that depends
 * only on the step's arguments and on what the page showed (the number of
 * server lists). The driver either completes every call of a plan or raises
 * at one of them; the calls before that one have happened, the rest have not.
 *
 * Every Playwright call can raise, the fixed waits included. A wait between
 * two calls is folded into the call after it: a raise in the wait and a raise
 * in that call leave the same calls done and end the step the same way. A
 * wait that ends a step has no call after it, and the wait before the primary
 * "Deploy Service" click lies outside the handler that guards that click, so
 * those waits are calls of the plan (`Wait`); so is the count of server lists
 * that decides the delete step (`Count`).
 */
module Steps {

  /** A Playwright locator, reduced to what it selects. */
  datatype Target =
    | ByRole(role: string, name: string, exact: bool)
    | ByLabel(caption: string)
    | ByPlaceholder(placeholder: string)
    | ByTestId(id: string)              // `[data-test-id="..."]`
    | ByCss(selector: string)
    | Within(outer: Target, inner: Target)

  datatype Resource = Page | Context | Browser

  /** One driver call. */
  datatype UiAction =
    | Goto(url: string)
    | Click(target: Target)
    | Fill(target: Target, text: string)
    | Count(target: Target)       // `locator.count()`
    | Wait(ms: nat)               // `page.wait_for_timeout(ms)`
    | Close(resource: Resource)

  /** How the driver behaves on one plan: it completes, or raises at action `index`. */
  datatype DriverRun = Completes | RaisesAt(index: nat)

  /** What a plan did under a driver run: the actions that completed, and whether it raised. */
  datatype Attempt = Attempt(performed: seq<UiAction>, raised: bool)

  function Execute(plan: seq<UiAction>, run: DriverRun): (a: Attempt)
    ensures a.performed <= plan
    ensures a.raised <==> run.RaisesAt? && run.index < |plan|
    ensures a.raised ==> |a.performed| == run.index
    ensures !a.raised ==> a.performed == plan
  {
    match run
    case Completes => Attempt(plan, false)
    case RaisesAt(i) => if i < |plan| then Attempt(plan[..i], true) else Attempt(plan, false)
  }

  function Button(name: string): Target {
    ByRole("button", name, false)
  }

  function Link(name: string): Target {
    ByRole("link", name, false)
  }

  // ---------------------------------------------------------------------
  // Login (perform_login, main.py lines 93-108)

  const LoginPageUrl: string := "https://sliplane.io/auth/login"

  /** Lines 44-45: open the login page and let a cached session redirect. */
  const ProbePlan: seq<UiAction> := [ Goto(LoginPageUrl), Wait(15000) ]

  /** The path segment whose presence in the URL is taken as "authenticated". */
  const AppPath: string := "/app"

  const UsernameField := ByLabel("Username or email address")
  const PasswordField := ByLabel("Password")

  function LoginPlan(username: string, password: string): seq<UiAction> {
    [ Click(Button("Login With Github")),
      Fill(UsernameField, username),
      Fill(PasswordField, password),
      Click(ByRole("button", "Sign in", true)),
      Wait(10000) ]
  }

  /** The redirect wait is the login plan's last call and occurs nowhere before it. */
  lemma LoginWaitIsLast(username: string, password: string, n: nat)
    requires 0 < n <= |LoginPlan(username, password)|
    ensures LoginPlan(username, password)[n - 1] == Wait(10000) <==> n == |LoginPlan(username, password)|
  {
  }

  /** The login types each credential into its own field and nothing else, and submits only after both. */
  lemma LoginTypesOnlyCredentials(username: string, password: string)
    ensures forall a :: a in LoginPlan(username, password) && a.Fill? ==>
      (a.target == UsernameField && a.text == username) || (a.target == PasswordField && a.text == password)
    ensures var p := LoginPlan(username, password);
      Fill(UsernameField, username) in p[..3] && Fill(PasswordField, password) in p[..3]
      && p[3] == Click(ByRole("button", "Sign in", true))
  {
    var p := LoginPlan(username, password);
    assert p[..3][1] == Fill(UsernameField, username);
    assert p[..3][2] == Fill(PasswordField, password);
  }

  // ---------------------------------------------------------------------
  // Delete (delete_existing_server, main.py lines 110-136)

  const AppUrl: string := "https://sliplane.io/app"
  const ServersList := ByTestId("servers-list")
  const ConfirmField := ByPlaceholder("Enter command here")
  const ConfirmDeleteButton := Within(ByCss("form"), Button("Delete Server"))

  /** The text the platform demands before it deletes a server. */
  function ConfirmationCommand(serverName: string): (cmd: string)
    ensures |cmd| == 11 + |serverName|
    ensures cmd[..11] == "sudo rm -f " && cmd[11..] == serverName
  {
    "sudo rm -f " + serverName
  }

  /** Navigation to the servers page and the count of server lists, done whatever the page shows. */
  const CheckServers: seq<UiAction> :=
    [ Goto(AppUrl), Click(ByTestId("sidebar-servers-link")), Count(ServersList) ]

  /** The destructive path: settings, "Unsafe Territory", delete, confirm. */
  function DeleteSequence(serverName: string): seq<UiAction> {
    [ Click(Within(ServersList, ByTestId("menu-expand-button"))),
      Click(ByTestId("menu-item-Settings")),
      Click(Link("Unsafe Territory")),
      Click(Button("Delete Server")),
      Fill(ConfirmField, ConfirmationCommand(serverName)),
      Click(ConfirmDeleteButton),
      Wait(5000) ]
  }

  /** `listed` is the number of server-list elements the servers page shows. */
  function DeletePlan(serverName: string, listed: nat): seq<UiAction> {
    CheckServers + (if listed > 0 then DeleteSequence(serverName) else [])
  }

  /** The action that actually deletes a server. */
  predicate DeletesServer(a: UiAction) {
    a == Click(ConfirmDeleteButton)
  }

  /** Typing into the confirmation field, or clicking the final delete button. */
  predicate ConfirmsDeletion(a: UiAction) {
    (a.Fill? && a.target == ConfirmField) || DeletesServer(a)
  }

  /** Checking the servers page neither types a confirmation nor deletes. */
  lemma CheckServersConfirmsNothing(a: UiAction)
    requires a in CheckServers
    ensures !ConfirmsDeletion(a)
  {
  }

  /** The delete step deletes exactly when the server list is non-empty. */
  lemma DeleteOnlyWhenListed(serverName: string, listed: nat)
    ensures (exists a :: a in DeletePlan(serverName, listed) && DeletesServer(a)) <==> listed > 0
    ensures listed == 0 ==> DeletePlan(serverName, listed) == CheckServers
    ensures CheckServers <= DeletePlan(serverName, listed)
  {
    var plan := DeletePlan(serverName, listed);
    if listed > 0 {
      assert plan[8] == Click(ConfirmDeleteButton);
      assert plan[8] in plan && DeletesServer(plan[8]);
    } else {
      assert plan == CheckServers;
    }
  }

  /** Existence is judged by the count alone: the server's name never changes whether the delete happens. */
  lemma DeleteIgnoresName(name1: string, name2: string, listed: nat)
    ensures (exists a :: a in DeletePlan(name1, listed) && DeletesServer(a))
        <==> (exists a :: a in DeletePlan(name2, listed) && DeletesServer(a))
  {
    DeleteOnlyWhenListed(name1, listed);
    DeleteOnlyWhenListed(name2, listed);
  }

  /** The only text the delete step types is the confirmation command for this server, and it types it exactly when deleting. */
  lemma DeleteTypesOnlyConfirmation(serverName: string, listed: nat)
    ensures forall a :: a in DeletePlan(serverName, listed) && a.Fill? ==>
      a.target == ConfirmField && a.text == ConfirmationCommand(serverName)
    ensures Fill(ConfirmField, ConfirmationCommand(serverName)) in DeletePlan(serverName, listed) <==> listed > 0
  {
    var plan := DeletePlan(serverName, listed);
    if listed > 0 {
      assert plan[7] == Fill(ConfirmField, ConfirmationCommand(serverName));
    }
  }

  // ---------------------------------------------------------------------
  // Create (create_new_server, main.py lines 138-171)

  const PrimaryDeployService := Within(ByTestId("empty-list"), Button("Deploy Service"))
  const FallbackDeployService := Button("Deploy Service")
  const ServerNameField := ByPlaceholder("My awesome Server")

  /** The fixed data-centre location chosen for every new server. */
  const Location: string := "Singapore"

  /** The "Deploy Service" click: the primary locator, or the fallback one. */
  function DeployServiceClick(primary: bool): (a: UiAction)
    ensures a.Click?
    ensures a.target == PrimaryDeployService <==> primary
  {
    if primary then Click(PrimaryDeployService) else Click(FallbackDeployService)
  }

  /** Where the "Deploy Service" click sits in the create plan. */
  const DeployServiceIndex: nat := 3

  /** The create step, clicking the primary or the fallback "Deploy Service" button. */
  function CreatePlan(serverName: string, primary: bool): seq<UiAction> {
    [ Click(ByTestId("sidebar-projects-link")),
      Click(Link("Default project")),
      Wait(2000),
      DeployServiceClick(primary),
      Click(Button("Create Server")),
      Click(ByCss("#location-dropdown-invoke")),
      Click(Button(Location + " Select")),
      Fill(ServerNameField, serverName),
      Click(Button("Create Demo Server")),
      Wait(8000) ]
  }

  /**
   * Lines 148-152: the create step runs the plan with the primary button
   * under `run`. If the primary click itself raises, the exception is caught
   * and the step goes on from the fallback click under `fallbackRun`; a raise
   * anywhere else fails the step.
   */
  function CreateAttempt(serverName: string, run: DriverRun, fallbackRun: DriverRun): (a: Attempt)
    ensures var primary := run != RaisesAt(DeployServiceIndex);
      a.performed <= CreatePlan(serverName, primary)
      && (!a.raised ==> a.performed == CreatePlan(serverName, primary))
    ensures run == RaisesAt(DeployServiceIndex) ==>
      a.raised == Execute(CreatePlan(serverName, false)[DeployServiceIndex..], fallbackRun).raised
    ensures run != RaisesAt(DeployServiceIndex) ==> a == Execute(CreatePlan(serverName, true), run)
  {
    if run == RaisesAt(DeployServiceIndex) then
      var fallback := CreatePlan(serverName, false);
      var rest := Execute(fallback[DeployServiceIndex..], fallbackRun);
      assert fallback == fallback[..DeployServiceIndex] + fallback[DeployServiceIndex..];
      assert fallback[..DeployServiceIndex] == CreatePlan(serverName, true)[..DeployServiceIndex];
      Attempt(fallback[..DeployServiceIndex] + rest.performed, rest.raised)
    else
      Execute(CreatePlan(serverName, true), run)
  }

  /**
   * Exactly one "Deploy Service" click is done when the step gets that far:
   * the fallback one only when the primary one raised, and then the step
   * fails only if the fallback path itself raises.
   */
  lemma CreateFallsBack(serverName: string, run: DriverRun, fallbackRun: DriverRun)
    ensures var a := CreateAttempt(serverName, run, fallbackRun);
      (Click(PrimaryDeployService) in a.performed ==> Click(FallbackDeployService) !in a.performed)
      && (Click(FallbackDeployService) in a.performed ==> run == RaisesAt(DeployServiceIndex))
      && (run == RaisesAt(DeployServiceIndex) && fallbackRun == Completes ==>
            !a.raised && Click(FallbackDeployService) in a.performed)
      && (run == Completes ==> !a.raised && Click(PrimaryDeployService) in a.performed)
  {
    var a := CreateAttempt(serverName, run, fallbackRun);
    var primary := run != RaisesAt(DeployServiceIndex);
    var plan := CreatePlan(serverName, primary);
    assert forall x :: x in a.performed ==> x in plan by {
      assert plan == a.performed + plan[|a.performed|..];
    }
    OneDeployServiceClick(serverName, primary);
    if !a.raised {
      assert plan[DeployServiceIndex] in a.performed;
    }
  }

  /** The only "Deploy Service" click in a create plan is the one it was built with. */
  lemma OneDeployServiceClick(serverName: string, primary: bool)
    ensures forall x :: x in CreatePlan(serverName, primary) ==>
      (x == Click(PrimaryDeployService) || x == Click(FallbackDeployService) ==> x == DeployServiceClick(primary))
  {
  }

  /** The only text the create step types is the server name, into the server name field. */
  lemma CreateTypesOnlyName(serverName: string, primary: bool)
    ensures forall a :: a in CreatePlan(serverName, primary) && a.Fill? ==> a == Fill(ServerNameField, serverName)
  {
  }

  /** The create step fills in the server name, whichever button it clicked. */
  lemma CreateNamesServer(serverName: string, primary: bool)
    ensures |CreatePlan(serverName, primary)| == 10
    ensures CreatePlan(serverName, primary)[7] == Fill(ServerNameField, serverName)
    ensures CreatePlan(serverName, primary)[6] == Click(Button(Location + " Select"))
  {
  }

  // ---------------------------------------------------------------------
  // Deploy (deploy_docker_service, main.py lines 173-204)

  const ImageField := ByPlaceholder("docker.io/username/image:tag")
  const EnvField := ByPlaceholder("KEY_1=VALUE_1\nKEY_2=VALUE_2\nKEY_3=VALUE_3")
  const ApplyButton := Button("Apply")
  const DeployButton := ByTestId("deploy-button")

  function DeployPlan(serverName: string, image: string, envBlock: string): seq<UiAction> {
    [ Click(Button(serverName)),
      Click(Button("Registry Deploy a Docker")),
      Fill(ImageField, image),
      Click(Button("From .env file")),
      Fill(EnvField, envBlock),
      Click(ApplyButton),
      Click(DeployButton),
      Wait(5000),
      Wait(8000) ]
  }

  /** The wait before the deploy success line is the eighth call of the deploy plan. */
  lemma DeployWaitBeforePrint(serverName: string, image: string, envBlock: string, n: nat)
    requires n <= |DeployPlan(serverName, image, envBlock)|
    ensures Wait(5000) in DeployPlan(serverName, image, envBlock)[..n] <==> n > 7
  {
    var p := DeployPlan(serverName, image, envBlock);
    if n > 7 {
      assert p[..n][7] == Wait(5000);
    }
  }

  /** The deploy step types the image and the env block into their own fields, and clicks Deploy right after Apply. */
  lemma DeployTypesOnlyConfig(serverName: string, image: string, envBlock: string)
    ensures forall a :: a in DeployPlan(serverName, image, envBlock) && a.Fill? ==>
      (a.target == ImageField && a.text == image) || (a.target == EnvField && a.text == envBlock)
    ensures var p := DeployPlan(serverName, image, envBlock);
      |p| == 9 && p[4] == Fill(EnvField, envBlock) && p[5] == Click(ApplyButton) && p[6] == Click(DeployButton)
  {
  }

  // ---------------------------------------------------------------------
  // Cleanup (main.py lines 86-91)

  const CleanupPlan: seq<UiAction> := [ Close(Page), Close(Context), Close(Browser) ]

  /** Logging in never confirms a deletion. */
  lemma LoginNeverConfirms(username: string, password: string)
    ensures forall a :: a in LoginPlan(username, password) ==> !ConfirmsDeletion(a)
  {
  }

  /** Creating a server never confirms a deletion. */
  lemma CreateNeverConfirms(serverName: string, primary: bool)
    ensures forall a :: a in CreatePlan(serverName, primary) ==> !ConfirmsDeletion(a)
  {
  }

  /** Deploying a service never confirms a deletion. */
  lemma DeployNeverConfirms(serverName: string, image: string, envBlock: string)
    ensures forall a :: a in DeployPlan(serverName, image, envBlock) ==> !ConfirmsDeletion(a)
  {
  }
}
