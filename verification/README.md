# Sliplane redeploy script, modelled in Dafny

`main.py` is a browser-automation script. It logs in to the Sliplane hosting
dashboard, deletes the existing server, creates a new one in Singapore and
deploys a Docker image onto it. Once the browser is launched and a page is
open (main.py:25-26, 39), every failure is caught and logged and the script
runs to the end. This project models three parts of it.

- **Configuration** (`environ.dfy`, `credentials.dfy`, `env_block.dfy`, `settings.dfy`):
  - `GT_PW` is split into a GitHub user and password, with Python's exact
    `str.split()` whitespace set. Fewer than two tokens give two empty strings.
  - The `ENVSET` block has each literal backslash-n turned into a line break.
  - `SERVER_NAME` defaults to `"ss"`, and `ENVSET` to a single line break.
- **Browser steps** (`steps.dfy`): login, delete, create, deploy and cleanup.
  - Each step is a fixed plan of driver calls. The plan depends only on the
    step's arguments and on the number of server lists the page shows.
  - The driver either completes a plan or raises at one call. The calls
    before that one have happened; the rest have not.
  - Every Playwright call can raise, the fixed waits and the count included.
    A wait between two calls is folded into the call after it, because a raise
    in either leaves the same calls done and ends the step the same way. The
    waits that end a step, and the wait in front of the guarded "Deploy
    Service" click, are calls of their own (`Wait`); so is the count of server
    lists (`Count`).
  - The create step clicks the primary "Deploy Service" locator. If that click
    raises, the handler at main.py:150-152 clicks the fallback locator and the
    step goes on from there under a driver run of its own.
- **Run control** (`workflow.dfy`, `run_properties.dfy`):
  - `run` is a pure function. Its inputs are the settings (loaded from the
    environment by `Settings.Load`), the cookie file as found, and every answer
    the driver and the platform gave.
  - Its result is the ordered trace of events and the cookie file as left.
  - The log lines that mark a branch are events: cookies loaded or not, the
    password login started, succeeded or failed, cookies saved, each step's
    start and outcome, and a cleanup failure. Every completed driver call is an
    event too. The other log lines are listed under "Left out".

The driver, the file system and the process environment are parameters. The
project contains no I/O.

## Model

| member | source | states |
|---|---|---|
| Strings.ContainsIffOccurs | main.py:48 | Python's substring test `p in s` holds exactly when `p` occurs in `s` at some offset |
| Credentials.TrimStart | main.py:9 | `lstrip()` removes exactly the leading whitespace: what it drops is all whitespace and what it keeps does not start with whitespace |
| Credentials.TrimEnd | main.py:9 | `rstrip()` removes exactly the trailing whitespace: what it drops is all whitespace and what it keeps does not end with whitespace |
| Credentials.Strip | main.py:9 | `strip()` never lengthens its input and leaves no whitespace at either end |
| Credentials.StripKeepsMiddle | main.py:9 | `strip()` keeps a contiguous middle part of the input, unchanged, starting where `lstrip()` stops |
| Credentials.StripDropsOnlySpace | main.py:9 | everything `strip()` cuts off either end of the input is whitespace |
| Credentials.Tokens | main.py:9 | `split()` yields only non-empty, whitespace-free words |
| Credentials.TokensKeepAllText | main.py:9 | `split()` drops only whitespace: the tokens glued back together are the input without its whitespace characters |
| Credentials.TokensOfJoin | main.py:9 | joining whitespace-free words with single spaces and splitting again gives back exactly those words, in order |
| Credentials.TokensSkipSpaces | main.py:9 | any run of whitespace in front of a string leaves its split unchanged |
| Credentials.TokensWordThen | main.py:9 | a word at the end of the string or followed by whitespace is the next token |
| Credentials.TokensOfSeparatedWord | main.py:9 | a word followed by any non-empty run of whitespace (spaces, tabs, line breaks, other Unicode spaces) is split off as one token |
| Credentials.StripKeepsTokens | main.py:9 | the `strip()` before `split()` never changes the tokens |
| Credentials.ParseCredentials | main.py:9-16 | the user name is empty exactly when the password is; when set, both are whitespace-free words |
| Credentials.ParseTakesFirstTwoTokens | main.py:9-12 | with two or more tokens, user and password are the first and second token and the rest is ignored |
| Credentials.ParseTooFewTokens | main.py:13-16 | with fewer than two tokens, or with `GT_PW` unset, both fields are the empty string |
| Credentials.WarnsExactlyWhenAnonymous | main.py:9-16 | the warning branch is taken exactly when the credentials come out as two empty strings, so the settings alone tell whether it was printed |
| Credentials.ParseRoundTrip | main.py:9-12 | `"<user> <password> [extra ...]"` parses back to that user and password |
| Credentials.ParseSeparatedPair | main.py:9-12 | user and password surrounded and separated by any whitespace runs parse back to that user and password |
| EnvBlock.ReplaceEscapesLength | main.py:24 | each escape shrinks to one character and every other character is kept |
| EnvBlock.ReplaceEscapesRemovesAll | main.py:24 | no literal backslash-n is left after the replacement |
| EnvBlock.ContainsEscapeIff | main.py:23 | the guard `'\\n' in s` holds exactly when some offset starts an escape |
| EnvBlock.Normalize | main.py:22-24 | the guarded replacement leaves no escape and shortens the block by one character per escape |
| EnvBlock.NormalizeIsReplace | main.py:23-24 | the guard only skips a no-op: the result always equals the unguarded replacement |
| EnvBlock.ReplaceEscapesKeepsFree | main.py:24 | a block without the escape passes through unchanged |
| EnvBlock.NormalizeIdempotent | main.py:23-24 | normalising an already normalised block changes nothing |
| EnvBlock.ReplaceEscapesAppend | main.py:24 | the replacement works piecewise over a concatenation that does not split an escape |
| EnvBlock.NormalizeSplitsLines | main.py:20-24 | escape-free lines joined by the escape come out joined by real line breaks, each unchanged and in order |
| Settings.Load | main.py:9-24 | credentials come from `GT_PW`; image, server name and env block take the given value or the defaults `""`, `"ss"` and one line break; the env block never holds an escape and is one character shorter per escape |
| Settings.LoadKeepsPlainEnvBlock | main.py:20-24 | an `ENVSET` without the escape is used verbatim |
| Settings.LoadSplitsEnvLines | main.py:20-24 | an `ENVSET` of escape-separated lines becomes the lines separated by line breaks |
| Steps.Execute | main.py:70-83 | a step whose driver raises keeps exactly the calls before the raising one and reports a failure; otherwise every call runs |
| Steps.LoginTypesOnlyCredentials | main.py:93-108 | the login plan types the user name and the password, each into its own field and nothing else, and clicks "Sign in" only after both |
| Steps.ConfirmationCommand | main.py:131 | the confirmation text is `"sudo rm -f "` followed by exactly the server name |
| Steps.DeleteOnlyWhenListed | main.py:110-136 | the delete plan always navigates to the servers page and counts the lists; it clicks the final delete button exactly when the count is positive, and with none it does nothing else |
| Steps.DeleteIgnoresName | main.py:119-122 | whether a deletion happens does not depend on the server name, only on the count |
| Steps.DeleteTypesOnlyConfirmation | main.py:122-132 | the only text the delete step types is the confirmation command, and it types it exactly when a list is shown |
| Steps.CreateAttempt | main.py:138-171 | the create step does a prefix of the plan with the primary button, or, when the primary click raised, of the plan with the fallback button; a raise at the primary click alone never fails the step |
| Steps.CreateFallsBack | main.py:147-152 | at most one "Deploy Service" locator is clicked; the fallback only after the primary raised, and then a fallback path that completes makes the step succeed |
| Steps.OneDeployServiceClick | main.py:147-152 | the only "Deploy Service" click in a create plan is the locator it was built with |
| Steps.CreateTypesOnlyName | main.py:164-165 | the only text the create step types is the server name, into the server-name field |
| Steps.CreateNamesServer | main.py:158-165 | the create plan picks Singapore and then fills in the server name, whichever button it clicked |
| Steps.DeployTypesOnlyConfig | main.py:173-204 | the deploy plan types only the image and the env block, each into its own field, and clicks Deploy right after Apply, which follows the env block |
| Workflow.LoadCookies | main.py:28-37 | a missing file logs nothing; an unreadable file or rejected cookies log a load failure; otherwise the cookies are loaded |
| Workflow.LoginEnding | main.py:55-67 | a success is logged exactly when the redirect reached the app; the cookie file changes only then, and only if the save got as far as opening it |
| Workflow.PasswordLogin | main.py:50-67 | the password login starts with its log line, logs a success exactly when its plan completed and reached the app, and changes the cookie file only then |
| Workflow.Authenticate | main.py:41-67 | the session phase changes the cookie file only after a needed password login that reached the app and a save that opened the file |
| Workflow.SessionEventKinds | main.py:41-67 | the session phase only performs probe and login calls, starts the login, logs its success or failure and saves cookies |
| Workflow.Wrapped | main.py:69-83 | a wrapped step logs its start, then each call it completed in order, then one outcome that is a success exactly when nothing raised |
| Workflow.CleanupEvents | main.py:85-91 | a cleanup failure is logged exactly when a close raised, as the last cleanup event; otherwise the last event is the browser close |
| Workflow.Run | main.py:28-91 | every run ends with the browser closed or the cleanup failure logged, and leaves the cookie file as found unless a fresh login reached the app and its save opened the file |
| RunProperties.StepsRunOnceInOrder | main.py:69-83 | delete, create and deploy each start once, in that order, and each logs one outcome that depends only on its own driver runs |
| RunProperties.DeployedLineLogged | main.py:200-204 | the deploy success line is logged exactly when the wait before it completed, and a raise in the wait after it logs the line and then fails the step |
| RunProperties.PrimaryMissFallsBack | main.py:147-152 | in a whole run, a raise at the primary "Deploy Service" click leaves the create outcome to the fallback path; when that completes, the step succeeds having clicked only the fallback button |
| RunProperties.SessionLogsLogin | main.py:41-67 | within the session phase, the login starts exactly when the probe completed on a URL without "/app", and succeeds exactly when that login then reached "/app" |
| RunProperties.LoginIffProbeLacksApp | main.py:41-53 | in the whole run, the password login starts if and only if the probe completed on a URL without "/app" |
| RunProperties.LoginSuccessLogged | main.py:55-65 | in the whole run, a login success is logged exactly when a fresh login reached "/app", so a save that could not open the file is told apart from a missed redirect |
| RunProperties.SessionMissLogged | main.py:44-67 | within the session phase, a failure directly after the login plan's closing wait is logged exactly when a needed login completed its plan and missed "/app" |
| RunProperties.RedirectMissLogged | main.py:53-64 | in the whole run, `LoginFailed` directly follows the login plan's closing wait exactly when the redirect missed "/app"; a probe or login raise never produces that pair |
| RunProperties.ValidSessionIsKept | main.py:43-49 | when the probe completes inside the app, the session phase is just the probe and keeps the cookie file |
| RunProperties.ValidSessionSkipsLogin | main.py:47-49 | when the probe lands in the app, the run starts no login, types no credentials and leaves the cookie file unchanged |
| RunProperties.PasswordLoginSaves | main.py:55-62 | the password login saves the browser's cookies once, exactly when it reached "/app" and the file was written |
| RunProperties.SessionSaves | main.py:41-67 | the session saves the browser's cookies once, exactly when a needed fresh login reached "/app" and the file was written |
| RunProperties.RunSavesInSession | main.py:28-91 | no phase but the session saves cookies |
| RunProperties.CookiesSavedOnlyAfterFreshLogin | main.py:55-65 | the run saves cookies at most once, only after a fresh login reached "/app"; the cookie file changes only then, and becomes unreadable if the dump is cut short |
| RunProperties.OnlyDeleteStepConfirms | main.py:69-91 | an action that confirms a deletion comes from the delete step's own plan |
| RunProperties.DeleteConfirmsOnlyListedServer | main.py:119-132 | anything typed into the confirmation field is `"sudo rm -f "` plus the configured name, and nothing is deleted unless a server list was shown |
| RunProperties.ListedServerIsDeleted | main.py:122-132 | when a list is shown and the driver does not fail, the confirmation is typed and the delete button clicked |
| RunProperties.EmptyListDeleteIsNoOp | main.py:110-136 | with no server list, nothing confirms a deletion, and the delete step succeeds unless the navigation or the count raised |
| RunProperties.CleanupFailureLoggedLast | main.py:85-91 | a cleanup failure is logged exactly when closing raises, and it is the last event of the run |
| RunProperties.CleanupChangesNothingElse | main.py:85-91 | what the cleanup does never changes the cookie file, the steps started or their outcomes |
| RunProperties.CreateThenDeployOrder | main.py:75-83 | when create and deploy go through, the server is named right after the location is picked, and later the env block is filled, then Apply, then Deploy are clicked |
| RunProperties.DemoSettings | main.py:18-24 | `DOCKER=nginx:latest`, `SERVER_NAME=demo1` and `ENVSET=A=1\nB=2` (with a literal backslash-n) load as that image, that name and the two lines `A=1` and `B=2` |
| RunProperties.DemoDeployment | main.py:158-201 | in that configuration, a run whose create and deploy steps go through picks Singapore, names the server `demo1`, and then fills in the two env lines before clicking Apply and Deploy |

## Left out

- Playwright itself is not modelled: locators and page loads. Each step is a list of driver calls, and the driver's behaviour is an input that says whether the plan completes or at which call it raises. The create step has a second such input for the path after the fallback click.
- Reading and writing `sliplane_cookies.json` are inputs. The file is missing, unreadable, or holds cookies. A dump cut short after the file was truncated leaves it unreadable.
- `os.environ` is an input: each variable is unset or holds a string.
- Launching the browser and opening the page (main.py:25-26, 39) and the entry point (main.py:206-208) are left out. The model assumes the browser setup succeeds: lines 25-26 and 39 are outside every `try`, so a raise there would end `run` before the session phase and the three steps, and no trace of the model describes that.
- The deploy step re-reads `SERVER_NAME` (main.py:177). It uses the same default `"ss"` as line 19 and the environment does not change during a run, so the model passes the configured name.
- What the servers page shows is reduced to the number of `servers-list` elements (main.py:120). Which server the menu button then opens is the platform's business.
- The log lines are events, not text. These have no event of their own because the trace already determines them: the warning at main.py:14 (decided by the settings, not the trace: the credentials are the two empty strings, `WarnsExactlyWhenAnonymous`), the progress lines at 43, 112, 140 and 175, the cookie-login line at 49 (the probe completed and no login started), the redirect-miss line at 64 (a `LoginFailed` directly after `Did(Wait(10000))`, the login plan's last call, `RedirectMissLogged`), the success lines at 134, 136 and 171 (the step's outcome, with the delete plan's final click telling 134 from 136), and the deploy success line at 203 (a `Did(Wait(5000))` among the deploy events, printed before the last wait, so the step may still fail after it, `DeployedLineLogged`).
- The text of the exception in each failure log line is not modelled.
- Settings.Load: besides the escape-free env block and its length, its ensures state the defaults and value pass-through that lines 18-21 promise. The exact content of the env block is stated by `LoadKeepsPlainEnvBlock` and `LoadSplitsEnvLines`.
