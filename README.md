# Bubble Protocol todo list: sessions, task lists and the application controller

This project models the core of the Bubble Protocol "todo list" example app in Dafny:

- **Session** (`Sessions` module, `session.dfy`). A per-account session keeps a signing key and the id of its off-chain bubble in local storage. Its `initialise` provisions the session in stages, saving after each stage:
  1. create a key;
  2. deploy the bubble's contract through the wallet;
  3. create the bubble on the bubble host.

  It then loads the task list. A session restored from local storage after a failure resumes at the first stage whose result was not saved (`Sessions.RetryResumes`). A retry on the same session object differs: it skips a bubble creation that failed, as described below.
- **TaskList** (`Tasks` module, `tasklist.dfy`). A task list is an in-memory cache of tasks mirrored in one bubble, one file per task. The file is named by the hash of the task's initial content. The task list creates the bubble and loads it (list, read, then sort by creation time). It also creates, toggles and deletes tasks.
- **TodoListApp** (`TodoApp` module, `app.dfy`). The application controller runs the same staged provisioning on its own fixed local-storage item and a fixed bubble host. It caches tasks directly, and every change visible to the interface goes out as a dispatch to the state manager (state, error, or the task list).
- **Shared values** (`Common` module, `common.dfy`). These are the values the other three share: the saved record, the bubble id, and the environment.

How the outside world is represented:

- **Calls.** Everything that leaves the process is a `Call`, issued through `Common.Environment.Invoke`. That covers `localStorage.setItem`, wallet connection, contract deployment, and bubble create/list/read/write/delete. `Invoke` appends the call to a log and applies its effect to a local-storage map.
- **Replies are inputs.** The replies of the wallet and the bubble host are parameters of the operation that issues the call: `Outcome`/`Result` values, or a `reader` function giving each file's parsed content. So are the key a new session generates, the clock (`now`) and the content hash (`hash`).
- **Tasks are objects.** A task is a `Tasks.Task` object whose `done` field is flipped in place. The cache and the caller share the same task objects, as the source does.
- **JavaScript truthiness.** This is modelled explicitly. `Common.Truthy` holds for a string that is present and not empty. `isNew` tests for `undefined`, while the provisioning stages test truthiness, and the model keeps the two apart.
- **Promise ordering.** Concurrent promise chains are modelled as sequential steps. `Promise.all` over the file reads becomes reads issued in listing order, stopping at the first failure.

The model follows the code, which behaves as follows:

- **A load is not all-or-nothing.** Tasks read before a failing read stay in the cache, and the cache is sorted only when every read succeeds.
- **A failed initialisation never returns the controller to `new`.** It always moves it to `failed`, whether or not a contract exists.
- **The controller's load does not sort, clear or de-duplicate the cache.** So a `createTodoList` retry after a partial or complete load appends the same tasks again (`TodoApp.TodoListApp.Initialise`: the cache becomes the old cache followed by the tasks loaded).
- **A failed bubble creation is not retried in place.** The provider is set in memory before the bubble is created, but saved only after the creation succeeds. A retry on the same session or controller therefore skips the creation and issues no call before the load. A session restored from local storage has no provider and creates the bubble (`Sessions.FailedCreateDivergence`, `TodoApp.AppFailedCreateNotRetried`).
- **The controller differs from a session in six ways:**
  - Its save adds no version. The record carries whatever version the loaded session had, and none for a session it created.
  - Its load does no version migration. A record without a version keeps its bubble id, where a session drops it (`TodoApp.LoadedSession` against `Sessions.Restored`).
  - A session without a key is replaced by one holding only a new key, dropping any recorded bubble id. This forces a redeployment.
  - The contract is always deployed on the fixed chain `CHAIN`.
  - The bubble is always reached at the fixed provider URL.
  - The bubble is created without `{silent: true}`.

## Model

| member | source | states |
|---|---|---|
| Tasks.FetchAll | src/model/TaskList.js:58-66 | reading the listed files yields, in listing order, each file's name and content up to the first failing read; the load succeeds iff every read does, and otherwise fails with that read's error |
| Tasks.FetchAllStopsAtFirstFailure | src/model/TaskList.js:59-66 | when the first k reads succeed and read k fails (or k is the whole listing), exactly k entries are read and k+1 reads (or k) are issued |
| Tasks.Without | src/model/TaskList.js:99 | the filter keeps only tasks of the cache whose file id differs, each with its original multiplicity, and never grows the cache |
| Tasks.WithoutAppend | src/model/TaskList.js:99 | filtering distributes over concatenation, so kept tasks keep their relative order |
| Tasks.WithoutAbsent | src/model/TaskList.js:99 | deleting a file id no cached task has leaves the cache unchanged |
| Tasks.InsertByCreated | src/model/TaskList.js:67 | inserting a task into a cache sorted by creation time keeps it sorted, and adds exactly that task |
| Tasks.SortByCreated | src/model/TaskList.js:67 | the sorted cache is ascending by creation time and a permutation of the unsorted one |
| Tasks.FetchTasks | src/model/TaskList.js:59-66 | the reads issued are exactly those up to the first failure; one new task per file read, carrying the file name and the content read; the outcome is `FetchAll`'s |
| Tasks.MergedSilent | src/model/TaskList.js:48 | the options always carry `silent`: the caller's value when given, and `true` otherwise |
| Tasks.Task.constructor | src/model/TaskList.js:75-80 | a task holds its file id and exactly the given creation time, text and `done` flag |
| Tasks.TaskList.constructor | src/model/TaskList.js:37-42 | a task list on the given bubble, with an empty cache |
| Tasks.TaskList.Create | src/model/TaskList.js:47-49 | creation sends `silent: true` unless the caller's options override it; the outcome is the host's reply |
| Tasks.TaskList.Initialise | src/model/TaskList.js:54-69 | one listing then the reads; on success the cache is sorted and is a permutation of the old cache plus the loaded tasks; on failure the loaded tasks stay appended, unsorted |
| Tasks.TaskList.CreateTask | src/model/TaskList.js:74-83 | a task created at `now`, not done, is written under the hash of its content and appended only after the write succeeds |
| Tasks.TaskList.ToggleTask | src/model/TaskList.js:88-91 | `done` is flipped in place before the write, whatever the write's outcome, and the task is rewritten under its file id |
| Tasks.TaskList.DeleteTask | src/model/TaskList.js:96-100 | the file is deleted, and only on success are the tasks with its file id dropped from the cache |
| Tasks.TaskList.SaveTask | src/model/TaskList.js:105-109 | every field but the file id is written to the file named by the file id |
| Sessions.Persisted | src/model/Session.js:182-189 | the saved record carries version 2, and restoring it gives back the same key and bubble id |
| Sessions.Restored | src/model/Session.js:163-177 | an absent record gives an empty session; a record without a version loses its bubble id; a truthy key is rebuilt and a falsy one is absent |
| Sessions.IsNew | src/model/Session.js:156-158 | a session that is new must deploy; one that is not has a contract address recorded, possibly empty |
| Sessions.NeedsDeploy | src/model/Session.js:80 | deployment is needed iff no bubble id is recorded or its contract address is absent or empty |
| Sessions.NeedsCreate | src/model/Session.js:96 | creation is needed iff the recorded provider is absent or empty |
| Sessions.Provision | src/model/Session.js:69-107 | an existing key is kept and a missing one becomes the new key; a task list is built iff the contract stage succeeds or is skipped, on the bubble id then held; provisioning passes only if one is built |
| Sessions.DeployStage | src/model/Session.js:80-107 | a failed deployment ends the attempt with the state unchanged; otherwise a truthy contract is recorded and the bubble is the recorded id |
| Sessions.BubbleStage | src/model/Session.js:96-107 | the key, chain and contract are kept, and the task list's bubble is the bubble id recorded in memory; with no provider recorded, the configured provider is set in memory, the bubble is created with `silent` merged in, and the stage settles exactly as the creation does, so a refused creation fails the attempt, and a successful one is followed by a save of the session with its provider as the last call; with a provider recorded, the stage passes with no call and no change |
| Sessions.ProvisionDeploysWhenMissing | src/model/Session.js:80-94 | whenever no truthy contract is recorded, a deployment with the session's key on the configured chain is issued, whatever the wallet replies; otherwise no deployment is issued |
| Sessions.IsNewVersusNeedsDeploy | src/model/Session.js:156-158 | a new session always redeploys, and the two tests differ exactly when the recorded contract address is empty |
| Sessions.ProvisionPassComplete | src/model/Session.js:69-111 | successful provisioning leaves a key, a truthy contract and a truthy provider, and the task list's bubble is the recorded id at the recorded provider |
| Sessions.ProvisionBuildsOnRecordedBubble | src/model/Session.js:96-107 | the task list is built iff the contract stage succeeded or was skipped, on the bubble id the session then holds |
| Sessions.ProvisionKeepsKey | src/model/Session.js:73-78 | an existing key is never replaced; a missing one is replaced by the new key, saved first |
| Sessions.ProvisionNoRedeploy | src/model/Session.js:80-94 | with a truthy contract address no deployment is issued, and chain and address are kept |
| Sessions.ProvisionedGoesStraightToLoad | src/model/Session.js:69-111 | a fully provisioned session issues no call before loading and keeps its state |
| Sessions.ProvisionRecordsDeployment | src/model/Session.js:80-103 | a deployment is issued on the configured chain by the session's key, and the bubble id becomes that chain, the new address and the configured provider |
| Sessions.ProvisionSavedState | src/model/Session.js:69-111 | after any attempt, local storage restores the key and contract held in memory; the provider too, unless creating the bubble failed, in which case the restored provider is falsy |
| Sessions.RetryResumes | src/model/Session.js:69-111 | a retry from what was saved never generates a second key, and never redeploys a contract the first attempt deployed |
| Sessions.FailedCreateDivergence | src/model/Session.js:96-103 | after a failed creation the provider is set in memory; a retry on the same session issues no creation, while a session restored from local storage starts with one |
| Sessions.LegacyRecordRedeploys | src/model/Session.js:167-175 | a record saved before versioning keeps its key but its first call is a new deployment by that key |
| Sessions.Session.constructor | src/model/Session.js:43-54 | the session's state is the one restored from its local-storage item |
| Sessions.Session.LoadState | src/model/Session.js:163-177 | the in-memory state becomes the restored state |
| Sessions.Session.SaveState | src/model/Session.js:182-189 | the persisted record is written under the session id |
| Sessions.Session.IsNewSession | src/model/Session.js:156-158 | true means the contract must be deployed; false means a contract address is recorded, possibly empty |
| Sessions.Session.Initialise | src/model/Session.js:69-111 | the state, calls and local storage are those of `Provision`; the task list exists once the bubble stage is reached, even if creation fails; once provisioning passes, the load follows, with its calls, the tasks it read, and a sorted cache on success |
| Sessions.Session.Provisioned | src/model/Session.js:73-107 | the stages before the load leave the state, calls and local storage of `Provision`, and a fresh, empty task list on its bubble when one is reached |
| Sessions.Session.ProvisionContract | src/model/Session.js:73-94 | the key and contract stages end in the provisioning's failure, or in the state the bubble stage starts from |
| Sessions.Session.EnsureKey | src/model/Session.js:73-78 | a missing key becomes the new key and is saved; an existing one is kept and nothing is issued |
| Sessions.Session.DeployContract | src/model/Session.js:80-94 | with no contract recorded, the deployment by the session's key and the save of its address; the outcome is that of `DeployStage` |
| Sessions.Session.BuildTaskList | src/model/Session.js:96-107 | the bubble stage: a fresh, empty task list on the session's bubble, with creation and save when no provider is recorded |
| Sessions.Session.CreateTask | src/model/Session.js:116-119 | rejects with "session not initialised" and issues nothing when there is no task list; otherwise writes the new content under its hash and, on success, appends one new task with that file id and content |
| Sessions.Session.ToggleTask | src/model/Session.js:124-127 | as above; without a task list `done` is left unchanged |
| Sessions.Session.DeleteTask | src/model/Session.js:132-135 | as above, with the task list's filter on success |
| Sessions.Session.GetTasks | src/model/Session.js:140-143 | rejects iff there is no task list; otherwise the task list's cache |
| Sessions.Session.GetBubbleId | src/model/Session.js:148-151 | rejects iff there is no task list; otherwise the id of its bubble |
| TodoApp.Prefixed | src/model/App.js:56 | the message is the prefix followed by the original message |
| TodoApp.LoadedSession | src/model/App.js:185-190 | an absent record gives an empty session; a record keeps its version and bubble id as stored (no migration), and a truthy key is rebuilt |
| TodoApp.SavedSession | src/model/App.js:192-196 | the saved record adds no version, and loading it gives back the same session |
| TodoApp.AppProvision | src/model/App.js:129-166 | a keyed session keeps its key and any other gets the new one; the bubble is reached iff a kept session records a contract or the deployment succeeds, always at the fixed provider; provisioning passes only if it is reached |
| TodoApp.AppDeployStage | src/model/App.js:137-166 | a failed deployment ends the attempt with the session unchanged; otherwise a truthy contract is recorded and the bubble is the recorded id at the fixed provider |
| TodoApp.AppBubbleStage | src/model/App.js:153-166 | key, version, chain and contract are kept; the provider is set in memory even if creation fails; with no provider recorded, the bubble is created at `BUBBLE_PROVIDER` with no options and the stage settles exactly as the creation does, so a refused creation fails the attempt and only that fails it, and a successful one is followed by a save of the session with its provider as the last call; with a provider recorded, the stage passes with no call and no change |
| TodoApp.AppDeploysWhenMissing | src/model/App.js:137-151 | whenever the session has no key or no truthy contract is recorded, a deployment on `CHAIN` with the session's key is issued, whatever the wallet replies |
| TodoApp.Settled | src/model/App.js:114-122 | initialisation succeeds iff provisioning passes, the listing succeeds and every listed file reads; a provisioning failure is its outcome |
| TodoApp.InitialiseDispatches | src/model/App.js:112-123 | initialisation dispatches `initialising` first; it ends in `initialised` iff it succeeded; on failure the error is dispatched and the task list is not |
| TodoApp.AppProvisionKeepsKey | src/model/App.js:129-135 | an existing key (and version) is kept; without one the first call saves a record holding only the new key |
| TodoApp.AppKeylessSessionRedeploys | src/model/App.js:129-151 | a session without a key deploys a new contract even if a contract address was recorded |
| TodoApp.AppProvisionNoRedeploy | src/model/App.js:137-151 | with a key and a truthy contract address no deployment is issued and the address is kept |
| TodoApp.AppProvisionBubble | src/model/App.js:153-166 | success leaves a key, a contract and a provider; the bubble is always at the fixed provider URL and is created without options |
| TodoApp.AppProvisionSavesNoNewVersion | src/model/App.js:192-196 | every save goes to the fixed item, carries the session's own version (none unless loaded) and its key |
| TodoApp.AppFailedCreateNotRetried | src/model/App.js:156-163 | after a failed creation the provider is in memory but in no record saved, and a retry on the same controller issues no call before the load |
| TodoApp.AppProvisionSavedState | src/model/App.js:125-166 | after any attempt, local storage reloads the key and contract held in memory; the provider too once the creation succeeded, since it is saved right after; when the creation failed, the provider reloaded is falsy |
| TodoApp.AppBubbleStageSaved | src/model/App.js:153-166 | the same for the bubble stage alone: a successful creation is saved with its provider, a refused one leaves local storage with a falsy provider |
| TodoApp.AppRetryResumes | src/model/App.js:60-65 | a `createTodoList` retry keeps the key and does not redeploy a contract deployed by the failed attempt |
| TodoApp.TodoListApp.constructor | src/model/App.js:24-46 | the controller starts closed, with no session, no bubble, no tasks and nothing dispatched |
| TodoApp.TodoListApp.SetState | src/model/App.js:198-201 | the state is set and dispatched, stamped with the current call count |
| TodoApp.TodoListApp.Emit | src/model/App.js:200 | one dispatch is appended to the log, stamped with the number of calls issued so far |
| TodoApp.TodoListApp.LoadState | src/model/App.js:185-190 | the session becomes the one loaded from the fixed item |
| TodoApp.TodoListApp.SaveState | src/model/App.js:192-196 | the saved session is written under the fixed item |
| TodoApp.TodoListApp.ConnectWallet | src/model/App.js:48-58 | a failed connection dispatches the prefixed error and loads nothing; otherwise the session is loaded and either reported `new`, or (when a bubble id is recorded) initialised, with the session, bubble, cache, calls and local storage of `AppProvision` and the load; `initialising` is dispatched right after the connection call and before any provisioning call |
| TodoApp.TodoListApp.Connected | src/model/App.js:50-54 | the connection's handler: the session is loaded from the fixed item and reported `new` with no call, or initialised with `initialising` dispatched before any call |
| TodoApp.TodoListApp.CreateTodoList | src/model/App.js:60-65 | the session, bubble, cache, calls and local storage are those of `AppProvision` and the load, and it dispatches exactly what initialisation dispatches, `initialising` before any call: initialisation never rejects, so its catch adds nothing |
| TodoApp.TodoListApp.InitialiseSession | src/model/App.js:112-123 | the session, bubble, cache, calls and local storage are those of `AppProvision` and the load; the state ends `initialised` or `failed` as initialisation settles, with the dispatches of `InitialiseDispatches`; `initialising` is stamped with the call count on entry, so it precedes every provisioning call, and the later dispatches follow every call |
| TodoApp.TodoListApp.ReportSettled | src/model/App.js:115-122 | success reports `initialised`; failure reports `failed` and then the error; each is stamped with the current call count |
| TodoApp.TodoListApp.Initialise | src/model/App.js:125-183 | session, calls and local storage follow the provisioning stages; the bubble is kept even if creation fails; on reaching the load, loaded tasks are appended to the cache unsorted, and the cache is dispatched only if every read succeeded |
| TodoApp.TodoListApp.ProvisionContract | src/model/App.js:129-151 | the key and contract stages end in the provisioning's failure, or in the state the bubble stage starts from |
| TodoApp.TodoListApp.EnsureKey | src/model/App.js:129-135 | with no session or no key the session becomes one holding only the new key, and is saved; otherwise nothing changes |
| TodoApp.TodoListApp.DeployContract | src/model/App.js:137-151 | with no contract recorded, the deployment on `CHAIN` and the save of its address; the outcome is that of `AppDeployStage` |
| TodoApp.TodoListApp.BuildBubble | src/model/App.js:153-166 | the bubble stage, with creation without options and a save when no provider is recorded |
| TodoApp.TodoListApp.LoadTasks | src/model/App.js:168-181 | one listing then the reads; the loaded tasks are appended and the cache is dispatched only when the load succeeds |
| TodoApp.TodoListApp.NewTask | src/model/App.js:67-82 | a missing bubble or failed write dispatches the prefixed write error and leaves the cache; a successful write appends the new task and dispatches the cache |
| TodoApp.TodoListApp.ToggleTask | src/model/App.js:84-93 | `done` stays flipped whatever happens; the write outcome decides between dispatching the cache and the prefixed write error |
| TodoApp.TodoListApp.DeleteTask | src/model/App.js:95-104 | with no bubble it rejects and dispatches nothing; otherwise the delete is issued, the call settles successfully, and either the filtered cache or the prefixed delete error is dispatched |
| TodoApp.TodoListApp.SaveTask | src/model/App.js:106-110 | the write of every field but the file id, or a rejection when there is no bubble |

## Left out

- Tasks.FetchTasks: reads are issued one at a time in listing order and the first failure stops the load. In the source all reads are in flight at once, every successful read is still appended (in completion order, possibly after the rejection), and the load rejects with the first failure to settle.
- Tasks.TaskList.Initialise: inherits the sequential reads of `FetchTasks`. The stability of the sort is not stated.
- TodoApp.TodoListApp.LoadTasks: inherits the sequential reads of `FetchTasks`.
- TodoApp.TodoListApp.ConnectWallet: initialisation is modelled as completing before the operation returns. In the source it is started without being awaited, so the operation's promise settles first.
- TodoApp.UndefinedBubble: the text of the engine's error for a missing bubble is engine-specific; the model fixes one text.
- Sessions.Session.CreateTask, Sessions.Session.ToggleTask, Sessions.Session.DeleteTask, Sessions.Session.GetTasks, Sessions.Session.GetBubbleId: the source rejects with a bare string, not an error object. The model wraps it in `Error`.
- Sessions.ProvisionPassComplete: assumes a non-empty configured provider URL. With an empty one, every attempt creates the bubble again.
- Sessions.ProvisionPassComplete, TodoApp.AppProvisionBubble: the wallet's reply to a deployment is taken to be a non-empty address (`Common.DeployedAddress`), and their truthy-contract conclusions rest on that. An empty address would be recorded and deployed over on the next attempt.
- TodoApp.TodoListApp.DeleteTask, Sessions.Session.GetTasks: a task list that is dispatched or returned is a value, a snapshot of the cache. In the source, the delete handler dispatches the live cache array (`src/model/App.js:99`), and later pushes to the cache (`src/model/App.js:76`, `src/model/App.js:175`) change what was dispatched. `getTasks` likewise returns the task list's live array (`src/model/Session.js:142`).
- TodoApp.TodoListApp.ConnectWallet, Sessions.Session.constructor: only a well-formed stored record with an acceptable key is modelled, since local storage is a map from names to records. In the source, `JSON.parse` of a malformed item (`src/model/Session.js:165`, `src/model/App.js:187`) or `new ecdsa.Key` on an unacceptable key (`src/model/Session.js:175`, `src/model/App.js:188`) throws: the session constructor then throws, and `connectWallet`'s handler fails, so the controller dispatches the prefixed "Could not connect wallet" error instead of loading a session (`src/model/App.js:49-57`).
- Key generation, hashing, the clock and JSON parsing are inputs. A fresh key is a parameter, the content hash is a function parameter, `Date.now` is `now`, and a file that fails to decrypt or parse is a failing read.
- Encryption and the bubble protocol itself (content ids, signing, the HTTP provider) are left out, because they are library code. A bubble is its id and the host URL its requests go to.
- The wallet (`src/model/Wallet.js`) and the MetaMask wallet are left out. Connecting and deploying are calls whose replies are inputs, and the chain is its id.
- The state manager's `register`/subscribe machinery and the UI are left out. Dispatches are an append-only log on the controller, each stamped (in the ghost field `stamps`) with the number of calls issued before it, which orders dispatches against calls.
- JSON `null` values in saved records are not modelled. A field is present (possibly empty) or absent.
- The argument checks of the `Session` constructor and the content-id check of the `TaskList` constructor are expressed by the parameter types.
- Console tracing is left out.
