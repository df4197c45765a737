# Push task model

A Dafny model of `PushTask`, the unit of work in the Garden deployment
orchestrator that publishes a module through the active provider. The model
covers the following:

- how a task is created. The factory first records the module's version in
  the caller's arguments. Only then is the object built, so a task never
  exists without a version.
- its dependency rule. There is no dependency when `allowPush` is off.
  Otherwise there is exactly one: a build of the same module, with the
  task's `forceBuild` flag.
- its identity. The type tag is `"push"` and the name is the module name.
  The description is `"pushing module <name>"`.
- what `process()` does to the log, to the provider and to its caller.

Files:

- `types.dfy` (module `TaskTypes`): the module configuration, the opaque
  `BuildTask` record, the `{pushed, message?}` result, and a settled promise
  (`Outcome`: a value or a provider error).
- `logger.dfy` (module `Logging`): the log as a sequence of entries. Each
  entry has a status (`Activity`, `Success`, `Warn`) and the messages
  appended to it. `Info` returns a handle, which is an index into the
  sequence. `SetSuccess` and `SetWarn` settle one entry and change no other.
- `context.dfy` (module `Context`): the plugin context. It holds a log and a
  record of every `pushModule` request. The provider's answer is an input to
  `PushModule`, which passes it back unchanged.
- `push.dfy` (module `Push`): the argument object, the `PushTask` class
  with its factory, `GetDependencies`, `GetName`, `GetDescription` and
  `Process`, and lemmas. The lemmas are about the functions that specify
  `Process`: `ProcessOutcome`, `ProcessEntry` and `ProcessCalls`.

`await` becomes an ordinary sequential step. A rejected promise becomes the
`Err` case of `Outcome`, and `process()` returns it as it is.

The model keeps these details of the code:

- The disabled path opens its "Push disabled" entry with the activity style
  and never settles it, so that entry's status stays `Activity`.
- `process()` returns the provider's `PushResult` directly, not a wrapped
  task result.
- A successful entry gets `result.message || "Ready"`. JavaScript's `||`
  also replaces an empty message by `"Ready"`, and `SuccessNote` models
  this.
- As the TODO at `src/tasks/push.ts:50` says, the version is not part of
  the task's identity. The model keeps it that way. `IdentityIgnoresVersion`
  and `IdentityIsModuleName` state it. As a consequence, a scheduler cannot
  tell apart two push tasks for two versions of the same module.

## Model

| member | source | states |
|---|---|---|
| `Push.PushTask.constructor` | src/tasks/push.ts:30-35 | needs arguments whose version is set; stores the context, the module, `forceBuild` and that version |
| `Push.PushTask.Factory` | src/tasks/push.ts:37-40 | sets the caller's `version` argument to the module's version, then returns a new task that carries that version and the same context, module and flag |
| `Push.PushTask.GetDependencies` | src/tasks/push.ts:42-47 | the list is empty exactly when pushing is disabled; it has at most one entry, and that entry is a build of the same module whose `force` equals `forceBuild` |
| `Push.IdentityIsModuleName` | src/tasks/push.ts:49-52 | every push task has type tag `"push"` and its name is its module's name; so two tasks have the same name exactly when their modules have the same name |
| `Push.IdentityIgnoresVersion` | src/tasks/push.ts:49-52 | tasks for modules with the same name have the same name and the same description, whatever their versions |
| `Push.DescriptionReadsBack` | src/tasks/push.ts:54-56 | a task's description reads back, through `NameOfDescription`, as exactly its module's name |
| `Push.NameOfDescription` | src/tasks/push.ts:54-56 | a name it reads back from a text rebuilds that text when prefixed with `"pushing module "` |
| `Push.DescriptionDeterminesIdentity` | src/tasks/push.ts:49-56 | two push tasks have the same description exactly when they have the same name |
| `Push.PushTask.Process` | src/tasks/push.ts:58-83 | the result is `ProcessOutcome`; exactly one entry, `ProcessEntry`, is appended to the log and no earlier entry changes; the provider requests grow by exactly `ProcessCalls` |
| `Push.DisabledProcess` | src/tasks/push.ts:59-66 | with pushing disabled, the result is `{pushed: false}` without a message, no provider request is made, and the one entry is an activity entry "Push disabled" in the module's section |
| `Push.EnabledProcess` | src/tasks/push.ts:68-82 | with pushing enabled and the provider answering `r`, the result is `r` unchanged, and one request is made with the module's name and the new entry's handle; the "Pushing" entry is success with `SuccessNote(r)` when `r.pushed`, and warn with `r.message` (if any) otherwise |
| `Push.ProviderFailure` | src/tasks/push.ts:74-82 | with pushing enabled and the provider failing with `e`, the result is `Err(e)` unchanged; the one request is still made, and the "Pushing" entry stays an activity with nothing appended |
| `Push.EntryAgreesWithOutcome` | src/tasks/push.ts:74-82 | with pushing enabled, the entry ends as success exactly when the result pushed, as warn exactly when the result declined, and still open exactly when the provider failed; at most one message is appended to it |
| `Push.SuccessNote` | src/tasks/push.ts:77 | the success message is never empty: it is the provider's message when that is a non-empty string, and `"Ready"` otherwise |
| `Logging.Log.Info` | src/tasks/push.ts:68-72 | appends one activity entry with the given section and message; the returned handle points to it |
| `Logging.Log.SetSuccess` | src/tasks/push.ts:77 | the entry at the handle becomes success with the message appended; every other entry is unchanged |
| `Logging.Log.SetWarn` | src/tasks/push.ts:79 | the entry at the handle becomes warn with the message appended if it is defined; every other entry is unchanged |
| `Logging.NotesOf` | src/tasks/push.ts:79 | an undefined message appends nothing and a defined one appends exactly itself |
| `Context.PluginContext.PushModule` | src/tasks/push.ts:74 | records one request with the module name and the entry handle, and passes the provider's answer (value or error) back unchanged |

## Left out

- The interactive scaffolding command (`src/commands/new.ts`) and the cloud
  SDK environment wrapper (`src/plugins/google/common.ts`). They are prompts,
  file system writes and calls to an external command-line tool, outside the
  push task.
- How `getVersion()` computes a version, and how it can fail. The module's
  `version` field stands for its answer.
- `BuildTask.factory`'s own version lookup and everything a build does. A
  build task is the opaque record `{module, force}`.
- The `Task` base class. Its constructor is assumed to store the version
  argument. The scheduler, which orders tasks and runs each identity once,
  is not part of this model.
- What the provider does with the log entry it is handed. Its writes to
  that entry are not modelled. Its answer is an input to `Process`.
- Promises and concurrency. Each `await` is a sequential step.
- `chalk` colouring, entry styles other than the status tag, and how
  appended messages are rendered. An entry keeps the plain text of its
  appended messages.
- `Logging.Log.SetWarn`: the logger's code is not part of this model. The
  model assumes that `setWarn` with an undefined message and `append: true`
  (`src/tasks/push.ts:79`) appends nothing to the entry and only sets its
  status.
- `Push.PushTask.GetName`: it has no contract of its own, because its
  meaning (the module name, with the version left out) is stated by
  `IdentityIsModuleName` and `IdentityIgnoresVersion`.
- `Push.PushTask.GetDescription`: it has no contract of its own, because
  its meaning is stated by `DescriptionReadsBack`,
  `DescriptionDeterminesIdentity` and `IdentityIgnoresVersion`.
