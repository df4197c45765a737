/** The push task: one unit of work of the orchestrator that publishes a
    module through the active provider once the module's build is done.
    It decides whether a build must come first (GetDependencies) and what
    publishing does to the log, the provider and the caller (Process). */
module Push {
  import opened TaskTypes
  import opened Logging
  import opened Context

  /** The type tag every push task carries. */
  const PushType: string := "push"
  const DescriptionPrefix: string := "pushing module "
  const DisabledMsg: string := "Push disabled"
  const PushingMsg: string := "Pushing"
  /** What a successful entry says when the provider gave no message. */
  const DefaultSuccessMsg: string := "Ready"

  /** The message appended to a successful entry: the provider's message
      when it is truthy, "Ready" when it is undefined or empty. */
  function SuccessNote(r: PushResult): (note: string)
    ensures note != ""
    ensures note == DefaultSuccessMsg || r.message == Some(note)
    ensures r.message.Some? && r.message.value != "" ==> note == r.message.value
  {
    match r.message
    case Some(m) => if m != "" then m else DefaultSuccessMsg
    case None => DefaultSuccessMsg
  }

  /** Reads the module name back out of a task description; None when the
      text is not a push description. */
  function NameOfDescription(d: string): (name: Option<string>)
    ensures name.Some? ==> DescriptionPrefix + name.value == d
  {
    if |DescriptionPrefix| <= |d| && d[..|DescriptionPrefix|] == DescriptionPrefix
    then Some(d[|DescriptionPrefix|..])
    else None
  }

  /** What `process()` settles with, given what the provider would answer. */
  function ProcessOutcome(mod: Module, answer: Outcome<PushResult>): (outcome: Outcome<PushResult>)
  {
    if !mod.allowPush then Ok(PushResult(false, None)) else answer
  }

  /** The log entry `process()` opens, in the state it is left in. */
  function ProcessEntry(mod: Module, answer: Outcome<PushResult>): (entry: LogEntry)
  {
    if !mod.allowPush then LogEntry(mod.name, DisabledMsg, Activity, [])
    else match answer
      case Err(_) => LogEntry(mod.name, PushingMsg, Activity, [])
      case Ok(r) =>
        if r.pushed then LogEntry(mod.name, PushingMsg, Success, [SuccessNote(r)])
        else LogEntry(mod.name, PushingMsg, Warn, NotesOf(r.message))
  }

  /** The `pushModule` requests `process()` makes, when the entry it opens
      gets handle `entry`. */
  function ProcessCalls(mod: Module, entry: nat): (calls: seq<PushCall>)
  {
    if mod.allowPush then [PushCall(mod.name, entry)] else []
  }

  /** The arguments a push task is created from. `version` is unset until
      the factory fills it in. */
  class PushTaskParams {
    const ctx: PluginContext
    const mod: Module
    const forceBuild: bool
    var version: Option<Version>

    constructor (ctx: PluginContext, mod: Module, forceBuild: bool)
      ensures this.ctx == ctx && this.mod == mod && this.forceBuild == forceBuild
      ensures version == None
    {
      this.ctx := ctx;
      this.mod := mod;
      this.forceBuild := forceBuild;
      version := None;
    }
  }

  class PushTask {
    const taskType: string := PushType
    const ctx: PluginContext
    const mod: Module
    const forceBuild: bool
    /** Bound at construction and never changed: a push task cannot exist
        without a version. */
    const version: Version

    /** Only arguments whose version has been set can make a task. */
    constructor (params: PushTaskParams)
      requires params.version.Some?
      ensures ctx == params.ctx && mod == params.mod && forceBuild == params.forceBuild
      ensures version == params.version.value
    {
      ctx := params.ctx;
      mod := params.mod;
      forceBuild := params.forceBuild;
      version := params.version.value;
    }

    /** Asks the module for its version, records it in the caller's
        arguments, and only then builds the task. */
    static method Factory(params: PushTaskParams) returns (task: PushTask)
      modifies params
      ensures params.version == Some(params.mod.version)
      ensures fresh(task)
      ensures task.version == params.mod.version
      ensures task.ctx == params.ctx && task.mod == params.mod && task.forceBuild == params.forceBuild
    {
      params.version := Some(params.mod.version);
      task := new PushTask(params);
    }

    /** No dependency when pushing is disabled; otherwise one build of the
        same module, forced exactly when this push was asked to force it. */
    function GetDependencies(): (deps: seq<BuildTask>)
      ensures deps == [] <==> !mod.allowPush
      ensures |deps| <= 1
      ensures forall d :: d in deps ==> d.mod == mod && d.force == forceBuild
    {
      if !mod.allowPush then [] else [BuildTask(mod, forceBuild)]
    }

    /** The task's key within its type. The version is deliberately not
        part of it. */
    function GetName(): (name: string)
    {
      mod.name
    }

    /** The human-readable line the scheduler logs for this task. */
    function GetDescription(): (description: string)
    {
      DescriptionPrefix + mod.name
    }

    /** Publishes the module. Disabled: one "Push disabled" entry and
        `{pushed: false}`, the provider untouched. Enabled: one "Pushing"
        entry, one `pushModule` request, the entry settled by the answer,
        which is returned as it is; a provider error is not caught and
        leaves the entry open. */
    method Process(answer: Outcome<PushResult>) returns (result: Outcome<PushResult>)
      modifies ctx, ctx.log
      ensures result == ProcessOutcome(mod, answer)
      ensures ctx.log.entries == old(ctx.log.entries) + [ProcessEntry(mod, answer)]
      ensures ctx.pushCalls == old(ctx.pushCalls) + ProcessCalls(mod, |old(ctx.log.entries)|)
    {
      if !mod.allowPush {
        var disabledEntry := ctx.log.Info(mod.name, DisabledMsg);
        return Ok(PushResult(false, None));
      }
      var logEntry := ctx.log.Info(mod.name, PushingMsg);
      result := ctx.PushModule(mod.name, logEntry, answer);
      match result
      case Err(_) =>
        return;
      case Ok(r) =>
        if r.pushed {
          ctx.log.SetSuccess(logEntry, SuccessNote(r));
        } else {
          ctx.log.SetWarn(logEntry, r.message);
        }
        assert ctx.log.entries[logEntry] == ProcessEntry(mod, answer);
    }
  }

  /** Identity is (type, name), and the name is the module name: two push
      tasks share an identity exactly when they push modules of the same
      name, whatever versions they were built with. */
  lemma IdentityIsModuleName(a: PushTask, b: PushTask)
    ensures a.taskType == b.taskType == PushType
    ensures a.GetName() == a.mod.name && b.GetName() == b.mod.name
    ensures a.GetName() == b.GetName() <==> a.mod.name == b.mod.name
  {
  }

  /** A new version of a module (a changed Module value under the same
      name) yields a push task with the same identity and description. */
  lemma IdentityIgnoresVersion(a: PushTask, b: PushTask)
    requires a.mod.name == b.mod.name
    ensures a.GetName() == b.GetName()
    ensures a.GetDescription() == b.GetDescription()
  {
  }

  /** A task's description reads back as exactly its module's name. */
  lemma DescriptionReadsBack(t: PushTask)
    ensures NameOfDescription(t.GetDescription()) == Some(t.mod.name)
  {
  }

  /** Descriptions tell push tasks apart exactly as their identities do:
      reading the name back undoes the description, so equal descriptions
      come from equal names. */
  lemma DescriptionDeterminesIdentity(a: PushTask, b: PushTask)
    ensures a.GetDescription() == b.GetDescription() <==> a.GetName() == b.GetName()
  {
    DescriptionReadsBack(a);
    DescriptionReadsBack(b);
  }

  /** Pushing disabled: `{pushed: false}` with no message, no provider
      request, one activity entry saying so. */
  lemma DisabledProcess(mod: Module, answer: Outcome<PushResult>, entry: nat)
    requires !mod.allowPush
    ensures ProcessOutcome(mod, answer) == Ok(PushResult(false, None))
    ensures ProcessCalls(mod, entry) == []
    ensures ProcessEntry(mod, answer) == LogEntry(mod.name, DisabledMsg, Activity, [])
  {
  }

  /** Pushing enabled and the provider answers `r`: one request for this
      module with the task's own entry, `r` returned unchanged, and the
      entry marked successful (with the provider's message or "Ready") or
      a warning (with the provider's message, if any). */
  lemma EnabledProcess(mod: Module, r: PushResult, entry: nat)
    requires mod.allowPush
    ensures ProcessOutcome(mod, Ok(r)) == Ok(r)
    ensures ProcessCalls(mod, entry) == [PushCall(mod.name, entry)]
    ensures ProcessEntry(mod, Ok(r)).msg == PushingMsg
    ensures r.pushed ==>
              ProcessEntry(mod, Ok(r)).status == Success && ProcessEntry(mod, Ok(r)).notes == [SuccessNote(r)]
    ensures !r.pushed ==>
              ProcessEntry(mod, Ok(r)).status == Warn && ProcessEntry(mod, Ok(r)).notes == NotesOf(r.message)
  {
  }

  /** Pushing enabled and the provider throws: the same error comes out,
      the request was still made once, and the entry stays open. */
  lemma ProviderFailure(mod: Module, e: ProviderError, entry: nat)
    requires mod.allowPush
    ensures ProcessOutcome(mod, Err(e)) == Err(e)
    ensures ProcessCalls(mod, entry) == [PushCall(mod.name, entry)]
    ensures ProcessEntry(mod, Err(e)) == LogEntry(mod.name, PushingMsg, Activity, [])
  {
  }

  /** With pushing enabled, the final state of the "Pushing" entry tells
      which way the push went: success exactly when the provider pushed,
      warning exactly when it declined, still open exactly when it threw;
      and at most one message is appended to the entry. */
  lemma EntryAgreesWithOutcome(mod: Module, answer: Outcome<PushResult>)
    requires mod.allowPush
    ensures ProcessEntry(mod, answer).status == Success
            <==> ProcessOutcome(mod, answer).Ok? && ProcessOutcome(mod, answer).value.pushed
    ensures ProcessEntry(mod, answer).status == Warn
            <==> ProcessOutcome(mod, answer).Ok? && !ProcessOutcome(mod, answer).value.pushed
    ensures ProcessEntry(mod, answer).status == Activity <==> ProcessOutcome(mod, answer).Err?
    ensures |ProcessEntry(mod, answer).notes| <= 1
  {
  }
}
