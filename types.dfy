/** Values shared by the push task and its collaborators: the module being
    published, the opaque build-task record it depends on, and the shape of
    a provider's push result. */
module TaskTypes {

  /** The content-derived version token a module reports; opaque here. */
  type Version = string

  /** The part of a module's configuration the push task reads. `version`
      is what the module's `getVersion()` answers. */
  datatype Module = Module(name: string, allowPush: bool, version: Version)

  /** A BuildTask, seen only from outside: which module it builds and
      whether it bypasses the version-based skip. */
  datatype BuildTask = BuildTask(mod: Module, force: bool)

  /** What a provider answers to a push request: `{pushed, message?}`. */
  datatype PushResult = PushResult(pushed: bool, message: Option<string>)

  datatype Option<+T> = None | Some(value: T)

  /** An error thrown by the provider (network, authentication, ...);
      its content is the provider's business. */
  datatype ProviderError = ProviderError(reason: string)

  /** A settled promise: a value, or the error it was rejected with. */
  datatype Outcome<+T> = Ok(value: T) | Err(error: ProviderError)
}
