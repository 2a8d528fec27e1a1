/**
 * Success-or-exception values shared by every module of the model.
 * Each `Error` constructor stands for one exception the hubploy code raises
 * (or lets propagate) on a path the model follows.
 */
module Results {

  datatype Error =
    | NoAlpha(text: string)                        // utils.first_alpha: no alphabetic character
    | UnpackMismatch(got: nat)                     // `a, b = xs` with len(xs) != 2
    | InvalidImageSpec(spec: string)               // registry: not <registry>/<image>:<tag>
    | HttpStatus(status: int)                      // requests raise_for_status
    | MissingKey(key: string)                      // KeyError
    | WrongShape(what: string)                     // TypeError / AttributeError on a config value
    | EmptyImageName                               // config.RemoteImage with a blank name
    | DeploymentNotFound(deployment: string, path: string)
    | UnknownProvider(provider: string)            // auth: provider tag not handled
    | BadArguments(handler: string)                // TypeError binding a provider block
    | FileMissing(path: string)                    // FileNotFoundError
    | CommandFailed(argv: seq<string>)             // subprocess.CalledProcessError
    | KubeApi(status: int)                         // kubernetes ApiException
    | RegistryApi(explanation: string)             // docker.errors.APIError
    | BuildFailed                                  // ValueError('Build failed')
    | PushFailed                                   // ValueError('Pushing failed')

  datatype Result<+T> = Ok(value: T) | Err(error: Error) {
    predicate IsFailure() { Err? }

    function PropagateFailure<U>(): Result<U>
      requires Err?
    {
      Err(error)
    }

    function Extract(): T
      requires Ok?
    {
      value
    }
  }

  datatype Option<+T> = None | Some(value: T)
}
