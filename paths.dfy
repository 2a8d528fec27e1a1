/**
 * Path construction as hubploy does it with `os.path.join` on POSIX:
 * the secret files of a deployment and the conventional Helm values files.
 */
module Paths {

  /** A path component that is neither empty nor starts or ends with `/`. */
  predicate PlainName(s: string) {
    s != "" && s[0] != '/' && s[|s| - 1] != '/'
  }

  predicate Absolute(s: string) {
    s != "" && s[0] == '/'
  }

  /**
   * `posixpath.join(a, b)`: an absolute `b` replaces what came before;
   * otherwise a `/` is inserted unless `a` is empty or already ends in one.
   */
  function Join(a: string, b: string): (r: string)
    ensures Absolute(b) ==> r == b
    ensures !Absolute(b) && a != "" && a[|a| - 1] != '/' ==> r == a + "/" + b
  {
    if Absolute(b) then b
    else if a == "" || a[|a| - 1] == '/' then a + b
    else a + "/" + b
  }

  /** `os.path.join('deployments', deployment, sub, file)` */
  function DeploymentFile(deployment: string, sub: string, file: string): (r: string)
    ensures (PlainName(deployment) && PlainName(sub) && file != "" && !Absolute(file))
            ==> r == "deployments/" + deployment + "/" + sub + "/" + file
    ensures Absolute(file) ==> r == file
  {
    Join(Join(Join("deployments", deployment), sub), file)
  }

  /**
   * Where a deployment's secret file lives (auth.py uses this for every key
   * and auth file). A file name that is an absolute path escapes the
   * secrets directory, as `os.path.join` lets it.
   */
  function SecretPath(deployment: string, file: string): (r: string)
    ensures (PlainName(deployment) && file != "" && !Absolute(file))
            ==> r == "deployments/" + deployment + "/secrets/" + file
    ensures Absolute(file) ==> r == file
  {
    DeploymentFile(deployment, "secrets", file)
  }

  /** `os.path.abspath(p)` from working directory `cwd`, without `..`/`.` normalisation. */
  function AbsPath(cwd: string, p: string): (r: string)
    requires Absolute(cwd)
    ensures Absolute(r)
    ensures Absolute(p) ==> r == p
  {
    Join(cwd, p)
  }
}
