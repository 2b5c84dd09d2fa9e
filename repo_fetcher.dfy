/**
 * The repository fetcher (`deployer/utils.js`, `clone`): it decides whether a
 * configuration repository is configured, builds the HTTPS clone URL from the
 * provider, domain, owner, repository and optional token, and spawns
 * `git clone` for one branch at depth 1. The subprocess itself is outside the
 * model: its only observable results are the command it is given and the event
 * that ends it.
 */
module RepoFetcher {

  /** `options.repo.git`; an empty string is a missing (falsy) field. */
  datatype GitRepo = GitRepo(
    provider: string,
    domain: string,
    owner: string,
    repo: string,
    branch: string,
    token: string)

  datatype CloneOptions = CloneOptions(git: GitRepo, clonePath: string)

  const Scheme := "https://"

  /** The repository is configured when both the owner and the name are given. */
  predicate ShouldClone(g: GitRepo) {
    g.owner != "" && g.repo != ""
  }

  /** `<owner>/<repo>`, the tail every clone URL ends with. */
  function RepoPath(g: GitRepo): string {
    g.owner + "/" + g.repo
  }

  /** The clone URL. It stays empty when a token is given for a provider that is
      neither github nor bitbucket. */
  function CloneUrl(g: GitRepo): (url: string)
    ensures url == "" || (|Scheme| < |url| && url[..|Scheme|] == Scheme)
    ensures g.token == "" ==> url == Scheme + g.domain + "/" + RepoPath(g)
    ensures g.token == "" ==> url != ""
  {
    if g.token != "" then
      if g.provider == "github" then
        Scheme + g.token + "@" + g.domain + "/" + RepoPath(g)
      else if g.provider == "bitbucket" then
        if g.domain == "bitbucket.org" then
          Scheme + "x-token-auth" + g.token + "@" + g.domain + "/" + RepoPath(g)
        else
          Scheme + g.token + "@" + g.domain + "/scm/" + RepoPath(g)
      else
        ""
    else
      Scheme + g.domain + "/" + RepoPath(g)
  }

  /** The argument list handed to `git`. */
  function GitArgs(o: CloneOptions): seq<string> {
    ["clone", "--branch", o.git.branch, "--depth", "1", CloneUrl(o.git), o.clonePath]
  }

  /** What `clone` does before any callback: skip, or spawn a command. */
  datatype CloneStep = Skipped | Spawned(command: string, args: seq<string>)

  function Clone(o: CloneOptions): (step: CloneStep)
    ensures step.Skipped? <==> !ShouldClone(o.git)
    ensures step.Spawned? ==> step.command == "git" && |step.args| == 7 && step.args[0] == "clone"
    ensures step.Spawned? ==> step.args[5] == CloneUrl(o.git) && step.args[6] == o.clonePath
  {
    if ShouldClone(o.git) then Spawned("git", GitArgs(o)) else Skipped
  }

  /** The event that ends a spawned clone. */
  datatype ProcessEvent = Closed(code: int) | Failed(error: string)

  /** How `clone` ends: the callback is called, or an error is thrown. */
  datatype Outcome = CalledBack | Thrown(error: string)

  /** The outcome of `clone` once its process (if any) has ended with `event`. */
  function CloneOutcome(o: CloneOptions, event: ProcessEvent): (r: Outcome)
    ensures r.Thrown? <==> ShouldClone(o.git) && event.Failed?
    ensures r.Thrown? ==> r.error == event.error
  {
    if !ShouldClone(o.git) then CalledBack
    else match event
      case Closed(_) => CalledBack
      case Failed(error) => Thrown(error)
  }

  // ---------------------------------------------------------------------------
  // Properties

  /** Without an owner or a repository name nothing is spawned and the callback
      is called whatever happens afterwards. */
  lemma SkipWhenUnconfigured(o: CloneOptions, event: ProcessEvent)
    ensures Clone(o) == Skipped <==> (o.git.owner == "" || o.git.repo == "")
    ensures !ShouldClone(o.git) ==> CloneOutcome(o, event) == CalledBack
  {
  }

  /** A configured repository is cloned with exactly
      `git clone --branch <branch> --depth 1 <url> <clonePath>`. */
  lemma SpawnedCommand(o: CloneOptions)
    requires ShouldClone(o.git)
    ensures Clone(o).Spawned? && Clone(o).command == "git"
    ensures var args := Clone(o).args;
      && |args| == 7
      && args[0] == "clone" && args[1] == "--branch" && args[2] == o.git.branch
      && args[3] == "--depth" && args[4] == "1"
      && args[5] == CloneUrl(o.git) && args[6] == o.clonePath
  {
  }

  /** The process closing ends the clone successfully whatever its exit code;
      only a spawn error is thrown, carrying the error unchanged. */
  lemma CompletionIgnoresExitCode(o: CloneOptions, code: int, error: string)
    requires ShouldClone(o.git)
    ensures CloneOutcome(o, Closed(code)) == CalledBack
    ensures CloneOutcome(o, Failed(error)) == Thrown(error)
  {
  }

  /** The URL is empty exactly when a token is given for an unsupported provider. */
  lemma EmptyUrlIffUnsupported(g: GitRepo)
    ensures CloneUrl(g) == "" <==> g.token != "" && g.provider != "github" && g.provider != "bitbucket"
  {
  }

  /** A public URL does not depend on the provider. */
  lemma PublicUrlIgnoresProvider(g: GitRepo, provider: string)
    requires g.token == ""
    ensures CloneUrl(g.(provider := provider)) == CloneUrl(g)
  {
  }

  /** Every URL that is built ends with `/<owner>/<repo>`. */
  lemma UrlEndsWithRepoPath(g: GitRepo)
    requires CloneUrl(g) != ""
    ensures var url := CloneUrl(g); var tail := "/" + RepoPath(g);
      |tail| <= |url| && url[|url| - |tail|..] == tail
  {
    var url := CloneUrl(g);
    var tail := "/" + RepoPath(g);
    if g.token != "" && g.provider == "bitbucket" && g.domain != "bitbucket.org" {
      assert url == (Scheme + g.token + "@" + g.domain + "/scm") + tail;
    } else if g.token != "" && g.provider == "bitbucket" {
      assert url == (Scheme + "x-token-auth" + g.token + "@" + g.domain) + tail;
    } else if g.token != "" {
      assert url == (Scheme + g.token + "@" + g.domain) + tail;
    } else {
      assert url == (Scheme + g.domain) + tail;
    }
  }

  /** The authenticated URLs are the public URL with the credential inserted right
      after the scheme: `<token>@` for github, `x-token-auth<token>@` (with no
      separator) for bitbucket.org; a self-hosted bitbucket also gets `scm/` in
      front of the repository path. */
  lemma CredentialInsertion(g: GitRepo)
    requires g.token != ""
    ensures var pub := CloneUrl(g.(token := ""));
      && pub == Scheme + g.domain + "/" + RepoPath(g)
      && (g.provider == "github" ==> CloneUrl(g) == Scheme + g.token + "@" + pub[|Scheme|..])
      && (g.provider == "bitbucket" && g.domain == "bitbucket.org" ==>
            CloneUrl(g) == Scheme + "x-token-auth" + g.token + "@" + pub[|Scheme|..])
      && (g.provider == "bitbucket" && g.domain != "bitbucket.org" ==>
            CloneUrl(g) == Scheme + g.token + "@" + g.domain + "/scm/" + RepoPath(g))
  {
    var pub := CloneUrl(g.(token := ""));
    assert pub == Scheme + (g.domain + "/" + RepoPath(g));
    assert pub[|Scheme|..] == g.domain + "/" + RepoPath(g);
  }
}
