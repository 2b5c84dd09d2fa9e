# soajs.buildImages deployer — a Dafny model

This project models the part of the SOAJS image builder that runs inside a
container when it starts:

- `deployer/index.js`, the deployer's entry point. It checks the requested
  deployment type, clones the configuration repository when the environment
  names one, loads its `config.json`, and hands the options to the handler for
  the type.
- `deployer/utils.js` (`clone`). It builds the HTTPS clone URL from the
  provider, domain, owner, repository and token, spawns
  `git clone --branch <b> --depth 1 <url> <path>`, and turns the end of the
  process into a callback or a thrown error.
- `deployer/nginx/lib/conf.js`. It writes nginx's `upstream.conf`, the API
  server conf and, when a site domain is configured, the site conf. It chooses
  the https, redirect and plain server blocks from the ssl flags.
- `FILES/nginx/index.js`, the stand-alone generator. It writes an upstream pool
  of numbered controller hosts, an API proxy block and, when a dashboard domain
  is set, a dashboard block.

Files are modelled as ordered lines. A write stream is a `Sink.WriteStream`
object, and every `wstream.write` appends one line to it. The newline that
every write carries is implied and not stored.

Each writer is a method that appends to the stream. Its contract ties the
appended lines to a specification function. Properties of the generated files
are lemmas about those functions, stated group by group through `DirectivesOf`:
the block openers, listen lines, certificate lines, includes, rewrites,
location openers and location-body lines of a file, each group in file order.
So "a secure API conf with redirect has two blocks, listening on 80 and on
443 ssl, one rewrite, the certificate pair and the include" is one equation.

Values the code takes from its surroundings are parameters:

- the process environment (a map; a variable counts as set when it is present
  and non-empty);
- the platform (`nxOs`);
- the deployer's configuration;
- the outcome of `fs.mkdir`;
- the event that ends the clone process;
- the result of loading `config.json`.

The entry point is modelled as the trace of steps it takes. The steps are
reject, make the directory, spawn the clone, load the configuration, dispatch
to a handler, and throw.

A non-zero exit of the clone is not an error. The `close` handler
(deployer/utils.js:45-48) calls back whatever the exit code, and only the
process's `error` event throws. `RepoFetcher.CompletionIgnoresExitCode` states
this.

Lemmas that place a single line, or a short run of lines, into its groups
(`OpenerDirectives`, `ListenDirectives`, `CertLineDirectives`,
`BodyLineDirectives` and their like) are stepping stones towards the
whole-block and whole-file equations below. They have no row of their own.

## Model

| member | source | states |
|---|---|---|
| Sink.WriteStream.constructor | deployer/nginx/lib/conf.js:18 | a new stream for a path starts with no lines |
| Sink.WriteStream.Write | deployer/nginx/lib/conf.js:19 | one `write` appends exactly its line to the end and changes nothing before it |
| NginxConf.WriteUpstream | deployer/nginx/lib/conf.js:16-31 | the written file is `<loc>upstream.conf` holding the opener, the member lines and `}`; the indices logged as missing are exactly `MissingIndices` |
| NginxConf.ResolvedIndices | deployer/nginx/lib/conf.js:20-23 | every index of a written member lies in 1..count |
| NginxConf.MissingIndices | deployer/nginx/lib/conf.js:20-26 | every index logged as missing lies in 1..count |
| NginxConf.ResolvedIndexIn | deployer/nginx/lib/conf.js:20-23 | an index is written iff it is in 1..n and its variable `<ipEnvName><i>` is set (non-empty) |
| NginxConf.ResolvedIndicesSpec | deployer/nginx/lib/conf.js:20-23 | the written indices are exactly those in 1..n whose variable is set, for all indices at once |
| NginxConf.ResolvedIndicesAscending | deployer/nginx/lib/conf.js:20 | members are written in strictly increasing index order, so no index is written twice |
| NginxConf.MemberLineAt | deployer/nginx/lib/conf.js:21-22 | the k-th member line is `  server <value of the k-th set variable>:<port>;` |
| NginxConf.MemberLinesMatch | deployer/nginx/lib/conf.js:20-27 | one member line per set variable, in index order, each naming that variable's address and the common controller port |
| NginxConf.UpstreamFile | deployer/nginx/lib/conf.js:18-28 | the upstream file is `upstream <name> {`, then exactly the resolved members, then `}`, even when no member is set (length = members + 2) |
| NginxConf.MissingIndexIn | deployer/nginx/lib/conf.js:24-26 | an index is logged as missing iff it is in 1..n and its variable is unset or empty |
| NginxConf.MissingIndicesSpec | deployer/nginx/lib/conf.js:24-26 | the logged indices are exactly those in 1..n whose variable is unset, for all indices at once |
| NginxConf.ResolvedPlusMissing | deployer/nginx/lib/conf.js:20-27 | every index in 1..count is either written or logged, never both and never neither (the counts add up to count) |
| NginxConf.TrimTrailingSlashes | deployer/nginx/lib/conf.js:85 | the result is a prefix of the location, does not end in `/`, and only `/` characters were dropped |
| NginxConf.DefaultCertsDirShape | deployer/nginx/lib/conf.js:85 | the default certificate directory is the location without trailing slashes followed by `/ssl`: the separator is never doubled |
| NginxConf.SslSources | deployer/nginx/lib/conf.js:85-90 | the certificate and key come from `customCertsPath` exactly when `customCerts` is on, otherwise from `<location>/ssl`; the include is always `<location>/ssl/ssl.conf` |
| NginxConf.IncludeIgnoresCustomCerts | deployer/nginx/lib/conf.js:86-90 | changing the custom certificate switch or path never changes the include line |
| NginxConf.WriteStaticLocation | deployer/nginx/lib/conf.js:39-45 | appends exactly the static `location /` block (root, sendfile off, index) and nothing else |
| NginxConf.WriteProxyLocation | deployer/nginx/lib/conf.js:53-62 | appends exactly the proxy `location /` block (proxy_pass to the pool, then the five headers) |
| NginxConf.WriteServerRedirect | deployer/nginx/lib/conf.js:70-77 | appends exactly a redirect block: head, rewrite, `}` |
| NginxConf.WriteServerSsl | deployer/nginx/lib/conf.js:84-91 | appends exactly the certificate line, the key line and the include line |
| NginxConf.WriteServer | deployer/nginx/lib/conf.js:99-111 | appends exactly `ServerLines`: the head, the TLS lines only when https, the location block for the proxy or static kind, and `}` |
| NginxConf.SslDirectives | deployer/nginx/lib/conf.js:84-91 | what `writeServerSSL` writes holds exactly the configured certificate pair and the include |
| NginxConf.LocationDirectives | deployer/nginx/lib/conf.js:106-109 | the proxy or static kind gives one location opener with that kind's body; any other kind writes no location at all |
| NginxConf.SslPartDirectives | deployer/nginx/lib/conf.js:104-105 | the TLS part contributes the certificate pair and the include exactly when https is on |
| NginxConf.ServerDirectives | deployer/nginx/lib/conf.js:99-111 | a server block opens once, listens once on its port, never rewrites, carries certificates and the include iff https, and holds the location its kind asks for |
| NginxConf.RedirectDirectives | deployer/nginx/lib/conf.js:70-77 | a redirect block opens once, listens once on its port, holds one rewrite, and has no certificate, include or location |
| NginxConf.RedirectTarget | deployer/nginx/lib/conf.js:73-76 | the rewrite sends every path to `https://<same domain>/$1` and the block has six lines, the last being `}` |
| NginxConf.ServerFrame | deployer/nginx/lib/conf.js:100-110 | every server block starts with `server {`, its listen line, its server_name and the body-size line, and ends with `}` |
| NginxConf.RedirectThenServer | deployer/nginx/lib/conf.js:127-134 | a redirect block followed by a secure server block holds two blocks listening on the two ports, one rewrite, the TLS lines and the secure block's location |
| NginxConf.ConfDirectives | deployer/nginx/lib/conf.js:127-139 | secure+redirect: two blocks on 80 and 443 ssl, one rewrite, TLS lines; secure only: one block on 443 ssl with TLS lines; neither: one plain block on 80; redirect without secure: an empty file |
| NginxConf.ConfBodies | deployer/nginx/lib/conf.js:125 | the api conf's location proxies to the upstream pool; the site conf's location serves the configured static path |
| NginxConf.WriteConf | deployer/nginx/lib/conf.js:121-139 | the file at `<loc><confFileName>` holds exactly the blocks `ConfBlocks` gives for the secure and redirect flags |
| NginxConf.WriteApiConf | deployer/nginx/lib/conf.js:119-143 | the api conf is written with the proxy location and the `httpsApi` / `httpApiRedirect` flags |
| NginxConf.WriteSiteConf | deployer/nginx/lib/conf.js:151-175 | the site conf is written with the static location and the `httpsSite` / `httpSiteRedirect` flags |
| NginxConf.Write | deployer/nginx/lib/conf.js:183-215 | three files when a site domain is set and two otherwise: the upstream file, the api conf and the site conf, in that order, in the per-platform directories |
| RepoFetcher.CloneUrl | deployer/utils.js:15-36 | the URL is either empty or starts with `https://` and has more after it; without a token it is exactly `https://<domain>/<owner>/<repo>` |
| RepoFetcher.Clone | deployer/utils.js:17-57 | the clone is skipped iff the owner or the repository name is missing; otherwise `git` is spawned with seven arguments, starting with `clone` and ending with the URL and the clone path |
| RepoFetcher.CloneOutcome | deployer/utils.js:45-57 | the clone throws iff a process was spawned and it failed to run, and then with that error unchanged; every other ending calls back |
| RepoFetcher.SkipWhenUnconfigured | deployer/utils.js:17-57 | nothing is spawned iff the owner or the repository name is missing, and then the callback is called whatever happens |
| RepoFetcher.SpawnedCommand | deployer/utils.js:39 | a configured repository is cloned with exactly `git clone --branch <branch> --depth 1 <url> <clonePath>` |
| RepoFetcher.CompletionIgnoresExitCode | deployer/utils.js:45-52 | a close event calls back for every exit code; only a process error is thrown, carrying the error unchanged |
| RepoFetcher.EmptyUrlIffUnsupported | deployer/utils.js:15-36 | the URL stays empty iff a token is given for a provider other than github or bitbucket |
| RepoFetcher.PublicUrlIgnoresProvider | deployer/utils.js:33-36 | without a token the URL does not depend on the provider |
| RepoFetcher.UrlEndsWithRepoPath | deployer/utils.js:21-36 | every non-empty URL ends with `/<owner>/<repo>` |
| RepoFetcher.CredentialInsertion | deployer/utils.js:21-30 | a private URL is the public URL with `<token>@` (github) or `x-token-auth<token>@` (bitbucket.org) inserted after the scheme; a self-hosted bitbucket also gets `scm/` before the path |
| LegacyNginx.SettingsOf | FILES/nginx/index.js:4-9 | every setting but the dashboard domain is non-empty after the defaults; the dashboard domain is passed through unchanged; an unset controller count is 1 |
| LegacyNginx.SettingsDefaults | FILES/nginx/index.js:4-9 | each setting is its variable when that is set and the fixed default otherwise (1, api.yourdomain.com, 8080, controllerProxy, 4000); no default dashboard domain |
| LegacyNginx.Suffix | FILES/nginx/index.js:18-19 | a host suffix is always two characters |
| LegacyNginx.SuffixDigits | FILES/nginx/index.js:18-19 | the suffix is the tens digit followed by the units digit of the index |
| LegacyNginx.SuffixSingleDigit | FILES/nginx/index.js:18-19 | indices below 10 are zero-padded to two digits |
| LegacyNginx.SuffixTwoDigits | FILES/nginx/index.js:18-19 | an index from 10 to 99 is its own decimal rendering |
| LegacyNginx.SuffixWrapsAtHundred | FILES/nginx/index.js:17-20 | indices a hundred apart get the same host name, so past 99 controllers hosts repeat |
| LegacyNginx.WriteUpstream | FILES/nginx/index.js:14-25 | `<loc>upstream.conf` has nbController + 2 lines: the `soajs.controller` opener, host i on line i, and `}` |
| LegacyNginx.WriteLegacyHeaders | FILES/nginx/index.js:33-36 | appends exactly the four API headers, in order |
| LegacyNginx.WriteApiConf | FILES/nginx/index.js:26-41 | `<loc>api.conf` holds exactly the API block: server name, listen port, proxy location |
| LegacyNginx.WriteDashConf | FILES/nginx/index.js:42-53 | `<loc>dash.conf` holds exactly the dashboard block: server name, static location |
| LegacyNginx.Run | FILES/nginx/index.js:56-66 | upstream file in conf.d opening `upstream soajs.controller {`, one host per line and closing with `}`; api conf in sites-enabled; and a dash conf beside it exactly when a dashboard domain is set |
| LegacyNginx.LegacyHeadersOmitForwardedFor | FILES/nginx/index.js:33-36 | the API block forwards the configurable generator's headers in the same order except X-Forwarded-For, which it never sends |
| LegacyNginx.ApiConfDirectives | FILES/nginx/index.js:26-41 | the API conf holds one block, one listen line on the API port, one proxy location towards `soajs.controller`, and no TLS, include or rewrite line |
| LegacyNginx.DashConfDirectives | FILES/nginx/index.js:42-53 | the dashboard conf holds one block with no listen line at all and one static location serving the dashboard UI |
| Deployer.FetchRepository | deployer/index.js:28-40 | the directory is made first; a mkdir error gives exactly the mkdir and its throw, with no clone; otherwise the clone of `CloneOptionsOf` is spawned second, a clone error gives exactly mkdir, clone and that error, and the run proceeds iff the clone calls back |
| Deployer.SwitchOnType | deployer/index.js:61-97 | at most one handler is called, the one `HandlerFor` names for the type, with the base options plus only that handler's subtree; a type with no case calls none |
| Deployer.Deploy | deployer/index.js:47-98 | the steps are ordered; config.json is loaded first iff the repository was requested; a failed load gives exactly the load and the throw, with nothing dispatched; a dispatch happens iff the type has a handler and the load succeeded, always to the right handler with the right options |
| Deployer.FetchThenDeploy | deployer/index.js:26-40 | with the repository requested, the trace is fixed in every case: a failed mkdir gives exactly the mkdir and its throw, with no clone; a failed clone gives exactly mkdir, clone and the clone's own error; a failed load after a good clone gives exactly mkdir, clone, load, throw; a good load gives mkdir, clone, load and then the switch's dispatch (or nothing for a type without a case); the run ends in a throw iff some step failed |
| Deployer.Start | deployer/index.js:26-45 | without a requested repository the trace is exactly the switch's dispatch (or nothing), straight to `deploy()`; with one, each exact trace of the fetch path (failed mkdir, failed clone, failed load, good load) carries over; the run ends in a throw iff the repository was requested and some step failed |
| Deployer.Run | deployer/index.js:17-45 | a type not in the configured list gives only the rejection; for an accepted type the trace is fixed in every case: the switch's dispatch alone without a repository; exactly mkdir and its throw after a failed mkdir; exactly mkdir, clone and the clone's error after a failed clone; mkdir, clone, load and the load error after a failed load; mkdir, clone, load and the dispatch after a good load. The run ends in a throw iff an accepted type's fetch or load failed |

## Left out

- File system effects: streams are modelled as the ordered lines written to them. `wstream.end()`, and callbacks running before a stream is flushed, are not modelled.
- Logging (`util.log`, `console.log`) is left out; it has no effect on the files or the trace.
- Command-line parsing with `commander` is left out: the `-T` type is a parameter, with `None` when it is missing.
- `deployer/config.js` is not part of this model. Its types list, paths, configuration repository settings, nginx and nodejs subtrees are a parameter.
- The handler modules (`./service`, `./nginx`, `./nodejs`) are not part of this model. A dispatch is recorded with the options it receives.
- `Deployer.Deploy`: the error thrown when `config.json` cannot be loaded carries a fixed message, not the loader's exception. `Deployer.FetchRepository` does the same for the mkdir error.
- The directory `nxOs` names comes from the caller's environment and is a parameter. `nginx.location` is concatenated as written, with no normalisation.
- `NginxConf.TrimTrailingSlashes` models `path.join(location, '/ssl')` for locations without `.` or `..` segments or repeated inner slashes. Further normalisation is not modelled.
- JavaScript coercions are not modelled. Undefined fields are modelled as empty strings, and an undefined `https` as false. Writing `null` or `undefined` into a line, which would print those words, is not modelled.
- `NginxConf.LocationKind`: `options.location` is only ever set to "proxy" or "static" by the writers. Any other value is `NoLocation`.
- `LegacyNginx.SettingsOf`: a non-numeric `SOAJS_NX_NBCONTROLLER` (which makes the loop run zero times) is not modelled. The count is a natural number when set.
- `RepoFetcher`: the `data` events of the clone process are left out, since they only print. So is an `error` event arriving after `close` had already called back. The spawned process itself is represented only by its command line and its ending event.
- `NginxConf.NginxConfig` is one value for both the module-level configuration the TLS lines read (`config.nginx`, deployer/nginx/lib/conf.js:85-90, 122-123) and the handler's `options.nginx` (directories, upstream and conf names, deployer/nginx/lib/conf.js:184-204). The two are the same object only if the nginx handler module, which is not part of this model, passes on the `config.nginx` that deployer/index.js:84 attaches.
