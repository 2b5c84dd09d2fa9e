/**
 * The nginx configuration builder of the deployer (deployer/nginx/lib/conf.js).
 *
 * Every writer of the source appends lines to a write stream; here the stream is
 * a `Sink.WriteStream` and every writer is a method that appends to it. Each
 * writer is proved against a specification function giving the lines it
 * appends, and the properties of the generated files are lemmas about those
 * functions. Properties are stated through `Select(lines, prefix)`, the lines of
 * a file that open with a given directive, so that "exactly one block on port
 * 443", "no TLS lines" or "exactly these five headers" can be said outright.
 */
module NginxConf {
  import opened Text
  import opened Sink

  /** Process environment: a variable counts as set when it is present and
      non-empty (JavaScript truthiness of a string). */
  type Env = map<string, string>

  predicate IsSet(env: Env, key: string) {
    key in env && env[key] != ""
  }

  // ---------------------------------------------------------------------------
  // Configuration records

  /** `config.nginx.config.ssl` of the deployer configuration. */
  datatype SslSettings = SslSettings(
    customCerts: bool,
    customCertsPath: string,
    httpsApi: bool,
    httpApiRedirect: bool,
    httpsSite: bool,
    httpSiteRedirect: bool)

  /** `config.nginx.config.upstream`. */
  datatype UpstreamSettings = UpstreamSettings(ctrlPort: string, ipEnvName: string, upstreamName: string, count: nat)

  /** `config.nginx.config.apiConf`. */
  datatype ApiConfSettings = ApiConfSettings(fileName: string, domain: string)

  /** `config.nginx.config.siteConf`; an empty domain means no site is configured. */
  datatype SiteConfSettings = SiteConfSettings(fileName: string, domain: string, path: string)

  /** `config.nginx`: the install location of nginx and its `config` subtree. */
  datatype NginxConfig = NginxConfig(
    location: string,
    ssl: SslSettings,
    upstream: UpstreamSettings,
    apiConf: ApiConfSettings,
    siteConf: SiteConfSettings)

  /** The options object `write` hands to `writeUpstream`. */
  datatype UpstreamOptions = UpstreamOptions(loc: string, port: string, ipEnvName: string, upstreamName: string, count: nat)

  /** The options object `write` hands to `writeApiConf` or `writeSiteConf`; a field
      the caller does not set is the empty string. */
  datatype ConfOptions = ConfOptions(loc: string, confFileName: string, domain: string, upstreamName: string, path: string)

  /** `options.location`: which `location /` block a server gets; the writers set
      it to "proxy" or "static", any other value writes no location block. */
  datatype LocationKind = Proxy | Static | NoLocation

  /** The options object the server writers read, after `writeApiConf` or
      `writeSiteConf` has set `location`, `port` and `https` on it. */
  datatype ServerOptions = ServerOptions(
    port: string,
    domain: string,
    https: bool,
    location: LocationKind,
    upstreamName: string,
    path: string)

  // ---------------------------------------------------------------------------
  // The lines of the generated files

  const ServerOpen := "server {"
  const BlockClose := "}"
  const BodySizeLine := "  client_max_body_size 100m;"
  const LocationOpen := "  location / {"
  const LocationClose := "  }"
  const SendfileLine := BodyLine("sendfile       off;")
  const IndexLine := BodyLine("index  index.html index.htm;")

  const ForwardedProtoHeader := HeaderLine("X-Forwarded-Proto \t    $scheme;")
  const ForwardedForHeader := HeaderLine("X-Forwarded-For \t    $remote_addr;")
  const HostHeader := HeaderLine("Host             \t\t$http_host;")
  const ProxyMarkerHeader := HeaderLine("X-NginX-Proxy     \t    true;")
  const ConnectionHeader := HeaderLine("Connection        \t    \"\";")

  /** The headers every proxy location forwards, in the order they are written. */
  const ProxyHeaders: seq<string> :=
    [ForwardedProtoHeader, ForwardedForHeader, HostHeader, ProxyMarkerHeader, ConnectionHeader]

  function UpstreamOpen(name: string): string { "upstream " + name + " {" }
  function MemberLine(ip: string, port: string): string { "  server " + ip + ":" + port + ";" }
  function ListenLine(port: string): string { "  listen       " + port + ";" }
  function ServerNameLine(domain: string): string { "  server_name  " + domain + ";" }
  function RewriteLine(domain: string): string { "  rewrite ^/(.*) https://" + domain + "/$1 permanent;" }
  /** A line inside a `location` block: four spaces of indentation, then the text. */
  function BodyLine(text: string): string { BodyPrefix + text }
  function HeaderLine(field: string): string { BodyLine("proxy_set_header   \t" + field) }
  function RootLine(path: string): string { BodyLine("root  " + path + ";") }
  function ProxyPassLine(upstreamName: string): string { BodyLine("proxy_pass \t\t    http://" + upstreamName + ";") }
  function CertLine(dir: string): string { "  ssl_certificate         " + dir + "/tls.crt;" }
  function KeyLine(dir: string): string { "  ssl_certificate_key     " + dir + "/tls.key;" }
  function IncludeLine(location: string): string { "  include " + location + "/ssl/ssl.conf;" }

  /** The directive prefixes by which the properties below pick lines out of a file. */
  const BlockPrefix := "server {"
  const ListenPrefix := "  listen "
  const CertPrefix := "  ssl_certificate"
  const IncludePrefix := "  include "
  const RewritePrefix := "  rewrite "
  const LocationPrefix := "  location"
  /** Lines inside a `location` block are indented by four spaces. */
  const BodyPrefix := "    "

  // ---------------------------------------------------------------------------
  // writeUpstream

  /** The name of the environment variable holding the address of member `i`. */
  function EnvKey(ipEnvName: string, i: nat): string {
    ipEnvName + NatToString(i)
  }

  /** The member lines written for indices 1..n, unset indices contributing nothing. */
  function MemberLines(o: UpstreamOptions, env: Env, n: nat): seq<string> {
    if n == 0 then []
    else
      var key := EnvKey(o.ipEnvName, n);
      MemberLines(o, env, n - 1) + (if IsSet(env, key) then [MemberLine(env[key], o.port)] else [])
  }

  function UpstreamLines(o: UpstreamOptions, env: Env): seq<string> {
    [UpstreamOpen(o.upstreamName)] + MemberLines(o, env, o.count) + [BlockClose]
  }

  /** Reference definition: the indices among 1..n whose variable is set, ascending. */
  function ResolvedIndices(o: UpstreamOptions, env: Env, n: nat): (r: seq<nat>)
    ensures forall k | 0 <= k < |r| :: 1 <= r[k] <= n
  {
    if n == 0 then []
    else ResolvedIndices(o, env, n - 1) + (if IsSet(env, EnvKey(o.ipEnvName, n)) then [n] else [])
  }

  /** The indices among 1..n whose variable is missing: the ones the source logs. */
  function MissingIndices(o: UpstreamOptions, env: Env, n: nat): (r: seq<nat>)
    ensures forall k | 0 <= k < |r| :: 1 <= r[k] <= n
  {
    if n == 0 then []
    else MissingIndices(o, env, n - 1) + (if IsSet(env, EnvKey(o.ipEnvName, n)) then [] else [n])
  }

  predicate StrictlyIncreasing(s: seq<nat>) {
    forall j, k | 0 <= j < k < |s| :: s[j] < s[k]
  }

  lemma AboveAll(s: seq<nat>, n: nat)
    requires forall k | 0 <= k < |s| :: s[k] < n
    ensures n !in s
  {
  }

  lemma {:induction false} ResolvedIndexIn(o: UpstreamOptions, env: Env, n: nat, i: nat)
    ensures i in ResolvedIndices(o, env, n) <==> 1 <= i <= n && IsSet(env, EnvKey(o.ipEnvName, i))
  {
    if n > 0 {
      ResolvedIndexIn(o, env, n - 1, i);
      var prev := ResolvedIndices(o, env, n - 1);
      var b := IsSet(env, EnvKey(o.ipEnvName, n));
      var last: seq<nat> := if b then [n] else [];
      assert ResolvedIndices(o, env, n) == prev + last;
      assert i in prev + last <==> i in prev || i in last;
      if i == n {
        AboveAll(prev, n);
      } else {
        assert i !in last;
      }
    }
  }

  /** The reference sequence holds exactly the indices in 1..n whose variable is set. */
  lemma ResolvedIndicesSpec(o: UpstreamOptions, env: Env, n: nat)
    ensures forall i: nat :: i in ResolvedIndices(o, env, n) <==> 1 <= i <= n && IsSet(env, EnvKey(o.ipEnvName, i))
  {
    forall i: nat {
      ResolvedIndexIn(o, env, n, i);
    }
  }

  /** ... and lists them in strictly increasing order. */
  lemma {:induction false} ResolvedIndicesAscending(o: UpstreamOptions, env: Env, n: nat)
    ensures StrictlyIncreasing(ResolvedIndices(o, env, n))
  {
    if n > 0 {
      ResolvedIndicesAscending(o, env, n - 1);
      var prev := ResolvedIndices(o, env, n - 1);
      if IsSet(env, EnvKey(o.ipEnvName, n)) {
        var r := prev + [n];
        assert r == ResolvedIndices(o, env, n);
        forall j, k | 0 <= j < k < |r| ensures r[j] < r[k] {
          if k == |prev| {
            assert r[j] == prev[j];
            assert 1 <= prev[j] <= n - 1;
          } else {
            assert r[j] == prev[j] && r[k] == prev[k];
          }
        }
      }
    }
  }

  lemma {:induction false} MemberLinesLength(o: UpstreamOptions, env: Env, n: nat)
    ensures |MemberLines(o, env, n)| == |ResolvedIndices(o, env, n)|
  {
    if n > 0 {
      MemberLinesLength(o, env, n - 1);
    }
  }

  lemma {:induction false} MemberLineAt(o: UpstreamOptions, env: Env, n: nat, k: nat)
    requires k < |ResolvedIndices(o, env, n)|
    ensures var i := ResolvedIndices(o, env, n)[k];
      && |MemberLines(o, env, n)| == |ResolvedIndices(o, env, n)|
      && IsSet(env, EnvKey(o.ipEnvName, i))
      && MemberLines(o, env, n)[k] == MemberLine(env[EnvKey(o.ipEnvName, i)], o.port)
  {
    MemberLinesLength(o, env, n);
    MemberLinesLength(o, env, n - 1);
    var prev, r := MemberLines(o, env, n - 1), ResolvedIndices(o, env, n - 1);
    var key := EnvKey(o.ipEnvName, n);
    if k < |r| {
      MemberLineAt(o, env, n - 1, k);
      if IsSet(env, key) {
        assert MemberLines(o, env, n) == prev + [MemberLine(env[key], o.port)];
        assert ResolvedIndices(o, env, n) == r + [n];
      }
    } else {
      assert IsSet(env, key);
      assert MemberLines(o, env, n) == prev + [MemberLine(env[key], o.port)];
      assert ResolvedIndices(o, env, n) == r + [n];
    }
  }

  /** One member line per resolved index, in the same order, each naming the
      address held by that index's variable and the common port. */
  lemma MemberLinesMatch(o: UpstreamOptions, env: Env, n: nat)
    ensures var r := ResolvedIndices(o, env, n);
      && |MemberLines(o, env, n)| == |r|
      && forall k | 0 <= k < |r| ::
           IsSet(env, EnvKey(o.ipEnvName, r[k])) &&
           MemberLines(o, env, n)[k] == MemberLine(env[EnvKey(o.ipEnvName, r[k])], o.port)
  {
    MemberLinesLength(o, env, n);
    forall k | 0 <= k < |ResolvedIndices(o, env, n)| {
      MemberLineAt(o, env, n, k);
    }
  }

  /** The upstream file opens the pool, holds exactly the resolved members in
      index order, and is closed by `}` even when no member is set. */
  lemma UpstreamFile(o: UpstreamOptions, env: Env)
    ensures var lines := UpstreamLines(o, env);
      var r := ResolvedIndices(o, env, o.count);
      && |lines| == |r| + 2
      && lines[0] == UpstreamOpen(o.upstreamName)
      && lines[|lines| - 1] == BlockClose
      && forall k | 0 <= k < |r| ::
           IsSet(env, EnvKey(o.ipEnvName, r[k])) &&
           lines[k + 1] == MemberLine(env[EnvKey(o.ipEnvName, r[k])], o.port)
  {
    MemberLinesMatch(o, env, o.count);
  }

  lemma {:induction false} MissingIndexIn(o: UpstreamOptions, env: Env, n: nat, i: nat)
    ensures i in MissingIndices(o, env, n) <==> 1 <= i <= n && !IsSet(env, EnvKey(o.ipEnvName, i))
  {
    if n > 0 {
      MissingIndexIn(o, env, n - 1, i);
      var prev := MissingIndices(o, env, n - 1);
      var b := IsSet(env, EnvKey(o.ipEnvName, n));
      var last: seq<nat> := if !b then [n] else [];
      assert MissingIndices(o, env, n) == prev + last;
      assert i in prev + last <==> i in prev || i in last;
      if i == n {
        AboveAll(prev, n);
      } else {
        assert i !in last;
      }
    }
  }

  /** The logged indices are exactly the indices in 1..n whose variable is missing. */
  lemma MissingIndicesSpec(o: UpstreamOptions, env: Env, n: nat)
    ensures forall i: nat :: i in MissingIndices(o, env, n) <==> 1 <= i <= n && !IsSet(env, EnvKey(o.ipEnvName, i))
  {
    forall i: nat {
      MissingIndexIn(o, env, n, i);
    }
  }

  /** Every index in 1..n is either written or logged as missing, never both. */
  lemma {:induction false} ResolvedPlusMissing(o: UpstreamOptions, env: Env, n: nat)
    ensures |ResolvedIndices(o, env, n)| + |MissingIndices(o, env, n)| == n
    ensures forall i | 1 <= i <= n :: (i in ResolvedIndices(o, env, n)) != (i in MissingIndices(o, env, n))
  {
    if n > 0 {
      ResolvedPlusMissing(o, env, n - 1);
    }
    forall i | 1 <= i <= n
      ensures (i in ResolvedIndices(o, env, n)) != (i in MissingIndices(o, env, n))
    {
      ResolvedIndexIn(o, env, n, i);
      MissingIndexIn(o, env, n, i);
    }
  }

  method WriteUpstream(o: UpstreamOptions, env: Env) returns (f: File, missing: seq<nat>)
    ensures f == File(o.loc + "upstream.conf", UpstreamLines(o, env))
    ensures missing == MissingIndices(o, env, o.count)
  {
    var w := new WriteStream(o.loc + "upstream.conf");
    w.Write(UpstreamOpen(o.upstreamName));
    missing := [];
    var i := 1;
    while i <= o.count
      invariant 1 <= i <= o.count + 1
      invariant w.path == o.loc + "upstream.conf"
      invariant w.lines == [UpstreamOpen(o.upstreamName)] + MemberLines(o, env, i - 1)
      invariant missing == MissingIndices(o, env, i - 1)
    {
      var key := EnvKey(o.ipEnvName, i);
      if key in env && env[key] != "" {
        w.Write(MemberLine(env[key], o.port));
        assert MemberLines(o, env, i) == MemberLines(o, env, i - 1) + [MemberLine(env[key], o.port)];
        assert w.lines == [UpstreamOpen(o.upstreamName)] + MemberLines(o, env, i);
      } else {
        missing := missing + [i];
      }
      i := i + 1;
    }
    w.Write(BlockClose);
    f := w.Contents();
  }

  // ---------------------------------------------------------------------------
  // The pieces of a server block

  function ServerHead(o: ServerOptions): seq<string> {
    [ServerOpen, ListenLine(o.port), ServerNameLine(o.domain), BodySizeLine]
  }

  function RedirectLines(o: ServerOptions): seq<string> {
    ServerHead(o) + [RewriteLine(o.domain), BlockClose]
  }

  function StaticBody(path: string): seq<string> {
    [RootLine(path), SendfileLine, IndexLine]
  }

  function ProxyBody(upstreamName: string): seq<string> {
    [ProxyPassLine(upstreamName)] + ProxyHeaders
  }

  /** A `location /` block around a body. */
  function LocationBlock(body: seq<string>): seq<string> {
    [LocationOpen] + body + [LocationClose]
  }

  function StaticLocationLines(path: string): seq<string> {
    LocationBlock(StaticBody(path))
  }

  function ProxyLocationLines(upstreamName: string): seq<string> {
    LocationBlock(ProxyBody(upstreamName))
  }

  /** `path.join(location, '/ssl')`: the trailing separators of `location` are
      dropped before `/ssl` is appended. */
  function TrimTrailingSlashes(s: string): (r: string)
    ensures r <= s
    ensures r == [] || r[|r| - 1] != '/'
    ensures forall i | |r| <= i < |s| :: s[i] == '/'
  {
    if |s| > 0 && s[|s| - 1] == '/' then TrimTrailingSlashes(s[..|s| - 1]) else s
  }

  function DefaultCertsDir(location: string): string {
    TrimTrailingSlashes(location) + "/ssl"
  }

  /** The directory holding tls.crt and tls.key. */
  function CertsDir(cfg: NginxConfig): string {
    if cfg.ssl.customCerts then cfg.ssl.customCertsPath else DefaultCertsDir(cfg.location)
  }

  function CertLines(cfg: NginxConfig): seq<string> {
    [CertLine(CertsDir(cfg)), KeyLine(CertsDir(cfg))]
  }

  function SslLines(cfg: NginxConfig): seq<string> {
    CertLines(cfg) + [IncludeLine(cfg.location)]
  }

  /** The body of the `location /` block chosen by `options.location`. */
  function BodyOf(o: ServerOptions): seq<string> {
    if o.location == Proxy then ProxyBody(o.upstreamName)
    else if o.location == Static then StaticBody(o.path)
    else []
  }

  function LocationLines(o: ServerOptions): seq<string> {
    if o.location == Proxy then ProxyLocationLines(o.upstreamName)
    else if o.location == Static then StaticLocationLines(o.path)
    else []
  }

  function ServerLines(o: ServerOptions, cfg: NginxConfig): seq<string> {
    ServerHead(o) + (if o.https then SslLines(cfg) else []) + LocationLines(o) + [BlockClose]
  }

  // ---------------------------------------------------------------------------
  // What each piece holds, directive by directive

  /** The lines of a file grouped by the directive they open with: block openers,
      listen lines, certificate lines, include lines, rewrite lines, location
      openers and location-body lines, each group in file order. */
  datatype Directives = Directives(
    blocks: seq<string>,
    listens: seq<string>,
    certs: seq<string>,
    includes: seq<string>,
    rewrites: seq<string>,
    locations: seq<string>,
    body: seq<string>)
  {
    function Plus(d: Directives): Directives {
      Directives(blocks + d.blocks, listens + d.listens, certs + d.certs, includes + d.includes,
                 rewrites + d.rewrites, locations + d.locations, body + d.body)
    }
  }

  const NoDirectives := Directives([], [], [], [], [], [], [])

  function DirectivesOf(lines: seq<string>): Directives {
    Directives(
      Select(lines, BlockPrefix), Select(lines, ListenPrefix), Select(lines, CertPrefix),
      Select(lines, IncludePrefix), Select(lines, RewritePrefix), Select(lines, LocationPrefix),
      Select(lines, BodyPrefix))
  }

  lemma PlusNothing(d: Directives)
    ensures d.Plus(NoDirectives) == d
  {
    assert d.blocks + [] == d.blocks && d.listens + [] == d.listens && d.certs + [] == d.certs;
    assert d.includes + [] == d.includes && d.rewrites + [] == d.rewrites;
    assert d.locations + [] == d.locations && d.body + [] == d.body;
  }

  lemma DirectivesAppend(a: seq<string>, b: seq<string>)
    ensures DirectivesOf(a + b) == DirectivesOf(a).Plus(DirectivesOf(b))
  {
    SelectAppend(a, b, BlockPrefix);
    SelectAppend(a, b, ListenPrefix);
    SelectAppend(a, b, CertPrefix);
    SelectAppend(a, b, IncludePrefix);
    SelectAppend(a, b, RewritePrefix);
    SelectAppend(a, b, LocationPrefix);
    SelectAppend(a, b, BodyPrefix);
  }

  /** The body-size line of a server head belongs to no group. */
  lemma BodySizeDirectives()
    ensures DirectivesOf([BodySizeLine]) == NoDirectives
  {
    assert BodySizeLine[0] == ' ' && BodySizeLine[2] == 'c';
    Indented(BodySizeLine, 'c');
  }

  lemma ServerNameDirectives(domain: string)
    ensures DirectivesOf([ServerNameLine(domain)]) == NoDirectives
  {
    var name := ServerNameLine(domain);
    assert name[0] == ' ' && name[2] == 's' && name[3] == 'e';
    SelectOut(name, BlockPrefix, 0);
    SelectOut(name, ListenPrefix, 2);
    SelectOut(name, CertPrefix, 3);
    SelectOut(name, IncludePrefix, 2);
    SelectOut(name, RewritePrefix, 2);
    SelectOut(name, LocationPrefix, 2);
    SelectOut(name, BodyPrefix, 2);
  }

  /** A line that opens with two spaces and then `c` at position 2, where `c` is
      not a letter any directive prefix has at that position, belongs to no group. */
  lemma Indented(l: string, c: char)
    requires |l| >= 3 && l[0] == ' ' && l[2] == c && c != 'l' && c != 's' && c != 'i' && c != 'r' && c != ' '
    ensures DirectivesOf([l]) == NoDirectives
  {
    SelectOut(l, BlockPrefix, 0);
    SelectOut(l, ListenPrefix, 2);
    SelectOut(l, CertPrefix, 2);
    SelectOut(l, IncludePrefix, 2);
    SelectOut(l, RewritePrefix, 2);
    SelectOut(l, LocationPrefix, 2);
    SelectOut(l, BodyPrefix, 2);
  }

  lemma OpenerDirectives()
    ensures DirectivesOf([ServerOpen]) == NoDirectives.(blocks := [ServerOpen])
  {
    var l := ServerOpen;
    SelectIn(l, BlockPrefix);
    SelectOut(l, ListenPrefix, 0);
    SelectOut(l, CertPrefix, 0);
    SelectOut(l, IncludePrefix, 0);
    SelectOut(l, RewritePrefix, 0);
    SelectOut(l, LocationPrefix, 0);
    SelectOut(l, BodyPrefix, 0);
  }

  lemma ListenDirectives(port: string)
    ensures DirectivesOf([ListenLine(port)]) == NoDirectives.(listens := [ListenLine(port)])
  {
    var l := ListenLine(port);
    assert l == ListenPrefix + ("      " + port + ";");
    StartsWithAppend(ListenPrefix, "      " + port + ";");
    assert l[0] == ' ' && l[2] == 'l' && l[3] == 'i';
    SelectOut(l, BlockPrefix, 0);
    SelectIn(l, ListenPrefix);
    SelectOut(l, CertPrefix, 2);
    SelectOut(l, IncludePrefix, 2);
    SelectOut(l, RewritePrefix, 2);
    SelectOut(l, LocationPrefix, 3);
    SelectOut(l, BodyPrefix, 2);
  }

  lemma HeadDirectives(o: ServerOptions)
    ensures DirectivesOf(ServerHead(o)) == NoDirectives.(blocks := [ServerOpen], listens := [ListenLine(o.port)])
  {
    OpenerDirectives();
    ListenDirectives(o.port);
    ServerNameDirectives(o.domain);
    BodySizeDirectives();
    DirectivesOfFour(ServerOpen, ListenLine(o.port), ServerNameLine(o.domain), BodySizeLine);
  }

  lemma RewriteDirectives(domain: string)
    ensures DirectivesOf([RewriteLine(domain)]) == NoDirectives.(rewrites := [RewriteLine(domain)])
  {
    var l := RewriteLine(domain);
    assert l == RewritePrefix + ("^/(.*) https://" + domain + "/$1 permanent;");
    StartsWithAppend(RewritePrefix, "^/(.*) https://" + domain + "/$1 permanent;");
    assert l[0] == ' ' && l[2] == 'r';
    SelectOut(l, BlockPrefix, 0);
    SelectOut(l, ListenPrefix, 2);
    SelectOut(l, CertPrefix, 2);
    SelectOut(l, IncludePrefix, 2);
    SelectIn(l, RewritePrefix);
    SelectOut(l, LocationPrefix, 2);
    SelectOut(l, BodyPrefix, 2);
  }

  lemma DelimiterDirectives()
    ensures DirectivesOf([BlockClose]) == NoDirectives
    ensures DirectivesOf([LocationClose]) == NoDirectives
    ensures DirectivesOf([LocationOpen]) == NoDirectives.(locations := [LocationOpen])
  {
    SelectOut(BlockClose, BlockPrefix, 0);
    SelectOut(BlockClose, ListenPrefix, 0);
    SelectOut(BlockClose, CertPrefix, 0);
    SelectOut(BlockClose, IncludePrefix, 0);
    SelectOut(BlockClose, RewritePrefix, 0);
    SelectOut(BlockClose, LocationPrefix, 0);
    SelectOut(BlockClose, BodyPrefix, 0);
    Indented(LocationClose, '}');
    var l := LocationOpen;
    SelectOut(l, BlockPrefix, 0);
    SelectOut(l, ListenPrefix, 3);
    SelectOut(l, CertPrefix, 2);
    SelectOut(l, IncludePrefix, 2);
    SelectOut(l, RewritePrefix, 2);
    SelectIn(l, LocationPrefix);
    SelectOut(l, BodyPrefix, 2);
  }

  /** A certificate or key line belongs to the certificate group only. */
  lemma CertGroupOnly(l: string, rest: string)
    requires l == CertPrefix + rest
    ensures DirectivesOf([l]) == NoDirectives.(certs := [l])
  {
    StartsWithAppend(CertPrefix, rest);
    assert l[0] == ' ' && l[2] == 's';
    SelectOut(l, BlockPrefix, 0);
    SelectOut(l, ListenPrefix, 2);
    SelectIn(l, CertPrefix);
    SelectOut(l, IncludePrefix, 2);
    SelectOut(l, RewritePrefix, 2);
    SelectOut(l, LocationPrefix, 2);
    SelectOut(l, BodyPrefix, 2);
  }

  lemma CertLineDirectives(dir: string)
    ensures DirectivesOf([CertLine(dir)]) == NoDirectives.(certs := [CertLine(dir)])
  {
    CertGroupOnly(CertLine(dir), "         " + dir + "/tls.crt;");
  }

  lemma KeyLineDirectives(dir: string)
    ensures DirectivesOf([KeyLine(dir)]) == NoDirectives.(certs := [KeyLine(dir)])
  {
    CertGroupOnly(KeyLine(dir), "_key     " + dir + "/tls.key;");
  }

  lemma IncludeDirectives(location: string)
    ensures DirectivesOf([IncludeLine(location)]) == NoDirectives.(includes := [IncludeLine(location)])
  {
    var l := IncludeLine(location);
    assert l == IncludePrefix + (location + "/ssl/ssl.conf;");
    StartsWithAppend(IncludePrefix, location + "/ssl/ssl.conf;");
    assert l[0] == ' ' && l[2] == 'i';
    SelectOut(l, BlockPrefix, 0);
    SelectOut(l, ListenPrefix, 2);
    SelectOut(l, CertPrefix, 2);
    SelectIn(l, IncludePrefix);
    SelectOut(l, RewritePrefix, 2);
    SelectOut(l, LocationPrefix, 2);
    SelectOut(l, BodyPrefix, 2);
  }

  /** Three lines hold what each of them holds, in order. */
  lemma DirectivesOfThree(x: string, y: string, z: string)
    ensures DirectivesOf([x, y] + [z]) == DirectivesOf([x]).Plus(DirectivesOf([y]).Plus(DirectivesOf([z])))
  {
    assert [x, y] + [z] == [x] + ([y] + [z]);
    DirectivesAppend([y], [z]);
    DirectivesAppend([x], [y] + [z]);
  }

  /** Four lines hold what each of them holds, in order. */
  lemma DirectivesOfFour(w: string, x: string, y: string, z: string)
    ensures DirectivesOf([w, x, y, z]) ==
      DirectivesOf([w]).Plus(DirectivesOf([x]).Plus(DirectivesOf([y]).Plus(DirectivesOf([z]))))
  {
    assert [w, x, y, z] == [w] + ([x] + ([y] + [z]));
    DirectivesAppend([y], [z]);
    DirectivesAppend([x], [y] + [z]);
    DirectivesAppend([w], [x] + ([y] + [z]));
  }

  lemma CertAndIncludeDirectives(dir: string, location: string)
    ensures DirectivesOf([CertLine(dir), KeyLine(dir)] + [IncludeLine(location)]) ==
      NoDirectives.(certs := [CertLine(dir), KeyLine(dir)], includes := [IncludeLine(location)])
  {
    CertLineDirectives(dir);
    KeyLineDirectives(dir);
    IncludeDirectives(location);
    DirectivesOfThree(CertLine(dir), KeyLine(dir), IncludeLine(location));
    assert [CertLine(dir)] + [KeyLine(dir)] == [CertLine(dir), KeyLine(dir)];
  }

  lemma SslDirectives(cfg: NginxConfig)
    ensures DirectivesOf(SslLines(cfg)) == NoDirectives.(certs := CertLines(cfg), includes := [IncludeLine(cfg.location)])
  {
    CertAndIncludeDirectives(CertsDir(cfg), cfg.location);
  }

  /** Any indented body line belongs to the body group only. */
  lemma BodyLineDirectives(l: string)
    requires StartsWith(l, BodyPrefix)
    ensures DirectivesOf([l]) == NoDirectives.(body := [l])
  {
    assert l[0] == ' ' && l[2] == ' ';
    SelectOut(l, BlockPrefix, 0);
    SelectOut(l, ListenPrefix, 2);
    SelectOut(l, CertPrefix, 2);
    SelectOut(l, IncludePrefix, 2);
    SelectOut(l, RewritePrefix, 2);
    SelectOut(l, LocationPrefix, 2);
    SelectIn(l, BodyPrefix);
  }

  lemma {:induction false} BodyDirectives(lines: seq<string>)
    requires forall k | 0 <= k < |lines| :: StartsWith(lines[k], BodyPrefix)
    ensures DirectivesOf(lines) == NoDirectives.(body := lines)
  {
    if lines == [] {
      assert DirectivesOf(lines) == NoDirectives;
    } else {
      BodyLineDirectives(lines[0]);
      BodyDirectives(lines[1..]);
      assert lines == [lines[0]] + lines[1..];
      DirectivesAppend([lines[0]], lines[1..]);
    }
  }

  lemma StaticBodyDirectives(path: string)
    ensures DirectivesOf(StaticBody(path)) == NoDirectives.(body := StaticBody(path))
  {
    StartsWithAppend(BodyPrefix, "root  " + path + ";");
    StartsWithAppend(BodyPrefix, "sendfile       off;");
    StartsWithAppend(BodyPrefix, "index  index.html index.htm;");
    BodyDirectives(StaticBody(path));
  }

  lemma ProxyHeaderDirectives()
    ensures DirectivesOf(ProxyHeaders) == NoDirectives.(body := ProxyHeaders)
  {
    StartsWithAppend(BodyPrefix, "proxy_set_header   \tX-Forwarded-Proto \t    $scheme;");
    StartsWithAppend(BodyPrefix, "proxy_set_header   \tX-Forwarded-For \t    $remote_addr;");
    StartsWithAppend(BodyPrefix, "proxy_set_header   \tHost             \t\t$http_host;");
    StartsWithAppend(BodyPrefix, "proxy_set_header   \tX-NginX-Proxy     \t    true;");
    StartsWithAppend(BodyPrefix, "proxy_set_header   \tConnection        \t    \"\";");
    BodyDirectives(ProxyHeaders);
  }

  lemma ProxyBodyDirectives(upstreamName: string)
    ensures DirectivesOf(ProxyBody(upstreamName)) == NoDirectives.(body := ProxyBody(upstreamName))
  {
    StartsWithAppend(BodyPrefix, "proxy_pass \t\t    http://" + upstreamName + ";");
    BodyLineDirectives(ProxyPassLine(upstreamName));
    ProxyHeaderDirectives();
    DirectivesAppend([ProxyPassLine(upstreamName)], ProxyHeaders);
  }

  /** A location block whose body holds only body lines. */
  lemma WrappedBodyDirectives(body: seq<string>)
    requires DirectivesOf(body) == NoDirectives.(body := body)
    ensures DirectivesOf(LocationBlock(body)) == NoDirectives.(locations := [LocationOpen], body := body)
  {
    DelimiterDirectives();
    assert [LocationOpen] + body + [LocationClose] == [LocationOpen] + (body + [LocationClose]);
    DirectivesAppend(body, [LocationClose]);
    DirectivesAppend([LocationOpen], body + [LocationClose]);
  }

  /** A block made of a head, one location around a body of body lines, and the
      closing `}`. */
  lemma SingleLocationBlock(head: seq<string>, body: seq<string>, dh: Directives)
    requires DirectivesOf(head) == dh && DirectivesOf(body) == NoDirectives.(body := body)
    ensures DirectivesOf(head + LocationBlock(body) + [BlockClose]) ==
      dh.Plus(NoDirectives.(locations := [LocationOpen], body := body))
  {
    WrappedBodyDirectives(body);
    DelimiterDirectives();
    DirectivesAppend(head, LocationBlock(body));
    DirectivesAppend(head + LocationBlock(body), [BlockClose]);
    PlusNothing(dh.Plus(NoDirectives.(locations := [LocationOpen], body := body)));
  }

  lemma LocationDirectives(o: ServerOptions)
    ensures DirectivesOf(LocationLines(o)) ==
      if o.location != NoLocation
      then NoDirectives.(locations := [LocationOpen], body := BodyOf(o))
      else NoDirectives
  {
    if o.location == Proxy {
      ProxyBodyDirectives(o.upstreamName);
      WrappedBodyDirectives(ProxyBody(o.upstreamName));
    } else if o.location == Static {
      StaticBodyDirectives(o.path);
      WrappedBodyDirectives(StaticBody(o.path));
    }
  }

  lemma SslPartDirectives(o: ServerOptions, cfg: NginxConfig)
    ensures DirectivesOf(if o.https then SslLines(cfg) else []) ==
      if o.https then NoDirectives.(certs := CertLines(cfg), includes := [IncludeLine(cfg.location)]) else NoDirectives
  {
    if o.https {
      SslDirectives(cfg);
    } else {
      assert DirectivesOf([]) == NoDirectives;
    }
  }

  /** The groups of a head, an ssl part and a location part closed by `}`. */
  lemma AssembleDirectives(head: seq<string>, ssl: seq<string>, loc: seq<string>, dh: Directives, ds: Directives, dl: Directives)
    requires DirectivesOf(head) == dh && DirectivesOf(ssl) == ds && DirectivesOf(loc) == dl
    ensures DirectivesOf(head + ssl + loc + [BlockClose]) == dh.Plus(ds).Plus(dl)
  {
    DelimiterDirectives();
    DirectivesAppend(head, ssl);
    DirectivesAppend(head + ssl, loc);
    DirectivesAppend(head + ssl + loc, [BlockClose]);
    PlusNothing(dh.Plus(ds).Plus(dl));
  }

  lemma ServerPiecesDirectives(o: ServerOptions, cfg: NginxConfig, dh: Directives, ds: Directives, dl: Directives)
    requires DirectivesOf(ServerHead(o)) == dh
    requires DirectivesOf(if o.https then SslLines(cfg) else []) == ds
    requires DirectivesOf(LocationLines(o)) == dl
    ensures DirectivesOf(ServerLines(o, cfg)) == dh.Plus(ds).Plus(dl)
  {
    AssembleDirectives(ServerHead(o), if o.https then SslLines(cfg) else [], LocationLines(o), dh, ds, dl);
  }

  lemma ServerSummarySum(o: ServerOptions, cfg: NginxConfig)
    ensures var dh := NoDirectives.(blocks := [ServerOpen], listens := [ListenLine(o.port)]);
      var ds := if o.https then NoDirectives.(certs := CertLines(cfg), includes := [IncludeLine(cfg.location)]) else NoDirectives;
      var dl := if o.location != NoLocation then NoDirectives.(locations := [LocationOpen], body := BodyOf(o)) else NoDirectives;
      dh.Plus(ds).Plus(dl) == ServerSummary(o, cfg)
  {
  }

  /** What a server block holds, group by group. */
  function ServerSummary(o: ServerOptions, cfg: NginxConfig): Directives {
    Directives(
      [ServerOpen], [ListenLine(o.port)],
      if o.https then CertLines(cfg) else [],
      if o.https then [IncludeLine(cfg.location)] else [],
      [],
      if o.location != NoLocation then [LocationOpen] else [],
      BodyOf(o))
  }

  /** A server block opens once, listens once on its port, carries the certificate
      lines and the include exactly when it is secure, never redirects, and holds
      the location opener and body its location kind asks for. */
  lemma ServerDirectives(o: ServerOptions, cfg: NginxConfig)
    ensures DirectivesOf(ServerLines(o, cfg)) == ServerSummary(o, cfg)
  {
    var dh := NoDirectives.(blocks := [ServerOpen], listens := [ListenLine(o.port)]);
    var ds := if o.https then NoDirectives.(certs := CertLines(cfg), includes := [IncludeLine(cfg.location)]) else NoDirectives;
    var dl := if o.location != NoLocation then NoDirectives.(locations := [LocationOpen], body := BodyOf(o)) else NoDirectives;
    HeadDirectives(o);
    SslPartDirectives(o, cfg);
    LocationDirectives(o);
    ServerPiecesDirectives(o, cfg, dh, ds, dl);
    ServerSummarySum(o, cfg);
  }

  /** A redirect block opens once, listens once on its port and holds the one
      rewrite line, with no certificate, include or location. */
  lemma RedirectDirectives(o: ServerOptions)
    ensures DirectivesOf(RedirectLines(o)) ==
      NoDirectives.(blocks := [ServerOpen], listens := [ListenLine(o.port)], rewrites := [RewriteLine(o.domain)])
  {
    HeadDirectives(o);
    RewriteDirectives(o.domain);
    DelimiterDirectives();
    DirectivesAppend([RewriteLine(o.domain)], [BlockClose]);
    DirectivesAppend(ServerHead(o), [RewriteLine(o.domain), BlockClose]);
  }

  /** The rewrite sends every path to the same domain over https. */
  lemma RedirectTarget(o: ServerOptions)
    ensures RedirectLines(o)[2] == ServerNameLine(o.domain)
    ensures RedirectLines(o)[4] == "  rewrite ^/(.*) https://" + o.domain + "/$1 permanent;"
    ensures |RedirectLines(o)| == 6 && RedirectLines(o)[5] == BlockClose
  {
  }

  /** Every server block opens with `server {`, its listen line and its name, and
      is closed by `}`. */
  lemma ServerFrame(o: ServerOptions, cfg: NginxConfig)
    ensures var lines := ServerLines(o, cfg);
      && |lines| >= 5
      && lines[0] == ServerOpen && lines[1] == ListenLine(o.port) && lines[2] == ServerNameLine(o.domain)
      && lines[3] == BodySizeLine && lines[|lines| - 1] == BlockClose
  {
  }

  // ---------------------------------------------------------------------------
  // Certificates

  /** `path.join(location, '/ssl')` never doubles the separator: the directory
      ends in `/ssl` right after the location stripped of trailing slashes. */
  lemma DefaultCertsDirShape(location: string)
    ensures var dir := DefaultCertsDir(location); var base := TrimTrailingSlashes(location);
      && base <= location
      && (base == [] || base[|base| - 1] != '/')
      && dir == base + "/ssl"
      && |dir| == |base| + 4
  {
  }

  /** The certificate pair comes from the custom path when custom certificates are
      configured and from the nginx location's ssl directory otherwise, while the
      included ssl.conf is always taken from the nginx location. */
  lemma SslSources(cfg: NginxConfig)
    ensures cfg.ssl.customCerts ==>
      CertLines(cfg) == [CertLine(cfg.ssl.customCertsPath), KeyLine(cfg.ssl.customCertsPath)]
    ensures !cfg.ssl.customCerts ==>
      CertLines(cfg) == [CertLine(DefaultCertsDir(cfg.location)), KeyLine(DefaultCertsDir(cfg.location))]
    ensures SslLines(cfg)[2] == IncludeLine(cfg.location)
  {
  }

  /** The include line ignores the custom certificate path: switching custom
      certificates on or off or moving their path leaves it unchanged. */
  lemma IncludeIgnoresCustomCerts(cfg: NginxConfig, custom: bool, customPath: string)
    ensures SslLines(cfg.(ssl := cfg.ssl.(customCerts := custom, customCertsPath := customPath)))[2]
         == SslLines(cfg)[2]
  {
  }

  // ---------------------------------------------------------------------------
  // The api and site conf files

  /** The options object as `writeApiConf` / `writeSiteConf` first see it, once
      `location` is set: no port yet and `https` unset (falsy). */
  function InitialServerOptions(c: ConfOptions, location: LocationKind): ServerOptions {
    ServerOptions("", c.domain, false, location, c.upstreamName, c.path)
  }

  /** The blocks written by `writeApiConf` / `writeSiteConf` given the secure flag
      (`httpsApi` / `httpsSite`) and the redirect flag (`httpApiRedirect` /
      `httpSiteRedirect`). With the secure flag off and the redirect flag on, no
      block is written at all. */
  function ConfBlocks(secure: bool, redirect: bool, o: ServerOptions, cfg: NginxConfig): seq<string> {
    if secure then
      (if redirect then RedirectLines(o.(port := "80")) else []) + ServerLines(o.(https := true, port := "443 ssl"), cfg)
    else if !redirect then
      ServerLines(o.(port := "80"), cfg)
    else
      []
  }

  function ApiConfLines(c: ConfOptions, cfg: NginxConfig): seq<string> {
    ConfBlocks(cfg.ssl.httpsApi, cfg.ssl.httpApiRedirect, InitialServerOptions(c, Proxy), cfg)
  }

  function SiteConfLines(c: ConfOptions, cfg: NginxConfig): seq<string> {
    ConfBlocks(cfg.ssl.httpsSite, cfg.ssl.httpSiteRedirect, InitialServerOptions(c, Static), cfg)
  }

  /** A redirect block followed by a secure server block. */
  lemma RedirectThenServer(plain: ServerOptions, tls: ServerOptions, cfg: NginxConfig)
    requires tls.https
    ensures DirectivesOf(RedirectLines(plain) + ServerLines(tls, cfg)) == Directives(
      [ServerOpen, ServerOpen], [ListenLine(plain.port), ListenLine(tls.port)],
      CertLines(cfg), [IncludeLine(cfg.location)], [RewriteLine(plain.domain)],
      if tls.location != NoLocation then [LocationOpen] else [], BodyOf(tls))
  {
    RedirectDirectives(plain);
    ServerDirectives(tls, cfg);
    DirectivesAppend(RedirectLines(plain), ServerLines(tls, cfg));
  }

  /** What a conf file holds for each combination of the two flags:
      - secure with redirect: a block on port 80 rewriting to https, then the
        secure block on `443 ssl` with the certificates and the include;
      - secure without redirect: only the secure block;
      - neither: one plain block on port 80, no certificates;
      - redirect without secure: nothing. */
  lemma ConfDirectives(secure: bool, redirect: bool, o: ServerOptions, cfg: NginxConfig)
    requires !o.https
    ensures var d := DirectivesOf(ConfBlocks(secure, redirect, o, cfg));
      var loc := if o.location != NoLocation then [LocationOpen] else [];
      && (secure && redirect ==> d == Directives(
            [ServerOpen, ServerOpen], [ListenLine("80"), ListenLine("443 ssl")],
            CertLines(cfg), [IncludeLine(cfg.location)], [RewriteLine(o.domain)], loc, BodyOf(o)))
      && (secure && !redirect ==> d == Directives(
            [ServerOpen], [ListenLine("443 ssl")],
            CertLines(cfg), [IncludeLine(cfg.location)], [], loc, BodyOf(o)))
      && (!secure && !redirect ==> d == Directives(
            [ServerOpen], [ListenLine("80")], [], [], [], loc, BodyOf(o)))
      && (!secure && redirect ==> d == NoDirectives)
    ensures !secure && redirect ==> ConfBlocks(secure, redirect, o, cfg) == []
  {
    if secure {
      var plain, tls := o.(port := "80"), o.(https := true, port := "443 ssl");
      ServerDirectives(tls, cfg);
      assert BodyOf(tls) == BodyOf(o);
      if redirect {
        RedirectThenServer(plain, tls, cfg);
      } else {
        assert ConfBlocks(secure, redirect, o, cfg) == ServerLines(tls, cfg);
      }
    } else if !redirect {
      ServerDirectives(o.(port := "80"), cfg);
      assert BodyOf(o.(port := "80")) == BodyOf(o);
    }
  }

  /** The api conf proxies to the upstream pool under its own domain; the site
      conf serves its static path. */
  lemma ConfBodies(c: ConfOptions)
    ensures BodyOf(InitialServerOptions(c, Proxy)) == [ProxyPassLine(c.upstreamName)] + ProxyHeaders
    ensures BodyOf(InitialServerOptions(c, Static)) == [RootLine(c.path), SendfileLine, IndexLine]
  {
  }

  // ---------------------------------------------------------------------------
  // The writers

  method WriteStaticLocation(o: ServerOptions, w: WriteStream)
    modifies w
    ensures w.lines == old(w.lines) + StaticLocationLines(o.path)
  {
    w.Write(LocationOpen);
    w.Write(RootLine(o.path));
    w.Write(SendfileLine);
    w.Write(IndexLine);
    w.Write(LocationClose);
  }

  method WriteProxyLocation(o: ServerOptions, w: WriteStream)
    modifies w
    ensures w.lines == old(w.lines) + ProxyLocationLines(o.upstreamName)
  {
    w.Write(LocationOpen);
    w.Write(ProxyPassLine(o.upstreamName));
    w.Write(ForwardedProtoHeader);
    w.Write(ForwardedForHeader);
    w.Write(HostHeader);
    w.Write(ProxyMarkerHeader);
    w.Write(ConnectionHeader);
    w.Write(LocationClose);
  }

  method WriteServerRedirect(o: ServerOptions, w: WriteStream)
    modifies w
    ensures w.lines == old(w.lines) + RedirectLines(o)
  {
    w.Write(ServerOpen);
    w.Write(ListenLine(o.port));
    w.Write(ServerNameLine(o.domain));
    w.Write(BodySizeLine);
    w.Write(RewriteLine(o.domain));
    w.Write(BlockClose);
  }

  method WriteServerSsl(cfg: NginxConfig, w: WriteStream)
    modifies w
    ensures w.lines == old(w.lines) + SslLines(cfg)
  {
    var certsLocation := DefaultCertsDir(cfg.location);
    if cfg.ssl.customCerts {
      certsLocation := cfg.ssl.customCertsPath;
    }
    w.Write(CertLine(certsLocation));
    w.Write(KeyLine(certsLocation));
    w.Write(IncludeLine(cfg.location));
  }

  method WriteServer(o: ServerOptions, cfg: NginxConfig, w: WriteStream)
    modifies w
    ensures w.lines == old(w.lines) + ServerLines(o, cfg)
  {
    ghost var start := w.lines;
    ghost var head, ssl, loc := ServerHead(o), (if o.https then SslLines(cfg) else []), LocationLines(o);
    w.Write(ServerOpen);
    w.Write(ListenLine(o.port));
    w.Write(ServerNameLine(o.domain));
    w.Write(BodySizeLine);
    assert w.lines == start + head;
    if o.https {
      WriteServerSsl(cfg, w);
    }
    assert w.lines == start + head + ssl;
    if o.location == Proxy {
      WriteProxyLocation(o, w);
    } else if o.location == Static {
      WriteStaticLocation(o, w);
    }
    assert w.lines == start + head + ssl + loc;
    w.Write(BlockClose);
    Regroup(start, head, ssl, loc, [BlockClose]);
  }

  /** Shared by `writeApiConf` and `writeSiteConf`, which differ only in the
      location kind and the pair of flags they read. */
  method WriteConf(c: ConfOptions, location: LocationKind, secure: bool, redirect: bool, cfg: NginxConfig)
    returns (f: File)
    ensures f == File(c.loc + c.confFileName, ConfBlocks(secure, redirect, InitialServerOptions(c, location), cfg))
  {
    var w := new WriteStream(c.loc + c.confFileName);
    ghost var o0 := InitialServerOptions(c, location);
    var o := InitialServerOptions(c, location);
    if secure {
      if redirect {
        o := o.(port := "80");
        WriteServerRedirect(o, w);
        assert w.lines == RedirectLines(o0.(port := "80"));
      }
      o := o.(https := true);
      o := o.(port := "443 ssl");
      assert o == o0.(https := true, port := "443 ssl");
      WriteServer(o, cfg, w);
    } else if !redirect {
      o := o.(port := "80");
      WriteServer(o, cfg, w);
    }
    f := w.Contents();
  }

  method WriteApiConf(c: ConfOptions, cfg: NginxConfig) returns (f: File)
    ensures f == File(c.loc + c.confFileName, ApiConfLines(c, cfg))
  {
    f := WriteConf(c, Proxy, cfg.ssl.httpsApi, cfg.ssl.httpApiRedirect, cfg);
  }

  method WriteSiteConf(c: ConfOptions, cfg: NginxConfig) returns (f: File)
    ensures f == File(c.loc + c.confFileName, SiteConfLines(c, cfg))
  {
    f := WriteConf(c, Static, cfg.ssl.httpsSite, cfg.ssl.httpSiteRedirect, cfg);
  }

  // ---------------------------------------------------------------------------
  // write: the three files in order

  /** Directory of the upstream file under the nginx location, by platform. */
  function UpstreamDir(os: string): string {
    if os == "mac" then "/servers/" else if os == "ubuntu" then "/conf.d/" else "/nginx/"
  }

  /** Directory of the api and site conf files under the nginx location, by platform. */
  function SitesDir(os: string): string {
    if os == "mac" then "/servers/" else if os == "ubuntu" then "/sites-enabled/" else "/nginx/"
  }

  function UpstreamOptionsOf(nginx: NginxConfig, os: string): UpstreamOptions {
    UpstreamOptions(nginx.location + UpstreamDir(os), nginx.upstream.ctrlPort, nginx.upstream.ipEnvName,
                    nginx.upstream.upstreamName, nginx.upstream.count)
  }

  function ApiConfOptionsOf(nginx: NginxConfig, os: string): ConfOptions {
    ConfOptions(nginx.location + SitesDir(os), nginx.apiConf.fileName, nginx.apiConf.domain, nginx.upstream.upstreamName, "")
  }

  function SiteConfOptionsOf(nginx: NginxConfig, os: string): ConfOptions {
    ConfOptions(nginx.location + SitesDir(os), nginx.siteConf.fileName, nginx.siteConf.domain, "", nginx.siteConf.path)
  }

  /** `write`: the upstream file, then the api conf, then the site conf only when a
      site domain is configured. The platform is a parameter. */
  method Write(nginx: NginxConfig, os: string, env: Env) returns (files: seq<File>)
    ensures |files| == if nginx.siteConf.domain != "" then 3 else 2
    ensures files[0] == File(nginx.location + UpstreamDir(os) + "upstream.conf", UpstreamLines(UpstreamOptionsOf(nginx, os), env))
    ensures files[1] == File(nginx.location + SitesDir(os) + nginx.apiConf.fileName, ApiConfLines(ApiConfOptionsOf(nginx, os), nginx))
    ensures nginx.siteConf.domain != "" ==>
      files[2] == File(nginx.location + SitesDir(os) + nginx.siteConf.fileName, SiteConfLines(SiteConfOptionsOf(nginx, os), nginx))
  {
    var upstream, _ := WriteUpstream(UpstreamOptionsOf(nginx, os), env);
    var api := WriteApiConf(ApiConfOptionsOf(nginx, os), nginx);
    files := [upstream, api];
    if nginx.siteConf.domain != "" {
      var site := WriteSiteConf(SiteConfOptionsOf(nginx, os), nginx);
      files := files + [site];
    }
  }
}
