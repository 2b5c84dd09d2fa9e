/**
 * The stand-alone nginx generator of the container image (`FILES/nginx/index.js`):
 * it writes an upstream pool of numbered controller hosts, an API proxy block
 * and, when a dashboard domain is set, a dashboard static block. Its settings
 * come from environment variables with fixed defaults; here they are a
 * parameter.
 */
module LegacyNginx {
  import opened Wrappers
  import opened Text
  import opened Sink
  import opened NginxConf

  /** The environment variables the generator reads (`SOAJS_NX_NBCONTROLLER`,
      `SOAJS_NX_APIDOMAIN`, `SOAJS_NX_DASHDOMAIN`, `SOAJS_NX_APIPORT`,
      `SOAJS_NX_HOSTPREFIX`, `SOAJS_NX_CONTROLLERPORT`). An empty string is an
      unset (falsy) variable; the controller count is the number the variable
      holds, when it is set. */
  datatype LegacyEnv = LegacyEnv(
    nbController: Option<nat>,
    apiDomain: string,
    dashDomain: string,
    apiPort: string,
    hostPrefix: string,
    controllerPort: string)

  /** The settings after the defaults are applied; an empty `dashDomain` is the
      `null` default, which turns the dashboard block off. */
  datatype Settings = Settings(
    nbController: nat,
    apiDomain: string,
    dashDomain: string,
    apiPort: string,
    hostPrefix: string,
    controllerPort: string)

  const UpstreamName := "soajs.controller"
  const DashRootLine := BodyLine("root   /opt/soajs/node_modules/soajs.dashboard/ui;")

  function OrDefault(value: string, default: string): string {
    if value != "" then value else default
  }

  /** Every setting but the dashboard domain ends up non-empty; the dashboard
      domain is passed through, so the dashboard block is written exactly when
      its variable is set. */
  function SettingsOf(env: LegacyEnv): (s: Settings)
    ensures s.apiDomain != "" && s.apiPort != "" && s.hostPrefix != "" && s.controllerPort != ""
    ensures s.dashDomain == env.dashDomain
    ensures env.nbController.None? ==> s.nbController == 1
  {
    Settings(
      if env.nbController.Some? then env.nbController.value else 1,
      OrDefault(env.apiDomain, "api.yourdomain.com"),
      env.dashDomain,
      OrDefault(env.apiPort, "8080"),
      OrDefault(env.hostPrefix, "controllerProxy"),
      OrDefault(env.controllerPort, "4000"))
  }

  /** Each setting is its variable when that is set and the fixed default
      otherwise. */
  lemma SettingsDefaults(env: LegacyEnv)
    ensures var s := SettingsOf(env);
      && s.nbController == (if env.nbController == None then 1 else env.nbController.value)
      && s.apiDomain == (if env.apiDomain == "" then "api.yourdomain.com" else env.apiDomain)
      && s.apiPort == (if env.apiPort == "" then "8080" else env.apiPort)
      && s.hostPrefix == (if env.hostPrefix == "" then "controllerProxy" else env.hostPrefix)
      && s.controllerPort == (if env.controllerPort == "" then "4000" else env.controllerPort)
      && s.dashDomain == env.dashDomain
  {
  }

  // ---------------------------------------------------------------------------
  // Host name suffixes

  /** The last two characters of `"000" + i`. */
  function Suffix(i: nat): (r: string)
    ensures |r| == 2
  {
    var t := "000" + NatToString(i);
    t[|t| - 2..]
  }

  /** The suffix is the tens digit followed by the units digit, so it is the
      number zero-padded to two digits below 100 and loses the hundreds above. */
  lemma SuffixDigits(i: nat)
    ensures Suffix(i) == [DigitChar((i / 10) % 10), DigitChar(i % 10)]
  {
    var n := NatToString(i);
    var t := "000" + n;
    LastDigits(i);
    assert t[|t| - 1] == n[|n| - 1];
    if i < 10 {
      assert t[|t| - 2] == '0';
    } else {
      assert t[|t| - 2] == n[|n| - 2];
    }
  }

  lemma SuffixSingleDigit(i: nat)
    requires i < 10
    ensures Suffix(i) == ['0', DigitChar(i)]
  {
    SuffixDigits(i);
  }

  lemma SuffixTwoDigits(i: nat)
    requires 10 <= i < 100
    ensures Suffix(i) == NatToString(i)
  {
    SuffixDigits(i);
    assert NatToString(i) == NatToString(i / 10) + [DigitChar(i % 10)];
  }

  /** Indices a hundred apart share their host name. */
  lemma SuffixWrapsAtHundred(i: nat)
    ensures Suffix(i + 100) == Suffix(i)
  {
    SuffixDigits(i);
    SuffixDigits(i + 100);
    assert (i + 100) / 10 == i / 10 + 10;
    assert (i / 10 + 10) % 10 == (i / 10) % 10;
    assert (i + 100) % 10 == i % 10;
  }

  /** The member line of controller `i`. */
  function HostLine(s: Settings, i: nat): string {
    MemberLine(s.hostPrefix + Suffix(i), s.controllerPort)
  }

  // ---------------------------------------------------------------------------
  // The three files

  method WriteUpstream(s: Settings, loc: string) returns (f: File)
    ensures f.path == loc + "upstream.conf"
    ensures |f.lines| == s.nbController + 2
    ensures f.lines[0] == UpstreamOpen(UpstreamName)
    ensures forall i | 1 <= i <= s.nbController :: f.lines[i] == HostLine(s, i)
    ensures f.lines[|f.lines| - 1] == BlockClose
  {
    var w := new WriteStream(loc + "upstream.conf");
    w.Write(UpstreamOpen(UpstreamName));
    var i := 1;
    while i <= s.nbController
      invariant 1 <= i <= s.nbController + 1
      invariant w.path == loc + "upstream.conf"
      invariant |w.lines| == i
      invariant w.lines[0] == UpstreamOpen(UpstreamName)
      invariant forall j | 1 <= j < i :: w.lines[j] == HostLine(s, j)
    {
      var t := "000" + NatToString(i);
      t := t[|t| - 2..];
      w.Write(MemberLine(s.hostPrefix + t, s.controllerPort));
      i := i + 1;
    }
    w.Write(BlockClose);
    f := w.Contents();
  }

  /** The headers of the API block: the shared proxy headers without
      X-Forwarded-For. */
  const LegacyHeaders: seq<string> := [ForwardedProtoHeader, HostHeader, ProxyMarkerHeader, ConnectionHeader]

  /** The API block: its name and port, then a proxy location towards the pool. */
  function ApiConfLines(s: Settings): seq<string> {
    [ServerOpen, ServerNameLine(s.apiDomain), ListenLine(s.apiPort)]
    + LocationBlock([ProxyPassLine(UpstreamName)] + LegacyHeaders) + [BlockClose]
  }

  /** The dashboard block: its name only, then a static location. */
  function DashConfLines(s: Settings): seq<string> {
    [ServerOpen, ServerNameLine(s.dashDomain)] + LocationBlock([DashRootLine, IndexLine]) + [BlockClose]
  }

  /** The four header lines of the API location, written one by one. */
  method WriteLegacyHeaders(w: WriteStream)
    modifies w
    ensures w.lines == old(w.lines) + LegacyHeaders
  {
    w.Write(ForwardedProtoHeader);
    w.Write(HostHeader);
    w.Write(ProxyMarkerHeader);
    w.Write(ConnectionHeader);
  }

  method WriteApiConf(s: Settings, loc: string) returns (f: File)
    ensures f.path == loc + "api.conf" && f.lines == ApiConfLines(s)
  {
    var w := new WriteStream(loc + "api.conf");
    w.Write(ServerOpen);
    w.Write(ServerNameLine(s.apiDomain));
    w.Write(ListenLine(s.apiPort));
    ghost var head := w.lines;
    w.Write(LocationOpen);
    w.Write(ProxyPassLine(UpstreamName));
    WriteLegacyHeaders(w);
    w.Write(LocationClose);
    assert w.lines == head + LocationBlock([ProxyPassLine(UpstreamName)] + LegacyHeaders);
    w.Write(BlockClose);
    f := w.Contents();
  }

  method WriteDashConf(s: Settings, loc: string) returns (f: File)
    ensures f.path == loc + "dash.conf" && f.lines == DashConfLines(s)
  {
    var w := new WriteStream(loc + "dash.conf");
    w.Write(ServerOpen);
    w.Write(ServerNameLine(s.dashDomain));
    w.Write(LocationOpen);
    w.Write(DashRootLine);
    w.Write(IndexLine);
    w.Write(LocationClose);
    w.Write(BlockClose);
    f := w.Contents();
  }

  /** The script body: the upstream pool into conf.d, the API block into
      sites-enabled, and the dashboard block beside it only when a dashboard
      domain is set. */
  method Run(env: LegacyEnv) returns (files: seq<File>)
    ensures var s := SettingsOf(env);
      && |files| == (if env.dashDomain != "" then 3 else 2)
      && files[0].path == "/etc/nginx/conf.d/upstream.conf"
      && |files[0].lines| == s.nbController + 2
      && files[0].lines[0] == UpstreamOpen(UpstreamName)
      && files[0].lines[s.nbController + 1] == BlockClose
      && (forall i | 1 <= i <= s.nbController :: files[0].lines[i] == HostLine(s, i))
      && files[1] == File("/etc/nginx/sites-enabled/api.conf", ApiConfLines(s))
      && (env.dashDomain != "" ==> files[2] == File("/etc/nginx/sites-enabled/dash.conf", DashConfLines(s)))
  {
    var s := SettingsOf(env);
    var upstream := WriteUpstream(s, "/etc/nginx/conf.d/");
    var api := WriteApiConf(s, "/etc/nginx/sites-enabled/");
    files := [upstream, api];
    if s.dashDomain != "" {
      var dash := WriteDashConf(s, "/etc/nginx/sites-enabled/");
      files := files + [dash];
    }
  }

  // ---------------------------------------------------------------------------
  // What the blocks hold

  /** The API block has the forwarded headers of the configurable generator
      except X-Forwarded-For, in the same order. */
  lemma LegacyHeadersOmitForwardedFor()
    ensures LegacyHeaders == [ProxyHeaders[0]] + ProxyHeaders[2..]
    ensures ForwardedForHeader !in LegacyHeaders
    ensures |LegacyHeaders| == 4
  {
    assert ForwardedForHeader[24] == 'X' && ForwardedForHeader[26] == 'F' && ForwardedForHeader[36] == 'F';
    assert ForwardedProtoHeader[36] == 'P';
    assert HostHeader[24] == 'H';
    assert ProxyMarkerHeader[26] == 'N';
    assert ConnectionHeader[24] == 'C';
  }

  lemma LegacyHeaderDirectives()
    ensures DirectivesOf(LegacyHeaders) == NoDirectives.(body := LegacyHeaders)
  {
    StartsWithAppend(BodyPrefix, "proxy_set_header   \tX-Forwarded-Proto \t    $scheme;");
    StartsWithAppend(BodyPrefix, "proxy_set_header   \tHost             \t\t$http_host;");
    StartsWithAppend(BodyPrefix, "proxy_set_header   \tX-NginX-Proxy     \t    true;");
    StartsWithAppend(BodyPrefix, "proxy_set_header   \tConnection        \t    \"\";");
    BodyDirectives(LegacyHeaders);
  }

  /** The proxy location body of the API block, towards any pool `name`. */
  lemma LegacyBodyDirectives(name: string)
    ensures DirectivesOf([ProxyPassLine(name)] + LegacyHeaders) ==
      NoDirectives.(body := [ProxyPassLine(name)] + LegacyHeaders)
  {
    StartsWithAppend(BodyPrefix, "proxy_pass \t\t    http://" + name + ";");
    BodyLineDirectives(ProxyPassLine(name));
    LegacyHeaderDirectives();
    DirectivesAppend([ProxyPassLine(name)], LegacyHeaders);
  }

  lemma ApiHeadDirectives(s: Settings)
    ensures DirectivesOf([ServerOpen, ServerNameLine(s.apiDomain), ListenLine(s.apiPort)]) ==
      NoDirectives.(blocks := [ServerOpen], listens := [ListenLine(s.apiPort)])
  {
    var open, name, listen := ServerOpen, ServerNameLine(s.apiDomain), ListenLine(s.apiPort);
    OpenerDirectives();
    ServerNameDirectives(s.apiDomain);
    ListenDirectives(s.apiPort);
    DirectivesAppend([open], [name]);
    assert [open] + [name] == [open, name];
    DirectivesAppend([open, name], [listen]);
    assert [open, name] + [listen] == [open, name, listen];
  }

  /** One block, one listen line on the API port, a proxy location towards the
      controller pool, and no certificate, include or rewrite line. */
  lemma ApiConfDirectives(s: Settings)
    ensures DirectivesOf(ApiConfLines(s)) ==
      NoDirectives.(blocks := [ServerOpen], listens := [ListenLine(s.apiPort)], locations := [LocationOpen],
                    body := [ProxyPassLine(UpstreamName)] + LegacyHeaders)
  {
    ApiHeadDirectives(s);
    LegacyBodyDirectives(UpstreamName);
    SingleLocationBlock([ServerOpen, ServerNameLine(s.apiDomain), ListenLine(s.apiPort)],
                        [ProxyPassLine(UpstreamName)] + LegacyHeaders,
                        NoDirectives.(blocks := [ServerOpen], listens := [ListenLine(s.apiPort)]));
  }

  lemma DashHeadDirectives(s: Settings)
    ensures DirectivesOf([ServerOpen, ServerNameLine(s.dashDomain)]) == NoDirectives.(blocks := [ServerOpen])
  {
    OpenerDirectives();
    ServerNameDirectives(s.dashDomain);
    DirectivesAppend([ServerOpen], [ServerNameLine(s.dashDomain)]);
    assert [ServerOpen] + [ServerNameLine(s.dashDomain)] == [ServerOpen, ServerNameLine(s.dashDomain)];
  }

  /** One block with no listen line at all, and a static location serving the
      dashboard's files. */
  lemma DashConfDirectives(s: Settings)
    ensures DirectivesOf(DashConfLines(s)) ==
      NoDirectives.(blocks := [ServerOpen], locations := [LocationOpen], body := [DashRootLine, IndexLine])
  {
    DashHeadDirectives(s);
    DashBodyDirectives();
    SingleLocationBlock([ServerOpen, ServerNameLine(s.dashDomain)], [DashRootLine, IndexLine],
                        NoDirectives.(blocks := [ServerOpen]));
  }

  lemma DashBodyDirectives()
    ensures DirectivesOf([DashRootLine, IndexLine]) == NoDirectives.(body := [DashRootLine, IndexLine])
  {
    StartsWithAppend(BodyPrefix, "root   /opt/soajs/node_modules/soajs.dashboard/ui;");
    StartsWithAppend(BodyPrefix, "index  index.html index.htm;");
    BodyDirectives([DashRootLine, IndexLine]);
  }
}
