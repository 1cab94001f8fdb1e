/**
 * Client setup: the proxy settings handed to the client, derived from the
 * optional proxy section of the configuration.
 */
module Client {
  import opened Wrappers
  import opened Strings
  import opened Telegram

  /** The proxy section of the configuration; each key may be missing, or present holding null. */
  datatype ProxyConfig = ProxyConfig(
    server: Attr<string>,
    kind: Attr<string>,
    port: Attr<int>,
    secret: Attr<string>,
    username: Attr<string>,
    password: Attr<string>)

  /** The proxy settings the client receives. */
  datatype Proxy =
    | Mtproto(addr: string, port: Option<int>, secret: Option<string>)
    | Socks5(addr: string, port: Option<int>, username: Option<string>, password: Option<string>)

  /** The errors the setup raises: a null type cannot be lower-cased; a missing port is a missing key. */
  datatype SetupError = NullType | MissingPort

  /** The setup's outcome: the proxy to use (None: connect directly), or the error it raised. */
  datatype Setup = Configured(proxy: Option<Proxy>) | Raised(error: SetupError)

  /** `config.get(key, default)`: the default for a missing key, the value (possibly null) otherwise. */
  function ConfigGet<T>(a: Attr<T>, default: Option<T>): Option<T> {
    if a.Absent? then default else a.v
  }

  /** `setup_proxy` */
  function SetupProxy(cfg: ProxyConfig): Setup {
    if !Truthy(cfg.server) then Configured(None)
    else
      var kind := ConfigGet(cfg.kind, Some(""));
      if kind.None? then Raised(NullType)
      else
        var k := Lower(kind.value);
        if k == "mtproto" then
          if cfg.port.Absent? then Raised(MissingPort)
          else Configured(Some(Mtproto(TextOf(cfg.server), cfg.port.v, ConfigGet(cfg.secret, Some("")))))
        else if k == "socks5" then
          if cfg.port.Absent? then Raised(MissingPort)
          else Configured(Some(Socks5(TextOf(cfg.server), cfg.port.v, ConfigGet(cfg.username, None), ConfigGet(cfg.password, None))))
        else Configured(None)
  }

  /** The proxy part of `create_client`: a proxy only from a given, non-empty section. */
  function ClientProxy(cfg: Option<ProxyConfig>): Setup {
    if cfg.None? then Configured(None) else SetupProxy(cfg.value)
  }

  /** A section without the server key (an empty section among them) connects directly, like no section at all. */
  lemma EmptySectionIsNoProxy(kind: Attr<string>, port: Attr<int>, secret: Attr<string>, username: Attr<string>, password: Attr<string>)
    ensures ClientProxy(Some(ProxyConfig(Absent, kind, port, secret, username, password))) == ClientProxy(None) == Configured(None)
  {
  }

  /**
   * A proxy is configured exactly when the server is set, the type names one
   * of the two supported kinds in any letter case, and the port key is
   * present; the proxy then points at the configured server and port.
   */
  lemma ProxyIff(cfg: ProxyConfig)
    ensures var r := SetupProxy(cfg);
      (r.Configured? && r.proxy.Some?) <==>
        && Truthy(cfg.server)
        && cfg.kind != Present(None)
        && Lower(TextOf(cfg.kind)) in {"mtproto", "socks5"}
        && cfg.port.Present?
    ensures var r := SetupProxy(cfg);
      r.Configured? && r.proxy.Some? ==> r.proxy.value.addr == TextOf(cfg.server) && r.proxy.value.port == cfg.port.v
  {
  }

  /** The error cases: a null type with a server set, and a supported type without a port. */
  lemma SetupErrors(cfg: ProxyConfig)
    requires Truthy(cfg.server)
    ensures cfg.kind == Present(None) ==> SetupProxy(cfg) == Raised(NullType)
    ensures cfg.kind.Present? && cfg.kind.v.Some? && Lower(cfg.kind.v.value) in {"mtproto", "socks5"} && cfg.port.Absent?
      ==> SetupProxy(cfg) == Raised(MissingPort)
  {
  }

  /** The type is compared in lower case: "SOCKS5" selects a SOCKS5 proxy, and an MTProto secret defaults to "". */
  lemma TypeCaseInsensitive(server: string, port: int)
    requires server != ""
    ensures SetupProxy(ProxyConfig(Present(Some(server)), Present(Some("SOCKS5")), Present(Some(port)), Absent, Absent, Absent))
      == Configured(Some(Socks5(server, Some(port), None, None)))
    ensures SetupProxy(ProxyConfig(Present(Some(server)), Present(Some("MTProto")), Present(Some(port)), Absent, Absent, Absent))
      == Configured(Some(Mtproto(server, Some(port), Some(""))))
  {
    assert Lower("SOCKS5") == "socks5";
    assert Lower("MTProto") == "mtproto";
  }

  /** An unsupported or missing type connects directly, whatever else is set. */
  lemma UnsupportedType(cfg: ProxyConfig)
    requires cfg.kind.Absent? || (cfg.kind.v.Some? && Lower(cfg.kind.v.value) !in {"mtproto", "socks5"})
    ensures SetupProxy(cfg) == Configured(None)
  {
    if cfg.kind.Absent? {
      assert Lower("") == "";
    }
  }
}
