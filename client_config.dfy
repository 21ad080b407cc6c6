/**
 * The client's typed view of its configuration (ClientConfigImpl): every
 * getter is one lookup through the configuration provider, so each is
 * specified here as a function of the provider's loaded map.
 */
module ClientConfig {
  import opened Wrappers
  import opened ConfigKeys
  import opened ConfigProvider

  const TopologyViewPath: string := "/client/index.html"

  function ServerBaseUri(props: Properties): Option<string> {
    Get(props, PropKeyServerBaseUri)
  }

  function ConnectionTimeoutSec(props: Properties): Option<int> {
    IntegerValue(Get(props, PropKeyServerConnectionTimeoutSec))
  }

  function ReadTimeoutSec(props: Properties): Option<int> {
    IntegerValue(Get(props, PropKeyServerReadTimeoutSec))
  }

  function SrcComponentName(props: Properties): Option<string> {
    Get(props, PropKeyServerSrcComponentName)
  }

  function DummyInvokerSetFlag(props: Properties): bool {
    BooleanValue(Get(props, PropKeyServerDummyInvokerSetFlag))
  }

  /** Java's `String + String` renders a null reference as "null". */
  function JavaText(s: Option<string>): string {
    if s.Some? then s.value else "null"
  }

  /**
   * getTopologyViewUri: the configured URI, unless it is absent or empty, in
   * which case the page under the server base URI.
   */
  function TopologyViewUri(props: Properties): string {
    var configUri := Get(props, PropKeyServerTopologyViewUri);
    if configUri.None? || configUri.value == "" then JavaText(ServerBaseUri(props)) + TopologyViewPath
    else configUri.value
  }

  /** A configured, non-empty topology view URI is used as it is. */
  lemma TopologyViewUriConfigured(props: Properties)
    requires PropKeyServerTopologyViewUri in props && props[PropKeyServerTopologyViewUri] != ""
    ensures TopologyViewUri(props) == props[PropKeyServerTopologyViewUri]
  {
  }

  /** An absent or empty topology view URI falls back to the page under the server base URI. */
  lemma TopologyViewUriFallback(props: Properties)
    requires PropKeyServerTopologyViewUri !in props || props[PropKeyServerTopologyViewUri] == ""
    ensures PropKeyServerBaseUri in props ==>
      TopologyViewUri(props) == props[PropKeyServerBaseUri] + "/client/index.html"
    ensures PropKeyServerBaseUri !in props ==> TopologyViewUri(props) == "null/client/index.html"
  {
    assert "null" + TopologyViewPath == "null/client/index.html";
  }

  /** The topology view URI is never empty. */
  lemma TopologyViewUriNonEmpty(props: Properties)
    ensures |TopologyViewUri(props)| > 0
  {
    var configUri := Get(props, PropKeyServerTopologyViewUri);
    if configUri.None? || configUri.value == "" {
      assert |TopologyViewPath| > 0;
    }
  }

  /** With exactly the default definitions loaded, every getter gives the documented default. */
  lemma DefaultConfigValues()
    ensures ServerBaseUri(DefinedMap()) == Some("http://127.0.0.1:8080/DEMO")
    ensures ConnectionTimeoutSec(DefinedMap()) == Some(600)
    ensures ReadTimeoutSec(DefinedMap()) == Some(600)
    ensures SrcComponentName(DefinedMap()) == Some(ClientTypeHitachi)
    ensures !DummyInvokerSetFlag(DefinedMap())
    ensures TopologyViewUri(DefinedMap()) == "http://127.0.0.1:8080/DEMO/client/index.html"
  {
    DefinedMapValues();
    ShowSixHundred();
    IntegerValueRoundTrip(600);
    BooleanValueSpelled(Some("false"));
    TopologyViewUriFallback(DefinedMap());
    assert "http://127.0.0.1:8080/DEMO" + TopologyViewPath == "http://127.0.0.1:8080/DEMO/client/index.html";
  }

  /** The decimal text of the default timeout. */
  lemma ShowSixHundred()
    ensures Decimal.Show(600) == "600"
  {
    assert Decimal.DigitChar(6) == '6' && Decimal.DigitChar(0) == '0';
    assert Decimal.Digits(6) == "6";
    assert Decimal.Digits(60) == "60";
  }

  /**
   * ClientConfigImpl: the getters read through the provider, loading its map on
   * the first call.
   */
  class Config {
    const provider: Provider

    constructor (provider: Provider)
      ensures this.provider == provider
    {
      this.provider := provider;
    }

    method GetServerBaseUri(fs: FileSystem) returns (uri: Option<string>)
      modifies provider
      ensures provider.configMap == Some(old(provider.CacheAfter(fs)))
      ensures uri == ServerBaseUri(provider.configMap.value)
    {
      uri := provider.GetProperty(PropKeyServerBaseUri, fs);
    }

    method GetConnectionTimeoutSec(fs: FileSystem) returns (sec: Option<int>)
      modifies provider
      ensures provider.configMap == Some(old(provider.CacheAfter(fs)))
      ensures sec == ConnectionTimeoutSec(provider.configMap.value)
    {
      sec := provider.GetIntegerProperty(PropKeyServerConnectionTimeoutSec, fs);
    }

    method GetReadTimeoutSec(fs: FileSystem) returns (sec: Option<int>)
      modifies provider
      ensures provider.configMap == Some(old(provider.CacheAfter(fs)))
      ensures sec == ReadTimeoutSec(provider.configMap.value)
    {
      sec := provider.GetIntegerProperty(PropKeyServerReadTimeoutSec, fs);
    }

    method GetSrcComponentName(fs: FileSystem) returns (name: Option<string>)
      modifies provider
      ensures provider.configMap == Some(old(provider.CacheAfter(fs)))
      ensures name == SrcComponentName(provider.configMap.value)
    {
      name := provider.GetProperty(PropKeyServerSrcComponentName, fs);
    }

    method GetDummyInvokerSetFlag(fs: FileSystem) returns (flag: bool)
      modifies provider
      ensures provider.configMap == Some(old(provider.CacheAfter(fs)))
      ensures flag == DummyInvokerSetFlag(provider.configMap.value)
    {
      flag := provider.GetBooleanProperty(PropKeyServerDummyInvokerSetFlag, fs);
    }

    /** Two lookups: the view URI, then the base URI only when the view URI is absent or empty. */
    method GetTopologyViewUri(fs: FileSystem) returns (uri: string)
      modifies provider
      ensures provider.configMap == Some(old(provider.CacheAfter(fs)))
      ensures uri == TopologyViewUri(provider.configMap.value)
    {
      var configUri := provider.GetProperty(PropKeyServerTopologyViewUri, fs);
      if configUri.None? || configUri.value == "" {
        var srvUri := GetServerBaseUri(fs);
        uri := JavaText(srvUri) + TopologyViewPath;
      } else {
        uri := configUri.value;
      }
    }
  }
}
