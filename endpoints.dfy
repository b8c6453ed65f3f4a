/**
 * The Kraken REST endpoints: the API domain, the public and private path prefixes, the
 * endpoint names, and the two builders that concatenate them into a request URL.
 */
module Endpoints {
  import opened Wrappers

  const ApiDomain: string := "https://api.kraken.com"

  /** Path prefix of the public (market data) endpoints. */
  const PublicPrefix: string := "/0/public/"
  const Time: string := "Time"
  const Status: string := "SystemStatus"
  const Assets: string := "Assets"
  const AssetPairs: string := "AssetPairs"
  const Ticker: string := "Ticker"
  const Ohlc: string := "OHLC"
  const Depth: string := "Depth"
  const Trades: string := "Trades"
  const Spread: string := "Spread"

  /** Path prefix of the private (authenticated) endpoints. */
  const PrivatePrefix: string := "/0/private/"
  const Balance: string := "Balance"
  const TradeBalance: string := "TradeBalance"
  const OpenOrders: string := "OpenOrders"
  const ClosedOrders: string := "ClosedOrders"
  const QueryOrders: string := "QueryOrders"
  const TradesHistory: string := "TradesHistory"
  const QueryTrades: string := "QueryTrades"
  const OpenPositions: string := "OpenPositions"
  const Ledgers: string := "Ledgers"
  const QueryLedgers: string := "QueryLedgers"
  const TradeVolume: string := "TradeVolume"
  const AddExport: string := "AddExport"
  const ExportStatus: string := "ExportStatus"
  const RetrieveExport: string := "RetrieveExport"
  const RemoveExport: string := "RemoveExport"
  const AddOrder: string := "AddOrder"
  const CancelOrder: string := "CancelOrder"
  const CancelAllOrders: string := "CancelAll"
  const CancelAllOrdersAfter: string := "CancelAllOrdersAfter"

  /** `get_public_endpoint`: the domain, the public prefix, then the endpoint. */
  function PublicEndpoint(endpoint: string): (url: string)
    ensures |url| == |ApiDomain| + |PublicPrefix| + |endpoint|
    ensures url[..|ApiDomain|] == ApiDomain
    ensures url[|ApiDomain|..|ApiDomain| + |PublicPrefix|] == PublicPrefix
    ensures url[|ApiDomain| + |PublicPrefix|..] == endpoint
  {
    ApiDomain + PublicPrefix + endpoint
  }

  /** `get_private_endpoint`: the domain, the private prefix, then the endpoint. */
  function PrivateEndpoint(endpoint: string): (url: string)
    ensures |url| == |ApiDomain| + |PrivatePrefix| + |endpoint|
    ensures url[..|ApiDomain|] == ApiDomain
    ensures url[|ApiDomain|..|ApiDomain| + |PrivatePrefix|] == PrivatePrefix
    ensures url[|ApiDomain| + |PrivatePrefix|..] == endpoint
  {
    ApiDomain + PrivatePrefix + endpoint
  }

  /** The endpoint a URL names, if the URL is a public endpoint URL at all. */
  function PublicEndpointOf(url: string): Option<string>
  {
    var k := |ApiDomain| + |PublicPrefix|;
    if |url| >= k && url[..k] == ApiDomain + PublicPrefix then Some(url[k..]) else None
  }

  /** The endpoint a URL names, if the URL is a private endpoint URL at all. */
  function PrivateEndpointOf(url: string): Option<string>
  {
    var k := |ApiDomain| + |PrivatePrefix|;
    if |url| >= k && url[..k] == ApiDomain + PrivatePrefix then Some(url[k..]) else None
  }

  /** Dropping the fixed prefix recovers the endpoint, so the public builder is injective. */
  lemma PublicEndpointRoundTrip(endpoint: string)
    ensures PublicEndpointOf(PublicEndpoint(endpoint)) == Some(endpoint)
  {
    var url := PublicEndpoint(endpoint);
    assert url[..|ApiDomain| + |PublicPrefix|] == ApiDomain + PublicPrefix;
  }

  /** Dropping the fixed prefix recovers the endpoint, so the private builder is injective. */
  lemma PrivateEndpointRoundTrip(endpoint: string)
    ensures PrivateEndpointOf(PrivateEndpoint(endpoint)) == Some(endpoint)
  {
    var url := PrivateEndpoint(endpoint);
    assert url[..|ApiDomain| + |PrivatePrefix|] == ApiDomain + PrivatePrefix;
  }

  /** Two endpoints with the same public URL are the same endpoint; likewise for private URLs. */
  lemma BuildersAreInjective(a: string, b: string)
    ensures PublicEndpoint(a) == PublicEndpoint(b) ==> a == b
    ensures PrivateEndpoint(a) == PrivateEndpoint(b) ==> a == b
  {
    PublicEndpointRoundTrip(a);
    PublicEndpointRoundTrip(b);
    PrivateEndpointRoundTrip(a);
    PrivateEndpointRoundTrip(b);
  }

  /**
   * No public URL is a private URL: the prefixes "/0/public/" and "/0/private/" differ in
   * their fifth character ('u' against 'r'), which sits at the same place in both URLs.
   */
  lemma {:induction false} PublicAndPrivateNeverCollide(a: string, b: string)
    ensures PublicEndpoint(a) != PrivateEndpoint(b)
    ensures PrivateEndpointOf(PublicEndpoint(a)) == None
    ensures PublicEndpointOf(PrivateEndpoint(b)) == None
  {
    var pub, priv := PublicEndpoint(a), PrivateEndpoint(b);
    var k := |ApiDomain| + 4;
    assert pub[k] == PublicPrefix[4] == 'u';
    assert priv[k] == PrivatePrefix[4] == 'r';
    var kPriv := |ApiDomain| + |PrivatePrefix|;
    if |pub| >= kPriv {
      assert pub[..kPriv][k] == 'u' != (ApiDomain + PrivatePrefix)[k];
    }
    var kPub := |ApiDomain| + |PublicPrefix|;
    if |priv| >= kPub {
      assert priv[..kPub][k] == 'r' != (ApiDomain + PublicPrefix)[k];
    }
  }
}
