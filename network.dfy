/** Chain identifier to indexer endpoint resolution. The endpoint URLs are
    settings read once, when the resolver is built; a setting that is not
    configured reads as `None` (JavaScript `undefined`). */
module Network {
  import opened Wrappers
  import opened Errors

  /** The seven supported chain identifiers. */
  const SUPPORTED_CHAIN_IDS: set<string> :=
    {"1", "137", "324", "8453", "42161", "42161-plasma", "8453-plasma"}

  /** The setting each supported chain identifier reads its URL from. */
  const URL_SETTING: map<string, string> := map[
    "1" := "ETH_URL",
    "137" := "POLYGON_URL",
    "324" := "ZKSYNC_URL",
    "8453" := "BASE_URL",
    "42161" := "ARBITRUM_URL",
    "42161-plasma" := "ARBITRUM_PLASMA_URL",
    "8453-plasma" := "BASE_PLASMA_URL"
  ]

  /** `configService.get(name)`. */
  function Setting(config: map<string, string>, name: string): Option<string> {
    if name in config then Some(config[name]) else None
  }

  /** `NetworkUtils`: the endpoint URLs, fixed at construction, and the
      explorer (fallback) link lookup. */
  datatype NetworkUtils = NetworkUtils(
    ethUrl: Option<string>,
    polygonUrl: Option<string>,
    zkSyncUrl: Option<string>,
    baseUrl: Option<string>,
    arbitrumUrl: Option<string>,
    arbitrumPlasmaUrl: Option<string>,
    basePlasmaUrl: Option<string>,
    /** `getExplorerLinkByChainId`, which this model leaves unspecified. */
    explorer: string -> Option<string>)
  {
    /** `getLinkByChainId`: an exact match on one of the seven identifiers,
        anything else throws. */
    function GetLinkByChainId(chainId: string): (r: Result<Option<string>, Thrown>)
      ensures r.Success? <==> chainId in SUPPORTED_CHAIN_IDS
      ensures r.Failure? ==> r.error == Error("Unsupported chainId: " + chainId)
      ensures chainId == "1" ==> r == Success(ethUrl)
      ensures chainId == "137" ==> r == Success(polygonUrl)
      ensures chainId == "324" ==> r == Success(zkSyncUrl)
      ensures chainId == "8453" ==> r == Success(baseUrl)
      ensures chainId == "42161" ==> r == Success(arbitrumUrl)
      ensures chainId == "42161-plasma" ==> r == Success(arbitrumPlasmaUrl)
      ensures chainId == "8453-plasma" ==> r == Success(basePlasmaUrl)
    {
      match chainId
      case "1" => Success(ethUrl)
      case "137" => Success(polygonUrl)
      case "324" => Success(zkSyncUrl)
      case "8453" => Success(baseUrl)
      case "42161" => Success(arbitrumUrl)
      case "42161-plasma" => Success(arbitrumPlasmaUrl)
      case "8453-plasma" => Success(basePlasmaUrl)
      case _ => Failure(Error("Unsupported chainId: " + chainId))
    }

    /** `getExplorerLinkByChainId`. */
    function GetExplorerLinkByChainId(chainId: string): Option<string> {
      explorer(chainId)
    }
  }

  /** Builds the resolver from the settings, reading each URL once. */
  function FromConfig(config: map<string, string>, explorer: string -> Option<string>): (n: NetworkUtils)
    ensures n.explorer == explorer
  {
    NetworkUtils(
      Setting(config, "ETH_URL"),
      Setting(config, "POLYGON_URL"),
      Setting(config, "ZKSYNC_URL"),
      Setting(config, "BASE_URL"),
      Setting(config, "ARBITRUM_URL"),
      Setting(config, "ARBITRUM_PLASMA_URL"),
      Setting(config, "BASE_PLASMA_URL"),
      explorer)
  }

  /** A resolver built from `config` sends each supported chain to the URL
      under that chain's own setting, and rejects every other identifier. */
  lemma ResolvesFromSettings(config: map<string, string>, explorer: string -> Option<string>, chainId: string)
    ensures URL_SETTING.Keys == SUPPORTED_CHAIN_IDS
    ensures var r := FromConfig(config, explorer).GetLinkByChainId(chainId);
            (chainId in URL_SETTING ==> r == Success(Setting(config, URL_SETTING[chainId])))
            && (chainId !in URL_SETTING ==> r == Failure(Error("Unsupported chainId: " + chainId)))
  {
  }
}
