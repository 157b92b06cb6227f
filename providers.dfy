/**
 * The provider records (provider.rs, with `CustomEndpoint` from settings.rs):
 * a provider of one application, its metadata, and the legacy per-application
 * manager that `config.json` held before the store existed.
 */
module Providers {
  import opened Wrappers
  import opened Values

  /** A user-added endpoint URL of a provider. Times are milliseconds. */
  datatype CustomEndpoint = CustomEndpoint(url: string, addedAt: int, lastUsed: Option<int>)

  /** The usage-query script attached to a provider's metadata. */
  datatype UsageScript = UsageScript(
    enabled: bool,
    code: string,
    timeout: Option<nat>,
    apiKey: Option<string>,
    baseUrl: Option<string>,
    accessToken: Option<string>,
    userId: Option<string>,
    autoQueryInterval: Option<nat>)

  /** Provider metadata, stored as a JSON blob beside the provider row. */
  datatype ProviderMeta = ProviderMeta(
    customEndpoints: map<string, CustomEndpoint>,
    isPartner: Option<bool>,
    partnerPromotionKey: Option<string>,
    candidateModels: Option<seq<string>>,
    usageScript: Option<UsageScript>)

  /** `ProviderMeta::default()`: no endpoints, no partner data, no candidates, no script. */
  const DefaultMeta: ProviderMeta := ProviderMeta(map[], None, None, None, None)

  datatype Provider = Provider(
    id: string,
    name: string,
    settingsConfig: Json,
    websiteUrl: Option<string>,
    category: Option<string>,
    createdAt: Option<int>,
    sortIndex: Option<nat>,
    notes: Option<string>,
    meta: Option<ProviderMeta>,
    icon: Option<string>,
    iconColor: Option<string>,
    isPinned: bool,
    isDuplicated: Option<bool>,
    isEditedAfterDuplication: Option<bool>)

  /**
   * `Provider::with_id`: the given id, name, settings and website; every other
   * optional field absent and not pinned.
   */
  function WithId(id: string, name: string, settings: Json, websiteUrl: Option<string>): (p: Provider)
    ensures p.id == id && p.name == name && p.settingsConfig == settings && p.websiteUrl == websiteUrl
    ensures p.category.None? && p.createdAt.None? && p.sortIndex.None? && p.notes.None?
    ensures p.meta.None? && p.icon.None? && p.iconColor.None?
    ensures !p.isPinned && p.isDuplicated.None? && p.isEditedAfterDuplication.None?
  {
    Provider(id, name, settings, websiteUrl, None, None, None, None, None, None, None, false, None, None)
  }

  /** The metadata a provider is saved with: its own, or the default one. */
  function MetaOrDefault(p: Provider): (m: ProviderMeta)
    ensures p.meta.Some? ==> m == p.meta.value
    ensures p.meta.None? ==> m == DefaultMeta
  {
    p.meta.UnwrapOr(DefaultMeta)
  }

  /** The metadata with its endpoints taken out (`std::mem::take`). */
  function WithoutEndpoints(m: ProviderMeta): (r: ProviderMeta)
    ensures r.customEndpoints == map[]
    ensures r.isPartner == m.isPartner && r.partnerPromotionKey == m.partnerPromotionKey
    ensures r.candidateModels == m.candidateModels && r.usageScript == m.usageScript
  {
    m.(customEndpoints := map[])
  }

  /** The legacy per-application manager: providers by id and the `current` id. */
  datatype ProviderManager = ProviderManager(providers: map<string, Provider>, current: string)

  /** `ProviderManager::default()`: no providers and an empty `current`. */
  const DefaultManager: ProviderManager := ProviderManager(map[], "")
}
