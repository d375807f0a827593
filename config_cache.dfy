/** `get_tenant_config` (app/services/sheet_service.py): the choice between the spreadsheet backend
    and the CSV templates, memoised per tenant in the module-level TTL cache. What the backends
    deliver is an input: the spreadsheet fetch is a function of the spreadsheet id, the CSV tables
    a value. */
module TenantCache {
  import opened Common
  import opened Dicts
  import opened Ttl
  import opened Sheets
  import opened AppConfig

  /** What `get_gspread_client` gives outside mock mode: an authorised client, None when no
      credentials are configured, or an exception (invalid JSON credentials, a failed
      authorisation), which it does not catch. */
  datatype ClientOutcome = Authorized | NoCredentials | ClientRaised(message: string)

  /** Opening a spreadsheet and reading its four worksheets: the rows, or an exception. */
  datatype SheetFetch = Fetched(tables: RawTables) | FetchRaised(message: string)

  datatype ConfigSource = ConfigSource(
    mockMode: bool,
    tenantMap: Dict<string, string>,
    client: ClientOutcome,
    remote: string -> SheetFetch,
    csv: RawTables)

  /** The value `get_tenant_config` returns, or the exception it raises. */
  datatype Loaded = Loaded(config: TenantConfig) | Raised(message: string)

  /** The CSV fallback every path but a successful fetch ends in. */
  function CsvConfig(src: ConfigSource): TenantConfig {
    Normalized(src.csv)
  }

  /** `TENANT_MAP.get(tenant_id)`, when truthy. */
  function SpreadsheetId(src: ConfigSource, tenant: string): (id: Option<string>)
    ensures id.Some? ==> id.value != "" && Get(src.tenantMap, tenant) == id
    ensures id.None? <==> Get(src.tenantMap, tenant) in {None, Some("")}
  {
    var g := Get(src.tenantMap, tenant);
    if g.Some? && g.value != "" then g else None
  }

  /** One uncached evaluation of `get_tenant_config`. The client is created before the `try`, so its
      exception escapes; without a spreadsheet id the CSV is used; inside the `try` a missing client
      fails on its first use and, like a failed fetch, falls back to the CSV. */
  function LoadTenantConfig(src: ConfigSource, tenant: string): (r: Loaded)
    ensures r.Raised? ==> !src.mockMode && src.client == ClientRaised(r.message)
    ensures r.Loaded? && r.config != CsvConfig(src) ==>
      !src.mockMode && src.client.Authorized? && SpreadsheetId(src, tenant).Some?
  {
    if src.mockMode then Loaded(CsvConfig(src))
    else if src.client.ClientRaised? then Raised(src.client.message)
    else if SpreadsheetId(src, tenant).None? then Loaded(CsvConfig(src))
    else if src.client.NoCredentials? then Loaded(CsvConfig(src))
    else
      match src.remote(SpreadsheetId(src, tenant).value)
      case Fetched(tables) => Loaded(Normalized(tables))
      case FetchRaised(_) => Loaded(CsvConfig(src))
  }

  /** The only exception that escapes is the client's, and only outside mock mode; in particular a
      tenant without a spreadsheet does not shield the caller from invalid credentials. */
  lemma {:induction false} OnlyCredentialErrorsEscape(src: ConfigSource, tenant: string)
    ensures LoadTenantConfig(src, tenant).Raised? <==> !src.mockMode && src.client.ClientRaised?
    ensures LoadTenantConfig(src, tenant).Raised? ==> LoadTenantConfig(src, tenant).message == src.client.message
  {
  }

  /** Every configuration returned is the CSV one unless the spreadsheet of the tenant was fetched,
      which happens only outside mock mode with an authorised client and a spreadsheet id. */
  lemma {:induction false} ConfigComesFromOneSource(src: ConfigSource, tenant: string)
    requires LoadTenantConfig(src, tenant).Loaded?
    ensures var c := LoadTenantConfig(src, tenant).config;
      c == CsvConfig(src)
      || (!src.mockMode && src.client.Authorized? && SpreadsheetId(src, tenant).Some?
          && src.remote(SpreadsheetId(src, tenant).value).Fetched?
          && c == Normalized(src.remote(SpreadsheetId(src, tenant).value).tables))
    ensures src.mockMode || SpreadsheetId(src, tenant).None? ==> LoadTenantConfig(src, tenant).config == CsvConfig(src)
  {
  }

  /** The fallbacks: mock mode, a missing client and a failed fetch all give the CSV configuration. */
  lemma {:induction false} FallbacksGiveCsv(src: ConfigSource, tenant: string)
    ensures src.mockMode ==> LoadTenantConfig(src, tenant) == Loaded(CsvConfig(src))
    ensures !src.mockMode && src.client.NoCredentials? ==> LoadTenantConfig(src, tenant) == Loaded(CsvConfig(src))
    ensures !src.mockMode && src.client.Authorized? && SpreadsheetId(src, tenant).Some?
            && src.remote(SpreadsheetId(src, tenant).value).FetchRaised? ==>
            LoadTenantConfig(src, tenant) == Loaded(CsvConfig(src))
  {
  }

  /** The configuration the memoised `get_tenant_config` yields at `now`: the cached one while it
      is live, a fresh load otherwise. */
  function ConfigAt(slots: map<string, Slot<TenantConfig>>, src: ConfigSource, tenant: string, now: int): (r: Loaded)
    ensures r.Raised? ==> Find(slots, tenant, now).None?
    ensures Find(slots, tenant, now).None? ==> r == LoadTenantConfig(src, tenant)
  {
    if Find(slots, tenant, now).Some? then Loaded(Find(slots, tenant, now).value)
    else LoadTenantConfig(src, tenant)
  }

  /** The cache after one memoised read of `tenant` at `now`: untouched when the tenant had a live
      entry or the load raised, otherwise holding the loaded configuration as one insertion. */
  ghost predicate ReadThrough(before: map<string, Slot<TenantConfig>>, after: map<string, Slot<TenantConfig>>,
                              src: ConfigSource, tenant: string, now: int, ttl: nat, maxSize: nat)
  {
    if Find(before, tenant, now).Some? || LoadTenantConfig(src, tenant).Raised? then after == before
    else IsInsertion(before, after, tenant, LoadTenantConfig(src, tenant).config, now, ttl, maxSize)
  }

  /** Right after a read that did not raise, the tenant has a live entry holding what the read
      returned; a read that raised left the cache as it was. */
  lemma ReadThroughLive(before: map<string, Slot<TenantConfig>>, after: map<string, Slot<TenantConfig>>,
                        src: ConfigSource, tenant: string, now: int, ttl: nat, maxSize: nat)
    requires ReadThrough(before, after, src, tenant, now, ttl, maxSize) && 0 < ttl
    ensures ConfigAt(before, src, tenant, now).Loaded? ==>
      Find(after, tenant, now) == Some(ConfigAt(before, src, tenant, now).config)
    ensures ConfigAt(before, src, tenant, now).Raised? ==> after == before
  {
    if Find(before, tenant, now).None? && LoadTenantConfig(src, tenant).Loaded? {
      ReadBackWithinTtl(before, after, tenant, LoadTenantConfig(src, tenant).config, now, ttl, maxSize, now);
    }
  }

  /** After a read that found no live entry, every read of the same tenant within the time to live
      gives what that read gave: the stored configuration, or the same exception again. */
  lemma ReadThroughRepeat(before: map<string, Slot<TenantConfig>>, after: map<string, Slot<TenantConfig>>,
                          src: ConfigSource, tenant: string, now: int, ttl: nat, maxSize: nat, later: int)
    requires ReadThrough(before, after, src, tenant, now, ttl, maxSize)
    requires Find(before, tenant, now).None? && now <= later < now + ttl
    ensures ConfigAt(after, src, tenant, later) == ConfigAt(before, src, tenant, now)
  {
    if LoadTenantConfig(src, tenant).Loaded? {
      ReadBackWithinTtl(before, after, tenant, LoadTenantConfig(src, tenant).config, now, ttl, maxSize, later);
    }
  }

  /** The memoised `get_tenant_config(tenant_id)` at time `now`: a live cached configuration is
      returned as it is; otherwise the configuration is loaded, and stored only when loading did
      not raise. The second result says whether a load happened. */
  method GetTenantConfig(cache: TtlCache<string, TenantConfig>, src: ConfigSource, tenant: string, now: int)
    returns (r: Loaded, loadedNow: bool)
    requires cache.Valid()
    modifies cache
    ensures cache.Valid()
    ensures r == ConfigAt(old(cache.slots), src, tenant, now)
    ensures !loadedNow <==> Find(old(cache.slots), tenant, now).Some?
    ensures !loadedNow ==> r == Loaded(Find(old(cache.slots), tenant, now).value) && cache.slots == old(cache.slots)
    ensures loadedNow ==> r == LoadTenantConfig(src, tenant)
    ensures loadedNow && r.Raised? ==> cache.slots == old(cache.slots)
    ensures loadedNow && r.Loaded? ==>
      IsInsertion(old(cache.slots), cache.slots, tenant, r.config, now, cache.ttl, cache.maxSize)
    ensures ReadThrough(old(cache.slots), cache.slots, src, tenant, now, cache.ttl, cache.maxSize)
  {
    var hit := Find(cache.slots, tenant, now);
    if hit.Some? {
      return Loaded(hit.value), false;
    }
    r := LoadTenantConfig(src, tenant);
    loadedNow := true;
    if r.Loaded? {
      cache.Insert(tenant, r.config, now);
    }
  }

  /** Within the time to live of a configuration the first call loaded, a second call for the same
      tenant loads nothing and returns the same configuration; after a raise it loads again. */
  method RepeatWithinTtl(cache: TtlCache<string, TenantConfig>, src: ConfigSource, tenant: string,
                         now: int, later: int)
    returns (first: Loaded, loadedFirst: bool, second: Loaded, loadedAgain: bool)
    requires cache.Valid() && now <= later < now + cache.ttl
    modifies cache
    ensures loadedFirst && first.Loaded? ==> !loadedAgain && second == first
    ensures first.Raised? ==> loadedFirst && loadedAgain && second == first
  {
    first, loadedFirst := GetTenantConfig(cache, src, tenant, now);
    if first.Loaded? && loadedFirst {
      ReadBackWithinTtl(old(cache.slots), cache.slots, tenant, first.config, now, cache.ttl, cache.maxSize, later);
    }
    second, loadedAgain := GetTenantConfig(cache, src, tenant, later);
  }
}
