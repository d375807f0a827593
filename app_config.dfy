/** The service settings the core reads (app/core/config.py). Environment loading is not modelled:
    the settings arrive as a value, and the defaults are constants. */
module AppConfig {

  /** Seconds a tenant configuration stays cached. */
  const SheetCacheTtl: nat := 180

  /** Entries the tenant configuration cache holds at most. */
  const SheetCacheMaxSize: nat := 100

  /** Seconds a call session stays cached, and the sessions the cache holds at most. */
  const CallContextTtl: nat := 3600
  const CallContextMaxSize: nat := 1000

  /** The keys of external services; the empty string means "not configured". */
  datatype Env = Env(openAiKey: string, sendGridKey: string, twilioAccountSid: string)

  const DefaultEnv: Env := Env("", "", "")
}
