/** The voice webhooks and the call-session store (app/api/routes.py). The server keeps a session per
    call id in a TTL cache (one hour, 1000 sessions), the call statistics, and the tenant
    configuration cache; each handler resolves the tenant, reads its configuration, records what it
    learnt about the call, and answers. Form parsing, HTTP and the background task queue are not
    modelled: a handler's form fields are its parameters, its answer its result. */
module Calls {
  import opened Common
  import opened Dicts
  import opened Ttl
  import opened Sheets
  import opened AppConfig
  import opened TenantCache
  import opened Voice
  import opened Processing

  /** A session value: a form field or computed text, a boolean, or None. */
  datatype Field = Text(s: string) | Flag(b: bool) | Null

  /** The fields stored for one call. */
  type Session = map<string, Field>

  /** An optional form field as stored. */
  function FieldOf(c: Cell): (f: Field)
    ensures c.None? <==> f == Null
    ensures c.Some? ==> f == Text(c.value)
  {
    if c.Some? then Text(c.value) else Null
  }

  /** A stored field handed on as an argument: text as it is, None as None, and a boolean as
      Python renders it. */
  function CellOf(f: Field): Cell {
    match f
    case Text(s) => Some(s)
    case Flag(b) => Some(if b then "True" else "False")
    case Null => None
  }

  /** `{**ctx, **update}`: the update's keys take its values, every other key keeps its own. */
  function Merge(ctx: Session, update: Session): (r: Session)
    ensures r.Keys == ctx.Keys + update.Keys
    ensures forall k :: k in update ==> r[k] == update[k]
    ensures forall k :: k in ctx && k !in update ==> r[k] == ctx[k]
  {
    ctx + update
  }

  /** The name recorded for a menu digit. */
  function MenuName(digits: string): (name: string)
    ensures digits == "1" <==> name == "repair"
    ensures digits == "2" <==> name == "accessory"
    ensures digits == "3" <==> name == "hours"
    ensures digits !in {"1", "2", "3"} ==> name == "invalid(" + digits + ")"
  {
    if digits == "1" then "repair"
    else if digits == "2" then "accessory"
    else if digits == "3" then "hours"
    else
      var n := "invalid(" + digits + ")";
      assert n[0] == 'i';
      n
  }

  /** No two digits are recorded under the same name: the recorded name identifies the digit. */
  lemma MenuNameInjective(a: string, b: string)
    ensures MenuName(a) == MenuName(b) ==> a == b
  {
    if MenuName(a) == MenuName(b) && a !in {"1", "2", "3"} && b !in {"1", "2", "3"} {
      var n := MenuName(a);
      assert n[8..|n| - 1] == a;
      assert n[8..|n| - 1] == b;
    }
  }

  /** The fields the incoming-call handler stores. */
  function IncomingFields(tenant: string, from: Cell, to: Cell, isOpen: bool): Session {
    map["tenant_id" := Text(tenant), "from_number" := FieldOf(from), "to_number" := FieldOf(to),
        "is_open" := Flag(isOpen), "menu_selection" := if isOpen then Null else Text("off")]
  }

  /** The fields the menu handler stores. */
  function MenuFields(digits: string): Session {
    map["menu_selection" := Text(MenuName(digits)), "digit" := Text(digits)]
  }

  /** The fields the call-status handler stores. */
  function StatusFields(status: Cell, duration: Cell): Session {
    map["call_status" := FieldOf(status), "call_duration" := FieldOf(duration)]
  }

  /** The menu selection a recording is reported under: the stored one, passed on even when it is
      None, and "unknown" only when none was stored. */
  function MenuSelection(ctx: Session): (c: Cell)
    ensures "menu_selection" !in ctx ==> c == Some("unknown")
    ensures "menu_selection" in ctx && ctx["menu_selection"] == Null ==> c.None?
    ensures "menu_selection" in ctx && ctx["menu_selection"].Text? ==> c == Some(ctx["menu_selection"].s)
  {
    if "menu_selection" in ctx then CellOf(ctx["menu_selection"]) else Some("unknown")
  }

  class Server {
    /** `app.state.call_count` and `app.state.last_call_at`. */
    var callCount: nat
    var lastCallAt: Option<string>
    const sessions: TtlCache<string, Session>
    const configs: TtlCache<string, TenantConfig>
    const src: ConfigSource
    const phoneToTenant: Dict<string, string>
    const fmt: Formatter

    ghost predicate Valid()
      reads this, sessions, configs
    {
      && sessions.Valid() && configs.Valid()
      && sessions as object != configs as object
      && sessions.ttl == CallContextTtl && sessions.maxSize == CallContextMaxSize
      && configs.ttl == SheetCacheTtl && configs.maxSize == SheetCacheMaxSize
    }

    constructor (src: ConfigSource, phoneToTenant: Dict<string, string>, fmt: Formatter)
      ensures Valid() && fresh(sessions) && fresh(configs)
      ensures callCount == 0 && lastCallAt.None?
      ensures sessions.slots == map[] && configs.slots == map[]
      ensures this.src == src && this.phoneToTenant == phoneToTenant && this.fmt == fmt
    {
      callCount := 0;
      lastCallAt := None;
      sessions := new TtlCache(CallContextMaxSize, CallContextTtl);
      configs := new TtlCache(SheetCacheMaxSize, SheetCacheTtl);
      this.src := src;
      this.phoneToTenant := phoneToTenant;
      this.fmt := fmt;
    }

    /** `_get_call_context`: the live session of the call, or an empty one. */
    function CallContext(sid: Cell, now: int): (ctx: Session)
      reads this, sessions
      ensures sid.Some? && Find(sessions.slots, sid.value, now).Some? ==> ctx == Find(sessions.slots, sid.value, now).value
      ensures sid.None? || Find(sessions.slots, sid.value, now).None? ==> ctx == map[]
    {
      if sid.Some? then Find(sessions.slots, sid.value, now).GetOr(map[]) else map[]
    }

    /** `_update_call_context`: without a call id nothing happens; otherwise the live session, or an
        empty one, merged with the update is written back and lives another hour. */
    method UpdateCallContext(sid: Cell, update: Session, now: int)
      requires Valid()
      modifies sessions
      ensures Valid()
      ensures !Truthy(sid) ==> sessions.slots == old(sessions.slots)
      ensures Truthy(sid) ==>
        IsInsertion(old(sessions.slots), sessions.slots, sid.value, Merge(old(CallContext(sid, now)), update),
                    now, CallContextTtl, CallContextMaxSize)
    {
      if !Truthy(sid) {
        return;
      }
      var ctx := CallContext(sid, now);
      sessions.Insert(sid.value, Merge(ctx, update), now);
    }

    /** The tenant's configuration through the cache; the configuration cache takes one memoised
        read, nothing else changes. */
    method Config(to: Cell, now: int) returns (loaded: Loaded)
      requires Valid()
      modifies configs
      ensures Valid()
      ensures loaded == ConfigAt(old(configs.slots), src, ResolveTenant(phoneToTenant, to), now)
      ensures ReadThrough(old(configs.slots), configs.slots, src, ResolveTenant(phoneToTenant, to), now, SheetCacheTtl, SheetCacheMaxSize)
    {
      var loadedNow;
      loaded, loadedNow := GetTenantConfig(configs, src, ResolveTenant(phoneToTenant, to), now);
    }

    /** `voice_incoming`. The call is counted first; a configuration that raises ends the request with a
        server error before anything is stored; otherwise the call's tenant, numbers and open state
        are stored, with menu selection "off" when closed and None when open, and the answer is the
        incoming-call response. `day` and `time` are the weekday and time of day in the store's zone. */
    method Incoming(to: Cell, from: Cell, sid: Cell, day: Weekday, time: TimeOfDay, timestamp: string, now: int)
      returns (resp: Response)
      requires Valid()
      modifies this, sessions, configs
      ensures Valid()
      ensures callCount == old(callCount) + 1 && lastCallAt == Some(timestamp)
      ensures ReadThrough(old(configs.slots), configs.slots, src, ResolveTenant(phoneToTenant, to), now, SheetCacheTtl, SheetCacheMaxSize)
      ensures var c := ConfigAt(old(configs.slots), src, ResolveTenant(phoneToTenant, to), now);
        && (c.Raised? ==> resp == ServerError && sessions.slots == old(sessions.slots))
        && (c.Loaded? && !Truthy(sid) ==> sessions.slots == old(sessions.slots))
        && (c.Loaded? && Truthy(sid) ==>
              IsInsertion(old(sessions.slots), sessions.slots, sid.value,
                          Merge(old(CallContext(sid, now)),
                                IncomingFields(ResolveTenant(phoneToTenant, to), from, to,
                                               IsStoreOpen(c.config, day, time))),
                          now, CallContextTtl, CallContextMaxSize))
        && (c.Loaded? ==> resp == IncomingAnswer(c.config, IsStoreOpen(c.config, day, time), fmt))
        && (c.Loaded? ==> HandsOn(resp) && (resp == ServerError <==> ContextOf(c.config).None?))
    {
      lastCallAt := Some(timestamp);
      callCount := callCount + 1;
      var tenant := ResolveTenant(phoneToTenant, to);
      var loaded := Config(to, now);
      if loaded.Raised? {
        return ServerError;
      }
      var isOpen := IsStoreOpen(loaded.config, day, time);
      UpdateCallContext(sid, IncomingFields(tenant, from, to, isOpen), now);
      resp := IncomingResponse(loaded.config, isOpen, fmt);
    }

    /** `voice_menu`: the menu name and the digit are stored, then the menu response. */
    method Menu(digits: string, to: Cell, sid: Cell, now: int) returns (resp: Response)
      requires Valid()
      modifies sessions, configs
      ensures Valid()
      ensures ReadThrough(old(configs.slots), configs.slots, src, ResolveTenant(phoneToTenant, to), now, SheetCacheTtl, SheetCacheMaxSize)
      ensures var c := ConfigAt(old(configs.slots), src, ResolveTenant(phoneToTenant, to), now);
        && (c.Raised? ==> resp == ServerError && sessions.slots == old(sessions.slots))
        && (c.Loaded? && !Truthy(sid) ==> sessions.slots == old(sessions.slots))
        && (c.Loaded? && Truthy(sid) ==>
              IsInsertion(old(sessions.slots), sessions.slots, sid.value,
                          Merge(old(CallContext(sid, now)), MenuFields(digits)),
                          now, CallContextTtl, CallContextMaxSize))
        && (c.Loaded? ==> resp == MenuAnswer(c.config, digits, fmt))
        && (c.Loaded? ==> HandsOn(resp) && (resp == ServerError <==> ContextOf(c.config).None?))
    {
      var loaded := Config(to, now);
      if loaded.Raised? {
        return ServerError;
      }
      UpdateCallContext(sid, MenuFields(digits), now);
      resp := MenuResponse(loaded.config, digits, fmt);
    }

    /** `voice_no_input`: menu selection "no-input" is stored, then the no-input response. */
    method NoInput(to: Cell, sid: Cell, now: int) returns (resp: Response)
      requires Valid()
      modifies sessions, configs
      ensures Valid()
      ensures ReadThrough(old(configs.slots), configs.slots, src, ResolveTenant(phoneToTenant, to), now, SheetCacheTtl, SheetCacheMaxSize)
      ensures var c := ConfigAt(old(configs.slots), src, ResolveTenant(phoneToTenant, to), now);
        && (c.Raised? ==> resp == ServerError && sessions.slots == old(sessions.slots))
        && (c.Loaded? && !Truthy(sid) ==> sessions.slots == old(sessions.slots))
        && (c.Loaded? && Truthy(sid) ==>
              IsInsertion(old(sessions.slots), sessions.slots, sid.value,
                          Merge(old(CallContext(sid, now)), map["menu_selection" := Text("no-input")]),
                          now, CallContextTtl, CallContextMaxSize))
        && (c.Loaded? ==> resp == NoInputAnswer(c.config, fmt))
        && (c.Loaded? ==> HandsOn(resp) && (resp == ServerError <==> ContextOf(c.config).None?))
    {
      var loaded := Config(to, now);
      if loaded.Raised? {
        return ServerError;
      }
      UpdateCallContext(sid, map["menu_selection" := Text("no-input")], now);
      resp := NoInputResponse(loaded.config, fmt);
    }

    /** `voice_recorded_thank_you`: the thank-you response; no session field is written. */
    method ThankYou(to: Cell, now: int) returns (resp: Response)
      requires Valid()
      modifies configs
      ensures Valid()
      ensures ReadThrough(old(configs.slots), configs.slots, src, ResolveTenant(phoneToTenant, to), now, SheetCacheTtl, SheetCacheMaxSize)
      ensures var c := ConfigAt(old(configs.slots), src, ResolveTenant(phoneToTenant, to), now);
        && (c.Raised? ==> resp == ServerError)
        && (c.Loaded? ==> resp == ThankYouAnswer(Some(c.config)) && HandsOn(resp) && resp.Twiml?)
    {
      var loaded := Config(to, now);
      if loaded.Raised? {
        return ServerError;
      }
      resp := ThankYouResponse(Some(loaded.config));
    }

    /** `recording_status`: the job handed to the background task, for the tenant of the dialled
        number, with the menu selection of the call's live session. Nothing is stored and no
        configuration is read. */
    method RecordingStatus(recordingUrl: string, duration: Cell, from: Cell, to: Cell, sid: Cell, now: int)
      returns (job: Job)
      requires Valid()
      ensures job == Job(ResolveTenant(phoneToTenant, to), recordingUrl, from, sid, duration,
                         MenuSelection(CallContext(sid, now)))
    {
      var ctx := CallContext(sid, now);
      job := Job(ResolveTenant(phoneToTenant, to), recordingUrl, from, sid, duration, MenuSelection(ctx));
    }

    /** `call_status`: only the call status and duration are merged into the session. */
    method CallStatus(sid: Cell, status: Cell, duration: Cell, now: int)
      requires Valid()
      modifies sessions
      ensures Valid()
      ensures !Truthy(sid) ==> sessions.slots == old(sessions.slots)
      ensures Truthy(sid) ==>
        IsInsertion(old(sessions.slots), sessions.slots, sid.value,
                    Merge(old(CallContext(sid, now)), StatusFields(status, duration)),
                    now, CallContextTtl, CallContextMaxSize)
    {
      UpdateCallContext(sid, StatusFields(status, duration), now);
    }
  }

  /** After an update, the session holds the update's values and keeps every other field it had,
      for the rest of the hour. */
  lemma UpdateThenRead(before: map<string, Slot<Session>>, after: map<string, Slot<Session>>,
                       sid: string, old_ctx: Session, update: Session, now: int, later: int)
    requires IsInsertion(before, after, sid, Merge(old_ctx, update), now, CallContextTtl, CallContextMaxSize)
    requires now <= later < now + CallContextTtl
    ensures Find(after, sid, later).Some?
    ensures forall k :: k in update ==> Find(after, sid, later).value[k] == update[k]
    ensures forall k :: k in old_ctx && k !in update ==> Find(after, sid, later).value[k] == old_ctx[k]
  {
    ReadBackWithinTtl(before, after, sid, Merge(old_ctx, update), now, CallContextTtl, CallContextMaxSize, later);
  }
}
