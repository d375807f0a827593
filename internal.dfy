/** The operations endpoints (app/api/internal.py): warming and clearing the tenant configuration
    cache, the cache and backend status report, and the uptime text. Clocks are inputs; the uptime is
    a whole number of seconds. */
module Internal {
  import opened Common
  import opened Dicts
  import opened Ttl
  import opened Sheets
  import opened AppConfig
  import opened TenantCache

  // ---------------------------------------------------------------- uptime

  const SecondsPerDay: nat := 86400
  const SecondsPerHour: nat := 3600
  const SecondsPerMinute: nat := 60

  /** Whole days, the hours of the last day, and the minutes of the last hour. */
  function UptimeParts(seconds: nat): (dhm: (nat, nat, nat))
    ensures dhm.1 < 24 && dhm.2 < 60
    ensures dhm.0 * SecondsPerDay + dhm.1 * SecondsPerHour + dhm.2 * SecondsPerMinute <= seconds
    ensures seconds < dhm.0 * SecondsPerDay + dhm.1 * SecondsPerHour + dhm.2 * SecondsPerMinute + SecondsPerMinute
  {
    var days := seconds / SecondsPerDay;
    var hours := (seconds % SecondsPerDay) / SecondsPerHour;
    var minutes := (seconds % SecondsPerHour) / SecondsPerMinute;
    UptimeArithmetic(seconds);
    (days, hours, minutes)
  }

  /** The arithmetic behind the three parts: the hours of the day and the minutes of the hour are
      what is left after the larger units, below one minute of the total. */
  lemma UptimeArithmetic(s: nat)
    ensures (s % 86400) / 3600 < 24 && (s % 3600) / 60 < 60
    ensures (s / 86400) * 86400 + ((s % 86400) / 3600) * 3600 + ((s % 3600) / 60) * 60 <= s
    ensures s < (s / 86400) * 86400 + ((s % 86400) / 3600) * 3600 + ((s % 3600) / 60) * 60 + 60
  {
    var d, r := s / 86400, s % 86400;
    var h, r2 := r / 3600, r % 3600;
    var m := r2 / 60;
    assert s == d * 86400 + r;
    assert r == h * 3600 + r2;
    assert s % 3600 == r2 by {
      assert s == (d * 24 + h) * 3600 + r2;
    }
    assert r2 == m * 60 + r2 % 60;
  }

  /** `_format_uptime`: "Dd Hh Mm" with days, "Hh Mm" with hours but no days, "Mm" otherwise. */
  function FormatUptime(seconds: nat): (text: string)
    ensures 2 <= |text| && text[|text| - 1] == 'm' && IsDigit(text[|text| - 2])
  {
    var (days, hours, minutes) := UptimeParts(seconds);
    var tail := NatToString(minutes) + "m";
    assert tail[|tail| - 2] == NatToString(minutes)[|NatToString(minutes)| - 1];
    var head := if days > 0 then NatToString(days) + "d " + NatToString(hours) + "h "
                else if hours > 0 then NatToString(hours) + "h "
                else "";
    assert (head + tail)[|head + tail| - 2] == tail[|tail| - 2];
    head + tail
  }

  /** Below an hour the text is the minutes alone. */
  lemma UptimeBelowHour(seconds: nat)
    requires seconds < SecondsPerHour
    ensures FormatUptime(seconds) == NatToString(seconds / 60) + "m"
  {
    assert seconds % 86400 == seconds && seconds % 3600 == seconds;
    assert UptimeParts(seconds) == (0, 0, seconds / 60);
  }

  /** From an hour to a day the hours come first, then the minutes of the hour. */
  lemma UptimeBelowDay(seconds: nat)
    requires SecondsPerHour <= seconds < SecondsPerDay
    ensures FormatUptime(seconds) == NatToString(seconds / 3600) + "h " + NatToString((seconds % 3600) / 60) + "m"
  {
    assert seconds % 86400 == seconds;
    assert UptimeParts(seconds) == (0, seconds / 3600, (seconds % 3600) / 60);
  }

  /** From a day on the days come first, then the hours of the last day and the minutes of the last
      hour. */
  lemma UptimeFromDay(seconds: nat)
    requires SecondsPerDay <= seconds
    ensures FormatUptime(seconds) == NatToString(seconds / 86400) + "d " + NatToString((seconds % 86400) / 3600) + "h "
                                     + NatToString((seconds % 3600) / 60) + "m"
  {
    assert UptimeParts(seconds) == (seconds / 86400, (seconds % 86400) / 3600, (seconds % 3600) / 60);
    assert seconds / 86400 > 0;
  }

  // ---------------------------------------------------------------- warmup

  /** The tenants whose flag is `pick`, in their order. */
  function Selected(tenants: seq<string>, raised: seq<bool>, pick: bool): (r: seq<string>)
    requires |raised| == |tenants|
    ensures |r| <= |tenants|
  {
    if tenants == [] then []
    else
      var n := |tenants| - 1;
      Selected(tenants[..n], raised[..n], pick) + (if raised[n] == pick then [tenants[n]] else [])
  }

  /** Every tenant lands in exactly one of the two lists, so their lengths add up. */
  lemma {:induction false} SelectedPartition(tenants: seq<string>, raised: seq<bool>)
    requires |raised| == |tenants|
    ensures |Selected(tenants, raised, false)| + |Selected(tenants, raised, true)| == |tenants|
  {
    if tenants != [] {
      var n := |tenants| - 1;
      SelectedPartition(tenants[..n], raised[..n]);
    }
  }

  /** Only tenants of the list are selected. */
  lemma {:induction false} SelectedWithin(tenants: seq<string>, raised: seq<bool>, pick: bool, t: string)
    requires |raised| == |tenants| && t in Selected(tenants, raised, pick)
    ensures t in tenants
  {
    var n := |tenants| - 1;
    if t != tenants[n] {
      SelectedWithin(tenants[..n], raised[..n], pick, t);
    }
  }

  /** With distinct tenants, a tenant is warmed exactly when it is not among the errors. */
  lemma {:induction false} SelectedExclusive(tenants: seq<string>, raised: seq<bool>, t: string)
    requires |raised| == |tenants| && Distinct(tenants) && t in tenants
    ensures t in Selected(tenants, raised, false) <==> t !in Selected(tenants, raised, true)
  {
    var n := |tenants| - 1;
    var front := tenants[..n];
    assert tenants == front + [tenants[n]];
    if tenants[n] != t {
      assert Distinct(front);
      SelectedExclusive(front, raised[..n], t);
    } else {
      assert t !in front;
      if t in Selected(front, raised[..n], false) {
        SelectedWithin(front, raised[..n], false, t);
      }
      if t in Selected(front, raised[..n], true) {
        SelectedWithin(front, raised[..n], true, t);
      }
    }
  }

  /** One entry of the errors list. */
  datatype WarmupError = WarmupError(tenant: string, error: string)

  datatype WarmupReport = WarmupReport(status: string, tenantsWarmed: seq<string>, errors: seq<WarmupError>)

  /** The tenants the errors list names. */
  function ErrorTenants(errors: seq<WarmupError>): (ts: seq<string>)
    ensures |ts| == |errors|
  {
    if errors == [] then [] else ErrorTenants(errors[..|errors| - 1]) + [errors[|errors| - 1].tenant]
  }

  /** Whether reading the configuration of `tenant` at `now` raises: it had no live entry and the
      client, which is created outside mock mode, raised. */
  predicate ReadRaises(src: ConfigSource, slots: map<string, Slot<TenantConfig>>, tenant: string, now: int) {
    !src.mockMode && src.client.ClientRaised? && Find(slots, tenant, now).None?
  }

  lemma ConfigAtRaises(slots: map<string, Slot<TenantConfig>>, src: ConfigSource, tenant: string, now: int)
    ensures ConfigAt(slots, src, tenant, now).Raised? <==> ReadRaises(src, slots, tenant, now)
    ensures ConfigAt(slots, src, tenant, now).Raised? ==>
      src.client.ClientRaised? && ConfigAt(slots, src, tenant, now).message == src.client.message
  {
    OnlyCredentialErrorsEscape(src, tenant);
  }

  /** The text of the client's exception, if it raised. */
  function ErrorText(client: ClientOutcome): string {
    if client.ClientRaised? then client.message else ""
  }

  /** For each tenant, whether its read raises. */
  function RaisedFlags(src: ConfigSource, slots: map<string, Slot<TenantConfig>>, tenants: seq<string>, now: int): (flags: seq<bool>)
    ensures |flags| == |tenants|
  {
    if tenants == [] then []
    else
      var n := |tenants| - 1;
      RaisedFlags(src, slots, tenants[..n], now) + [ReadRaises(src, slots, tenants[n], now)]
  }

  /** Flag i is whether the read of tenant i raises. */
  lemma {:induction false} RaisedFlagsAt(src: ConfigSource, slots: map<string, Slot<TenantConfig>>, tenants: seq<string>, now: int, i: nat)
    requires i < |tenants|
    ensures RaisedFlags(src, slots, tenants, now)[i] <==> ReadRaises(src, slots, tenants[i], now)
  {
    var n := |tenants| - 1;
    if i < n {
      RaisedFlagsAt(src, slots, tenants[..n], now, i);
    }
  }

  /** `warmup_cache`: each tenant of the tenant map, in its order, is read through the cache; a
      configuration joins the warmed list (a normalised configuration is never empty, so always) and
      a raise joins the errors with its message. A read raises exactly when the tenant had no live
      entry and the client raises outside mock mode; the status is "ok" exactly when there was no
      error. Read i leaves the cache as `after[i]`, one memoised read after the one before; each read
      that did not raise leaves its tenant live. The time the loop takes is not modelled: every read
      happens at `now`. */
  method Warmup(cache: TtlCache<string, TenantConfig>, src: ConfigSource, now: int)
    returns (report: WarmupReport, ghost raised: seq<bool>, ghost after: seq<map<string, Slot<TenantConfig>>>)
    requires cache.Valid()
    modifies cache
    ensures cache.Valid()
    ensures raised == RaisedFlags(src, old(cache.slots), Keys(src.tenantMap), now)
    ensures Reads(old(cache.slots), after, src, Keys(src.tenantMap), now, cache.ttl, cache.maxSize)
    ensures cache.slots == Latest(old(cache.slots), after)
    ensures forall i :: 0 <= i < |after| && !raised[i] ==> Find(after[i], Keys(src.tenantMap)[i], now).Some?
    ensures report.tenantsWarmed == Selected(Keys(src.tenantMap), raised, false)
    ensures ErrorTenants(report.errors) == Selected(Keys(src.tenantMap), raised, true)
    ensures forall i :: 0 <= i < |report.errors| ==>
      src.client.ClientRaised? && report.errors[i].error == ErrorText(src.client)
    ensures report.status == (if report.errors == [] then "ok" else "partial")
  {
    var warmed, errors;
    warmed, errors, raised, after := WarmTenants(cache, src, Keys(src.tenantMap), now);
    var status := if errors == [] then "ok" else "partial";
    report := WarmupReport(status, warmed, errors);
  }

  /** The loop of the warmup over `tenants`, in their order. */
  method WarmTenants(cache: TtlCache<string, TenantConfig>, src: ConfigSource, tenants: seq<string>, now: int)
    returns (warmed: seq<string>, errors: seq<WarmupError>, ghost raised: seq<bool>,
             ghost after: seq<map<string, Slot<TenantConfig>>>)
    requires cache.Valid()
    modifies cache
    ensures cache.Valid()
    ensures raised == RaisedFlags(src, old(cache.slots), tenants, now)
    ensures Reads(old(cache.slots), after, src, tenants, now, cache.ttl, cache.maxSize)
    ensures cache.slots == Latest(old(cache.slots), after)
    ensures |after| == |raised| == |tenants| && LeftLive(after, tenants, raised, now)
    ensures warmed == Selected(tenants, raised, false)
    ensures ErrorTenants(errors) == Selected(tenants, raised, true)
    ensures errors != [] ==> src.client.ClientRaised?
    ensures forall i :: 0 <= i < |errors| ==> errors[i].error == ErrorText(src.client)
  {
    ghost var slots0 := cache.slots;
    warmed, errors := [], [];
    raised, after := [], [];
    var i := 0;
    while i < |tenants|
      invariant 0 <= i <= |tenants| && cache.Valid()
      invariant WarmLoop(src, slots0, cache.slots, tenants, i, now, cache.ttl, cache.maxSize, warmed, errors, raised, after)
    {
      warmed, errors, raised, after := WarmNext(cache, src, tenants, i, now, slots0, warmed, errors, raised, after);
      i := i + 1;
    }
    assert tenants[..i] == tenants;
  }

  /** The state of the warmup loop after `i` tenants: the lists and flags so far, the caches after
      each read, and a cache that a raising client never touches. */
  ghost predicate WarmLoop(src: ConfigSource, slots0: map<string, Slot<TenantConfig>>, slots: map<string, Slot<TenantConfig>>,
                           tenants: seq<string>, i: nat, now: int, ttl: nat, maxSize: nat,
                           warmed: seq<string>, errors: seq<WarmupError>, raised: seq<bool>,
                           after: seq<map<string, Slot<TenantConfig>>>) {
    && i <= |tenants|
    && (!src.mockMode && src.client.ClientRaised? ==> slots == slots0)
    && WarmedSoFar(src, slots0, tenants[..i], now, warmed, errors, raised)
    && Reads(slots0, after, src, tenants[..i], now, ttl, maxSize)
    && slots == Latest(slots0, after)
    && |after| == |raised| == i && LeftLive(after, tenants, raised, now)
  }

  /** One turn of the warmup loop: tenant `i` is read and lands in the warmed list or the errors. */
  method WarmNext(cache: TtlCache<string, TenantConfig>, src: ConfigSource, tenants: seq<string>, i: nat, now: int,
                  ghost slots0: map<string, Slot<TenantConfig>>, warmed: seq<string>, errors: seq<WarmupError>,
                  ghost raised: seq<bool>, ghost after: seq<map<string, Slot<TenantConfig>>>)
    returns (warmed2: seq<string>, errors2: seq<WarmupError>, ghost raised2: seq<bool>,
             ghost after2: seq<map<string, Slot<TenantConfig>>>)
    requires i < |tenants| && cache.Valid()
    requires WarmLoop(src, slots0, cache.slots, tenants, i, now, cache.ttl, cache.maxSize, warmed, errors, raised, after)
    modifies cache
    ensures cache.Valid()
    ensures WarmLoop(src, slots0, cache.slots, tenants, i + 1, now, cache.ttl, cache.maxSize, warmed2, errors2, raised2, after2)
  {
    var t := tenants[i];
    ghost var before := cache.slots;
    var r := WarmOne(cache, src, t, now);
    ghost var b := r.Raised?;
    WarmLoopStep(src, slots0, before, cache.slots, tenants, i, now, cache.ttl, cache.maxSize, warmed, errors, raised, after, b);
    after2, raised2 := after + [cache.slots], raised + [b];
    if r.Loaded? {
      warmed2, errors2 := warmed + [t], errors;
    } else {
      warmed2, errors2 := warmed, errors + [WarmupError(t, r.message)];
    }
  }

  /** The loop state after one more read that took the cache from `slots` to `next`. */
  lemma WarmLoopStep(src: ConfigSource, slots0: map<string, Slot<TenantConfig>>, slots: map<string, Slot<TenantConfig>>,
                     next: map<string, Slot<TenantConfig>>, tenants: seq<string>, i: nat, now: int, ttl: nat, maxSize: nat,
                     warmed: seq<string>, errors: seq<WarmupError>, raised: seq<bool>,
                     after: seq<map<string, Slot<TenantConfig>>>, b: bool)
    requires i < |tenants| && WarmLoop(src, slots0, slots, tenants, i, now, ttl, maxSize, warmed, errors, raised, after)
    requires b == ReadRaises(src, slots0, tenants[i], now)
    requires ReadThrough(slots, next, src, tenants[i], now, ttl, maxSize)
    requires !b ==> Find(next, tenants[i], now).Some?
    requires !src.mockMode && src.client.ClientRaised? ==> next == slots
    ensures WarmLoop(src, slots0, next, tenants, i + 1, now, ttl, maxSize,
                     if b then warmed else warmed + [tenants[i]],
                     if b then errors + [WarmupError(tenants[i], ErrorText(src.client))] else errors,
                     raised + [b], after + [next])
  {
    ReadsStep(slots0, after, src, tenants, i, now, ttl, maxSize, next);
    LeftLiveStep(after, tenants, raised, now, next, b);
    WarmedStep(src, slots0, tenants, i, now, warmed, errors, raised, b);
  }

  /** The cache the next read starts from: the start, or the cache after the last read. */
  function Latest(start: map<string, Slot<TenantConfig>>, after: seq<map<string, Slot<TenantConfig>>>): map<string, Slot<TenantConfig>> {
    if after == [] then start else after[|after| - 1]
  }

  /** The caches `after` the reads of `tenants` at `now`, starting from `start`: each one memoised
      read after the one before. */
  ghost predicate Reads(start: map<string, Slot<TenantConfig>>, after: seq<map<string, Slot<TenantConfig>>>,
                        src: ConfigSource, tenants: seq<string>, now: int, ttl: nat, maxSize: nat)
    decreases |after|
  {
    && |after| == |tenants|
    && (after != [] ==>
          var n := |after| - 1;
          && Reads(start, after[..n], src, tenants[..n], now, ttl, maxSize)
          && ReadThrough(Latest(start, after[..n]), after[n], src, tenants[n], now, ttl, maxSize))
  }

  /** Each read that did not raise left its tenant live in the cache right after it. */
  ghost predicate LeftLive(after: seq<map<string, Slot<TenantConfig>>>, tenants: seq<string>, raised: seq<bool>, now: int)
    requires |after| <= |tenants| && |after| <= |raised|
  {
    forall j :: 0 <= j < |after| && !raised[j] ==> Find(after[j], tenants[j], now).Some?
  }

  /** One more read extends the sequence of caches. */
  lemma ReadsStep(start: map<string, Slot<TenantConfig>>, after: seq<map<string, Slot<TenantConfig>>>,
                  src: ConfigSource, tenants: seq<string>, i: nat, now: int, ttl: nat, maxSize: nat,
                  next: map<string, Slot<TenantConfig>>)
    requires i < |tenants| && Reads(start, after, src, tenants[..i], now, ttl, maxSize)
    requires ReadThrough(Latest(start, after), next, src, tenants[i], now, ttl, maxSize)
    ensures Reads(start, after + [next], src, tenants[..i + 1], now, ttl, maxSize)
  {
    var ext := after + [next];
    assert ext[..i] == after && tenants[..i + 1][..i] == tenants[..i];
    assert ext[i] == next && tenants[..i + 1][i] == tenants[i];
  }

  /** A read that did not raise and left its tenant live extends the live reads. */
  lemma LeftLiveStep(after: seq<map<string, Slot<TenantConfig>>>, tenants: seq<string>, raised: seq<bool>, now: int,
                     next: map<string, Slot<TenantConfig>>, b: bool)
    requires |after| < |tenants| && |after| == |raised| && LeftLive(after, tenants, raised, now)
    requires !b ==> Find(next, tenants[|after|], now).Some?
    ensures LeftLive(after + [next], tenants, raised + [b], now)
  {
    var ext, flags := after + [next], raised + [b];
    forall j | 0 <= j < |ext| && !flags[j] ensures Find(ext[j], tenants[j], now).Some? {
      if j < |after| {
        assert ext[j] == after[j] && flags[j] == raised[j];
      }
    }
  }

  /** The state of the warmup loop after the tenants `done`. */
  ghost predicate WarmedSoFar(src: ConfigSource, slots: map<string, Slot<TenantConfig>>, done: seq<string>, now: int,
                              warmed: seq<string>, errors: seq<WarmupError>, raised: seq<bool>) {
    && raised == RaisedFlags(src, slots, done, now)
    && warmed == Selected(done, raised, false)
    && ErrorTenants(errors) == Selected(done, raised, true)
    && (errors != [] ==> src.client.ClientRaised?)
    && (forall j :: 0 <= j < |errors| ==> errors[j].error == ErrorText(src.client))
  }

  /** One more tenant: warmed, or among the errors with the client's message. */
  lemma WarmedStep(src: ConfigSource, slots: map<string, Slot<TenantConfig>>, tenants: seq<string>, i: nat, now: int,
                   warmed: seq<string>, errors: seq<WarmupError>, raised: seq<bool>, b: bool)
    requires i < |tenants| && WarmedSoFar(src, slots, tenants[..i], now, warmed, errors, raised)
    requires b == ReadRaises(src, slots, tenants[i], now)
    ensures WarmedSoFar(src, slots, tenants[..i + 1], now,
                        if b then warmed else warmed + [tenants[i]],
                        if b then errors + [WarmupError(tenants[i], ErrorText(src.client))] else errors,
                        raised + [b])
  {
    RaisedFlagsSnoc(src, slots, tenants, i, now);
    SelectedSnoc(tenants, raised, i, b, false);
    SelectedSnoc(tenants, raised, i, b, true);
    if b {
      var e := WarmupError(tenants[i], ErrorText(src.client));
      ErrorTenantsSnoc(errors, e);
      var es := errors + [e];
      forall j | 0 <= j < |es| ensures es[j].error == ErrorText(src.client) {
        if j < |errors| {
          assert es[j] == errors[j];
        }
      }
    }
  }

  lemma RaisedFlagsSnoc(src: ConfigSource, slots: map<string, Slot<TenantConfig>>, tenants: seq<string>, i: nat, now: int)
    requires i < |tenants|
    ensures RaisedFlags(src, slots, tenants[..i + 1], now) ==
            RaisedFlags(src, slots, tenants[..i], now) + [ReadRaises(src, slots, tenants[i], now)]
  {
    var done := tenants[..i + 1];
    assert done[..i] == tenants[..i] && done[i] == tenants[i];
  }

  lemma SelectedSnoc(tenants: seq<string>, raised: seq<bool>, i: nat, b: bool, pick: bool)
    requires |raised| == i < |tenants|
    ensures Selected(tenants[..i + 1], raised + [b], pick) ==
            Selected(tenants[..i], raised, pick) + (if b == pick then [tenants[i]] else [])
  {
    var done, flags := tenants[..i + 1], raised + [b];
    assert done[..i] == tenants[..i] && done[i] == tenants[i];
    assert flags[..i] == raised && flags[i] == b;
  }

  lemma ErrorTenantsSnoc(errors: seq<WarmupError>, e: WarmupError)
    ensures ErrorTenants(errors + [e]) == ErrorTenants(errors) + [e.tenant]
  {
    assert (errors + [e])[..|errors|] == errors;
  }

  /** One read of the warmup: what it raises, and that a raising client leaves the cache alone. */
  method WarmOne(cache: TtlCache<string, TenantConfig>, src: ConfigSource, tenant: string, now: int)
    returns (r: Loaded)
    requires cache.Valid()
    modifies cache
    ensures cache.Valid()
    ensures r.Raised? <==> ReadRaises(src, old(cache.slots), tenant, now)
    ensures r.Raised? ==> src.client.ClientRaised? && r.message == ErrorText(src.client)
    ensures !src.mockMode && src.client.ClientRaised? ==> cache.slots == old(cache.slots)
    ensures ReadThrough(old(cache.slots), cache.slots, src, tenant, now, cache.ttl, cache.maxSize)
    ensures r.Loaded? ==> Find(cache.slots, tenant, now) == Some(r.config)
  {
    var loadedNow;
    r, loadedNow := GetTenantConfig(cache, src, tenant, now);
    ConfigAtRaises(old(cache.slots), src, tenant, now);
    OnlyCredentialErrorsEscape(src, tenant);
    ReadThroughLive(old(cache.slots), cache.slots, src, tenant, now, cache.ttl, cache.maxSize);
  }

  /** True when no flag is set. */
  predicate NoneRaised(raised: seq<bool>) {
    forall i :: 0 <= i < |raised| ==> !raised[i]
  }

  /** No tenant is among the errors exactly when no flag is set. */
  lemma {:induction false} NoErrorsExactly(tenants: seq<string>, raised: seq<bool>)
    requires |raised| == |tenants|
    ensures Selected(tenants, raised, true) == [] <==> NoneRaised(raised)
  {
    if tenants != [] {
      var n := |tenants| - 1;
      var flags := raised[..n];
      NoErrorsExactly(tenants[..n], flags);
      assert raised == flags + [raised[n]];
      if NoneRaised(raised) {
        assert NoneRaised(flags) by {
          forall i | 0 <= i < n ensures !flags[i] {
            assert flags[i] == raised[i];
          }
        }
      }
    }
  }

  /** Without any flag set, every tenant is warmed. */
  lemma {:induction false} AllWarmedWithoutErrors(tenants: seq<string>, raised: seq<bool>)
    requires |raised| == |tenants| && NoneRaised(raised)
    ensures Selected(tenants, raised, false) == tenants
  {
    if tenants != [] {
      var n := |tenants| - 1;
      var flags := raised[..n];
      assert NoneRaised(flags) by {
        forall i | 0 <= i < n ensures !flags[i] {
          assert flags[i] == raised[i];
        }
      }
      AllWarmedWithoutErrors(tenants[..n], flags);
      assert tenants == tenants[..n] + [tenants[n]];
    }
  }

  /** The warmup reports "ok" exactly when no tenant's read raises: in mock mode, with a working
      client, or when every tenant still has a live entry. Then every tenant is warmed. */
  lemma WarmupOkExactly(src: ConfigSource, slots: map<string, Slot<TenantConfig>>, tenants: seq<string>, now: int)
    ensures var raised := RaisedFlags(src, slots, tenants, now);
      (Selected(tenants, raised, true) == [] <==> forall i :: 0 <= i < |tenants| ==> !ReadRaises(src, slots, tenants[i], now))
      && (src.mockMode || !src.client.ClientRaised? ==> Selected(tenants, raised, false) == tenants)
  {
    var raised := RaisedFlags(src, slots, tenants, now);
    forall i | 0 <= i < |tenants| ensures raised[i] <==> ReadRaises(src, slots, tenants[i], now) {
      RaisedFlagsAt(src, slots, tenants, now, i);
    }
    NoErrorsExactly(tenants, raised);
    if NoneRaised(raised) {
      AllWarmedWithoutErrors(tenants, raised);
    }
  }

  // ---------------------------------------------------------------- cache and status

  /** `clear_cache`: the configuration cache is emptied. */
  method ClearCache(cache: TtlCache<string, TenantConfig>) returns (status: string, message: string)
    requires cache.Valid()
    modifies cache
    ensures cache.Valid() && cache.slots == map[]
    ensures forall now :: cache.Size(now) == 0
    ensures status == "ok" && message == "Cache cleared"
  {
    cache.Clear();
    status, message := "ok", "Cache cleared";
  }

  datatype CacheInfo = CacheInfo(ttlSeconds: nat, currentSize: nat, maxSize: nat)

  /** The `cache` block of the status report at `now`: the configured time to live, and the number
      of live entries, which never exceeds the capacity. */
  function CacheReport(cache: TtlCache<string, TenantConfig>, now: int): (info: CacheInfo)
    reads cache
    requires cache.Valid()
    ensures info.currentSize == |set k | k in cache.slots && now < cache.slots[k].expires|
    ensures info.currentSize <= info.maxSize && info.maxSize == cache.maxSize
    ensures info.ttlSeconds == SheetCacheTtl
  {
    CacheInfo(SheetCacheTtl, cache.Size(now), cache.maxSize)
  }

  /** The `sheets.status` of the status report: "mock_mode" in mock mode, otherwise whether the
      client could be created, with the exception message when it raised. */
  function SheetsStatus(src: ConfigSource): (status: string)
    ensures src.mockMode <==> status == "mock_mode"
    ensures !src.mockMode && src.client.ClientRaised? ==> status == "error: " + src.client.message
    ensures !src.mockMode ==> (status == "connected" <==> src.client.Authorized?)
    ensures !src.mockMode ==> (status == "no_credentials" <==> src.client.NoCredentials?)
  {
    if src.mockMode then "mock_mode"
    else match src.client
      case Authorized => "connected"
      case NoCredentials => "no_credentials"
      case ClientRaised(m) =>
        var s := "error: " + m;
        assert s[0] == 'e';
        s
  }

  /** The status report shows an error exactly when a configuration read of any tenant without a
      live entry raises: both come from creating the client. */
  lemma StatusAgreesWithWarmup(src: ConfigSource, tenant: string)
    ensures StartsWith(SheetsStatus(src), "error: ") <==> LoadTenantConfig(src, tenant).Raised?
  {
    OnlyCredentialErrorsEscape(src, tenant);
    ErrorStatusExactly(src);
  }

  /** The status starts with "error: " exactly when the client raised outside mock mode. */
  lemma ErrorStatusExactly(src: ConfigSource)
    ensures StartsWith(SheetsStatus(src), "error: ") <==> !src.mockMode && src.client.ClientRaised?
  {
    var s := SheetsStatus(src);
    if src.mockMode {
      assert s == "mock_mode" && s[..7][0] == 'm';
    } else if src.client.Authorized? {
      assert s == "connected" && s[..7][0] == 'c';
    } else if src.client.NoCredentials? {
      assert s == "no_credentials" && s[..7][0] == 'n';
    } else {
      assert s == "error: " + src.client.message;
      assert s[..7] == "error: ";
    }
  }

  datatype StatusReport = StatusReport(
    status: string, timestamp: string, uptimeSeconds: nat, uptimeHuman: string,
    callsTotal: nat, lastCallAt: Option<string>,
    sheetsStatus: string, mockMode: bool,
    cache: CacheInfo,
    sendGridConfigured: bool, openAiConfigured: bool, twilioConfigured: bool)

  /** `detailed_status` at `now`: always "healthy"; the time of the request as text; the uptime in
      whole seconds and as text; the call counters of the application state; the backend and cache
      blocks; and whether each external key is set. The clock reading, its text, the uptime and the
      counters are inputs. */
  function DetailedStatus(now: int, timestamp: string, uptimeSeconds: nat, callCount: nat, lastCallAt: Option<string>,
                          cache: TtlCache<string, TenantConfig>, src: ConfigSource, env: Env): (r: StatusReport)
    reads cache
    requires cache.Valid()
    ensures r.status == "healthy" && r.timestamp == timestamp
    ensures r.uptimeSeconds == uptimeSeconds && r.callsTotal == callCount
    ensures r.uptimeHuman == FormatUptime(uptimeSeconds) && r.lastCallAt == lastCallAt
    ensures r.sheetsStatus == SheetsStatus(src) && r.mockMode == src.mockMode
    ensures r.cache.currentSize == cache.Size(now) && r.cache.maxSize == cache.maxSize
    ensures r.cache.currentSize <= r.cache.maxSize && r.cache.ttlSeconds == SheetCacheTtl
    ensures r.sendGridConfigured <==> env.sendGridKey != ""
    ensures r.openAiConfigured <==> env.openAiKey != ""
    ensures r.twilioConfigured <==> env.twilioAccountSid != ""
  {
    StatusReport("healthy", timestamp, uptimeSeconds, FormatUptime(uptimeSeconds), callCount, lastCallAt,
                 SheetsStatus(src), src.mockMode, CacheReport(cache, now),
                 env.sendGridKey != "", env.openAiKey != "", env.twilioAccountSid != "")
  }
}
