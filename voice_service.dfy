/** Prompt lookup, the formatting context and the call-flow answers of the voice webhooks
    (app/services/voice_service.py). An answer is the list of verbs the TwiML document would
    contain; the XML itself and `str.format` are not modelled: formatting is a partial function. */
module Voice {
  import opened Common
  import opened Dicts
  import opened Sheets

  /** The names a prompt template can refer to. */
  type Context = map<string, Cell>

  /** `text.format(**context)`: the formatted text, or None where formatting raises. */
  type Formatter = (string, Context) -> Option<string>

  datatype Verb =
    | Say(text: Cell)
    | Record(maxLength: nat, timeout: nat, action: string, statusCallback: string)
    | Gather(numDigits: nat, timeout: nat, action: string, prompt: Cell)
    | Redirect(url: string)
    | Hangup

  /** A TwiML document, or the server error a raised exception turns into. */
  datatype Response = Twiml(verbs: seq<Verb>) | ServerError

  const ThankYouText := "Thank you. We will review your message and call you back."

  /** The recording every voicemail path asks for: five seconds of silence end it, Twilio posts the
      recording to the status callback and continues at the thank-you page. */
  function RecordFor(maxLength: nat): Verb {
    Record(maxLength, 5, "/voice/recorded-thank-you", "/voice/recording-status")
  }

  /** Every answer hands the call on: it ends by recording, hanging up or redirecting, and it speaks
      before that. */
  predicate HandsOn(resp: Response) {
    resp.Twiml? ==>
      |resp.verbs| >= 2 && resp.verbs[0].Say?
      && var last := resp.verbs[|resp.verbs| - 1];
         last.Record? || last.Hangup? || last.Redirect?
  }

  // ------------------------------------------------------------------ the formatting context

  /** The dict `_build_context` assembles before adding aliases: settings, then repair scope over
      them, then STORE_NAME and ADDRESS_LINE copied from store_name and address_line ("" if absent). */
  function Merged(config: TenantConfig): Dict<Cell, Cell> {
    var m2 := WithStoreName(config);
    Put(m2, Some("ADDRESS_LINE"), GetOr(m2, Some("address_line"), Some("")))
  }

  /** Settings, with the repair scope over them. */
  function Layered(config: TenantConfig): Dict<Cell, Cell> {
    Update(Update(EmptyDict(), config.settings), config.repairScope)
  }

  /** The layered dict with STORE_NAME copied from store_name. */
  function WithStoreName(config: TenantConfig): Dict<Cell, Cell> {
    var m := Layered(config);
    Put(m, Some("STORE_NAME"), GetOr(m, Some("store_name"), Some("")))
  }

  lemma LayeredEntries(config: TenantConfig, x: Cell)
    ensures Get(Layered(config), x) ==
      if x in Keys(config.repairScope) then Get(config.repairScope, x) else Get(config.settings, x)
  {
    var e: Dict<Cell, Cell> := EmptyDict();
    var m1 := Update(e, config.settings);
    assert Get(m1, x) == Get(config.settings, x) by {
      assert Get(e, x) == None;
    }
  }

  /** Repair scope overrides settings on a shared key, and the two aliases are copies. */
  lemma MergedEntries(config: TenantConfig, k: string)
    ensures k != "STORE_NAME" && k != "ADDRESS_LINE" ==>
      Get(Merged(config), Some(k)) ==
        if Some(k) in Keys(config.repairScope) then Get(config.repairScope, Some(k)) else Get(config.settings, Some(k))
    ensures Get(Merged(config), Some("STORE_NAME")) ==
      Some(if Some("store_name") in Keys(config.repairScope) then GetOr(config.repairScope, Some("store_name"), None)
           else GetOr(config.settings, Some("store_name"), Some("")))
    ensures Get(Merged(config), Some("ADDRESS_LINE")) ==
      Some(if Some("address_line") in Keys(config.repairScope) then GetOr(config.repairScope, Some("address_line"), None)
           else GetOr(config.settings, Some("address_line"), Some("")))
  {
    if k != "STORE_NAME" && k != "ADDRESS_LINE" {
      MergedOthers(config, k);
    }
    MergedStoreName(config);
    MergedAddressLine(config);
  }

  lemma MergedOthers(config: TenantConfig, k: string)
    requires k != "STORE_NAME" && k != "ADDRESS_LINE"
    ensures Get(Merged(config), Some(k)) ==
      if Some(k) in Keys(config.repairScope) then Get(config.repairScope, Some(k)) else Get(config.settings, Some(k))
  {
    var m2 := WithStoreName(config);
    assert Merged(config) == Put(m2, Some("ADDRESS_LINE"), GetOr(m2, Some("address_line"), Some("")));
    assert Get(Merged(config), Some(k)) == Get(m2, Some(k));
    assert Get(m2, Some(k)) == Get(Layered(config), Some(k));
    LayeredEntries(config, Some(k));
  }

  lemma MergedStoreName(config: TenantConfig)
    ensures Get(Merged(config), Some("STORE_NAME")) ==
      Some(if Some("store_name") in Keys(config.repairScope) then GetOr(config.repairScope, Some("store_name"), None)
           else GetOr(config.settings, Some("store_name"), Some("")))
  {
    var m2 := WithStoreName(config);
    assert Merged(config) == Put(m2, Some("ADDRESS_LINE"), GetOr(m2, Some("address_line"), Some("")));
    assert Some("STORE_NAME") != Some("ADDRESS_LINE");
    assert Get(Merged(config), Some("STORE_NAME")) == Get(m2, Some("STORE_NAME"));
    LayeredEntries(config, Some("store_name"));
  }

  lemma MergedAddressLine(config: TenantConfig)
    ensures Get(Merged(config), Some("ADDRESS_LINE")) ==
      Some(if Some("address_line") in Keys(config.repairScope) then GetOr(config.repairScope, Some("address_line"), None)
           else GetOr(config.settings, Some("address_line"), Some("")))
  {
    var m2 := WithStoreName(config);
    assert Merged(config) == Put(m2, Some("ADDRESS_LINE"), GetOr(m2, Some("address_line"), Some("")));
    assert Some("address_line") != Some("STORE_NAME");
    assert Get(m2, Some("address_line")) == Get(Layered(config), Some("address_line"));
    LayeredEntries(config, Some("address_line"));
  }

  predicate StringKeyed(ps: seq<(Cell, Cell)>) {
    forall i :: 0 <= i < |ps| ==> ps[i].0.Some?
  }

  /** The entries under their own names. */
  function PlainNames(ps: seq<(Cell, Cell)>): Context
    requires StringKeyed(ps)
  {
    if ps == [] then map[] else PlainNames(ps[..|ps| - 1])[ps[|ps| - 1].0.value := ps[|ps| - 1].1]
  }

  /** `{k.upper(): v for k, v in ctx.items()}`. */
  function UpperNames(ps: seq<(Cell, Cell)>): Context
    requires StringKeyed(ps)
  {
    if ps == [] then map[] else UpperNames(ps[..|ps| - 1])[Upper(ps[|ps| - 1].0.value) := ps[|ps| - 1].1]
  }

  /** Entry i is the last one whose name upper-cases to n. */
  predicate LastUpperFor(ps: seq<(Cell, Cell)>, n: string, i: int)
    requires StringKeyed(ps)
  {
    0 <= i < |ps| && Upper(ps[i].0.value) == n
    && forall j :: i < j < |ps| ==> Upper(ps[j].0.value) != n
  }

  /** `{**ctx, **upper_ctx}` for the entries ps of ctx, or None where upper-casing a key raises
      because the key is None. */
  function Aliased(ps: seq<(Cell, Cell)>): Option<Context> {
    if StringKeyed(ps) then Some(PlainNames(ps) + UpperNames(ps)) else None
  }

  /** The context `_build_context` returns. */
  function ContextOf(config: TenantConfig): (c: Option<Context>)
    ensures c.None? <==> None in Keys(Merged(config))
    ensures c.Some? ==> "STORE_NAME" in c.value && "ADDRESS_LINE" in c.value
  {
    MergedStoreName(config);
    MergedAddressLine(config);
    AliasedDict(Merged(config), "STORE_NAME");
    AliasedDict(Merged(config), "ADDRESS_LINE");
    Aliased(Items(Merged(config)))
  }

  lemma {:induction false} PlainNamesLast(ps: seq<(Cell, Cell)>, k: string, i: int)
    requires StringKeyed(ps) && LastPairFor(ps, Some(k), i)
    ensures k in PlainNames(ps) && PlainNames(ps)[k] == ps[i].1
  {
    var n := |ps| - 1;
    if i < n {
      var front := ps[..n];
      assert StringKeyed(front) && LastPairFor(front, Some(k), i) by {
        assert forall j :: 0 <= j < n ==> front[j] == ps[j];
      }
      PlainNamesLast(front, k, i);
      assert ps[n].0 != Some(k);
    }
  }

  lemma {:induction false} UpperNamesLast(ps: seq<(Cell, Cell)>, u: string, i: int)
    requires StringKeyed(ps) && LastUpperFor(ps, u, i)
    ensures u in UpperNames(ps) && UpperNames(ps)[u] == ps[i].1
  {
    var n := |ps| - 1;
    if i < n {
      var front := ps[..n];
      assert StringKeyed(front) && LastUpperFor(front, u, i) by {
        assert forall j :: 0 <= j < n ==> front[j] == ps[j];
      }
      UpperNamesLast(front, u, i);
    }
  }

  /** A name that no key upper-cases to is not an alias. */
  lemma {:induction false} UpperNamesMiss(ps: seq<(Cell, Cell)>, u: string)
    requires StringKeyed(ps)
    requires forall j :: 0 <= j < |ps| ==> Upper(ps[j].0.value) != u
    ensures u !in UpperNames(ps)
  {
    var n := |ps| - 1;
    if ps != [] {
      var front := ps[..n];
      assert StringKeyed(front) by {
        assert forall j :: 0 <= j < n ==> front[j] == ps[j];
      }
      assert forall j :: 0 <= j < n ==> Upper(front[j].0.value) != u by {
        assert forall j :: 0 <= j < n ==> front[j] == ps[j];
      }
      UpperNamesMiss(front, u);
    }
  }

  /** If entry i upper-cases to u, some entry is the last one that does. */
  lemma {:induction false} LastUpperExists(ps: seq<(Cell, Cell)>, u: string, i: int)
    requires StringKeyed(ps) && 0 <= i < |ps| && Upper(ps[i].0.value) == u
    ensures exists l :: LastUpperFor(ps, u, l)
    decreases |ps| - i
  {
    if !LastUpperFor(ps, u, i) {
      var j :| i < j < |ps| && Upper(ps[j].0.value) == u;
      LastUpperExists(ps, u, j);
    }
  }

  /** The entries have distinct keys, as the items of a dict do. */
  predicate DistinctKeys(ps: seq<(Cell, Cell)>) {
    forall i, j :: 0 <= i < j < |ps| ==> ps[i].0 != ps[j].0
  }

  /** Aliasing raises exactly when some key is None; otherwise every key is present under its own
      name and upper-cased, the upper-cased alias winning a collision: the name u carries the value
      of the last entry whose key upper-cases to u, and a name no key upper-cases to keeps its
      entry's own value. */
  lemma AliasedEntries(ps: seq<(Cell, Cell)>, k: string, u: string, i: int)
    requires DistinctKeys(ps)
    ensures Aliased(ps).None? <==> exists j :: 0 <= j < |ps| && ps[j].0 == None
    ensures Aliased(ps).Some? && 0 <= i < |ps| && ps[i].0 == Some(k) ==>
      k in Aliased(ps).value && Upper(k) in Aliased(ps).value
    ensures Aliased(ps).Some? && LastUpperFor(ps, u, i) ==>
      u in Aliased(ps).value && Aliased(ps).value[u] == ps[i].1
    ensures Aliased(ps).Some? && 0 <= i < |ps| && ps[i].0 == Some(k)
            && (forall j :: 0 <= j < |ps| ==> Upper(ps[j].0.value) != k) ==>
      Aliased(ps).value[k] == ps[i].1
  {
    if StringKeyed(ps) {
      if 0 <= i < |ps| && ps[i].0 == Some(k) {
        PlainNamesLast(ps, k, i);
        LastUpperExists(ps, Upper(k), i);
        var l :| LastUpperFor(ps, Upper(k), l);
        UpperNamesLast(ps, Upper(k), l);
        if forall j :: 0 <= j < |ps| ==> Upper(ps[j].0.value) != k {
          UpperNamesMiss(ps, k);
        }
      }
      if LastUpperFor(ps, u, i) {
        UpperNamesLast(ps, u, i);
      }
    } else {
      var j :| 0 <= j < |ps| && ps[j].0.None?;
    }
  }

  /** For the items of any dict: aliasing raises exactly when a key is None, and otherwise holds
      every key under both names. */
  lemma AliasedDict(m: Dict<Cell, Cell>, k: string)
    ensures DistinctKeys(Items(m))
    ensures Aliased(Items(m)).None? <==> None in Keys(m)
    ensures Aliased(Items(m)).Some? && Some(k) in Keys(m) ==>
      k in Aliased(Items(m)).value && Upper(k) in Aliased(Items(m)).value
  {
    var ps := Items(m);
    if None in Keys(m) {
      var j :| 0 <= j < |Keys(m)| && Keys(m)[j] == None;
      AliasedEntries(ps, k, k, j);
    } else if Some(k) in Keys(m) {
      var j :| 0 <= j < |Keys(m)| && Keys(m)[j] == Some(k);
      AliasedEntries(ps, k, k, j);
    } else {
      AliasedEntries(ps, k, k, 0);
    }
  }

  /** The same for the context of a configuration, whose entries are the items of the merged dict. */
  lemma ContextEntries(config: TenantConfig, k: string)
    ensures DistinctKeys(Items(Merged(config)))
    ensures ContextOf(config).None? <==> None in Keys(Merged(config))
    ensures ContextOf(config).Some? && Some(k) in Keys(Merged(config)) ==>
      k in ContextOf(config).value && Upper(k) in ContextOf(config).value
  {
    AliasedDict(Merged(config), k);
  }

  /** The alias step of `_build_context`: every entry under its own name and upper-cased. */
  method AddAliases(ps: seq<(Cell, Cell)>) returns (ctx: Option<Context>)
    ensures ctx == Aliased(ps)
  {
    var plain: Context := map[];
    var upper: Context := map[];
    for i := 0 to |ps|
      invariant StringKeyed(ps[..i])
      invariant plain == PlainNames(ps[..i]) && upper == UpperNames(ps[..i])
    {
      var (key, value) := ps[i];
      if key.None? {
        assert !StringKeyed(ps);
        return None;
      }
      assert ps[..i + 1][..i] == ps[..i];
      plain := plain[key.value := value];
      upper := upper[Upper(key.value) := value];
    }
    assert ps[..|ps|] == ps;
    ctx := Some(plain + upper);
  }

  /** `_build_context`: the union of the settings and the repair scope with the two aliases, then
      every key also upper-cased. */
  method BuildContext(config: TenantConfig) returns (ctx: Option<Context>)
    ensures ctx == ContextOf(config)
  {
    var m := EmptyDict();
    m := Update(m, config.settings);
    m := Update(m, config.repairScope);
    m := Put(m, Some("STORE_NAME"), GetOr(m, Some("store_name"), Some("")));
    m := Put(m, Some("ADDRESS_LINE"), GetOr(m, Some("address_line"), Some("")));
    ctx := AddAliases(Items(m));
  }

  // ------------------------------------------------------------------ prompts

  /** `_get_prompt(config, key, context)`: the prompt text ("" when the key is missing), formatted
      with the context when both are non-empty; a failed formatting gives the raw text. */
  function Prompt(config: TenantConfig, key: string, ctx: Option<Context>, fmt: Formatter): (p: Cell)
    ensures Some(key) !in Keys(config.prompts) ==> p == Some("")
    ensures p.None? ==> Get(config.prompts, Some(key)) == Some(None)
  {
    var text := GetOr(config.prompts, Some(key), Some(""));
    if ctx.Some? && ctx.value != map[] && Truthy(text) then
      match fmt(text.value, ctx.value)
      case Some(s) => Some(s)
      case None => text
    else text
  }

  lemma PromptFallbacks(config: TenantConfig, key: string, ctx: Option<Context>, fmt: Formatter)
    ensures Some(key) !in Keys(config.prompts) ==> Prompt(config, key, ctx, fmt) == Some("")
    ensures ctx.None? || ctx == Some(map[]) || !Truthy(Get(config.prompts, Some(key)).GetOr(Some(""))) ==>
      Prompt(config, key, ctx, fmt) == GetOr(config.prompts, Some(key), Some(""))
    ensures Prompt(config, key, ctx, fmt) == GetOr(config.prompts, Some(key), Some(""))
      || (ctx.Some? && Truthy(GetOr(config.prompts, Some(key), Some("")))
          && Some(Prompt(config, key, ctx, fmt).value) == fmt(GetOr(config.prompts, Some(key), Some("")).value, ctx.value))
    ensures ctx.Some? && Truthy(GetOr(config.prompts, Some(key), Some(""))) && fmt(GetOr(config.prompts, Some(key), Some("")).value, ctx.value).None? ==>
      Prompt(config, key, ctx, fmt) == GetOr(config.prompts, Some(key), Some(""))
    ensures ctx.Some? && ctx.value != map[] && Truthy(GetOr(config.prompts, Some(key), Some("")))
            && fmt(GetOr(config.prompts, Some(key), Some("")).value, ctx.value).Some? ==>
      Prompt(config, key, ctx, fmt) == fmt(GetOr(config.prompts, Some(key), Some("")).value, ctx.value)
  {
  }

  // ------------------------------------------------------------------ answers

  /** `settings.get("off_mode", "voicemail")`. */
  function OffMode(config: TenantConfig): Cell {
    GetOr(config.settings, Some("off_mode"), Some("voicemail"))
  }

  /** The answer of `generate_incoming_response`, which the method below computes step by step. */
  function IncomingAnswer(config: TenantConfig, isOpen: bool, fmt: Formatter): (r: Response)
    ensures HandsOn(r)
    ensures r == ServerError <==> ContextOf(config).None?
  {
    var c := ContextOf(config);
    if c.None? then ServerError
    else if !isOpen && OffMode(config) == Some("voicemail") then
      Twiml([Say(Prompt(config, "off_voicemail_prompt", c, fmt)), RecordFor(60)])
    else if !isOpen then Twiml([Say(Prompt(config, "off_hangup_prompt", c, fmt)), Hangup])
    else
      Twiml([Say(Some(Str(Prompt(config, "main_intro", c, fmt)) + " " + Str(Prompt(config, "main_scope", c, fmt)))),
             Gather(1, 6, "/voice/menu", Prompt(config, "menu_prompt", c, fmt)),
             Redirect("/voice/no-input")])
  }

  /** The answer of `generate_menu_response`. */
  function MenuAnswer(config: TenantConfig, digit: string, fmt: Formatter): (r: Response)
    ensures HandsOn(r)
    ensures r == ServerError <==> ContextOf(config).None?
  {
    var c := ContextOf(config);
    if c.None? then ServerError else MenuVerbs(config, c.value, digit, fmt)
  }

  /** The menu answer once the context is built: a prompt, then a recording or a hang-up. */
  function MenuVerbs(config: TenantConfig, ctx: Context, digit: string, fmt: Formatter): (r: Response)
    ensures r.Twiml? && HandsOn(r)
  {
    if digit == "1" then Twiml([Say(Prompt(config, "repair_prompt", Some(ctx), fmt)), RecordFor(120)])
    else if digit == "2" then Twiml([Say(Prompt(config, "accessory_prompt", Some(ctx), fmt)), RecordFor(90)])
    else if digit == "3" then
      Twiml([Say(Prompt(config, "hours_prompt",
                        Some(ctx["HOURS" := GetOr(config.settings, Some("hours_text"), Some(""))]), fmt)),
             Hangup])
    else Twiml([Say(Prompt(config, "invalid_prompt", Some(ctx), fmt)), Hangup])
  }

  /** The answer of `generate_no_input_response`. */
  function NoInputAnswer(config: TenantConfig, fmt: Formatter): (r: Response)
    ensures HandsOn(r)
    ensures r == ServerError <==> ContextOf(config).None?
  {
    var c := ContextOf(config);
    if c.None? then ServerError else Twiml([Say(Prompt(config, "no_input_prompt", c, fmt)), Hangup])
  }

  /** The answer of `generate_thank_you_response`. */
  function ThankYouAnswer(config: Option<TenantConfig>): (r: Response)
    ensures HandsOn(r) && r.Twiml?
  {
    var p := if config.Some? then Prompt(config.value, "after_record_thanks", None, (s, c) => Some(s)) else None;
    Twiml([Say(Some(if Truthy(p) then p.value else ThankYouText)), Hangup])
  }

  /** `generate_incoming_response`. Closed: the voicemail prompt and a recording of at most 60
      seconds when off_mode is exactly "voicemail", otherwise the hang-up prompt and a hang-up.
      Open: the intro and the scope in one sentence, a one-digit menu posted to /voice/menu, and a
      redirect to /voice/no-input when no digit comes. */
  method IncomingResponse(config: TenantConfig, isOpen: bool, fmt: Formatter) returns (resp: Response)
    ensures resp == IncomingAnswer(config, isOpen, fmt)
    ensures HandsOn(resp)
    ensures resp == ServerError <==> ContextOf(config).None?
    ensures var c := ContextOf(config); c.Some? && !isOpen && OffMode(config) == Some("voicemail") ==>
      resp == Twiml([Say(Prompt(config, "off_voicemail_prompt", c, fmt)), RecordFor(60)])
    ensures var c := ContextOf(config); c.Some? && !isOpen && OffMode(config) != Some("voicemail") ==>
      resp == Twiml([Say(Prompt(config, "off_hangup_prompt", c, fmt)), Hangup])
    ensures var c := ContextOf(config); c.Some? && isOpen ==>
      resp == Twiml([Say(Some(Str(Prompt(config, "main_intro", c, fmt)) + " " + Str(Prompt(config, "main_scope", c, fmt)))),
                     Gather(1, 6, "/voice/menu", Prompt(config, "menu_prompt", c, fmt)),
                     Redirect("/voice/no-input")])
  {
    var ctx := BuildContext(config);
    if ctx.None? {
      return ServerError;
    }
    if !isOpen {
      if OffMode(config) == Some("voicemail") {
        resp := Twiml([Say(Prompt(config, "off_voicemail_prompt", ctx, fmt)), RecordFor(60)]);
      } else {
        resp := Twiml([Say(Prompt(config, "off_hangup_prompt", ctx, fmt)), Hangup]);
      }
      return;
    }
    var intro := Prompt(config, "main_intro", ctx, fmt);
    var scope := Prompt(config, "main_scope", ctx, fmt);
    var menu := Prompt(config, "menu_prompt", ctx, fmt);
    resp := Twiml([Say(Some(Str(intro) + " " + Str(scope))), Gather(1, 6, "/voice/menu", menu), Redirect("/voice/no-input")]);
  }

  /** `generate_menu_response`: "1" records a repair request of at most 120 seconds, "2" an
      accessory request of at most 90; "3" says the hours prompt with HOURS set to hours_text
      ("" if absent) and hangs up; anything else says the invalid prompt and hangs up. */
  method MenuResponse(config: TenantConfig, digit: string, fmt: Formatter) returns (resp: Response)
    ensures resp == MenuAnswer(config, digit, fmt)
    ensures HandsOn(resp)
    ensures resp == ServerError <==> ContextOf(config).None?
    ensures var c := ContextOf(config); c.Some? && digit == "1" ==>
      resp == Twiml([Say(Prompt(config, "repair_prompt", c, fmt)), RecordFor(120)])
    ensures var c := ContextOf(config); c.Some? && digit == "2" ==>
      resp == Twiml([Say(Prompt(config, "accessory_prompt", c, fmt)), RecordFor(90)])
    ensures var c := ContextOf(config); c.Some? && digit == "3" ==>
      resp == Twiml([Say(Prompt(config, "hours_prompt",
                                Some(c.value["HOURS" := GetOr(config.settings, Some("hours_text"), Some(""))]), fmt)),
                     Hangup])
    ensures var c := ContextOf(config); c.Some? && digit !in {"1", "2", "3"} ==>
      resp == Twiml([Say(Prompt(config, "invalid_prompt", c, fmt)), Hangup])
  {
    var ctx := BuildContext(config);
    if ctx.None? {
      return ServerError;
    }
    if digit == "1" {
      resp := Twiml([Say(Prompt(config, "repair_prompt", ctx, fmt)), RecordFor(120)]);
    } else if digit == "2" {
      resp := Twiml([Say(Prompt(config, "accessory_prompt", ctx, fmt)), RecordFor(90)]);
    } else if digit == "3" {
      var withHours := ctx.value["HOURS" := GetOr(config.settings, Some("hours_text"), Some(""))];
      resp := Twiml([Say(Prompt(config, "hours_prompt", Some(withHours), fmt)), Hangup]);
    } else {
      resp := Twiml([Say(Prompt(config, "invalid_prompt", ctx, fmt)), Hangup]);
    }
  }

  /** `generate_no_input_response`: the no-input prompt, then a hang-up. */
  method NoInputResponse(config: TenantConfig, fmt: Formatter) returns (resp: Response)
    ensures resp == NoInputAnswer(config, fmt)
    ensures HandsOn(resp)
    ensures resp == ServerError <==> ContextOf(config).None?
    ensures var c := ContextOf(config); c.Some? ==> resp == Twiml([Say(Prompt(config, "no_input_prompt", c, fmt)), Hangup])
  {
    var ctx := BuildContext(config);
    if ctx.None? {
      return ServerError;
    }
    resp := Twiml([Say(Prompt(config, "no_input_prompt", ctx, fmt)), Hangup]);
  }

  /** `generate_thank_you_response`: the after_record_thanks prompt, unformatted, or the fixed text
      when there is no configuration or the prompt is empty; then a hang-up. It builds no context,
      so it never fails. */
  method ThankYouResponse(config: Option<TenantConfig>) returns (resp: Response)
    ensures resp == ThankYouAnswer(config)
    ensures HandsOn(resp) && resp.Twiml? && |resp.verbs| == 2 && resp.verbs[1] == Hangup
    ensures config.None? ==> resp.verbs[0] == Say(Some(ThankYouText))
    ensures config.Some? && !Truthy(GetOr(config.value.prompts, Some("after_record_thanks"), Some(""))) ==>
      resp.verbs[0] == Say(Some(ThankYouText))
    ensures config.Some? && Truthy(GetOr(config.value.prompts, Some("after_record_thanks"), Some(""))) ==>
      resp.verbs[0] == Say(GetOr(config.value.prompts, Some("after_record_thanks"), Some("")))
  {
    var text := ThankYouText;
    if config.Some? {
      var p := Prompt(config.value, "after_record_thanks", None, (s, c) => Some(s));
      if Truthy(p) {
        text := p.value;
      }
    }
    resp := Twiml([Say(Some(text)), Hangup]);
  }
}
