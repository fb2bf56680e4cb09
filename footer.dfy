/** `onPostDispatch`: the footer-pagelet hook. It checks that the three required settings are
    set, and either logs which are missing or hands the encoded payload and the shop id to
    the pagelet. */
module Footer {
  import opened Php
  import opened Settings
  import opened Widget

  /** The footer pagelet's template variables, as `assign` updates them. */
  class Pagelet {
    var vars: map<string, Value>

    /** `assign`: every given key is written, every other variable is kept. */
    method Assign(options: map<string, Value>)
      modifies this
      ensures vars == old(vars) + options
    {
      vars := vars + options;
    }
  }

  /** The error log, as the messages written to it. */
  class Logger {
    var errors: seq<string>

    method Error(message: string)
      modifies this
      ensures errors == old(errors) + [message]
    {
      errors := errors + [message];
    }
  }

  /** What one run of the hook does: log an error and stop, or assign these variables. */
  datatype Outcome = Aborted(message: string) | Assigned(options: map<string, Value>)

  /** The outcome of the hook for a request. */
  function HookOutcome(svc: Services, ctx: SalesContext): (r: Outcome)
    ensures r.Assigned? <==>
      && IsSet(ChannelConfig(svc, ctx), "shopId")
      && IsSet(ChannelConfig(svc, ctx), "apiSecret")
      && IsSet(ChannelConfig(svc, ctx), "domainName")
    ensures r.Aborted? ==> r.message == MissingMessage(MissingAmong(ChannelConfig(svc, ctx), RequiredKeys))
    ensures r.Assigned? ==>
      && r.options.Keys == {"belcoConfig", "shopId"}
      && r.options["shopId"] == Str(ChannelConfig(svc, ctx)["shopId"].value)
      && r.options["belcoConfig"] == Str(svc.jsonEncode(Assoc(Payload(svc, ctx))))
  {
    var config := ChannelConfig(svc, ctx);
    var missing := MissingAmong(config, RequiredKeys);
    if missing != [] then Aborted(MissingMessage(missing))
    else
      assert forall k :: k in RequiredKeys ==> IsSet(config, k);
      Assigned(map["belcoConfig" := Str(svc.jsonEncode(Assoc(Payload(svc, ctx)))),
                   "shopId" := Lookup(config, "shopId")])
  }

  /** Runs the hook: the pagelet changes only when every required setting is set, the log
      only when one is missing. */
  method OnPostDispatch(svc: Services, ctx: SalesContext, pagelet: Pagelet, logger: Logger)
    modifies pagelet, logger
    ensures HookOutcome(svc, ctx).Aborted? ==>
      && logger.errors == old(logger.errors) + [HookOutcome(svc, ctx).message]
      && pagelet.vars == old(pagelet.vars)
    ensures HookOutcome(svc, ctx).Assigned? ==>
      && pagelet.vars == old(pagelet.vars) + HookOutcome(svc, ctx).options
      && logger.errors == old(logger.errors)
  {
    var config := ConfigFor(svc.configStore, ctx.channelId);
    var missingConfig := CollectMissing(config);
    if missingConfig != [] {
      logger.Error(MissingPrefix + Implode(", ", missingConfig));
      return;
    }
    var shopId := Lookup(config, "shopId");
    var belcoConfig := GetWidgetConfig(svc, ctx);
    var optionsConfig := map["belcoConfig" := Str(belcoConfig), "shopId" := shopId];
    pagelet.Assign(optionsConfig);
  }

  /** With shop id and domain name set but no API secret, the hook logs exactly the
      secret as missing. */
  lemma OnlySecretMissing(svc: Services, ctx: SalesContext)
    requires IsSet(ChannelConfig(svc, ctx), "shopId") && IsSet(ChannelConfig(svc, ctx), "domainName")
    requires !IsSet(ChannelConfig(svc, ctx), "apiSecret")
    ensures HookOutcome(svc, ctx) == Aborted("The following configuration items are missing: apiSecret")
  {
    var m := MissingAmong(ChannelConfig(svc, ctx), RequiredKeys);
    assert RequiredKeys[1..] == ["apiSecret", "domainName"];
    assert RequiredKeys[1..][1..] == ["domainName"];
    assert m == ["apiSecret"];
  }

  /** When the hook assigns, the payload it encodes carries the configured shop id, and a
      logged-in customer's payload is signed unless the secret is "" or "0": `isset` lets
      those through, the truthiness test does not. */
  lemma AssignedPayload(svc: Services, ctx: SalesContext)
    requires HookOutcome(svc, ctx).Assigned?
    ensures var c := ChannelConfig(svc, ctx);
      && Payload(svc, ctx)["shopId"] == Str(c["shopId"].value)
      && (ctx.customer.Some? && c["apiSecret"].value !in {"", "0"} ==> "hash" in Payload(svc, ctx))
  {
    var c := ChannelConfig(svc, ctx);
    assert "shopId" in RequiredKeys && "apiSecret" in RequiredKeys;
    PayloadBase(svc, ctx);
    PayloadHash(svc, ctx);
  }
}
