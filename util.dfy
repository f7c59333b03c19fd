/**
 * `Util.create_capability`: the capability descriptor an add-on serves to
 * the chat server, built from a symbol-keyed option hash.
 */
module Util {
  import opened Values

  const DefaultVendorName := "HipTail"
  const DefaultVendorUrl := "https://github.com/dayflower/hiptail"

  /** The options that must be present, in the order a missing one is reported. */
  const Required: seq<string> := ["key", "name", "base_url", "capability_url", "webhook_url", "installed_url"]

  /** The scopes the add-on asks for. */
  const Scopes: seq<string> := ["send_notification", "send_message", "admin_room", "view_group"]

  /** The four events subscribed before `room_message`, in order. */
  const EventNames: seq<string> := ["room_notification", "room_topic_change", "room_enter", "room_exit"]

  /** An option hash with symbol keys (named here by their text). */
  type Options = map<string, Value>

  function Opt(params: Options, k: string): Value
  {
    if k in params then params[k] else Nil
  }

  datatype Webhook = Webhook(name: string, event: string, url: string, pattern: Option<string>)

  /** The descriptor, field by field in the order of the hash it models. */
  datatype Capability = Capability(
    key: Value,
    name: Value,
    description: Value,
    vendorName: Value,
    vendorUrl: string,
    selfUrl: string,
    homepageUrl: string,
    webhooks: seq<Webhook>,
    scopes: seq<string>,
    fromName: Value,
    allowGlobal: Value,
    allowRoom: Value,
    callbackUrl: string)

  /** The required options absent from `params`, in the order of `names`. */
  function Missing(names: seq<string>, params: Options): (r: seq<string>)
    ensures |r| <= |names|
    ensures forall n :: n in r <==> n in names && n !in params
  {
    if names == [] then []
    else (if names[0] in params then [] else [names[0]]) + Missing(names[1..], params)
  }

  /** Selecting the missing names distributes over concatenation, so the missing names keep their order. */
  lemma {:induction false} MissingAppend(a: seq<string>, b: seq<string>, params: Options)
    ensures Missing(a + b, params) == Missing(a, params) + Missing(b, params)
  {
    if a == [] {
      assert a + b == b;
    } else {
      assert (a + b)[1..] == a[1..] + b;
      MissingAppend(a[1..], b, params);
    }
  }

  /**
   * The names are reported in the order they are required in: with only
   * `key`, `base_url`, `capability_url` and `installed_url` given, the error
   * reads "missing parameters: name, webhook_url".
   */
  lemma MissingInRequiredOrder(params: Options)
    requires "key" in params && "base_url" in params && "capability_url" in params && "installed_url" in params
    requires "name" !in params && "webhook_url" !in params
    ensures Missing(Required, params) == ["name", "webhook_url"]
  {
    var front: seq<string> := ["key", "name", "base_url"];
    var back: seq<string> := ["capability_url", "webhook_url", "installed_url"];
    assert Missing(["base_url"], params) == [] by {
      assert ["base_url"][1..] == [];
    }
    assert Missing(["name", "base_url"], params) == ["name"] by {
      assert ["name", "base_url"][1..] == ["base_url"];
    }
    assert Missing(front, params) == ["name"] by {
      assert front[1..] == ["name", "base_url"];
    }
    assert Missing(["installed_url"], params) == [] by {
      assert ["installed_url"][1..] == [];
    }
    assert Missing(["webhook_url", "installed_url"], params) == ["webhook_url"] by {
      assert ["webhook_url", "installed_url"][1..] == ["installed_url"];
    }
    assert Missing(back, params) == ["webhook_url"] by {
      assert back[1..] == ["webhook_url", "installed_url"];
    }
    RequiredSplit();
    MissingAppend(front, back, params);
  }

  lemma RequiredSplit()
    ensures Required == ["key", "name", "base_url"] + ["capability_url", "webhook_url", "installed_url"]
  {
  }

  /** The error `create_capability` raises then names both, comma-separated. */
  lemma MissingMessage(params: Options)
    requires "key" in params && "base_url" in params && "capability_url" in params && "installed_url" in params
    requires "name" !in params && "webhook_url" !in params
    ensures CreateCapability(params) == Err(RuntimeError("missing parameters: name, webhook_url"))
  {
    MissingInRequiredOrder(params);
    JoinTwo("name", "webhook_url", ", ");
    MessageText();
  }

  lemma MessageText()
    ensures "missing parameters: " + ("name" + ", " + "webhook_url") == "missing parameters: name, webhook_url"
  {
  }

  /** Two parts are joined with the separator between them. */
  lemma JoinTwo(a: string, b: string, sep: string)
    ensures Join([a, b], sep) == a + sep + b
  {
    assert [a, b][1..] == [b];
  }

  function Join(parts: seq<string>, sep: string): string
  {
    if parts == [] then ""
    else if |parts| == 1 then parts[0]
    else parts[0] + sep + Join(parts[1..], sep)
  }

  /** The five webhooks: the four fixed events, then `room_message`, carrying the filter when there is one. */
  function WebhooksFor(url: string, filter: Option<string>): seq<Webhook>
  {
    seq(|EventNames|, i requires 0 <= i < |EventNames| => Webhook(EventNames[i], EventNames[i], url, None))
    + [Webhook("room_message", "room_message", url, filter)]
  }

  /** `create_capability`: the required options are checked first, then the descriptor is built. */
  function CreateCapability(params: Options): (r: Result<Capability>)
    ensures Missing(Required, params) != [] ==>
              r == Err(RuntimeError("missing parameters: " + Join(Missing(Required, params), ", ")))
    ensures r.Ok? ==> forall n :: n in Required ==> n in params
  {
    var missing := Missing(Required, params);
    if missing != [] then Err(RuntimeError("missing parameters: " + Join(missing, ", ")))
    else Describe(params)
  }

  /** The descriptor `create_capability` builds once every required option is present. */
  function Describe(params: Options): Result<Capability>
  {
    var vendorUrl :- ToS(Or(Opt(params, "vendor_url"), Str(DefaultVendorUrl)));
    var selfUrl :- ToS(Opt(params, "capability_url"));
    var homepageUrl :- ToS(Or(Opt(params, "homepage_url"), Opt(params, "base_url")));
    var callbackUrl :- ToS(Opt(params, "installed_url"));
    var webhookUrl :- ToS(Opt(params, "webhook_url"));
    var filter :- if Truthy(Opt(params, "message_filter"))
                  then MapResult(ToS(Opt(params, "message_filter")), (s: string) => Some(s))
                  else Ok(None);
    Ok(Capability(
      Opt(params, "key"),
      Opt(params, "name"),
      Or(Opt(params, "description"), Opt(params, "name")),
      Or(Opt(params, "vendor_name"), Str(DefaultVendorName)),
      vendorUrl,
      selfUrl,
      homepageUrl,
      WebhooksFor(webhookUrl, filter),
      Scopes,
      Or(Opt(params, "sender_name"), Opt(params, "name")),
      if "allow_global" in params then params["allow_global"] else Bool(true),
      if "allow_room" in params then params["allow_room"] else Bool(true),
      callbackUrl))
  }

  /** The options `to_s` is applied to: the model converts any but arrays and hashes. */
  predicate TextOptions(params: Options)
  {
    && ToS(Opt(params, "vendor_url")).Ok?
    && ToS(Opt(params, "capability_url")).Ok?
    && ToS(Opt(params, "homepage_url")).Ok?
    && ToS(Opt(params, "base_url")).Ok?
    && ToS(Opt(params, "installed_url")).Ok?
    && ToS(Opt(params, "webhook_url")).Ok?
    && ToS(Opt(params, "message_filter")).Ok?
  }

  /** The descriptor is built exactly when every required option is present and the URL options convert. */
  lemma CapabilityBuilt(params: Options)
    requires TextOptions(params)
    ensures CreateCapability(params).Ok? <==> forall n :: n in Required ==> n in params
  {
    if Missing(Required, params) != [] {
      assert Missing(Required, params)[0] in Missing(Required, params);
    }
  }

  /**
   * An optional setting that is absent (or falsy) takes its default:
   * description and sender name the name, the vendor the library's own name
   * and URL, the homepage the base URL.
   */
  lemma CapabilityDefaults(params: Options)
    requires CreateCapability(params).Ok?
    ensures var c := CreateCapability(params).value;
      && (!Truthy(Opt(params, "description")) ==> c.description == Opt(params, "name"))
      && (!Truthy(Opt(params, "sender_name")) ==> c.fromName == Opt(params, "name"))
      && (!Truthy(Opt(params, "vendor_name")) ==> c.vendorName == Str(DefaultVendorName))
      && (!Truthy(Opt(params, "vendor_url")) ==> c.vendorUrl == DefaultVendorUrl)
      && (!Truthy(Opt(params, "homepage_url")) ==> Ok(c.homepageUrl) == ToS(Opt(params, "base_url")))
  {
    assert Missing(Required, params) == [];
  }

  /** Key and name as given, the four fixed scopes, and `allowGlobal`/`allowRoom` true unless given and then exactly what was given. */
  lemma CapabilityFixed(params: Options)
    requires CreateCapability(params).Ok?
    ensures var c := CreateCapability(params).value;
      && ("allow_global" !in params ==> c.allowGlobal == Bool(true))
      && ("allow_global" in params ==> c.allowGlobal == params["allow_global"])
      && ("allow_room" !in params ==> c.allowRoom == Bool(true))
      && ("allow_room" in params ==> c.allowRoom == params["allow_room"])
      && c.scopes == Scopes
      && c.key == Opt(params, "key") && c.name == Opt(params, "name")
  {
  }

  /** The self link and the installation callback are the given URLs, as text. */
  lemma CapabilityLinks(params: Options)
    requires CreateCapability(params).Ok?
    ensures var c := CreateCapability(params).value;
      && Ok(c.selfUrl) == ToS(Opt(params, "capability_url"))
      && Ok(c.callbackUrl) == ToS(Opt(params, "installed_url"))
  {
  }

  /** An optional setting that is given (truthy) is used as it is, or converted with `to_s` where the descriptor holds text. */
  lemma CapabilityGiven(params: Options)
    requires CreateCapability(params).Ok?
    ensures var c := CreateCapability(params).value;
      && (Truthy(Opt(params, "description")) ==> c.description == Opt(params, "description"))
      && (Truthy(Opt(params, "sender_name")) ==> c.fromName == Opt(params, "sender_name"))
      && (Truthy(Opt(params, "vendor_name")) ==> c.vendorName == Opt(params, "vendor_name"))
      && (Truthy(Opt(params, "vendor_url")) ==> Ok(c.vendorUrl) == ToS(Opt(params, "vendor_url")))
      && (Truthy(Opt(params, "homepage_url")) ==> Ok(c.homepageUrl) == ToS(Opt(params, "homepage_url")))
  {
    assert Missing(Required, params) == [];
  }

  /**
   * The webhook list: exactly five entries, room_notification,
   * room_topic_change, room_enter, room_exit, then room_message; each named
   * after its event and pointing at the webhook URL; only the last may carry
   * a pattern, and it does exactly when `message_filter` is truthy.
   */
  lemma CapabilityWebhooks(params: Options)
    requires CreateCapability(params).Ok?
    ensures var c := CreateCapability(params).value;
      && |c.webhooks| == 5
      && (forall i :: 0 <= i < 4 ==> c.webhooks[i].event == EventNames[i] && c.webhooks[i].pattern.None?)
      && c.webhooks[4].event == "room_message"
      && (forall i :: 0 <= i < 5 ==> c.webhooks[i].name == c.webhooks[i].event && Ok(c.webhooks[i].url) == ToS(Opt(params, "webhook_url")))
      && (c.webhooks[4].pattern.Some? <==> Truthy(Opt(params, "message_filter")))
      && (c.webhooks[4].pattern.Some? ==> Ok(c.webhooks[4].pattern.value) == ToS(Opt(params, "message_filter")))
  {
    assert Missing(Required, params) == [];
  }
}
