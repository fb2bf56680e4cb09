/** Per-sales-channel plugin configuration: the lookup with its empty default, `isset`, and
    the list of required settings that are missing. */
module Settings {
  import opened Php

  /** A stored configuration; a key mapped to `None` holds PHP null. */
  type Config = map<string, Option<string>>

  /** The settings the footer hook insists on, in the order it checks them. */
  const RequiredKeys: seq<string> := ["shopId", "apiSecret", "domainName"]

  const MissingPrefix: string := "The following configuration items are missing: "

  /** `getConfig`: the configuration stored for a channel, or the empty array when the store
      holds nothing for it. */
  function ConfigFor(store: string -> Option<Config>, channelId: string): (c: Config)
    ensures store(channelId).None? ==> c == map[]
    ensures store(channelId).Some? ==> c == store(channelId).value
  {
    match store(channelId)
    case None => map[]
    case Some(stored) => stored
  }

  /** `isset($config[$key])`: present and not null. */
  predicate IsSet(c: Config, key: string): (b: bool)
    ensures b <==> key in c && FromNullable(c[key]) != Null
  {
    key in c && c[key].Some?
  }

  /** `$config[$key]`: an undefined key reads as null. */
  function Lookup(c: Config, key: string): (v: Value)
    ensures v == Null <==> !IsSet(c, key)
    ensures IsSet(c, key) ==> v == Str(c[key].value)
  {
    if key in c then FromNullable(c[key]) else Null
  }

  /** Position of a key in a list of distinct keys. */
  function IndexOf(keys: seq<string>, k: string): (i: nat)
    requires k in keys
    ensures i < |keys| && keys[i] == k
  {
    if keys[0] == k then 0 else 1 + IndexOf(keys[1..], k)
  }

  predicate Distinct(keys: seq<string>) {
    forall i, j :: 0 <= i < j < |keys| ==> keys[i] != keys[j]
  }

  /** The keys of `keys` that are not set in `c`, in the order of `keys`. */
  function MissingAmong(c: Config, keys: seq<string>): (r: seq<string>)
    requires Distinct(keys)
    ensures forall k :: k in r <==> k in keys && !IsSet(c, k)
    ensures |r| <= |keys|
    ensures forall i, j :: 0 <= i < j < |r| ==> IndexOf(keys, r[i]) < IndexOf(keys, r[j])
    decreases |keys|
  {
    if |keys| == 0 then []
    else
      var rest := MissingAmong(c, keys[1..]);
      assert forall k :: k in keys[1..] ==> IndexOf(keys, k) == 1 + IndexOf(keys[1..], k);
      if IsSet(c, keys[0]) then rest else [keys[0]] + rest
  }

  /** The first step of `onPostDispatch`: append each required key that is not set. */
  method CollectMissing(c: Config) returns (missing: seq<string>)
    ensures missing == MissingAmong(c, RequiredKeys)
  {
    missing := [];
    if !IsSet(c, "shopId") {
      missing := missing + ["shopId"];
    }
    if !IsSet(c, "apiSecret") {
      missing := missing + ["apiSecret"];
    }
    if !IsSet(c, "domainName") {
      missing := missing + ["domainName"];
    }
    assert RequiredKeys[1..] == ["apiSecret", "domainName"];
    assert RequiredKeys[1..][1..] == ["domainName"];
  }

  /** The error the hook logs for a non-empty missing list. */
  function MissingMessage(missing: seq<string>): (m: string)
    ensures |m| >= |MissingPrefix| && m[..|MissingPrefix|] == MissingPrefix
    ensures |missing| == 1 ==> m == MissingPrefix + missing[0]
  {
    MissingPrefix + Implode(", ", missing)
  }

  /** No required key is empty or contains the comma that joins them. */
  lemma MissingSeparable(c: Config)
    ensures Separable(", ", MissingAmong(c, RequiredKeys))
  {
    var m := MissingAmong(c, RequiredKeys);
    forall i | 0 <= i < |m|
      ensures |m[i]| > 0 && ',' !in m[i]
    {
      assert m[i] in RequiredKeys;
      assert m[i] == "shopId" || m[i] == "apiSecret" || m[i] == "domainName";
    }
  }

  /** The logged message names the missing settings unambiguously: two configurations that
      log the same message miss the same settings. */
  lemma MessageDeterminesMissing(c1: Config, c2: Config)
    requires MissingMessage(MissingAmong(c1, RequiredKeys)) == MissingMessage(MissingAmong(c2, RequiredKeys))
    ensures MissingAmong(c1, RequiredKeys) == MissingAmong(c2, RequiredKeys)
  {
    var m1, m2 := MissingAmong(c1, RequiredKeys), MissingAmong(c2, RequiredKeys);
    MissingSeparable(c1);
    MissingSeparable(c2);
    var p, j1, j2 := MissingPrefix, Implode(", ", m1), Implode(", ", m2);
    assert (p + j1)[|p|..] == j1;
    assert (p + j2)[|p|..] == j2;
    ImplodeInjective(", ", m1, m2);
  }
}
