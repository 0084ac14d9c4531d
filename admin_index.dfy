/**
 * The translation side of the admin entry point: prefixing a translation
 * dictionary with the plugin id, and `registerTrads`, which loads one
 * dictionary per locale. The dynamic `import` of a locale's JSON file is an
 * input: `bundles` holds the dictionaries that load, and a locale missing
 * from it stands for an import that fails.
 */
module AdminIndex {
  import opened Wrappers
  import opened PluginId
  import opened TranslationIds

  type TradOptions = map<string, string>

  /** The key a translation key `k` gets under `pluginId`. */
  function PrefixedKey(pluginId: string, k: string): (key: string)
    ensures pluginId + "." <= key && key[|pluginId| + 1..] == k
  {
    pluginId + "." + k
  }

  lemma PrefixedKeyInjective(pluginId: string, a: string, b: string)
    requires PrefixedKey(pluginId, a) == PrefixedKey(pluginId, b)
    ensures a == b
  {
    assert a == PrefixedKey(pluginId, a)[|pluginId| + 1..];
  }

  /** The dictionary `prefixPluginTranslations` builds: each key moved under `pluginId.`, values kept. */
  function Prefixed(trad: TradOptions, pluginId: string): TradOptions
  {
    map k | k in trad :: PrefixedKey(pluginId, k) := trad[k]
  }

  /**
   * `prefixPluginTranslations`: throws for an empty plugin id; otherwise
   * walks the keys of `trad`, writing each value under its prefixed key
   * into the accumulator.
   */
  method PrefixPluginTranslations(trad: TradOptions, pluginId: string) returns (r: Result<TradOptions, string>)
    ensures pluginId == "" <==> r.Failure?
    ensures r.Failure? ==> r.error == "pluginId can't be empty"
    ensures r.Success? ==> r.value == Prefixed(trad, pluginId)
  {
    if pluginId == "" {
      return Failure("pluginId can't be empty");
    }
    var acc: TradOptions := map[];
    var keys := trad.Keys;
    while keys != {}
      invariant keys <= trad.Keys
      invariant forall k :: k in trad && k !in keys ==>
        (PrefixedKey(pluginId, k) in acc && acc[PrefixedKey(pluginId, k)] == trad[k])
      invariant forall key :: key in acc ==> exists k :: k in trad && k !in keys && key == PrefixedKey(pluginId, k)
      decreases keys
    {
      var current :| current in keys;
      acc := acc[PrefixedKey(pluginId, current) := trad[current]];
      keys := keys - {current};
    }
    forall key | key in acc
      ensures key in Prefixed(trad, pluginId) && acc[key] == Prefixed(trad, pluginId)[key]
    {
      var k :| k in trad && key == PrefixedKey(pluginId, k);
    }
    return Success(acc);
  }

  /**
   * Every key of `trad` reappears under `pluginId.` with its value, and
   * every key of the result is such a key.
   */
  lemma PrefixedContents(trad: TradOptions, pluginId: string)
    ensures forall k :: k in trad ==>
      (PrefixedKey(pluginId, k) in Prefixed(trad, pluginId) && Prefixed(trad, pluginId)[PrefixedKey(pluginId, k)] == trad[k])
    ensures forall key :: key in Prefixed(trad, pluginId) ==>
      pluginId + "." <= key && key[|pluginId| + 1..] in trad
  {
  }

  /** Prefixing keeps the number of keys: no two keys collide. */
  lemma {:induction false} PrefixedSize(trad: TradOptions, pluginId: string)
    ensures |Prefixed(trad, pluginId)| == |trad|
    decreases |trad|
  {
    if trad != map[] {
      var k :| k in trad;
      var rest := trad - {k};
      PrefixedSize(rest, pluginId);
      var key := PrefixedKey(pluginId, k);
      assert Prefixed(trad, pluginId).Keys == Prefixed(rest, pluginId).Keys + {key};
      assert key !in Prefixed(rest, pluginId);
      assert |trad.Keys| == |rest.Keys| + 1;
    }
  }

  /** `getTranslation(k)` names exactly the entry the registered dictionary holds for `k`. */
  lemma GetTranslationFindsPrefixedEntry(trad: TradOptions, k: string)
    ensures GetTranslation(k) in Prefixed(trad, PLUGIN_ID) <==> k in trad
    ensures k in trad ==> Prefixed(trad, PLUGIN_ID)[GetTranslation(k)] == trad[k]
  {
    if GetTranslation(k) in Prefixed(trad, PLUGIN_ID) {
      var k' :| k' in trad && GetTranslation(k) == PrefixedKey(PLUGIN_ID, k');
      PrefixedKeyInjective(PLUGIN_ID, k, k');
    }
  }

  /** One element of the array `registerTrads` resolves to. */
  datatype LocaleTranslations = LocaleTranslations(data: TradOptions, locale: string)

  /** One locale: its prefixed dictionary, or `{}` when the import (or the prefixing) fails. */
  function LoadLocale(locale: string, bundles: map<string, TradOptions>): (r: LocaleTranslations)
    ensures r.locale == locale
    ensures locale !in bundles ==> r.data == map[]
    ensures locale in bundles ==> |r.data| == |bundles[locale]|
  {
    if locale in bundles && PLUGIN_ID != "" then
      PrefixedSize(bundles[locale], PLUGIN_ID);
      LocaleTranslations(Prefixed(bundles[locale], PLUGIN_ID), locale)
    else LocaleTranslations(map[], locale)
  }

  /** `registerTrads`: `Promise.all` over the locales, each tagged with its own locale. */
  function RegisterTrads(locales: seq<string>, bundles: map<string, TradOptions>): (r: seq<LocaleTranslations>)
    ensures |r| == |locales|
    ensures forall i :: 0 <= i < |r| ==> r[i].locale == locales[i]
    ensures forall i :: 0 <= i < |r| && locales[i] !in bundles ==> r[i].data == map[]
    ensures forall i :: 0 <= i < |r| && locales[i] in bundles ==> r[i].data == Prefixed(bundles[locales[i]], PLUGIN_ID)
  {
    seq(|locales|, i requires 0 <= i < |locales| => LoadLocale(locales[i], bundles))
  }

  /**
   * Every message a registered locale offers is found under `getTranslation`
   * of its original key, with the value the locale's file gives it.
   */
  lemma RegisteredKeysAreTranslationIds(locales: seq<string>, bundles: map<string, TradOptions>, i: int, key: string)
    requires 0 <= i < |locales|
    requires key in RegisterTrads(locales, bundles)[i].data
    ensures locales[i] in bundles
    ensures exists k :: k in bundles[locales[i]] && key == GetTranslation(k)
                        && RegisterTrads(locales, bundles)[i].data[key] == bundles[locales[i]][k]
  {
    var data := RegisterTrads(locales, bundles)[i].data;
    assert locales[i] in bundles;
    var k :| k in bundles[locales[i]] && key == PrefixedKey(PLUGIN_ID, k);
    assert key == GetTranslation(k);
  }
}
