/** `getTranslation`: the message id under which the plugin's translations are registered. */
module TranslationIds {
  import opened PluginId

  /** `${PLUGIN_ID}.${id}` */
  function GetTranslation(id: string): (r: string)
    ensures PLUGIN_ID + "." <= r
    ensures |r| == |PLUGIN_ID| + 1 + |id|
    ensures r[|PLUGIN_ID| + 1..] == id
  {
    PLUGIN_ID + "." + id
  }

  /** Distinct ids give distinct message ids. */
  lemma GetTranslationInjective(a: string, b: string)
    requires GetTranslation(a) == GetTranslation(b)
    ensures a == b
  {
  }
}
