/** The admin plugin's identifier, shared by its translation keys and its routes. */
module PluginId {
  const PLUGIN_ID: string := "record-locking"
}
