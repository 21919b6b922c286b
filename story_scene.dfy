/**
 * How the provider's result meets the background mapping: the setting of
 * every story the provider returns has its own image and description.
 */
module StoryScene {
  import opened JsStrings
  import opened Catalog
  import opened StoryProvider
  import opened Backgrounds

  /** Whichever path produced it, a story's setting never falls to the
      default background or the generic description. */
  lemma StoryHasOwnBackground(options: StoryOptions, hasKey: bool, service: string -> ServiceReply, pick: nat, fallbackPick: nat)
    requires pick < |Settings| && fallbackPick < |Settings|
    ensures var r := FetchStory(options, hasKey, service, pick, fallbackPick);
      && BackgroundImage(r.setting) == "/backgrounds/" + r.setting + ".jpg"
      && BackgroundAltText(r.setting) != DefaultAltText
  {
    var r := FetchStory(options, hasKey, service, pick, fallbackPick);
    CatalogLookups(r.setting);
    SettingIsLowerCase(r.setting);
    DefaultAltTextOnlyOutside(r.setting);
  }
}
