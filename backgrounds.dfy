/**
 * The background mapping: which image, and which alternative text, goes
 * with a story setting. Both lookups lower-case the setting first and
 * answer every setting outside the catalog with a default.
 */
module Backgrounds {
  import opened JsStrings
  import opened Catalog

  const DefaultImage := "/backgrounds/default.jpg"
  const DefaultAltText := "A magical Ghibli-inspired landscape"

  /** The `switch` of `getBackgroundImage`, on an already lower-cased
      setting. */
  function ImageFor(lower: string): (path: string)
    ensures lower in Settings ==> path == "/backgrounds/" + lower + ".jpg"
    ensures lower !in Settings ==> path == DefaultImage
  {
    match lower
    case "forest" => "/backgrounds/forest.jpg"
    case "ocean" => "/backgrounds/ocean.jpg"
    case "mountain" => "/backgrounds/mountain.jpg"
    case "castle" => "/backgrounds/castle.jpg"
    case _ => DefaultImage
  }

  /** `getBackgroundImage`: the image file named after the lower-cased
      setting when that is a catalog setting, the default image otherwise. */
  function BackgroundImage(setting: string): (path: string)
    ensures ToLower(setting) in Settings ==> path == "/backgrounds/" + ToLower(setting) + ".jpg"
    ensures ToLower(setting) !in Settings ==> path == DefaultImage
  {
    ImageFor(ToLower(setting))
  }

  /** The `switch` of `getBackgroundAltText`, on an already lower-cased
      setting. */
  function AltTextFor(lower: string): (alt: string)
    ensures alt == DefaultAltText <==> lower !in Settings
  {
    match lower
    case "forest" => "A mystical forest with sunlight filtering through ancient trees"
    case "ocean" => "A serene ocean view with waves gently lapping at the shore"
    case "mountain" => "Majestic mountains shrouded in mist and clouds"
    case "castle" => "An enchanted castle with towers reaching toward the sky"
    case _ => DefaultAltText
  }

  /** `getBackgroundAltText`: a description of the lower-cased setting's
      landscape, the generic description otherwise. */
  function BackgroundAltText(setting: string): (alt: string)
    ensures ToLower(setting) !in Settings ==> alt == DefaultAltText
  {
    AltTextFor(ToLower(setting))
  }

  /** The catalog's settings are already in lower case. */
  lemma SettingIsLowerCase(setting: string)
    requires setting in Settings
    ensures ToLower(setting) == setting
  {
    if setting == "forest" {
      ToLowerFixesLower("forest");
    } else if setting == "ocean" {
      ToLowerFixesLower("ocean");
    } else if setting == "mountain" {
      ToLowerFixesLower("mountain");
    } else {
      ToLowerFixesLower("castle");
    }
  }

  /** The five image paths the mapping can produce. */
  const ImagePaths: set<string> :=
    {"/backgrounds/forest.jpg", "/backgrounds/ocean.jpg", "/backgrounds/mountain.jpg",
     "/backgrounds/castle.jpg", DefaultImage}

  /** Every setting gets one of exactly five images. */
  lemma ImageRange(setting: string)
    ensures BackgroundImage(setting) in ImagePaths
  {
  }

  /** Both lookups depend only on the lower-cased setting. */
  lemma CaseInsensitive(setting: string)
    ensures BackgroundImage(setting) == BackgroundImage(ToLower(setting))
    ensures BackgroundAltText(setting) == BackgroundAltText(ToLower(setting))
  {
    ToLowerIdempotent(setting);
  }

  /** A catalog setting is its own lower-case form, so it gets the image
      named after it and the description of its own `case`. */
  lemma CatalogLookups(setting: string)
    requires setting in Settings
    ensures BackgroundImage(setting) == "/backgrounds/" + setting + ".jpg"
    ensures BackgroundAltText(setting) == AltTextFor(setting)
  {
    SettingIsLowerCase(setting);
  }

  /** Capitalisation does not change the image. */
  lemma CapitalisationExample(a: string, b: string, c: string)
    requires a == "Forest" && b == "FOREST" && c == "forest"
    ensures BackgroundImage(a) == BackgroundImage(b) == BackgroundImage(c) == "/backgrounds/forest.jpg"
  {
    assert ToLower(a) == c && ToLower(b) == c;
    CatalogLookups(c);
  }

  /** "default" and the empty setting fall to the default image and the
      generic description. */
  lemma DefaultExamples(d: string, e: string)
    requires d == "default" && e == ""
    ensures BackgroundImage(d) == BackgroundImage(e) == DefaultImage
    ensures BackgroundAltText(d) == BackgroundAltText(e) == DefaultAltText
  {
    ToLowerFixesLower(d);
    assert d !in Settings;
  }

  /** The four settings have four different images, none of them the
      default. */
  lemma DistinctImages(a: string, b: string)
    requires a in Settings && b in Settings && a != b
    ensures BackgroundImage(a) != BackgroundImage(b) && BackgroundImage(a) != DefaultImage
  {
    CatalogLookups(a);
    CatalogLookups(b);
    var pa, pb := BackgroundImage(a), BackgroundImage(b);
    if |a| == |b| {
      assert pa[13..13 + |a|] == a && pb[13..13 + |b|] == b;
    } else {
      assert |pa| != |pb|;
    }
    assert |pa| == 17 + |a| != |DefaultImage|;
  }

  /** The lengths of the four catalog descriptions, in catalog order. */
  const AltTextLengths := [63, 58, 46, 55]

  lemma ForestAltTextLength(s: string)
    requires s == "forest"
    ensures |AltTextFor(s)| == AltTextLengths[0]
  {
  }

  lemma OceanAltTextLength(s: string)
    requires s == "ocean"
    ensures |AltTextFor(s)| == AltTextLengths[1]
  {
  }

  lemma MountainAltTextLength(s: string)
    requires s == "mountain"
    ensures |AltTextFor(s)| == AltTextLengths[2]
  {
  }

  lemma CastleAltTextLength(s: string)
    requires s == "castle"
    ensures |AltTextFor(s)| == AltTextLengths[3]
  {
  }

  /** The length of each catalog setting's description. */
  lemma AltTextAt(i: nat)
    requires i < |Settings|
    ensures |AltTextFor(Settings[i])| == AltTextLengths[i]
  {
    var s := Settings[i];
    if i == 0 {
      ForestAltTextLength(s);
    } else if i == 1 {
      OceanAltTextLength(s);
    } else if i == 2 {
      MountainAltTextLength(s);
    } else {
      CastleAltTextLength(s);
    }
  }

  /** The four lengths differ from each other and from that of the generic
      description. */
  lemma AltTextLengthsDiffer(i: nat, j: nat)
    requires i < |AltTextLengths| && j < |AltTextLengths| && i != j
    ensures AltTextLengths[i] != AltTextLengths[j]
    ensures AltTextLengths[i] != |DefaultAltText|
  {
  }

  /** The four settings have four different descriptions, none of them the
      generic one. */
  lemma DistinctAltTexts(i: nat, j: nat)
    requires i < |Settings| && j < |Settings| && i != j
    ensures BackgroundAltText(Settings[i]) != BackgroundAltText(Settings[j])
    ensures BackgroundAltText(Settings[i]) != DefaultAltText
  {
    CatalogLookups(Settings[i]);
    CatalogLookups(Settings[j]);
    AltTextAt(i);
    AltTextAt(j);
    AltTextLengthsDiffer(i, j);
  }

  /** The default image is given exactly to the settings whose lower-case
      form is outside the catalog. */
  lemma DefaultImageOnlyOutside(setting: string)
    ensures BackgroundImage(setting) == DefaultImage <==> ToLower(setting) !in Settings
  {
    var lower := ToLower(setting);
    if lower in Settings {
      assert |BackgroundImage(setting)| == 17 + |lower| != |DefaultImage|;
    }
  }

  /** The generic description is given exactly to the settings whose
      lower-case form is outside the catalog. */
  lemma DefaultAltTextOnlyOutside(setting: string)
    ensures BackgroundAltText(setting) == DefaultAltText <==> ToLower(setting) !in Settings
  {
    var lower := ToLower(setting);
    if lower in Settings {
      var i :| 0 <= i < |Settings| && Settings[i] == lower;
      AltTextAt(i);
      AltTextLengthsDiffer(i, if i == 0 then 1 else 0);
    }
  }

  /** The two lookups agree on which settings are unknown. */
  lemma DefaultsAgree(setting: string)
    ensures BackgroundImage(setting) == DefaultImage <==> BackgroundAltText(setting) == DefaultAltText
  {
    DefaultImageOnlyOutside(setting);
    DefaultAltTextOnlyOutside(setting);
  }
}
