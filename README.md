# GhibliVerse story selection, modelled in Dafny

GhibliVerse is a small web application that tells short Ghibli-style stories
over a themed background picture. This project models the part of it that
makes decisions: the **story provider** (`fetchStoryFromMCP` and
`generateFallbackStory` in `src/utils/mcpClient.ts`) and the **background
mapping** (`getBackgroundImage` and `getBackgroundAltText` in
`src/utils/backgrounds.ts`).

The provider turns a caller's optional preferences into a `{story, setting}`
pair. When an API key is configured, it does the following:

- resolves the setting from keywords in the theme, or at random when the theme
  has none;
- builds a prompt and asks a generative text service for the story;
- keeps the trimmed text of the reply.

When no key is configured, or when the service call fails in any way, it
returns a fixed paragraph for a randomly picked setting instead. It never
fails.

The background mapping lower-cases a setting. It then looks up an image path
and an accessibility description, with a default for any unknown setting.

Files:

- `js_strings.dfy` (module `JsStrings`): the JavaScript string built-ins the
  source relies on. These are `includes`, `toLowerCase` and `trim`. Each is a
  recursive definition, and its contract proves it against a non-recursive
  characterisation.
- `catalog.dfy` (module `Catalog`): the four-entry setting catalog.
- `story_provider.dfy` (module `StoryProvider`): option defaults, setting
  resolution, the prompt, the treatment of a service reply, the fallback
  corpus and the provider itself.
- `backgrounds.dfy` (module `Backgrounds`): the two background lookups.
- `story_scene.dfy` (module `StoryScene`): every setting the provider returns
  has its own background.

The provider's hidden inputs are explicit parameters of the model:

- `hasKey` says whether `GEMINI_API_KEY` is set.
- `service` maps the prompt it receives to a `ServiceReply`. That reply is
  either `Thrown`, or `Replied(ok, text)` carrying the response's `ok` flag
  and the first candidate's first text part, if the body has one.
- `pick` is the catalog index chosen by the `Math.random()` draw at
  `src/utils/mcpClient.ts:46`.
- `fallbackPick` is the index chosen by the draw at
  `src/utils/mcpClient.ts:109`.

## Model

| member | source | states |
|---|---|---|
| JsStrings.Includes | src/utils/mcpClient.ts:42-45 | `theme.includes(word)` holds exactly when `word` occurs in `theme` at some index (case-sensitive substring test) |
| JsStrings.MissingCharExcludes | src/utils/mcpClient.ts:42-45 | a theme lacking some letter of a keyword does not include that keyword |
| JsStrings.IncludesItself | src/utils/mcpClient.ts:42-45 | a theme that is exactly a keyword includes it |
| JsStrings.EndsWithCancel | src/utils/mcpClient.ts:49-51 | a common ending can be cancelled from both sides of an ends-with test |
| JsStrings.LowerChar | src/utils/backgrounds.ts:12 | an upper-case ASCII letter becomes its lower-case letter; every other character is unchanged; the result is never upper case |
| JsStrings.ToLower | src/utils/backgrounds.ts:12 | `toLowerCase` keeps the length and lower-cases each character in place |
| JsStrings.ToLowerFixesLower | src/utils/backgrounds.ts:12 | a string without upper-case letters is its own lower-case form |
| JsStrings.ToLowerIdempotent | src/utils/backgrounds.ts:12 | lower-casing twice is the same as lower-casing once |
| JsStrings.TrimStart | src/utils/mcpClient.ts:79 | the result is a suffix of the input; everything removed is whitespace; the result does not start with whitespace |
| JsStrings.TrimEnd | src/utils/mcpClient.ts:79 | the result is a prefix of the input; everything removed is whitespace; the result does not end with whitespace |
| JsStrings.TrimComposes | src/utils/mcpClient.ts:79 | trimming the start and then the end leaves a slice with only whitespace on either side; it is empty exactly when the input is all whitespace |
| JsStrings.Trim | src/utils/mcpClient.ts:79 | `trim` returns a slice of the input with only whitespace on either side; the slice is empty exactly when the input is all whitespace, and otherwise neither starts nor ends with whitespace |
| StoryProvider.OrElse | src/utils/mcpClient.ts:36-38 | JavaScript's logical-or default on an optional string: a present non-empty value is kept, an absent or empty one is replaced; the result is empty only when both are |
| StoryProvider.ThemeOf | src/utils/mcpClient.ts:36 | the theme is the one given, or "" when absent |
| StoryProvider.LengthOf | src/utils/mcpClient.ts:37 | the length is the name of the requested one ("short", "medium" or "long"), and "short" when absent |
| StoryProvider.StyleOf | src/utils/mcpClient.ts:38 | the style is the one given unless absent or empty, then "magical, whimsical, Ghibli-inspired"; it is never empty |
| StoryProvider.Defaults | src/utils/mcpClient.ts:36-38 | absent or empty theme gives ""; absent length gives "short"; each present length gives its own name; absent or empty style gives "magical, whimsical, Ghibli-inspired"; present values are kept |
| StoryProvider.FirstRule | src/utils/mcpClient.ts:41-45 | returns the setting of a rule whose words the theme mentions and such that no earlier rule matches; it returns nothing exactly when no rule matches |
| StoryProvider.ResolveSetting | src/utils/mcpClient.ts:41-46 | the resolved setting is always one of the four catalog entries |
| StoryProvider.ResolveSettingIsFirstRule | src/utils/mcpClient.ts:41-46 | the if/else chain equals the first matching rule of the priority list forest, ocean/sea, mountain, castle; the random pick decides only when no rule matches |
| StoryProvider.SettingChoice | src/utils/mcpClient.ts:41-46 | for each of the four settings, an if-and-only-if: it is chosen when its keyword occurs and no earlier keyword does, or when no keyword occurs and the pick selects it; when any keyword occurs, the pick does not matter |
| StoryProvider.RandomPickCoversCatalog | src/utils/mcpClient.ts:46 | with no keyword in the theme, different picks give different settings and every catalog setting is reachable |
| StoryProvider.ForestThemeExample | src/utils/mcpClient.ts:42 | "a castle by the sea in the forest" resolves to forest, whatever other keywords occur |
| StoryProvider.OceanBeforeCastleExample | src/utils/mcpClient.ts:43-45 | "an ocean castle" resolves to ocean |
| StoryProvider.SubstringMatchExample | src/utils/mcpClient.ts:43 | "a research castle" resolves to ocean, because the test is on substrings and "research" contains "sea" |
| StoryProvider.CaseSensitiveExample | src/utils/mcpClient.ts:42-46 | "Forest" matches no keyword, so the random pick decides |
| StoryProvider.MountainLacksEarlierKeywords | src/utils/mcpClient.ts:42-43 | the theme "mountain" contains neither "forest", "ocean" nor "sea" |
| StoryProvider.MountainThemeSetting | src/utils/mcpClient.ts:44 | the theme "mountain" resolves to mountain |
| StoryProvider.BuildPrompt | src/utils/mcpClient.ts:49-51 | the prompt contains the length, the style and the setting; for a non-empty theme it contains "about <theme>" |
| StoryProvider.NoAboutAfterSetting | src/utils/mcpClient.ts:49 | text ending in a catalog setting and a space never ends in " about " |
| StoryProvider.AboutClauseEnding | src/utils/mcpClient.ts:49 | before the closing instructions, the prompt ends with " about <theme>" exactly when the theme is non-empty |
| StoryProvider.PromptAboutClause | src/utils/mcpClient.ts:49-51 | for a catalog setting, the whole prompt ends with " about <theme>" and the fixed closing instructions exactly when the theme is non-empty |
| StoryProvider.SettingFor | src/utils/mcpClient.ts:36-46 | the setting resolved from the options is a catalog entry; without a theme, or with no keyword in it, it is the picked entry |
| StoryProvider.Prompt | src/utils/mcpClient.ts:36-51 | the prompt built from the options contains the resolved length, style and setting, and "about <theme>" for a non-empty theme |
| StoryProvider.StoryText | src/utils/mcpClient.ts:70-84 | a reply yields a story exactly when the call did not throw, the status is ok, and a text is present and not all whitespace; that story is the trimmed text, non-empty and without surrounding whitespace |
| StoryProvider.FallbackText | src/utils/mcpClient.ts:114-129 | every setting gets a non-empty paragraph; the generic paragraph is given exactly to settings outside the catalog |
| StoryProvider.FallbackTextInjective | src/utils/mcpClient.ts:114-126 | the four setting paragraphs are pairwise different |
| StoryProvider.GenerateFallbackStory | src/utils/mcpClient.ts:104-135 | the setting is drawn from the list passed in; the story is that setting's fixed non-empty paragraph; the generic paragraph appears exactly for a setting outside the catalog |
| StoryProvider.PrimarySucceeds | src/utils/mcpClient.ts:28-84 | the primary path yields a story exactly when a key is set and the reply to the prompt did not throw, has an ok status and carries a text that is not all whitespace |
| StoryProvider.FetchStory | src/utils/mcpClient.ts:22-96 | the provider never fails: its setting is always a catalog entry (never "default") and its story is never empty |
| StoryProvider.FetchStoryDecision | src/utils/mcpClient.ts:28-94 | on success, the result is the trimmed reply text with the keyword/random setting; on any failure, it is the catalog paragraph for the fallback pick, never the generic one |
| StoryProvider.FallbackDiscardsPreferences | src/utils/mcpClient.ts:90-95 | after a failed primary path, the result does not depend on theme, length, style, service or first pick; it equals the no-key result |
| StoryProvider.FailedReplyFallsBack | src/utils/mcpClient.ts:70-95 | a thrown call, a status that is not ok, a missing text or a blank text leads to the fallback over the four-entry catalog |
| StoryProvider.MountainThemeExample | src/utils/mcpClient.ts:36-89 | with theme "mountain" and a working service, the setting is mountain and the prompt the service receives contains "mountain" |
| Backgrounds.ImageFor | src/utils/backgrounds.ts:12-22 | on a lower-case setting, a catalog setting gets "/backgrounds/" + setting + ".jpg" and anything else the default image |
| Backgrounds.BackgroundImage | src/utils/backgrounds.ts:11-23 | a setting whose lower-case form is in the catalog gets "/backgrounds/" + that form + ".jpg"; every other setting gets the default image |
| Backgrounds.AltTextFor | src/utils/backgrounds.ts:32-42 | on a lower-case setting, the generic description is given exactly to settings outside the catalog |
| Backgrounds.BackgroundAltText | src/utils/backgrounds.ts:31-43 | a setting whose lower-case form is outside the catalog gets the generic description |
| Backgrounds.SettingIsLowerCase | src/utils/mcpClient.ts:25 | the catalog's settings are their own lower-case forms |
| Backgrounds.ImageRange | src/utils/backgrounds.ts:11-23 | every setting gets one of exactly five image paths |
| Backgrounds.CaseInsensitive | src/utils/backgrounds.ts:11-43 | both lookups give the same answer for a setting and for its lower-case form |
| Backgrounds.CatalogLookups | src/utils/backgrounds.ts:12-20 | a catalog setting gets the image named after it and the description of its own case of the switch |
| Backgrounds.CapitalisationExample | src/utils/backgrounds.ts:12-14 | "Forest", "FOREST" and "forest" all get the forest image |
| Backgrounds.DefaultExamples | src/utils/backgrounds.ts:21-22 | "default" and "" get the default image and the generic description |
| Backgrounds.DistinctImages | src/utils/backgrounds.ts:13-20 | different catalog settings get different images, none of them the default |
| Backgrounds.DistinctAltTexts | src/utils/backgrounds.ts:32-42 | different catalog settings get different descriptions, none of them the generic one |
| Backgrounds.DefaultImageOnlyOutside | src/utils/backgrounds.ts:11-23 | the default image is given exactly to the settings whose lower-case form is outside the catalog |
| Backgrounds.DefaultAltTextOnlyOutside | src/utils/backgrounds.ts:31-43 | the generic description is given exactly to the settings whose lower-case form is outside the catalog |
| Backgrounds.DefaultsAgree | src/utils/backgrounds.ts:11-43 | the default image and the generic description are given to exactly the same settings |
| StoryScene.StoryHasOwnBackground | src/utils/backgrounds.ts:11-43 | every setting the provider returns gets its own "/backgrounds/<setting>.jpg" image and a specific description, never the defaults |

The no-key path at `src/utils/mcpClient.ts:30` hands the caller's options to
`generateFallbackStory`, which never reads them. The failed primary path
passes `{}` at `src/utils/mcpClient.ts:94`. `FallbackDiscardsPreferences`
and `FetchStoryDecision` show that both fallback routes give the same
result.

## Left out

- The HTTP POST to the generative text service and the JSON decoding of its
  body (`src/utils/mcpClient.ts:56-75`) are network I/O. They are replaced by
  the `service` parameter. A decoding error, a transport error and a text
  field that is not a string all become `Thrown`.
- `Math.random()` and the floating-point `Math.floor(Math.random() * n)` are
  replaced by the injected indices `pick` and `fallbackPick`. No probability
  distribution is modelled.
- The one-second `setTimeout` delay, the `async`/`Promise` plumbing and all
  `console.log`/`console.error` output only affect timing and logging.
- `process.env.GEMINI_API_KEY` is replaced by the boolean `hasKey`.
- StoryProvider.GenerateFallbackStory: requires a pick inside the settings
  list it is given. An empty list, for which `generateFallbackStory` would return an
  `undefined` setting, is not modelled. Both call sites pass the four-entry
  catalog.
- StoryProvider.StoryOptions: `length` is one of the three declared values.
  A string cast from a query parameter outside those three is not modelled.
- JsStrings.ToLower: lower-cases `A`–`Z` only. JavaScript's full Unicode case
  mapping is not modelled. The four catalog names are plain ASCII.
- The route handler's 500 response with setting "default"
  (`src/app/api/story/route.ts`) is outside the provider. So are the React
  pages and components, the MongoDB persistence routes and the type
  declarations.
