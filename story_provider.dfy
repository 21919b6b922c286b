/**
 * The story provider: how a `{story, setting}` pair is produced, either
 * from the generative text service or from the built-in fallback corpus.
 *
 * The provider's hidden inputs are parameters here: whether an API key is
 * configured is `hasKey`, the service is a function from the prompt it
 * receives to its reply, and each draw of the random number generator is
 * the index it selects in the catalog (`pick` for the primary path's draw,
 * `fallbackPick` for the fallback's).
 */
module StoryProvider {
  import opened JsStrings
  import opened Catalog

  datatype Option<T> = None | Some(value: T)

  datatype Length = Short | Medium | Long

  /** The caller's preferences; each may be absent. */
  datatype StoryOptions = StoryOptions(theme: Option<string>, length: Option<Length>, style: Option<string>)

  /** The empty options object `{}` the failed primary path falls back with. */
  const NoOptions := StoryOptions(None, None, None)

  datatype StoryResponse = StoryResponse(story: string, setting: string)

  /** What one call to the generative text service yields: an exception
      (transport error, unreadable body, a text field that is not a string)
      or a response with its `ok` flag and the first candidate's first text
      part, when the body has one. */
  datatype ServiceReply = Thrown | Replied(ok: bool, text: Option<string>)

  // ---------------------------------------------------------------------
  // Defaults
  // ---------------------------------------------------------------------

  const DefaultLength := "short"
  const DefaultStyle := "magical, whimsical, Ghibli-inspired"

  function LengthName(l: Length): string {
    match l
    case Short => "short"
    case Medium => "medium"
    case Long => "long"
  }

  /** JavaScript's `value || fallback` on an optional string: absent and
      empty values are both replaced. */
  function OrElse(o: Option<string>, fallback: string): (v: string)
    ensures o.Some? && o.value != "" ==> v == o.value
    ensures o.None? || o.value == "" ==> v == fallback
    ensures v == "" <==> fallback == "" && (o.None? || o.value == "")
  {
    if o.Some? && o.value != "" then o.value else fallback
  }

  /** `options.theme || ''`: the theme as given, the empty string when
      absent. */
  function ThemeOf(options: StoryOptions): (theme: string)
    ensures options.theme.Some? ==> theme == options.theme.value
    ensures options.theme.None? ==> theme == ""
  {
    OrElse(options.theme, "")
  }

  /** `options.length || 'short'`: the name of the requested length, "short"
      when absent. */
  function LengthOf(options: StoryOptions): (length: string)
    ensures length in {"short", "medium", "long"}
    ensures options.length == None ==> length == DefaultLength
    ensures options.length == Some(Short) ==> length == "short"
    ensures options.length == Some(Medium) ==> length == "medium"
    ensures options.length == Some(Long) ==> length == "long"
  {
    match options.length
    case None => DefaultLength
    case Some(l) => LengthName(l)
  }

  /** `options.style || 'magical, whimsical, Ghibli-inspired'`: the style as
      given unless absent or empty; never empty. */
  function StyleOf(options: StoryOptions): (style: string)
    ensures style != ""
    ensures options.style.Some? && options.style.value != "" ==> style == options.style.value
    ensures options.style.None? || options.style.value == "" ==> style == DefaultStyle
  {
    OrElse(options.style, DefaultStyle)
  }

  /** What each preference resolves to, present or absent. */
  lemma Defaults(options: StoryOptions)
    ensures options.theme == None || options.theme == Some("") ==> ThemeOf(options) == ""
    ensures options.theme.Some? ==> ThemeOf(options) == options.theme.value
    ensures options.length == None ==> LengthOf(options) == "short"
    ensures options.length == Some(Short) ==> LengthOf(options) == "short"
    ensures options.length == Some(Medium) ==> LengthOf(options) == "medium"
    ensures options.length == Some(Long) ==> LengthOf(options) == "long"
    ensures options.style == None || options.style == Some("") ==> StyleOf(options) == DefaultStyle
    ensures options.style.Some? && options.style.value != "" ==> StyleOf(options) == options.style.value
    ensures StyleOf(options) != "" && LengthOf(options) != ""
  {
  }

  // ---------------------------------------------------------------------
  // Setting resolution
  // ---------------------------------------------------------------------

  /** The keyword rules in priority order: a setting and the words in a
      theme that select it. */
  const KeywordRules: seq<(string, seq<string>)> :=
    [("forest", ["forest"]), ("ocean", ["ocean", "sea"]), ("mountain", ["mountain"]), ("castle", ["castle"])]

  predicate Mentions(theme: string, words: seq<string>) {
    exists w :: w in words && Includes(theme, w)
  }

  /** The setting of the first rule whose words the theme mentions. */
  function FirstRule(rules: seq<(string, seq<string>)>, theme: string): (r: Option<string>)
    ensures r.Some? ==>
      exists k :: 0 <= k < |rules| && rules[k].0 == r.value && Mentions(theme, rules[k].1)
        && forall j :: 0 <= j < k ==> !Mentions(theme, rules[j].1)
    ensures r.None? <==> forall k :: 0 <= k < |rules| ==> !Mentions(theme, rules[k].1)
  {
    if rules == [] then None
    else if Mentions(theme, rules[0].1) then Some(rules[0].0)
    else
      var r := FirstRule(rules[1..], theme);
      assert forall k :: 1 <= k < |rules| ==> rules[k] == rules[1..][k - 1];
      r
  }

  /** The theme contains none of the five keywords. */
  predicate NoKeyword(theme: string) {
    && !Includes(theme, "forest") && !Includes(theme, "ocean") && !Includes(theme, "sea")
    && !Includes(theme, "mountain") && !Includes(theme, "castle")
  }

  /** The setting the primary path asks the service for: the first keyword
      found in the theme, case-sensitively, else the randomly picked entry
      of the catalog. */
  function ResolveSetting(theme: string, pick: nat): (setting: string)
    requires pick < |Settings|
    ensures setting in Settings
  {
    if Includes(theme, "forest") then "forest"
    else if Includes(theme, "ocean") || Includes(theme, "sea") then "ocean"
    else if Includes(theme, "mountain") then "mountain"
    else if Includes(theme, "castle") then "castle"
    else Settings[pick]
  }

  /** The if/else chain is the first-matching-rule lookup over the
      priority-ordered keyword rules, with the random pick as the default. */
  lemma ResolveSettingIsFirstRule(theme: string, pick: nat)
    requires pick < |Settings|
    ensures ResolveSetting(theme, pick) ==
      match FirstRule(KeywordRules, theme)
      case Some(s) => s
      case None => Settings[pick]
  {
    var rules := KeywordRules;
    assert Mentions(theme, rules[0].1) <==> Includes(theme, "forest") by {
      assert rules[0].1 == ["forest"];
    }
    assert Mentions(theme, rules[1].1) <==> Includes(theme, "ocean") || Includes(theme, "sea") by {
      assert rules[1].1 == ["ocean", "sea"];
    }
    assert Mentions(theme, rules[2].1) <==> Includes(theme, "mountain") by {
      assert rules[2].1 == ["mountain"];
    }
    assert Mentions(theme, rules[3].1) <==> Includes(theme, "castle") by {
      assert rules[3].1 == ["castle"];
    }
    assert rules[3..][1..] == [];
    assert FirstRule(rules[3..], theme) == if Includes(theme, "castle") then Some("castle") else None;
    assert rules[2..][1..] == rules[3..];
    assert FirstRule(rules[2..], theme) ==
      if Includes(theme, "mountain") then Some("mountain") else FirstRule(rules[3..], theme);
    assert rules[1..][1..] == rules[2..];
    assert FirstRule(rules[1..], theme) ==
      if Includes(theme, "ocean") || Includes(theme, "sea") then Some("ocean") else FirstRule(rules[2..], theme);
  }

  /** Each outcome of the resolution, in both directions: a setting is
      chosen by its keyword exactly when no earlier keyword occurs, or by
      the random pick exactly when no keyword occurs at all. */
  lemma SettingChoice(theme: string, pick: nat)
    requires pick < |Settings|
    ensures ResolveSetting(theme, pick) == "forest" <==>
      Includes(theme, "forest") || (NoKeyword(theme) && pick == 0)
    ensures ResolveSetting(theme, pick) == "ocean" <==>
      (!Includes(theme, "forest") && (Includes(theme, "ocean") || Includes(theme, "sea")))
      || (NoKeyword(theme) && pick == 1)
    ensures ResolveSetting(theme, pick) == "mountain" <==>
      (!Includes(theme, "forest") && !Includes(theme, "ocean") && !Includes(theme, "sea") && Includes(theme, "mountain"))
      || (NoKeyword(theme) && pick == 2)
    ensures ResolveSetting(theme, pick) == "castle" <==>
      (!Includes(theme, "forest") && !Includes(theme, "ocean") && !Includes(theme, "sea")
       && !Includes(theme, "mountain") && Includes(theme, "castle"))
      || (NoKeyword(theme) && pick == 3)
    ensures !NoKeyword(theme) ==> forall p :: 0 <= p < |Settings| ==> ResolveSetting(theme, p) == ResolveSetting(theme, pick)
  {
  }

  /** With no keyword in the theme, the pick ranges over the whole
      catalog, each index selecting its own entry. */
  lemma RandomPickCoversCatalog(theme: string)
    requires NoKeyword(theme)
    ensures forall s :: s in Settings ==> exists p :: 0 <= p < |Settings| && ResolveSetting(theme, p) == s
    ensures forall p, q :: 0 <= p < q < |Settings| ==> ResolveSetting(theme, p) != ResolveSetting(theme, q)
  {
    forall s | s in Settings
      ensures exists p :: 0 <= p < |Settings| && ResolveSetting(theme, p) == s
    {
      var p :| 0 <= p < |Settings| && Settings[p] == s;
      assert ResolveSetting(theme, p) == s;
    }
  }

  /** "forest" wins wherever it appears among other keywords. */
  lemma ForestThemeExample(theme: string, pick: nat)
    requires theme == "a castle by the sea in the forest" && pick < |Settings|
    ensures ResolveSetting(theme, pick) == "forest"
  {
    assert OccursAt(theme, "forest", 27);
  }

  /** "ocean" is checked before "castle". */
  lemma OceanBeforeCastleExample(theme: string, pick: nat)
    requires theme == "an ocean castle" && pick < |Settings|
    ensures ResolveSetting(theme, pick) == "ocean"
  {
    MissingCharExcludes(theme, "forest", 'f');
    assert OccursAt(theme, "ocean", 3);
  }

  /** The test is on substrings, not words: "research" contains "sea". */
  lemma SubstringMatchExample(theme: string, pick: nat)
    requires theme == "a research castle" && pick < |Settings|
    ensures ResolveSetting(theme, pick) == "ocean"
  {
    MissingCharExcludes(theme, "forest", 'f');
    assert OccursAt(theme, "sea", 4);
  }

  /** The test is case-sensitive: "Forest" matches no keyword, so the
      random pick decides. */
  lemma CaseSensitiveExample(theme: string, pick: nat)
    requires theme == "Forest" && pick < |Settings|
    ensures ResolveSetting(theme, pick) == Settings[pick]
  {
    MissingCharExcludes(theme, "forest", 'f');
    MissingCharExcludes(theme, "ocean", 'c');
    MissingCharExcludes(theme, "sea", 'a');
    MissingCharExcludes(theme, "mountain", 'm');
    MissingCharExcludes(theme, "castle", 'c');
  }

  // ---------------------------------------------------------------------
  // Prompt
  // ---------------------------------------------------------------------

  /** Everything after the optional "about" clause, line breaks and
      indentation included. */
  const PromptTail :=
    ". \n"
    + "    The story should be magical, whimsical, and suitable for all ages. \n"
    + "    Make it feel like a Studio Ghibli film in written form."

  /** The text sent to the service. */
  function BuildPrompt(length: string, style: string, setting: string, theme: string): (prompt: string)
    ensures Includes(prompt, length) && Includes(prompt, style) && Includes(prompt, setting)
    ensures theme != "" ==> Includes(prompt, "about " + theme)
  {
    var about := if theme != "" then "about " + theme else "";
    var lead := "Generate a " + length + " " + style + " story set in a ";
    var prompt := lead + setting + " " + about + PromptTail;
    assert OccursAt(prompt, length, 11);
    assert OccursAt(prompt, style, 12 + |length|);
    assert OccursAt(prompt, setting, |lead|);
    assert OccursAt(prompt, about, |lead| + |setting| + 1);
    prompt
  }

  /** Text that ends in a catalog setting and a space does not end in
      " about ": two characters into that ending stands the fourth-last
      letter of the setting, never the 'b' of "about". */
  lemma NoAboutAfterSetting(lead: string, setting: string)
    requires setting in Settings
    ensures !EndsWith(lead + setting + " ", " about ")
  {
    var x := lead + setting + " ";
    if |x| >= 7 {
      var n := |x| - 7;
      assert x[n + 2] == setting[|setting| - 4] != 'b';
      assert x[n..][2] != " about "[2];
    }
  }

  /** Before the closing instructions, the prompt ends with an
      "about <theme>" clause exactly when the theme is non-empty. */
  lemma AboutClauseEnding(lead: string, setting: string, theme: string)
    requires setting in Settings
    ensures var about := if theme != "" then "about " + theme else "";
      EndsWith(lead + setting + " " + about, " about " + theme) <==> theme != ""
  {
    if theme != "" {
      var body := lead + setting + " " + ("about " + theme);
      assert body == lead + setting + " about " + theme;
      assert body[|body| - |" about " + theme|..] == " about " + theme;
    } else {
      assert lead + setting + " " + "" == lead + setting + " ";
      assert " about " + theme == " about ";
      NoAboutAfterSetting(lead, setting);
    }
  }

  /** The prompt closes with an "about <theme>" clause exactly when the
      theme is non-empty. */
  lemma PromptAboutClause(length: string, style: string, setting: string, theme: string)
    requires setting in Settings
    ensures EndsWith(BuildPrompt(length, style, setting, theme), " about " + theme + PromptTail) <==> theme != ""
  {
    var lead := "Generate a " + length + " " + style + " story set in a ";
    var about := if theme != "" then "about " + theme else "";
    var body := lead + setting + " " + about;
    assert BuildPrompt(length, style, setting, theme) == body + PromptTail;
    EndsWithCancel(body, " about " + theme, PromptTail);
    AboutClauseEnding(lead, setting, theme);
  }

  /** The prompt the service receives for these options and this pick. */
  function Prompt(options: StoryOptions, pick: nat): (prompt: string)
    requires pick < |Settings|
    ensures Includes(prompt, LengthOf(options)) && Includes(prompt, StyleOf(options))
    ensures Includes(prompt, SettingFor(options, pick))
    ensures ThemeOf(options) != "" ==> Includes(prompt, "about " + ThemeOf(options))
  {
    BuildPrompt(LengthOf(options), StyleOf(options), SettingFor(options, pick), ThemeOf(options))
  }

  /** The setting resolved from the options' theme and the pick. */
  function SettingFor(options: StoryOptions, pick: nat): (setting: string)
    requires pick < |Settings|
    ensures setting in Settings
    ensures NoKeyword(ThemeOf(options)) ==> setting == Settings[pick]
    ensures options.theme.None? ==> setting == Settings[pick]
  {
    ResolveSetting(ThemeOf(options), pick)
  }

  // ---------------------------------------------------------------------
  // Service reply
  // ---------------------------------------------------------------------

  /** The story text the primary path keeps from a reply, or None where it
      throws: a thrown call, a status that is not ok, or a text that is
      missing or blank once trimmed. */
  function StoryText(reply: ServiceReply): (t: Option<string>)
    ensures t.Some? <==> reply.Replied? && reply.ok && reply.text.Some? && !AllWhitespace(reply.text.value)
    ensures t.Some? ==> t.value != "" && !IsWhitespace(t.value[0]) && !IsWhitespace(t.value[|t.value| - 1])
    ensures t.Some? ==> exists a :: TrimmedAt(reply.text.value, t.value, a)
  {
    match reply
    case Thrown => None
    case Replied(ok, text) =>
      if !ok then None
      else
        var s := if text.Some? then Trim(text.value) else "";
        if s == "" then None else Some(s)
  }

  // ---------------------------------------------------------------------
  // Fallback corpus
  // ---------------------------------------------------------------------

  const ForestStory :=
    "In a forest where sunlight filtered through ancient trees, "
    + "a young girl discovered a tiny door hidden among the roots. "
    + "Behind it was a world of miniature forest spirits who had "
    + "been waiting for someone brave enough to find them. They "
    + "taught her the language of trees and the secrets of the "
    + "woodland creatures. When she returned home, she found she "
    + "could still hear the whispers of the forest, carrying "
    + "messages from her tiny friends."

  const OceanStory :=
    "The old fisherman told tales of a melody that could be "
    + "heard only during the full moon, when the tide was at its "
    + "highest. One night, a curious child sat at the shore and "
    + "waited. As moonlight painted the waves silver, a haunting "
    + "song rose from the depths. The ocean parted to reveal a "
    + "path of glowing shells, leading to an underwater city where "
    + "people with scales instead of skin welcomed the child as a "
    + "long-awaited guest."

  const MountainStory :=
    "High in the misty mountains lived a cloud-weaver who spun "
    + "dreams into reality. Travelers who reached her cottage "
    + "could trade a memory for a wish. A young boy climbed for "
    + "days, carrying only his favorite book and determination. "
    + "When he reached the cloud-weaver, she asked for his most "
    + "precious memory. Instead, he offered her his book of "
    + "stories. Delighted by this gift, she taught him how to "
    + "weave clouds into whatever shapes his imagination could "
    + "conjure."

  const CastleStory :=
    "In a castle forgotten by time, portraits whispered to each "
    + "other when no one was looking. A new caretaker arrived, a "
    + "woman who could hear their conversations. The portraits, "
    + "surprised to be discovered, shared the castle's "
    + "secrets—hidden passages, buried treasures, and the truth "
    + "about the royal family who once lived there. As she "
    + "restored each painting, she restored their stories to the "
    + "world, bringing the castle back to life one brushstroke at "
    + "a time."

  const DefaultStory :=
    "Once upon a time, in a land where magic flowed like water "
    + "and dreams took flight on the wings of paper birds, there "
    + "lived a storyteller whose words could change the weather. "
    + "People traveled from distant lands to hear tales that would "
    + "bring rain to drought-stricken fields or sunshine to gloomy "
    + "hearts. But the storyteller's greatest secret was that the "
    + "magic wasn't in the words—it was in the listeners, who "
    + "carried the stories home like seeds that would bloom into "
    + "wonders."

  /** The fixed paragraph for a setting; any other setting gets the
      generic one. */
  function FallbackText(setting: string): (story: string)
    ensures story != ""
    ensures story == DefaultStory <==> setting !in Settings
  {
    match setting
    case "forest" => ForestStory
    case "ocean" => OceanStory
    case "mountain" => MountainStory
    case "castle" => CastleStory
    case _ => DefaultStory
  }

  /** The lengths of the four setting paragraphs, in catalog order. */
  const StoryLengths := [433, 422, 456, 455]

  lemma ForestStoryLength(s: string)
    requires s == "forest"
    ensures |FallbackText(s)| == StoryLengths[0]
  {
  }

  lemma OceanStoryLength(s: string)
    requires s == "ocean"
    ensures |FallbackText(s)| == StoryLengths[1]
  {
  }

  lemma MountainStoryLength(s: string)
    requires s == "mountain"
    ensures |FallbackText(s)| == StoryLengths[2]
  {
  }

  lemma CastleStoryLength(s: string)
    requires s == "castle"
    ensures |FallbackText(s)| == StoryLengths[3]
  {
  }

  /** The length of each catalog setting's paragraph. */
  lemma FallbackTextAt(i: nat)
    requires i < |Settings|
    ensures |FallbackText(Settings[i])| == StoryLengths[i]
  {
    var s := Settings[i];
    if i == 0 {
      ForestStoryLength(s);
    } else if i == 1 {
      OceanStoryLength(s);
    } else if i == 2 {
      MountainStoryLength(s);
    } else {
      CastleStoryLength(s);
    }
  }

  /** The four paragraphs are distinct, so a fallback story tells which
      setting it was told for. */
  lemma FallbackTextInjective(i: nat, j: nat)
    requires i < |Settings| && j < |Settings| && i != j
    ensures FallbackText(Settings[i]) != FallbackText(Settings[j])
  {
    FallbackTextAt(i);
    FallbackTextAt(j);
    assert StoryLengths[i] != StoryLengths[j];
  }

  /** The fallback: a randomly picked setting of `settings` and its fixed
      paragraph; the options play no part. */
  function GenerateFallbackStory(options: StoryOptions, settings: seq<string>, pick: nat): (r: StoryResponse)
    requires pick < |settings|
    ensures r.setting in settings
    ensures r.story == FallbackText(r.setting) && r.story != ""
    ensures r.story == DefaultStory <==> r.setting !in Settings
  {
    var setting := settings[pick];
    StoryResponse(FallbackText(setting), setting)
  }

  // ---------------------------------------------------------------------
  // The provider
  // ---------------------------------------------------------------------

  /** The primary path yields a story: a key is configured and the reply
      to the prompt carries a non-blank text with an ok status. */
  predicate PrimarySucceeds(options: StoryOptions, hasKey: bool, service: string -> ServiceReply, pick: nat)
    requires pick < |Settings|
    ensures PrimarySucceeds(options, hasKey, service, pick) <==>
      var reply := service(Prompt(options, pick));
      hasKey && reply.Replied? && reply.ok && reply.text.Some? && !AllWhitespace(reply.text.value)
  {
    hasKey && StoryText(service(Prompt(options, pick))).Some?
  }

  /** `fetchStoryFromMCP`: never fails; whatever happens, its setting is in
      the catalog and its story is non-empty. */
  function FetchStory(options: StoryOptions, hasKey: bool, service: string -> ServiceReply, pick: nat, fallbackPick: nat): (r: StoryResponse)
    requires pick < |Settings| && fallbackPick < |Settings|
    ensures r.setting in Settings && r.setting != "default"
    ensures r.story != ""
  {
    if !hasKey then
      GenerateFallbackStory(options, Settings, fallbackPick)
    else
      var setting := SettingFor(options, pick);
      match StoryText(service(Prompt(options, pick)))
      case Some(story) => StoryResponse(story, setting)
      case None => GenerateFallbackStory(NoOptions, ["forest", "ocean", "mountain", "castle"], fallbackPick)
  }

  /** Where the result comes from: the service's trimmed text with the
      resolved setting when the primary path succeeds, the fallback for
      the second random pick otherwise. */
  lemma FetchStoryDecision(options: StoryOptions, hasKey: bool, service: string -> ServiceReply, pick: nat, fallbackPick: nat)
    requires pick < |Settings| && fallbackPick < |Settings|
    ensures var r := FetchStory(options, hasKey, service, pick, fallbackPick);
      PrimarySucceeds(options, hasKey, service, pick) ==>
        var reply := service(Prompt(options, pick));
        && r.setting == ResolveSetting(ThemeOf(options), pick)
        && r.story == StoryText(reply).value
        && exists a :: TrimmedAt(reply.text.value, r.story, a)
    ensures var r := FetchStory(options, hasKey, service, pick, fallbackPick);
      !PrimarySucceeds(options, hasKey, service, pick) ==>
        && r.setting == Settings[fallbackPick]
        && r.story == FallbackText(Settings[fallbackPick])
        && r.story != DefaultStory
  {
  }

  /** Once the primary path fails, the caller's theme, length and style,
      the service and the first pick have no effect: the result is the one
      a call without key and without options gives. */
  lemma FallbackDiscardsPreferences(options: StoryOptions, hasKey: bool, service: string -> ServiceReply, pick: nat,
                                    other: string -> ServiceReply, otherPick: nat, fallbackPick: nat)
    requires pick < |Settings| && otherPick < |Settings| && fallbackPick < |Settings|
    requires !PrimarySucceeds(options, hasKey, service, pick)
    ensures FetchStory(options, hasKey, service, pick, fallbackPick) == FetchStory(NoOptions, false, other, otherPick, fallbackPick)
  {
  }

  /** A reply that fails in any of the ways `fetchStoryFromMCP` checks leads to the
      fallback. */
  lemma FailedReplyFallsBack(options: StoryOptions, service: string -> ServiceReply, pick: nat, fallbackPick: nat)
    requires pick < |Settings| && fallbackPick < |Settings|
    requires var reply := service(Prompt(options, pick));
      reply.Thrown? || !reply.ok || reply.text.None? || AllWhitespace(reply.text.value)
    ensures FetchStory(options, true, service, pick, fallbackPick) == GenerateFallbackStory(NoOptions, Settings, fallbackPick)
  {
  }

  /** The bare theme "mountain" contains none of the earlier keywords. */
  lemma MountainLacksEarlierKeywords(theme: string)
    requires theme == "mountain"
    ensures !Includes(theme, "forest") && !Includes(theme, "ocean") && !Includes(theme, "sea")
  {
    MissingCharExcludes(theme, "forest", 'f');
    MissingCharExcludes(theme, "ocean", 'c');
    MissingCharExcludes(theme, "sea", 's');
  }

  /** The bare theme "mountain" selects its own setting. */
  lemma MountainThemeSetting(theme: string, pick: nat)
    requires theme == "mountain" && pick < |Settings|
    ensures ResolveSetting(theme, pick) == "mountain"
  {
    MountainLacksEarlierKeywords(theme);
    IncludesItself(theme);
  }

  /** A theme of "mountain" with a working service: the setting is
      "mountain" and the prompt the service receives mentions it. */
  lemma MountainThemeExample(options: StoryOptions, service: string -> ServiceReply, pick: nat, fallbackPick: nat)
    requires options == StoryOptions(Some("mountain"), None, None)
    requires pick < |Settings| && fallbackPick < |Settings|
    requires PrimarySucceeds(options, true, service, pick)
    ensures FetchStory(options, true, service, pick, fallbackPick).setting == "mountain"
    ensures Includes(Prompt(options, pick), "mountain")
  {
    MountainThemeSetting(ThemeOf(options), pick);
    FetchStoryDecision(options, true, service, pick, fallbackPick);
  }
}
