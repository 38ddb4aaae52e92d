/** The widget's appearance configuration (app.js:1-53): a record of named
    settings with built-in defaults, and the merge `{ ...defaultConfig,
    ...config }` that `applyConfigToUI` reads every setting from. */
module Config {

  /** A setting's value: every default is a string except `font_size`. */
  datatype Value = Text(s: string) | Number(n: int)

  type Settings = map<string, Value>

  /** `defaultConfig` (app.js:1-21). */
  const DefaultConfig: Settings := map[
    "background_color" := Text("#0f172a"),
    "surface_color" := Text("#1e293b"),
    "text_color" := Text("#f1f5f9"),
    "primary_action_color" := Text("#3b82f6"),
    "secondary_action_color" := Text("#1e293b"),
    "font_family" := Text("Inter"),
    "font_size" := Number(14),
    "landing_title" := Text("Creator's Intelligence"),
    "landing_tagline" := Text("Your AI Partner for YouTube Content Creation"),
    "landing_description" := Text("Generate engaging YouTube titles, descriptions, hashtags, and full scripts in seconds. Tailored for your audience, powered by creative AI."),
    "get_started_text" := Text("Get Started"),
    "input_header" := Text("Describe your YouTube video"),
    "input_subtitle" := Text("The more context you share, the smarter the titles, descriptions, and scripts become."),
    "output_header" := Text("Your AI-Generated Content"),
    "history_header" := Text("Saved Content History"),
    "about_header" := Text("About This Project"),
    "about_body" := Text("This prototype simulates an AI assistant built for YouTube creators. It walks through the full flow: from entering a video idea, to seeing generated titles, descriptions, hashtags, thumbnail ideas, and a script outline \U{2014} all in one place."),
    "settings_header" := Text("Settings & Personalization"),
    "footer_text" := Text("AI-powered content generation for modern creators")
  ]

  /** The settings `applyConfigToUI` writes into the page (app.js:32-52). */
  const UiKeys: set<string> := {
    "landing_title", "landing_tagline", "landing_description", "get_started_text",
    "input_header", "input_subtitle", "output_header", "history_header",
    "about_header", "about_body", "settings_header", "font_family",
    "primary_action_color", "background_color", "text_color"
  }

  /** `{ ...defaultConfig, ...config }`: every key of either side is present, a
      key the caller's config sets takes the caller's value, and every other
      key keeps its default. */
  function Merge(config: Settings): (merged: Settings)
    ensures merged.Keys == DefaultConfig.Keys + config.Keys
    ensures forall k :: k in config ==> merged[k] == config[k]
    ensures forall k :: k in DefaultConfig && k !in config ==> merged[k] == DefaultConfig[k]
  {
    DefaultConfig + config
  }

  /** Every setting the page reads is defined after the merge, whatever the
      caller's config holds, and an empty config yields the defaults. */
  lemma MergeDefinesUiSettings(config: Settings)
    ensures UiKeys <= Merge(config).Keys
    ensures Merge(map[]) == DefaultConfig
  {
    assert UiKeys <= DefaultConfig.Keys;
  }
}
