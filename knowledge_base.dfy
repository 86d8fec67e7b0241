/** The assistant's read-only knowledge base (`createAITipsDatabase`) and the
    choice of the configuration that applies to the current page. */
module KnowledgeBase {
  import opened Navigation

  /** A topic's greeting, its tips in display order, and its rules: trigger
      keys with their answers, in declaration order. */
  datatype TopicConfig = TopicConfig(greeting: string, tips: seq<string>, rules: seq<(string, string)>)

  const DivAnswer := "A `<div>` is a generic container for flow content."
  const ExampleAnswer := "Here's a simple layout template:\n```html\n<header>\n  <h1>My Website</h1>\n</header>\n```"
  const PythonAnswer := "Python is a high-level programming language."

  const HtmlConfig := TopicConfig(
    "Welcome to the HTML tutorial! I can help you with tags, attributes, and page structure.",
    [ "**Tip:** Every HTML page needs a `<!DOCTYPE html>` declaration and `<html>`, `<head>`, and `<body>` tags.",
      "Want to see a basic HTML layout? Ask for an 'example'." ],
    [ ("div", DivAnswer), ("example", ExampleAnswer) ])

  const DefaultConfig := TopicConfig(
    "Hello! I'm your Code Assistant. How can I help you today?",
    [ "You can ask me for definitions, code examples, or best practices." ],
    [ ("python", PythonAnswer) ])

  const Database: map<string, TopicConfig> := map["html" := HtmlConfig, "default" := DefaultConfig]

  /** The key the assistant looks its configuration up by. */
  function TopicId(page: Page): (id: string)
    ensures page.Tutorial? ==> id == page.id
    ensures !page.Tutorial? ==> id == "default"
  {
    if page.Tutorial? then page.id else "default"
  }

  /** `AI_TIPS_DATABASE[tutorialId] || AI_TIPS_DATABASE['default']`. */
  function ResolveConfig(id: string): (c: TopicConfig)
    ensures id in Database ==> c == Database[id]
    ensures id !in Database ==> c == DefaultConfig
    ensures c == HtmlConfig || c == DefaultConfig
  {
    if id in Database then Database[id] else Database["default"]
  }

  /** Only the HTML tutorial has a configuration of its own; every other page,
      tutorial or not, gets the default one. */
  lemma ConfigForPage(page: Page)
    ensures ResolveConfig(TopicId(page)) == if page == Tutorial("html") then HtmlConfig else DefaultConfig
  {
    assert "html" != "default";
    assert HtmlConfig != DefaultConfig by { assert HtmlConfig.rules[0].0 != DefaultConfig.rules[0].0; }
  }

  /** A tutorial the knowledge base does not list falls back to the default. */
  lemma UnlistedTopicFallsBack()
    ensures ResolveConfig(TopicId(Tutorial("css"))) == DefaultConfig
  {
    assert "css" != "html" && "css" != "default";
  }
}
