/**
 * The launcher's service entries: the record every part of the application
 * shares (the bar, the settings editor, the saved configuration) and the
 * built-in list the application starts with.
 */
module Services {
  import opened Wrappers

  /** `quickWindowSize`: the size of a quick or chat window, in pixels. */
  datatype Size = Size(width: int, height: int)

  /**
   * One service. `visible` is `None` when the saved entry has no `visible`
   * field; `quickWindowSize` is `None` when it has no size. The window mode is
   * kept as the text the configuration holds (`quick`, `full`, `llm-chat`).
   */
  datatype Service = Service(
    id: string, name: string, url: string, icon: string, color: string,
    windowMode: string, quickWindowSize: Option<Size>, visible: Option<bool>)

  /** The bar shows a service when its `visible` field is truthy (main.js filters on `s.visible`). */
  predicate ShownOnBar(s: Service) {
    s.visible == Some(true)
  }

  /** The settings list counts a service as visible unless its flag is literally `false`. */
  predicate ListedVisible(s: Service) {
    s.visible != Some(false)
  }

  /** `services.filter(s => s.visible).length`. */
  function VisibleCount(services: seq<Service>): (n: nat)
    ensures n <= |services|
    ensures n == 0 <==> forall i :: 0 <= i < |services| ==> !ShownOnBar(services[i])
  {
    if services == [] then 0
    else VisibleCount(services[..|services| - 1]) + (if ShownOnBar(services[|services| - 1]) then 1 else 0)
  }

  /** The shown services of two lists together are those of each, counted once. */
  lemma {:induction false} VisibleCountAppend(a: seq<Service>, b: seq<Service>)
    ensures VisibleCount(a + b) == VisibleCount(a) + VisibleCount(b)
    decreases |b|
  {
    if b != [] {
      assert (a + b)[..|a + b| - 1] == a + b[..|b| - 1];
      VisibleCountAppend(a, b[..|b| - 1]);
    } else {
      assert a + b == a;
    }
  }

  /** A single service counts once exactly when the bar shows it. */
  lemma VisibleCountSingle(s: Service)
    ensures VisibleCount([s]) == (if ShownOnBar(s) then 1 else 0)
  {
    assert [s][..0] == [];
  }

  function Entry(id: string, name: string, url: string, icon: string, color: string,
                 mode: string, w: int, h: int, visible: bool): Service
  {
    Service(id, name, url, icon, color, mode, Some(Size(w, h)), Some(visible))
  }

  /** The services of the default configuration, in order. */
  const DefaultServices: seq<Service> := [
    Entry("chatgpt", "ChatGPT", "https://chat.openai.com", "🤖", "#10A37F", "quick", 500, 700, true),
    Entry("x-twitter", "X", "https://x.com", "𝕏", "#1DA1F2", "quick", 500, 700, true),
    Entry("notion", "Notion", "https://www.notion.so", "📝", "#E16259", "full", 500, 700, true),
    Entry("youtube", "YouTube", "https://www.youtube.com", "▶️", "#FF0000", "full", 500, 700, true),
    Entry("github", "GitHub", "https://github.com", "🐙", "#6e40c9", "full", 500, 700, true),
    Entry("google-gemini", "Gemini", "https://gemini.google.com", "✨", "#4285F4", "quick", 500, 700, false),
    Entry("claude", "Claude", "https://claude.ai", "🧠", "#D97757", "quick", 500, 700, false),
    Entry("slack", "Slack", "https://app.slack.com", "💬", "#4A154B", "full", 500, 700, false),
    Entry("discord", "Discord", "https://discord.com/app", "🎮", "#5865F2", "full", 500, 700, false),
    Entry("gmail", "Gmail", "https://mail.google.com", "📧", "#EA4335", "full", 500, 700, false),
    Entry("google-drive", "Google Drive", "https://drive.google.com", "📁", "#0F9D58", "full", 500, 700, false),
    Entry("spotify", "Spotify", "https://open.spotify.com", "🎵", "#1DB954", "quick", 400, 600, false),
    Entry("reddit", "Reddit", "https://www.reddit.com", "🔴", "#FF4500", "full", 500, 700, false),
    Entry("figma", "Figma", "https://www.figma.com", "🎨", "#F24E1E", "full", 500, 700, false),
    Entry("google-calendar", "Googleカレンダー", "https://calendar.google.com", "📅", "#4285F4", "quick", 450, 650, false),
    Entry("perplexity", "Perplexity", "https://www.perplexity.ai", "🔍", "#20808D", "quick", 500, 700, false),
    Entry("local-llm", "Local LLM", "", "🍋", "#7c5cff", "llm-chat", 550, 750, true)
  ]
}
