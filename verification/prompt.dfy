/** The analysis step: the prompt built from the week's archived newsletters
    and the video list, and the shape of the result returned to the run. The
    generative call itself is a parameter (`generate`). */
module Prompt {
  import opened Wrappers
  import opened Records
  import opened Seqs
  import opened Decimal

  /** At most this many newsletters are rendered into the prompt. */
  const MaxNewsletters: nat := 30

  /** Each snippet is cut to at most this many characters. */
  const SnippetLimit: nat := 300

  /** The ellipsis written after every snippet, cut or not. */
  const Ellipsis: string := "..."

  /** The fixed text before the newsletter section. */
  const PromptOpening: string :=
    "Du är en AI-expert som skapar engagerande veckosammanfattningar om AI för arbetskollegor.\n"
    + "\n"
    + "Din uppgift är att analysera dessa newsletters och YouTube-videos och skapa en veckosammanfattning i Markdown-format som ska postas på Teams.\n"
    + "\n"
    + "# NEWSLETTERS FRÅN VECKAN\n"

  /** The fixed text between the newsletter section and the video section. */
  const PromptMiddle: string :=
    "\n"
    + "\n"
    + "# TILLGÄNGLIGA YOUTUBE-VIDEOS\n"

  /** The fixed text after the video section: the requested structure and the style directives. */
  const PromptClosing: string :=
    "\n"
    + "\n"
    + "# SKAPA FÖLJANDE SAMMANFATTNING I MARKDOWN\n"
    + "\n"
    + "Skapa ett Teams-inlägg med denna struktur:\n"
    + "\n"
    + "---\n"
    + "# 🤖 AI-veckans sammanfattning\n"
    + "\n"
    + "## ⚡ Veckans highlights\n"
    + "[De 3 mest intressanta sakerna som hänt denna vecka - kort och kärnfullt]\n"
    + "\n"
    + "## 📰 Top 3 Nyhetsbrev\n"
    + "[Välj de 3 mest intressanta/relevanta newslettersna. För varje:]\n"
    + "**[Titel]** - [2-3 meningar sammanfattning]\n"
    + "🔗 [Länk till Drive]\n"
    + "\n"
    + "## 🎥 Top 3 YouTube-klipp\n"
    + "[Välj 3 videos från listan som passar bäst till veckans tema. För varje:]\n"
    + "**[Titel]** - [1-2 meningar varför den är intressant]\n"
    + "🔗 [URL]\n"
    + "\n"
    + "## 😄 Lättsamt & Underhållande\n"
    + "[Välj 1-2 newsletters eller videos som är mer underhållande/lättare]\n"
    + "🔗 [Länkar]\n"
    + "\n"
    + "## 💡 AI-tips i veckan\n"
    + "[Ett konkret tips som kollegor kan testa direkt denna vecka - koppla till något från newslettersna]\n"
    + "\n"
    + "## 🎯 Så kan VI använda detta\n"
    + "[2-3 konkreta exempel på hur er organisation/team kan använda något från veckans nyheter]\n"
    + "\n"
    + "## 🏆 AI-utmaning för veckan (valfritt)\n"
    + "[En liten utmaning/uppgift för nyfikna kollegor att testa]\n"
    + "\n"
    + "---\n"
    + "\n"
    + "**Viktiga riktlinjer:**\n"
    + "- Skriv på svenska\n"
    + "- Använd emojis sparsamt men strategiskt\n"
    + "- Håll det kortfattat och engagerande\n"
    + "- **TON: Avslappnad, entusiastisk och lättläst - som en kollega som tipsar över en kopp kaffe**\n"
    + "- **Undvik corporate-speak och formella formuleringar**\n"
    + "- **Skriv som att du pratar med en vän, inte en konferens**\n"
    + "- Fokusera på praktisk nytta\n"
    + "- Länka alltid till originalinnehåll\n"
    + "- Gör det lätt att scanna (tydliga rubriker)\n"
    + "- Total längd: max 2 skärmlängder på mobil\n"
    + "\n"
    + "Skapa sammanfattningen nu:"

  /** The fixed parts of the prompt, around the two rendered sections. */
  datatype Template = Template(opening: string, middle: string, closing: string)

  /** The template of the analysis prompt. */
  const AnalysisTemplate: Template := Template(PromptOpening, PromptMiddle, PromptClosing)

  /** The headings the two rendered sections are inserted under. */
  const NewslettersHeading: string := "# NEWSLETTERS FRÅN VECKAN\n"
  const VideosHeading: string := "# TILLGÄNGLIGA YOUTUBE-VIDEOS\n"

  /** In the analysis prompt the newsletter section comes right after the
      newsletters heading, which ends the opening text, and the video
      section right after the videos heading, which ends the middle text. */
  lemma AnalysisTemplateHeadings()
    ensures var o := AnalysisTemplate.opening;
            && |o| >= |NewslettersHeading|
            && o[|o| - |NewslettersHeading|..] == NewslettersHeading
    ensures AnalysisTemplate.middle == "\n\n" + VideosHeading
  {
  }

  /** The lines of one newsletter block; the block for the `i`-th newsletter
      (numbered from 1) is the five of them in this order. */
  function HeadingLine(i: nat): string {
    "\n## Newsletter " + NatToString(i) + "\n"
  }

  function SenderLine(nl: SavedNewsletter): string {
    "**Från:** " + nl.newsletter.sender + "\n"
  }

  function SubjectLine(nl: SavedNewsletter): string {
    "**Ämne:** " + nl.newsletter.subject + "\n"
  }

  function LinkLine(nl: SavedNewsletter): string {
    "**Drive-länk:** " + nl.driveUrl + "\n"
  }

  /** At most the first 300 characters of the snippet, then the ellipsis. */
  function SnippetLine(nl: SavedNewsletter): string {
    "**Innehåll (kort):** " + Take(nl.newsletter.snippet, SnippetLimit) + Ellipsis + "\n"
  }

  function NewsletterBlock(i: nat, nl: SavedNewsletter): string {
    HeadingLine(i) + SenderLine(nl) + SubjectLine(nl) + LinkLine(nl) + SnippetLine(nl)
  }

  /** The lines of one video block, every field verbatim; the block for the
      `i`-th video (numbered from 1) is the five of them in this order. */
  function TitleLine(i: nat, v: Video): string {
    "\n" + NatToString(i) + ". **" + v.title + "**\n"
  }

  function UrlLine(v: Video): string {
    "   - URL: " + v.url + "\n"
  }

  function CategoryLine(v: Video): string {
    "   - Kategori: " + v.category + "\n"
  }

  function KindLine(v: Video): string {
    "   - Typ: " + v.kind + "\n"
  }

  function DescriptionLine(v: Video): string {
    "   - Beskrivning: " + v.description + "\n"
  }

  function VideoBlock(i: nat, v: Video): string {
    TitleLine(i, v) + UrlLine(v) + CategoryLine(v) + KindLine(v) + DescriptionLine(v)
  }

  /** What a loop over `enumerate(items, 1)` that appends `render(i, item)`
      to an initially empty string leaves behind. */
  function Numbered<T>(items: seq<T>, render: (nat, T) -> string): string {
    if items == [] then ""
    else Numbered(items[..|items| - 1], render) + render(|items|, items[|items| - 1])
  }

  /** The rendered blocks one by one, the `k`-th item numbered `k + 1`. */
  function Blocks<T>(items: seq<T>, render: (nat, T) -> string): (bs: seq<string>)
    ensures |bs| == |items|
  {
    seq(|items|, k requires 0 <= k < |items| => render(k + 1, items[k]))
  }

  /** The newsletters that are rendered: the first `MaxNewsletters`, in order. */
  function Shown(newsletters: seq<SavedNewsletter>): seq<SavedNewsletter> {
    Take(newsletters, MaxNewsletters)
  }

  /** A prompt from template `t`: its fixed parts with the two sections inserted. */
  function PromptFrom(t: Template, newsletters: seq<SavedNewsletter>, videos: seq<Video>): string {
    t.opening + Numbered(Shown(newsletters), NewsletterBlock)
    + t.middle + Numbered(videos, VideoBlock) + t.closing
  }

  /** The analysis prompt: the source's template filled in. */
  function AnalysisPrompt(newsletters: seq<SavedNewsletter>, videos: seq<Video>): string {
    PromptFrom(AnalysisTemplate, newsletters, videos)
  }

  /** A numbered section is its blocks, first to last, with nothing between
      them: item `k` appears as its own block, numbered `k + 1`. */
  lemma {:induction false} NumberedIsBlocks<T>(items: seq<T>, render: (nat, T) -> string)
    ensures Numbered(items, render) == Flatten(Blocks(items, render))
  {
    if items != [] {
      var init := items[..|items| - 1];
      NumberedIsBlocks(init, render);
      assert Blocks(items, render) == Blocks(init, render) + [render(|items|, items[|items| - 1])];
      FlattenSnoc(Blocks(init, render), render(|items|, items[|items| - 1]));
    }
  }

  /** The layout of the prompt: the template's opening, one block per
      rendered newsletter (the first min(30, n), in their original order,
      numbered from 1), the template's middle, one block per video (all of
      them, numbered from 1), and the template's closing. Empty inputs give
      empty sections. */
  lemma PromptLayout(t: Template, newsletters: seq<SavedNewsletter>, videos: seq<Video>)
    ensures |Shown(newsletters)| == if |newsletters| <= MaxNewsletters then |newsletters| else MaxNewsletters
    ensures Shown(newsletters) == newsletters[..|Shown(newsletters)|]
    ensures PromptFrom(t, newsletters, videos)
         == t.opening + Flatten(Blocks(Shown(newsletters), NewsletterBlock))
          + t.middle + Flatten(Blocks(videos, VideoBlock)) + t.closing
    ensures Blocks(Shown(newsletters), NewsletterBlock) == [] <==> newsletters == []
    ensures Blocks(videos, VideoBlock) == [] <==> videos == []
    ensures Numbered(Shown(newsletters), NewsletterBlock) == [] <==> newsletters == []
    ensures Numbered(videos, VideoBlock) == [] <==> videos == []
  {
    NumberedIsBlocks(Shown(newsletters), NewsletterBlock);
    NumberedIsBlocks(videos, VideoBlock);
  }

  /** With no newsletters and no videos both sections are empty and the
      prompt is the template's fixed text alone. */
  lemma EmptyInputsPrompt(t: Template)
    ensures PromptFrom(t, [], []) == t.opening + t.middle + t.closing
  {
  }

  /** A newsletter block ends with at most 300 characters of the snippet, a
      prefix of it, followed by the ellipsis, which is written even when the
      snippet was not cut. */
  lemma NewsletterBlockSnippet(i: nat, nl: SavedNewsletter)
    ensures var shown := Take(nl.newsletter.snippet, SnippetLimit);
            var b := NewsletterBlock(i, nl);
            && |shown| <= SnippetLimit
            && shown == nl.newsletter.snippet[..|shown|]
            && (|nl.newsletter.snippet| <= SnippetLimit ==> shown == nl.newsletter.snippet)
            && |b| >= |shown| + 4
            && b[|b| - |shown| - 4..] == shown + "...\n"
  {
  }

  /** Nothing of a snippet past its 300th character reaches the prompt. */
  lemma SnippetTailIgnored(i: nat, nl: SavedNewsletter, tail: string)
    requires |nl.newsletter.snippet| >= SnippetLimit
    ensures NewsletterBlock(i, nl)
         == NewsletterBlock(i, nl.(newsletter := nl.newsletter.(snippet := nl.newsletter.snippet + tail)))
  {
    var s := nl.newsletter.snippet;
    assert (s + tail)[..SnippetLimit] == s[..SnippetLimit];
  }

  /** Newsletters after the 30th do not reach the prompt. */
  lemma NewslettersAfterThirtyIgnored(t: Template, newsletters: seq<SavedNewsletter>, extra: seq<SavedNewsletter>, videos: seq<Video>)
    requires |newsletters| >= MaxNewsletters
    ensures PromptFrom(t, newsletters + extra, videos) == PromptFrom(t, newsletters, videos)
  {
    assert (newsletters + extra)[..MaxNewsletters] == newsletters[..MaxNewsletters];
  }

  /** Appending five pieces one after another appends their concatenation. */
  lemma AppendFive(s: string, a: string, b: string, c: string, d: string, e: string)
    ensures s + a + b + c + d + e == s + (a + b + c + d + e)
  {
  }

  /** The newsletter loop: five appends per newsletter shown. */
  method RenderNewsletters(shown: seq<SavedNewsletter>) returns (newslettersSummary: string)
    ensures newslettersSummary == Numbered(shown, NewsletterBlock)
  {
    newslettersSummary := "";
    for i := 0 to |shown|
      invariant newslettersSummary == Numbered(shown[..i], NewsletterBlock)
    {
      var nl := shown[i];
      ghost var before := newslettersSummary;
      newslettersSummary := newslettersSummary + HeadingLine(i + 1);
      newslettersSummary := newslettersSummary + SenderLine(nl);
      newslettersSummary := newslettersSummary + SubjectLine(nl);
      newslettersSummary := newslettersSummary + LinkLine(nl);
      newslettersSummary := newslettersSummary + SnippetLine(nl);
      AppendFive(before, HeadingLine(i + 1), SenderLine(nl), SubjectLine(nl), LinkLine(nl), SnippetLine(nl));
      assert shown[..i + 1][..i] == shown[..i];
      assert Numbered(shown[..i + 1], NewsletterBlock) == before + NewsletterBlock(i + 1, nl);
    }
    assert shown[..|shown|] == shown;
  }

  /** The video loop: five appends per video, no cap on their number. */
  method RenderVideos(videos: seq<Video>) returns (youtubeSummary: string)
    ensures youtubeSummary == Numbered(videos, VideoBlock)
  {
    youtubeSummary := "";
    for i := 0 to |videos|
      invariant youtubeSummary == Numbered(videos[..i], VideoBlock)
    {
      var video := videos[i];
      ghost var before := youtubeSummary;
      youtubeSummary := youtubeSummary + TitleLine(i + 1, video);
      youtubeSummary := youtubeSummary + UrlLine(video);
      youtubeSummary := youtubeSummary + CategoryLine(video);
      youtubeSummary := youtubeSummary + KindLine(video);
      youtubeSummary := youtubeSummary + DescriptionLine(video);
      AppendFive(before, TitleLine(i + 1, video), UrlLine(video), CategoryLine(video), KindLine(video), DescriptionLine(video));
      assert videos[..i + 1][..i] == videos[..i];
      assert Numbered(videos[..i + 1], VideoBlock) == before + VideoBlock(i + 1, video);
    }
    assert videos[..|videos|] == videos;
  }

  /** Builds the prompt the way the source does: the first 30 newsletters
      and every video rendered by the two loops, then the template. */
  method BuildAnalysisPrompt(newsletters: seq<SavedNewsletter>, videos: seq<Video>) returns (prompt: string)
    ensures prompt == AnalysisPrompt(newsletters, videos)
  {
    var newslettersSummary := RenderNewsletters(Take(newsletters, MaxNewsletters));
    var youtubeSummary := RenderVideos(videos);
    var t := AnalysisTemplate;
    prompt := t.opening + newslettersSummary + t.middle + youtubeSummary + t.closing;
  }

  /** What the analysis step hands back to the run. */
  datatype Analysis = Analysis(markdown: string, youtubePicks: seq<Video>)

  /** The pick extraction is a placeholder: it never finds anything. */
  function ExtractYoutubePicks(markdown: string): (picks: seq<Video>)
    ensures picks == []
  {
    []
  }

  /** The outcome of `analyze_week`: one generative call on the analysis
      prompt. A failing call propagates; otherwise its text is the markdown,
      unchanged, and the picks are empty. */
  function WeekAnalysis(newsletters: seq<SavedNewsletter>, videos: seq<Video>, generate: string -> Outcome<string>)
    : (r: Outcome<Analysis>)
    ensures var response := generate(AnalysisPrompt(newsletters, videos));
            && (r.Raised? <==> response.Raised?)
            && (r.Ok? ==> r.value.markdown == response.value && r.value.youtubePicks == [])
  {
    match generate(AnalysisPrompt(newsletters, videos))
    case Raised => Raised
    case Ok(text) => Ok(Analysis(text, ExtractYoutubePicks(text)))
  }

  /** `analyze_week`: build the prompt, make the call, extract the picks.
      The prompt is taken from `AnalysisPrompt`, which `BuildAnalysisPrompt`
      is proved to compute: calling the loop builder here would put the
      long template text into every proof obligation of this method. */
  method AnalyzeWeek(newsletters: seq<SavedNewsletter>, videos: seq<Video>, generate: string -> Outcome<string>)
    returns (r: Outcome<Analysis>)
    ensures r == WeekAnalysis(newsletters, videos, generate)
  {
    var prompt := AnalysisPrompt(newsletters, videos);
    var response := generate(prompt);
    if response.Raised? {
      return Raised;
    }
    var markdownContent := response.value;
    var youtubePicks := ExtractYoutubePicks(markdownContent);
    r := Ok(Analysis(markdownContent, youtubePicks));
  }
}
