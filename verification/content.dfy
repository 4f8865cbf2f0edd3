/** The content script's `PromptDetector`: which assistant site a page
    belongs to, which CSS selectors may hold its prompt box, and which text
    counts as the current prompt. The page itself is a parameter: `query`
    stands for `document.querySelector`, with a selector that throws read
    as one that matches nothing. */
module Content {
  import opened Js
  import opened Tables

  datatype Site = DeepSeek | ChatGPT | Gemini | Claude | Grok | Meta | Copilot | Unknown

  /** The site name the content script reports and the popup stores. */
  function Label(s: Site): string {
    match s
    case DeepSeek => "DeepSeek"
    case ChatGPT => "ChatGPT"
    case Gemini => "Gemini"
    case Claude => "Claude"
    case Grok => "Grok"
    case Meta => "Meta"
    case Copilot => "Copilot"
    case Unknown => "Unknown"
  }

  /** Hostname fragments in the order `detectSite` tests them. */
  const SiteDomains: seq<(string, Site)> := [
    ("chat.deepseek.com", DeepSeek),
    ("chatgpt.com", ChatGPT),
    ("gemini.google.com", Gemini),
    ("claude.ai", Claude),
    ("grok.com", Grok),
    ("meta.ai", Meta),
    ("copilot.microsoft.com", Copilot)
  ]

  /** `detectSite`: the site of the first fragment, in table order, that the
      hostname contains; `Unknown` exactly when it contains none. */
  function DetectSite(hostname: string): (s: Site)
    ensures s == Unknown <==> forall i :: 0 <= i < |SiteDomains| ==> !Includes(hostname, SiteDomains[i].0)
    ensures s != Unknown ==> exists k :: FirstAt(hostname, SiteDomains, k) && s == SiteDomains[k].1
  {
    FirstMatch(hostname, SiteDomains, Unknown)
  }

  /** Selectors used when the site has no entry of its own. */
  const DefaultSelectors: seq<string> := ["textarea", "[contenteditable=\"true\"]"]

  /** The per-site selector lists, keyed by site name. */
  const SelectorTable: map<string, seq<string>> := map[
    "DeepSeek" := [
      "textarea[placeholder*=\"Message\"]",
      "textarea[data-id=\"root\"]",
      "[contenteditable=\"true\"][data-id=\"root\"]",
      "textarea.m-0"],
    "ChatGPT" := [
      "textarea[placeholder*=\"Message\"]",
      "textarea[data-id=\"root\"]",
      "[contenteditable=\"true\"][data-id=\"root\"]",
      "textarea.m-0"],
    "Gemini" := [
      "textarea[aria-label*=\"Message\"]",
      "rich-textarea textarea",
      ".ql-editor"],
    "Claude" := [
      "div[contenteditable=\"true\"]",
      "textarea[placeholder*=\"Message\"]",
      ".ProseMirror"],
    "Grok" := [
      "textarea[placeholder*=\"Message\"]",
      ".ChatMessageInputContainer textarea"],
    "Meta" := [
      "textarea[placeholder*=\"Message\"]",
      ".ChatMessageInputContainer textarea"],
    "Copilot" := [
      "textarea[placeholder*=\"Message\"]",
      "cib-text-input textarea",
      "#searchbox textarea"]
  ]

  /** `getPromptSelectors`: the table entry under the site's name, or the
      default list when there is none. Every table entry is a non-empty
      array, hence truthy, so the default is used exactly for the names the
      table lacks. The script only ever looks up a name `detectSite` gave. */
  function Selectors(site: Site): (r: seq<string>)
    ensures r != []
    ensures Label(site) in SelectorTable ==> r == SelectorTable[Label(site)]
    ensures Label(site) !in SelectorTable ==> r == DefaultSelectors
  {
    if Label(site) in SelectorTable then SelectorTable[Label(site)] else DefaultSelectors
  }

  /** Every detected site has a selector list of its own; `Unknown`, and only
      `Unknown`, falls back to the default list. */
  lemma SelectorsOfDetectedSite(hostname: string)
    ensures var s := DetectSite(hostname);
            Selectors(s) == DefaultSelectors <==> s == Unknown
    ensures DetectSite(hostname) != Unknown
            ==> Selectors(DetectSite(hostname)) == SelectorTable[Label(DetectSite(hostname))]
  {
    SiteSelectors(DetectSite(hostname));
  }

  /** The table has an entry, different from the default list, for the name
      of every known site, and none for `Unknown`. */
  lemma SiteSelectors(s: Site)
    ensures Label(s) in SelectorTable <==> s != Unknown
    ensures s != Unknown ==> SelectorTable[Label(s)] != DefaultSelectors
  {
    match s
    case Unknown => assert "Unknown" !in SelectorTable.Keys;
    case _ =>
  }

  /** What `querySelector` may hand back: `value` is absent on elements that
      are not form controls. */
  datatype Element = Element(value: Option<string>, textContent: Option<string>, innerText: Option<string>)

  /** The element's text: its value, else its text content, else its
      rendered text, an empty string counting as absent at each step. */
  function ElementText(e: Element): (t: Option<string>)
    ensures Truthy(e.value) ==> t == e.value
    ensures !Truthy(e.value) && Truthy(e.textContent) ==> t == e.textContent
    ensures !Truthy(e.value) && !Truthy(e.textContent) ==> t == e.innerText
  {
    Or(Or(e.value, e.textContent), e.innerText)
  }

  /** A query result that yields a prompt: an element whose text is truthy and
      not all whitespace. */
  predicate HasPrompt(c: Option<Element>) {
    c.Some? && Truthy(ElementText(c.value)) && Trim(ElementText(c.value).value) != ""
  }

  /** The prompt a query result yields. */
  function PromptOf(c: Option<Element>): string
    requires HasPrompt(c)
  {
    Trim(ElementText(c.value).value)
  }

  /** The query results for `selectors`, in selector order. */
  function Candidates(selectors: seq<string>, query: string -> Option<Element>): (cs: seq<Option<Element>>)
    ensures |cs| == |selectors|
    ensures forall i :: 0 <= i < |selectors| ==> cs[i] == query(selectors[i])
  {
    seq(|selectors|, i requires 0 <= i < |selectors| => query(selectors[i]))
  }

  /** Candidate `k` is the first one that yields a prompt. */
  predicate FirstPromptAt(cs: seq<Option<Element>>, k: int) {
    && 0 <= k < |cs|
    && HasPrompt(cs[k])
    && forall j :: 0 <= j < k ==> !HasPrompt(cs[j])
  }

  /** The scan of `getCurrentPrompt` over the query results: the trimmed text
      of the first candidate with non-blank text, or `null` when there is none. */
  method FirstPrompt(cs: seq<Option<Element>>) returns (prompt: Option<string>)
    ensures prompt.None? <==> forall i :: 0 <= i < |cs| ==> !HasPrompt(cs[i])
    ensures prompt.Some? ==> exists k :: FirstPromptAt(cs, k) && prompt.value == PromptOf(cs[k])
    ensures prompt.Some? ==> (prompt.value != ""
              && !IsWhitespace(prompt.value[0]) && !IsWhitespace(prompt.value[|prompt.value| - 1]))
  {
    var i := 0;
    while i < |cs|
      invariant 0 <= i <= |cs|
      invariant forall j :: 0 <= j < i ==> !HasPrompt(cs[j])
    {
      var element := cs[i];
      if element.Some? {
        var text := ElementText(element.value);
        if Truthy(text) && Trim(text.value) != "" {
          assert FirstPromptAt(cs, i);
          return Some(Trim(text.value));
        }
      }
      i := i + 1;
    }
    return None;
  }

  /** `getCurrentPrompt` on a page: the site's selectors, queried in order. */
  method GetCurrentPrompt(site: Site, query: string -> Option<Element>) returns (prompt: Option<string>)
    ensures var cs := Candidates(Selectors(site), query);
            && (prompt.None? <==> forall i :: 0 <= i < |cs| ==> !HasPrompt(cs[i]))
            && (prompt.Some? ==> exists k :: FirstPromptAt(cs, k) && prompt.value == PromptOf(cs[k]))
  {
    prompt := FirstPrompt(Candidates(Selectors(site), query));
  }
}
