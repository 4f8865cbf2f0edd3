/** The popup's `PromptManager`: saving the active tab's prompt, deleting one
    record, clearing the list, exporting it, and the two display helpers
    (text truncation and the site icon). Storage is the `Store` passed in and
    returned; the active tab and the content script's answer are parameters. */
module Popup {
  import opened Js
  import opened Tables
  import opened Records
  import opened PromptList
  import Content

  datatype StatusKind = Success | Error

  /** The message `showStatus` puts in the popup. */
  datatype Status = Status(message: string, kind: StatusKind)

  // ---------------------------------------------------------------------------
  // Supported sites

  /** URL fragments of the sites the popup will save from. */
  const SupportedSites: seq<string> := [
    "chat.deepseek.com",
    "chatgpt.com",
    "gemini.google.com",
    "claude.ai",
    "grok.com",
    "meta.ai",
    "copilot.microsoft.com"
  ]

  /** Whether the URL contains any of the supported fragments. */
  function IsSupported(url: string): (b: bool)
    ensures b <==> exists i :: 0 <= i < |SupportedSites| && Includes(url, SupportedSites[i])
  {
    FirstIncluded(url, SupportedSites) < |SupportedSites|
  }

  /** The popup's supported-site list and the content script's site table name
      the same fragments, so a string is supported exactly when the content
      script recognises a site in it. The scripts apply the two checks to
      different strings, though: the popup to the whole tab URL, the content
      script to the page's hostname (see the two lemmas below). */
  lemma SupportedIffDetected(url: string)
    ensures IsSupported(url) <==> Content.DetectSite(url) != Content.Unknown
  {
    SameFragments();
  }

  /** The two lists, entry by entry. */
  lemma SameFragments()
    ensures |SupportedSites| == |Content.SiteDomains|
    ensures forall i :: 0 <= i < |SupportedSites| ==> SupportedSites[i] == Content.SiteDomains[i].0
  {
  }

  /** A tab whose URL contains a hostname the content script recognises is
      supported by the popup. */
  lemma DetectedHostIsSupported(url: string, hostname: string)
    requires Includes(url, hostname)
    requires Content.DetectSite(hostname) != Content.Unknown
    ensures IsSupported(url)
  {
    var k :| 0 <= k < |Content.SiteDomains| && Includes(hostname, Content.SiteDomains[k].0);
    SameFragments();
    IncludesTrans(url, hostname, SupportedSites[k]);
  }

  /** The converse fails: a URL may name a supported domain outside its
      hostname, and the popup then accepts a page the content script does
      not recognise, here `https://example.com/?r=chatgpt.com`. */
  lemma SupportedUrlOfUnknownHost(host: string)
    requires host == "example.com"
    ensures var url := "https://" + host + "/?r=" + "chatgpt.com";
            Includes(url, host) && IsSupported(url) && Content.DetectSite(host) == Content.Unknown
  {
    var url := "https://" + host + "/?r=" + "chatgpt.com";
    assert url == "https://" + host + ("/?r=" + "chatgpt.com");
    IncludesMiddle("https://", host, "/?r=" + "chatgpt.com");
    assert url == "https://" + host + "/?r=" + SupportedSites[1] + "";
    IncludesMiddle("https://" + host + "/?r=", SupportedSites[1], "");
    ExampleLettersAreUnknown(host);
  }

  /** The letters of `example.com`. */
  const ExampleLetters: set<char> := {'e', 'x', 'a', 'm', 'p', 'l', '.', 'c', 'o'}

  /** Each site domain has a letter outside `ExampleLetters` (`h`, `h`, `g`,
      `u`, `g`, `t` and `i` in table order), so the content script recognises
      no site in a hostname written with those letters only. */
  lemma ExampleLettersAreUnknown(host: string)
    requires forall i :: 0 <= i < |host| ==> host[i] in ExampleLetters
    ensures Content.DetectSite(host) == Content.Unknown
  {
    var ds := Content.SiteDomains;
    MissingChar(host, ds[0].0, 1);
    MissingChar(host, ds[1].0, 1);
    MissingChar(host, ds[2].0, 0);
    MissingChar(host, ds[3].0, 3);
    MissingChar(host, ds[4].0, 0);
    MissingChar(host, ds[5].0, 2);
    MissingChar(host, ds[6].0, 3);
    assert forall i :: 0 <= i < |ds| ==> !Includes(host, ds[i].0);
  }

  // ---------------------------------------------------------------------------
  // Display helpers

  /** Number of characters of a prompt the list shows. */
  const DisplayLimit: nat := 120

  /** The text as the list shows it: a text longer than the limit is cut to
      its first 120 characters and marked with an ellipsis of three dots. */
  function Truncate(text: string): (r: string)
    ensures |text| > DisplayLimit ==> |r| == DisplayLimit + 3
    ensures |text| > DisplayLimit ==> r[..DisplayLimit] == text[..DisplayLimit] && r[DisplayLimit..] == "..."
    ensures |text| <= DisplayLimit ==> r == text
    ensures |r| <= DisplayLimit + 3
  {
    if |text| > DisplayLimit then text[..DisplayLimit] + "..." else text
  }

  /** Truncating a shown text again shows the same text. */
  lemma TruncateIdempotent(text: string)
    ensures Truncate(Truncate(text)) == Truncate(text)
  {
    if |text| > DisplayLimit {
      var t := Truncate(text);
      assert t[..DisplayLimit] + "..." == t;
    }
  }

  /** Domain fragments and their icons, in `Object.entries` order. */
  const IconTable: seq<(string, string)> := [
    ("chatgpt.com", "🤖"),
    ("claude.ai", "🧠"),
    ("gemini.google.com", "✨"),
    ("copilot.microsoft.com", "🚀"),
    ("chat.deepseek.com", "🔮"),
    ("grok.com", "⚡"),
    ("meta.ai", "🌐")
  ]

  const DefaultIcon: string := "💬"

  /** `getSiteIcon` as written: the icon of the first domain, in table order,
      that `site` contains, else the default icon. */
  function SiteIcon(site: string): (icon: string)
    ensures icon == DefaultIcon <==> forall i :: 0 <= i < |IconTable| ==> !Includes(site, IconTable[i].0)
    ensures icon != DefaultIcon ==> exists k :: FirstAt(site, IconTable, k) && icon == IconTable[k].1
  {
    FirstMatch(site, IconTable, DefaultIcon)
  }

  /** A string without a dot contains no domain, so it always gets the default icon. */
  lemma DotlessSiteGetsDefaultIcon(site: string)
    requires '.' !in site
    ensures SiteIcon(site) == DefaultIcon
  {
    forall i | 0 <= i < |IconTable| ensures !Includes(site, IconTable[i].0) {
      if Includes(site, IconTable[i].0) {
        DomainHasDot(i);
        IncludesKeepsChars(site, IconTable[i].0, '.');
      }
    }
  }

  /** Every domain of the icon table contains a dot. */
  lemma DomainHasDot(i: nat)
    requires i < |IconTable|
    ensures '.' in IconTable[i].0
  {
    var d := IconTable[i].0;
    // the first dot follows `chatgpt` and `copilot` (7 characters), `claude`
    // and `gemini` (6), and `chat`, `grok` and `meta` (4)
    var k := if i in {0, 3} then 7 else if i in {1, 2} then 6 else 4;
    assert d[k] == '.';
  }

  /** No site name the content script reports contains a dot. */
  lemma LabelHasNoDot(s: Content.Site)
    ensures '.' !in Content.Label(s)
  {
    match s
    case DeepSeek => case ChatGPT => case Gemini => case Claude =>
    case Grok => case Meta => case Copilot => case Unknown =>
  }

  /** The first domain of the table gets its own icon. */
  lemma ChatGPTDomainIcon()
    ensures SiteIcon("chatgpt.com") == "🤖"
  {
    IncludesSelf("chatgpt.com");
    assert FirstAt("chatgpt.com", IconTable, 0);
  }

  /** The popup stores the content script's site names (`ChatGPT`, `Claude`, ...),
      none of which contains a domain: as written, every record saved from the
      popup is shown with the default icon, whatever page it came from. */
  lemma SiteIconIgnoresSiteNames(hostname: string)
    ensures SiteIcon(Content.Label(Content.DetectSite(hostname))) == DefaultIcon
    ensures SiteIcon("ChatGPT") == DefaultIcon && SiteIcon("chatgpt.com") == "🤖"
  {
    LabelHasNoDot(Content.DetectSite(hostname));
    DotlessSiteGetsDefaultIcon(Content.Label(Content.DetectSite(hostname)));
    LabelHasNoDot(Content.ChatGPT);
    DotlessSiteGetsDefaultIcon("ChatGPT");
    ChatGPTDomainIcon();
  }

  /** The site behind a stored site name, `Unknown` for any other string. */
  function SiteOfLabel(name: string): (s: Content.Site)
    ensures s != Content.Unknown ==> Content.Label(s) == name
    ensures forall t: Content.Site :: t != Content.Unknown && Content.Label(t) == name ==> s == t
  {
    if name == "DeepSeek" then Content.DeepSeek
    else if name == "ChatGPT" then Content.ChatGPT
    else if name == "Gemini" then Content.Gemini
    else if name == "Claude" then Content.Claude
    else if name == "Grok" then Content.Grok
    else if name == "Meta" then Content.Meta
    else if name == "Copilot" then Content.Copilot
    else Content.Unknown
  }

  /** The domain by which the content script recognises a site. */
  function DomainOf(s: Content.Site): (d: string)
    requires s != Content.Unknown
    ensures exists k :: 0 <= k < |Content.SiteDomains| && Content.SiteDomains[k] == (d, s)
  {
    match s
    case DeepSeek => assert Content.SiteDomains[0] == ("chat.deepseek.com", s); "chat.deepseek.com"
    case ChatGPT => assert Content.SiteDomains[1] == ("chatgpt.com", s); "chatgpt.com"
    case Gemini => assert Content.SiteDomains[2] == ("gemini.google.com", s); "gemini.google.com"
    case Claude => assert Content.SiteDomains[3] == ("claude.ai", s); "claude.ai"
    case Grok => assert Content.SiteDomains[4] == ("grok.com", s); "grok.com"
    case Meta => assert Content.SiteDomains[5] == ("meta.ai", s); "meta.ai"
    case Copilot => assert Content.SiteDomains[6] == ("copilot.microsoft.com", s); "copilot.microsoft.com"
  }

  /** `getSiteIcon` as evidently intended: a stored site name gets the icon of
      that site's domain; any other string is matched against the domains as
      before (records whose site is a hostname). */
  function SiteIconFixed(site: string): (icon: string)
    ensures SiteOfLabel(site) == Content.Unknown ==> icon == SiteIcon(site)
  {
    var s := SiteOfLabel(site);
    if s != Content.Unknown then SiteIcon(DomainOf(s)) else SiteIcon(site)
  }

  /** Each domain of the icon table gets a real icon. */
  lemma TableDomainGetsIcon(i: nat)
    requires i < |IconTable|
    ensures SiteIcon(IconTable[i].0) != DefaultIcon
  {
    IncludesSelf(IconTable[i].0);
  }

  /** With the correction, every recognised site shows a site icon: the one
      the domain table gives that site's domain. */
  lemma KnownSiteShowsIcon(s: Content.Site)
    requires s != Content.Unknown
    ensures SiteIconFixed(Content.Label(s)) == SiteIcon(DomainOf(s))
    ensures SiteIconFixed(Content.Label(s)) != DefaultIcon
  {
    var i: nat := match s
      case DeepSeek => 4 case ChatGPT => 0 case Gemini => 2 case Claude => 1
      case Grok => 5 case Meta => 6 case Copilot => 3;
    assert SiteOfLabel(Content.Label(s)) == s;
    assert IconTable[i].0 == DomainOf(s);
    TableDomainGetsIcon(i);
  }

  /** With the correction, a record saved from a recognised site shows a site
      icon and only records from unrecognised pages show the default icon;
      `ChatGPT` now gets the icon `chatgpt.com` gets. */
  lemma SiteIconFixedShowsSite(hostname: string)
    ensures var s := Content.DetectSite(hostname);
            (SiteIconFixed(Content.Label(s)) == DefaultIcon <==> s == Content.Unknown)
            && (s != Content.Unknown ==> SiteIconFixed(Content.Label(s)) == SiteIcon(DomainOf(s)))
    ensures SiteIconFixed("ChatGPT") == SiteIcon("chatgpt.com") == "🤖"
  {
    var s := Content.DetectSite(hostname);
    if s == Content.Unknown {
      LabelHasNoDot(s);
      DotlessSiteGetsDefaultIcon("Unknown");
    } else {
      KnownSiteShowsIcon(s);
    }
    KnownSiteShowsIcon(Content.ChatGPT);
    ChatGPTDomainIcon();
  }

  // ---------------------------------------------------------------------------
  // Saving

  /** The record `savePrompt` builds. */
  function PopupRecord(text: string, site: string, url: string, id: int, timestamp: string): Record {
    Record(id, Some(text), None, None, site, url, timestamp, Some(false))
  }

  /** `savePrompt`: reads the list, puts the new record first, keeps at most
      200 records and writes the list back; a failing storage call rejects
      (`None`) and nothing is written. */
  function SavePrompt(store: Store, text: string, site: string, url: string,
                      id: int, timestamp: string, storage: StorageStatus): (r: Option<Store>)
    ensures r.Some? <==> storage.Works?
    ensures r.Some? ==> var before := Load(store); var ps := Load(r.value);
              && |ps| == Min(|before| + 1, MaxPrompts)
              && ps[0] == PopupRecord(text, site, url, id, timestamp)
              && ps[1..] == before[..Min(|before|, MaxPrompts - 1)]
              && r.value.rest == store.rest
  {
    if storage.Fails? then None
    else Some(Stored(store, Prepend(Load(store), PopupRecord(text, site, url, id, timestamp))))
  }

  /** The active tab, as far as the popup looks at it. */
  datatype Tab = Tab(url: string)

  /** What asking the tab's content script for its current prompt gives: a
      rejection (no content script in the tab), no answer, or the prompt,
      site name and URL it reports. */
  datatype TabReply = MessagingFailed | NoReply | Reply(prompt: Option<string>, site: string, url: string)

  datatype Outcome = Outcome(store: Store, status: Status)

  /** `saveCurrentPrompt`: refuses without an active tab, on an unsupported
      URL and without a prompt, and otherwise saves the prompt with the site
      and URL the content script reported. */
  function SaveCurrentPrompt(store: Store, tab: Option<Tab>, reply: TabReply,
                             id: int, timestamp: string, storage: StorageStatus): (r: Outcome)
    ensures r.status.kind == Success
            <==> tab.Some? && IsSupported(tab.value.url) && reply.Reply? && Truthy(reply.prompt) && storage.Works?
    ensures r.status.kind == Error ==> r.store == store
    ensures r.status.kind == Success
            ==> Load(r.store) == Prepend(Load(store), PopupRecord(reply.prompt.value, reply.site, reply.url, id, timestamp))
    ensures r.status.kind == Success ==> Load(r.store)[0].text == reply.prompt && Load(r.store)[0].site == reply.site
    ensures r.store.rest == store.rest
  {
    if tab.None? then Outcome(store, Status("No active tab found", Error))
    else if !IsSupported(tab.value.url) then Outcome(store, Status("This site is not supported yet", Error))
    else if reply.MessagingFailed? then Outcome(store, Status("Failed to save prompt", Error))
    else if reply.NoReply? || !Truthy(reply.prompt) then Outcome(store, Status("No prompt found on current page", Error))
    else match SavePrompt(store, reply.prompt.value, reply.site, reply.url, id, timestamp, storage)
      case None => Outcome(store, Status("Failed to save prompt", Error))
      case Some(s) => Outcome(s, Status("Prompt saved successfully!", Success))
  }

  // ---------------------------------------------------------------------------
  // Deleting, clearing, exporting

  /** `deletePrompt`: keeps the records whose id differs; a storage failure is
      only logged, so the store is then unchanged. */
  function DeletePrompt(store: Store, id: int, storage: StorageStatus): (r: Store)
    ensures storage.Works? ==> Load(r) == RemoveId(Load(store), id)
    ensures storage.Works? ==> forall i :: 0 <= i < |Load(r)| ==> Load(r)[i].id != id
    ensures storage.Fails? ==> r == store
    ensures r.rest == store.rest
  {
    if storage.Fails? then store else Stored(store, RemoveId(Load(store), id))
  }

  /** Deleting the same id twice leaves what deleting it once left. */
  lemma DeletePromptIdempotent(store: Store, id: int)
    ensures DeletePrompt(DeletePrompt(store, id, Works), id, Works) == DeletePrompt(store, id, Works)
  {
    RemoveIdempotent(Load(store), id);
  }

  /** The effect of `clearAllPrompts`: the store afterwards and the status
      shown, if any. */
  datatype Cleared = Cleared(store: Store, status: Option<Status>)

  /** `clearAllPrompts`: asks for confirmation, then writes an empty list
      under `prompts` (other keys stay). Cancelling returns silently. */
  function ClearAllPrompts(store: Store, confirmed: bool, storage: StorageStatus): (r: Cleared)
    ensures !confirmed ==> r.store == store && r.status.None?
    ensures confirmed && storage.Works? ==> Load(r.store) == [] && r.store.rest == store.rest
    ensures confirmed && storage.Works? ==> r.status == Some(Status("All prompts cleared", Success))
    ensures confirmed && storage.Fails?
            ==> r.store == store && r.status == Some(Status("Failed to clear prompts", Error))
  {
    if !confirmed then Cleared(store, None)
    else if storage.Fails? then Cleared(store, Some(Status("Failed to clear prompts", Error)))
    else Cleared(Stored(store, []), Some(Status("All prompts cleared", Success)))
  }

  /** The exported JSON document. */
  datatype ExportData = ExportData(exportDate: string, promptCount: nat, prompts: seq<Record>)

  datatype Export = Export(data: Option<ExportData>, status: Status)

  /** `exportPrompts`: nothing to export for an empty list, otherwise the whole
      list with its count. */
  function ExportPrompts(store: Store, exportDate: string, storage: StorageStatus): (r: Export)
    ensures r.data.Some? <==> storage.Works? && Load(store) != []
    ensures storage.Works? && Load(store) == [] ==> r.status == Status("No prompts to export", Error)
    ensures r.data.Some? ==> r.data.value.prompts == Load(store)
                             && r.data.value.promptCount == |Load(store)|
                             && r.data.value.exportDate == exportDate
    ensures r.data.Some? <==> r.status.kind == Success
  {
    if storage.Fails? then Export(None, Status("Export failed", Error))
    else
      var ps := Load(store);
      if |ps| == 0 then Export(None, Status("No prompts to export", Error))
      else Export(Some(ExportData(exportDate, |ps|, ps)), Status("Prompts exported successfully!", Success))
  }
}
