/** The background service worker: the message handlers that save and list
    prompts in local storage, the remote-first save and fetch that fall back
    to local storage, clearing storage, installation, and the message
    dispatch. Every effect is explicit: the store is passed in and returned,
    and the outcome of each HTTP request and of the storage calls is a
    parameter. */
module Background {
  import opened Js
  import opened Records
  import opened PromptList

  /** The fields of a `savePrompt` / `savePromptToAPI` message; any may be missing. */
  datatype SaveRequest = SaveRequest(
    text: Option<string>,
    content: Option<string>,
    title: Option<string>,
    site: Option<string>,
    url: Option<string>)

  /** A JSON value received from the server, passed on unchanged. */
  datatype ServerData = ServerData(json: string)

  /** What a `fetch` to the prompts endpoint ends in: an `ok` response and its
      parsed body, a response with a non-ok status, or a rejection (network
      failure, unparsable body). */
  datatype Remote = Answered(body: ServerData) | HttpError(status: int) | NetworkError(message: string)

  /** What the authentication check ends in: the parsed `authenticated` flag,
      or a rejection. The status of this response is not looked at. */
  datatype Auth = AuthReply(authenticated: bool) | AuthFailure(message: string)

  /** The `error` a response carries: a caught error's message, or the
      `Server error: <status>` raised for a non-ok response. */
  datatype ErrorMessage = Message(text: string) | ServerError(status: int)

  /** The object handed to `sendResponse`. Every variant but `Failed`,
      `StoredLocally` and `NoResponse` reports success. */
  datatype Response =
    | Saved(prompt: Record)                          // the record just saved
    | Prompts(prompts: seq<Record>)                  // the stored list
    | Done                                           // nothing beyond success
    | SyncNotImplemented                             // a fixed not-implemented message
    | AuthStatus(authenticated: bool)                // the server's flag (its user left out)
    | StoredOnServer(serverPrompt: ServerData)       // location server, with the server's record
    | StoredLocally(success: bool, error: ErrorMessage)  // location local, the local outcome and why
    | FromServer(serverPrompts: ServerData)          // source server, with the server's list
    | FromLocal(localPrompts: seq<Record>, signedIn: Option<bool>, fetchError: Option<ErrorMessage>)
                                                     // source local, with why the server was not used
    | Failed(error: ErrorMessage)                    // failure, with the error
    | NoResponse                                     // the handler rejected before responding

  /** A handler's effect: the store afterwards and the response sent. */
  datatype Handled = Handled(store: Store, response: Response)

  // ---------------------------------------------------------------------------
  // Records built by the background script

  const TitlePrefix: string := "Prompt from "

  /** The title given to a prompt without one: `Prompt from ` followed by the
      site, or by `unknown` when the site is missing or empty. */
  function DefaultTitle(site: Option<string>): (t: string)
    ensures |t| > |TitlePrefix| && t[..|TitlePrefix|] == TitlePrefix
    ensures Truthy(site) ==> t[|TitlePrefix|..] == site.value
    ensures !Truthy(site) ==> t[|TitlePrefix|..] == "unknown"
  {
    TitlePrefix + OrElse(site, "unknown")
  }

  /** The record `handleSavePrompt` builds from a message: `text` and `content`
      fall back on each other, the title on the default title, `site` and
      `url` on the empty string. */
  function RequestRecord(req: SaveRequest, id: int, timestamp: string): (p: Record)
    ensures p.id == id && p.timestamp == timestamp && p.autoSaved.None?
    ensures Truthy(req.text) ==> p.text == req.text
    ensures Truthy(req.content) ==> p.content == req.content
    ensures Truthy(p.text) <==> Truthy(req.text) || Truthy(req.content)
    ensures Truthy(p.text) <==> Truthy(p.content)
    ensures Truthy(req.text) != Truthy(req.content) ==> p.text == p.content
    ensures Truthy(req.title) ==> p.title == req.title
    ensures !Truthy(req.title) ==> p.title == Some(DefaultTitle(req.site))
    ensures Truthy(req.site) ==> p.site == req.site.value
    ensures !Truthy(req.site) ==> p.site == ""
    ensures Truthy(req.url) ==> p.url == req.url.value
    ensures !Truthy(req.url) ==> p.url == ""
  {
    Record(
      id,
      Or(req.text, req.content),
      Or(req.content, req.text),
      Some(OrElse(req.title, DefaultTitle(req.site))),
      OrElse(req.site, ""),
      OrElse(req.url, ""),
      timestamp,
      None)
  }

  /** The record `savePromptLocallyInternal` builds: the content in both
      `text` and `content`, the same title and site defaults, and no URL. */
  function LocalRecord(content: string, title: Option<string>, site: Option<string>,
                       id: int, timestamp: string): (p: Record)
    ensures p.id == id && p.timestamp == timestamp && p.autoSaved.None?
    ensures p.text == Some(content) && p.content == Some(content)
    ensures p.url == ""
    ensures Truthy(title) ==> p.title == title
    ensures !Truthy(title) ==> p.title == Some(DefaultTitle(site))
    ensures Truthy(site) ==> p.site == site.value
    ensures !Truthy(site) ==> p.site == ""
  {
    Record(id, Some(content), Some(content), Some(OrElse(title, DefaultTitle(site))),
           OrElse(site, ""), "", timestamp, None)
  }

  /** Both local save paths build the same record for a message that carries
      only content, a title and a site. */
  lemma LocalRecordMatchesRequestRecord(content: string, title: Option<string>, site: Option<string>,
                                        id: int, timestamp: string)
    requires content != ""
    ensures LocalRecord(content, title, site, id, timestamp)
            == RequestRecord(SaveRequest(None, Some(content), title, site, None), id, timestamp)
  {
  }

  // ---------------------------------------------------------------------------
  // Local storage handlers

  /** `handleSavePrompt`: the new record goes first, the list is cut to 200,
      and the record is sent back; a storage failure leaves the store as it was. */
  function HandleSavePrompt(req: SaveRequest, store: Store, id: int, timestamp: string,
                            storage: StorageStatus): (r: Handled)
    ensures storage.Works? ==> var before := Load(store); var ps := Load(r.store);
              && |ps| == Min(|before| + 1, MaxPrompts)
              && ps[0] == RequestRecord(req, id, timestamp)
              && ps[1..] == before[..Min(|before|, MaxPrompts - 1)]
              && r.store.rest == store.rest
              && r.response == Saved(ps[0])
    ensures storage.Fails? ==> r == Handled(store, Failed(Message(storage.message)))
  {
    if storage.Fails? then Handled(store, Failed(Message(storage.message)))
    else
      var p := RequestRecord(req, id, timestamp);
      Handled(Stored(store, Prepend(Load(store), p)), Saved(p))
  }

  /** `handleGetPrompts`: the stored list, `[]` when the key is missing. */
  function HandleGetPrompts(store: Store, storage: StorageStatus): (r: Response)
    ensures storage.Works? ==> r == Prompts(Load(store))
    ensures storage.Works? && store.prompts.None? ==> r == Prompts([])
    ensures storage.Fails? ==> r.Failed?
  {
    if storage.Fails? then Failed(Message(storage.message)) else Prompts(Load(store))
  }

  /** `handleClearLocalData`: removes every key, not only `prompts`. */
  function HandleClearLocalData(store: Store, storage: StorageStatus): (r: Handled)
    ensures storage.Works? ==> Load(r.store) == [] && r.store.rest == map[] && r.response == Done
    ensures storage.Fails? ==> r.store == store && r.response.Failed?
  {
    if storage.Fails? then Handled(store, Failed(Message(storage.message)))
    else Handled(Store(None, map[]), Done)
  }

  /** `handleCheckAuth`. */
  function HandleCheckAuth(auth: Auth): (r: Response)
    ensures auth.AuthReply? ==> r == AuthStatus(auth.authenticated)
    ensures auth.AuthFailure? ==> r == Failed(Message(auth.message))
  {
    match auth
    case AuthReply(a) => AuthStatus(a)
    case AuthFailure(m) => Failed(Message(m))
  }

  /** What `savePromptLocallyInternal` resolves to. */
  datatype LocalSave = LocalSave(store: Store, success: bool, prompt: Option<Record>)

  /** `savePromptLocallyInternal`: the record goes first and the list is cut
      to 200; the helper never rejects, it reports failure instead. */
  function SaveLocallyInternal(content: string, title: Option<string>, site: Option<string>,
                               store: Store, id: int, timestamp: string,
                               storage: StorageStatus): (r: LocalSave)
    ensures r.success <==> storage.Works?
    ensures r.success ==> var before := Load(store); var ps := Load(r.store);
              && |ps| == Min(|before| + 1, MaxPrompts)
              && ps[0] == LocalRecord(content, title, site, id, timestamp)
              && ps[1..] == before[..Min(|before|, MaxPrompts - 1)]
              && r.store.rest == store.rest
              && r.prompt == Some(ps[0])
    ensures !r.success ==> r.store == store && r.prompt.None?
  {
    if storage.Fails? then LocalSave(store, false, None)
    else
      var p := LocalRecord(content, title, site, id, timestamp);
      LocalSave(Stored(store, Prepend(Load(store), p)), true, Some(p))
  }

  // ---------------------------------------------------------------------------
  // Remote-first save and fetch

  /** The JSON body POSTed to the prompts endpoint. */
  datatype ApiBody = ApiBody(title: string, content: string, tags: seq<string>)

  /** The request body: the title or its default, the content, and the site as
      the only tag when there is one. */
  function RequestBody(content: string, title: Option<string>, site: Option<string>): (b: ApiBody)
    ensures b.content == content
    ensures Truthy(title) ==> b.title == title.value
    ensures !Truthy(title) ==> b.title == DefaultTitle(site)
    ensures Truthy(site) ==> b.tags == [site.value]
    ensures !Truthy(site) ==> b.tags == []
  {
    ApiBody(OrElse(title, DefaultTitle(site)), content, if Truthy(site) then [site.value] else [])
  }

  /** Whether `savePromptToAPI` has something to send: content that is present
      and not all whitespace. */
  predicate HasContent(content: Option<string>) {
    Truthy(content) && Trim(content.value) != ""
  }

  /** The effect of `handleSavePromptToAPI`: the body sent to the server, if
      any, the store afterwards and the response. */
  datatype ApiSave = ApiSave(sent: Option<ApiBody>, store: Store, response: Response)

  /** `handleSavePromptToAPI`: refuses blank content without contacting the
      server; otherwise POSTs once, and on any failure saves locally once
      (with an empty URL) and reports location `local`. */
  function HandleSavePromptToApi(req: SaveRequest, remote: Remote, store: Store,
                                 id: int, timestamp: string, storage: StorageStatus): (r: ApiSave)
    ensures !HasContent(req.content)
            ==> r == ApiSave(None, store, Failed(Message("No content to save")))
    ensures HasContent(req.content)
            ==> r.sent == Some(RequestBody(req.content.value, req.title, req.site))
    ensures HasContent(req.content) && remote.Answered?
            ==> r.store == store && r.response == StoredOnServer(remote.body)
    ensures HasContent(req.content) && !remote.Answered?
            ==> var local := SaveLocallyInternal(req.content.value, req.title, req.site, store, id, timestamp, storage);
                && r.store == local.store
                && r.response.StoredLocally?
                && r.response.success == storage.Works?
                && (remote.HttpError? ==> r.response.error == ServerError(remote.status))
                && (remote.NetworkError? ==> r.response.error == Message(remote.message))
  {
    if !HasContent(req.content) then
      ApiSave(None, store, Failed(Message("No content to save")))
    else
      var content := req.content.value;
      var body := RequestBody(content, req.title, req.site);
      match remote
      case Answered(saved) => ApiSave(Some(body), store, StoredOnServer(saved))
      case HttpError(status) =>
        var local := SaveLocallyInternal(content, req.title, req.site, store, id, timestamp, storage);
        ApiSave(Some(body), local.store, StoredLocally(local.success, ServerError(status)))
      case NetworkError(message) =>
        var local := SaveLocallyInternal(content, req.title, req.site, store, id, timestamp, storage);
        ApiSave(Some(body), local.store, StoredLocally(local.success, Message(message)))
  }

  /** A failed remote save leaves the prompt visible locally: the local list
      then starts with a record holding the content, with location `local`. */
  lemma FailedApiSaveIsVisibleLocally(req: SaveRequest, remote: Remote, store: Store,
                                      id: int, timestamp: string)
    requires HasContent(req.content) && !remote.Answered?
    ensures var r := HandleSavePromptToApi(req, remote, store, id, timestamp, Works);
            && r.response.StoredLocally? && r.response.success
            && Load(r.store) == Prepend(Load(store), LocalRecord(req.content.value, req.title, req.site, id, timestamp))
            && HandleGetPromptsFromApi(AuthReply(false), remote, r.store, Works).localPrompts[0].content == req.content
  {
  }

  /** A successful remote save never adds a local copy, whatever the storage does. */
  lemma ServerSaveAddsNoLocalCopy(req: SaveRequest, body: ServerData, store: Store,
                                  id: int, timestamp: string, storage: StorageStatus)
    ensures Load(HandleSavePromptToApi(req, Answered(body), store, id, timestamp, storage).store) == Load(store)
  {
  }

  /** `handleGetPromptsFromAPI`: without authentication, or when anything on
      the remote path fails, the local list with source `local`; with
      authentication and an ok response, the server's list with source
      `server`. The two lists are never merged. A storage failure on the
      local path rejects the handler, which then never responds. */
  function HandleGetPromptsFromApi(auth: Auth, remote: Remote, store: Store, storage: StorageStatus): (r: Response)
    ensures r.FromServer? <==> auth == AuthReply(true) && remote.Answered?
    ensures r.FromServer? ==> r.serverPrompts == remote.body
    ensures r.FromLocal? ==> r.localPrompts == Load(store)
    ensures !r.FromServer? ==> (r.FromLocal? <==> storage.Works?)
    ensures !r.FromServer? && storage.Fails? ==> r == NoResponse
    ensures auth == AuthReply(false) && storage.Works? ==> r == FromLocal(Load(store), Some(false), None)
  {
    match auth
    case AuthFailure(m) =>
      if storage.Fails? then NoResponse else FromLocal(Load(store), None, Some(Message(m)))
    case AuthReply(false) =>
      // the failed read is caught and the fallback read fails again
      if storage.Fails? then NoResponse else FromLocal(Load(store), Some(false), None)
    case AuthReply(true) =>
      match remote
      case Answered(prompts) => FromServer(prompts)
      case HttpError(status) =>
        if storage.Fails? then NoResponse else FromLocal(Load(store), None, Some(ServerError(status)))
      case NetworkError(m) =>
        if storage.Fails? then NoResponse else FromLocal(Load(store), None, Some(Message(m)))
  }

  /** Without authentication the prompts endpoint is never asked: its outcome
      cannot change the response. */
  lemma UnauthenticatedFetchIgnoresServer(r1: Remote, r2: Remote, store: Store, storage: StorageStatus)
    ensures HandleGetPromptsFromApi(AuthReply(false), r1, store, storage)
            == HandleGetPromptsFromApi(AuthReply(false), r2, store, storage)
  {
  }

  // ---------------------------------------------------------------------------
  // Installation

  /** Why `onInstalled` fired. */
  datatype InstallReason = Install | Update | ChromeUpdate | SharedModuleUpdate

  /** The `onInstalled` listener as written: it initialises a missing
      `prompts` key, then tests `chrome.runtime.OnInstalledReason.INSTALL`,
      which is the constant string `"install"` and always truthy, instead of
      the event's reason, so it clears all storage on every event. The
      listener does not look at the reason at all. The order in which the
      initialisation and the clear reach storage is not modelled: either way
      the list reads back empty and every other key is gone. */
  function OnInstalledAsWritten(store: Store, reason: InstallReason): (r: Store)
    ensures Load(r) == [] && r.rest == map[]
  {
    Store(None, map[])
  }

  /** As written, an extension update deletes every saved prompt. */
  lemma UpdateWipesPrompts(p: Record)
    ensures var before := Store(Some([p]), map[]);
            Load(before) == [p] && Load(OnInstalledAsWritten(before, Update)) == []
  {
  }

  /** The `onInstalled` listener as evidently intended: storage is cleared only
      on a fresh install, and the `prompts` key always ends up present. */
  function OnInstalled(store: Store, reason: InstallReason): (r: Store)
    ensures r.prompts.Some?
    ensures reason == Install ==> Load(r) == [] && r.rest == map[]
    ensures reason != Install ==> Load(r) == Load(store) && r.rest == store.rest
  {
    var initialised := if store.prompts.None? then Stored(store, []) else store;
    if reason == Install then Store(Some([]), map[]) else initialised
  }

  /** With the correction, an update keeps every saved prompt, and installing
      twice in a row leaves what installing once left. */
  lemma UpdateKeepsPrompts(store: Store, reason: InstallReason)
    ensures reason != Install ==> Load(OnInstalled(store, reason)) == Load(store)
    ensures OnInstalled(OnInstalled(store, reason), reason) == OnInstalled(store, reason)
  {
  }

  // ---------------------------------------------------------------------------
  // Message dispatch

  datatype Action =
    | SavePrompt | GetPrompts | ClearLocalData | SyncWithServer
    | SavePromptToApi | GetPromptsFromApi | CheckAuth | UnknownAction

  /** The `action` string each handler answers to. */
  function ActionName(a: Action): string {
    match a
    case SavePrompt => "savePrompt"
    case GetPrompts => "getPrompts"
    case ClearLocalData => "clearLocalData"
    case SyncWithServer => "syncWithServer"
    case SavePromptToApi => "savePromptToAPI"
    case GetPromptsFromApi => "getPromptsFromAPI"
    case CheckAuth => "checkAuth"
    case UnknownAction => ""
  }

  /** The `switch (request.action)`: the handler whose name is the action, and
      the default case for any other string. */
  function Route(action: string): (a: Action)
    ensures a != UnknownAction ==> ActionName(a) == action
    ensures a == UnknownAction ==> forall b: Action :: b != UnknownAction ==> ActionName(b) != action
  {
    if action == "savePrompt" then SavePrompt
    else if action == "getPrompts" then GetPrompts
    else if action == "clearLocalData" then ClearLocalData
    else if action == "syncWithServer" then SyncWithServer
    else if action == "savePromptToAPI" then SavePromptToApi
    else if action == "getPromptsFromAPI" then GetPromptsFromApi
    else if action == "checkAuth" then CheckAuth
    else UnknownAction
  }

  /** A message to the background script. */
  datatype Request = Request(action: string, fields: SaveRequest)

  /** The outcomes of everything outside the model that a handler may touch. */
  datatype World = World(id: int, timestamp: string, storage: StorageStatus,
                         auth: Auth, saveOutcome: Remote, listOutcome: Remote)

  /** The `onMessage` listener: routes the message and applies its handler. */
  function HandleMessage(msg: Request, store: Store, w: World): (r: Handled)
    ensures Route(msg.action) == UnknownAction ==> r == Handled(store, Failed(Message("Unknown action")))
    ensures Route(msg.action) == SavePrompt ==> r == HandleSavePrompt(msg.fields, store, w.id, w.timestamp, w.storage)
    ensures Route(msg.action) == SavePromptToApi
            ==> var a := HandleSavePromptToApi(msg.fields, w.saveOutcome, store, w.id, w.timestamp, w.storage);
                r == Handled(a.store, a.response)
    ensures Route(msg.action) == GetPrompts ==> r == Handled(store, HandleGetPrompts(store, w.storage))
    ensures Route(msg.action) == ClearLocalData ==> r == HandleClearLocalData(store, w.storage)
    ensures Route(msg.action) == SyncWithServer ==> r == Handled(store, SyncNotImplemented)
    ensures Route(msg.action) == GetPromptsFromApi
            ==> r == Handled(store, HandleGetPromptsFromApi(w.auth, w.listOutcome, store, w.storage))
    ensures Route(msg.action) == CheckAuth ==> r == Handled(store, HandleCheckAuth(w.auth))
    ensures Route(msg.action) in {GetPrompts, SyncWithServer, GetPromptsFromApi, CheckAuth} ==> r.store == store
  {
    match Route(msg.action)
    case SavePrompt => HandleSavePrompt(msg.fields, store, w.id, w.timestamp, w.storage)
    case GetPrompts => Handled(store, HandleGetPrompts(store, w.storage))
    case ClearLocalData => HandleClearLocalData(store, w.storage)
    case SyncWithServer => Handled(store, SyncNotImplemented)
    case SavePromptToApi =>
      var a := HandleSavePromptToApi(msg.fields, w.saveOutcome, store, w.id, w.timestamp, w.storage);
      Handled(a.store, a.response)
    case GetPromptsFromApi => Handled(store, HandleGetPromptsFromApi(w.auth, w.listOutcome, store, w.storage))
    case CheckAuth => Handled(store, HandleCheckAuth(w.auth))
    case UnknownAction => Handled(store, Failed(Message("Unknown action")))
  }

  /** Only the three save and clear actions can change storage. */
  lemma OnlyWritesChangeStorage(msg: Request, store: Store, w: World)
    requires Route(msg.action) !in {SavePrompt, SavePromptToApi, ClearLocalData}
    ensures HandleMessage(msg, store, w).store == store
  {
  }
}
