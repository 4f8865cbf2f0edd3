/** The saved-prompt record and the extension's local key-value storage. */
module Records {
  import opened Js

  /** One saved prompt. The popup and the background script write records of
      slightly different shapes, so fields one of them never sets are
      optional: the popup writes no `content` and no `title`, the background
      script writes no `autoSaved`, and its `text`/`content` are `a || b`
      expressions that can come out `undefined`. `id` is the save time in
      milliseconds and is not guaranteed to be unique. */
  datatype Record = Record(
    id: int,
    text: Option<string>,
    content: Option<string>,
    title: Option<string>,
    site: string,
    url: string,
    timestamp: string,
    autoSaved: Option<bool>)

  /** Local extension storage: the `prompts` key, which may be missing, and
      every other key (authentication data and the like), kept opaque. */
  datatype Store = Store(prompts: Option<seq<Record>>, rest: map<string, string>)

  /** Whether the storage calls of one operation succeed; a failing call
      rejects with the given message and writes nothing. */
  datatype StorageStatus = Works | Fails(message: string)

  /** The prompt list as every reader sees it: a missing key reads as `[]`. */
  function Load(s: Store): (ps: seq<Record>)
    ensures s.prompts.Some? ==> ps == s.prompts.value
    ensures s.prompts.None? ==> ps == []
  {
    s.prompts.GetOr([])
  }

  /** Writing the `prompts` key: replaces the list and leaves every other key alone. */
  function Stored(s: Store, ps: seq<Record>): (s': Store)
    ensures Load(s') == ps
    ensures s'.rest == s.rest
  {
    s.(prompts := Some(ps))
  }
}
