/** Values shared by the two steps of the Neviweb130 config flow: the keys of
    the dictionaries the flow reads and writes, the Python values they hold,
    and the directives a step hands back to the Home Assistant flow manager. */
module FlowValues {

  /** Python's `X | None`. */
  datatype Option<T> = None | Some(value: T)

  /** The keys the flow uses: `CONF_USERNAME`, `CONF_PASSWORD`,
      `CONF_SCAN_INTERVAL` and the `CONF_*` constants of the integration,
      assumed pairwise distinct; `Other` is any further key a stored entry
      may carry, and its name is never the string of one of the named keys,
      so a map never holds the same Python key twice. */
  datatype Key =
    | Username
    | Password
    | ScanInterval
    | HomekitMode
    | IgnoreMiwi
    | StatInterval
    | Notify
    | Network
    | Network2
    | Network3
    | Other(name: string)

  /** A Python value held in user input or in a stored entry.  `Duration`
      stands for anything with a `total_seconds()` method (a
      `datetime.timedelta`) and carries what that method returns. */
  datatype Value =
    | Null
    | Bool(b: bool)
    | Int(i: int)
    | Str(s: string)
    | Duration(totalSeconds: real)

  /** Why a step raised instead of returning a directive. */
  datatype Failure =
    | TransportError   // `session.post` or `response.json()` raised; nothing catches it
    | BodyNotDict      // `data.get` on a decoded body that is not a dict
    | ErrorNotDict     // `.get("code")` on an `"error"` value that is not a dict
    | MissingKey(key: Key)  // `user_input[key]` on a dict without that key

  /** What a step returns: `async_create_entry`, `async_show_form`, an abort,
      or an exception that escapes the step. */
  datatype FlowResult =
    | CreateEntry(title: Value, data: map<Key, Value>)
    | ShowForm(stepId: string, defaults: map<Key, Value>, errors: map<string, string>)
    | Abort(reason: string)
    | Raise(failure: Failure)
}
