/** The logging sink as the push task uses it: `info` opens an entry and
    hands back a handle; `setSuccess` and `setWarn` settle that entry and
    append a message to it. Colouring and rendering are not modelled. */
module Logging {
  import opened TaskTypes

  /** The entry styles and end states the push task produces. */
  datatype Status = Activity | Success | Warn

  /** One log entry: the section it belongs to, its opening message, its
      current status, and the messages appended to it since. */
  datatype LogEntry = LogEntry(section: string, msg: string, status: Status, notes: seq<string>)

  /** The messages an optional `msg` appends: none when it is undefined. */
  function NotesOf(msg: Option<string>): (r: seq<string>)
    ensures |r| <= 1
    ensures r == [] <==> msg.None?
    ensures msg.Some? ==> r[0] == msg.value
  {
    match msg
    case None => []
    case Some(m) => [m]
  }

  class Log {
    /** Every entry written so far, oldest first; a handle is an index. */
    var entries: seq<LogEntry>

    constructor ()
      ensures entries == []
    {
      entries := [];
    }

    /** Opens a new entry in the activity state and returns its handle. */
    method Info(section: string, msg: string) returns (handle: nat)
      modifies this
      ensures handle == |old(entries)|
      ensures entries == old(entries) + [LogEntry(section, msg, Activity, [])]
    {
      handle := |entries|;
      entries := entries + [LogEntry(section, msg, Activity, [])];
    }

    /** Marks an open entry successful and appends `msg` to it; no other
        entry changes. */
    method SetSuccess(handle: nat, msg: string)
      requires handle < |entries|
      modifies this
      ensures entries == old(entries)[handle := old(entries[handle]).(status := Success, notes := old(entries[handle]).notes + [msg])]
    {
      var e := entries[handle];
      entries := entries[handle := e.(status := Success, notes := e.notes + [msg])];
    }

    /** Marks an open entry as a warning and appends `msg` to it when it is
        defined; no other entry changes. */
    method SetWarn(handle: nat, msg: Option<string>)
      requires handle < |entries|
      modifies this
      ensures entries == old(entries)[handle := old(entries[handle]).(status := Warn, notes := old(entries[handle]).notes + NotesOf(msg))]
    {
      var e := entries[handle];
      entries := entries[handle := e.(status := Warn, notes := e.notes + NotesOf(msg))];
    }
  }
}
