/** The Environment Inspector: `get_running_apps` and `get_chrome_tabs`, which
    both scripts define identically. The AppleScript queries themselves are
    opaque; what they answered is an input to the model. */
module Environment {
  import opened Wrappers
  import opened OutputList

  /** What one `subprocess.run(cmd, shell=True, capture_output=True, text=True)`
      gave back: it either completed with a return code and its standard
      output, or it raised. */
  datatype CommandResult = Completed(returnCode: int, stdout: string) | Raised

  /** `get_running_apps`: parses the process query's output without looking at
      its return code. Nothing catches an exception here, so a query that
      raises makes the whole call raise (`None`). */
  function RunningApps(query: CommandResult): (apps: Option<seq<string>>)
    ensures apps.None? <==> query.Raised?
    ensures apps.Some? ==> apps.value == ParseList(query.stdout)
    ensures apps.Some? ==> forall i :: 0 <= i < |apps.value| ==> IsItem(apps.value[i])
  {
    match query
    case Raised => None
    case Completed(_, out) => Some(ParseList(out))
  }

  /** `get_chrome_tabs`: the tab URLs when the query succeeded, and the empty
      list when it raised or returned a non-zero code. It never raises. */
  function ChromeTabs(query: CommandResult): (tabs: seq<string>)
    ensures (query.Raised? || query.returnCode != 0) ==> tabs == []
    ensures query.Completed? && query.returnCode == 0 ==> tabs == ParseList(query.stdout)
    ensures forall i :: 0 <= i < |tabs| ==> IsItem(tabs[i])
  {
    match query
    case Raised => []
    case Completed(code, out) => if code == 0 then ParseList(out) else []
  }
}
