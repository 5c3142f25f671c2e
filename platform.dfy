/** What the user-agent parser reports and how it selects the banner's platform type. */
module Platform {
  import opened Js

  /** The fields of the user-agent parse result the banner reads.
      A field the parser leaves undefined is the empty string. */
  datatype Agent = Agent(osName: string, osVersion: string, browserName: string)

  const WindowsNames: set<string> := {"Windows Phone", "Windows Mobile"}

  /** `this.type`: the `force` option when it is non-empty, otherwise the family
      of the reported operating system; None when neither applies. */
  function Classify(force: string, osName: string): (t: Option<string>)
    ensures force != "" ==> t == Some(force)
    ensures force == "" ==> (t == Some("windows") <==> osName in WindowsNames)
    ensures force == "" ==> (t == Some("ios") <==> osName == "iOS")
    ensures force == "" ==> (t == Some("android") <==> osName == "Android")
    ensures force == "" ==> (t.None? <==> osName !in WindowsNames + {"iOS", "Android"})
    ensures t != Some("")
  {
    if force != "" then Some(force)
    else if osName == "Windows Phone" || osName == "Windows Mobile" then Some("windows")
    else if osName == "iOS" then Some("ios")
    else if osName == "Android" then Some("android")
    else None
  }
}
