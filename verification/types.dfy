/** The records shared by the catalogue page, the app card and the network
    widget. */
module Types {
  import opened Optional

  /** The closed set of lifecycle states a catalogue entry can be in. */
  datatype AppStatus = Live | Beta | ComingSoon

  /** One catalogue entry, read once from the bundled data file and never
      changed afterwards. Optional fields are `Option`s. */
  datatype App = App(
    id: string,
    name: string,
    author: string,
    authorUrl: Option<string>,
    url: Option<string>,
    github: Option<string>,
    description: string,
    longDescription: Option<string>,
    tags: seq<string>,
    category: string,
    status: AppStatus,
    gradient: Option<string>,
    screenshot: Option<string>,
    techStack: Option<seq<string>>,
    features: Option<seq<string>>,
    dateAdded: Option<string>
  )

  /** The summary the network widget shows. The counts are JavaScript
      numbers, so the type itself admits negative values; the aggregation
      only ever produces list lengths. */
  datatype NetworkStats = NetworkStats(
    isOnline: bool,
    minerCount: int,
    sessionCount: int,
    status: string
  )
}
