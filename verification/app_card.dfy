/** The display rules of one catalogue card: at most three tags plus an
    overflow badge, the gradient default, the initial letter, and the
    status label and colour. */
module AppCard {
  import opened Optional
  import opened Text
  import opened Types

  /** How many tags a card shows before collapsing the rest into "+N". */
  const MaxShownTags: nat := 3

  const DefaultGradient: string := "from-purple-500 via-pink-500 to-orange-500"

  // ---------------------------------------------------------------------
  // Tags
  // ---------------------------------------------------------------------

  /** `tags.slice(0, 3)`. */
  function ShownTags(tags: seq<string>): (r: seq<string>)
    ensures r <= tags
    ensures |r| == if |tags| < MaxShownTags then |tags| else MaxShownTags
  {
    if |tags| <= MaxShownTags then tags else tags[..MaxShownTags]
  }

  /** The number the overflow badge shows: `Some(tags.length - 3)` when
      `tags.length > 3`, otherwise `None` (no badge). */
  function HiddenTagCount(tags: seq<string>): (r: Option<nat>)
    ensures r.Some? <==> |tags| > MaxShownTags
    ensures r.Some? ==> r.value == |tags| - MaxShownTags
  {
    if |tags| > MaxShownTags then Some(|tags| - MaxShownTags) else None
  }

  /** The overflow badge text "+N". */
  function OverflowBadge(tags: seq<string>): Option<string> {
    match HiddenTagCount(tags)
    case Some(n) => Some("+" + NatToDecimal(n))
    case None => None
  }

  /** The shown tags and the hidden count account for every tag exactly
      once: the shown tags are the first ones, in order, and the hidden
      ones are the rest. */
  lemma TagsPartition(tags: seq<string>)
    ensures var shown := ShownTags(tags);
      && shown + tags[|shown|..] == tags
      && |shown| + HiddenTagCount(tags).GetOr(0) == |tags|
  {
  }

  /** The badge reads "+" followed by the decimal count of hidden tags,
      and appears exactly when there are more than three tags. */
  lemma OverflowBadgeReadsHidden(tags: seq<string>)
    ensures OverflowBadge(tags).Some? <==> |tags| > MaxShownTags
    ensures OverflowBadge(tags).Some? ==>
      var b := OverflowBadge(tags).value;
      && |b| >= 2 && b[0] == '+'
      && IsDecimal(b[1..])
      && DecimalValue(b[1..]) == |tags| - |ShownTags(tags)|
  {
    if |tags| > MaxShownTags {
      var d := NatToDecimal(|tags| - MaxShownTags);
      assert ("+" + d)[1..] == d;
    }
  }

  // ---------------------------------------------------------------------
  // Gradient and initial
  // ---------------------------------------------------------------------

  /** `app.gradient || DEFAULT`: an absent or empty gradient falls back to
      the default; any other is used unchanged. */
  function CardGradient(gradient: Option<string>): (r: string)
    ensures r != []
    ensures gradient.Some? && gradient.value != [] ==> r == gradient.value
    ensures gradient.None? || gradient.value == [] ==> r == DefaultGradient
  {
    if gradient.Some? && gradient.value != [] then gradient.value else DefaultGradient
  }

  /** `name.charAt(0)`: the name's first element, or the empty string for
      an empty name. Names are sequences of Unicode scalar values here, so
      the first element is a whole scalar value. */
  function CardInitial(name: string): (r: string)
    ensures |r| <= 1 && r <= name
    ensures name != [] ==> |r| == 1
  {
    if name == [] then [] else name[..1]
  }

  // ---------------------------------------------------------------------
  // Status badge
  // ---------------------------------------------------------------------

  function StatusLabel(s: AppStatus): string {
    match s
    case Live => "\U{1F7E2} Live"
    case Beta => "\U{1F7E1} Beta"
    case ComingSoon => "\U{26AA} Coming Soon"
  }

  function StatusColor(s: AppStatus): string {
    match s
    case Live => "bg-green-500/20 text-green-400 border-green-500/30"
    case Beta => "bg-yellow-500/20 text-yellow-400 border-yellow-500/30"
    case ComingSoon => "bg-gray-500/20 text-gray-400 border-gray-500/30"
  }

  /** Reads a status back from its label. */
  function StatusOfLabel(text: string): (r: Option<AppStatus>)
    ensures r.Some? ==> StatusLabel(r.value) == text
  {
    if text == StatusLabel(Live) then Some(Live)
    else if text == StatusLabel(Beta) then Some(Beta)
    else if text == StatusLabel(ComingSoon) then Some(ComingSoon)
    else None
  }

  /** Reads a status back from its colour classes. */
  function StatusOfColor(color: string): (r: Option<AppStatus>)
    ensures r.Some? ==> StatusColor(r.value) == color
  {
    if color == StatusColor(Live) then Some(Live)
    else if color == StatusColor(Beta) then Some(Beta)
    else if color == StatusColor(ComingSoon) then Some(ComingSoon)
    else None
  }

  /** Each status has its own label and its own colour: both maps are
      one-to-one, so the badge identifies the status. */
  lemma StatusBadgeRoundTrip(s: AppStatus)
    ensures StatusOfLabel(StatusLabel(s)) == Some(s)
    ensures StatusOfColor(StatusColor(s)) == Some(s)
  {
    match s
    case Live =>
    case Beta =>
      assert StatusLabel(Beta)[0] != StatusLabel(Live)[0];
      assert |StatusColor(Beta)| != |StatusColor(Live)|;
    case ComingSoon =>
      assert StatusLabel(ComingSoon)[0] != StatusLabel(Live)[0];
      assert StatusLabel(ComingSoon)[0] != StatusLabel(Beta)[0];
      assert |StatusColor(ComingSoon)| != |StatusColor(Live)|;
      assert |StatusColor(ComingSoon)| != |StatusColor(Beta)|;
  }

  /** Distinct statuses never share a label or a colour. */
  lemma StatusBadgeInjective(s: AppStatus, t: AppStatus)
    requires s != t
    ensures StatusLabel(s) != StatusLabel(t)
    ensures StatusColor(s) != StatusColor(t)
  {
    StatusBadgeRoundTrip(s);
    StatusBadgeRoundTrip(t);
  }

  // ---------------------------------------------------------------------
  // The whole card
  // ---------------------------------------------------------------------

  /** The data a card displays for one entry. */
  datatype CardView = CardView(
    gradient: string,
    initial: string,
    statusLabel: string,
    statusColor: string,
    tags: seq<string>,
    overflow: Option<string>)

  function ViewCard(app: App): (v: CardView)
    ensures v.tags <= app.tags
    ensures |v.tags| == if |app.tags| < MaxShownTags then |app.tags| else MaxShownTags
    ensures v.overflow.Some? <==> |app.tags| > |v.tags|
    ensures v.overflow.Some? ==>
      && |v.overflow.value| >= 2 && v.overflow.value[0] == '+'
      && IsDecimal(v.overflow.value[1..])
      && DecimalValue(v.overflow.value[1..]) == |app.tags| - |v.tags|
    ensures v.gradient == CardGradient(app.gradient)
    ensures v.initial == CardInitial(app.name)
    ensures StatusOfLabel(v.statusLabel) == Some(app.status)
    ensures StatusOfColor(v.statusColor) == Some(app.status)
  {
    StatusBadgeRoundTrip(app.status);
    OverflowBadgeReadsHidden(app.tags);
    CardView(
      CardGradient(app.gradient),
      CardInitial(app.name),
      StatusLabel(app.status),
      StatusColor(app.status),
      ShownTags(app.tags),
      OverflowBadge(app.tags))
  }
}
