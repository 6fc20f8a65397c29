/** `AnalyticsEvent`: the screen events sent to the analytics service, each
    serialised as an event name and a string-to-string parameter map. */
module Analytics {
  import opened Common

  datatype Screen = Main | Statistics

  datatype Item = AddTrack | Track | Filter | Edit | Delete

  datatype AnalyticsEvent =
    | Open(screen: Screen)
    | Close(screen: Screen)
    | Click(screen: Screen, item: Item)

  /** `Screen.rawValue`. */
  function ScreenRaw(s: Screen): string
  {
    match s
    case Main => "Main"
    case Statistics => "Statistics"
  }

  /** `Item.rawValue`: the case name, except `add_track`. */
  function ItemRaw(i: Item): string
  {
    match i
    case AddTrack => "add_track"
    case Track => "track"
    case Filter => "filter"
    case Edit => "edit"
    case Delete => "delete"
  }

  /** `Screen(rawValue:)`. */
  function ScreenFromRaw(raw: string): (s: Option<Screen>)
    ensures s.Some? ==> ScreenRaw(s.value) == raw
  {
    if raw == "Main" then Some(Main)
    else if raw == "Statistics" then Some(Statistics)
    else None
  }

  /** `Item(rawValue:)`. */
  function ItemFromRaw(raw: string): (i: Option<Item>)
    ensures i.Some? ==> ItemRaw(i.value) == raw
  {
    if raw == "add_track" then Some(AddTrack)
    else if raw == "track" then Some(Track)
    else if raw == "filter" then Some(Filter)
    else if raw == "edit" then Some(Edit)
    else if raw == "delete" then Some(Delete)
    else None
  }

  /** Every raw value reads back as its case, so distinct cases have
      distinct raw values. */
  lemma RawValuesRoundTrip(s: Screen, i: Item)
    ensures ScreenFromRaw(ScreenRaw(s)) == Some(s)
    ensures ItemFromRaw(ItemRaw(i)) == Some(i)
  {
  }

  /** `name`. */
  function Name(e: AnalyticsEvent): (name: string)
    ensures e.Open? <==> name == "open"
    ensures e.Close? <==> name == "close"
    ensures e.Click? <==> name == "click"
  {
    match e
    case Open(_) => "open"
    case Close(_) => "close"
    case Click(_, _) => "click"
  }

  /** `params`. */
  function Params(e: AnalyticsEvent): (params: map<string, string>)
    ensures params.Keys == if e.Click? then {"screen", "item"} else {"screen"}
    ensures params["screen"] == ScreenRaw(e.screen)
    ensures e.Click? ==> params["item"] == ItemRaw(e.item)
  {
    match e
    case Open(screen) => map["screen" := ScreenRaw(screen)]
    case Close(screen) => map["screen" := ScreenRaw(screen)]
    case Click(screen, item) => map["screen" := ScreenRaw(screen), "item" := ItemRaw(item)]
  }

  /** What a receiver recovers from a name and a parameter map: the event,
      or nothing when either does not match a case. */
  function Parse(name: string, params: map<string, string>): Option<AnalyticsEvent>
  {
    if "screen" !in params then None
    else match ScreenFromRaw(params["screen"])
      case None => None
      case Some(screen) =>
        if name == "open" && params.Keys == {"screen"} then Some(Open(screen))
        else if name == "close" && params.Keys == {"screen"} then Some(Close(screen))
        else if name == "click" && "item" in params && params.Keys == {"screen", "item"} then
          match ItemFromRaw(params["item"])
          case None => None
          case Some(item) => Some(Click(screen, item))
        else None
  }

  /** The name and the parameters together determine the event: parsing
      them gives it back, and two events serialised alike are equal. */
  lemma SerialisationRoundTrip(e: AnalyticsEvent, e': AnalyticsEvent)
    ensures Parse(Name(e), Params(e)) == Some(e)
    ensures Name(e) == Name(e') && Params(e) == Params(e') ==> e == e'
  {
    RawValuesRoundTrip(e.screen, if e.Click? then e.item else AddTrack);
    RawValuesRoundTrip(e'.screen, if e'.Click? then e'.item else AddTrack);
    assert Parse(Name(e'), Params(e')) == Some(e');
  }

  /** Whatever parses serialises back to the same name and parameters. */
  lemma ParseIsExact(name: string, params: map<string, string>)
    requires Parse(name, params).Some?
    ensures Name(Parse(name, params).value) == name
    ensures Params(Parse(name, params).value) == params
  {
    var e := Parse(name, params).value;
    assert ScreenRaw(e.screen) == params["screen"];
    if e.Click? {
      assert ItemRaw(e.item) == params["item"];
    }
  }
}
