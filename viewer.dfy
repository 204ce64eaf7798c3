/**
  The data side of the desktop viewer's main window (`MapViewer` in main.py):
  the API name of a map as shown in the map list, casualties per hour over
  the report history, the activity indicator, the structure count per
  faction and the colours derived from them, and the report history the
  window keeps, loads and writes back.
 */
module Viewer {
  import opened Wrappers
  import opened Json
  import opened Text
  import opened WarReports
  import ApiClient

  // ---------------------------------------------------------------------
  // Map names
  // ---------------------------------------------------------------------

  /** The activity indicators the map list appends to a name (one code point each). */
  const RedDot: char := '\U{1F534}'
  const OrangeDot: char := '\U{1F7E0}'
  const YellowDot: char := '\U{1F7E1}'

  predicate IsIndicator(c: char) {
    c == RedDot || c == OrangeDot || c == YellowDot
  }

  /** One round of the indicator loop: if the indicator occurs, drop every copy of it and strip the rest. */
  function StripIndicator(name: string, indicator: char): (r: string)
    ensures forall c :: c in r ==> c in name
    ensures indicator !in r
  {
    if indicator in name then Strip(RemoveChar(name, indicator)) else name
  }

  /** The name with the three indicators (in the order red, orange, yellow) and then every space removed. */
  function CleanMapName(name: string): (r: string)
    ensures ' ' !in r
    ensures forall c :: c in r ==> !IsIndicator(c) && c in name
  {
    var n1 := StripIndicator(name, RedDot);
    var n2 := StripIndicator(n1, OrangeDot);
    var n3 := StripIndicator(n2, YellowDot);
    RemoveChar(n3, ' ')
  }

  /**
    `MapViewer.get_api_map_name`: the API name of an entry of the map list.
    The result has no space and no indicator, and it is MarbanHollow or ends
    in `Hex`: it is the server scripts' API name of the cleaned entry.
   */
  function GetApiMapName(name: string): (r: string)
    ensures ' ' !in r && forall c :: c in r ==> !IsIndicator(c)
    ensures r == Marban || (|r| >= 3 && r[|r| - 3..] == "Hex")
    ensures CleanMapName(name) == Marban <==> r == Marban
    ensures r == ApiMapName(CleanMapName(name))
  {
    var cleaned := CleanMapName(name);
    if cleaned == Marban then cleaned else cleaned + "Hex"
  }

  /** A name with neither spaces nor indicators is already clean. */
  lemma {:induction false} CleanNameIsFixed(name: string)
    requires ' ' !in name && forall c :: c in name ==> !IsIndicator(c)
    ensures CleanMapName(name) == name
  {
    assert RedDot !in name && OrangeDot !in name && YellowDot !in name;
    RemoveCharAbsent(name, ' ');
  }

  /** Cleaning is idempotent: a cleaned name cleans to itself. */
  lemma CleanIsIdempotent(name: string)
    ensures CleanMapName(CleanMapName(name)) == CleanMapName(name)
  {
    CleanNameIsFixed(CleanMapName(name));
  }

  predicate LettersOnly(name: string) {
    forall i :: 0 <= i < |name| ==> IsAsciiLetter(name[i])
  }

  /** On a plain map name the viewer and the server scripts agree on the API name. */
  lemma ViewerAgreesWithServer(name: string)
    requires LettersOnly(name)
    ensures GetApiMapName(name) == ApiMapName(name)
  {
    CleanNameIsFixedForLetters(name);
  }

  /** Every map of the list gets the same API name in the viewer as in the server scripts. */
  lemma ViewerAgreesOnAvailableMaps(name: string)
    requires name in AvailableMaps
    ensures GetApiMapName(name) == ApiMapName(name)
  {
    AvailableMapNameIsPlain(name);
    ViewerAgreesWithServer(name);
  }

  /** The text of a map-list entry: the name, then a space and the indicator when there is one. */
  function DisplayText(name: string, indicator: string): (text: string)
    ensures indicator == "" ==> text == name
    ensures indicator != "" ==>
              |text| == |name| + 1 + |indicator| && text[..|name|] == name && text[|name|] == ' ' &&
              text[|name| + 1..] == indicator
  {
    if indicator != "" then name + " " + indicator else name
  }

  /** Removing the indicator shown after a plain name, and the space before it, gives the name back. */
  lemma StripShownIndicator(name: string, d: char)
    requires LettersOnly(name) && IsIndicator(d)
    ensures StripIndicator(name + " " + [d], d) == name
  {
    assert (name + " " + [d])[|name| + 1] == d;
    RemoveShownIndicator(name, d);
    LettersAreNotSpaces(name);
    StripOneTrailingSpace(name);
  }

  /** Dropping the indicator from a plain name followed by a space and that indicator leaves the name and the space. */
  lemma RemoveShownIndicator(name: string, d: char)
    requires LettersOnly(name) && IsIndicator(d)
    ensures RemoveChar(name + " " + [d], d) == name + " "
  {
    var tail := " " + [d];
    assert name + " " + [d] == name + tail;
    assert d !in name by {
      assert forall c :: c in name ==> IsAsciiLetter(c);
    }
    RemoveCharAppend(name, tail, d);
    RemoveCharAbsent(name, d);
    assert tail[0] == ' ' && tail[1..] == [d] && [d][1..] == [];
    assert RemoveChar([d], d) == [];
    assert RemoveChar(tail, d) == " ";
  }

  lemma LettersAreNotSpaces(name: string)
    requires LettersOnly(name)
    ensures forall i :: 0 <= i < |name| ==> !IsSpace(name[i])
  {
  }

  /**
    The map list's entries lead back to the right API name: whatever
    indicator is shown beside a plain map name, `GetApiMapName` of the entry
    is the server's API name of the map.
   */
  lemma DisplayTextRoundTrip(name: string, rate: Rate)
    requires LettersOnly(name)
    ensures GetApiMapName(DisplayText(name, ActivityIndicator(rate))) == ApiMapName(name)
  {
    ShownNameRoundTrip(name, ActivityIndicator(rate));
  }

  /** The same for any indicator text the map list can show. */
  lemma ShownNameRoundTrip(name: string, indicator: string)
    requires LettersOnly(name)
    requires indicator == "" || (|indicator| == 1 && IsIndicator(indicator[0]))
    ensures GetApiMapName(DisplayText(name, indicator)) == ApiMapName(name)
  {
    ShownNameCleans(name, indicator);
    CleanNameIsFixedForLetters(name);
    SameCleanSameApiName(DisplayText(name, indicator), name);
  }

  /** The entry shown for a plain name cleans back to the name. */
  lemma ShownNameCleans(name: string, indicator: string)
    requires LettersOnly(name)
    requires indicator == "" || (|indicator| == 1 && IsIndicator(indicator[0]))
    ensures CleanMapName(DisplayText(name, indicator)) == name
  {
    if indicator == "" {
      CleanNameIsFixedForLetters(name);
    } else {
      assert DisplayText(name, indicator) == name + " " + [indicator[0]];
      CleanShownName(name, indicator[0]);
    }
  }

  /** The API name depends on the entry only through its cleaned name. */
  lemma SameCleanSameApiName(a: string, b: string)
    requires CleanMapName(a) == CleanMapName(b)
    ensures GetApiMapName(a) == GetApiMapName(b)
  {
  }

  /** Cleaning a plain name followed by a space and an indicator gives the name. */
  lemma CleanShownName(name: string, d: char)
    requires LettersOnly(name) && IsIndicator(d)
    ensures CleanMapName(name + " " + [d]) == name
  {
    var shown := name + " " + [d];
    ShownChars(name, d);
    LettersHaveNoIndicator(name);
    StripShownIndicator(name, d);
    if d == RedDot {
      StripAbsent(name, OrangeDot);
      StripAbsent(name, YellowDot);
    } else if d == OrangeDot {
      StripAbsent(shown, RedDot);
      StripAbsent(name, YellowDot);
    } else {
      StripAbsent(shown, RedDot);
      StripAbsent(shown, OrangeDot);
    }
    RemoveCharAbsent(name, ' ');
  }

  lemma StripAbsent(name: string, indicator: char)
    requires indicator !in name
    ensures StripIndicator(name, indicator) == name
  {
  }

  lemma LettersHaveNoIndicator(name: string)
    requires LettersOnly(name)
    ensures ' ' !in name && RedDot !in name && OrangeDot !in name && YellowDot !in name
  {
    assert forall c :: c in name ==> IsAsciiLetter(c);
  }

  /** The entry shown for a plain name holds only its letters, the space and the indicator. */
  lemma ShownChars(name: string, d: char)
    requires LettersOnly(name) && IsIndicator(d)
    ensures forall x :: IsIndicator(x) && x != d ==> x !in name + " " + [d]
  {
    LettersHaveNoIndicator(name);
  }

  /** A name of letters only has neither spaces nor indicators, so it is already clean. */
  lemma CleanNameIsFixedForLetters(name: string)
    requires LettersOnly(name)
    ensures CleanMapName(name) == name
    ensures GetApiMapName(name) == ApiMapName(name)
  {
    assert forall c :: c in name ==> IsAsciiLetter(c);
    CleanNameIsFixed(name);
  }

  // ---------------------------------------------------------------------
  // Casualties per hour and activity
  // ---------------------------------------------------------------------

  /** `(colonial, warden)` casualties over the window. */
  datatype Rate = Rate(colonial: int, warden: int)

  /** The exceptions the rate computation can raise on odd history contents. */
  datatype CphError =
    | NotADict     // `.get` on an entry or report that is not a dict
    | NotANumber   // `last - first` on counters that are not numbers

  /** The rate looks at the last six entries: one hour at a ten-minute cadence. */
  const CphWindow: nat := 6

  /** `report.get(key, 0)`, as the number the subtraction sees (a boolean counts as 0 or 1). */
  function Counter(report: map<string, Json>, key: string): (r: Result<int, CphError>)
    ensures key !in report ==> r == Success(0)
    ensures key in report && report[key].JInt? ==> r == Success(report[key].i)
    ensures r.Failure? ==> key in report && r.error == NotANumber
  {
    match Get(report, key, JInt(0))
    case JInt(i) => Success(i)
    case JBool(b) => Success(if b then 1 else 0)
    case _ => Failure(NotANumber)
  }

  /** `max(0, x)`. */
  function Clamp(x: int): nat {
    if x > 0 then x else 0
  }

  /** The clamped growth of one counter between two reports. */
  function Growth(first: map<string, Json>, last: map<string, Json>, key: string): (r: Result<nat, CphError>)
    ensures r.Success? <==> Counter(first, key).Success? && Counter(last, key).Success?
    ensures r.Success? ==> r.value >= Counter(last, key).value - Counter(first, key).value
    ensures r.Success? ==> r.value == 0 || r.value == Counter(last, key).value - Counter(first, key).value
  {
    match (Counter(first, key), Counter(last, key))
    case (Success(f), Success(l)) => Success(Clamp(l - f))
    case _ => Failure(NotANumber)
  }

  /**
    `MapViewer.get_casualties_per_hour`: the growth of both casualty counters
    of a map between the first and the last entry of the last six history
    entries, looked up under the name with every `Hex` removed. Fewer than two
    entries, or a map that is missing or empty at either end, give `(0, 0)`
    (but a truthy report at the other end that is not a dict raises).
   */
  function CasualtiesPerHour(history: seq<Json>, mapName: string): (r: Result<Rate, CphError>)
    ensures |history| < 2 ==> r == Success(Rate(0, 0))
    ensures r.Success? ==> r.value.colonial >= 0 && r.value.warden >= 0
  {
    RateUnder(history, RemoveAll(mapName, "Hex"))
  }

  /** The rate computed from the entries' reports stored under `key`. */
  function RateUnder(history: seq<Json>, key: string): (r: Result<Rate, CphError>)
    ensures |history| < 2 ==> r == Success(Rate(0, 0))
  {
    if |history| < 2 then Success(Rate(0, 0))
    else
      var recent := LastN(history, CphWindow);
      if !recent[0].JObject? || !recent[|recent| - 1].JObject? then Failure(NotADict)
      else
        var first := Get(recent[0].fields, key, EmptyObject);
        var last := Get(recent[|recent| - 1].fields, key, EmptyObject);
        if !Truthy(first) || !Truthy(last) then
          // the message printed on this path calls `.keys()` on whichever report is truthy
          if (Truthy(first) && !first.JObject?) || (Truthy(last) && !last.JObject?) then Failure(NotADict)
          else Success(Rate(0, 0))
        else if !first.JObject? || !last.JObject? then Failure(NotADict)
        else
          match (Growth(first.fields, last.fields, "colonialCasualties"),
                 Growth(first.fields, last.fields, "wardenCasualties"))
          case (Success(c), Success(w)) => Success(Rate(c, w))
          case _ => Failure(NotANumber)
  }

  /** The rate of a history is the rate of just two entries: the first and the last of its window. */
  lemma RateUsesOnlyWindowEnds(history: seq<Json>, mapName: string)
    requires |history| >= 2
    ensures var recent := LastN(history, CphWindow);
            CasualtiesPerHour(history, mapName) == CasualtiesPerHour([recent[0], history[|history| - 1]], mapName)
  {
    var recent := LastN(history, CphWindow);
    var pair := [recent[0], history[|history| - 1]];
    assert LastN(pair, CphWindow) == pair;
  }

  /** Entries older than the last six never matter. */
  lemma RateIgnoresOlderEntries(older: seq<Json>, history: seq<Json>, mapName: string)
    requires |history| >= CphWindow
    ensures CasualtiesPerHour(older + history, mapName) == CasualtiesPerHour(history, mapName)
  {
    var whole := older + history;
    assert LastN(whole, CphWindow) == LastN(history, CphWindow);
  }

  /**
    What the rate means when both ends of the window hold a report for the
    map with integer counters: each component is the counter's growth, and 0
    when the counter went down.
   */
  lemma RateIsClampedGrowth(history: seq<Json>, mapName: string, first: map<string, Json>, last: map<string, Json>,
                            fc: int, fw: int, lc: int, lw: int)
    requires |history| >= 2
    requires var recent := LastN(history, CphWindow); var key := RemoveAll(mapName, "Hex");
             recent[0].JObject? && key in recent[0].fields && recent[0].fields[key] == JObject(first) &&
             recent[|recent| - 1].JObject? && key in recent[|recent| - 1].fields &&
             recent[|recent| - 1].fields[key] == JObject(last)
    requires first != map[] && last != map[]
    requires Get(first, "colonialCasualties", JInt(0)) == JInt(fc) && Get(first, "wardenCasualties", JInt(0)) == JInt(fw)
    requires Get(last, "colonialCasualties", JInt(0)) == JInt(lc) && Get(last, "wardenCasualties", JInt(0)) == JInt(lw)
    ensures CasualtiesPerHour(history, mapName).Success?
    ensures CasualtiesPerHour(history, mapName).value.colonial == if lc >= fc then lc - fc else 0
    ensures CasualtiesPerHour(history, mapName).value.warden == if lw >= fw then lw - fw else 0
  {
  }

  /**
    A map that has no report, or an empty one, at either end of the window
    has rate `(0, 0)`; unless the report at the other end is truthy but not a
    dict, on which the diagnostic message raises.
   */
  lemma RateOfMissingMapIsZero(history: seq<Json>, mapName: string)
    requires |history| >= 2
    requires var recent := LastN(history, CphWindow); var key := RemoveAll(mapName, "Hex");
             recent[0].JObject? && recent[|recent| - 1].JObject? &&
             (!Truthy(Get(recent[0].fields, key, EmptyObject)) || !Truthy(Get(recent[|recent| - 1].fields, key, EmptyObject)))
    ensures var recent := LastN(history, CphWindow); var key := RemoveAll(mapName, "Hex");
            var first, last := Get(recent[0].fields, key, EmptyObject), Get(recent[|recent| - 1].fields, key, EmptyObject);
            CasualtiesPerHour(history, mapName) ==
              if (Truthy(first) && !first.JObject?) || (Truthy(last) && !last.JObject?) then Failure(NotADict)
              else Success(Rate(0, 0))
  {
  }

  /** A report that is a plain number at one end and no report at the other: the message's `.keys()` raises. */
  lemma RateOfOneSidedOddReport()
    ensures CasualtiesPerHour([JObject(map["Foo" := JInt(5)]), JObject(map[])], "Foo") == Failure(NotADict)
  {
    assert RemoveAll("Foo", "Hex") == "Foo";
  }

  /**
    Both places that ask for a rate find the same reports: the map list asks
    with the plain map name, the report panel with its API name, and both are
    looked up under the plain name.
   */
  lemma RateKeyOfApiName(history: seq<Json>, mapName: string)
    requires mapName in AvailableMaps
    ensures RemoveAll(ApiMapName(mapName), "Hex") == mapName
    ensures RemoveAll(mapName, "Hex") == mapName
    ensures CasualtiesPerHour(history, ApiMapName(mapName)) == CasualtiesPerHour(history, mapName)
  {
    AvailableMapNameIsPlain(mapName);
    StripHexSuffix(mapName);
    RemoveAllAbsent(mapName, "Hex");
  }

  /** Two hourly snapshots of one map whose colonial counter grew from 10 to 40 give the rate `(30, 0)`. */
  lemma RateExample()
    ensures var foo1 := JObject(map["colonialCasualties" := JInt(10), "wardenCasualties" := JInt(5)]);
            var foo2 := JObject(map["colonialCasualties" := JInt(40), "wardenCasualties" := JInt(5)]);
            CasualtiesPerHour([JObject(map["Foo" := foo1]), JObject(map["Foo" := foo2])], "Foo") == Success(Rate(30, 0))
  {
    assert RemoveAll("Foo", "Hex") == "Foo";
  }

  /** `get_activity_indicator`: the tier of the summed rate. */
  function ActivityIndicator(rate: Rate): (r: string)
    ensures r == "" || (|r| == 1 && IsIndicator(r[0]))
    ensures r == "" <==> rate.colonial + rate.warden < 50
  {
    var total := rate.colonial + rate.warden;
    if total >= 1001 then [RedDot]
    else if total >= 501 then [OrangeDot]
    else if total >= 50 then [YellowDot]
    else ""
  }

  /** The rank of an indicator: none, yellow, orange, red. */
  function ActivityLevel(indicator: string): nat {
    if indicator == [RedDot] then 3
    else if indicator == [OrangeDot] then 2
    else if indicator == [YellowDot] then 1
    else 0
  }

  /** The indicator never drops when the total grows, and its tiers start at 50, 501 and 1001. */
  lemma ActivityIsMonotone(a: Rate, b: Rate)
    requires a.colonial + a.warden <= b.colonial + b.warden
    ensures ActivityLevel(ActivityIndicator(a)) <= ActivityLevel(ActivityIndicator(b))
  {
  }

  lemma ActivityThresholds(rate: Rate)
    ensures var total := rate.colonial + rate.warden; var level := ActivityLevel(ActivityIndicator(rate));
            (level == 3 <==> total >= 1001) &&
            (level == 2 <==> 501 <= total <= 1000) &&
            (level == 1 <==> 50 <= total <= 500) &&
            (level == 0 <==> total < 50)
  {
  }

  /**
    The colours of the two rate labels: a faction's number is red when it
    lost more than the other, green otherwise; so at most one is red, and
    both are green on a tie.
   */
  function RateColors(rate: Rate): (colors: (string, string))
    ensures colors.0 == "red" <==> rate.colonial > rate.warden
    ensures colors.1 == "red" <==> rate.warden > rate.colonial
    ensures colors.0 in {"red", "green"} && colors.1 in {"red", "green"}
  {
    (if rate.colonial > rate.warden then "red" else "green",
     if rate.warden > rate.colonial then "red" else "green")
  }

  lemma RateColorsNeverBothRed(rate: Rate)
    ensures !(RateColors(rate).0 == "red" && RateColors(rate).1 == "red")
    ensures RateColors(rate).0 == RateColors(rate).1 <==> rate.colonial == rate.warden
  {
  }

  // ---------------------------------------------------------------------
  // Structures per faction
  // ---------------------------------------------------------------------

  datatype Counts = Counts(wardens: nat, colonials: nat)

  /** The exceptions the count can raise on odd map data. */
  datatype CountError =
    | TypeError   // a value of the wrong kind is tested, indexed or iterated
    | KeyError    // an item without `teamId`

  /**
    The items the counting loop visits: none when the data is falsy or has
    no `mapItems` (the early return), otherwise what iterating
    `map_data['mapItems']` yields.
   */
  function ItemsToCount(mapData: Json): (r: Result<seq<Json>, CountError>)
    ensures !Truthy(mapData) ==> r == Success([])
    ensures mapData.JObject? && "mapItems" !in mapData.fields ==> r == Success([])
    ensures mapData.JObject? && "mapItems" in mapData.fields && mapData.fields["mapItems"].JArray? ==>
              r == Success(mapData.fields["mapItems"].items)
  {
    if !Truthy(mapData) then Success([])
    else match mapData
      case JObject(fields) =>
        if "mapItems" !in fields then Success([]) else Iterate(fields["mapItems"])
      case JArray(xs) =>
        // `'mapItems' in list` looks for an equal element; indexing a list by a string raises
        if JStr("mapItems") in xs then Failure(TypeError) else Success([])
      case JStr(s) =>
        // `'mapItems' in str` looks for a substring; indexing a string by a string raises
        if Occurs("mapItems", s) then Failure(TypeError) else Success([])
      case _ =>
        Failure(TypeError)
  }

  /** What a `for` loop over a decoded value visits, when every visited element can be subscripted by `'teamId'`. */
  function Iterate(v: Json): (r: Result<seq<Json>, CountError>)
    ensures v.JArray? ==> r == Success(v.items)
    ensures !v.JArray? && r.Success? ==> r.value == []
    ensures r.Failure? ==> r.error == TypeError
  {
    match v
    case JArray(xs) => Success(xs)
    // a dict yields its keys and a string its characters: strings, which raise on `['teamId']`
    case JObject(m) => if m == map[] then Success([]) else Failure(TypeError)
    case JStr(s) => if s == [] then Success([]) else Failure(TypeError)
    case _ => Failure(TypeError)
  }

  /** `item['teamId']`. */
  function TeamOf(item: Json): (r: Result<Json, CountError>)
    ensures r.Success? <==> item.JObject? && "teamId" in item.fields
    ensures r.Success? ==> r.value == item.fields["teamId"]
    ensures item.JObject? && r.Failure? ==> r.error == KeyError
  {
    match item
    case JObject(m) => if "teamId" in m then Success(m["teamId"]) else Failure(KeyError)
    case _ => Failure(TypeError)
  }

  const Wardens: string := "WARDENS"
  const Colonials: string := "COLONIALS"

  /** The number of items whose `teamId` is `team`. */
  function CountTeam(items: seq<Json>, team: string): nat
    decreases |items|
  {
    if items == [] then 0
    else CountTeam(items[..|items| - 1], team) + (if TeamOf(items[|items| - 1]) == Success(JStr(team)) then 1 else 0)
  }

  predicate AllHaveTeam(items: seq<Json>) {
    forall i :: 0 <= i < |items| ==> TeamOf(items[i]).Success?
  }

  /** No item is counted for both factions, so the two counts together never exceed the items. */
  lemma {:induction false} CountsWithinItems(items: seq<Json>)
    ensures CountTeam(items, Wardens) + CountTeam(items, Colonials) <= |items|
    decreases |items|
  {
    if items != [] {
      CountsWithinItems(items[..|items| - 1]);
    }
  }

  /** Counting one more item. */
  lemma CountStep(xs: seq<Json>, i: nat)
    requires i < |xs|
    ensures AllHaveTeam(xs[..i + 1]) <==> AllHaveTeam(xs[..i]) && TeamOf(xs[i]).Success?
    ensures forall team :: CountTeam(xs[..i + 1], team) ==
              CountTeam(xs[..i], team) + (if TeamOf(xs[i]) == Success(JStr(team)) then 1 else 0)
  {
    assert xs[..i + 1][..i] == xs[..i];
  }

  /**
    `count_structures`: the number of map items held by each faction. Items
    of any other team are ignored; data that is falsy or has no `mapItems`
    counts zero for both; an item without a `teamId` raises.
   */
  method CountStructures(mapData: Json) returns (r: Result<Counts, CountError>)
    ensures ItemsToCount(mapData).Failure? ==> r.Failure?
    ensures ItemsToCount(mapData).Success? ==>
              (r.Success? <==> AllHaveTeam(ItemsToCount(mapData).value))
    ensures r.Success? ==> (ItemsToCount(mapData).Success? &&
              r.value == Counts(CountTeam(ItemsToCount(mapData).value, Wardens),
                                CountTeam(ItemsToCount(mapData).value, Colonials)))
    ensures r.Success? ==> r.value.wardens + r.value.colonials <= |ItemsToCount(mapData).value|
  {
    var items := ItemsToCount(mapData);
    if items.Failure? {
      return Failure(items.error);
    }
    var xs := items.value;
    var wardens, colonials := 0, 0;
    for i := 0 to |xs|
      invariant AllHaveTeam(xs[..i])
      invariant wardens == CountTeam(xs[..i], Wardens) && colonials == CountTeam(xs[..i], Colonials)
    {
      CountStep(xs, i);
      var team := TeamOf(xs[i]);
      if team.Failure? {
        assert !AllHaveTeam(xs);
        return Failure(team.error);
      }
      if team.value == JStr(Wardens) {
        wardens := wardens + 1;
      } else if team.value == JStr(Colonials) {
        colonials := colonials + 1;
      }
    }
    assert xs[..|xs|] == xs;
    CountsWithinItems(xs);
    r := Success(Counts(wardens, colonials));
  }

  /** The colour of a map in the list: the faction holding more structures, black on a tie. */
  function FactionColor(counts: Counts): (color: string)
    ensures color == "blue" <==> counts.wardens > counts.colonials
    ensures color == "green" <==> counts.colonials > counts.wardens
    ensures color == "black" <==> counts.wardens == counts.colonials
  {
    if counts.wardens > counts.colonials then "blue"
    else if counts.colonials > counts.wardens then "green"
    else "black"
  }

  // ---------------------------------------------------------------------
  // The report history of the window
  // ---------------------------------------------------------------------

  /** The window keeps two hours of ten-minute snapshots. */
  const ViewerHistoryLimit: nat := 12

  /**
    Loading the history at start-up: a missing file or one that is not JSON
    gives an empty history; any other failure is not caught, and a document
    whose `reports` is not a list fails at the first append, which the
    constructor itself performs.
   */
  function ViewerLoad(read: FileRead): (r: Result<seq<Json>, LoadError>)
    ensures read == Missing || read == Read(None) ==> r == Success([])
  {
    match read
    case Missing => Success([])
    case Unreadable => Failure(IoFailure)
    case Read(None) => Success([])
    case Read(Some(JObject(fields))) => ReportsField(fields)
    case Read(Some(_)) => Failure(NotAnObject)
  }

  /** What the window writes is what it reads back. */
  lemma ViewerLoadRoundTrip(reports: seq<Json>)
    ensures ViewerLoad(Read(Some(Document(reports)))) == Success(reports)
  {
  }

  /**
    Appending a snapshot: the snapshot goes last, the existing order is kept,
    and exactly one entry leaves the front when the list grows past twelve.
   */
  function ViewerAppend(history: seq<Json>, snapshot: Json): (r: seq<Json>)
    ensures |r| > 0 && r[|r| - 1] == snapshot
    ensures |r| == if |history| >= ViewerHistoryLimit then |history| else |history| + 1
    ensures r == (history + [snapshot])[|history| + 1 - |r|..]
  {
    var appended := history + [snapshot];
    if |appended| > ViewerHistoryLimit then appended[1..] else appended
  }

  /**
    For a history of at most twelve entries, appending is keeping the last
    twelve; a longer history (possible after loading a file written by a
    program with a longer window) only loses one entry per append.
   */
  lemma ViewerAppendIsWindow(history: seq<Json>, snapshot: Json)
    ensures |history| <= ViewerHistoryLimit ==>
              ViewerAppend(history, snapshot) == LastN(history + [snapshot], ViewerHistoryLimit)
    ensures |history| > ViewerHistoryLimit ==> |ViewerAppend(history, snapshot)| == |history|
  {
  }

  /** The history after appending each of `snapshots` in turn. */
  function AppendAll(history: seq<Json>, snapshots: seq<Json>): seq<Json>
    decreases |snapshots|
  {
    if snapshots == [] then history
    else ViewerAppend(AppendAll(history, snapshots[..|snapshots| - 1]), snapshots[|snapshots| - 1])
  }

  /**
    After any number of ticks from a history of at most twelve entries, the
    history is the last twelve of everything appended after it: its length
    is `min(n + k, 12)` and it ends with the latest snapshot.
   */
  lemma {:induction false} ViewerHistoryIsLastTwelve(history: seq<Json>, snapshots: seq<Json>)
    requires |history| <= ViewerHistoryLimit
    ensures AppendAll(history, snapshots) == LastN(history + snapshots, ViewerHistoryLimit)
    ensures |AppendAll(history, snapshots)| <= ViewerHistoryLimit
    decreases |snapshots|
  {
    if snapshots == [] {
      assert history + snapshots == history;
    } else {
      ViewerHistoryIsLastTwelve(history, snapshots[..|snapshots| - 1]);
      LastTwelveStep(history, snapshots);
    }
  }

  /** One more append keeps the history the last twelve of everything appended. */
  lemma LastTwelveStep(history: seq<Json>, snapshots: seq<Json>)
    requires snapshots != []
    requires AppendAll(history, snapshots[..|snapshots| - 1]) ==
             LastN(history + snapshots[..|snapshots| - 1], ViewerHistoryLimit)
    ensures AppendAll(history, snapshots) == LastN(history + snapshots, ViewerHistoryLimit)
  {
    var n := |snapshots| - 1;
    AppendAllLast(history, snapshots);
    AppendToWindow(AppendAll(history, snapshots[..n]), history + snapshots[..n], snapshots[n]);
    SplitLast(history, snapshots);
  }

  lemma AppendAllLast(history: seq<Json>, snapshots: seq<Json>)
    requires snapshots != []
    ensures AppendAll(history, snapshots) ==
            ViewerAppend(AppendAll(history, snapshots[..|snapshots| - 1]), snapshots[|snapshots| - 1])
  {
  }

  /** Appending to the last twelve of a list is keeping the last twelve of the longer list. */
  lemma AppendToWindow(window: seq<Json>, s: seq<Json>, x: Json)
    requires window == LastN(s, ViewerHistoryLimit)
    ensures ViewerAppend(window, x) == LastN(s + [x], ViewerHistoryLimit)
  {
    ViewerAppendIsWindow(window, x);
    LastNAppend(s, x, ViewerHistoryLimit);
  }

  /** The main window's state: the report history it keeps between ticks. */
  class MapViewer {
    var previousWarReports: seq<Json>

    /** The history load of `MapViewer.__init__`. */
    constructor (read: FileRead)
      requires ViewerLoad(read).Success?
      ensures previousWarReports == ViewerLoad(read).value
    {
      previousWarReports := ViewerLoad(read).value;
    }

    /**
      `MapViewer.update_war_reports`, data part: builds the tick's snapshot
      from the per-map fetch outcomes (`outcomes[i]` is the outcome for
      `AvailableMaps[i]`), appends it, drops the oldest entry past twelve,
      and returns the document it writes.
     */
    method UpdateWarReports(outcomes: seq<ApiClient.Outcome>) returns (written: Json)
      requires |outcomes| == |AvailableMaps|
      modifies this
      ensures previousWarReports == ViewerAppend(old(previousWarReports), JObject(SnapshotOf(AvailableMaps, outcomes)))
      ensures |old(previousWarReports)| <= ViewerHistoryLimit ==> |previousWarReports| <= ViewerHistoryLimit
      ensures previousWarReports[..|previousWarReports| - 1] == old(previousWarReports)[|old(previousWarReports)| + 1 - |previousWarReports|..]
      ensures written == Document(previousWarReports)
    {
      var current := CollectSnapshot(AvailableMaps, outcomes);
      previousWarReports := previousWarReports + [JObject(current)];
      if |previousWarReports| > ViewerHistoryLimit {
        previousWarReports := previousWarReports[1..];
      }
      written := Document(previousWarReports);
    }
  }
}
