/**
  What the viewer and the two server scripts share about war reports: the
  list of maps, the API name of a map, the per-tick snapshot (map name to
  war report) built from the outcomes of one round of fetches, the
  `{"reports": [...]}` document kept on disk, and reading it back.

  A history is a list of decoded JSON values, because the file may hold
  anything; the snapshots the programs append are objects.
 */
module WarReports {
  import opened Wrappers
  import opened Json
  import opened Text
  import ApiClient

  type Snapshot = map<string, Json>

  /**
    `AVAILABLE_MAPS`, identical in main.py, server/app.py and
    server/update_war_reports.py, in the same order; written here in groups of
    three so that facts about every name can be checked group by group.
   */
  const AvailableMaps: seq<string> :=
    MapGroup0 + MapGroup1 + MapGroup2 + MapGroup3 + MapGroup4 + MapGroup5 + MapGroup6 + MapGroup7
    + MapGroup8 + MapGroup9 + MapGroup10 + MapGroup11 + MapGroup12 + MapGroup13 + MapGroup14

  const MapGroup0: seq<string> := ["Acrithia", "AllodsBight", "AshFields"]
  const MapGroup1: seq<string> := ["BasinSionnach", "CallahansPassage", "CallumsCape"]
  const MapGroup2: seq<string> := ["Clahstra", "ClansheadValley", "DeadLands"]
  const MapGroup3: seq<string> := ["DrownedVale", "EndlessShore", "FarranacCoast"]
  const MapGroup4: seq<string> := ["FishermansRow", "Godcrofts", "GreatMarch"]
  const MapGroup5: seq<string> := ["Heartlands", "HowlCounty", "Kalokai"]
  const MapGroup6: seq<string> := ["KingsCage", "LinnMercy", "LochMor"]
  const MapGroup7: seq<string> := ["MarbanHollow", "MooringCounty", "MorgensCrossing"]
  const MapGroup8: seq<string> := ["NevishLine", "Oarbreaker", "Origin"]
  const MapGroup9: seq<string> := ["ReachingTrail", "ReaversPass", "RedRiver"]
  const MapGroup10: seq<string> := ["Sableport", "ShackledChasm", "SpeakingWoods"]
  const MapGroup11: seq<string> := ["StemaLanding", "StlicanShelf", "Stonecradle"]
  const MapGroup12: seq<string> := ["TempestIsland", "Terminus", "TheFingers"]
  const MapGroup13: seq<string> := ["UmbralWildwood", "ViperPit", "WeatheredExpanse"]
  const MapGroup14: seq<string> := ["Westgate"]

  const Marban: string := "MarbanHollow"

  /** `get_api_map_name` of the server scripts: every map but MarbanHollow is known to the API with a `Hex` suffix. */
  function ApiMapName(mapName: string): (r: string)
    ensures r == Marban || (|r| >= 3 && r[|r| - 3..] == "Hex")
  {
    if mapName == Marban then mapName else mapName + "Hex"
  }

  /** Different maps have different API names, so their endpoints never share a cache entry. */
  lemma ApiMapNameInjective(a: string, b: string)
    requires ApiMapName(a) == ApiMapName(b)
    ensures a == b
  {
    var ra, rb := ApiMapName(a), ApiMapName(b);
    assert Marban[|Marban| - 1] == 'w';
    if a != Marban {
      assert ra[|ra| - 1] == 'x';
    }
    if b != Marban {
      assert rb[|rb| - 1] == 'x';
    }
    if a != Marban && b != Marban {
      assert a == ra[..|ra| - 3] && b == rb[..|rb| - 3];
    }
  }

  /** Removing every `Hex` from the API name of a map whose own name has none gives the map name back. */
  lemma {:induction false} StripHexSuffix(mapName: string)
    requires !Occurs("Hex", mapName)
    ensures RemoveAll(mapName + "Hex", "Hex") == mapName
    ensures RemoveAll(ApiMapName(mapName), "Hex") == mapName
    decreases |mapName|
  {
    var s := mapName + "Hex";
    if mapName == [] {
      assert s[..3] == "Hex" && s[3..] == [];
    } else {
      HexNotAtFront(mapName);
      assert s[1..] == mapName[1..] + "Hex";
      if Occurs("Hex", mapName[1..]) {
        OccursInTail("Hex", mapName);
        assert false;
      }
      StripHexSuffix(mapName[1..]);
      assert [mapName[0]] + mapName[1..] == mapName;
    }
    if mapName == Marban {
      RemoveAllAbsent(mapName, "Hex");
    }
  }

  /** A non-empty name without `Hex` followed by `Hex` does not start with `Hex`. */
  lemma HexNotAtFront(mapName: string)
    requires mapName != [] && !Occurs("Hex", mapName)
    ensures (mapName + "Hex")[..3] != "Hex"
  {
    var s := mapName + "Hex";
    if |mapName| >= 3 {
      assert s[..3] == mapName[..3];
      if mapName[..3] == "Hex" {
        assert OccursAt("Hex", mapName, 0);
        assert false;
      }
    } else {
      assert s[|mapName|] == 'H';
    }
  }

  /** An occurrence of `Hex` needs both an `H` and an `x`. */
  lemma HexNeedsBothLetters(s: string)
    requires Occurs("Hex", s)
    ensures 'H' in s && 'x' in s
  {
    var i :| 0 <= i <= |s| && OccursAt("Hex", s, i);
    assert s[i] == s[i..i + 3][0] == 'H';
    assert s[i + 2] == s[i..i + 3][2] == 'x';
  }

  /** A map name that cannot contain `Hex`, made of ASCII letters only. */
  predicate PlainMapName(m: string) {
    ('H' !in m || 'x' !in m) && forall i :: 0 <= i < |m| ==> IsAsciiLetter(m[i])
  }

  lemma PlainGroup0()
    ensures forall m :: m in MapGroup0 ==> PlainMapName(m)
  {
  }

  lemma PlainGroup1()
    ensures forall m :: m in MapGroup1 ==> PlainMapName(m)
  {
  }

  lemma PlainGroup2()
    ensures forall m :: m in MapGroup2 ==> PlainMapName(m)
  {
  }

  lemma PlainGroup3()
    ensures forall m :: m in MapGroup3 ==> PlainMapName(m)
  {
  }

  lemma PlainGroup4()
    ensures forall m :: m in MapGroup4 ==> PlainMapName(m)
  {
  }

  lemma PlainGroup5()
    ensures forall m :: m in MapGroup5 ==> PlainMapName(m)
  {
  }

  lemma PlainGroup6()
    ensures forall m :: m in MapGroup6 ==> PlainMapName(m)
  {
  }

  lemma PlainGroup7()
    ensures forall m :: m in MapGroup7 ==> PlainMapName(m)
  {
  }

  lemma PlainGroup8()
    ensures forall m :: m in MapGroup8 ==> PlainMapName(m)
  {
  }

  lemma PlainGroup9()
    ensures forall m :: m in MapGroup9 ==> PlainMapName(m)
  {
  }

  lemma PlainGroup10()
    ensures forall m :: m in MapGroup10 ==> PlainMapName(m)
  {
  }

  lemma PlainGroup11()
    ensures forall m :: m in MapGroup11 ==> PlainMapName(m)
  {
  }

  lemma PlainGroup12()
    ensures forall m :: m in MapGroup12 ==> PlainMapName(m)
  {
  }

  lemma PlainGroup13()
    ensures forall m :: m in MapGroup13 ==> PlainMapName(m)
  {
  }

  lemma PlainGroup14()
    ensures forall m :: m in MapGroup14 ==> PlainMapName(m)
  {
  }

  lemma AvailableMapsArePlain()
    ensures forall m :: m in AvailableMaps ==> PlainMapName(m)
  {
    PlainGroup0(); PlainGroup1(); PlainGroup2(); PlainGroup3(); PlainGroup4(); PlainGroup5(); PlainGroup6(); PlainGroup7();
    PlainGroup8(); PlainGroup9(); PlainGroup10(); PlainGroup11(); PlainGroup12(); PlainGroup13(); PlainGroup14();
  }

  /** No map name contains `Hex`, and every one is made of ASCII letters only. */
  lemma AvailableMapNameIsPlain(m: string)
    requires m in AvailableMaps
    ensures !Occurs("Hex", m)
    ensures forall i :: 0 <= i < |m| ==> IsAsciiLetter(m[i])
  {
    AvailableMapsArePlain();
    if Occurs("Hex", m) {
      HexNeedsBothLetters(m);
    }
  }

  /** Whether a per-map outcome ends up in the snapshot: it returned a truthy value (`if report:`). */
  predicate Kept(outcome: ApiClient.Outcome)
    ensures Kept(outcome) ==> outcome.Returned?
    ensures Kept(outcome) ==> outcome.value !in {JNull, JBool(false), JInt(0), JStr([]), JArray([]), EmptyObject}
  {
    outcome.Returned? && Truthy(outcome.value)
  }

  /**
    The snapshot of one tick: `maps[i]` is fetched with outcome `outcomes[i]`
    and enters the snapshot when the fetch returned a truthy report; a map
    whose fetch raised or returned nothing is skipped and the loop goes on.
   */
  function SnapshotOf(maps: seq<string>, outcomes: seq<ApiClient.Outcome>): (snap: Snapshot)
    requires |maps| == |outcomes|
    ensures forall k :: k in snap ==> k in maps
    decreases |maps|
  {
    if maps == [] then map[]
    else
      var n := |maps| - 1;
      var prev := SnapshotOf(maps[..n], outcomes[..n]);
      if Kept(outcomes[n]) then prev[maps[n] := outcomes[n].value] else prev
  }

  /** A map is in the snapshot exactly when some fetch for it returned a truthy report. */
  lemma {:induction false} SnapshotKeys(maps: seq<string>, outcomes: seq<ApiClient.Outcome>, k: string)
    requires |maps| == |outcomes|
    ensures k in SnapshotOf(maps, outcomes) <==> exists i :: 0 <= i < |maps| && maps[i] == k && Kept(outcomes[i])
    decreases |maps|
  {
    if maps != [] {
      var n := |maps| - 1;
      SnapshotKeys(maps[..n], outcomes[..n], k);
      if k in SnapshotOf(maps[..n], outcomes[..n]) {
        var i :| 0 <= i < n && maps[..n][i] == k && Kept(outcomes[..n][i]);
        assert maps[i] == k && Kept(outcomes[i]);
      }
      if exists i :: 0 <= i < |maps| && maps[i] == k && Kept(outcomes[i]) {
        var i :| 0 <= i < |maps| && maps[i] == k && Kept(outcomes[i]);
        if i < n {
          assert maps[..n][i] == k && Kept(outcomes[..n][i]);
        }
      }
    }
  }

  predicate Distinct(maps: seq<string>) {
    forall i, j :: 0 <= i < j < |maps| ==> maps[i] != maps[j]
  }

  /**
    With distinct map names, a map is in the snapshot exactly when its own
    fetch returned a truthy report, and then it maps to that report; what
    happened to the other maps plays no part.
   */
  lemma {:induction false} SnapshotAt(maps: seq<string>, outcomes: seq<ApiClient.Outcome>, i: int)
    requires |maps| == |outcomes| && Distinct(maps) && 0 <= i < |maps|
    ensures maps[i] in SnapshotOf(maps, outcomes) <==> Kept(outcomes[i])
    ensures Kept(outcomes[i]) ==> SnapshotOf(maps, outcomes)[maps[i]] == outcomes[i].value
    decreases |maps|
  {
    var n := |maps| - 1;
    if i < n {
      DistinctPrefix(maps, n);
      SnapshotAt(maps[..n], outcomes[..n], i);
      assert maps[..n][i] == maps[i] && outcomes[..n][i] == outcomes[i];
      assert maps[i] != maps[n];
    }
  }

  /** Strict lexicographic order on strings, comparing characters by code point as Python does. */
  predicate Before(a: string, b: string)
    decreases |a|
  {
    b != [] && (a == [] || a[0] < b[0] || (a[0] == b[0] && Before(a[1..], b[1..])))
  }

  lemma {:induction false} BeforeIrreflexive(a: string)
    ensures !Before(a, a)
    decreases |a|
  {
    if a != [] {
      BeforeIrreflexive(a[1..]);
    }
  }

  lemma {:induction false} BeforeTransitive(a: string, b: string, c: string)
    requires Before(a, b) && Before(b, c)
    ensures Before(a, c)
    decreases |a|
  {
    if a != [] && a[0] == b[0] && b[0] == c[0] {
      BeforeTransitive(a[1..], b[1..], c[1..]);
    }
  }

  /** Each name comes before the next one. */
  predicate Ascending(maps: seq<string>) {
    forall i :: 0 <= i < |maps| - 1 ==> Before(maps[i], maps[i + 1])
  }

  lemma {:induction false} AscendingReaches(maps: seq<string>, i: nat, j: nat)
    requires Ascending(maps) && i < j < |maps|
    ensures Before(maps[i], maps[j])
    decreases j - i
  {
    if i + 1 < j {
      AscendingReaches(maps, i + 1, j);
      BeforeTransitive(maps[i], maps[i + 1], maps[j]);
    }
  }

  /** A list in ascending order has no repeated name. */
  lemma AscendingIsDistinct(maps: seq<string>)
    requires Ascending(maps)
    ensures Distinct(maps)
  {
    forall i, j | 0 <= i < j < |maps| ensures maps[i] != maps[j] {
      AscendingReaches(maps, i, j);
      BeforeIrreflexive(maps[i]);
    }
  }

  lemma AscendingJoin(a: seq<string>, b: seq<string>)
    requires Ascending(a) && Ascending(b) && a != [] && b != [] && Before(a[|a| - 1], b[0])
    ensures Ascending(a + b)
  {
    forall i | 0 <= i < |a + b| - 1 ensures Before((a + b)[i], (a + b)[i + 1]) {
      if i + 1 < |a| {
        assert (a + b)[i] == a[i] && (a + b)[i + 1] == a[i + 1];
      } else if i + 1 == |a| {
        assert (a + b)[i] == a[|a| - 1] && (a + b)[i + 1] == b[0];
      } else {
        assert (a + b)[i] == b[i - |a|] && (a + b)[i + 1] == b[i - |a| + 1];
      }
    }
  }

  /** `AVAILABLE_MAPS` is in alphabetical order, so no map is listed twice. */
  lemma AvailableMapsAreDistinct()
    ensures Ascending(AvailableMaps) && Distinct(AvailableMaps)
  {
    assert Ascending(MapGroup0);
    AscendingStep1(MapGroup0);
    AscendingStep2(MapGroup0 + MapGroup1);
    AscendingStep3(MapGroup0 + MapGroup1 + MapGroup2);
    AscendingStep4(MapGroup0 + MapGroup1 + MapGroup2 + MapGroup3);
    AscendingStep5(MapGroup0 + MapGroup1 + MapGroup2 + MapGroup3 + MapGroup4);
    AscendingStep6(MapGroup0 + MapGroup1 + MapGroup2 + MapGroup3 + MapGroup4 + MapGroup5);
    AscendingStep7(MapGroup0 + MapGroup1 + MapGroup2 + MapGroup3 + MapGroup4 + MapGroup5 + MapGroup6);
    AscendingStep8(MapGroup0 + MapGroup1 + MapGroup2 + MapGroup3 + MapGroup4 + MapGroup5 + MapGroup6 + MapGroup7);
    AscendingStep9(MapGroup0 + MapGroup1 + MapGroup2 + MapGroup3 + MapGroup4 + MapGroup5 + MapGroup6 + MapGroup7 + MapGroup8);
    AscendingStep10(MapGroup0 + MapGroup1 + MapGroup2 + MapGroup3 + MapGroup4 + MapGroup5 + MapGroup6 + MapGroup7 + MapGroup8 + MapGroup9);
    AscendingStep11(MapGroup0 + MapGroup1 + MapGroup2 + MapGroup3 + MapGroup4 + MapGroup5 + MapGroup6 + MapGroup7 + MapGroup8 + MapGroup9 + MapGroup10);
    AscendingStep12(MapGroup0 + MapGroup1 + MapGroup2 + MapGroup3 + MapGroup4 + MapGroup5 + MapGroup6 + MapGroup7 + MapGroup8 + MapGroup9 + MapGroup10 + MapGroup11);
    AscendingStep13(MapGroup0 + MapGroup1 + MapGroup2 + MapGroup3 + MapGroup4 + MapGroup5 + MapGroup6 + MapGroup7 + MapGroup8 + MapGroup9 + MapGroup10 + MapGroup11 + MapGroup12);
    AscendingStep14(MapGroup0 + MapGroup1 + MapGroup2 + MapGroup3 + MapGroup4 + MapGroup5 + MapGroup6 + MapGroup7 + MapGroup8 + MapGroup9 + MapGroup10 + MapGroup11 + MapGroup12 + MapGroup13);
    AscendingIsDistinct(AvailableMaps);
  }

  /** The groups before `MapGroup1`, which end at the named map, stay in order with it appended. */
  lemma AscendingStep1(prefix: seq<string>)
    requires Ascending(prefix) && prefix != [] && prefix[|prefix| - 1] == "AshFields"
    ensures Ascending(prefix + MapGroup1) && (prefix + MapGroup1)[|prefix + MapGroup1| - 1] == "CallumsCape"
  {
    assert Ascending(MapGroup1);
    AscendingJoin(prefix, MapGroup1);
  }

  /** The groups before `MapGroup2`, which end at the named map, stay in order with it appended. */
  lemma AscendingStep2(prefix: seq<string>)
    requires Ascending(prefix) && prefix != [] && prefix[|prefix| - 1] == "CallumsCape"
    ensures Ascending(prefix + MapGroup2) && (prefix + MapGroup2)[|prefix + MapGroup2| - 1] == "DeadLands"
  {
    assert Ascending(MapGroup2);
    AscendingJoin(prefix, MapGroup2);
  }

  /** The groups before `MapGroup3`, which end at the named map, stay in order with it appended. */
  lemma AscendingStep3(prefix: seq<string>)
    requires Ascending(prefix) && prefix != [] && prefix[|prefix| - 1] == "DeadLands"
    ensures Ascending(prefix + MapGroup3) && (prefix + MapGroup3)[|prefix + MapGroup3| - 1] == "FarranacCoast"
  {
    assert Ascending(MapGroup3);
    AscendingJoin(prefix, MapGroup3);
  }

  /** The groups before `MapGroup4`, which end at the named map, stay in order with it appended. */
  lemma AscendingStep4(prefix: seq<string>)
    requires Ascending(prefix) && prefix != [] && prefix[|prefix| - 1] == "FarranacCoast"
    ensures Ascending(prefix + MapGroup4) && (prefix + MapGroup4)[|prefix + MapGroup4| - 1] == "GreatMarch"
  {
    assert Ascending(MapGroup4);
    AscendingJoin(prefix, MapGroup4);
  }

  /** The groups before `MapGroup5`, which end at the named map, stay in order with it appended. */
  lemma AscendingStep5(prefix: seq<string>)
    requires Ascending(prefix) && prefix != [] && prefix[|prefix| - 1] == "GreatMarch"
    ensures Ascending(prefix + MapGroup5) && (prefix + MapGroup5)[|prefix + MapGroup5| - 1] == "Kalokai"
  {
    assert Ascending(MapGroup5);
    AscendingJoin(prefix, MapGroup5);
  }

  /** The groups before `MapGroup6`, which end at the named map, stay in order with it appended. */
  lemma AscendingStep6(prefix: seq<string>)
    requires Ascending(prefix) && prefix != [] && prefix[|prefix| - 1] == "Kalokai"
    ensures Ascending(prefix + MapGroup6) && (prefix + MapGroup6)[|prefix + MapGroup6| - 1] == "LochMor"
  {
    assert Ascending(MapGroup6);
    AscendingJoin(prefix, MapGroup6);
  }

  /** The groups before `MapGroup7`, which end at the named map, stay in order with it appended. */
  lemma AscendingStep7(prefix: seq<string>)
    requires Ascending(prefix) && prefix != [] && prefix[|prefix| - 1] == "LochMor"
    ensures Ascending(prefix + MapGroup7) && (prefix + MapGroup7)[|prefix + MapGroup7| - 1] == "MorgensCrossing"
  {
    assert Ascending(MapGroup7);
    AscendingJoin(prefix, MapGroup7);
  }

  /** The groups before `MapGroup8`, which end at the named map, stay in order with it appended. */
  lemma AscendingStep8(prefix: seq<string>)
    requires Ascending(prefix) && prefix != [] && prefix[|prefix| - 1] == "MorgensCrossing"
    ensures Ascending(prefix + MapGroup8) && (prefix + MapGroup8)[|prefix + MapGroup8| - 1] == "Origin"
  {
    assert Ascending(MapGroup8);
    AscendingJoin(prefix, MapGroup8);
  }

  /** The groups before `MapGroup9`, which end at the named map, stay in order with it appended. */
  lemma AscendingStep9(prefix: seq<string>)
    requires Ascending(prefix) && prefix != [] && prefix[|prefix| - 1] == "Origin"
    ensures Ascending(prefix + MapGroup9) && (prefix + MapGroup9)[|prefix + MapGroup9| - 1] == "RedRiver"
  {
    assert Ascending(MapGroup9);
    AscendingJoin(prefix, MapGroup9);
  }

  /** The groups before `MapGroup10`, which end at the named map, stay in order with it appended. */
  lemma AscendingStep10(prefix: seq<string>)
    requires Ascending(prefix) && prefix != [] && prefix[|prefix| - 1] == "RedRiver"
    ensures Ascending(prefix + MapGroup10) && (prefix + MapGroup10)[|prefix + MapGroup10| - 1] == "SpeakingWoods"
  {
    assert Ascending(MapGroup10);
    AscendingJoin(prefix, MapGroup10);
  }

  /** The groups before `MapGroup11`, which end at the named map, stay in order with it appended. */
  lemma AscendingStep11(prefix: seq<string>)
    requires Ascending(prefix) && prefix != [] && prefix[|prefix| - 1] == "SpeakingWoods"
    ensures Ascending(prefix + MapGroup11) && (prefix + MapGroup11)[|prefix + MapGroup11| - 1] == "Stonecradle"
  {
    assert Ascending(MapGroup11);
    AscendingJoin(prefix, MapGroup11);
  }

  /** The groups before `MapGroup12`, which end at the named map, stay in order with it appended. */
  lemma AscendingStep12(prefix: seq<string>)
    requires Ascending(prefix) && prefix != [] && prefix[|prefix| - 1] == "Stonecradle"
    ensures Ascending(prefix + MapGroup12) && (prefix + MapGroup12)[|prefix + MapGroup12| - 1] == "TheFingers"
  {
    assert Ascending(MapGroup12);
    AscendingJoin(prefix, MapGroup12);
  }

  /** The groups before `MapGroup13`, which end at the named map, stay in order with it appended. */
  lemma AscendingStep13(prefix: seq<string>)
    requires Ascending(prefix) && prefix != [] && prefix[|prefix| - 1] == "TheFingers"
    ensures Ascending(prefix + MapGroup13) && (prefix + MapGroup13)[|prefix + MapGroup13| - 1] == "WeatheredExpanse"
  {
    assert Ascending(MapGroup13);
    AscendingJoin(prefix, MapGroup13);
  }

  /** The groups before `MapGroup14`, which end at the named map, stay in order with it appended. */
  lemma AscendingStep14(prefix: seq<string>)
    requires Ascending(prefix) && prefix != [] && prefix[|prefix| - 1] == "WeatheredExpanse"
    ensures Ascending(prefix + MapGroup14) && (prefix + MapGroup14)[|prefix + MapGroup14| - 1] == "Westgate"
  {
    assert Ascending(MapGroup14);
    AscendingJoin(prefix, MapGroup14);
  }

  lemma DistinctPrefix(maps: seq<string>, n: nat)
    requires Distinct(maps) && n <= |maps|
    ensures Distinct(maps[..n])
  {
    forall a, b | 0 <= a < b < n ensures maps[..n][a] != maps[..n][b] {
      assert maps[..n][a] == maps[a] && maps[..n][b] == maps[b];
    }
  }

  /**
    A failing fetch costs exactly its own map: turning the outcome of map `j`
    into a failure removes `maps[j]` from the snapshot and nothing else.
   */
  lemma {:induction false} FailureIsIsolated(maps: seq<string>, outcomes: seq<ApiClient.Outcome>, j: int,
                                            f: ApiClient.Failure)
    requires |maps| == |outcomes| && Distinct(maps) && 0 <= j < |maps|
    ensures SnapshotOf(maps, outcomes[j := ApiClient.Raised(f)]) == SnapshotOf(maps, outcomes) - {maps[j]}
  {
    var a, b := SnapshotOf(maps, outcomes[j := ApiClient.Raised(f)]), SnapshotOf(maps, outcomes) - {maps[j]};
    forall k | k in a ensures k in b && a[k] == b[k] {
      var i :| 0 <= i < |maps| && maps[i] == k;
      IsolatedAt(maps, outcomes, j, f, i);
    }
    forall k | k in b ensures k in a {
      var i :| 0 <= i < |maps| && maps[i] == k;
      IsolatedAt(maps, outcomes, j, f, i);
    }
  }

  /** `FailureIsIsolated` at one map. */
  lemma IsolatedAt(maps: seq<string>, outcomes: seq<ApiClient.Outcome>, j: int, f: ApiClient.Failure, i: int)
    requires |maps| == |outcomes| && Distinct(maps) && 0 <= j < |maps| && 0 <= i < |maps|
    ensures var a, b := SnapshotOf(maps, outcomes[j := ApiClient.Raised(f)]), SnapshotOf(maps, outcomes) - {maps[j]};
            && (maps[i] in a <==> maps[i] in b)
            && (maps[i] in a ==> a[maps[i]] == b[maps[i]])
  {
    var outs' := outcomes[j := ApiClient.Raised(f)];
    SnapshotAt(maps, outs', i);
    SnapshotAt(maps, outcomes, i);
    assert i != j ==> maps[i] != maps[j];
  }

  /**
    The per-map loop of every `update_war_reports`: fills the snapshot map by
    map, skipping the maps whose fetch raised or returned a falsy value.
   */
  method CollectSnapshot(maps: seq<string>, outcomes: seq<ApiClient.Outcome>) returns (snap: Snapshot)
    requires |maps| == |outcomes|
    ensures snap == SnapshotOf(maps, outcomes)
    ensures forall k :: k in snap ==> k in maps
  {
    snap := map[];
    for i := 0 to |maps|
      invariant snap == SnapshotOf(maps[..i], outcomes[..i])
    {
      assert maps[..i + 1][..i] == maps[..i] && outcomes[..i + 1][..i] == outcomes[..i];
      var outcome := outcomes[i];
      if outcome.Returned? && Truthy(outcome.value) {
        snap := snap[maps[i] := outcome.value];
      }
    }
    assert maps[..|maps|] == maps && outcomes[..|outcomes|] == outcomes;
  }

  /** Python's `s[-n:]` for `n > 0`: the last `n` elements, or all of them when there are fewer. */
  function LastN<T>(s: seq<T>, n: nat): (r: seq<T>)
    requires n > 0
    ensures |r| == if |s| < n then |s| else n
    ensures r == s[|s| - |r|..]
  {
    if |s| <= n then s else s[|s| - n..]
  }

  /** Keeping the last `n` of a list that already had its last `n` kept, after one more append, is keeping the last `n` of the whole. */
  lemma LastNAppend<T>(s: seq<T>, x: T, n: nat)
    requires n > 0
    ensures LastN(LastN(s, n) + [x], n) == LastN(s + [x], n)
  {
    var t := LastN(s, n);
    assert t + [x] == (s + [x])[|s| - |t|..];
  }

  /**
    Appending one entry and keeping the last `n`: the entry ends the result,
    which is never longer than `n`, and what precedes it is the newest part
    of the old list, in order.
   */
  lemma LastNKeepsNewest<T>(s: seq<T>, x: T, n: nat)
    requires n > 0
    ensures var r := LastN(s + [x], n);
            && 0 < |r| <= n && |r| <= |s| + 1
            && r[|r| - 1] == x
            && r[..|r| - 1] == s[|s| + 1 - |r|..]
  {
    var r := LastN(s + [x], n);
    assert r[..|r| - 1] == s[|s| + 1 - |r|..];
  }

  /** Splitting off the last element of the appended part. */
  lemma SplitLast<T>(s: seq<T>, t: seq<T>)
    requires t != []
    ensures (s + t[..|t| - 1]) + [t[|t| - 1]] == s + t
  {
    assert t == t[..|t| - 1] + [t[|t| - 1]];
  }

  lemma AppendAssoc<T>(a: seq<T>, b: seq<T>, c: seq<T>)
    ensures (a + b) + c == a + (b + c)
  {
  }

  /** The document every program writes: `{"reports": reports}`. */
  function Document(reports: seq<Json>): (doc: Json)
    ensures doc.JObject? && doc.fields.Keys == {"reports"} && doc.fields["reports"] == JArray(reports)
  {
    JObject(map["reports" := JArray(reports)])
  }

  /**
    The result of opening and decoding the history file: it is missing, it
    cannot be read for another reason, or it was read and `parsed` is the
    decoded document (`None` when the text is not valid JSON).
   */
  datatype FileRead = Missing | Unreadable | Read(parsed: Option<Json>)

  /** Why a loaded history cannot be used. */
  datatype LoadError =
    | IoFailure         // an `OSError` other than a missing file
    | NotAnObject       // the document has no `.get` (it is not a dict)
    | ReportsNotAList   // `reports` is there but is not a list, so `.append` fails

  /** `data.get('reports', [])` of a decoded document that is a dict, as a list of entries. */
  function ReportsField(doc: map<string, Json>): (r: Result<seq<Json>, LoadError>)
    ensures r.Success? <==> "reports" !in doc || doc["reports"].JArray?
    ensures "reports" !in doc ==> r == Success([])
    ensures "reports" in doc && r.Success? ==> r.value == doc["reports"].items
    ensures r.Failure? ==> r.error == ReportsNotAList
  {
    match Get(doc, "reports", JArray([]))
    case JArray(xs) => Success(xs)
    case _ => Failure(ReportsNotAList)
  }

  /** Reading back what was written gives the same list of reports. */
  lemma ReportsRoundTrip(reports: seq<Json>)
    ensures Document(reports).JObject? && ReportsField(Document(reports).fields) == Success(reports)
  {
  }
}
