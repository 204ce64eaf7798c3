/**
  The older server updater (server/update_war_reports.py): each tick it
  fetches every map's war report and overwrites the file with a history of
  one entry, the tick's snapshot.
 */
module Updater {
  import opened Wrappers
  import opened Json
  import opened WarReports
  import ApiClient
  import ServerApp
  import Viewer

  /**
    `update_war_reports` of server/update_war_reports.py: `outcomes[i]` is
    the outcome of fetching the report of `AvailableMaps[i]`; the result is
    the document written, whatever the file held before.
   */
  method UpdateWarReports(outcomes: seq<ApiClient.Outcome>) returns (written: Json)
    requires |outcomes| == |AvailableMaps|
    ensures ServerApp.ServerLoad(Read(Some(written))) == Success([JObject(SnapshotOf(AvailableMaps, outcomes))])
    ensures Viewer.ViewerLoad(Read(Some(written))) == Success([JObject(SnapshotOf(AvailableMaps, outcomes))])
  {
    var current := CollectSnapshot(AvailableMaps, outcomes);
    written := Document([JObject(current)]);
    ServerApp.ServerLoadRoundTrip([JObject(current)]);
    Viewer.ViewerLoadRoundTrip([JObject(current)]);
  }

  /**
    The updater's file is a valid history for the collector of
    server/app.py: a tick that reads it writes the old snapshot followed by
    the new one.
   */
  lemma CollectorExtendsUpdaterFile(first: Snapshot, next: Snapshot)
    ensures ServerApp.Tick(Read(Some(Document([JObject(first)]))), next) ==
            Success(Document([JObject(first), JObject(next)]))
  {
    ServerApp.ServerLoadRoundTrip([JObject(first)]);
    assert [JObject(first)] + [JObject(next)] == [JObject(first), JObject(next)];
  }
}
