/**
  The server-side collector (`update_war_reports` in server/app.py): each
  tick it fetches every map's war report, loads the history file, appends
  the tick's snapshot, keeps the last six entries and writes the file back.

  The file is modelled by what reading it gives (`FileRead`) and by the
  document the tick writes; a history that cannot be loaded is read as an
  empty one, except a `reports` value that is not a list, on which the
  append fails and the tick stops before writing.
 */
module ServerApp {
  import opened Wrappers
  import opened Json
  import opened WarReports
  import ApiClient

  /** `reports[-6:]`: the server keeps six snapshots. */
  const HistoryLimit: nat := 6

  /**
    The load step: a missing, unreadable or undecodable file, and a document
    that is not a dict (whose `.get` raises), all fall to an empty history;
    only a dict whose `reports` is not a list fails.
   */
  function ServerLoad(read: FileRead): (r: Result<seq<Json>, LoadError>)
    ensures r.Failure? <==> read.Read? && read.parsed.Some? && read.parsed.value.JObject? &&
                            ReportsField(read.parsed.value.fields).Failure?
    ensures r.Failure? ==> r.error == ReportsNotAList
    ensures !(read.Read? && read.parsed.Some? && read.parsed.value.JObject?) ==> r == Success([])
  {
    match read
    case Read(Some(JObject(fields))) => ReportsField(fields)
    case _ => Success([])
  }

  /** Reading back a document the server wrote gives its reports. */
  lemma ServerLoadRoundTrip(reports: seq<Json>)
    ensures ServerLoad(Read(Some(Document(reports)))) == Success(reports)
  {
    ReportsRoundTrip(reports);
  }

  /**
    One tick after the fetches, as a function of the file it finds: it fails
    exactly when the load fails, and otherwise writes a document from which
    the next tick loads the last six of the loaded history and the snapshot.
   */
  function Tick(read: FileRead, snap: Snapshot): (r: Result<Json, LoadError>)
    ensures r.Success? <==> ServerLoad(read).Success?
    ensures r.Failure? ==> r.error == ReportsNotAList
    ensures r.Success? ==>
              ServerLoad(Read(Some(r.value))) == Success(LastN(ServerLoad(read).value + [JObject(snap)], HistoryLimit))
  {
    var loaded := ServerLoad(read);
    if loaded.Failure? then Failure(loaded.error)
    else
      var kept := LastN(loaded.value + [JObject(snap)], HistoryLimit);
      ServerLoadRoundTrip(kept);
      Success(Document(kept))
  }

  /**
    The history `after` that a tick's document reads back as holds at most
    six entries, ends with the snapshot, and keeps the newest entries of the
    loaded history in their order.
   */
  lemma TickKeepsNewest(read: FileRead, snap: Snapshot, after: seq<Json>)
    requires ServerLoad(read).Success?
    requires ServerLoad(Read(Some(Tick(read, snap).value))) == Success(after)
    ensures var before := ServerLoad(read).value;
            && 0 < |after| <= HistoryLimit && |after| <= |before| + 1
            && after[|after| - 1] == JObject(snap)
            && after[..|after| - 1] == before[|before| + 1 - |after|..]
  {
    var before := ServerLoad(read).value;
    assert after == LastN(before + [JObject(snap)], HistoryLimit);
    LastNKeepsNewest(before, JObject(snap), HistoryLimit);
  }

  /**
    `update_war_reports` of server/app.py: `outcomes[i]` is the outcome of
    fetching the report of `AvailableMaps[i]`, `read` what opening the
    history file gives; the result is the document written, or the failure
    that stops the tick before writing.
   */
  method UpdateWarReports(outcomes: seq<ApiClient.Outcome>, read: FileRead) returns (written: Result<Json, LoadError>)
    requires |outcomes| == |AvailableMaps|
    ensures written == Tick(read, SnapshotOf(AvailableMaps, outcomes))
  {
    var current := CollectSnapshot(AvailableMaps, outcomes);
    var loaded := ServerLoad(read);
    if loaded.Failure? {
      return Failure(loaded.error);
    }
    var reports := loaded.value + [JObject(current)];
    if |reports| > HistoryLimit {
      reports := reports[|reports| - HistoryLimit..];
    }
    written := Success(Document(reports));
  }

  /** The snapshots of several ticks, as the entries they become. */
  function AsReports(snaps: seq<Snapshot>): (r: seq<Json>)
    ensures |r| == |snaps|
    ensures forall i :: 0 <= i < |snaps| ==> r[i] == JObject(snaps[i])
  {
    if snaps == [] then [] else AsReports(snaps[..|snaps| - 1]) + [JObject(snaps[|snaps| - 1])]
  }

  /**
    The history file after ticks with snapshots `snaps`, starting from the
    file `read`: each tick reads what the previous one wrote, and a tick
    that fails leaves the file as it was.
   */
  function FileAfter(read: FileRead, snaps: seq<Snapshot>): (r: FileRead)
    ensures ServerLoad(r).Success? <==> ServerLoad(read).Success?
    ensures r == read || (ServerLoad(r).Success? && |ServerLoad(r).value| <= HistoryLimit)
    decreases |snaps|
  {
    if snaps == [] then read
    else
      var before := FileAfter(read, snaps[..|snaps| - 1]);
      match Tick(before, snaps[|snaps| - 1])
      case Success(doc) => Read(Some(doc))
      case Failure(_) => before
  }

  /** One more tick after a file that loads: the next load is the last six of that history and the snapshot. */
  lemma FileAfterStep(read: FileRead, snaps: seq<Snapshot>, history: seq<Json>)
    requires snaps != [] && ServerLoad(FileAfter(read, snaps[..|snaps| - 1])) == Success(history)
    ensures ServerLoad(FileAfter(read, snaps)) == Success(LastN(history + [JObject(snaps[|snaps| - 1])], HistoryLimit))
  {
  }

  /** The last six of everything appended, extended by one more tick. */
  lemma LastSixStep(read: FileRead, snaps: seq<Snapshot>, start: seq<Json>)
    requires |snaps| > 1
    requires ServerLoad(FileAfter(read, snaps[..|snaps| - 1])) ==
             Success(LastN(start + AsReports(snaps[..|snaps| - 1]), HistoryLimit))
    ensures ServerLoad(FileAfter(read, snaps)) == Success(LastN(start + AsReports(snaps), HistoryLimit))
  {
    var n := |snaps| - 1;
    var x := JObject(snaps[n]);
    FileAfterStep(read, snaps, LastN(start + AsReports(snaps[..n]), HistoryLimit));
    LastNAppend(start + AsReports(snaps[..n]), x, HistoryLimit);
    AsReportsLast(snaps);
    AppendAssoc(start, AsReports(snaps[..n]), [x]);
  }

  lemma AsReportsLast(snaps: seq<Snapshot>)
    requires snaps != []
    ensures AsReports(snaps) == AsReports(snaps[..|snaps| - 1]) + [JObject(snaps[|snaps| - 1])]
  {
  }

  /**
    However many ticks run, the file holds the last six of everything
    appended after what it first held: after any tick at most six entries,
    the newest last.
   */
  lemma {:induction false} TicksKeepLastSix(read: FileRead, snaps: seq<Snapshot>)
    requires ServerLoad(read).Success?
    requires snaps != []
    ensures ServerLoad(FileAfter(read, snaps)) == Success(LastN(ServerLoad(read).value + AsReports(snaps), HistoryLimit))
    decreases |snaps|
  {
    var start := ServerLoad(read).value;
    if |snaps| == 1 {
      assert snaps[..0] == [];
      FileAfterStep(read, snaps, start);
      assert AsReports(snaps) == [JObject(snaps[0])];
    } else {
      TicksKeepLastSix(read, snaps[..|snaps| - 1]);
      LastSixStep(read, snaps, start);
    }
  }

  /**
    A `reports` value that is not a list stops every tick before it writes:
    the file never changes again and no snapshot is kept.
   */
  lemma {:induction false} BadReportsFieldIsPermanent(read: FileRead, snaps: seq<Snapshot>)
    requires ServerLoad(read).Failure?
    ensures FileAfter(read, snaps) == read
    decreases |snaps|
  {
    if snaps != [] {
      BadReportsFieldIsPermanent(read, snaps[..|snaps| - 1]);
    }
  }

  /** A corrupt, unreadable or missing file costs the history but not the tick: the file then holds the snapshot alone. */
  lemma BadFileStartsFresh(read: FileRead, snap: Snapshot)
    requires !(read.Read? && read.parsed.Some? && read.parsed.value.JObject?)
    ensures Tick(read, snap) == Success(Document([JObject(snap)]))
  {
  }
}
