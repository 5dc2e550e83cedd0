/**
 * One cycle of the background synchronisation (src/data/sync_thread.py): the
 * record-store tables configured under `nocodb.tables` are walked in order;
 * the three reference tables are refreshed through the repository, the others
 * skipped, and a summary is reported.  The record store's answer for a
 * table and view is an oracle standing for `get_data`; the stop request of
 * another thread is the index of the flag check at which `_is_running` is
 * first seen cleared.
 */
module Sync {
  import opened Wrappers
  import opened Json
  import opened Tickets
  import opened Config
  import opened Repository
  import Api
  import Seqs

  const TableStaffName: string := "Thông tin nhân viên"
  const TableVehiclesName: string := "Thông tin phương tiện"
  const TableOrdersName: string := "Thông tin lệnh cân"

  const SummarySuccess: string := "Đồng bộ thành công."
  const SummaryFailure: string := "Đồng bộ thất bại."

  const IntervalPath: string := "server.sync_interval"
  const DefaultInterval: int := 60

  /** `table_map.get(name)`: the reference table a configured table name is synced into. */
  function TableFor(name: Json): (r: Option<RefTable>)
    ensures r == Some(Staff) <==> name == JStr(TableStaffName)
    ensures r == Some(Vehicles) <==> name == JStr(TableVehiclesName)
    ensures r == Some(Orders) <==> name == JStr(TableOrdersName)
  {
    if name == JStr(TableStaffName) then Some(Staff)
    else if name == JStr(TableVehiclesName) then Some(Vehicles)
    else if name == JStr(TableOrdersName) then Some(Orders)
    else None
  }

  /** `view_map`: the name of the view each reference table is read through. */
  function ViewName(t: RefTable): string
  {
    match t
    case Staff => "Thongtinnhanvien"
    case Vehicles => "Thongtinphuongtien"
    case Orders => "Thongtinlenhcan"
  }

  /** The report for a mapped table with a missing table or view id. */
  function SkipMessage(name: Json): string
  {
    "Bỏ qua đồng bộ '" + Api.Format(name) + "': thiếu config ID."
  }

  /** What the cycle does with one configured table. */
  datatype Decision =
    | Ignore                                                  // not one of the three reference tables
    | Refresh(table: RefTable, tableId: Json, viewId: Json)  // both ids present: `sync_table` is called
    | MissingId(name: Json)                                   // a reference table without its ids

  /**
   * The decision for one entry of `nocodb.tables`; nothing when the entry
   * raises: it is not a dictionary (no `get`), its name is a list or a
   * dictionary, which cannot be looked up in `table_map` (unhashable), or
   * searching its views raises.
   */
  function Decide(entry: Json): (r: Option<Decision>)
    ensures r.Some? ==> entry.JObject?
    ensures r.Some? && r.value.Refresh? ==>
              TableFor(DictGet(entry.fields, "name")) == Some(r.value.table) &&
              Truthy(r.value.tableId) && r.value.tableId == DictGet(entry.fields, "id") &&
              Truthy(r.value.viewId)
    ensures r == Some(Ignore) <==>
              entry.JObject? && TableFor(DictGet(entry.fields, "name")).None? &&
              !DictGet(entry.fields, "name").JArray? && !DictGet(entry.fields, "name").JObject?
    ensures entry.JObject? && (DictGet(entry.fields, "name").JArray? || DictGet(entry.fields, "name").JObject?) ==> r.None?
    ensures entry.JObject? && TableFor(DictGet(entry.fields, "name")).Some? ==>
              (r.None? <==> ConfigManager.ViewByName(entry, ViewName(TableFor(DictGet(entry.fields, "name")).value)).SearchRaises?)
    ensures entry.JObject? ==>
              var name := DictGet(entry.fields, "name");
              var tableId := DictGet(entry.fields, "id");
              var t := TableFor(name);
              t.Some? ==>
                var view := ConfigManager.ViewByName(entry, ViewName(t.value));
                (view.Match? && view.value.JObject? && Truthy(tableId) && Truthy(DictGet(view.value.fields, "id")) ==>
                   r == Some(Refresh(t.value, tableId, DictGet(view.value.fields, "id")))) &&
                (r.Some? && r.value.Refresh? ==>
                   view.Match? && view.value.JObject? && r.value.viewId == DictGet(view.value.fields, "id")) &&
                (r.Some? && !r.value.Refresh? ==> r == Some(MissingId(name)))
  {
    if !entry.JObject? then None
    else
      var name := DictGet(entry.fields, "name");
      var t := TableFor(name);
      if name.JArray? || name.JObject? then None
      else if t.None? then Some(Ignore)
      else
        var view := ConfigManager.ViewByName(entry, ViewName(t.value));
        var tableId := DictGet(entry.fields, "id");
        if view.SearchRaises? then None
        else if Truthy(tableId) && view.Match? && view.value.JObject? && Truthy(DictGet(view.value.fields, "id")) then
          Some(Refresh(t.value, tableId, DictGet(view.value.fields, "id")))
        else Some(MissingId(name))
  }

  /** The record store's answer to `get_data(table_id, view_id)`: the rows or nothing, and the error or nothing. */
  type Fetch = (Json, Json) -> (Option<seq<Record>>, Option<string>)

  /** A report of the `sync_status_update` signal: the message and the success flag. */
  type Report = (string, bool)

  /** The outcome of `sync_table` for a refreshed table. */
  function Outcome(d: Decision, fetch: Fetch): (bool, string)
    requires d.Refresh?
  {
    var answer := fetch(d.tableId, d.viewId);
    SyncOutcome(d.table, answer.0, answer.1)
  }

  /** The decisions for the entries, in order; nothing if one of them raises. */
  function Decisions(entries: Fields): (r: Option<seq<Decision>>)
    ensures r.Some? ==> |r.value| == |entries|
  {
    if entries == [] then Some([])
    else
      match Decisions(entries[..|entries| - 1])
      case None => None
      case Some(ds) =>
        match Decide(entries[|entries| - 1].1)
        case None => None
        case Some(d) => Some(ds + [d])
  }

  /** Deciding one more entry extends the decisions before it. */
  lemma DecisionsStep(entries: Fields, i: nat, ds: seq<Decision>, d: Decision)
    requires i < |entries| && Decisions(entries[..i]) == Some(ds) && Decide(entries[i].1) == Some(d)
    ensures Decisions(entries[..i + 1]) == Some(ds + [d])
  {
    assert entries[..i + 1][..i] == entries[..i];
  }

  /** The report one decision gives, if any. */
  function ReportOf(d: Decision, fetch: Fetch): seq<Report>
  {
    match d
    case Ignore => []
    case MissingId(name) => [(SkipMessage(name), false)]
    case Refresh(_, _, _) => [(Outcome(d, fetch).1, Outcome(d, fetch).0)]
  }

  /** The cache of `t` after `sync_table` for one decision, from `before`: a successful refresh of `t` replaces it by the rows fetched. */
  function CacheStep(t: RefTable, before: seq<Record>, d: Decision, fetch: Fetch): (r: seq<Record>)
    ensures d.Refresh? && d.table == t && Outcome(d, fetch).0 ==> r == fetch(d.tableId, d.viewId).0.value && r != []
    ensures !d.Refresh? || d.table != t || !Outcome(d, fetch).0 ==> r == before
  {
    if d.Refresh? && d.table == t && Outcome(d, fetch).0 then fetch(d.tableId, d.viewId).0.value else before
  }

  /** The cache of `t` after the decisions `ds`, from `base`: the rows of the last successful refresh of `t`, if any. */
  function CacheAfter(t: RefTable, base: seq<Record>, ds: seq<Decision>, fetch: Fetch): seq<Record>
  {
    if ds == [] then base
    else CacheStep(t, CacheAfter(t, base, ds[..|ds| - 1], fetch), ds[|ds| - 1], fetch)
  }

  /** A successful refresh of `t` at `i`, after which no refresh of `t` succeeded. */
  predicate LastRefreshAt(t: RefTable, ds: seq<Decision>, fetch: Fetch, i: int)
    requires 0 <= i < |ds|
  {
    ds[i].Refresh? && ds[i].table == t && Outcome(ds[i], fetch).0 &&
    forall j :: i < j < |ds| ==> !(ds[j].Refresh? && ds[j].table == t && Outcome(ds[j], fetch).0)
  }

  /** The cache of a reference table never refreshed successfully is left as it was. */
  lemma {:induction false} CacheAfterKept(t: RefTable, base: seq<Record>, ds: seq<Decision>, fetch: Fetch)
    requires forall i :: 0 <= i < |ds| ==> !(ds[i].Refresh? && ds[i].table == t && Outcome(ds[i], fetch).0)
    ensures CacheAfter(t, base, ds, fetch) == base
  {
    if ds != [] {
      var init := ds[..|ds| - 1];
      assert forall i :: 0 <= i < |init| ==> init[i] == ds[i];
      CacheAfterKept(t, base, init, fetch);
    }
  }

  /** The cache of a reference table after the cycle holds the rows of its last successful refresh. */
  lemma {:induction false} CacheAfterLast(t: RefTable, base: seq<Record>, ds: seq<Decision>, fetch: Fetch, i: nat)
    requires i < |ds| && LastRefreshAt(t, ds, fetch, i)
    ensures CacheAfter(t, base, ds, fetch) == fetch(ds[i].tableId, ds[i].viewId).0.value
  {
    if i < |ds| - 1 {
      var init := ds[..|ds| - 1];
      assert !(ds[|ds| - 1].Refresh? && ds[|ds| - 1].table == t && Outcome(ds[|ds| - 1], fetch).0);
      assert forall j :: 0 <= j < |init| ==> init[j] == ds[j];
      CacheAfterLast(t, base, init, fetch, i);
    }
  }

  /** One more decision updates each cache by its step. */
  lemma CacheAfterStep(t: RefTable, base: seq<Record>, ds: seq<Decision>, d: Decision, fetch: Fetch)
    ensures CacheAfter(t, base, ds + [d], fetch) == CacheStep(t, CacheAfter(t, base, ds, fetch), d, fetch)
  {
    assert (ds + [d])[..|ds|] == ds;
  }

  /** The reports for the decisions, in order, and whether every `sync_table` called succeeded (`all_success`). */
  function Reports(ds: seq<Decision>, fetch: Fetch): (seq<Report>, bool)
  {
    if ds == [] then ([], true)
    else
      var before := Reports(ds[..|ds| - 1], fetch);
      var d := ds[|ds| - 1];
      (before.0 + ReportOf(d, fetch), before.1 && (!d.Refresh? || Outcome(d, fetch).0))
  }

  /** One more decision adds its report and its outcome. */
  lemma ReportsStep(ds: seq<Decision>, d: Decision, fetch: Fetch)
    ensures Reports(ds + [d], fetch) == (Reports(ds, fetch).0 + ReportOf(d, fetch), Reports(ds, fetch).1 && (!d.Refresh? || Outcome(d, fetch).0))
  {
    assert (ds + [d])[..|ds|] == ds;
  }

  /** The decision at `i` called `sync_table`, and it failed. */
  predicate FailedAt(ds: seq<Decision>, fetch: Fetch, i: int)
    requires 0 <= i < |ds|
  {
    ds[i].Refresh? && !Outcome(ds[i], fetch).0
  }

  /**
   * The summary is success exactly when no attempted `sync_table` failed: an
   * ignored table and one reported for a missing id leave it alone.
   */
  lemma {:induction false} SummaryIffNoFailure(ds: seq<Decision>, fetch: Fetch)
    ensures Reports(ds, fetch).1 <==> forall i :: 0 <= i < |ds| ==> !FailedAt(ds, fetch, i)
  {
    if ds != [] {
      var init := ds[..|ds| - 1];
      SummaryIffNoFailure(init, fetch);
      assert Reports(ds, fetch).1 == (Reports(init, fetch).1 && !FailedAt(ds, fetch, |ds| - 1));
      assert forall i :: 0 <= i < |init| ==> (FailedAt(ds, fetch, i) <==> FailedAt(init, fetch, i));
    }
  }

  /** The entry is reported: a reference table, refreshed or missing its ids. */
  predicate Reported(d: Decision)
  {
    !d.Ignore?
  }

  /** Exactly the refreshed and the misconfigured reference tables are reported, one report each, in order. */
  lemma {:induction false} ReportCount(ds: seq<Decision>, fetch: Fetch)
    ensures |Reports(ds, fetch).0| == |Seqs.Filter(ds, Reported)|
  {
    if ds != [] {
      var init := ds[..|ds| - 1];
      ReportCount(init, fetch);
      assert ds == init + [ds[|ds| - 1]];
      Seqs.FilterAppend(init, [ds[|ds| - 1]], Reported);
      assert [ds[|ds| - 1]][1..] == [];
    }
  }

  /** `len(range(sync_interval))`; nothing when the interval is not an integer (TypeError). */
  function RangeLength(interval: Json): Option<nat>
  {
    match interval
    case JNum(n) => Some(if n <= 0 then 0 else n)
    case JBool(b) => Some(if b then 1 else 0)
    case _ => None
  }

  /** `config.get('nocodb.tables', {})`. */
  function ConfiguredTables(config: ConfigManager): Json
    reads config
  {
    config.Get(TablesPath, JObject([]))
  }

  /** `config.get('server.sync_interval', 60)`. */
  function SyncInterval(config: ConfigManager): Json
    reads config
  {
    config.Get(IntervalPath, JNum(DefaultInterval))
  }

  class SyncThread {
    const repo: Repository
    const config: ConfigManager
    var running: bool
    var reports: seq<Report>

    constructor (repo: Repository, config: ConfigManager)
      ensures this.repo == repo && this.config == config && !running && reports == []
    {
      this.repo := repo;
      this.config := config;
      running := false;
      reports := [];
    }

    /** The work for one decided entry: its report, and whether a `sync_table` called failed. */
    method HandleEntry(d: Decision, fetch: Fetch) returns (ok: bool)
      modifies this, repo
      ensures reports == old(reports) + ReportOf(d, fetch)
      ensures ok == (!d.Refresh? || Outcome(d, fetch).0)
      ensures running == old(running)
      ensures forall t :: repo.Cache(t) == CacheStep(t, old(repo.Cache(t)), d, fetch)
      ensures repo.pending == old(repo.pending) && repo.history == old(repo.history)
    {
      ok := true;
      match d {
        case Ignore =>
        case MissingId(name) =>
          reports := reports + [(SkipMessage(name), false)];
        case Refresh(t, tableId, viewId) =>
          var answer := fetch(tableId, viewId);
          var message;
          ok, message := repo.SyncTable(t, answer.0, answer.1);
          reports := reports + [(message, ok)];
      }
    }

    /**
     * The entry at `i`, after the decisions `ds` of the entries before it:
     * its decision (none when it raises), the report it adds, and whether the
     * `sync_table` it called, if any, succeeded.
     */
    method Visit(entries: Fields, i: nat, ghost ds: seq<Decision>, ghost base: seq<Report>, fetch: Fetch)
      returns (decision: Option<Decision>, ok: bool)
      requires i < |entries| && Decisions(entries[..i]) == Some(ds)
      requires reports == base + Reports(ds, fetch).0
      modifies this, repo
      ensures decision == Decide(entries[i].1)
      ensures decision.Some? ==>
                Decisions(entries[..i + 1]) == Some(ds + [decision.value]) &&
                reports == base + Reports(ds + [decision.value], fetch).0 &&
                Reports(ds + [decision.value], fetch).1 == (Reports(ds, fetch).1 && ok)
      ensures running == old(running)
      ensures decision.Some? ==> forall t :: repo.Cache(t) == CacheStep(t, old(repo.Cache(t)), decision.value, fetch)
      ensures decision.None? ==> reports == old(reports) && forall t :: repo.Cache(t) == old(repo.Cache(t))
      ensures repo.pending == old(repo.pending) && repo.history == old(repo.history)
    {
      decision := Decide(entries[i].1);
      ok := true;
      if decision.Some? {
        var d := decision.value;
        DecisionsStep(entries, i, ds, d);
        ReportsStep(ds, d, fetch);
        ok := HandleEntry(d, fetch);
        assert reports == base + (Reports(ds, fetch).0 + ReportOf(d, fetch));
      }
    }

    /**
     * The `for` loop over the configured tables, from the flag check numbered
     * `0`: the entries before the stop are handled in order, reporting each
     * sync and each table missing its ids, each refresh updating its cache.
     * `handled` is the number of entries handled; `raised` is set when the
     * entry after them raises.
     */
    method SyncTables(entries: Fields, fetch: Fetch, stopAt: nat) returns (raised: bool, handled: nat, allSuccess: bool)
      requires running
      modifies this, repo
      ensures handled <= |entries| && Decisions(entries[..handled]).Some? &&
              reports == old(reports) + Reports(Decisions(entries[..handled]).value, fetch).0
      ensures handled <= |entries| && Decisions(entries[..handled]).Some? &&
              forall t :: repo.Cache(t) == CacheAfter(t, old(repo.Cache(t)), Decisions(entries[..handled]).value, fetch)
      ensures raised ==> handled < stopAt && handled < |entries| && Decide(entries[handled].1).None?
      ensures !raised ==> handled == (if stopAt < |entries| then stopAt else |entries|)
      ensures !raised ==> allSuccess == Reports(Decisions(entries[..handled]).value, fetch).1
      ensures !raised ==> (running <==> |entries| <= stopAt)
      ensures repo.pending == old(repo.pending) && repo.history == old(repo.history)
    {
      var n := if stopAt < |entries| then stopAt else |entries|;
      var i := 0;
      ghost var ds: seq<Decision> := [];
      raised, allSuccess := false, true;
      assert entries[..0] == [];
      while i < |entries|
        invariant 0 <= i <= n
        invariant running
        invariant Decisions(entries[..i]) == Some(ds)
        invariant reports == old(reports) + Reports(ds, fetch).0
        invariant allSuccess == Reports(ds, fetch).1
        invariant forall t :: repo.Cache(t) == CacheAfter(t, old(repo.Cache(t)), ds, fetch)
        invariant repo.pending == old(repo.pending) && repo.history == old(repo.history)
      {
        if i == stopAt {
          running := false;
        }
        if !running {
          break;
        }
        var decision, ok := Visit(entries, i, ds, old(reports), fetch);
        if decision.None? {
          raised, handled := true, i;
          return;
        }
        if !ok {
          allSuccess := false;
        }
        forall t ensures CacheAfter(t, old(repo.Cache(t)), ds + [decision.value], fetch) ==
                         CacheStep(t, CacheAfter(t, old(repo.Cache(t)), ds, fetch), decision.value, fetch)
        {
          CacheAfterStep(t, old(repo.Cache(t)), ds, decision.value, fetch);
        }
        ds := ds + [decision.value];
        i := i + 1;
      }
      handled := i;
    }

    /**
     * `for _ in range(sync_interval)` after `handled` flag checks: one check
     * before each second slept.
     */
    method Sleep(len: nat, handled: nat, stopAt: nat) returns (slept: nat)
      requires handled <= stopAt
      requires !running ==> handled == stopAt
      modifies this
      ensures slept == (if stopAt - handled < len then stopAt - handled else len)
      ensures running <==> old(running) && handled + len <= stopAt
      ensures reports == old(reports)
    {
      slept := 0;
      var k := 0;
      while k < len
        invariant 0 <= k <= len
        invariant slept == k
        invariant running ==> old(running) && handled + k <= stopAt
        invariant !running ==> handled + k == stopAt && k == 0
        invariant k == 0 ==> running == old(running)
        invariant reports == old(reports)
      {
        if handled + k == stopAt {
          running := false;
        }
        if !running {
          break;
        }
        slept := slept + 1;
        k := k + 1;
      }
    }

    /**
     * One pass of the `while self._is_running` loop of `run`.  `stopAt`
     * numbers the flag checks of this pass (one before each table, then one
     * before each second of sleep): from that check on the flag reads
     * cleared, as after `stop()`.  `raised` is set when the pass raises and
     * ends the thread: an entry of `nocodb.tables` raised, or the interval
     * is not an integer.  `handled` counts the entries handled and `slept`
     * the seconds slept.
     */
    method RunCycle(fetch: Fetch, stopAt: nat) returns (raised: bool, handled: nat, slept: nat)
      requires running
      modifies this, repo
      ensures var tables := old(ConfiguredTables(config));
              !tables.JObject? ==>
                raised && handled == 0 && reports == old(reports) && running &&
                forall t :: repo.Cache(t) == old(repo.Cache(t))
      ensures var tables := old(ConfiguredTables(config));
              tables.JObject? ==>
                handled <= |tables.fields| && Decisions(tables.fields[..handled]).Some? &&
                forall t :: repo.Cache(t) == CacheAfter(t, old(repo.Cache(t)), Decisions(tables.fields[..handled]).value, fetch)
      ensures var tables := old(ConfiguredTables(config));
              tables.JObject? ==>
                var n := if stopAt < |tables.fields| then stopAt else |tables.fields|;
                handled <= n && Decisions(tables.fields[..handled]).Some? &&
                var r := Reports(Decisions(tables.fields[..handled]).value, fetch);
                (handled < n ==> raised && Decide(tables.fields[handled].1).None? && reports == old(reports) + r.0) &&
                (handled == n ==>
                   reports == old(reports) + r.0 + [if r.1 then (SummarySuccess, true) else (SummaryFailure, false)] &&
                   (raised <==> RangeLength(old(SyncInterval(config))).None?))
      ensures var tables := old(ConfiguredTables(config));
              var len := RangeLength(old(SyncInterval(config)));
              tables.JObject? && !raised ==>
                len.Some? &&
                slept == (if stopAt <= |tables.fields| then 0 else if stopAt - |tables.fields| < len.value then stopAt - |tables.fields| else len.value) &&
                (running <==> |tables.fields| + len.value <= stopAt)
      ensures repo.pending == old(repo.pending) && repo.history == old(repo.history)
    {
      var interval := SyncInterval(config);
      var tables := ConfiguredTables(config);
      raised, handled, slept := false, 0, 0;
      if !tables.JObject? {
        raised := true;
        return;
      }
      var allSuccess;
      raised, handled, allSuccess := SyncTables(tables.fields, fetch, stopAt);
      if raised {
        return;
      }
      raised, slept := Finish(allSuccess, interval, handled, stopAt);
    }

    /** The end of a pass that handled every entry before the stop: the summary, then the sleep. */
    method Finish(allSuccess: bool, interval: Json, handled: nat, stopAt: nat) returns (raised: bool, slept: nat)
      requires handled <= stopAt
      requires !running ==> handled == stopAt
      modifies this
      ensures reports == old(reports) + [if allSuccess then (SummarySuccess, true) else (SummaryFailure, false)]
      ensures raised <==> RangeLength(interval).None?
      ensures !raised ==>
                var len := RangeLength(interval).value;
                slept == (if stopAt - handled < len then stopAt - handled else len) &&
                (running <==> old(running) && handled + len <= stopAt)
    {
      if allSuccess {
        reports := reports + [(SummarySuccess, true)];
      } else {
        reports := reports + [(SummaryFailure, false)];
      }
      var len := RangeLength(interval);
      raised, slept := false, 0;
      if len.None? {
        raised := true;
        return;
      }
      slept := Sleep(len.value, handled, stopAt);
    }
  }
}
