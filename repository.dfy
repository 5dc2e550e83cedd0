/**
 * The station's data store (src/data/repository.py): three reference caches
 * refreshed from the record store, the pending tickets (first weight taken,
 * not yet completed) and the ticket history.  Writing the JSON files that mirror
 * each list is not modelled; the lists are the in-memory caches.
 */
module Repository {
  import opened Wrappers
  import opened Json
  import opened Tickets
  import Seqs

  /** The reference tables `sync_table` can refresh, by their internal names. */
  datatype RefTable = Orders | Vehicles | Staff

  /** `lenh_can`, `phuong_tien`, `nhan_vien`. */
  function InternalName(t: RefTable): string
  {
    match t
    case Orders => "lenh_can"
    case Vehicles => "phuong_tien"
    case Staff => "nhan_vien"
  }

  /** `row.get(key) == code`. */
  predicate KeyIs(row: Record, key: string, code: string)
  {
    Member(row, key) == Some(JStr(code))
  }

  /** `next((row for row in rows if row.get(key) == code), None)`. */
  function FirstWith(rows: seq<Record>, key: string, code: string): Option<Record>
  {
    Seqs.First(rows, (row: Record) => KeyIs(row, key, code))
  }

  /** The test "this ticket belongs to that order code". */
  function HasCode(code: Json): Ticket -> bool
  {
    (t: Ticket) => t.orderCode == code
  }

  /** The test "this ticket belongs to another order code". */
  function OtherCode(code: Json): Ticket -> bool
  {
    (t: Ticket) => t.orderCode != code
  }

  /** Index of the first pending ticket for an order code. */
  function PendingIndex(pending: seq<Ticket>, code: string): Option<nat>
  {
    Seqs.FirstIndex(pending, HasCode(JStr(code)))
  }

  /** `[p for p in pending if p.get('Mã lệnh') != code]`. */
  function WithoutCode(pending: seq<Ticket>, code: Json): seq<Ticket>
  {
    Seqs.Filter(pending, OtherCode(code))
  }

  /** The pending list after `save_phieu_can_dang_cho_local(t)`. */
  function AfterSave(pending: seq<Ticket>, t: Ticket): seq<Ticket>
  {
    WithoutCode(pending, t.orderCode) + [t]
  }

  /** Number of tickets in the list carrying an order code. */
  function CodeCount(pending: seq<Ticket>, code: Json): nat
  {
    |Seqs.Filter(pending, HasCode(code))|
  }

  /** At most one ticket per order code. */
  predicate UniqueCodes(pending: seq<Ticket>)
  {
    forall i, j :: 0 <= i < j < |pending| ==> pending[i].orderCode != pending[j].orderCode
  }

  /** No ticket of the filtered list has the removed order code, and every other ticket stays. */
  lemma WithoutCodeSpec(pending: seq<Ticket>, code: Json)
    ensures CodeCount(WithoutCode(pending, code), code) == 0
    ensures forall t: Ticket :: t.orderCode != code ==> multiset(WithoutCode(pending, code))[t] == multiset(pending)[t]
  {
    var r := WithoutCode(pending, code);
    if CodeCount(r, code) != 0 {
      var x := Seqs.Filter(r, HasCode(code))[0];
      Seqs.FilterMember(r, HasCode(code), x);
      Seqs.FilterMember(pending, OtherCode(code), x);
    }
    forall t: Ticket | t.orderCode != code
      ensures multiset(r)[t] == multiset(pending)[t]
    {
      Seqs.FilterMultiset(pending, OtherCode(code), t);
    }
  }

  /** Removing one order code keeps the rest in their original relative order. */
  lemma WithoutCodeKeepsOrder(a: seq<Ticket>, b: seq<Ticket>, code: Json)
    ensures WithoutCode(a + b, code) == WithoutCode(a, code) + WithoutCode(b, code)
  {
    Seqs.FilterAppend(a, b, OtherCode(code));
  }

  /** Removing every ticket of an order code keeps the list free of duplicate codes. */
  lemma WithoutCodeUnique(pending: seq<Ticket>, code: Json)
    requires UniqueCodes(pending)
    ensures UniqueCodes(WithoutCode(pending, code))
  {
    var distinct := (x: Ticket, y: Ticket) => x.orderCode != y.orderCode;
    assert forall i, j :: 0 <= i < j < |pending| ==> distinct(pending[i], pending[j]);
    Seqs.FilterPairwise(pending, OtherCode(code), distinct);
    var r := Seqs.Filter(pending, OtherCode(code));
    assert forall i, j :: 0 <= i < j < |r| ==> distinct(r[i], r[j]);
    assert r == WithoutCode(pending, code);
  }

  /**
   * Saving a pending ticket leaves exactly one entry with its order code, the
   * ticket itself at the end, and keeps "at most one ticket per order code".
   */
  lemma AfterSaveSpec(pending: seq<Ticket>, t: Ticket)
    ensures var r := AfterSave(pending, t);
            CodeCount(r, t.orderCode) == 1 && r[|r| - 1] == t && r[..|r| - 1] == WithoutCode(pending, t.orderCode)
    ensures UniqueCodes(pending) ==> UniqueCodes(AfterSave(pending, t))
  {
    var w := WithoutCode(pending, t.orderCode);
    var p := HasCode(t.orderCode);
    WithoutCodeSpec(pending, t.orderCode);
    Seqs.FilterAppend(w, [t], p);
    assert Seqs.Filter([t], p) == [t] by { assert [t][1..] == []; }
    assert (w + [t])[..|w|] == w;
    if UniqueCodes(pending) {
      WithoutCodeUnique(pending, t.orderCode);
      forall i | 0 <= i < |w| ensures w[i].orderCode != t.orderCode {
        assert w[i] in w;
      }
    }
  }

  /** After a save, looking the order code up finds the saved ticket. */
  lemma FindAfterSave(pending: seq<Ticket>, t: Ticket, code: string)
    requires t.orderCode == JStr(code)
    ensures PendingIndex(AfterSave(pending, t), code) == Some(|AfterSave(pending, t)| - 1)
  {
    var w := WithoutCode(pending, t.orderCode);
    var r := AfterSave(pending, t);
    forall i | 0 <= i < |w| ensures w[i].orderCode != JStr(code) {
      assert w[i] in w;
    }
    assert forall i :: 0 <= i < |w| ==> r[i] == w[i];
    assert r[|w|] == t;
    assert forall j :: 0 <= j < |w| ==> !HasCode(JStr(code))(r[j]);
    assert HasCode(JStr(code))(r[|w|]);
  }

  /** After completion no pending ticket has that order code. */
  lemma FindAfterComplete(pending: seq<Ticket>, code: string)
    ensures PendingIndex(WithoutCode(pending, JStr(code)), code).None?
  {
    var w := WithoutCode(pending, JStr(code));
    forall i | 0 <= i < |w| ensures w[i].orderCode != JStr(code) {
      assert w[i] in w;
    }
  }

  /** "Success" message of `sync_table`. */
  function SyncedMessage(t: RefTable): string { "Đồng bộ " + InternalName(t) + " thành công." }

  /** "No data" message of `sync_table`. */
  function NoDataMessage(t: RefTable): string { "Không có dữ liệu " + InternalName(t) + "." }

  /** `error or f"Không có dữ liệu {table_name}."`. */
  function FailureMessage(t: RefTable, error: Option<string>): string
  {
    if error.Some? && error.value != [] then error.value else NoDataMessage(t)
  }

  /**
   * `sync_table` AS WRITTEN, given what `get_data` returns (the list of rows
   * or None, and an error or None): it tests `'list' in data`, which on a list
   * asks whether the string 'list' is one of its elements.  Every element is a
   * row (a dictionary), and a dictionary never equals a string, so the test
   * fails for every list.
   */
  function SyncTableAsWritten(t: RefTable, data: Option<seq<Record>>, error: Option<string>): (r: (bool, string))
    ensures !r.0
  {
    var truthy := data.Some? && data.value != [];
    var listIsAnElement := false;  // a row never equals the string 'list'
    if truthy && listIsAnElement then (true, SyncedMessage(t))
    else (false, FailureMessage(t, error))
  }

  /** `sync_table` as evidently intended: a non-empty fetched list replaces the cache. */
  function SyncOutcome(t: RefTable, data: Option<seq<Record>>, error: Option<string>): (r: (bool, string))
    ensures r.0 <==> data.Some? && data.value != []
    ensures r.0 ==> r.1 == SyncedMessage(t)
    ensures !r.0 ==> r.1 == FailureMessage(t, error)
  {
    if data.Some? && data.value != [] then (true, SyncedMessage(t))
    else (false, FailureMessage(t, error))
  }

  /** The discrepancy: a successful, non-empty fetch is reported as a failure and never reaches the cache. */
  lemma SyncTableAsWrittenDropsRows(t: RefTable, rows: seq<Record>)
    requires rows != []
    ensures SyncTableAsWritten(t, Some(rows), None) == (false, NoDataMessage(t))
    ensures SyncOutcome(t, Some(rows), None) == (true, SyncedMessage(t))
  {
  }

  class Repository {
    var orders: seq<Record>      // lenh_can
    var vehicles: seq<Record>    // phuong_tien
    var staff: seq<Record>       // nhan_vien
    var pending: seq<Ticket>     // phieu_can_dang_cho
    var history: seq<Ticket>     // phieu_can_lich_su

    /** `load_all_local_data`, with the five files' contents given (an empty list for a missing file). */
    constructor (orders: seq<Record>, vehicles: seq<Record>, staff: seq<Record>,
                 pending: seq<Ticket>, history: seq<Ticket>)
      ensures this.orders == orders && this.vehicles == vehicles && this.staff == staff
      ensures this.pending == pending && this.history == history
    {
      this.orders := orders;
      this.vehicles := vehicles;
      this.staff := staff;
      this.pending := pending;
      this.history := history;
    }

    /** The cache of one reference table. */
    function Cache(t: RefTable): seq<Record>
      reads this
    {
      match t
      case Orders => orders
      case Vehicles => vehicles
      case Staff => staff
    }

    /** `get_lenh_can_by_id`: the first order row with that "Mã lệnh". */
    function OrderByCode(code: string): (r: Option<Record>)
      reads this
      ensures r.None? <==> forall i :: 0 <= i < |orders| ==> !KeyIs(orders[i], OrderCodeKey, code)
      ensures r.Some? ==> exists i :: 0 <= i < |orders| && orders[i] == r.value && KeyIs(r.value, OrderCodeKey, code) &&
                                      forall j :: 0 <= j < i ==> !KeyIs(orders[j], OrderCodeKey, code)
    {
      FirstWith(orders, OrderCodeKey, code)
    }

    /** `get_phuong_tien_by_bks`: the first vehicle row with that "Biển số". */
    function VehicleByPlate(plate: string): (r: Option<Record>)
      reads this
      ensures r.None? <==> forall i :: 0 <= i < |vehicles| ==> !KeyIs(vehicles[i], PlateKey, plate)
      ensures r.Some? ==> exists i :: 0 <= i < |vehicles| && vehicles[i] == r.value && KeyIs(r.value, PlateKey, plate) &&
                                      forall j :: 0 <= j < i ==> !KeyIs(vehicles[j], PlateKey, plate)
    {
      FirstWith(vehicles, PlateKey, plate)
    }

    /** `get_nhan_vien_by_id`: the first staff row with that "Mã lái xe". */
    function StaffByCode(code: string): (r: Option<Record>)
      reads this
      ensures r.None? <==> forall i :: 0 <= i < |staff| ==> !KeyIs(staff[i], DriverCodeKey, code)
      ensures r.Some? ==> exists i :: 0 <= i < |staff| && staff[i] == r.value && KeyIs(r.value, DriverCodeKey, code) &&
                                      forall j :: 0 <= j < i ==> !KeyIs(staff[j], DriverCodeKey, code)
    {
      FirstWith(staff, DriverCodeKey, code)
    }

    /** `find_phieu_can_dang_cho`: the first pending ticket with that "Mã lệnh". */
    function FindPending(code: string): (r: Option<Ticket>)
      reads this
      ensures r.None? <==> forall i :: 0 <= i < |pending| ==> pending[i].orderCode != JStr(code)
      ensures r.Some? ==> exists i :: 0 <= i < |pending| && pending[i] == r.value && r.value.orderCode == JStr(code) &&
                                      forall j :: 0 <= j < i ==> pending[j].orderCode != JStr(code)
    {
      match PendingIndex(pending, code)
      case Some(i) => Some(pending[i])
      case None => None
    }

    /** `save_phieu_can_dang_cho_local`: drop every pending ticket of that order code, then append the ticket. */
    method SavePending(t: Ticket)
      modifies this
      ensures pending == AfterSave(old(pending), t)
      ensures CodeCount(pending, t.orderCode) == 1 && pending[|pending| - 1] == t
      ensures UniqueCodes(old(pending)) ==> UniqueCodes(pending)
      ensures orders == old(orders) && vehicles == old(vehicles) && staff == old(staff) && history == old(history)
    {
      AfterSaveSpec(pending, t);
      pending := WithoutCode(pending, t.orderCode);
      pending := pending + [t];
    }

    /** `complete_phieu_can_local`: drop the order code's pending tickets and append the ticket to the history. */
    method Complete(t: Ticket)
      modifies this
      ensures pending == WithoutCode(old(pending), t.orderCode)
      ensures CodeCount(pending, t.orderCode) == 0
      ensures UniqueCodes(old(pending)) ==> UniqueCodes(pending)
      ensures history == old(history) + [t]
      ensures orders == old(orders) && vehicles == old(vehicles) && staff == old(staff)
    {
      WithoutCodeSpec(pending, t.orderCode);
      if UniqueCodes(pending) {
        WithoutCodeUnique(pending, t.orderCode);
      }
      pending := WithoutCode(pending, t.orderCode);
      history := history + [t];
    }

    /**
     * `sync_table`, with the fetch result given instead of calling the record
     * store: on success exactly the named cache is replaced.
     */
    method SyncTable(t: RefTable, data: Option<seq<Record>>, error: Option<string>) returns (ok: bool, message: string)
      modifies this
      ensures (ok, message) == SyncOutcome(t, data, error)
      ensures ok ==> Cache(t) == data.value
      ensures forall u :: u != t || !ok ==> Cache(u) == old(Cache(u))
      ensures pending == old(pending) && history == old(history)
    {
      ok, message := SyncOutcome(t, data, error).0, SyncOutcome(t, data, error).1;
      if ok {
        match t
        case Orders => orders := data.value;
        case Vehicles => vehicles := data.value;
        case Staff => staff := data.value;
      }
    }
  }
}
