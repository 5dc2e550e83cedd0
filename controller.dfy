/**
 * The station's business logic (src/app/main_controller.py): a scanned order
 * QR starts a weighing, the scale's stable reading is captured as the first
 * or second weight, and a second scan of the same order saves the ticket
 * locally and on the record store.  Status lines the controller emits are
 * collected as notices; the single-shot timers it starts are recorded, and
 * their callbacks are the methods `ExecuteWeighing` and `ResetProcess`,
 * called when the timer fires.
 */
module Controller {
  import opened Wrappers
  import opened Json
  import opened Tickets
  import opened Config
  import opened Repository
  import Api
  import Text
  import Seqs

  /** `STATE_IDLE`, `STATE_PROCESSING`, `STATE_WAITING_CONFIRM`. */
  datatype State = Idle | Processing | WaitingConfirm

  /** One `update_status_signal`: the text and its colour. */
  datatype Notice = Notice(text: string, colour: string)

  const ReadyNotice: Notice := Notice("Sẵn sàng quét mã lệnh.", "black")
  const BusyNotice: Notice := Notice("Hệ thống đang xử lý, vui lòng chờ.", "orange")
  const FirstWeightNotice: Notice := Notice("Đã ghi nhận cân lần 1. Quét lại mã QR để xác nhận lưu.", "green")
  const SecondWeightNotice: Notice := Notice("Đã ghi nhận cân lần 2. Quét lại mã QR để xác nhận lưu.", "green")
  const MismatchNotice: Notice := Notice("Xác nhận thất bại! Sai mã lệnh.", "red")
  const SavingNotice: Notice := Notice("Đang lưu phiếu cân...", "blue")
  const NoHistoryTableNotice: Notice := Notice("Lỗi cấu hình: Không tìm thấy bảng 'Lịch sử cân'.", "red")
  const SavedNotice: Notice := Notice("Lưu phiếu cân thành công!", "green")

  function BadQrNotice(qr: string): Notice
  {
    Notice("Lỗi mã QR: Sai cấu trúc. (" + qr + ")", "red")
  }

  function ReceivedNotice(code: string): Notice
  {
    Notice("Đã nhận lệnh '" + code + "'. Đưa xe vào vị trí cân ổn định.", "blue")
  }

  function ModeRefusedNotice(mode: Json): Notice
  {
    Notice("Chế độ '" + Api.Format(mode) + "' không cho phép thực hiện thao tác này.", "red")
  }

  /** The outcome line of a save: `if error:` a failure with its text, else success. */
  function ResultNotice(error: Option<string>): Notice
  {
    if error.Some? && error.value != [] then Notice("Lưu phiếu cân thất bại: " + error.value, "red") else SavedNotice
  }

  /** The configured table the finished tickets are sent to. */
  const HistoryTable: string := "Lịch sử cân"

  // ---------------------------------------------------------------------------
  // Scanning

  /** `qr_data.strip().split('_')` when it gives exactly three parts: order code, driver code, plate. */
  function ParseScan(qr: string): Option<(string, string, string)>
  {
    var parts := Text.Split(Text.Strip(qr), '_');
    if |parts| == 3 then Some((parts[0], parts[1], parts[2])) else None
  }

  /**
   * A scan is well formed exactly when its stripped text holds two `_`; its
   * three parts then hold no `_` and joined with `_` give the stripped text back.
   */
  lemma ParseScanShape(qr: string)
    ensures ParseScan(qr).Some? <==> Text.Count(Text.Strip(qr), '_') == 2
    ensures ParseScan(qr).Some? ==>
              var p := ParseScan(qr).value;
              '_' !in p.0 && '_' !in p.1 && '_' !in p.2 &&
              p.0 + "_" + p.1 + "_" + p.2 == Text.Strip(qr)
  {
    var s := Text.Strip(qr);
    var parts := Text.Split(s, '_');
    Text.SplitProperties(s, '_');
    if |parts| == 3 {
      assert parts[1..][1..] == [parts[2]];
      assert Text.Join(parts[1..], '_') == parts[1] + "_" + parts[2];
      assert Text.Join(parts, '_') == parts[0] + "_" + (parts[1] + "_" + parts[2]);
    }
  }

  /** The QR text the station's codes are printed as reads back as those three codes. */
  lemma ScanRoundTrip(code: string, driver: string, plate: string)
    requires '_' !in code && '_' !in driver && '_' !in plate
    requires code != [] && !Text.IsSpace(code[0])
    requires plate != [] && !Text.IsSpace(plate[|plate| - 1])
    ensures ParseScan(code + "_" + driver + "_" + plate) == Some((code, driver, plate))
  {
    var s := code + "_" + driver + "_" + plate;
    assert s[0] == code[0] && s[|s| - 1] == plate[|plate| - 1];
    Text.StripOfRendering(s);
    var parts := [code, driver, plate];
    assert parts[1..] == [driver, plate] && parts[1..][1..] == [plate];
    assert Text.Join(parts[1..], '_') == driver + "_" + plate;
    assert Text.Join(parts, '_') == s;
    Text.SplitJoin(parts, '_');
  }

  // ---------------------------------------------------------------------------
  // Building the ticket

  /** `lenh_can_details if lenh_can_details else {'Mã lệnh': ma_lenh}`. */
  function OrderInfo(found: Option<Record>, code: string): Record
  {
    if found.Some? && found.value != [] then found.value else [(OrderCodeKey, JStr(code))]
  }

  /** `lai_xe_details if lai_xe_details else {'Mã lái xe': ma_lai_xe, 'Họ và tên': ma_lai_xe}`. */
  function DriverInfo(found: Option<Record>, code: string): Record
  {
    if found.Some? && found.value != [] then found.value else [(DriverCodeKey, JStr(code)), (DriverNameKey, JStr(code))]
  }

  /** `phuong_tien_details if phuong_tien_details else {'Biển số': bien_so_xe}`. */
  function VehicleInfo(found: Option<Record>, plate: string): Record
  {
    if found.Some? && found.value != [] then found.value else [(PlateKey, JStr(plate))]
  }

  /**
   * Whether a row was found (it then carries the scanned code under its key)
   * or a placeholder stands in, the record shown carries the scanned code; a
   * placeholder holds nothing else, and the driver's name is the code.
   */
  lemma InfosCarryCodes(order: Option<Record>, driver: Option<Record>, vehicle: Option<Record>,
                        code: string, driverCode: string, plate: string)
    requires order.Some? ==> KeyIs(order.value, OrderCodeKey, code)
    requires driver.Some? ==> KeyIs(driver.value, DriverCodeKey, driverCode)
    requires vehicle.Some? ==> KeyIs(vehicle.value, PlateKey, plate)
    ensures DictGet(OrderInfo(order, code), OrderCodeKey) == JStr(code)
    ensures DictGet(DriverInfo(driver, driverCode), DriverCodeKey) == JStr(driverCode)
    ensures DictGet(VehicleInfo(vehicle, plate), PlateKey) == JStr(plate)
    ensures order.None? ==> |OrderInfo(order, code)| == 1
    ensures vehicle.None? ==> |VehicleInfo(vehicle, plate)| == 1
    ensures driver.None? ==> |DriverInfo(driver, driverCode)| == 2 &&
                             DictGet(DriverInfo(driver, driverCode), DriverNameKey) == JStr(driverCode)
  {
    assert DriverCodeKey[0] != DriverNameKey[0];
    assert DriverCodeKey != DriverNameKey;
    if driver.None? {
      var placeholder := DriverInfo(driver, driverCode);
      assert placeholder[1..] == [(DriverNameKey, JStr(driverCode))];
      assert Member(placeholder[1..], DriverNameKey) == Some(JStr(driverCode));
      assert Member(placeholder, DriverNameKey) == Member(placeholder[1..], DriverNameKey);
    }
  }

  /** What a ticket holds besides the four fields a reused ticket takes from the rows. */
  function Progress(t: Ticket): (Json, Json, Json, Json, Json, Json, Option<int>, Option<string>,
                                 Option<int>, Option<string>, Option<int>, Option<int>, Json, Json)
  {
    (t.orderCode, t.plate, t.driverCode, t.inbound, t.outbound, t.category, t.weight1, t.time1,
     t.weight2, t.time2, t.cargoWeight, t.tareDeviation, t.id, t.station)
  }

  /** `_build_weighing_ticket`: refresh a pending ticket of the order, or start a new one. */
  function BuildTicket(order: Record, driver: Record, vehicle: Record, pending: Option<Ticket>): Ticket
  {
    match pending
    case Some(p) =>
      p.(cargoName := DictGet(order, CargoNameKey, p.cargoName),
         shortName := DictGet(vehicle, ShortNameKey, p.shortName),
         tare := DictGet(vehicle, VehicleTareKey, p.tare),
         unit := DictGet(driver, UnitKey, p.unit))
    case None =>
      Ticket(DictGet(order, OrderCodeKey), DictGet(vehicle, PlateKey), DictGet(driver, DriverCodeKey),
             DictGet(order, CargoNameKey, JStr("N/A")), DictGet(vehicle, ShortNameKey, JStr("N/A")),
             DictGet(vehicle, VehicleTareKey), DictGet(driver, UnitKey),
             DictGet(order, InboundKey), DictGet(order, OutboundKey), DictGet(order, CategoryKey),
             None, None, None, None, None, None, JNull, JNull)
  }

  /**
   * A reused pending ticket keeps its weights, times, derived values, id and
   * codes; each refreshed field takes the row's value when the row has the
   * key, and keeps the ticket's own otherwise.
   */
  lemma ReuseKeepsProgress(order: Record, driver: Record, vehicle: Record, p: Ticket)
    ensures var r := BuildTicket(order, driver, vehicle, Some(p));
            Progress(r) == Progress(p) &&
            (Member(order, CargoNameKey).Some? ==> r.cargoName == Member(order, CargoNameKey).value) &&
            (Member(order, CargoNameKey).None? ==> r.cargoName == p.cargoName) &&
            (Member(vehicle, ShortNameKey).Some? ==> r.shortName == Member(vehicle, ShortNameKey).value) &&
            (Member(vehicle, ShortNameKey).None? ==> r.shortName == p.shortName) &&
            (Member(vehicle, VehicleTareKey).Some? ==> r.tare == Member(vehicle, VehicleTareKey).value) &&
            (Member(vehicle, VehicleTareKey).None? ==> r.tare == p.tare) &&
            (Member(driver, UnitKey).Some? ==> r.unit == Member(driver, UnitKey).value) &&
            (Member(driver, UnitKey).None? ==> r.unit == p.unit)
  {
  }

  /** A new ticket has no weight, time, derived value or id yet, and "N/A" for a missing cargo or short name. */
  lemma FreshTicketEmpty(order: Record, driver: Record, vehicle: Record)
    ensures var r := BuildTicket(order, driver, vehicle, None);
            r.weight1.None? && r.time1.None? && r.weight2.None? && r.time2.None? &&
            r.cargoWeight.None? && r.tareDeviation.None? && r.id == JNull && r.station == JNull &&
            (Member(order, CargoNameKey).None? ==> r.cargoName == JStr("N/A")) &&
            (Member(vehicle, ShortNameKey).None? ==> r.shortName == JStr("N/A"))
  {
  }

  /** The ticket `_handle_new_weighing_request` builds from the repository's caches. */
  function TicketFor(repo: Repository, code: string, driverCode: string, plate: string): Ticket
    reads repo
  {
    BuildTicket(OrderInfo(repo.OrderByCode(code), code), DriverInfo(repo.StaffByCode(driverCode), driverCode),
                VehicleInfo(repo.VehicleByPlate(plate), plate), repo.FindPending(code))
  }

  /**
   * The ticket of a scan always belongs to the scanned order; a new one also
   * carries the scanned plate and driver code, found in the caches or not.
   */
  lemma TicketForCodes(repo: Repository, code: string, driverCode: string, plate: string)
    ensures TicketFor(repo, code, driverCode, plate).orderCode == JStr(code)
    ensures repo.FindPending(code).None? ==>
              TicketFor(repo, code, driverCode, plate).plate == JStr(plate) &&
              TicketFor(repo, code, driverCode, plate).driverCode == JStr(driverCode)
  {
    var order := repo.OrderByCode(code);
    var driver := repo.StaffByCode(driverCode);
    var vehicle := repo.VehicleByPlate(plate);
    InfosCarryCodes(order, driver, vehicle, code, driverCode, plate);
  }

  // ---------------------------------------------------------------------------
  // Weighing

  function Abs(x: int): nat { if x < 0 then -x else x }
  function Min(a: int, b: int): int { if a <= b then a else b }
  function Max(a: int, b: int): int { if a <= b then b else a }

  /** The number Python subtracts for a tare: an integer, or a bool as 0 or 1; nothing else subtracts from an int. */
  function TareValue(tare: Json): Option<int>
  {
    match tare
    case JNum(n) => Some(n)
    case JBool(b) => Some(if b then 1 else 0)
    case _ => None
  }

  /**
   * `_calculate_final_weight`: the ticket afterwards and whether it raised.
   * With both weights the net cargo is stored first; a tare that is neither
   * None nor a number then raises TypeError with the net cargo already stored.
   */
  function CalculateFinalWeight(t: Ticket): (Ticket, bool)
  {
    if t.weight1.None? || t.weight2.None? then (t, false)
    else
      var w1 := t.weight1.value;
      var w2 := t.weight2.value;
      var withCargo := t.(cargoWeight := Some(Abs(w1 - w2)));
      if t.tare == JNull then (withCargo, false)
      else if TareValue(t.tare).Some? then (withCargo.(tareDeviation := Some(Min(w1, w2) - TareValue(t.tare).value)), false)
      else (withCargo, true)
  }

  /**
   * Without both weights nothing changes.  With both, the net cargo is the
   * heavier weighing less the lighter; with a numeric tare the deviation is the
   * lighter weighing less the tare, so net, deviation and tare add up to the
   * heavier weighing; without a tare the deviation is left as it was.  Only the
   * two derived fields ever change, and only a non-numeric tare raises.
   */
  lemma FinalWeightSpec(t: Ticket)
    ensures var r := CalculateFinalWeight(t);
            r.0.(cargoWeight := t.cargoWeight, tareDeviation := t.tareDeviation) == t
    ensures t.weight1.None? || t.weight2.None? ==> CalculateFinalWeight(t) == (t, false)
    ensures var r := CalculateFinalWeight(t);
            t.weight1.Some? && t.weight2.Some? ==>
              var w1 := t.weight1.value;
              var w2 := t.weight2.value;
              r.0.cargoWeight.Some? && Min(w1, w2) + r.0.cargoWeight.value == Max(w1, w2) &&
              (r.1 <==> t.tare != JNull && TareValue(t.tare).None?) &&
              (t.tare == JNull ==> r.0.tareDeviation == t.tareDeviation) &&
              (TareValue(t.tare).Some? ==>
                 r.0.tareDeviation.Some? &&
                 r.0.tareDeviation.value + TareValue(t.tare).value == Min(w1, w2) &&
                 r.0.cargoWeight.value + r.0.tareDeviation.value + TareValue(t.tare).value == Max(w1, w2))
  {
  }

  /** Which weighing was the heavier one does not matter: swapping the two weights gives the same net and deviation. */
  lemma FinalWeightSymmetric(t: Ticket, w1: int, w2: int)
    ensures var a := CalculateFinalWeight(t.(weight1 := Some(w1), weight2 := Some(w2)));
            var b := CalculateFinalWeight(t.(weight1 := Some(w2), weight2 := Some(w1)));
            a.0.cargoWeight == b.0.cargoWeight && a.0.tareDeviation == b.0.tareDeviation && a.1 == b.1
  {
  }

  /** What a stable reading does to the ticket. */
  datatype Capture =
    | FirstWeight(ticket: Ticket)               // stored as the first weight
    | SecondWeight(ticket: Ticket, raised: bool) // stored as the second weight, derived values computed
    | NotAllowed                                 // the mode allows neither

  predicate AllowsFirst(mode: Json) { mode == JStr("auto") || mode == JStr("in") }
  predicate AllowsSecond(mode: Json) { mode == JStr("auto") || mode == JStr("out") }

  /** The branches of `_execute_weighing` for the configured mode, the current weight and the clock text. */
  function TakeReading(t: Ticket, mode: Json, weight: int, now: string): Capture
  {
    if t.weight1.None? && AllowsFirst(mode) then FirstWeight(t.(weight1 := Some(weight), time1 := Some(now)))
    else if t.weight1.Some? && AllowsSecond(mode) then
      var d := CalculateFinalWeight(t.(weight2 := Some(weight), time2 := Some(now)));
      SecondWeight(d.0, d.1)
    else NotAllowed
  }

  /**
   * The reading is the first weight exactly when none is held and the mode is
   * `auto` or `in`, and the second exactly when one is held and the mode is
   * `auto` or `out`; `in` never takes a second weight nor `out` a first.  The
   * first weighing changes only the first weight and its time; the second keeps
   * the first weight and stores the net cargo between the two.
   */
  lemma TakeReadingSpec(t: Ticket, mode: Json, weight: int, now: string)
    ensures TakeReading(t, mode, weight, now).FirstWeight? <==> t.weight1.None? && AllowsFirst(mode)
    ensures TakeReading(t, mode, weight, now).SecondWeight? <==> t.weight1.Some? && AllowsSecond(mode)
    ensures mode == JStr("in") ==> !TakeReading(t, mode, weight, now).SecondWeight?
    ensures mode == JStr("out") ==> !TakeReading(t, mode, weight, now).FirstWeight?
    ensures var c := TakeReading(t, mode, weight, now);
            c.FirstWeight? ==> c.ticket.weight1 == Some(weight) && c.ticket.time1 == Some(now) &&
                               c.ticket.(weight1 := t.weight1, time1 := t.time1) == t
    ensures var c := TakeReading(t, mode, weight, now);
            c.SecondWeight? ==> c.ticket.weight1 == t.weight1 && c.ticket.weight2 == Some(weight) &&
                                c.ticket.time2 == Some(now) && c.ticket.cargoWeight == Some(Abs(t.weight1.value - weight))
  {
    if t.weight1.Some? && AllowsSecond(mode) && !(t.weight1.None? && AllowsFirst(mode)) {
      FinalWeightSpec(t.(weight2 := Some(weight), time2 := Some(now)));
    }
  }

  /**
   * In `auto` mode a new ticket weighed twice holds both readings and the net
   * cargo between them.
   */
  lemma TwoWeighings(t: Ticket, w1: int, w2: int, now1: string, now2: string)
    requires t.weight1.None?
    ensures TakeReading(t, JStr("auto"), w1, now1).FirstWeight?
    ensures var first := TakeReading(t, JStr("auto"), w1, now1).ticket;
            var second := TakeReading(first, JStr("auto"), w2, now2);
            second.SecondWeight? && second.ticket.weight1 == Some(w1) && second.ticket.weight2 == Some(w2) &&
            second.ticket.cargoWeight == Some(Abs(w1 - w2))
  {
    var first := TakeReading(t, JStr("auto"), w1, now1).ticket;
    TakeReadingSpec(first, JStr("auto"), w2, now2);
  }

  // ---------------------------------------------------------------------------
  // Saving

  /** `value * 1000` given to a QTimer: milliseconds for an integer (a bool counts 0 or 1); anything else raises TypeError. */
  function Millis(v: Json): Option<int>
  {
    match v
    case JNum(n) => Some(n * 1000)
    case JBool(b) => Some(if b then 1000 else 0)
    case _ => None
  }

  /** The text holds "Id" (Python's `'Id' in s` on a string). */
  predicate HasIdText(s: string)
    decreases |s|
  {
    |s| >= 2 && ((s[0] == 'I' && s[1] == 'd') || HasIdText(s[1..]))
  }

  /** What `if response and 'Id' in response: ... = response.get('Id')` does with the created record's response. */
  datatype Adoption = KeepId | AdoptId(id: Json) | AdoptRaises

  function AdoptedId(response: Json): (r: Adoption)
    ensures r.AdoptId? <==> response.JObject? && Member(response.fields, "Id").Some?
    ensures r.AdoptId? ==> r.id == Member(response.fields, "Id").value
    ensures response.JObject? && r.AdoptRaises? ==> false
    ensures !Truthy(response) ==> r.KeepId?
  {
    if !Truthy(response) then KeepId
    else
      match response
      case JObject(fields) => if Member(fields, "Id").Some? then AdoptId(Member(fields, "Id").value) else KeepId
      case JArray(items) => if JStr("Id") in items then AdoptRaises else KeepId  // a list has no `get`
      case JStr(s) => if HasIdText(s) then AdoptRaises else KeepId               // nor has a string
      case _ => AdoptRaises                                                      // `in` on a number: TypeError
  }

  /** `table_info.get('id')`. */
  function TableId(info: Json): Json
  {
    match info
    case JObject(fields) => DictGet(fields, "id")
    case _ => JNull
  }

  /**
   * `update_phieu_can_api` AS WRITTEN: it passes the table id, the ticket's
   * id and the ticket to `update_record(table_id, data)`, which takes two
   * arguments, so the call raises TypeError before any request is made.
   */
  function UpdateAsWritten(t: Api.Transport): (r: Api.Attempt<(Json, Option<string>)>)
    ensures r.Raised?
  {
    Api.Raised("ApiClient.update_record() takes 3 positional arguments but 4 were given")
  }

  /** As written every update raises; as intended the PATCH is made and its result or error returned. */
  lemma UpdateArityMismatch(t: Api.Transport)
    ensures UpdateAsWritten(t).Raised?
    ensures Api.UpdateRecord(t).1.None? <==> t.Responded?
    ensures t.TransportFailed? ==> Api.UpdateRecord(t).1 == Some(Api.PatchErrorPrefix + t.detail)
  {
  }

  /** The pending list with the controller's ticket written through the alias it may have in it. */
  function Mirror(pending: seq<Ticket>, linked: Option<nat>, t: Ticket): seq<Ticket>
  {
    if linked.Some? && linked.value < |pending| then pending[linked.value := t] else pending
  }

  /**
   * Adopting the id the store returned and saving again leaves exactly what
   * saving the adopted ticket once would: the first save's entry, aliased by
   * the ticket, is replaced.
   */
  lemma ResaveAfterAdopt(pending: seq<Ticket>, t: Ticket, id: Json)
    ensures var once := AfterSave(pending, t);
            AfterSave(once[|once| - 1 := t.(id := id)], t.(id := id)) == AfterSave(pending, t.(id := id))
  {
    var w := WithoutCode(pending, t.orderCode);
    var once := AfterSave(pending, t);
    var adopted := t.(id := id);
    var mutated := once[|once| - 1 := adopted];
    assert mutated == w + [adopted];
    WithoutCodeKeepsOrder(w, [adopted], adopted.orderCode);
    assert Seqs.Filter([adopted], OtherCode(adopted.orderCode)) == [] by {
      assert [adopted][1..] == [];
    }
    WithoutCodeSpec(pending, t.orderCode);
    WithoutCodeIdempotent(pending, t.orderCode);
  }

  /** Removing an order code twice is removing it once. */
  lemma WithoutCodeIdempotent(pending: seq<Ticket>, code: Json)
    ensures WithoutCode(WithoutCode(pending, code), code) == WithoutCode(pending, code)
  {
    var w := WithoutCode(pending, code);
    forall i | 0 <= i < |w| ensures OtherCode(code)(w[i]) {
      assert w[i] in w;
      Seqs.FilterMember(pending, OtherCode(code), w[i]);
    }
    Seqs.FilterAll(w, OtherCode(code));
  }

  // ---------------------------------------------------------------------------
  // The controller

  /** A single-shot timer the controller starts (`QTimer.singleShot`): its delay in ms and the callback it calls. */
  datatype Shot =
    | ExecuteAfter(ms: int)  // `_execute_weighing`
    | ResetAfter(ms: int)    // `reset_process`

  /** A request sent to the table the finished tickets go to, with the ticket as it was sent. */
  datatype Request = CreateRequest(tableId: Json, body: Ticket) | UpdateRequest(tableId: Json, body: Ticket)

  // The configuration the controller reads, each a `config.get` of a fixed
  // path (the lemma beside each says so), looked up key by key.

  /** `config.get('scale_mode.type', 'auto')`. */
  function ScaleMode(config: ConfigManager): Json
    reads config
  {
    Lookup(config.config, ["scale_mode", "type"], JStr("auto"))
  }

  lemma ScaleModeIsGet(config: ConfigManager)
    ensures ScaleMode(config) == config.Get("scale_mode.type", JStr("auto"))
  {
    config.GetByKeys(["scale_mode", "type"], JStr("auto"));
    assert Text.Join(["scale_mode", "type"], '.') == "scale_mode.type";
  }

  /** `config.get('app.stable_time', 3)`, in seconds. */
  function StableTime(config: ConfigManager): Json
    reads config
  {
    Lookup(config.config, ["app", "stable_time"], JNum(3))
  }

  lemma StableTimeIsGet(config: ConfigManager)
    ensures StableTime(config) == config.Get("app.stable_time", JNum(3))
  {
    config.GetByKeys(["app", "stable_time"], JNum(3));
    assert Text.Join(["app", "stable_time"], '.') == "app.stable_time";
  }

  /** `config.get('reset_time', 15)`, in seconds. */
  function ResetTime(config: ConfigManager): Json
    reads config
  {
    Lookup(config.config, ["reset_time"], JNum(15))
  }

  lemma ResetTimeIsGet(config: ConfigManager)
    ensures ResetTime(config) == config.Get("reset_time", JNum(15))
  {
    config.GetByKeys(["reset_time"], JNum(15));
  }

  /** `config.get('location_label.name', 'N/A')`. */
  function StationName(config: ConfigManager): Json
    reads config
  {
    Lookup(config.config, ["location_label", "name"], JStr("N/A"))
  }

  lemma StationNameIsGet(config: ConfigManager)
    ensures StationName(config) == config.Get("location_label.name", JStr("N/A"))
  {
    config.GetByKeys(["location_label", "name"], JStr("N/A"));
    assert Text.Join(["location_label", "name"], '.') == "location_label.name";
  }

  /** `get_nocodb_table_by_name("Lịch sử cân")`. */
  function HistoryTableInfo(config: ConfigManager): Search
    reads config
  {
    FindNamedIn(Lookup(config.config, ["nocodb", "tables"], JObject([])), HistoryTable)
  }

  lemma HistoryTableInfoIsLookup(config: ConfigManager)
    ensures HistoryTableInfo(config) == config.TableByName(HistoryTable)
  {
    config.GetByKeys(["nocodb", "tables"], JObject([]));
    assert Text.Join(["nocodb", "tables"], '.') == TablesPath;
  }

  class MainController {
    const repo: Repository
    const config: ConfigManager
    var state: State            // current_state
    var currentWeight: int      // current_weight
    var ticket: Ticket          // phieu_can_hien_tai
    var linked: Option<nat>     // the index of the pending entry that is the same dictionary as `ticket`, if any
    var inactivity: Option<int> // the interval of the running inactivity timer; nothing while it is stopped
    var shots: seq<Shot>        // the single-shot timers started, in order
    var notices: seq<Notice>    // the status lines emitted, in order
    var requests: seq<Request>  // the requests sent to the record store, in order

    /** The aliasing between the held ticket and the repository's pending list. */
    predicate Valid()
      reads this, repo
    {
      linked.Some? ==> linked.value < |repo.pending| && repo.pending[linked.value] == ticket
    }

    /** The reference caches and the history, which only a save changes. */
    twostate predicate CachesKept()
      reads repo
    {
      repo.orders == old(repo.orders) && repo.vehicles == old(repo.vehicles) && repo.staff == old(repo.staff)
    }

    constructor (repo: Repository, config: ConfigManager)
      ensures this.repo == repo && this.config == config
      ensures state == Idle && currentWeight == 0 && ticket == Empty && linked.None? && inactivity.None?
      ensures shots == [] && notices == [] && requests == []
      ensures Valid()
    {
      this.repo := repo;
      this.config := config;
      state, currentWeight, ticket, linked, inactivity := Idle, 0, Empty, None, None;
      shots, notices, requests := [], [], [];
    }

    /** `set_current_weight`, the slot of the scale's readings. */
    method SetCurrentWeight(weight: int)
      modifies this
      ensures currentWeight == weight
      ensures state == old(state) && ticket == old(ticket) && linked == old(linked) && inactivity == old(inactivity)
      ensures shots == old(shots) && notices == old(notices) && requests == old(requests)
    {
      currentWeight := weight;
    }

    /** `restart_inactivity_timer`: the timer runs again with the configured interval, unless that raises. */
    method RestartInactivityTimer() returns (raised: bool)
      modifies this
      ensures raised <==> Millis(ResetTime(config)).None?
      ensures inactivity == if raised then old(inactivity) else Millis(ResetTime(config))
      ensures state == old(state) && ticket == old(ticket) && linked == old(linked) && currentWeight == old(currentWeight)
      ensures shots == old(shots) && notices == old(notices) && requests == old(requests)
    {
      var ms := Millis(ResetTime(config));
      raised := ms.None?;
      if !raised {
        inactivity := ms;
      }
    }

    /**
     * `reset_process`, also the callback of the inactivity timer: back to idle
     * with an empty ticket and the timer stopped.  Single-shot timers already
     * started are not cancelled.
     */
    method ResetProcess()
      modifies this
      ensures state == Idle && ticket == Empty && linked.None? && inactivity.None?
      ensures notices == old(notices) + [ReadyNotice]
      ensures currentWeight == old(currentWeight) && shots == old(shots) && requests == old(requests)
      ensures Valid()
    {
      state, ticket, linked, inactivity := Idle, Empty, None, None;
      notices := notices + [ReadyNotice];
    }

    /** A write to the held ticket, seen through the pending entry it is, if it is one. */
    method Store(t: Ticket)
      requires Valid()
      modifies this, repo
      ensures ticket == t && Valid()
      ensures repo.pending == Mirror(old(repo.pending), linked, t)
      ensures linked == old(linked) && state == old(state) && currentWeight == old(currentWeight) && inactivity == old(inactivity)
      ensures shots == old(shots) && notices == old(notices) && requests == old(requests)
      ensures CachesKept() && repo.history == old(repo.history)
    {
      ticket := t;
      if linked.Some? {
        repo.pending := repo.pending[linked.value := t];
      }
    }

    /**
     * Processing starts with `t` held; when `index` names a pending entry,
     * that entry is the same dictionary and reads `t` too.
     */
    method Start(code: string, t: Ticket, index: Option<nat>)
      requires index.Some? ==> index.value < |repo.pending|
      modifies this, repo
      ensures ticket == t && linked == index && Valid()
      ensures repo.pending == Mirror(old(repo.pending), index, t)
      ensures state == Processing && notices == old(notices) + [ReceivedNotice(code)]
      ensures currentWeight == old(currentWeight) && inactivity == old(inactivity)
      ensures shots == old(shots) && requests == old(requests)
      ensures CachesKept() && repo.history == old(repo.history)
    {
      state := Processing;
      notices := notices + [ReceivedNotice(code)];
      if index.Some? {
        repo.pending := repo.pending[index.value := t];
      }
      ticket, linked := t, index;
    }

    /** The ticket a scan builds, and where the order's pending ticket sits, if it has one. */
    method Build(code: string, driverCode: string, plate: string) returns (t: Ticket, index: Option<nat>)
      ensures t == TicketFor(repo, code, driverCode, plate)
      ensures index == PendingIndex(repo.pending, code)
      ensures index.Some? ==> index.value < |repo.pending|
    {
      t := TicketFor(repo, code, driverCode, plate);
      index := PendingIndex(repo.pending, code);
    }

    /** `QTimer.singleShot(stable_time * 1000, self._execute_weighing)`. */
    method ScheduleExecute() returns (raised: bool)
      modifies this
      ensures raised <==> Millis(StableTime(config)).None?
      ensures shots == old(shots) + (if raised then [] else [ExecuteAfter(Millis(StableTime(config)).value)])
      ensures state == old(state) && ticket == old(ticket) && linked == old(linked)
      ensures currentWeight == old(currentWeight) && inactivity == old(inactivity)
      ensures notices == old(notices) && requests == old(requests)
    {
      var ms := Millis(StableTime(config));
      raised := ms.None?;
      if !raised {
        shots := shots + [ExecuteAfter(ms.value)];
      }
    }

    /**
     * `_handle_new_weighing_request`: the ticket is built from the caches, a
     * pending ticket of the order being refreshed in place, and the capture is
     * scheduled after the configured settling time.
     */
    method NewWeighingRequest(code: string, driverCode: string, plate: string) returns (raised: bool)
      requires Valid()
      modifies this, repo
      ensures Valid()
      ensures state == Processing
      ensures notices == old(notices) + [ReceivedNotice(code)]
      ensures ticket == old(TicketFor(repo, code, driverCode, plate))
      ensures linked == old(PendingIndex(repo.pending, code))
      ensures repo.pending == Mirror(old(repo.pending), linked, ticket)
      ensures raised <==> Millis(StableTime(config)).None?
      ensures shots == old(shots) + (if raised then [] else [ExecuteAfter(Millis(StableTime(config)).value)])
      ensures currentWeight == old(currentWeight) && inactivity == old(inactivity) && requests == old(requests)
      ensures CachesKept() && repo.history == old(repo.history)
    {
      var built, index := Build(code, driverCode, plate);
      Start(code, built, index);
      raised := ScheduleExecute();
    }

    /**
     * `_execute_weighing`, the callback of the settling timer: the current
     * weight becomes the first or the second weight as the mode allows, and the
     * controller waits for the confirming scan; a mode that allows neither
     * resets.
     */
    method ExecuteWeighing(now: string) returns (raised: bool)
      requires Valid()
      modifies this, repo
      ensures Valid()
      ensures var c := TakeReading(old(ticket), ScaleMode(config), old(currentWeight), now);
              c.NotAllowed? ==>
                !raised && state == Idle && ticket == Empty && linked.None? && inactivity.None? &&
                notices == old(notices) + [ModeRefusedNotice(ScaleMode(config)), ReadyNotice] &&
                repo.pending == old(repo.pending)
      ensures var c := TakeReading(old(ticket), ScaleMode(config), old(currentWeight), now);
              !c.NotAllowed? ==>
                ticket == c.ticket && linked == old(linked) && repo.pending == Mirror(old(repo.pending), linked, ticket)
      ensures var c := TakeReading(old(ticket), ScaleMode(config), old(currentWeight), now);
              c.SecondWeight? && c.raised ==>
                raised && state == old(state) && notices == old(notices) && inactivity == old(inactivity)
      ensures var c := TakeReading(old(ticket), ScaleMode(config), old(currentWeight), now);
              c.FirstWeight? || (c.SecondWeight? && !c.raised) ==>
                state == WaitingConfirm &&
                notices == old(notices) + [if c.FirstWeight? then FirstWeightNotice else SecondWeightNotice] &&
                (raised <==> Millis(ResetTime(config)).None?) &&
                inactivity == (if raised then old(inactivity) else Millis(ResetTime(config)))
      ensures currentWeight == old(currentWeight) && shots == old(shots) && requests == old(requests)
      ensures CachesKept() && repo.history == old(repo.history)
    {
      raised := false;
      var mode := ScaleMode(config);
      match TakeReading(ticket, mode, currentWeight, now) {
        case NotAllowed =>
          notices := notices + [ModeRefusedNotice(mode)];
          ResetProcess();
          return;
        case FirstWeight(t) =>
          Store(t);
          notices := notices + [FirstWeightNotice];
        case SecondWeight(t, failed) =>
          Store(t);
          if failed {
            raised := true;
            return;
          }
          notices := notices + [SecondWeightNotice];
      }
      state := WaitingConfirm;
      raised := RestartInactivityTimer();
    }

    /** The ticket with the station written into it, and where that leaves the pending list. */
    function Stamped(): Ticket
      reads this, config
    {
      ticket.(station := StationName(config))
    }

    /**
     * The update branch of `_handle_save_confirmation` as evidently intended:
     * the pending entries of the order move to the history, then the ticket is
     * sent as a PATCH.
     */
    method SaveUpdate(tableId: Json, transport: Api.Transport) returns (error: Option<string>)
      requires Valid()
      modifies this, repo
      ensures Valid() && linked.None? && ticket == old(ticket)
      ensures repo.pending == WithoutCode(old(repo.pending), ticket.orderCode)
      ensures repo.history == old(repo.history) + [ticket]
      ensures requests == old(requests) + [UpdateRequest(tableId, ticket)]
      ensures error == Api.UpdateRecord(transport).1
      ensures state == old(state) && currentWeight == old(currentWeight) && inactivity == old(inactivity)
      ensures shots == old(shots) && notices == old(notices)
      ensures CachesKept()
    {
      repo.Complete(ticket);
      linked := None;
      requests := requests + [UpdateRequest(tableId, ticket)];
      error := Api.UpdateRecord(transport).1;
    }

    /**
     * The create branch of `_handle_save_confirmation`: the ticket is saved
     * as pending and POSTed; an id in the answer is written into the ticket,
     * which is saved again.
     */
    method SaveCreate(tableId: Json, transport: Api.Transport) returns (raised: bool, error: Option<string>)
      requires Valid()
      modifies this, repo
      ensures Valid()
      ensures var answer := Api.CreateRecord(transport);
              var adoption := AdoptedId(answer.0);
              (raised <==> adoption.AdoptRaises?) &&
              ticket == (if adoption.AdoptId? then old(ticket).(id := adoption.id) else old(ticket)) &&
              error == answer.1
      ensures repo.pending == AfterSave(old(repo.pending), ticket) && linked == Some(|repo.pending| - 1)
      ensures requests == old(requests) + [CreateRequest(tableId, old(ticket))]
      ensures repo.history == old(repo.history)
      ensures state == old(state) && currentWeight == old(currentWeight) && inactivity == old(inactivity)
      ensures shots == old(shots) && notices == old(notices)
      ensures CachesKept()
    {
      raised := false;
      ghost var before := repo.pending;
      repo.SavePending(ticket);
      linked := Some(|repo.pending| - 1);
      requests := requests + [CreateRequest(tableId, ticket)];
      var answer := Api.CreateRecord(transport);
      error := answer.1;
      match AdoptedId(answer.0) {
        case KeepId =>
        case AdoptRaises =>
          raised := true;
        case AdoptId(id) =>
          ghost var saved := ticket;
          Store(ticket.(id := id));
          repo.SavePending(ticket);
          linked := Some(|repo.pending| - 1);
          ResaveAfterAdopt(before, saved, id);
      }
    }

    /**
     * The saving part of `_handle_save_confirmation`, once the station is in
     * the held ticket: a malformed `nocodb.tables` raises, and without a
     * history table it stops; a ticket with an id
     * completes its order and is PATCHed, one without is saved as pending and
     * POSTed; and a reset is scheduled three seconds later unless adopting
     * the answer's id raised.
     */
    method SaveHeld(transport: Api.Transport) returns (raised: bool)
      requires Valid()
      modifies this, repo
      ensures Valid()
      ensures HistoryTableInfo(config).SearchRaises? ==>
                raised && ticket == old(ticket) && linked == old(linked) && notices == old(notices) &&
                repo.pending == old(repo.pending) && repo.history == old(repo.history) &&
                requests == old(requests) && shots == old(shots)
      ensures HistoryTableInfo(config).NoMatch? ==>
                !raised && ticket == old(ticket) && linked == old(linked) &&
                notices == old(notices) + [NoHistoryTableNotice] &&
                repo.pending == old(repo.pending) && repo.history == old(repo.history) &&
                requests == old(requests) && shots == old(shots)
      ensures HistoryTableInfo(config).Match? && old(ticket.id) != JNull ==>
                !raised && ticket == old(ticket) && linked.None? &&
                repo.pending == WithoutCode(old(repo.pending), ticket.orderCode) &&
                repo.history == old(repo.history) + [ticket] &&
                requests == old(requests) + [UpdateRequest(TableId(HistoryTableInfo(config).value), ticket)] &&
                notices == old(notices) + [ResultNotice(Api.UpdateRecord(transport).1)] &&
                shots == old(shots) + [ResetAfter(3000)]
      ensures HistoryTableInfo(config).Match? && old(ticket.id) == JNull ==>
                var answer := Api.CreateRecord(transport);
                var adoption := AdoptedId(answer.0);
                (raised <==> adoption.AdoptRaises?) &&
                ticket == (if adoption.AdoptId? then old(ticket).(id := adoption.id) else old(ticket)) &&
                repo.pending == AfterSave(old(repo.pending), ticket) &&
                linked == Some(|repo.pending| - 1) && repo.history == old(repo.history) &&
                requests == old(requests) + [CreateRequest(TableId(HistoryTableInfo(config).value), old(ticket))] &&
                notices == old(notices) + (if raised then [] else [ResultNotice(answer.1)]) &&
                shots == old(shots) + (if raised then [] else [ResetAfter(3000)])
      ensures state == old(state) && currentWeight == old(currentWeight) && inactivity == old(inactivity)
      ensures CachesKept()
    {
      raised := false;
      var tableInfo := HistoryTableInfo(config);
      if tableInfo.SearchRaises? {
        raised := true;
        return;
      }
      if tableInfo.NoMatch? {
        notices := notices + [NoHistoryTableNotice];
        return;
      }
      var tableId := TableId(tableInfo.value);
      var error;
      if ticket.id != JNull {
        error := SaveUpdate(tableId, transport);
      } else {
        raised, error := SaveCreate(tableId, transport);
        if raised {
          return;
        }
      }
      notices := notices + [ResultNotice(error)];
      shots := shots + [ResetAfter(3000)];
    }

    /** The station is written into the held ticket, which is then saved. */
    method Confirm(transport: Api.Transport) returns (raised: bool)
      requires Valid()
      modifies this, repo
      ensures Valid()
      ensures state == old(state) && inactivity == old(inactivity) &&
                |notices| > |old(notices)| && notices[|old(notices)|] == SavingNotice
      ensures HistoryTableInfo(config).SearchRaises? ==>
                raised && ticket == old(Stamped()) && linked == old(linked) &&
                notices == old(notices) + [SavingNotice] &&
                repo.pending == Mirror(old(repo.pending), linked, ticket) && repo.history == old(repo.history) &&
                requests == old(requests) && shots == old(shots)
      ensures HistoryTableInfo(config).NoMatch? ==>
                !raised && ticket == old(Stamped()) && linked == old(linked) &&
                notices == old(notices) + [SavingNotice, NoHistoryTableNotice] &&
                repo.pending == Mirror(old(repo.pending), linked, ticket) && repo.history == old(repo.history) &&
                requests == old(requests) && shots == old(shots)
      ensures HistoryTableInfo(config).Match? && old(ticket.id) != JNull ==>
                var stamped := old(Stamped());
                !raised && ticket == stamped && linked.None? &&
                repo.pending == WithoutCode(Mirror(old(repo.pending), old(linked), stamped), stamped.orderCode) &&
                repo.history == old(repo.history) + [stamped] &&
                requests == old(requests) + [UpdateRequest(TableId(HistoryTableInfo(config).value), stamped)] &&
                notices == old(notices) + [SavingNotice, ResultNotice(Api.UpdateRecord(transport).1)] &&
                shots == old(shots) + [ResetAfter(3000)]
      ensures HistoryTableInfo(config).Match? && old(ticket.id) == JNull ==>
                var stamped := old(Stamped());
                var answer := Api.CreateRecord(transport);
                var adoption := AdoptedId(answer.0);
                (raised <==> adoption.AdoptRaises?) &&
                ticket == (if adoption.AdoptId? then stamped.(id := adoption.id) else stamped) &&
                repo.pending == AfterSave(Mirror(old(repo.pending), old(linked), stamped), ticket) &&
                linked == Some(|repo.pending| - 1) && repo.history == old(repo.history) &&
                requests == old(requests) + [CreateRequest(TableId(HistoryTableInfo(config).value), stamped)] &&
                notices == old(notices) + [SavingNotice] + (if raised then [] else [ResultNotice(answer.1)]) &&
                shots == old(shots) + (if raised then [] else [ResetAfter(3000)])
      ensures currentWeight == old(currentWeight) && CachesKept()
    {
      notices := notices + [SavingNotice];
      Store(Stamped());
      raised := SaveHeld(transport);
    }

    /**
     * `_handle_save_confirmation` for the scanned order code.  A code other
     * than the held ticket's resets the process; otherwise the station is
     * written into the ticket and it is saved.
     */
    method SaveConfirmation(code: string, transport: Api.Transport) returns (raised: bool)
      requires Valid()
      modifies this, repo
      ensures Valid()
      ensures JStr(code) != old(ticket.orderCode) ==>
                !raised && state == Idle && ticket == Empty && linked.None? && inactivity.None? &&
                notices == old(notices) + [MismatchNotice, ReadyNotice] &&
                repo.pending == old(repo.pending) && repo.history == old(repo.history) &&
                requests == old(requests) && shots == old(shots)
      ensures JStr(code) == old(ticket.orderCode) ==>
                state == old(state) && inactivity == old(inactivity) &&
                |notices| > |old(notices)| && notices[|old(notices)|] == SavingNotice
      ensures JStr(code) == old(ticket.orderCode) && HistoryTableInfo(config).SearchRaises? ==>
                raised && ticket == old(Stamped()) && linked == old(linked) &&
                notices == old(notices) + [SavingNotice] &&
                repo.pending == Mirror(old(repo.pending), linked, ticket) && repo.history == old(repo.history) &&
                requests == old(requests) && shots == old(shots)
      ensures JStr(code) == old(ticket.orderCode) && HistoryTableInfo(config).NoMatch? ==>
                !raised && ticket == old(Stamped()) && linked == old(linked) &&
                notices == old(notices) + [SavingNotice, NoHistoryTableNotice] &&
                repo.pending == Mirror(old(repo.pending), linked, ticket) && repo.history == old(repo.history) &&
                requests == old(requests) && shots == old(shots)
      ensures JStr(code) == old(ticket.orderCode) && HistoryTableInfo(config).Match? && old(ticket.id) != JNull ==>
                var stamped := old(Stamped());
                !raised && ticket == stamped && linked.None? &&
                repo.pending == WithoutCode(Mirror(old(repo.pending), old(linked), stamped), stamped.orderCode) &&
                repo.history == old(repo.history) + [stamped] &&
                requests == old(requests) + [UpdateRequest(TableId(HistoryTableInfo(config).value), stamped)] &&
                notices == old(notices) + [SavingNotice, ResultNotice(Api.UpdateRecord(transport).1)] &&
                shots == old(shots) + [ResetAfter(3000)]
      ensures JStr(code) == old(ticket.orderCode) && HistoryTableInfo(config).Match? && old(ticket.id) == JNull ==>
                var stamped := old(Stamped());
                var answer := Api.CreateRecord(transport);
                var adoption := AdoptedId(answer.0);
                (raised <==> adoption.AdoptRaises?) &&
                ticket == (if adoption.AdoptId? then stamped.(id := adoption.id) else stamped) &&
                repo.pending == AfterSave(Mirror(old(repo.pending), old(linked), stamped), ticket) &&
                linked == Some(|repo.pending| - 1) && repo.history == old(repo.history) &&
                requests == old(requests) + [CreateRequest(TableId(HistoryTableInfo(config).value), stamped)] &&
                notices == old(notices) + [SavingNotice] + (if raised then [] else [ResultNotice(answer.1)]) &&
                shots == old(shots) + (if raised then [] else [ResetAfter(3000)])
      ensures currentWeight == old(currentWeight) && CachesKept()
    {
      raised := false;
      if JStr(code) != ticket.orderCode {
        notices := notices + [MismatchNotice];
        ResetProcess();
        return;
      }
      raised := Confirm(transport);
    }

    /**
     * `handle_qr_scan`: the inactivity timer restarts, then a well-formed scan
     * starts a weighing when idle, confirms it when waiting, and is refused
     * while the weighing is being processed.
     */
    method HandleQrScan(qr: string, transport: Api.Transport) returns (raised: bool)
      requires Valid()
      modifies this, repo
      ensures Valid()
      ensures Millis(ResetTime(config)).None? ==>
                raised && state == old(state) && ticket == old(ticket) && notices == old(notices) &&
                inactivity == old(inactivity) && repo.pending == old(repo.pending)
      ensures Millis(ResetTime(config)).Some? && ParseScan(qr).None? ==>
                !raised && state == old(state) && ticket == old(ticket) && inactivity == Millis(ResetTime(config)) &&
                notices == old(notices) + [BadQrNotice(qr)] && repo.pending == old(repo.pending)
      ensures Millis(ResetTime(config)).Some? && ParseScan(qr).Some? && old(state) == Processing ==>
                !raised && state == Processing && ticket == old(ticket) && inactivity == Millis(ResetTime(config)) &&
                notices == old(notices) + [BusyNotice] && repo.pending == old(repo.pending)
      ensures Millis(ResetTime(config)).None? || ParseScan(qr).None? || old(state) == Processing ==>
                linked == old(linked) && shots == old(shots) && requests == old(requests) && repo.history == old(repo.history)
      ensures Millis(ResetTime(config)).Some? && ParseScan(qr).Some? && old(state) == Idle ==>
                var p := ParseScan(qr).value;
                state == Processing && ticket == old(TicketFor(repo, p.0, p.1, p.2)) &&
                notices == old(notices) + [ReceivedNotice(p.0)] && inactivity == Millis(ResetTime(config))
      ensures Millis(ResetTime(config)).Some? && ParseScan(qr).Some? && old(state) == WaitingConfirm ==>
                var p := ParseScan(qr).value;
                (JStr(p.0) != old(ticket.orderCode) ==>
                   state == Idle && ticket == Empty && notices == old(notices) + [MismatchNotice, ReadyNotice]) &&
                (JStr(p.0) == old(ticket.orderCode) ==>
                   state == WaitingConfirm && inactivity == Millis(ResetTime(config)) &&
                   |notices| > |old(notices)| && notices[|old(notices)|] == SavingNotice)
      ensures currentWeight == old(currentWeight) && CachesKept()
    {
      raised := RestartInactivityTimer();
      if raised {
        return;
      }
      match ParseScan(qr) {
        case None =>
          notices := notices + [BadQrNotice(qr)];
        case Some(p) =>
          if state == Idle {
            raised := NewWeighingRequest(p.0, p.1, p.2);
          } else if state == WaitingConfirm {
            raised := SaveConfirmation(p.0, transport);
          } else {
            notices := notices + [BusyNotice];
          }
      }
    }
  }
}
