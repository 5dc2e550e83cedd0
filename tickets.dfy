/**
 * The weighing ticket (phiếu cân) and the reference rows it is built from.
 * The source keeps a ticket as a dictionary with the fixed keys named beside
 * each field; a key that is absent and a key holding None read the same
 * (`ticket.get(key)`), so both are JNull (or None) here.
 */
module Tickets {
  import opened Wrappers
  import opened Json

  /** A row of a reference table (orders, vehicles, staff): a JSON object. */
  type Record = Fields

  datatype Ticket = Ticket(
    orderCode: Json,            // "Mã lệnh"
    plate: Json,                // "Biển số"
    driverCode: Json,           // "Mã lái xe"
    cargoName: Json,            // "Tên hàng hoá"
    shortName: Json,            // "Tên gọi tắt"
    tare: Json,                 // "Tự trọng xe (Kg)"
    unit: Json,                 // "Đơn vị"
    inbound: Json,              // "Nhập"
    outbound: Json,             // "Xuất"
    category: Json,             // "Phân loại"
    weight1: Option<int>,       // "Cân lần 1 (Kg)"
    time1: Option<string>,      // "Thời gian cân lần 1"
    weight2: Option<int>,       // "Cân lần 2 (Kg)"
    time2: Option<string>,      // "Thời gian cân lần 2"
    cargoWeight: Option<int>,   // "Hàng hoá (Kg)"
    tareDeviation: Option<int>, // "Độ lệch bì (Kg)"
    id: Json,                   // "Id", assigned by the record store
    station: Json)              // "Trạm cân"

  /** The empty dictionary `{}` the controller holds between weighings. */
  const Empty: Ticket := Ticket(JNull, JNull, JNull, JNull, JNull, JNull, JNull, JNull, JNull, JNull,
                                None, None, None, None, None, None, JNull, JNull)

  // Keys of the reference rows that the controller reads.
  const OrderCodeKey: string := "Mã lệnh"
  const PlateKey: string := "Biển số"
  const DriverCodeKey: string := "Mã lái xe"
  const DriverNameKey: string := "Họ và tên"
  const CargoNameKey: string := "Tên hàng hoá"
  const ShortNameKey: string := "Tên gọi tắt"
  const VehicleTareKey: string := "Tự trọng xe"
  const UnitKey: string := "Đơn vị"
  const InboundKey: string := "Nhập"
  const OutboundKey: string := "Xuất"
  const CategoryKey: string := "Phân loại"
}
