/** The platform's entities (internal/model/types.go), as far as behaviour depends on
    them, and the whole content of a store. */
module Model {

  datatype Option<+T> = None | Some(value: T)

  type ID = string

  /** A decoded JSON value; objects, and null and lists as `Other`, by their printed form. */
  datatype Value = Number(n: real) | Flag(b: bool) | Text(t: string) | Object(repr: string) | Other(repr: string)

  type Values = map<string, Value>

  datatype Tenant = Tenant(id: ID, slug: string, name: string)

  /** `properties` maps an identifier to its data type; `services` are the command names. */
  datatype Product = Product(id: ID, tenantID: ID, name: string, properties: map<string, string>, services: set<string>)

  datatype Device = Device(id: ID, tenantID: ID, productID: ID, name: string, token: string, tags: map<string, string>)

  datatype Group = Group(id: ID, tenantID: ID, productID: ID, name: string)

  datatype Condition = Condition(property: string, operator: string, value: Value)

  datatype Action =
    | RaiseAlert(message: string)
    | SendCommand(name: string, params: Values)
    | ApplyConfig(profileID: ID)

  datatype Rule = Rule(
    id: ID, tenantID: ID, productID: ID, groupID: ID, deviceID: ID,
    enabled: bool, cooldownSeconds: int, condition: Condition, actions: seq<Action>)

  datatype ConfigProfile = ConfigProfile(id: ID, tenantID: ID, productID: ID, name: string, values: Values, appliedCount: int)

  datatype Firmware = Firmware(id: ID, tenantID: ID, productID: ID, name: string, version: string, url: string)

  datatype CampaignStatus = Pending | Running | Completed | Partial

  datatype Campaign = Campaign(
    id: ID, tenantID: ID, firmwareID: ID, productID: ID, groupID: ID, deviceID: ID,
    status: CampaignStatus, total: int, dispatched: int, acked: int, failed: int)

  datatype Shadow = Shadow(deviceID: ID, productID: ID, reported: Values, desired: Values, version: int)

  /** Timestamps are nanoseconds since Go's zero time. */
  datatype Telemetry = Telemetry(deviceID: ID, timestamp: int, values: Values)

  datatype CommandStatus = CommandPending | CommandSent | CommandAcked | CommandFailed

  datatype Command = Command(
    id: ID, deviceID: ID, campaignID: ID, name: string, status: CommandStatus, result: string, updatedAt: int)

  datatype Alert = Alert(id: ID, ruleID: ID, deviceID: ID, status: string, triggeredAt: int)

  /** The tables that are only created into and saved over. */
  datatype Tables = Tables(
    tenants: map<ID, Tenant>,
    products: map<ID, Product>,
    devices: map<ID, Device>,
    groups: map<ID, Group>,
    rules: map<ID, Rule>,
    configs: map<ID, ConfigProfile>,
    firmware: map<ID, Firmware>,
    campaigns: map<ID, Campaign>)

  /** memory.Snapshot: everything a store holds. */
  datatype Snapshot = Snapshot(
    tables: Tables,
    shadows: map<ID, Shadow>,
    telemetry: map<ID, seq<Telemetry>>,
    commands: map<ID, Command>,
    commandIDs: map<ID, seq<ID>>,
    groupIDs: map<ID, seq<ID>>,
    deviceIDs: map<ID, seq<ID>>,
    alerts: seq<Alert>,
    telemetryRetention: int,
    alertRetention: int)

  /** A map lookup that yields Go's zero slice for a missing key. */
  function Slice<T>(m: map<ID, seq<T>>, key: ID): seq<T> {
    if key in m then m[key] else []
  }

  /** memory.New. */
  function EmptyStore(retention: int): Snapshot {
    var r := if retention <= 0 then 200 else retention;
    Snapshot(Tables(map[], map[], map[], map[], map[], map[], map[], map[]), map[], map[], map[], map[], map[], map[], [],
             r, if r * 2 > 200 then r * 2 else 200)
  }

  // ---------------------------------------------------------------- values against a product's model

  predicate TypeFits(dataType: string, v: Value) {
    match dataType
    case "bool" => v.Flag?
    case "text" => v.Text?
    case "object" => v.Object?
    case "enum" => v.Text? || v.Number?
    case "float" => v.Number?
    case "double" => v.Number?
    case "int" => v.Number? && v.n.Floor as real == v.n
    case _ => true
  }

  /** validateThingValues. */
  predicate ValuesFit(product: Product, values: Values) {
    || values == map[]
    || product.properties == map[]
    || forall k :: k in values ==> k in product.properties && TypeFits(product.properties[k], values[k])
  }
}
