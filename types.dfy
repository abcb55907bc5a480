/**
 * The dashboard's record types and their string-literal unions.
 *
 * Timestamps are milliseconds since the Unix epoch (`Date.getTime()`);
 * the ISO and locale string forms the views print are not modelled.
 * Sensor readings in the live window are reals, because the tick adds a
 * fractional random step; historical readings are integers, because the
 * generator rounds them.
 */
module Types {
  import opened Seqs

  type Timestamp = int

  /** One sample of the four environmental readings. */
  datatype SensorData = SensorData(
    timestamp: Timestamp,
    soilMoisture: real,
    temperature: real,
    humidity: real,
    waterLevel: real)

  /** The four readings without a timestamp, as the baseline table holds them. */
  datatype SensorValues = SensorValues(
    soilMoisture: real,
    temperature: real,
    humidity: real,
    waterLevel: real)

  /** The sensor keys a rule condition or a trend can name. */
  datatype SensorKind = SoilMoisture | Temperature | Humidity | WaterLevel

  function Reading(d: SensorData, key: SensorKind): real
  {
    match key
    case SoilMoisture => d.soilMoisture
    case Temperature => d.temperature
    case Humidity => d.humidity
    case WaterLevel => d.waterLevel
  }

  datatype DeviceType = Pump | Motor | Valve | Sprinkler

  datatype Device = Device(
    id: string,
    name: string,
    deviceType: DeviceType,
    status: bool,
    lastUpdated: Timestamp,
    fieldId: string)

  datatype Field = Field(
    id: string,
    name: string,
    location: string,
    cropType: string,
    area: real,
    devices: seq<Device>)

  datatype AlertType = Warning | Critical | Info

  datatype Alert = Alert(
    id: string,
    alertType: AlertType,
    message: string,
    sensorType: string,
    value: real,
    threshold: real,
    timestamp: Timestamp,
    fieldId: string,
    acknowledged: bool)

  datatype Operator = LessThan | GreaterThan | Equals

  datatype Condition = Condition(sensor: SensorKind, op: Operator, value: real)

  /** What a rule does: drive one device to a target on/off state. */
  datatype Action = Action(deviceId: string, deviceName: string, state: bool)

  datatype AutomationRule = AutomationRule(
    id: string,
    name: string,
    enabled: bool,
    condition: Condition,
    action: Action,
    fieldId: string,
    lastTriggered: Option<Timestamp>)

  datatype HistoricalRecord = HistoricalRecord(
    id: string,
    timestamp: Timestamp,
    fieldName: string,
    soilMoisture: int,
    temperature: int,
    humidity: int,
    waterLevel: int,
    pumpStatus: string)
}
