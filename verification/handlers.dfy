/**
 * The gateway's local handlers (the routes of
 * backend_python/api_gateway/app/routes/gateway.py that answer from mock
 * data without any downstream call) and the envelope they reply with.
 * The clock is the parameter `now`; the coin flip of the alerts route is
 * the parameter `draw`.
 */
module Handlers {
  import opened Wrappers
  import MockData

  /** `{"success": ..., "data": ..., "timestamp": ...}`; the timestamp is absent on some routes. */
  datatype Envelope<D> = Envelope(success: bool, data: D, timestamp: Option<string>)

  /** `GET /equipment`. */
  function EquipmentRoute(gen: MockData.MockDataGenerator, now: string): (r: Envelope<seq<MockData.Equipment>>)
    ensures r.success && r.data == gen.equipmentList && r.timestamp == Some(now)
  {
    Envelope(true, gen.GetEquipmentList(), Some(now))
  }

  /** `GET /sensors/{equipment_id}/data`. */
  function SensorDataRoute(gen: MockData.MockDataGenerator, equipmentId: string, now: string)
    : (r: Envelope<seq<MockData.SensorReading>>)
    ensures r.success && r.timestamp == Some(now)
    ensures r.data == gen.GenerateSensorData(equipmentId)
    ensures forall k :: 0 <= k < |r.data| ==> r.data[k].equipmentId == equipmentId
    ensures r.data == [] <==> MockData.FindEquipment(gen.equipmentList, equipmentId).None?
                              || MockData.FindEquipment(gen.equipmentList, equipmentId).value.sensors == []
  {
    Envelope(true, gen.GenerateSensorData(equipmentId), Some(now))
  }

  /** `GET /alerts/{equipment_id}`. */
  function AlertsRoute(gen: MockData.MockDataGenerator, equipmentId: string, draw: real, now: string)
    : (r: Envelope<seq<MockData.Alert>>)
    ensures r.success && r.timestamp == Some(now)
    ensures r.data == gen.GenerateAlerts(equipmentId, draw)
    ensures |r.data| <= 1 && forall a :: a in r.data ==> a.equipmentId == equipmentId
  {
    Envelope(true, gen.GenerateAlerts(equipmentId, draw), Some(now))
  }

  /** `GET /predictions/{equipment_id}`. */
  function PredictionsRoute(gen: MockData.MockDataGenerator, equipmentId: string, now: string)
    : (r: Envelope<seq<MockData.Prediction>>)
    ensures r.success && r.timestamp == Some(now)
    ensures r.data == gen.GeneratePredictions(equipmentId)
    ensures |r.data| == 1 && r.data[0].equipmentId == equipmentId && r.data[0].prediction == "normal"
  {
    Envelope(true, gen.GeneratePredictions(equipmentId), Some(now))
  }

  /** A warning level, a critical level and their unit. */
  datatype AlertLevel = AlertLevel(warning: int, critical: int, unit: string)

  /** The body of `GET /config`. */
  datatype SystemConfig = SystemConfig(
    aiProvider: string,
    sensorUpdateInterval: int,
    temperature: AlertLevel,
    vibration: AlertLevel,
    current: AlertLevel,
    preventiveInterval: int,
    inspectionInterval: int,
    emergencyResponseTime: int,
    email: bool,
    sms: bool,
    push: bool)

  /** The config route either answers or raises an HTTP error. */
  datatype ConfigReply =
    | ConfigOk(envelope: Envelope<SystemConfig>)
    | ConfigError(status: int, detail: string)

  /**
   * `GET /config`. The two environment variables are given as read (None
   * when unset); `parseInt` is Python's `int()` on a string, None when it
   * raises. Unlike the data routes it has no timestamp, and a failure is
   * raised as HTTP 500 instead of being wrapped in the envelope.
   */
  function ConfigRoute(aiProviderEnv: Option<string>, intervalEnv: Option<string>, parseInt: string -> Option<int>)
    : (r: ConfigReply)
    ensures r.ConfigError? <==> parseInt(intervalEnv.GetOr("1000")).None?
    ensures r.ConfigError? ==> r.status == 500 && r.detail == "Failed to retrieve configuration"
    ensures r.ConfigOk? ==>
              && r.envelope.success
              && r.envelope.timestamp.None?
              && r.envelope.data.aiProvider == aiProviderEnv.GetOr("openai")
              && Some(r.envelope.data.sensorUpdateInterval) == parseInt(intervalEnv.GetOr("1000"))
              && r.envelope.data.temperature.warning < r.envelope.data.temperature.critical
              && r.envelope.data.vibration.warning < r.envelope.data.vibration.critical
              && r.envelope.data.current.warning < r.envelope.data.current.critical
  {
    match parseInt(intervalEnv.GetOr("1000"))
    case None => ConfigError(500, "Failed to retrieve configuration")
    case Some(interval) =>
      ConfigOk(Envelope(true,
        SystemConfig(aiProviderEnv.GetOr("openai"), interval,
                     AlertLevel(70, 85, "Â°C"), AlertLevel(5, 10, "mm/s"), AlertLevel(80, 95, "A"),
                     30, 7, 2, true, false, true),
        None))
  }
}
