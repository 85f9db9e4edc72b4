/**
 * The mock data provider of the gateway (`MockDataGenerator` in
 * backend_python/api_gateway/app/services/mockDataGenerator.py). Its one
 * field, the equipment list, is set when it is built and only read
 * afterwards, so the generator is a value here. Random draws are
 * parameters; clock-derived ids and timestamps are not modelled.
 */
module MockData {
  import opened Wrappers

  datatype Date = Date(year: int, month: int, day: int)

  datatype Sensor = Sensor(sensorType: string, parameter: string, model: string, samplingRate: nat)

  datatype Equipment = Equipment(
    id: string,
    equipmentType: string,
    model: string,
    location: string,
    status: string,
    installDate: Date,
    sensors: seq<Sensor>)

  /** A warning and a critical level. */
  datatype Threshold = Threshold(warning: real, critical: real)

  /** One generated reading, without its clock-derived `id`, random `value` and `timestamp`. */
  datatype SensorReading = SensorReading(
    equipmentId: string,
    sensorType: string,
    parameter: string,
    unit: string,
    status: string,
    threshold: Option<Threshold>,
    location: string)

  /** A generated alert, without its clock-derived `id` and `timestamp`. */
  datatype Alert = Alert(
    equipmentId: string,
    alertType: string,
    title: string,
    message: string,
    parameter: string,
    value: int,
    threshold: int,
    status: string,
    priority: string)

  /** A generated prediction, without its `timestamp`. */
  datatype Prediction = Prediction(
    equipmentId: string,
    parameter: string,
    prediction: string,
    confidence: real,
    modelVersion: string)

  /** The seed elevator the generator is built with. */
  const SeedElevator := Equipment(
    "KONE-ELV-001", "elevator", "MonoSpace 500", "Building A - Tower 1", "active", Date(2020, 1, 15),
    [Sensor("position", "car_position", "AS5600", 100),
     Sensor("temperature", "motor_temperature", "DS18B20", 10),
     Sensor("vibration", "bearing_vibration", "MPU6050", 50)])

  /** `units` in `get_sensor_unit` (the degree unit spelled as the source file has it). */
  const UnitTable: map<string, string> :=
    map["car_position" := "m", "motor_temperature" := "Â°C", "bearing_vibration" := "mm/s"]

  /** `thresholds` in `get_sensor_threshold`. */
  const ThresholdTable: map<string, Threshold> :=
    map["motor_temperature" := Threshold(55.0, 70.0), "bearing_vibration" := Threshold(4.0, 6.0)]

  /** `get_sensor_unit`: the table's unit, or "unit" for any other parameter. */
  function SensorUnit(parameter: string): (r: string)
    ensures r == "unit" <==> parameter !in {"car_position", "motor_temperature", "bearing_vibration"}
    ensures parameter == "car_position" ==> r == "m"
    ensures parameter == "motor_temperature" ==> r == "Â°C"
    ensures parameter == "bearing_vibration" ==> r == "mm/s"
  {
    if parameter in UnitTable then UnitTable[parameter] else "unit"
  }

  /** `get_sensor_threshold`: None for every parameter outside the table, `car_position` included. */
  function SensorThreshold(parameter: string): (r: Option<Threshold>)
    ensures r.None? <==> parameter != "motor_temperature" && parameter != "bearing_vibration"
    ensures r.Some? ==> r.value.warning < r.value.critical
    ensures parameter == "motor_temperature" ==> r == Some(Threshold(55.0, 70.0))
    ensures parameter == "bearing_vibration" ==> r == Some(Threshold(4.0, 6.0))
  {
    if parameter in ThresholdTable then Some(ThresholdTable[parameter]) else None
  }

  /** `next((eq for eq in equipment if eq["id"] == id), None)`: the first equipment with that id. */
  function FindEquipment(equipment: seq<Equipment>, id: string): (r: Option<Equipment>)
    ensures r.Some? ==> r.value in equipment && r.value.id == id
    ensures r.Some? ==> exists i :: 0 <= i < |equipment| && equipment[i] == r.value
                                    && forall j :: 0 <= j < i ==> equipment[j].id != id
    ensures r.None? <==> forall i :: 0 <= i < |equipment| ==> equipment[i].id != id
  {
    if equipment == [] then None
    else if equipment[0].id == id then Some(equipment[0])
    else FindEquipment(equipment[1..], id)
  }

  /** The reading generated for one sensor of one equipment. */
  function Reading(equipment: Equipment, id: string, sensor: Sensor): SensorReading {
    SensorReading(id, sensor.sensorType, sensor.parameter, SensorUnit(sensor.parameter), "active",
                  SensorThreshold(sensor.parameter), equipment.location)
  }

  datatype MockDataGenerator = MockDataGenerator(equipmentList: seq<Equipment>) {

    /** `get_equipment_list`: the stored list itself. */
    function GetEquipmentList(): seq<Equipment> {
      equipmentList
    }

    /**
     * `generate_sensor_data`: no readings for an unknown id; otherwise one
     * reading per sensor of the first equipment with that id, in sensor order.
     */
    function GenerateSensorData(id: string): (r: seq<SensorReading>)
      ensures (forall i :: 0 <= i < |equipmentList| ==> equipmentList[i].id != id) ==> r == []
      ensures FindEquipment(equipmentList, id).Some? ==>
                var e := FindEquipment(equipmentList, id).value;
                && |r| == |e.sensors|
                && forall k :: 0 <= k < |r| ==>
                     && r[k].equipmentId == id
                     && r[k].sensorType == e.sensors[k].sensorType
                     && r[k].parameter == e.sensors[k].parameter
                     && r[k].unit == SensorUnit(e.sensors[k].parameter)
                     && r[k].threshold == SensorThreshold(e.sensors[k].parameter)
                     && r[k].location == e.location
                     && r[k].status == "active"
    {
      match FindEquipment(equipmentList, id)
      case None => []
      case Some(e) => seq(|e.sensors|, k requires 0 <= k < |e.sensors| => Reading(e, id, e.sensors[k]))
    }

    /**
     * `generate_alerts`: one "Motor Temperature High" warning when the draw
     * of `random.random()` exceeds 0.7, no alert otherwise.
     */
    function GenerateAlerts(id: string, draw: real): (r: seq<Alert>)
      ensures |r| <= 1
      ensures |r| == 1 <==> draw > 0.7
      ensures forall a :: a in r ==> a.equipmentId == id && a.parameter == "motor_temperature" && a.value > a.threshold
    {
      if draw > 0.7 then
        [Alert(id, "warning", "Motor Temperature High", "Motor temperature exceeds normal range",
               "motor_temperature", 58, 55, "active", "medium")]
      else []
    }

    /** `generate_predictions`: exactly one "normal" prediction for the id. */
    function GeneratePredictions(id: string): (r: seq<Prediction>)
      ensures |r| == 1 && r[0].equipmentId == id && r[0].prediction == "normal"
      ensures 0.0 <= r[0].confidence <= 1.0
    {
      [Prediction(id, "motor_temperature", "normal", 0.85, "1.0.0")]
    }
  }

  /** The generator as `__init__` builds it. */
  function NewGenerator(): (g: MockDataGenerator)
    ensures |g.equipmentList| == 1
  {
    MockDataGenerator([SeedElevator])
  }

  /**
   * The seed elevator is found by its id and yields three readings: the
   * car position in metres without threshold, then motor temperature and
   * bearing vibration with their thresholds.
   */
  lemma SeedSensorData()
    ensures NewGenerator().GetEquipmentList() == [SeedElevator]
    ensures |NewGenerator().GenerateSensorData("KONE-ELV-001")| == 3
    ensures NewGenerator().GenerateSensorData("KONE-ELV-001")[0].unit == "m"
    ensures NewGenerator().GenerateSensorData("KONE-ELV-001")[0].threshold.None?
    ensures NewGenerator().GenerateSensorData("KONE-ELV-001")[1].threshold == Some(Threshold(55.0, 70.0))
    ensures NewGenerator().GenerateSensorData("KONE-ELV-001")[2].unit == "mm/s"
    ensures NewGenerator().GenerateSensorData("KONE-ELV-002") == []
  {
    var g := NewGenerator();
    assert FindEquipment(g.equipmentList, "KONE-ELV-001") == Some(SeedElevator);
    assert FindEquipment(g.equipmentList, "KONE-ELV-002") == None by {
      assert SeedElevator.id != "KONE-ELV-002";
    }
  }
}
