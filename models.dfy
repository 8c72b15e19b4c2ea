/** Record shapes of the three telemetry layers (backend/monitor/models.py),
    as the views, the pages and the simulator see them. Instants are
    integers (a monotone clock); every numeric channel is a real. */
module Models {

  datatype Option<+T> = None | Some(value: T)

  /** The symptom categories a health report may carry (HealthReport.SYMPTOM_TYPES). */
  datatype SymptomType = GI | NEURO | DERM | OTHER

  /** One row of the WaterSensor table. `id` is the database's auto-increment key. */
  datatype SensorReading = SensorReading(
    id: nat,
    sensorId: string,
    timestamp: int,
    ph: real,
    turbidity: real,
    temperature: real,
    dissolvedOxygen: real,
    conductivity: real)

  /** One row of the SatelliteImage table; `image` is an opaque reference to the stored file. */
  datatype SatelliteScan = SatelliteScan(
    id: nat,
    locationName: string,
    image: string,
    capturedAt: int,
    chlorophyllIndex: real,
    turbidityIndex: real,
    riskScore: real)

  /** One row of the HealthReport table. */
  datatype HealthReport = HealthReport(
    submittedAt: int,
    symptomType: SymptomType,
    severity: int,
    latitude: real,
    longitude: real,
    notes: string)
}
