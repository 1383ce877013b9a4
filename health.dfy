/**
 * The health endpoints of the prediction service: the status decision of the
 * health check, the readiness probe and the liveness probe.
 *
 * The deployment environment, the outcome of asking the database for a
 * connection and the current time are parameters.
 */
module Health {
  import opened Outcomes
  import ModelManager

  /** What asking the database for a connection gave: a connection or none, or an exception. */
  datatype DbProbe = Connection(present: bool) | ProbeRaises

  /** The probe found a live connection. */
  predicate Connects(probe: DbProbe) {
    probe == Connection(true)
  }

  /** `needle` occurs in `hay` starting at position `i`. */
  predicate OccursAt(hay: string, needle: string, i: nat) {
    i + |needle| <= |hay| && hay[i..i + |needle|] == needle
  }

  /** Whether `needle` occurs in `hay` as a contiguous piece (Python's `in` on strings). */
  function Contains(hay: string, needle: string): (b: bool)
    ensures hay == needle ==> b
    ensures b <==> exists i: nat :: OccursAt(hay, needle, i)
    decreases |hay|
  {
    if |needle| > |hay| then
      assert forall i: nat :: !OccursAt(hay, needle, i);
      false
    else if hay[..|needle|] == needle then
      assert OccursAt(hay, needle, 0);
      true
    else
      OccursLater(hay, needle);
      Contains(hay[1..], needle)
  }

  /** Past a mismatch at the front, an occurrence in `hay` is one in its tail, one position earlier. */
  lemma OccursLater(hay: string, needle: string)
    requires hay != [] && !OccursAt(hay, needle, 0)
    ensures (exists i: nat :: OccursAt(hay, needle, i)) <==> (exists i: nat :: OccursAt(hay[1..], needle, i))
  {
    forall i: nat | OccursAt(hay, needle, i)
      ensures OccursAt(hay[1..], needle, i - 1)
    {
      assert i > 0;
      assert hay[1..][i - 1..i - 1 + |needle|] == hay[i..i + |needle|];
    }
    forall i: nat | OccursAt(hay[1..], needle, i)
      ensures OccursAt(hay, needle, i + 1)
    {
      assert hay[1..][i..i + |needle|] == hay[i + 1..i + 1 + |needle|];
    }
  }

  /** The health check's notion of a loaded model: a trained model, or a model info status mentioning "mock". */
  function ModelLoaded(model: ModelManager.ChurnModel): (loaded: bool)
    ensures loaded
  {
    model.model.Some? || Contains(ModelManager.ModelStatus(model), "mock")
  }

  /** The database flag: checked only in production, where an exception counts as not connected. */
  function DatabaseConnected(environment: string, probe: DbProbe): (connected: Option<bool>)
    ensures environment != "production" <==> connected.None?
    ensures connected.Some? ==> (connected.value <==> Connects(probe))
  {
    if environment == "production" then
      match probe
      case Connection(present) => Some(present)
      case ProbeRaises => Some(false)
    else None
  }

  /** The health check's reply. */
  datatype HealthResponse = HealthResponse(status: string, version: string, environment: string, model_loaded: bool,
                                           database_connected: Option<bool>, timestamp: string)

  /** The status decision: unhealthy without a model; in production, degraded without a database. */
  function Status(modelLoaded: bool, environment: string, databaseConnected: Option<bool>): string {
    if modelLoaded then
      if environment == "production" then
        (if databaseConnected == Some(true) then "healthy" else "degraded")
      else "healthy"
    else "unhealthy"
  }

  /** The health check: outside production always healthy and unchecked; in production healthy exactly when connected. */
  function HealthCheck(model: ModelManager.ChurnModel, environment: string, probe: DbProbe, now: string)
    : (r: HealthResponse)
    ensures r.model_loaded && r.version == "1.0.0" && r.environment == environment && r.timestamp == now
    ensures environment != "production" ==> r.status == "healthy" && r.database_connected.None?
    ensures environment == "production" ==> r.database_connected == Some(Connects(probe))
    ensures environment == "production" ==> (r.status == "healthy" <==> Connects(probe))
    ensures environment == "production" ==> (r.status == "degraded" <==> !Connects(probe))
  {
    var loaded := ModelLoaded(model);
    var connected := DatabaseConnected(environment, probe);
    HealthResponse(Status(loaded, environment, connected), "1.0.0", environment, loaded, connected, now)
  }

  /** The health check never reports "unhealthy": the mock model always counts as loaded. */
  lemma NeverUnhealthy(model: ModelManager.ChurnModel, environment: string, probe: DbProbe, now: string)
    ensures HealthCheck(model, environment, probe, now).status in {"healthy", "degraded"}
  {
  }

  /** The flags a not-ready reply carries. */
  datatype ReadinessDetails = ReadinessDetails(model_loaded: bool, database_connected: bool)

  /** The readiness probe's reply. */
  datatype Readiness = Readiness(ready: bool, message: string, details: Option<ReadinessDetails>)

  /** The readiness probe: ready exactly when a trained model is present and the database connects. */
  function ReadinessCheck(model: ModelManager.ChurnModel, probe: DbProbe): (r: Readiness)
    ensures r.ready <==> model.model.Some? && Connects(probe)
    ensures r.ready <==> r.details.None?
    ensures !r.ready ==> r.details == Some(ReadinessDetails(model.model.Some?, Connects(probe)))
  {
    var modelLoaded := model.model.Some?;
    var databaseReady := match probe
      case Connection(present) => present
      case ProbeRaises => false;
    if modelLoaded && databaseReady then
      Readiness(true, "Application is ready " + "to receive traffic", None)
    else
      Readiness(false, "Application is not ready", Some(ReadinessDetails(modelLoaded, databaseReady)))
  }

  /** A ready service is healthy in production; a trained model that is healthy in production is ready. */
  lemma ReadyMeansHealthy(model: ModelManager.ChurnModel, probe: DbProbe, now: string)
    ensures ReadinessCheck(model, probe).ready ==> HealthCheck(model, "production", probe, now).status == "healthy"
    ensures model.model.Some? && HealthCheck(model, "production", probe, now).status == "healthy"
            ==> ReadinessCheck(model, probe).ready
  {
  }

  /** The heuristic model is never ready, whatever the health check says. */
  lemma MockNeverReady(model: ModelManager.ChurnModel, probe: DbProbe)
    requires model.model.None?
    ensures !ReadinessCheck(model, probe).ready
    ensures ReadinessCheck(model, probe).details == Some(ReadinessDetails(false, Connects(probe)))
  {
  }

  /** The liveness probe's reply. */
  datatype Liveness = Liveness(alive: bool, timestamp: string)

  /** The liveness probe: always alive. */
  function LivenessCheck(now: string): (r: Liveness)
    ensures r.alive && r.timestamp == now
  {
    Liveness(true, now)
  }

  /**
   * The liveness probe depends on neither the model nor the database: it
   * reports alive even in a production state that the health check calls
   * degraded and the readiness probe calls not ready.
   */
  lemma AliveWhenNotReady(model: ModelManager.ChurnModel, probe: DbProbe, now: string)
    requires !Connects(probe)
    ensures HealthCheck(model, "production", probe, now).status == "degraded"
    ensures !ReadinessCheck(model, probe).ready
    ensures LivenessCheck(now).alive
  {
  }
}
