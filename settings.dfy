/**
 * The global configuration the core reads: the static fields of PropertySet
 * and the static constants of RVOAgent. The source keeps them in mutable
 * static fields set once from the XML scenario file; the model passes them
 * as one value.
 */
module Settings {

  /** PropertySet.Model: the motion-planning model selected for the run. */
  datatype Model =
    | RVO2
    | RVO1Standard
    | RVO1Acceleration
    | RuleBasedNew
    | SocialForce
    | PatternBasedMotion

  datatype Settings = Settings(
    model: Model,           // PropertySet.MODEL
    infoProcessing: bool,   // PropertySet.INFOPROCESSING
    latticeModel: bool,     // PropertySet.LATTICEMODEL
    timestep: real,         // PropertySet.TIMESTEP
    radius: real,           // RVOAgent.RADIUS, the radius of every agent
    infoLimit: real,        // RVOAgent.INFO_LIMIT, the perception budget
    sensorRange: int)       // RVOAgent.SENSOR_RANGE, in multiples of the radius

  /** Whether obstacles are broken into linked vertex records (RVO2 and SocialForce). */
  predicate UsesVertexObstacles(s: Settings)
  {
    s.model == RVO2 || s.model == SocialForce
  }

  /** The radius of the sensing disc: SENSOR_RANGE times the agent's radius. */
  function SensingRadius(s: Settings, agentRadius: real): real
  {
    s.sensorRange as real * agentRadius
  }
}
