/** The constant-speed law a section may carry: one configured vehicle speed in m/s. */
module Speeds {
  import opened Sections

  /** The bodies of the three queries live outside this model. They are supplied as
      functions of exactly what a constant-speed object can see: its configured speed,
      the local parameter and the section it is evaluated against. The vehicle speed
      is documented as constant, so its body is not given the local parameter. */
  datatype ConstSpeedBodies = ConstSpeedBodies(
    vd: (real, real, Section) -> real,
    dVd: (real, real, Section) -> real,
    vehicleSpeed: (real, Section) -> real)

  /** The configured speed is the only state; the constructor stores its argument as
      given (default 1.0 m/s), with no validation or clamping. */
  datatype ConstSpeed = ConstSpeed(vehicleSpeed: real := 1.0)
  {
    /** Desired progression speed of the path parameter at gamma on section. */
    function GetVd(bodies: ConstSpeedBodies, gamma: real, section: Section): (r: real)
    {
      bodies.vd(vehicleSpeed, gamma, section)
    }

    /** Desired progression acceleration of the path parameter at gamma on section. */
    function GetDVd(bodies: ConstSpeedBodies, gamma: real, section: Section): (r: real)
    {
      bodies.dVd(vehicleSpeed, gamma, section)
    }

    /** The vehicle speed in m/s at gamma on section. */
    function GetVehicleSpeed(bodies: ConstSpeedBodies, gamma: real, section: Section): (r: real)
    {
      bodies.vehicleSpeed(vehicleSpeed, section)
    }
  }

  /** A default-constructed object holds 1.0 m/s. */
  lemma DefaultSpeed()
    ensures ConstSpeed().vehicleSpeed == 1.0
  {
  }

  /** The constructor keeps any speed exactly, zero and negative ones included. */
  lemma ConstructorStoresSpeed(v: real)
    ensures ConstSpeed(v).vehicleSpeed == v
  {
  }

  /** Two objects configured with the same speed answer every query alike: the speed is
      the whole state, and nothing writes it after construction. */
  lemma QueriesDependOnSpeedOnly(s1: ConstSpeed, s2: ConstSpeed, bodies: ConstSpeedBodies, gamma: real, section: Section)
    requires s1.vehicleSpeed == s2.vehicleSpeed
    ensures s1 == s2
    ensures s1.GetVd(bodies, gamma, section) == s2.GetVd(bodies, gamma, section)
    ensures s1.GetDVd(bodies, gamma, section) == s2.GetDVd(bodies, gamma, section)
    ensures s1.GetVehicleSpeed(bodies, gamma, section) == s2.GetVehicleSpeed(bodies, gamma, section)
  {
  }

  /** The vehicle speed does not depend on where on the section it is asked for. This
      holds because the vehicle-speed body is not given the local parameter: it restates
      the documented constancy as an assumption on that unseen body and proves nothing
      about the body itself. */
  lemma VehicleSpeedIsConstant(s: ConstSpeed, bodies: ConstSpeedBodies, g1: real, g2: real, section: Section)
    ensures s.GetVehicleSpeed(bodies, g1, section) == s.GetVehicleSpeed(bodies, g2, section)
  {
  }
}
