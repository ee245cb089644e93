/** Enumerations and small values shared by every part of the kinetic Monte Carlo model. */
module KmcTypes {

  /** The particle types, which double as the occupancy channels of a site. */
  datatype PType = Elec | Hole | Trip | Sing | CT {
    /** The enumerator's integer value, used to index per-channel arrays. */
    function Index(): nat
    {
      match this
      case Elec => 0
      case Hole => 1
      case Trip => 2
      case Sing => 3
      case CT => 4
    }
  }

  /** The transition kinds an event can carry. */
  datatype Transition =
    | NormalHop
    | Decay
    | ExcitonFromElec
    | ExcitonFromHole
    | ExcitonFromElecCT
    | ExcitonFromHoleCT
    | SingToCTViaElec
    | SingToCTViaHole
    | TripToCTViaElec
    | TripToCTViaHole
    | CTdisViaHole
    | CTdisViaElec

  /** A displacement or position in three dimensions. */
  datatype Vec3 = Vec3(x: real, y: real, z: real) {
    function Neg(): Vec3 { Vec3(-x, -y, -z) }
    function Plus(v: Vec3): Vec3 { Vec3(x + v.x, y + v.y, z + v.z) }
  }

  const Origin: Vec3 := Vec3(0.0, 0.0, 0.0)

  datatype Option<T> = None | Some(value: T)
}
