/** The value types shared by the sensors and the recorder. Coordinates are
    modelled as exact reals; floating-point rounding is not part of the model. */
module Defs {

  datatype Vector = Vector(x: real, y: real, z: real) {
    /** The tracking-loss sentinel: all components exactly zero. */
    predicate IsZero() {
      x == 0.0 && y == 0.0 && z == 0.0
    }

    function Scale(f: real): Vector {
      Vector(x * f, y * f, z * f)
    }

    function NormSquared(): real {
      x * x + y * y + z * z
    }
  }

  const Zero := Vector(0.0, 0.0, 0.0)

  /** The palm and three finger tips of one hand. A datatype value, so every
      assignment is a copy: no two cells ever share one location. */
  datatype HandLocation = HandLocation(palm: Vector, thumb: Vector, index: Vector, middle: Vector) {
    /** Tracking loss: all four points are zero vectors. */
    predicate IsEmpty() {
      palm.IsZero() && thumb.IsZero() && index.IsZero() && middle.IsZero()
    }

    /** The twelve coordinates, palm first, each point as x, y, z. */
    function Coordinates(): (r: seq<real>)
      ensures |r| == 12
    {
      [palm.x, palm.y, palm.z, thumb.x, thumb.y, thumb.z,
       index.x, index.y, index.z, middle.x, middle.y, middle.z]
    }
  }

  /** HandLocation.Empty and `new HandLocation()`. */
  const EmptyHand := HandLocation(Zero, Zero, Zero, Zero)

  /** Euler angles in degrees. */
  datatype Rotation = Rotation(pitch: real, yaw: real, roll: real)

  datatype Pupil = Pupil(opennessLeft: real, sizeLeft: real, opennessRight: real, sizeRight: real)

  /** One gaze sample: sensor timestamp, eye and head rotation, pupil state. */
  datatype EyeHead = EyeHead(timestamp: int, eye: Rotation, head: Rotation, pupil: Pupil)

  /** EyeHead.Empty, the synthetic sample of debug mode: all fields zero. */
  const EmptyEyeHead := EyeHead(0, Rotation(0.0, 0.0, 0.0), Rotation(0.0, 0.0, 0.0), Pupil(0.0, 0.0, 0.0, 0.0))
}
