/** The camera wrapper: host calls that marshal numbers into the engine
    camera's model matrix and projection, with their argument checks. */
module Cameras {
  import opened Results
  import opened Matrices

  /** Filament's `float3`. */
  datatype Float3 = Float3(x: real, y: real, z: real)

  /** Filament's `Camera::Fov`. Its enumerators and their host names belong
      to the engine and to `EnumMapper`, so a direction is known only by its
      ordinal. */
  datatype FovDirection = FovDirection(ordinal: nat)

  /** The projection last handed to the camera, one alternative per engine
      setter the wrapper calls. */
  datatype Projection =
    | Custom(matrix: Mat4, near: real, far: real)
    | Lens(focalLength: real, aspect: real, near: real, far: real)
    | Perspective(fovInDegrees: real, aspect: real, near: real, far: real, direction: FovDirection)

  /** The engine camera behind `pointee()`, seen only through the state the
      wrapper touches. How the engine turns eye, center and up into a model
      matrix, and what it keeps of a model matrix it is handed (its storage
      and precision), are the engine's own; both are parameters of this
      model. */
  class Camera {
    var modelMatrix: Mat4
    var projection: Projection
    const lookAtMatrix: (Float3, Float3, Float3) -> Mat4
    const storedModelMatrix: Mat4 -> Mat4

    constructor (modelMatrix: Mat4, projection: Projection,
                 lookAtMatrix: (Float3, Float3, Float3) -> Mat4,
                 storedModelMatrix: Mat4 -> Mat4)
      ensures this.modelMatrix == modelMatrix && this.projection == projection
      ensures this.lookAtMatrix == lookAtMatrix && this.storedModelMatrix == storedModelMatrix
    {
      this.modelMatrix := modelMatrix;
      this.projection := projection;
      this.lookAtMatrix := lookAtMatrix;
      this.storedModelMatrix := storedModelMatrix;
    }
  }

  /** A camera manipulator, seen only through the eye, center and up it
      reports from `getLookAt`. */
  class Manipulator {
    var eye: Float3
    var center: Float3
    var up: Float3

    constructor (eye: Float3, center: Float3, up: Float3)
      ensures this.eye == eye && this.center == center && this.up == up
    {
      this.eye := eye;
      this.center := center;
      this.up := up;
    }
  }

  const NullManipulatorMessage: string := "CameraManipulator is null"
  const ModelMatrixLengthMessage: string := "setModelMatrix: matrixData must contain 16 elements."
  const CustomProjectionLengthMessage: string := "setCustomProjection: projectionMatrixData must contain 16 elements."

  /** The vector built from a host array: its first three entries, whatever
      follows them. */
  function Float3Of(v: seq<real>): (f: Float3)
    requires |v| >= 3
    ensures [f.x, f.y, f.z] == v[..3]
  {
    Float3(v[0], v[1], v[2])
  }

  /** Entries past the third are never read. */
  lemma Float3OfReadsOnlyThree(v: seq<real>, w: seq<real>)
    requires |v| >= 3 && |w| >= 3
    ensures Float3Of(v) == Float3Of(w) <==> v[..3] == w[..3]
  {
  }

  /** `CameraWrapper`: a handle on one engine camera. */
  class CameraWrapper {
    const camera: Camera

    constructor (camera: Camera)
      ensures this.camera == camera
    {
      this.camera := camera;
    }

    /** Aims the camera as the manipulator reports; a null manipulator is
        refused before the camera is touched. */
    method LookAtCameraManipulator(manipulator: Manipulator?) returns (r: Outcome)
      modifies camera
      ensures manipulator == null <==> r.Fail?
      ensures r.Fail? ==> r.error == InvalidArgument(NullManipulatorMessage) && unchanged(camera)
      ensures r.Pass? ==> camera.modelMatrix == camera.lookAtMatrix(manipulator.eye, manipulator.center, manipulator.up)
      ensures camera.projection == old(camera.projection)
    {
      if manipulator == null {
        return Fail(InvalidArgument(NullManipulatorMessage));
      }
      var eye, center, up := manipulator.eye, manipulator.center, manipulator.up;
      camera.modelMatrix := camera.lookAtMatrix(eye, center, up);
      r := Pass;
    }

    /** Aims the camera from three host arrays, of which only the first three
        entries are read; the wrapper does not check their length. */
    method LookAt(eye: seq<real>, center: seq<real>, up: seq<real>)
      requires |eye| >= 3 && |center| >= 3 && |up| >= 3
      modifies camera
      ensures camera.modelMatrix == camera.lookAtMatrix(Float3Of(eye), Float3Of(center), Float3Of(up))
      ensures camera.projection == old(camera.projection)
    {
      var eyeVec := Float3(eye[0], eye[1], eye[2]);
      var centerVec := Float3(center[0], center[1], center[2]);
      var upVec := Float3(up[0], up[1], up[2]);
      camera.modelMatrix := camera.lookAtMatrix(eyeVec, centerVec, upVec);
    }

    /** Hands the lens parameters to the camera unchanged. */
    method SetLensProjection(fov: real, aspect: real, near: real, far: real)
      modifies camera
      ensures camera.projection == Lens(fov, aspect, near, far)
      ensures camera.modelMatrix == old(camera.modelMatrix)
    {
      camera.projection := Lens(fov, aspect, near, far);
    }

    /** Hands the field of view and its direction to the camera unchanged. */
    method SetProjection(fovInDegrees: real, aspect: real, near: real, far: real, direction: FovDirection)
      modifies camera
      ensures camera.projection == Perspective(fovInDegrees, aspect, near, far, direction)
      ensures camera.modelMatrix == old(camera.modelMatrix)
    {
      camera.projection := Perspective(fovInDegrees, aspect, near, far, direction);
    }

    /** Hands the engine the matrix packed from 16 column-major numbers; any
        other length is refused and the camera is left as it was. */
    method SetModelMatrix(matrixData: seq<real>) returns (r: Outcome)
      modifies camera
      ensures r.Fail? <==> |matrixData| != 16
      ensures r.Fail? ==> r.error == RuntimeError(ModelMatrixLengthMessage) && unchanged(camera)
      ensures r.Pass? ==> camera.modelMatrix == camera.storedModelMatrix(Pack(matrixData))
      ensures camera.projection == old(camera.projection)
    {
      if |matrixData| != 16 {
        return Fail(RuntimeError(ModelMatrixLengthMessage));
      }
      camera.modelMatrix := camera.storedModelMatrix(Pack(matrixData));
      r := Pass;
    }

    /** Sets a custom projection from 16 column-major numbers, passing near
        and far along unchanged; any other length is refused and the camera
        is left as it was. */
    method SetCustomProjection(projectionMatrixData: seq<real>, near: real, far: real) returns (r: Outcome)
      modifies camera
      ensures r.Fail? <==> |projectionMatrixData| != 16
      ensures r.Fail? ==> r.error == RuntimeError(CustomProjectionLengthMessage) && unchanged(camera)
      ensures r.Pass? ==> camera.projection == Custom(Pack(projectionMatrixData), near, far)
      ensures camera.modelMatrix == old(camera.modelMatrix)
    {
      if |projectionMatrixData| != 16 {
        return Fail(RuntimeError(CustomProjectionLengthMessage));
      }
      camera.projection := Custom(Pack(projectionMatrixData), near, far);
      r := Pass;
    }

    /** The camera's model matrix as 16 column-major numbers, filled entry by
        entry into a fresh buffer. */
    method GetModelMatrix() returns (matrixData: seq<real>)
      ensures |matrixData| == 16
      ensures forall c, r :: 0 <= c < 4 && 0 <= r < 4 ==> matrixData[4 * c + r] == camera.modelMatrix[c][r]
      ensures Pack(matrixData) == camera.modelMatrix
    {
      var m := camera.modelMatrix;
      var data := new real[16];
      data[0] := m[0][0]; data[1] := m[0][1]; data[2] := m[0][2]; data[3] := m[0][3];      // column 0
      data[4] := m[1][0]; data[5] := m[1][1]; data[6] := m[1][2]; data[7] := m[1][3];      // column 1
      data[8] := m[2][0]; data[9] := m[2][1]; data[10] := m[2][2]; data[11] := m[2][3];    // column 2
      data[12] := m[3][0]; data[13] := m[3][1]; data[14] := m[3][2]; data[15] := m[3][3];  // column 3
      matrixData := data[..];
      assert matrixData == Unpack(m);
      PackUnpack(m);
    }
  }
}
