/** The camera protocol (Camera.swift) as an abstract collaborator: a dirty
    flag, an opaque view matrix, and an update hook that moves the camera to a
    view the concrete camera computes, recording the timesteps it received. */
module Cameras {
  import opened Gpu

  class Camera {
    var dirty: bool
    var viewMatrix: Mat
    var timesteps: seq<real>

    constructor (view: Mat)
      ensures dirty && viewMatrix == view && timesteps == []
    {
      dirty := true;
      viewMatrix := view;
      timesteps := [];
    }

    /** A view-changing property was set (position, direction or up) to a
        value giving the view `view`: the camera becomes dirty only when the
        view differs, as each property's `willSet` compares the new value
        with the old one. */
    method Move(view: Mat)
      modifies this
      ensures dirty == (old(dirty) || view != old(viewMatrix))
      ensures viewMatrix == view && timesteps == old(timesteps)
    {
      if view != viewMatrix {
        dirty := true;
      }
      viewMatrix := view;
    }

    /** Reading `viewMatrix`: the platform camera recomputes it when dirty and
        clears the flag (Gsw/OSX/ConcreteCameraOSX.swift, the getter). */
    method ReadViewMatrix() returns (m: Mat)
      modifies this`dirty
      ensures m == viewMatrix && !dirty
    {
      dirty := false;
      m := viewMatrix;
    }

    /** `update(timestep:)`: the concrete camera moves by its velocity times
        the step and turns with the mouse, setting `position`, `direction`
        and `up` through their observers. That motion depends on input state
        outside this model, so the view it arrives at is the parameter
        `next`, reached as by `Move`. */
    method Update(timestep: real, next: Mat)
      modifies this
      ensures dirty == (old(dirty) || next != old(viewMatrix))
      ensures viewMatrix == next
      ensures timesteps == old(timesteps) + [timestep]
    {
      Move(next);
      timesteps := timesteps + [timestep];
    }
  }
}
