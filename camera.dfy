/** Scene/Camera.h and Scene/Camera.cpp: the camera's bookkeeping. The matrix
    and quaternion arithmetic of glm is kept symbolic: a matrix is the term
    that built it, a ray direction the term that would be evaluated for a
    pixel, and the rotation of the forward vector is a parameter. */
module Cameras {
  import opened Basics
  import opened SceneData

  datatype Vec2 = Vec2(x: real, y: real)

  /** `CameraData`. */
  datatype CameraData = CameraData(
    Position: Vec3,
    VerticalFOV: real,
    NearClip: real,
    FarClip: real,
    NormalMovementSpeed: real,
    FastMovementSpeed: real,
    RotationSpeed: real)

  const DefaultCameraData: CameraData := CameraData(Vec3(0.0, 0.0, 6.0), 45.0, 0.1, 100.0, 5.0, 10.0, 0.3)

  lemma DefaultCameraDataValues()
    ensures DefaultCameraData.Position == Vec3(0.0, 0.0, 6.0)
    ensures DefaultCameraData.VerticalFOV == 45.0 && DefaultCameraData.NearClip == 0.1 && DefaultCameraData.FarClip == 100.0
    ensures DefaultCameraData.NormalMovementSpeed == 5.0 && DefaultCameraData.FastMovementSpeed == 10.0
    ensures DefaultCameraData.RotationSpeed == 0.3
  {
  }

  /** A 4x4 matrix, named by how it was built. `PerspectiveFov` holds the field
      of view in degrees, before `glm::radians`. */
  datatype Matrix =
    | Identity
    | PerspectiveFov(fovDegrees: real, width: real, height: real, near: real, far: real)
    | LookAt(eye: Vec3, center: Vec3, up: Vec3)
    | Inverse(of: Matrix)

  /** The world-space direction of the ray through a pixel whose coordinates
      are mapped to [-1, 1), unprojected through the two inverse matrices;
      `ZeroDirection` is the value a resize appends. */
  datatype RayDirection = ZeroDirection | Unprojected(inverseProjection: Matrix, inverseView: Matrix, u: real, v: real)

  function Add(a: Vec3, b: Vec3): Vec3 {
    Vec3(a.x + b.x, a.y + b.y, a.z + b.z)
  }

  function Sub(a: Vec3, b: Vec3): Vec3 {
    Vec3(a.x - b.x, a.y - b.y, a.z - b.z)
  }

  function Scale(a: Vec3, k: real): Vec3 {
    Vec3(a.x * k, a.y * k, a.z * k)
  }

  /** The cross product; `Cross(forward, up)` is the camera's right vector. */
  function Cross(a: Vec3, b: Vec3): (r: Vec3)
    ensures r.x * a.x + r.y * a.y + r.z * a.z == 0.0
    ensures r.x * b.x + r.y * b.y + r.z * b.z == 0.0
  {
    Vec3(a.y * b.z - a.z * b.y, a.z * b.x - a.x * b.z, a.x * b.y - a.y * b.x)
  }

  // ---------------------------------------------------------------------------
  // The ray-direction table

  /** Pixel `i` of `extent` mapped to normalised device coordinates. */
  function PixelCoord(i: nat, extent: nat): (r: real)
    requires extent > 0
    ensures i == 0 ==> r == -1.0
    ensures i < extent ==> -1.0 <= r < 1.0
  {
    (i as real / extent as real) * 2.0 - 1.0
  }

  /** Row `y` of the table: the directions of pixels (0, y) … (w - 1, y). */
  function Row(inverseProjection: Matrix, inverseView: Matrix, y: nat, w: nat, h: nat): (r: seq<RayDirection>)
    requires y < h
    ensures |r| == w
  {
    seq(w, (x: int) requires 0 <= x < w =>
      Unprojected(inverseProjection, inverseView, PixelCoord(x, w), PixelCoord(y, h)))
  }

  /** The first `y` rows, one after the other. */
  function RayRows(inverseProjection: Matrix, inverseView: Matrix, y: nat, w: nat, h: nat): (t: seq<RayDirection>)
    requires y <= h
    ensures |t| == y * w
  {
    if y == 0 then []
    else
      assert (y - 1) * w + w == y * w;
      RayRows(inverseProjection, inverseView, y - 1, w, h) + Row(inverseProjection, inverseView, y - 1, w, h)
  }

  /** What the cache holds after `RecalculateRayDirections`: one direction per
      pixel, row by row. */
  function RayTable(inverseProjection: Matrix, inverseView: Matrix, w: nat, h: nat): (t: seq<RayDirection>)
    ensures |t| == w * h
  {
    RayRows(inverseProjection, inverseView, h, w, h)
  }

  /** Slot `x + y * w` of the first `rows` rows holds pixel (x, y). */
  lemma {:induction false} RayRowsSlot(inverseProjection: Matrix, inverseView: Matrix, x: nat, y: nat, rows: nat, w: nat, h: nat)
    requires x < w && y < rows <= h
    ensures x + y * w < rows * w
    ensures RayRows(inverseProjection, inverseView, rows, w, h)[x + y * w]
      == Unprojected(inverseProjection, inverseView, PixelCoord(x, w), PixelCoord(y, h))
  {
    var before := RayRows(inverseProjection, inverseView, rows - 1, w, h);
    if y == rows - 1 {
      assert x + y * w == |before| + x;
    } else {
      RayRowsSlot(inverseProjection, inverseView, x, y, rows - 1, w, h);
      assert (rows - 1) * w <= rows * w;
    }
  }

  /** The table is row-major: slot `x + y * w` holds pixel (x, y). */
  lemma RayTableSlot(inverseProjection: Matrix, inverseView: Matrix, x: nat, y: nat, w: nat, h: nat)
    requires x < w && y < h
    ensures x + y * w < w * h
    ensures RayTable(inverseProjection, inverseView, w, h)[x + y * w]
      == Unprojected(inverseProjection, inverseView, PixelCoord(x, w), PixelCoord(y, h))
  {
    RayRowsSlot(inverseProjection, inverseView, x, y, h, w, h);
  }

  /** With a zero width or height the table is empty. */
  lemma EmptyViewportEmptyTable(inverseProjection: Matrix, inverseView: Matrix, w: nat, h: nat)
    requires w == 0 || h == 0
    ensures RayTable(inverseProjection, inverseView, w, h) == []
  {
  }

  /** `std::vector::resize`: the first elements are kept, new ones are zero. */
  function Resized(s: seq<RayDirection>, n: nat): (r: seq<RayDirection>)
    ensures |r| == n
    ensures forall i :: 0 <= i < n && i < |s| ==> r[i] == s[i]
    ensures forall i :: |s| <= i < n ==> r[i] == ZeroDirection
  {
    if n <= |s| then s[..n] else s + seq(n - |s|, _ => ZeroDirection)
  }

  // ---------------------------------------------------------------------------
  // Keyboard and mouse

  /** The input `OnUpdate` polls: the mouse position and the state of the
      right button and of the movement keys. */
  datatype InputState = InputState(
    mouse: Vec2,
    rightButton: bool,
    w: bool, a: bool, s: bool, d: bool,
    leftControl: bool, space: bool, leftShift: bool)

  predicate AnyMovementKey(input: InputState) {
    input.w || input.s || input.a || input.d || input.leftControl || input.space
  }

  /** `glm::rotate` of the forward vector by the quaternion built from the
      pitch angle about the right vector and the yaw angle about the up
      vector: rotate(forward, pitch, right, yaw, up). */
  type Rotation = (Vec3, real, Vec3, real, Vec3) -> Vec3

  function MoveSpeed(data: CameraData, fast: bool): real {
    if fast then data.FastMovementSpeed else data.NormalMovementSpeed
  }

  /** The camera position after the keys of one frame: per axis the first key
      of each pair wins (W over S, A over D, LeftControl over Space). */
  function Translated(data: CameraData, forward: Vec3, up: Vec3, ts: real, input: InputState): (p: Vec3)
    ensures !AnyMovementKey(input) ==> p == data.Position
  {
    var right := Cross(forward, up);
    var speed := MoveSpeed(data, input.leftShift);
    var p1 :=
      if input.w then Add(data.Position, Scale(Scale(forward, speed), ts))
      else if input.s then Sub(data.Position, Scale(Scale(forward, speed), ts))
      else data.Position;
    var p2 :=
      if input.a then Sub(p1, Scale(Scale(right, speed), ts))
      else if input.d then Add(p1, Scale(Scale(right, speed), ts))
      else p1;
    if input.leftControl then Sub(p2, Scale(Scale(up, speed), ts))
    else if input.space then Add(p2, Scale(Scale(up, speed), ts))
    else p2
  }

  /** Holding W makes S irrelevant, holding A makes D irrelevant, and holding
      LeftControl makes Space irrelevant. */
  lemma FirstKeyOfEachPairWins(data: CameraData, forward: Vec3, up: Vec3, ts: real, input: InputState)
    ensures input.w ==> Translated(data, forward, up, ts, input.(s := true)) == Translated(data, forward, up, ts, input.(s := false))
    ensures input.a ==> Translated(data, forward, up, ts, input.(d := true)) == Translated(data, forward, up, ts, input.(d := false))
    ensures input.leftControl ==>
      Translated(data, forward, up, ts, input.(space := true)) == Translated(data, forward, up, ts, input.(space := false))
  {
  }

  /** W alone moves the camera forward by speed * ts, where the speed is the
      fast one exactly when LeftShift is held. */
  lemma ShiftSelectsSpeed(data: CameraData, forward: Vec3, up: Vec3, ts: real, input: InputState)
    requires input.w && !input.a && !input.d && !input.leftControl && !input.space
    ensures Translated(data, forward, up, ts, input)
      == Add(data.Position, Scale(Scale(forward, if input.leftShift then data.FastMovementSpeed else data.NormalMovementSpeed), ts))
  {
  }

  // ---------------------------------------------------------------------------
  // The camera

  class Camera {
    var data: CameraData
    var projection: Matrix
    var view: Matrix
    var inverseProjection: Matrix
    var inverseView: Matrix
    var forward: Vec3
    const up: Vec3
    /** The cached ray directions, `m_RayDirections`. */
    var rayDirections: seq<RayDirection>
    var lastMousePosition: Vec2
    var viewportWidth: UInt32
    var viewportHeight: UInt32

    /** The cache matches the current viewport and inverse matrices, and the
        viewport has fewer than 2^32 pixels. */
    ghost predicate Valid()
      reads this`viewportWidth, this`viewportHeight, this`rayDirections, this`inverseProjection, this`inverseView
    {
      && (viewportWidth as int) * (viewportHeight as int) < TwoTo32
      && rayDirections == RayTable(inverseProjection, inverseView, viewportWidth as nat, viewportHeight as nat)
    }

    constructor(verticalFOV: real, nearClip: real, farClip: real)
      ensures Valid()
      ensures data == DefaultCameraData.(VerticalFOV := verticalFOV, NearClip := nearClip, FarClip := farClip)
      ensures data.Position == Vec3(0.0, 0.0, 6.0)
      ensures projection == Identity && view == Identity && inverseProjection == Identity && inverseView == Identity
      ensures forward == Vec3(0.0, 0.0, -1.0) && up == Vec3(0.0, 1.0, 0.0)
      ensures viewportWidth == 0 && viewportHeight == 0 && rayDirections == []
      ensures lastMousePosition == Vec2(0.0, 0.0)
    {
      data := DefaultCameraData.(VerticalFOV := verticalFOV, NearClip := nearClip, FarClip := farClip,
        Position := Vec3(0.0, 0.0, 6.0));
      projection := Identity;
      view := Identity;
      inverseProjection := Identity;
      inverseView := Identity;
      forward := Vec3(0.0, 0.0, -1.0);
      up := Vec3(0.0, 1.0, 0.0);
      rayDirections := [];
      lastMousePosition := Vec2(0.0, 0.0);
      viewportWidth := 0;
      viewportHeight := 0;
    }

    /** Polls the input for one frame and reports whether the camera moved.
        The view, the projection and the cache are rebuilt before the move,
        from the position and direction of the previous frame. */
    method OnUpdate(ts: real, input: InputState, viewportFocused: bool, rotate: Rotation) returns (moved: bool)
      requires Valid()
      modifies this`lastMousePosition, this`data, this`forward, this`view, this`inverseView
      modifies this`projection, this`inverseProjection, this`rayDirections
      ensures Valid()
      ensures lastMousePosition == input.mouse
      ensures viewportWidth != 0 && viewportHeight != 0 ==>
        && view == LookAt(old(data.Position), Add(old(data.Position), old(forward)), up)
        && inverseView == Inverse(view)
        && projection == PerspectiveFov(data.VerticalFOV, viewportWidth as real, viewportHeight as real, data.NearClip, data.FarClip)
        && inverseProjection == Inverse(projection)
      ensures viewportWidth == 0 || viewportHeight == 0 ==>
        && view == old(view) && inverseView == old(inverseView) && projection == old(projection)
        && inverseProjection == old(inverseProjection) && rayDirections == old(rayDirections)
      ensures !input.rightButton || !viewportFocused ==> !moved && data == old(data) && forward == old(forward)
      ensures input.rightButton && viewportFocused ==>
        var mouseMoved := input.mouse != old(lastMousePosition);
        && moved == (AnyMovementKey(input) || mouseMoved)
        && data == old(data).(Position := Translated(old(data), old(forward), up, ts, input))
        && forward == (if mouseMoved then RotatedForward(old(data).RotationSpeed, old(forward), up, old(lastMousePosition), input.mouse, rotate) else old(forward))
    {
      var previousMouse := lastMousePosition;
      var delta := Vec2((input.mouse.x - previousMouse.x) * 0.002, (input.mouse.y - previousMouse.y) * 0.002);
      lastMousePosition := input.mouse;

      if viewportWidth != 0 && viewportHeight != 0 {
        Refresh();
      }

      if !input.rightButton {
        return false;
      }
      if !viewportFocused {
        return false;
      }

      moved := Move(ts, input);
      if delta.x != 0.0 || delta.y != 0.0 {
        forward := RotatedForward(data.RotationSpeed, forward, up, previousMouse, input.mouse, rotate);
        moved := true;
      } else {
        assert input.mouse == previousMouse;
      }
    }

    /** The recalculation at the head of `OnUpdate`, from the current position
        and direction. */
    method Refresh()
      requires (viewportWidth as int) * (viewportHeight as int) < TwoTo32
      modifies this`view, this`inverseView, this`projection, this`inverseProjection, this`rayDirections
      ensures Valid()
      ensures view == LookAt(data.Position, Add(data.Position, forward), up) && inverseView == Inverse(view)
      ensures projection == PerspectiveFov(data.VerticalFOV, viewportWidth as real, viewportHeight as real, data.NearClip, data.FarClip)
      ensures inverseProjection == Inverse(projection)
    {
      RecalculateView();
      RecalculateProjection();
      ghost var writes := RecalculateRayDirections();
    }

    /** The movement part of `OnUpdate`, past its guards. */
    method Move(ts: real, input: InputState) returns (moved: bool)
      modifies this`data
      ensures moved == AnyMovementKey(input)
      ensures data == old(data).(Position := Translated(old(data), forward, up, ts, input))
    {
      moved := false;
      var right := Cross(forward, up);
      var speed := data.NormalMovementSpeed;
      if input.leftShift {
        speed := data.FastMovementSpeed;
      }

      if input.w {
        data := data.(Position := Add(data.Position, Scale(Scale(forward, speed), ts)));
        moved := true;
      } else if input.s {
        data := data.(Position := Sub(data.Position, Scale(Scale(forward, speed), ts)));
        moved := true;
      }

      if input.a {
        data := data.(Position := Sub(data.Position, Scale(Scale(right, speed), ts)));
        moved := true;
      } else if input.d {
        data := data.(Position := Add(data.Position, Scale(Scale(right, speed), ts)));
        moved := true;
      }

      if input.leftControl {
        data := data.(Position := Sub(data.Position, Scale(Scale(up, speed), ts)));
        moved := true;
      } else if input.space {
        data := data.(Position := Add(data.Position, Scale(Scale(up, speed), ts)));
        moved := true;
      }
    }

    /** Stores a new viewport size and rebuilds the projection and the cache;
        a call with the current size does nothing. */
    method OnResize(width: UInt32, height: UInt32)
      requires Valid()
      requires (width as int) * (height as int) < TwoTo32
      modifies this`viewportWidth, this`viewportHeight, this`projection, this`inverseProjection, this`rayDirections
      ensures Valid()
      ensures width == old(viewportWidth) && height == old(viewportHeight) ==>
        projection == old(projection) && inverseProjection == old(inverseProjection) && rayDirections == old(rayDirections)
      ensures viewportWidth == width && viewportHeight == height
      ensures |rayDirections| == (width as int) * (height as int)
      ensures width != old(viewportWidth) || height != old(viewportHeight) ==>
        && projection == PerspectiveFov(data.VerticalFOV, width as real, height as real, data.NearClip, data.FarClip)
        && inverseProjection == Inverse(projection)
    {
      if width == viewportWidth && height == viewportHeight {
        return;
      }
      viewportWidth := width;
      viewportHeight := height;
      RecalculateProjection();
      ghost var writes := RecalculateRayDirections();
    }

    method RecalculateProjection()
      modifies this`projection, this`inverseProjection
      ensures projection == PerspectiveFov(data.VerticalFOV, viewportWidth as real, viewportHeight as real, data.NearClip, data.FarClip)
      ensures inverseProjection == Inverse(projection)
    {
      projection := PerspectiveFov(data.VerticalFOV, viewportWidth as real, viewportHeight as real, data.NearClip, data.FarClip);
      inverseProjection := Inverse(projection);
    }

    method RecalculateView()
      modifies this`view, this`inverseView
      ensures view == LookAt(data.Position, Add(data.Position, forward), up)
      ensures inverseView == Inverse(view)
    {
      view := LookAt(data.Position, Add(data.Position, forward), up);
      inverseView := Inverse(view);
    }

    /** Resizes the cache to width * height and writes every slot x + y * width,
        each exactly once, with the direction of pixel (x, y). */
    method RecalculateRayDirections() returns (ghost writes: seq<nat>)
      requires (viewportWidth as int) * (viewportHeight as int) < TwoTo32
      modifies this`rayDirections
      ensures Valid()
      ensures |writes| == |rayDirections| && forall k :: 0 <= k < |writes| ==> writes[k] == 1
    {
      var w: nat := viewportWidth as nat;
      var h: nat := viewportHeight as nat;
      var n := w * h;
      rayDirections := Resized(rayDirections, n);
      writes := seq(n, _ => 0);
      var y := 0;
      ghost var start := 0;
      while y < h
        invariant 0 <= y <= h
        invariant start == y * w && start <= n
        invariant |rayDirections| == n && |writes| == n
        invariant rayDirections[..start] == RayRows(inverseProjection, inverseView, y, w, h)
        invariant forall k :: 0 <= k < start ==> writes[k] == 1
        invariant forall k :: start <= k < n ==> writes[k] == 0
      {
        NextRow(y, w, h);
        writes := WriteRow(y, start, writes);
        y := y + 1;
        start := start + w;
      }
      assert rayDirections == rayDirections[..start];
    }

    /** The inner loop of `RecalculateRayDirections`: row `y`, which starts at
        slot `start`, of the cache. */
    method WriteRow(y: nat, ghost start: nat, ghost writes: seq<nat>) returns (ghost written: seq<nat>)
      requires y < viewportHeight as nat && start == y * (viewportWidth as nat)
      requires start + viewportWidth as nat <= |writes| == |rayDirections|
      requires forall k :: start <= k < |writes| ==> writes[k] == 0
      modifies this`rayDirections
      ensures |rayDirections| == |written| == |writes|
      ensures rayDirections[..start + viewportWidth as nat]
        == old(rayDirections)[..start] + Row(inverseProjection, inverseView, y, viewportWidth as nat, viewportHeight as nat)
      ensures forall k :: 0 <= k < start ==> written[k] == writes[k]
      ensures forall k :: start <= k < start + viewportWidth as nat ==> written[k] == 1
      ensures forall k :: start + viewportWidth as nat <= k < |written| ==> written[k] == 0
    {
      var w: nat := viewportWidth as nat;
      var h: nat := viewportHeight as nat;
      ghost var row := Row(inverseProjection, inverseView, y, w, h);
      written := writes;
      var x := 0;
      while x < w
        invariant 0 <= x <= w
        invariant |rayDirections| == |written| == |writes|
        invariant rayDirections[..start + x] == old(rayDirections)[..start] + row[..x]
        invariant forall k :: 0 <= k < start ==> written[k] == writes[k]
        invariant forall k :: start <= k < start + x ==> written[k] == 1
        invariant forall k :: start + x <= k < |written| ==> written[k] == 0
      {
        var coord := Vec2(PixelCoord(x, w), PixelCoord(y, h));
        var slot := x + y * w;
        assert slot == start + x;
        rayDirections := rayDirections[slot := Unprojected(inverseProjection, inverseView, coord.x, coord.y)];
        assert row[..x + 1] == row[..x] + [row[x]];
        written := written[slot := written[slot] + 1];
        x := x + 1;
      }
      assert row[..w] == row;
    }

    method GetPosition() returns (position: Vec3)
      ensures position == data.Position
    {
      position := data.Position;
    }

    method GetDirection() returns (direction: Vec3)
      ensures direction == forward
    {
      direction := forward;
    }

    /** The cache, which holds one direction per pixel of the viewport. */
    method GetRayDirections() returns (rays: seq<RayDirection>)
      requires Valid()
      ensures rays == RayTable(inverseProjection, inverseView, viewportWidth as nat, viewportHeight as nat)
    {
      rays := rayDirections;
    }

    method GetCameraData() returns (d: CameraData)
      ensures d == data
    {
      d := data;
    }
  }

  /** The new forward vector after the mouse moved from `last` to `mouse`. */
  function RotatedForward(rotationSpeed: real, forward: Vec3, up: Vec3, last: Vec2, mouse: Vec2, rotate: Rotation): Vec3 {
    var delta := Vec2((mouse.x - last.x) * 0.002, (mouse.y - last.y) * 0.002);
    rotate(forward, -(delta.y * rotationSpeed), Cross(forward, up), -(delta.x * rotationSpeed), up)
  }

  lemma NextRow(y: nat, w: nat, h: nat)
    requires y < h
    ensures (y + 1) * w == y * w + w
    ensures (y + 1) * w <= w * h
  {
    assert (y + 1) * w <= h * w by {
      assert y + 1 <= h;
    }
  }
}
