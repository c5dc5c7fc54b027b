/** The gesture status indicator of the Christmas-tree scene.

    The component receives the latest recognised gesture, whether tracking is
    locked on, whether the scene is driven by the mouse instead, and the state
    of the camera permission, and shows exactly one of three variants: a button
    that asks for the camera, a static "denied" notice, or the live gesture
    status. The rendering is modelled as a pure function from those inputs to a
    view descriptor; the request callback is carried by the descriptor, never
    called by it.
 */
module Indicator {

  /** The gesture classes, one per key of the icon and label tables. */
  datatype Gesture = None | Fist | Open | Pinch | Pointing

  /** The four states of the camera permission. */
  datatype Permission = Prompt | Granted | Denied | Requesting

  /** The icons the component shows, by name. */
  datatype Icon = Circle | Grab | Hand | MousePointer | Camera | AlertCircle

  /** What the caller supplies on every render, apart from the callback. */
  datatype Props = Props(
    gesture: Gesture,
    isTracking: bool,
    usingMouse: bool,
    cameraPermission: Permission)

  /** The variant that is shown, with the fields its markup depends on.
      `A` is the type of the request callback. */
  datatype View<A> =
    | RequestPrompt(onClick: A, disabled: bool, icon: Icon, headline: string, hint: string)
    | DeniedNotice(icon: Icon, title: string, hint: string)
    | Active(icon: Icon, caption: string, labelText: string, highlighted: bool, pulse: bool)

  // Texts of the request button.
  const EnableHeadline: string := "启用手势控制"
  const RequestingHeadline: string := "正在请求权限..."
  const RequestHint: string := "点击授权摄像头"

  // Texts of the denied notice.
  const DeniedTitle: string := "摄像头权限被拒绝"
  const DeniedHint: string := "使用鼠标双击切换模式"

  // Texts of the active status.
  const MouseCaption: string := "鼠标控制"
  const TrackingCaption: string := "手势已识别"
  const WaitingCaption: string := "等待手势"
  const MouseLabel: string := "双击切换模式"

  /** The icon table: one icon per gesture. The mouse pointer stands for both
      pinching and pointing; the camera and alert icons belong to the other
      variants and never stand for a gesture. */
  function GestureIcon(g: Gesture): (r: Icon)
    ensures r == MousePointer <==> g == Pinch || g == Pointing
    ensures r == Circle <==> g == None
    ensures r == Grab <==> g == Fist
    ensures r == Hand <==> g == Open
    ensures r != Camera && r != AlertCircle
  {
    match g
    case None => Circle
    case Fist => Grab
    case Open => Hand
    case Pinch => MousePointer
    case Pointing => MousePointer
  }

  /** The label table: one text per gesture, never empty. */
  function GestureLabel(g: Gesture): (r: string)
    ensures |r| > 0
  {
    match g
    case None => "检测中..."
    case Fist => "握拳 - 圣诞树"
    case Open => "张开手掌 - 银河"
    case Pinch => "捏合 - 选择"
    case Pointing => "指向"
  }

  /** The permission states in which the request button is shown. */
  predicate AsksForCamera(p: Permission) {
    p == Prompt || p == Requesting
  }

  /** The component: two guarded early returns on the permission, then the
      live status built from nested conditionals over `usingMouse` and
      `isTracking`. */
  function GestureIndicator<A>(props: Props, onRequestCamera: A): (v: View<A>)
    // Exactly one variant, chosen by the permission alone.
    ensures v.RequestPrompt? <==> AsksForCamera(props.cameraPermission)
    ensures v.DeniedNotice? <==> props.cameraPermission == Denied
    ensures v.Active? <==> props.cameraPermission == Granted
    // The request button carries the caller's callback, and is disabled, with
    // the in-progress headline, exactly while the request is under way.
    ensures v.RequestPrompt? ==>
      && v.onClick == onRequestCamera
      && v.icon == Camera
      && (v.disabled <==> props.cameraPermission == Requesting)
      && (v.headline == RequestingHeadline <==> props.cameraPermission == Requesting)
      && (v.headline == EnableHeadline <==> props.cameraPermission == Prompt)
      && v.hint == RequestHint
    // The denied notice is the same fixed notice whatever the other inputs.
    ensures v.DeniedNotice? ==> v == DeniedNotice(AlertCircle, DeniedTitle, DeniedHint)
    // The live status: the mouse overrides both tables; otherwise they decide.
    ensures v.Active? && props.usingMouse ==>
      v.icon == MousePointer && v.labelText == MouseLabel && v.caption == MouseCaption
    ensures v.Active? && !props.usingMouse ==>
      && v.icon == GestureIcon(props.gesture)
      && v.labelText == GestureLabel(props.gesture)
      && (v.caption == TrackingCaption <==> props.isTracking)
      && (v.caption == WaitingCaption <==> !props.isTracking)
    // Highlight and pulse follow tracking alone.
    ensures v.Active? ==> v.highlighted == props.isTracking && v.pulse == props.isTracking
  {
    if AsksForCamera(props.cameraPermission) then
      RequestPrompt(
        onRequestCamera,
        props.cameraPermission == Requesting,
        Camera,
        if props.cameraPermission == Requesting then RequestingHeadline else EnableHeadline,
        RequestHint)
    else if props.cameraPermission == Denied then
      DeniedNotice(AlertCircle, DeniedTitle, DeniedHint)
    else
      Active(
        if props.usingMouse then MousePointer else GestureIcon(props.gesture),
        if props.usingMouse then MouseCaption
        else if props.isTracking then TrackingCaption
        else WaitingCaption,
        if props.usingMouse then MouseLabel else GestureLabel(props.gesture),
        props.isTracking,
        props.isTracking)
  }

  /** The permission the shown variant reveals: read back from the view alone. */
  function ShownPermission<A>(v: View<A>): Permission {
    match v
    case RequestPrompt(_, disabled, _, _, _) => if disabled then Requesting else Prompt
    case DeniedNotice(_, _, _) => Denied
    case Active(_, _, _, _, _) => Granted
  }

  /** Two inputs that the indicator cannot tell apart: the same permission, and,
      once the live status is shown, the same tracking and input mode, and the
      same gesture unless the mouse hides it. */
  predicate SameDisplay(a: Props, b: Props) {
    && a.cameraPermission == b.cameraPermission
    && (a.cameraPermission == Granted ==>
          && a.isTracking == b.isTracking
          && a.usingMouse == b.usingMouse
          && (a.usingMouse || a.gesture == b.gesture))
  }

  /** Permission dominates: while the camera is asked for, nothing but the
      permission reaches the view. */
  lemma PermissionDominates<A>(a: Props, b: Props, onRequestCamera: A)
    requires AsksForCamera(a.cameraPermission) && b.cameraPermission == a.cameraPermission
    ensures GestureIndicator(a, onRequestCamera) == GestureIndicator(b, onRequestCamera)
  {
  }

  /** Pinch and pointing share an icon, so the icon table loses information. */
  lemma IconsNotInjective()
    ensures Pinch != Pointing && GestureIcon(Pinch) == GestureIcon(Pointing)
    ensures GestureIcon(Pinch) == MousePointer
  {
  }

  /** The label table tells every gesture apart. */
  lemma LabelsInjective(g: Gesture, h: Gesture)
    ensures GestureLabel(g) == GestureLabel(h) <==> g == h
  {
  }

  /** The view shows which permission state the caller is in. */
  lemma PermissionShown<A>(props: Props, onRequestCamera: A)
    ensures ShownPermission(GestureIndicator(props, onRequestCamera)) == props.cameraPermission
  {
  }

  /** Two inputs give the same view exactly when they agree on everything the
      indicator shows. */
  lemma SameViewIffSameDisplay<A>(a: Props, b: Props, onRequestCamera: A)
    ensures GestureIndicator(a, onRequestCamera) == GestureIndicator(b, onRequestCamera)
        <==> SameDisplay(a, b)
  {
  }
}
