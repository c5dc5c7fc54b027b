# Gesture indicator model

A Dafny model of the gesture status indicator of the Christmas-tree scene
(`GestureIndicator` in `src/components/christmas/GestureIndicator.tsx`). The
component receives the current gesture, whether hand tracking is locked on,
whether the mouse fallback is active and the camera-permission state. From these
it shows one of three mutually exclusive variants:

- a **request button** while the permission is `prompt` or `requesting`. It is
  bound to the caller's `onRequestCamera` callback and is disabled while
  `requesting`;
- a static **denied notice** when the permission is `denied`;
- the **live status** otherwise (`granted`). It shows an icon, a caption and a
  label taken from two fixed tables or from the mouse-mode constants. It also
  has a green highlight and a pulsing dot, both shown while tracking.

The component is pure: it has no state, no hooks and no loops. It is modelled
as the pure function `Indicator.GestureIndicator`, which returns a view
descriptor `View<A>`. `A` is the type of the callback; the descriptor carries the
callback and never calls it. The lucide icons are an enumeration `Icon`. The
Tailwind class strings become the three booleans they encode: `disabled`,
`highlighted` and `pulse`. The texts are the component's own Chinese strings.

Module `Clicks` gives the request button's binding its meaning. A click on a
disabled button, or on a variant that binds nothing, invokes nothing. A
session is the sequence of renders the caller drives, each clicked or not, and
`Clicks.Invoked` lists the callbacks it invokes.

Files: `indicator.dfy` (module `Indicator`), `clicks.dfy` (module `Clicks`).

## Model

| member | source | states |
|---|---|---|
| `Indicator.GestureIndicator` | src/components/christmas/GestureIndicator.tsx:28-111 | The variant is chosen by the permission alone: request button iff `prompt` or `requesting`, denied notice iff `denied`, live status iff `granted`. The request button shows the camera icon and carries the caller's callback. It is disabled, with the "requesting" headline, exactly when the permission is `requesting`, and otherwise has the "enable" headline; the hint is the same in both cases. The denied notice is one fixed value. In the live status the mouse overrides both tables (mouse icon, mouse label, mouse caption). Otherwise icon and label come from the gesture tables, and the caption is the tracking caption iff tracking. Highlight and pulse equal `isTracking`. |
| `Indicator.GestureIcon` | src/components/christmas/GestureIndicator.tsx:12-18 | Every gesture has an icon: the mouse pointer exactly for `pinch` and `pointing`, the circle exactly for `none`, the grab exactly for `fist`, the hand exactly for `open`. The camera and alert icons never stand for a gesture. |
| `Indicator.GestureLabel` | src/components/christmas/GestureIndicator.tsx:20-26 | Every gesture has a label, and no label is empty. |
| `Indicator.PermissionDominates` | src/components/christmas/GestureIndicator.tsx:36-60 | While the permission is `prompt` or `requesting`, two inputs with the same permission give the same view, whatever their gesture, tracking and mouse flags. |
| `Indicator.IconsNotInjective` | src/components/christmas/GestureIndicator.tsx:12-18 | `pinch` and `pointing` are different gestures with the same icon, and that icon is the mouse pointer. |
| `Indicator.LabelsInjective` | src/components/christmas/GestureIndicator.tsx:20-26 | Two gestures have the same label iff they are the same gesture. |
| `Indicator.PermissionShown` | src/components/christmas/GestureIndicator.tsx:36-82 | The permission state can be read back from the view: the variant tells the three groups apart, and the disabled flag tells `requesting` from `prompt`. |
| `Indicator.SameViewIffSameDisplay` | src/components/christmas/GestureIndicator.tsx:82-110 | Two inputs render the same view iff they have the same permission and, when it is `granted`, the same tracking and mouse flags and, unless the mouse is on, the same gesture. So nothing else reaches the view, and none of this is lost. |
| `Clicks.ClickInvokesOnlyOnPrompt` | src/components/christmas/GestureIndicator.tsx:39-41 | A click on the indicator invokes the caller's callback iff the permission is `prompt`. It invokes nothing when the permission is `requesting`, `denied` or `granted`. |
| `Clicks.Invoked` | src/components/christmas/GestureIndicator.tsx:39-41 | A session never invokes more callbacks than it has clicks, and each one it invokes is the caller's callback. |
| `Clicks.OneInvocationPerPromptClick` | src/components/christmas/GestureIndicator.tsx:39-41 | A session invokes exactly one callback per click made while the permission was `prompt`. |
| `Clicks.NoPromptNoInvocation` | src/components/christmas/GestureIndicator.tsx:36-79 | If the permission is never `prompt`, a session invokes nothing, however many clicks it has. |
| `Clicks.SingleRequestWhenCallerAdvances` | src/components/christmas/GestureIndicator.tsx:39-41 | Suppose no click before some render k was made in `prompt`, and the caller keeps the permission out of `prompt` after render k. Then the session invokes the callback at most once. Disabling the button during `requesting` is the only guard against duplicate requests. |

## Left out

- JSX markup, Tailwind classes, layout and animation: only the flags they
  encode (`disabled`, `highlighted`, `pulse`) and the texts are modelled.
- The lucide-react icon components: replaced by the tags of the `Icon`
  enumeration.
- React rendering and DOM event dispatch: a click is modelled only by the rule
  that a disabled button dispatches no click, which `Clicks.Click` defines. Re-render timing and event
  batching are not modelled.
- The camera-permission request flow and gesture recognition: they live
  outside this component (browser APIs, asynchronous work, camera access).
  Their results arrive only as the `Props` values of each render.
- `@/types/christmas` is not part of this model. `Gesture` is defined from the
  keys of the two tables (lines 12-26). The type system rules out values
  outside the enumerations.
