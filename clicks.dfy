/** What a click on the indicator does.

    The request button binds the caller's callback to its click and is
    disabled while the request is under way; a disabled button dispatches no
    click, and the other two variants bind nothing. A session is the sequence
    of renders the caller drives, each possibly clicked once; the callbacks it
    invokes are counted here.
 */
module Clicks {
  import opened Indicator

  /** The outcome of one click on a shown view. */
  datatype Effect<A> = NoEffect | Invoke(action: A)

  /** One render of the indicator and whether the user clicked it. */
  datatype Frame = Frame(props: Props, clicked: bool)

  /** A click reaches the callback only through an enabled request button. */
  function Click<A>(v: View<A>): Effect<A> {
    if v.RequestPrompt? && !v.disabled then Invoke(v.onClick) else NoEffect
  }

  /** Clicking the indicator invokes the caller's callback exactly when the
      permission is still to be asked, and never while it is being requested,
      denied or granted. */
  lemma ClickInvokesOnlyOnPrompt<A>(props: Props, onRequestCamera: A)
    ensures Click(GestureIndicator(props, onRequestCamera))
         == if props.cameraPermission == Prompt then Invoke(onRequestCamera) else NoEffect
  {
  }

  /** The number of clicks in a session. */
  function ClickCount(frames: seq<Frame>): nat {
    if frames == [] then 0
    else ClickCount(frames[..|frames| - 1]) + (if frames[|frames| - 1].clicked then 1 else 0)
  }

  /** The number of clicks made while the permission was still to be asked. */
  function PromptClickCount(frames: seq<Frame>): nat {
    if frames == [] then 0
    else
      var last := frames[|frames| - 1];
      PromptClickCount(frames[..|frames| - 1])
        + (if last.clicked && last.props.cameraPermission == Prompt then 1 else 0)
  }

  /** The callbacks a session invokes, in order: one per clicked render whose
      view fires on a click. Every one of them is the caller's callback, and
      there are never more of them than clicks. */
  function Invoked<A>(frames: seq<Frame>, onRequestCamera: A): (calls: seq<A>)
    ensures |calls| <= ClickCount(frames)
    ensures forall i :: 0 <= i < |calls| ==> calls[i] == onRequestCamera
  {
    if frames == [] then []
    else
      var last := frames[|frames| - 1];
      var earlier := Invoked(frames[..|frames| - 1], onRequestCamera);
      if last.clicked then
        match Click(GestureIndicator(last.props, onRequestCamera))
        case Invoke(action) => earlier + [action]
        case NoEffect => earlier
      else earlier
  }

  /** Exactly one invocation per click made while the permission was still to
      be asked. */
  lemma {:induction false} OneInvocationPerPromptClick<A>(frames: seq<Frame>, onRequestCamera: A)
    ensures |Invoked(frames, onRequestCamera)| == PromptClickCount(frames)
  {
    if frames != [] {
      var last := frames[|frames| - 1];
      OneInvocationPerPromptClick(frames[..|frames| - 1], onRequestCamera);
      ClickInvokesOnlyOnPrompt(last.props, onRequestCamera);
    }
  }

  /** A session that never shows the enabled request button invokes nothing,
      however often the user clicks. */
  lemma {:induction false} NoPromptNoInvocation<A>(frames: seq<Frame>, onRequestCamera: A)
    requires forall i :: 0 <= i < |frames| ==> frames[i].props.cameraPermission != Prompt
    ensures Invoked(frames, onRequestCamera) == []
  {
    if frames != [] {
      var last := frames[|frames| - 1];
      NoPromptNoInvocation(frames[..|frames| - 1], onRequestCamera);
      ClickInvokesOnlyOnPrompt(last.props, onRequestCamera);
    }
  }

  /** Once the caller has moved the permission on from `Prompt` after a click,
      no later click invokes the callback again: at most one request per
      session of that shape. */
  lemma {:induction false} SingleRequestWhenCallerAdvances<A>(
    frames: seq<Frame>, k: nat, onRequestCamera: A)
    requires k <= |frames|
    requires forall i :: 0 <= i < k ==> !frames[i].clicked || frames[i].props.cameraPermission != Prompt
    requires forall i :: k < i < |frames| ==> frames[i].props.cameraPermission != Prompt
    ensures |Invoked(frames, onRequestCamera)| <= 1
  {
    OneInvocationPerPromptClick(frames, onRequestCamera);
    PromptClicksAtMostOne(frames, k);
  }

  /** Counting part of SingleRequestWhenCallerAdvances. */
  lemma {:induction false} PromptClicksAtMostOne(frames: seq<Frame>, k: nat)
    requires k <= |frames|
    requires forall i :: 0 <= i < k ==> !frames[i].clicked || frames[i].props.cameraPermission != Prompt
    requires forall i :: k < i < |frames| ==> frames[i].props.cameraPermission != Prompt
    ensures PromptClickCount(frames) <= 1
    decreases |frames|
  {
    if k == |frames| {
      NoPromptClicks(frames);
      return;
    }
    var init := frames[..|frames| - 1];
    if k == |frames| - 1 {
      NoPromptClicks(init);
    } else {
      PromptClicksAtMostOne(init, k);
    }
  }

  /** No click counts while the permission is never `Prompt` at a click. */
  lemma {:induction false} NoPromptClicks(frames: seq<Frame>)
    requires forall i :: 0 <= i < |frames| ==> !frames[i].clicked || frames[i].props.cameraPermission != Prompt
    ensures PromptClickCount(frames) == 0
  {
    if frames != [] {
      NoPromptClicks(frames[..|frames| - 1]);
    }
  }
}
