/**
 * Thumbs-up/down feedback (Frontend/components/FeedbackControls.js): which
 * session the feedback is for, whether it is sent, the message it sends, and
 * the component's selection, text box and text state. The WebSocket is
 * replaced by its ready state; sent messages are recorded.
 */
module FeedbackControls {
  import opened Values

  /** `WebSocket.OPEN`. */
  const Open: int := 1

  /** `wsRef?.current`: no socket, or a socket in some ready state. */
  datatype Socket = NoSocket | Connected(readyState: int)

  /** What the component reads from its props and refs when it sends. */
  datatype Env = Env(
    sessionIdRef: Value,  // `sessionIdRef?.current`
    sessionId: Value,     // the `sessionId` prop
    socket: Socket,
    user: Value,
    panelName: Value,
    now: int)             // `Date.now()`

  /** The JSON object sent over the socket. */
  datatype Message = Message(
    kind: string,          // `type`
    sessionId: Value,
    panel: Value,
    feedbackType: string,
    feedbackText: Value,
    userId: Value,
    timestamp: int)

  /** `sessionIdRef?.current || sessionId`. */
  function ActiveSessionId(env: Env): (r: Value)
    ensures Truthy(env.sessionIdRef) ==> r == env.sessionIdRef
    ensures !Truthy(env.sessionIdRef) ==> r == env.sessionId
  {
    if Truthy(env.sessionIdRef) then env.sessionIdRef else env.sessionId
  }

  /** `user?.id || user?.sub`. */
  function UserId(user: Value): Value
  {
    if Truthy(Get(user, "id")) then Get(user, "id") else Get(user, "sub")
  }

  /** The buttons are disabled exactly when there is no active session id. */
  predicate Disabled(env: Env)
  {
    !Truthy(ActiveSessionId(env))
  }

  /** `sendFeedback`: the message sent, or None when it returns early. */
  function SendFeedback(env: Env, feedbackType: string, text: Value): (r: Option<Message>)
    ensures r.Some? <==> Truthy(ActiveSessionId(env)) && env.socket.Connected? && env.socket.readyState == Open
    ensures r.Some? ==>
      && r.value.kind == "submit_feedback" && r.value.sessionId == ActiveSessionId(env)
      && r.value.panel == env.panelName && r.value.feedbackType == feedbackType
      && r.value.feedbackText == text && r.value.timestamp == env.now
    ensures r.Some? ==>
      && (Truthy(Get(env.user, "id")) ==> r.value.userId == Get(env.user, "id"))
      && (!Truthy(Get(env.user, "id")) ==> r.value.userId == Get(env.user, "sub"))
  {
    var active := ActiveSessionId(env);
    if !Truthy(active) || env.socket.NoSocket? || env.socket.readyState != Open then None
    else Some(Message("submit_feedback", active, env.panelName, feedbackType, text, UserId(env.user), env.now))
  }

  /** A sent message always names a truthy session. */
  lemma SentMessageHasSession(env: Env, feedbackType: string, text: Value)
    requires SendFeedback(env, feedbackType, text).Some?
    ensures Truthy(SendFeedback(env, feedbackType, text).value.sessionId)
    ensures !Disabled(env)
  {
  }

  class Feedback {
    var selected: Option<string>
    var showFeedbackBox: bool
    var feedbackText: string
    /** Every message written to the socket, in order. */
    var sent: seq<Message>

    constructor()
      ensures selected == None && !showFeedbackBox && feedbackText == "" && sent == []
    {
      selected := None;
      showFeedbackBox := false;
      feedbackText := "";
      sent := [];
    }

    /** Append the message `sendFeedback` sends, if any. */
    method Send(env: Env, feedbackType: string, text: Value)
      modifies this
      ensures SendFeedback(env, feedbackType, text).Some? ==>
        sent == old(sent) + [SendFeedback(env, feedbackType, text).value]
      ensures SendFeedback(env, feedbackType, text).None? ==> sent == old(sent)
      ensures selected == old(selected) && showFeedbackBox == old(showFeedbackBox) && feedbackText == old(feedbackText)
    {
      var message := SendFeedback(env, feedbackType, text);
      if message.Some? {
        sent := sent + [message.value];
      }
    }

    /** `handleClick` on thumbs up ("up") or down ("down"): select, then send with no text. */
    method HandleClick(env: Env, feedbackType: string)
      requires !Disabled(env)
      modifies this
      ensures selected == Some(feedbackType)
      ensures SendFeedback(env, feedbackType, Null).Some? ==>
        sent == old(sent) + [SendFeedback(env, feedbackType, Null).value]
      ensures SendFeedback(env, feedbackType, Null).None? ==> sent == old(sent)
      ensures showFeedbackBox == old(showFeedbackBox) && feedbackText == old(feedbackText)
    {
      selected := Some(feedbackType);
      Send(env, feedbackType, Null);
    }

    /** The comment button toggles the text box. */
    method ToggleFeedbackBox(env: Env)
      requires !Disabled(env)
      modifies this
      ensures showFeedbackBox == !old(showFeedbackBox)
      ensures selected == old(selected) && feedbackText == old(feedbackText) && sent == old(sent)
    {
      showFeedbackBox := !showFeedbackBox;
    }

    /** The text area's `onChange`. */
    method SetFeedbackText(text: string)
      modifies this
      ensures feedbackText == text
      ensures selected == old(selected) && showFeedbackBox == old(showFeedbackBox) && sent == old(sent)
    {
      feedbackText := text;
    }

    /**
     * `handleFeedbackSubmit`: without a selection nothing changes; otherwise
     * the text is sent with the selection, then cleared, and the box hidden.
     */
    method HandleFeedbackSubmit(env: Env)
      modifies this
      ensures old(selected).None? ==>
        sent == old(sent) && feedbackText == old(feedbackText) && showFeedbackBox == old(showFeedbackBox)
      ensures old(selected).Some? ==>
        var m := SendFeedback(env, old(selected).value, Str(old(feedbackText)));
        (m.Some? ==> sent == old(sent) + [m.value]) && (m.None? ==> sent == old(sent))
        && feedbackText == "" && !showFeedbackBox
      ensures selected == old(selected)
    {
      if selected.None? {
        return;
      }
      Send(env, selected.value, Str(feedbackText));
      feedbackText := "";
      showFeedbackBox := false;
    }
  }
}
