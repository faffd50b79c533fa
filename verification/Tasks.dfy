/** The A2A task (section 9.3 of the A2A specification) and its state machine (section 9.6). */
module Tasks {
  import opened Options

  datatype TaskState =
    | Unspecified | Submitted | Working | InputRequired
    | Completed | Failed | Canceled | Rejected | AuthRequired

  /** A message or artifact body, kept as its serialized text. */
  type Json = string

  datatype Message = Message(messageId: string, parts: seq<Json>)
  datatype Artifact = Artifact(artifactId: string, name: Option<string>, parts: seq<Json>)
  datatype TaskStatus = TaskStatus(state: TaskState, timestamp: int, message: Option<Message>)

  datatype Task = Task(
    id: string, contextId: Option<string>, parentTaskId: Option<string>, status: TaskStatus,
    history: Option<seq<Message>>, artifacts: seq<Artifact>, createdAt: Option<int>, metadata: Option<Json>)
  {
    function State(): TaskState { status.state }

    /** The fields no store operation may touch after creation. */
    function Identity(): (string, Option<string>, Option<string>, Option<int>, Option<Json>)
    {
      (id, contextId, parentTaskId, createdAt, metadata)
    }
  }

  datatype TaskEvent =
    | StatusChanged(taskId: string, status: TaskStatus)
    | ArtifactAdded(taskId: string, artifact: Artifact)

  predicate IsTerminal(s: TaskState) { s.Completed? || s.Failed? || s.Canceled? || s.Rejected? }

  predicate IsValidTransition(from: TaskState, to: TaskState)
  {
    match from
    case Submitted => to.Working? || to.Canceled? || to.Rejected?
    case Working => to.InputRequired? || to.Completed? || to.Failed? || to.Canceled? || to.Rejected?
    case InputRequired => to.Working? || to.Canceled?
    case _ => false
  }

  /** The ten allowed transitions, none of which leaves a state for itself or leaves a terminal state. */
  lemma AllowedTransitions(from: TaskState, to: TaskState)
    ensures IsValidTransition(from, to) <==> (from, to) in {
      (Submitted, Working), (Submitted, Canceled), (Submitted, Rejected),
      (Working, InputRequired), (Working, Completed), (Working, Failed), (Working, Canceled), (Working, Rejected),
      (InputRequired, Working), (InputRequired, Canceled)
    }
    ensures IsTerminal(from) <==> from in {Completed, Failed, Canceled, Rejected}
    ensures IsValidTransition(from, to) ==> from != to && !IsTerminal(from)
  {
  }

  /** A chain of allowed transitions. */
  predicate IsPath(p: seq<TaskState>)
  {
    forall i :: 0 < i < |p| ==> IsValidTransition(p[i - 1], p[i])
  }

  /**
   * Every chain of allowed transitions from `Submitted` stays inside the seven documented states,
   * reaches a terminal state only at its end, and passes through `Working` immediately before it
   * completes, fails or asks for input.
   */
  lemma {:induction false} PathsFromSubmitted(p: seq<TaskState>)
    requires p != [] && p[0] == Submitted && IsPath(p)
    ensures var last := p[|p| - 1];
      && !last.Unspecified? && !last.AuthRequired?
      && (forall i :: 0 <= i < |p| - 1 ==> !IsTerminal(p[i]))
      && (last.Completed? || last.Failed? || last.InputRequired? ==> |p| >= 2 && p[|p| - 2] == Working)
  {
    if |p| > 1 {
      PathsFromSubmitted(p[..|p| - 1]);
      assert IsValidTransition(p[|p| - 2], p[|p| - 1]);
      assert forall i :: 0 <= i < |p| - 2 ==> p[i] == p[..|p| - 1][i];
    }
  }
}
