/** The video-generation task of the page: one creation request, then a
    status poll loop that runs until the task succeeds or a reply fails.
    The task's state is the five fields the handlers set: the phase
    (`videoStatus`), the error message (`videoError`), the result URL
    (`generatedVideo`) and the busy flag (`generatingVideo`), plus the prompt
    typed by the user. */
module VideoGeneration {
  import opened Web

  /** `videoStatus`. */
  datatype Phase = Idle | Creating | Polling | Completed | Error

  /** Position of a phase along idle, creating, polling, then a terminal phase. */
  function Rank(p: Phase): nat {
    match p
    case Idle => 0
    case Creating => 1
    case Polling => 2
    case Completed => 3
    case Error => 3
  }

  /** The decoded body of a reply from the creation endpoint. */
  datatype CreateData = CreateData(error: Option<string>, taskId: Option<string>)

  /** The decoded body of a reply from the status endpoint. */
  datatype StatusData = StatusData(error: Option<string>, status: Option<string>, videoUrl: Option<string>)

  /** The task fields as one value: phase, error message, result URL, busy flag. */
  datatype Task = Task(status: Phase, error: Option<string>, video: Option<string>, busy: bool)

  const SUCCEEDED := "succeeded"
  const EMPTY_PROMPT_ALERT := "请输入视频描述"
  const CREATE_FAILED := "生成请求失败"
  const CREATE_NOT_AN_ERROR := "生成过程中发生错误"
  const POLL_FAILED := "查询失败"
  const POLL_NOT_AN_ERROR := "查询过程中发生错误"

  // ---------------------------------------------------------------------------
  // Specification of the creation request

  /** What the creation reply makes the handler do. */
  datatype Creation =
    | Refused(message: string)   // something was thrown: the task fails with this message
    | Accepted(taskId: string)   // a task identifier arrived: polling starts
    | NoTask                     // a successful reply without a task identifier

  function CreationOf(reply: Exchange<CreateData>): Creation {
    match reply
    case Rejected(e) => Refused(Message(e, CREATE_NOT_AN_ERROR))
    case Answered(ok, d) =>
      if !ok || Truthy(d.error) then Refused(Message(ErrorObject(OrElse(d.error, CREATE_FAILED)), CREATE_NOT_AN_ERROR))
      else if Truthy(d.taskId) then Accepted(d.taskId.value)
      else NoTask
  }

  // ---------------------------------------------------------------------------
  // Specification of the poll loop

  /** What one status reply makes the poll loop do. */
  datatype Verdict =
    | KeepPolling          // wait and poll again
    | Fail(message: string)
    | Succeed(url: string)

  function VerdictOf(reply: Exchange<StatusData>): Verdict {
    match reply
    case Rejected(e) => Fail(Message(e, POLL_NOT_AN_ERROR))
    case Answered(ok, d) =>
      if !ok || Truthy(d.error) then Fail(Message(ErrorObject(OrElse(d.error, POLL_FAILED)), POLL_NOT_AN_ERROR))
      else if d.status == Some(SUCCEEDED) && Truthy(d.videoUrl) then Succeed(d.videoUrl.value)
      else KeepPolling
  }

  /** The reply shape that completes a task: a successful response without an
      error, whose status is "succeeded" and whose video URL is non-empty. */
  predicate IsSuccess(reply: Exchange<StatusData>) {
    reply.Answered? && reply.ok && !Truthy(reply.data.error)
    && reply.data.status == Some(SUCCEEDED) && reply.data.videoUrl.Some? && reply.data.videoUrl.value != ""
  }

  /** Index of the first reply that ends the loop, or |replies| if none does. */
  function FirstTerminal(replies: seq<Exchange<StatusData>>): (k: nat)
    ensures k <= |replies|
    ensures forall j :: 0 <= j < k ==> VerdictOf(replies[j]) == KeepPolling
    ensures k < |replies| ==> VerdictOf(replies[k]) != KeepPolling
  {
    if replies == [] then 0
    else if VerdictOf(replies[0]) != KeepPolling then 0
    else 1 + FirstTerminal(replies[1..])
  }

  /** Whether some reply ends the loop. */
  predicate Settles(replies: seq<Exchange<StatusData>>) {
    FirstTerminal(replies) < |replies|
  }

  /** How many status requests the loop issues while these replies arrive. */
  function PollsIssued(replies: seq<Exchange<StatusData>>): nat {
    if Settles(replies) then FirstTerminal(replies) + 1 else |replies|
  }

  /** The phase a terminal verdict leads to. */
  function TerminalPhase(v: Verdict): Phase {
    if v.Succeed? then Completed else Error
  }

  /** The task after the poll loop has seen these replies. */
  function AfterPolling(t: Task, replies: seq<Exchange<StatusData>>): Task {
    if !Settles(replies) then t
    else match VerdictOf(replies[FirstTerminal(replies)])
      case Fail(m) => t.(status := Error, error := Some(m), busy := false)
      case Succeed(u) => t.(status := Completed, video := Some(u), busy := false)
      case KeepPolling => t
  }

  // ---------------------------------------------------------------------------
  // Specification of a whole generation

  /** The task once generation has been started. */
  function Started(t: Task): Task {
    t.(status := Creating, error := None, busy := true)
  }

  /** The task after a generation with a non-blank prompt. */
  function AfterGenerate(t: Task, creation: Exchange<CreateData>, replies: seq<Exchange<StatusData>>): Task {
    match CreationOf(creation)
    case Refused(m) => Started(t).(status := Error, error := Some(m))
    case NoTask => Started(t)
    case Accepted(_) => AfterPolling(Started(t).(status := Polling), replies)
  }

  /** The status requests a generation issues. */
  function StatusRequests(creation: Exchange<CreateData>, replies: seq<Exchange<StatusData>>): seq<Request> {
    match CreationOf(creation)
    case Accepted(id) => Repeat(Get(StatusUrl(id)), PollsIssued(replies))
    case _ => []
  }

  /** The phases a generation assigns, in order. */
  function PhaseTrace(creation: Exchange<CreateData>, replies: seq<Exchange<StatusData>>): seq<Phase> {
    match CreationOf(creation)
    case Refused(_) => [Creating, Error]
    case NoTask => [Creating]
    case Accepted(_) =>
      [Creating, Polling]
      + (if Settles(replies) then [TerminalPhase(VerdictOf(replies[FirstTerminal(replies)]))] else [])
  }

  /** Whether the "开始生成" button is enabled: a non-empty prompt and no task in progress. */
  predicate CanGenerate(prompt: string, busy: bool) {
    prompt != "" && !busy
  }

  /** `renderVideoStatus`: the placeholder text shown while no video is displayed. */
  function StatusText(status: Phase, error: Option<string>): string {
    match status
    case Creating => "正在创建生成任务..."
    case Polling => "正在生成视频，请耐心等待..."
    case Error => "生成失败: " + (if error.Some? then error.value else "null")
    case _ => "生成的视频将在这里显示..."
  }

  // ---------------------------------------------------------------------------
  // Properties of the specification

  /** A status reply yields a success verdict exactly when it has the success
      shape, and the verdict then carries the reply's video URL. */
  lemma SucceedIffSuccess(reply: Exchange<StatusData>)
    ensures VerdictOf(reply).Succeed? <==> IsSuccess(reply)
    ensures IsSuccess(reply) ==> VerdictOf(reply) == Succeed(reply.data.videoUrl.value)
  {
  }

  /** Replies that arrive after the loop has ended change nothing: neither the
      task nor the number of status requests. */
  lemma {:induction false} LaterRepliesIgnored(t: Task, replies: seq<Exchange<StatusData>>, more: seq<Exchange<StatusData>>)
    requires Settles(replies)
    ensures FirstTerminal(replies + more) == FirstTerminal(replies)
    ensures AfterPolling(t, replies + more) == AfterPolling(t, replies)
    ensures PollsIssued(replies + more) == PollsIssued(replies)
  {
    var k := FirstTerminal(replies);
    var all := replies + more;
    assert all[k] == replies[k];
    assert forall j :: 0 <= j < k ==> all[j] == replies[j];
  }

  /** While no reply ends the loop, every reply is answered with another poll
      and the task stays as it was. */
  lemma UnsettledKeepsPolling(t: Task, replies: seq<Exchange<StatusData>>)
    requires !Settles(replies)
    ensures AfterPolling(t, replies) == t
    ensures PollsIssued(replies) == |replies|
    ensures forall j :: 0 <= j < |replies| ==> !IsSuccess(replies[j]) && VerdictOf(replies[j]) == KeepPolling
  {
  }

  /** A generation completes exactly when a task identifier was issued and a
      status reply of the success shape arrives before any failing one; the
      task then holds that reply's video URL and is no longer busy. */
  lemma CompletesExactly(t: Task, creation: Exchange<CreateData>, replies: seq<Exchange<StatusData>>)
    ensures AfterGenerate(t, creation, replies).status == Completed <==>
      CreationOf(creation).Accepted?
      && exists k :: 0 <= k < |replies| && IsSuccess(replies[k])
                     && forall j :: 0 <= j < k ==> VerdictOf(replies[j]) == KeepPolling
    ensures AfterGenerate(t, creation, replies).status == Completed ==>
      var k := FirstTerminal(replies);
      k < |replies| && IsSuccess(replies[k])
      && AfterGenerate(t, creation, replies).video == replies[k].data.videoUrl
      && !AfterGenerate(t, creation, replies).busy
  {
  }

  /** The message a failing status reply leaves in the task: the reply's
      `error` field when it is non-empty, otherwise "查询失败"; the message of
      the thrown error when the request or the decoding threw. */
  function PollFailureMessage(reply: Exchange<StatusData>): string {
    match reply
    case Rejected(e) => Message(e, POLL_NOT_AN_ERROR)
    case Answered(_, d) => if Truthy(d.error) then d.error.value else POLL_FAILED
  }

  /** A generation ends in the error phase exactly when the creation reply is
      refused, or a task identifier was issued and the first reply that ends
      the loop fails. A poll failure clears the busy flag and carries the
      reply's message; a creation failure keeps the flag set, so the generate
      button stays disabled. */
  lemma FailsExactly(t: Task, creation: Exchange<CreateData>, replies: seq<Exchange<StatusData>>)
    ensures AfterGenerate(t, creation, replies).status == Error <==>
      CreationOf(creation).Refused?
      || (CreationOf(creation).Accepted? && Settles(replies) && VerdictOf(replies[FirstTerminal(replies)]).Fail?)
    ensures CreationOf(creation).Refused? ==>
      AfterGenerate(t, creation, replies) == t.(status := Error, error := Some(CreationOf(creation).message), busy := true)
      && forall prompt :: !CanGenerate(prompt, AfterGenerate(t, creation, replies).busy)
    ensures CreationOf(creation).Accepted? && Settles(replies) && VerdictOf(replies[FirstTerminal(replies)]).Fail? ==>
      AfterGenerate(t, creation, replies)
        == t.(status := Error, error := Some(PollFailureMessage(replies[FirstTerminal(replies)])), busy := false)
  {
  }

  /** The message of a refused creation: the reply's `error` field when it is
      non-empty, otherwise "生成请求失败"; the thrown error's message when the
      request or the decoding threw. A reply that arrived never leaves the
      message empty. */
  lemma CreationFailureMessage(creation: Exchange<CreateData>)
    requires CreationOf(creation).Refused?
    ensures creation.Answered? ==>
      CreationOf(creation).message == (if Truthy(creation.data.error) then creation.data.error.value else CREATE_FAILED)
      && CreationOf(creation).message != ""
    ensures creation.Rejected? ==> CreationOf(creation).message == Message(creation.thrown, CREATE_NOT_AN_ERROR)
  {
  }

  /** A successful creation reply without a task identifier leaves the task
      in the creating phase, busy, and starts no polling. */
  lemma NoTaskStaysCreating(t: Task, creation: Exchange<CreateData>, replies: seq<Exchange<StatusData>>)
    requires creation.Answered? && creation.ok && !Truthy(creation.data.error) && !Truthy(creation.data.taskId)
    ensures AfterGenerate(t, creation, replies) == t.(status := Creating, error := None, busy := true)
    ensures StatusRequests(creation, replies) == []
  {
  }

  /** The phases a generation assigns start at creating, strictly advance, and
      end at the phase the task is left in: a phase never regresses. */
  lemma PhasesAdvance(t: Task, creation: Exchange<CreateData>, replies: seq<Exchange<StatusData>>)
    ensures var trace := PhaseTrace(creation, replies);
      |trace| > 0 && trace[0] == Creating
      && (forall i, j :: 0 <= i < j < |trace| ==> Rank(trace[i]) < Rank(trace[j]))
      && trace[|trace| - 1] == AfterGenerate(t, creation, replies).status
  {
  }

  /** The error text differs from the text of every other phase. */
  lemma ErrorTextDiffers(e: Option<string>, q: Phase, f: Option<string>)
    requires q != Error
    ensures StatusText(Error, e) != StatusText(q, f)
  {
    var x := if e.Some? then e.value else "null";
    assert StatusText(Error, e) == "生成失败: " + x;
    assert StatusText(Error, e)[2] == '失';
  }

  /** A worked run: task "t1" is still running at the first poll and has
      succeeded at the second; the task completes with the video URL after
      exactly two status requests. */
  lemma ExampleTwoPolls(t: Task)
    ensures var creation := Answered(true, CreateData(None, Some("t1")));
      var replies := [
        Answered(true, StatusData(None, Some("running"), None)),
        Answered(true, StatusData(None, Some(SUCCEEDED), Some("https://x/v.mp4")))];
      AfterGenerate(t, creation, replies) == Task(Completed, None, Some("https://x/v.mp4"), false)
      && StatusRequests(creation, replies) == [Get(StatusUrl("t1")), Get(StatusUrl("t1"))]
  {
    var replies := [
      Answered(true, StatusData(None, Some("running"), None)),
      Answered(true, StatusData(None, Some(SUCCEEDED), Some("https://x/v.mp4")))];
    assert Some("running") != Some(SUCCEEDED);
    assert VerdictOf(replies[0]) == KeepPolling;
    assert FirstTerminal(replies) == 1 by {
      assert replies[1..] == [replies[1]];
    }
  }

  /** The status text tells the phases apart, except that idle and completed
      share the placeholder text. */
  lemma StatusTextNamesPhase(p: Phase, e: Option<string>, q: Phase, f: Option<string>)
    ensures StatusText(p, e) == StatusText(q, f) ==> p == q || {p, q} == {Idle, Completed}
  {
    if p == Error && q != Error {
      ErrorTextDiffers(e, q, f);
    } else if q == Error && p != Error {
      ErrorTextDiffers(f, p, e);
    }
  }

  // ---------------------------------------------------------------------------
  // The state and its handlers

  class VideoPanel {
    var videoPrompt: string
    var generatedVideo: Option<string>
    var generatingVideo: bool
    var videoStatus: Phase
    var videoError: Option<string>
    /** Every request the panel has sent, oldest first. */
    var sent: seq<Request>
    /** Every phase assigned to `videoStatus`, oldest first. */
    ghost var statusLog: seq<Phase>

    function Snapshot(): Task
      reads this
    {
      Task(videoStatus, videoError, generatedVideo, generatingVideo)
    }

    constructor ()
      ensures Snapshot() == Task(Idle, None, None, false)
      ensures videoPrompt == "" && sent == [] && statusLog == []
    {
      videoPrompt := "";
      generatedVideo := None;
      generatingVideo := false;
      videoStatus := Idle;
      videoError := None;
      sent := [];
      statusLog := [];
    }

    /** The prompt text area's change handler. */
    method EditPrompt(text: string)
      modifies this`videoPrompt
      ensures videoPrompt == text
    {
      videoPrompt := text;
    }

    /** `handleGenerateVideo`, with the creation reply and the status replies
        the loop it starts would receive. */
    method GenerateVideo(creation: Exchange<CreateData>, replies: seq<Exchange<StatusData>>)
      returns (alert: Option<string>)
      modifies this
      ensures videoPrompt == old(videoPrompt)
      ensures IsBlank(videoPrompt) ==>
        alert == Some(EMPTY_PROMPT_ALERT) && Snapshot() == old(Snapshot())
        && sent == old(sent) && statusLog == old(statusLog)
      ensures !IsBlank(videoPrompt) ==>
        alert == None
        && Snapshot() == AfterGenerate(old(Snapshot()), creation, replies)
        && sent == old(sent) + [Post(GENERATE_VIDEO_PATH, "prompt", videoPrompt)] + StatusRequests(creation, replies)
        && statusLog == old(statusLog) + PhaseTrace(creation, replies)
    {
      if IsBlank(videoPrompt) {
        return Some(EMPTY_PROMPT_ALERT);
      }
      alert := None;
      ghost var t0 := Snapshot();
      ghost var log0 := statusLog;
      ghost var sent0 := sent;
      generatingVideo := true;
      videoStatus := Creating;
      statusLog := statusLog + [Creating];
      videoError := None;
      sent := sent + [Post(GENERATE_VIDEO_PATH, "prompt", videoPrompt)];
      var caught: Option<Thrown> := None;
      match creation {
        case Rejected(e) =>
          caught := Some(e);
        case Answered(ok, data) =>
          if !ok || Truthy(data.error) {
            caught := Some(ErrorObject(OrElse(data.error, CREATE_FAILED)));
          } else if Truthy(data.taskId) {
            videoStatus := Polling;
            statusLog := statusLog + [Polling];
            ghost var polling := Snapshot();
            assert polling == Started(t0).(status := Polling);
            StartPolling(data.taskId.value, replies);
            assert CreationOf(creation) == Accepted(data.taskId.value);
            assert AfterGenerate(t0, creation, replies) == AfterPolling(polling, replies);
          } else {
            assert CreationOf(creation) == NoTask;
          }
      }
      if caught.Some? {
        videoError := Some(Message(caught.value, CREATE_NOT_AN_ERROR));
        videoStatus := Error;
        statusLog := statusLog + [Error];
      }
    }

    /** `startPolling`: one status request per reply until a reply ends the loop. */
    method StartPolling(taskId: string, replies: seq<Exchange<StatusData>>)
      modifies this
      ensures Snapshot() == AfterPolling(old(Snapshot()), replies)
      ensures sent == old(sent) + Repeat(Get(StatusUrl(taskId)), PollsIssued(replies))
      ensures statusLog == old(statusLog)
        + (if Settles(replies) then [TerminalPhase(VerdictOf(replies[FirstTerminal(replies)]))] else [])
      ensures videoPrompt == old(videoPrompt)
    {
      var url := StatusUrl(taskId);
      var polls := 0;
      var caught: Option<Thrown> := None;
      while polls < |replies|
        invariant polls <= |replies|
        invariant forall j :: 0 <= j < polls ==> VerdictOf(replies[j]) == KeepPolling
        invariant sent == old(sent) + Repeat(Get(url), polls)
        invariant Snapshot() == old(Snapshot()) && statusLog == old(statusLog)
        invariant videoPrompt == old(videoPrompt) && caught == None
      {
        var reply := replies[polls];
        sent := sent + [Get(url)];
        polls := polls + 1;
        if reply.Rejected? {
          caught := Some(reply.thrown);
          break;
        }
        var data := reply.data;
        if !reply.ok || Truthy(data.error) {
          caught := Some(ErrorObject(OrElse(data.error, POLL_FAILED)));
          break;
        }
        if data.status == Some(SUCCEEDED) && Truthy(data.videoUrl) {
          generatedVideo := data.videoUrl;
          videoStatus := Completed;
          statusLog := statusLog + [Completed];
          generatingVideo := false;
          break;
        }
      }
      if caught.Some? {
        videoError := Some(Message(caught.value, POLL_NOT_AN_ERROR));
        videoStatus := Error;
        statusLog := statusLog + [Error];
        generatingVideo := false;
      }
    }

    /** `renderVideoStatus` on the current state. */
    function RenderVideoStatus(): string
      reads this
    {
      StatusText(videoStatus, videoError)
    }
  }
}
