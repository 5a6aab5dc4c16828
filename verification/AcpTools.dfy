/**
 * One tool call of a `session/prompt` turn with its permission policy: when the client is asked, what it has to answer for
 * the command to run, and what is cancelled. `acts` records, in order, what was asked and what was run.
 */
module AcpTools {
  import opened Wrappers
  import opened Messages

  const ALLOW_ONCE := "allow_once"

  /** The client selects an option, if it names one, or answers anything else: a dismissal, an error, nothing. */
  datatype Choice = Selected(option: Option<string>) | Dismissed

  /** The reply to a permission request, or the turn was cancelled while waiting for it. */
  datatype Answer = Heard(choice: Choice) | GivenUp

  datatype RunEnd = Output(text: string) | Broke(error: string) | Killed

  /** `dangerous`: the command matches a pattern of the allowlist; `approved`: its name was approved in this process. */
  datatype Facts = Facts(dangerous: bool, approved: bool, answer: Answer, run: RunEnd)

  /** How one tool call ends: refused by the user, cancelled while asking or while running, or run. */
  datatype Outcome =
    | Rejected
    | PermissionCancelled
    | RunCancelled
    | Completed(output: string)
    | ToolFailed(error: string)

  datatype Act = Asked(answer: Answer) | Ran(dangerous: bool, approved: bool)

  datatype Step = Step(outcome: Outcome, acts: seq<Act>)

  predicate Cancels(o: Outcome) {
    o.PermissionCancelled? || o.RunCancelled?
  }

  predicate Allows(a: Answer) {
    a == Heard(Selected(Some(ALLOW_ONCE)))
  }

  predicate Asks(skipPermissions: bool, f: Facts) {
    !skipPermissions && f.dangerous && !f.approved
  }

  function RunOutcome(end: RunEnd): Outcome {
    match end
    case Output(text) => Completed(text)
    case Broke(error) => ToolFailed(error)
    case Killed => RunCancelled
  }

  function CallStep(skipPermissions: bool, f: Facts): Step {
    if !Asks(skipPermissions, f) then Step(RunOutcome(f.run), [Ran(f.dangerous, f.approved)])
    else if Allows(f.answer) then Step(RunOutcome(f.run), [Asked(f.answer), Ran(f.dangerous, f.approved)])
    else Step(if f.answer.GivenUp? then PermissionCancelled else Rejected, [Asked(f.answer)])
  }

  function Outcomes(skipPermissions: bool, facts: seq<Facts>): (r: seq<Outcome>)
    ensures |r| == |facts| && forall k :: 0 <= k < |r| ==> r[k] == CallStep(skipPermissions, facts[k]).outcome
  {
    seq(|facts|, k requires 0 <= k < |facts| => CallStep(skipPermissions, facts[k]).outcome)
  }

  /** All calls of one reply, up to a cancellation and as far as the script of facts goes. */
  function CallActs(skipPermissions: bool, calls: seq<ToolCall>, facts: seq<Facts>): seq<Act>
    decreases |calls|
  {
    if calls == [] || facts == [] then []
    else
      var s := CallStep(skipPermissions, facts[0]);
      s.acts + if Cancels(s.outcome) then [] else CallActs(skipPermissions, calls[1..], facts[1..])
  }

  /** What the answer of the client comes to. */
  method RequestPermission(answer: Answer) returns (allowed: bool, cancelled: bool)
    ensures allowed <==> Allows(answer)
    ensures cancelled <==> answer.GivenUp?
  {
    match answer {
      case GivenUp => return false, true;
      case Heard(Selected(option)) => return option == Some(ALLOW_ONCE), false;
      case Heard(Dismissed) => return false, false;
    }
  }

  method RunTool(skipPermissions: bool, f: Facts) returns (outcome: Outcome, acts: seq<Act>)
    ensures Step(outcome, acts) == CallStep(skipPermissions, f)
  {
    acts := [];
    if !skipPermissions && f.dangerous && !f.approved {
      acts := acts + [Asked(f.answer)];
      var allowed, cancelled := RequestPermission(f.answer);
      if cancelled {
        return PermissionCancelled, acts;
      }
      if !allowed {
        return Rejected, acts;
      }
    }
    acts := acts + [Ran(f.dangerous, f.approved)];
    match f.run {
      case Output(text) => outcome := Completed(text);
      case Broke(error) => outcome := ToolFailed(error);
      case Killed => outcome := RunCancelled;
    }
  }

  // ---- What is never run without leave ----

  /** A dangerous command runs only behind the question about it, and a question is followed by it only on leave. */
  predicate LeaveAt(skipPermissions: bool, acts: seq<Act>, k: nat)
    requires k < |acts|
  {
    match acts[k]
    case Ran(dangerous, approved) =>
      dangerous && !approved && !skipPermissions ==> k > 0 && acts[k - 1].Asked? && Allows(acts[k - 1].answer)
    case Asked(answer) =>
      !skipPermissions && (Allows(answer) <==> k + 1 < |acts| && acts[k + 1] == Ran(true, false))
  }

  predicate OnlyWithLeave(skipPermissions: bool, acts: seq<Act>) {
    forall k :: 0 <= k < |acts| ==> LeaveAt(skipPermissions, acts, k)
  }

  lemma LeaveConcat(skipPermissions: bool, a: seq<Act>, b: seq<Act>)
    requires OnlyWithLeave(skipPermissions, a) && OnlyWithLeave(skipPermissions, b)
    ensures OnlyWithLeave(skipPermissions, a + b)
  {
    hide Allows;
    forall k | 0 <= k < |a + b| ensures LeaveAt(skipPermissions, a + b, k) {
      if k < |a| {
        assert LeaveAt(skipPermissions, a, k);
        assert b != [] ==> LeaveAt(skipPermissions, b, 0);
      } else {
        assert LeaveAt(skipPermissions, b, k - |a|);
      }
    }
  }

  lemma CallHasLeave(skipPermissions: bool, f: Facts)
    ensures OnlyWithLeave(skipPermissions, CallStep(skipPermissions, f).acts)
  {
  }

  /** Over the calls of a reply: a command that needs leave runs if and only if the client allowed it, right before. */
  lemma {:induction false} CallsHaveLeave(skipPermissions: bool, calls: seq<ToolCall>, facts: seq<Facts>)
    ensures OnlyWithLeave(skipPermissions, CallActs(skipPermissions, calls, facts))
    decreases |calls|
  {
    hide CallStep, LeaveAt;
    if calls != [] && facts != [] {
      CallHasLeave(skipPermissions, facts[0]);
      CallsHaveLeave(skipPermissions, calls[1..], facts[1..]);
      var s := CallStep(skipPermissions, facts[0]);
      LeaveConcat(skipPermissions, s.acts, CallActs(skipPermissions, calls[1..], facts[1..]));
      assert s.acts + [] == s.acts;
    }
  }
}
