/**
 * One tool call of the terminal's loop with its guards: which commands and computer actions are carried out, which are
 * put to the user first, and what an answer is good for later. What the guards read is an input of the call; the trust
 * the user has given is state. `acts` records, in order, what was asked and what was done.
 */
module TuiTools {
  import opened Wrappers
  import opened Messages

  const COMMAND := "execute_command"

  const COMPUTER := "computer"

  /** `y`, `a`, `n`, no answer in time, or anything else. */
  datatype Answer = Approve | Always | Reject | Silence | Unclear

  /** How a command or an action ends once it is carried out; commands take no pictures. */
  datatype Ending = Done(text: string, image: Option<Image>) | Failed(text: string)

  /**
   * Facts about one call. `name` is the first word of its command, `dangerous` says that the command matches a pattern
   * of the allowlist, `elsewhere` that the name was approved by another loop. `enabled` is the computer-use switch as
   * read for this call, `invalid` the text for malformed arguments, and `revoked` that trust was withdrawn before it.
   */
  datatype Facts = Facts(name: string, dangerous: bool, elsewhere: bool, enabled: bool, supported: bool,
                         invalid: Option<string>, readOnly: bool, revoked: bool, answer: Answer, ending: Ending)

  datatype Guards = Guards(skipPermissions: bool, requireConfirmation: bool)

  /** Whether computer actions are trusted for the session, and the command names the user approved for good. */
  datatype Trust = Trust(computer: bool, commands: set<string>)

  datatype Act =
    | Revoked
    | AskedCommand(name: string, answer: Answer)
    | AskedComputer(answer: Answer)
    | Commanded(name: string, dangerous: bool, elsewhere: bool)
    | Performed(readOnly: bool, enabled: bool, supported: bool, valid: bool)

  /** What a call leaves in the history; only the output of what was carried out is counted in tokens. */
  datatype Outcome = Outcome(text: string, counted: bool, image: Option<Image>)

  datatype Step = Step(outcome: Outcome, acts: seq<Act>, trust: Trust)

  function NotDone(text: string): Outcome {
    Outcome(text, false, None)
  }

  // ---- One call ----

  predicate AsksForCommand(g: Guards, t: Trust, f: Facts) {
    !g.skipPermissions && f.dangerous && f.name !in t.commands && !f.elsewhere
  }

  /** Only `n` and silence stop a command; any other answer runs it. */
  function CommandStep(g: Guards, t: Trust, f: Facts): Step {
    var asks := AsksForCommand(g, t, f);
    var asked := if asks then [AskedCommand(f.name, f.answer)] else [];
    if asks && (f.answer.Reject? || f.answer.Silence?) then Step(NotDone("execution rejected by user"), asked, t)
    else
      Step(if f.ending.Done? then Outcome(f.ending.text, true, None) else NotDone("error: " + f.ending.text),
           asked + [Commanded(f.name, f.dangerous, f.elsewhere)],
           if asks && f.answer.Always? then t.(commands := t.commands + {f.name}) else t)
  }

  function Reason(f: Facts): string {
    if !f.supported then "computer use is not supported on this platform"
    else if !f.enabled then "computer use is disabled; use /computer on"
    else "computer use is only available during the tool-calling phase"
  }

  predicate AsksForAction(g: Guards, t: Trust, f: Facts) {
    !f.readOnly && g.requireConfirmation && !t.computer
  }

  /** Only `y` and `a` let an action through; `offered` says whether the round's request offered tools. */
  function ComputerStep(g: Guards, offered: bool, t: Trust, f: Facts): Step {
    if !f.enabled || !offered || !f.supported then Step(NotDone("error: " + Reason(f)), [], t)
    else if f.invalid.Some? then Step(NotDone(f.invalid.value), [], t)
    else
      var asks := AsksForAction(g, t, f);
      var asked := if asks then [AskedComputer(f.answer)] else [];
      if asks && !f.answer.Always? && !f.answer.Approve? then Step(NotDone("execution rejected by user"), asked, t)
      else
        Step(if f.ending.Done? then Outcome(f.ending.text, true, f.ending.image) else NotDone(f.ending.text),
             asked + [Performed(f.readOnly, f.enabled, f.supported, f.invalid.None?)],
             if asks && f.answer.Always? then t.(computer := true) else t)
  }

  function ToolStep(g: Guards, offered: bool, t: Trust, name: string, f: Facts): Step {
    var t' := if f.revoked then t.(computer := false) else t;
    var s := if name == COMMAND then CommandStep(g, t', f)
             else if name == COMPUTER then ComputerStep(g, offered, t', f)
             else Step(NotDone("error: unknown tool `" + name + "`"), [], t');
    s.(acts := (if f.revoked then [Revoked] else []) + s.acts)
  }

  /** All calls of one reply, as far as the script of facts goes. */
  datatype Steps = Steps(outcomes: seq<Outcome>, acts: seq<Act>, trust: Trust)

  function ToolSteps(g: Guards, offered: bool, t: Trust, calls: seq<ToolCall>, facts: seq<Facts>): (r: Steps)
    ensures |r.outcomes| == if |facts| < |calls| then |facts| else |calls|
    decreases |calls|
  {
    if calls == [] || facts == [] then Steps([], [], t)
    else
      var s := ToolStep(g, offered, t, calls[0].name, facts[0]);
      var rest := ToolSteps(g, offered, s.trust, calls[1..], facts[1..]);
      Steps([s.outcome] + rest.outcomes, s.acts + rest.acts, rest.trust)
  }

  /** What the user has allowed so far, shared by the calls of all rounds. */
  class Consent {
    var computer: bool
    var commands: set<string>

    constructor (t: Trust)
      ensures State() == t
    {
      computer, commands := t.computer, t.commands;
    }

    ghost function State(): Trust
      reads this
    {
      Trust(computer, commands)
    }

    method Command(g: Guards, f: Facts) returns (outcome: Outcome, acts: seq<Act>)
      modifies this
      ensures Step(outcome, acts, State()) == CommandStep(g, old(State()), f)
    {
      acts := [];
      if !g.skipPermissions && f.dangerous && f.name !in commands && !f.elsewhere {
        acts := acts + [AskedCommand(f.name, f.answer)];
        match f.answer {
          case Always => commands := commands + {f.name};
          case Reject => return NotDone("execution rejected by user"), acts;
          case Silence => return NotDone("execution rejected by user"), acts;
          case _ =>
        }
      }
      acts := acts + [Commanded(f.name, f.dangerous, f.elsewhere)];
      match f.ending {
        case Done(text, _) => outcome := Outcome(text, true, None);
        case Failed(text) => outcome := NotDone("error: " + text);
      }
    }

    method Computer(g: Guards, offered: bool, f: Facts) returns (outcome: Outcome, acts: seq<Act>)
      modifies this
      ensures Step(outcome, acts, State()) == ComputerStep(g, offered, old(State()), f)
    {
      acts := [];
      if !f.enabled || !offered || !f.supported {
        return NotDone("error: " + Reason(f)), acts;
      }
      if f.invalid.Some? {
        return NotDone(f.invalid.value), acts;
      }
      if !f.readOnly && g.requireConfirmation && !computer {
        acts := acts + [AskedComputer(f.answer)];
        match f.answer {
          case Always => computer := true;
          case Approve =>
          case _ => return NotDone("execution rejected by user"), acts;
        }
      }
      acts := acts + [Performed(f.readOnly, f.enabled, f.supported, true)];
      match f.ending {
        case Done(text, image) => outcome := Outcome(text, true, image);
        case Failed(text) => outcome := NotDone(text);
      }
    }

    method RunTool(g: Guards, offered: bool, name: string, f: Facts) returns (outcome: Outcome, acts: seq<Act>)
      modifies this
      ensures Step(outcome, acts, State()) == ToolStep(g, offered, old(State()), name, f)
    {
      hide CommandStep, ComputerStep;
      if f.revoked {
        computer := false;
      }
      if name == COMMAND {
        outcome, acts := Command(g, f);
      } else if name == COMPUTER {
        outcome, acts := Computer(g, offered, f);
      } else {
        outcome, acts := NotDone("error: unknown tool `" + name + "`"), [];
      }
      acts := (if f.revoked then [Revoked] else []) + acts;
    }
  }

  // ---- What is never done without leave ----

  /** The trust that a history of acts amounts to: the last word on computer use, and every name approved for good. */
  function TrustAfter(t: Trust, acts: seq<Act>): Trust
    decreases |acts|
  {
    if acts == [] then t
    else
      var before := TrustAfter(t, acts[..|acts| - 1]);
      match acts[|acts| - 1]
      case Revoked => before.(computer := false)
      case AskedComputer(answer) => if answer.Always? then before.(computer := true) else before
      case AskedCommand(name, answer) =>
        if answer.Always? then before.(commands := before.commands + {name}) else before
      case _ => before
  }

  /**
   * An act that something else may be needed for first. An action that is not read-only needs trust, or leave for
   * itself, where confirmation is required; so does a dangerous command; and nobody is asked without need.
   */
  predicate Allowed(g: Guards, t: Trust, acts: seq<Act>, k: nat)
    requires k < |acts|
  {
    var before := TrustAfter(t, acts[..k]);
    match acts[k]
    case Performed(readOnly, enabled, supported, valid) =>
      && enabled && supported && valid
      && (readOnly || !g.requireConfirmation || before.computer || (k > 0 && acts[k - 1] == AskedComputer(Approve)))
    case Commanded(name, dangerous, elsewhere) =>
      || !dangerous || elsewhere || g.skipPermissions || name in before.commands
      || (k > 0 && (acts[k - 1] == AskedCommand(name, Approve) || acts[k - 1] == AskedCommand(name, Unclear)))
    case AskedComputer(_) => g.requireConfirmation && !before.computer
    case AskedCommand(name, _) => !g.skipPermissions && name !in before.commands
    case Revoked => true
  }

  predicate AllAllowed(g: Guards, t: Trust, acts: seq<Act>) {
    forall k :: 0 <= k < |acts| ==> Allowed(g, t, acts, k)
  }

  lemma {:induction false} TrustAfterConcat(t: Trust, a: seq<Act>, b: seq<Act>)
    ensures TrustAfter(t, a + b) == TrustAfter(TrustAfter(t, a), b)
    decreases |b|
  {
    if b == [] {
      assert a + b == a;
    } else {
      var n := |b| - 1;
      assert (a + b)[..|a + b| - 1] == a + b[..n];
      TrustAfterConcat(t, a, b[..n]);
    }
  }

  lemma {:induction false} AllAllowedConcat(g: Guards, t: Trust, a: seq<Act>, b: seq<Act>)
    requires AllAllowed(g, t, a) && AllAllowed(g, TrustAfter(t, a), b)
    ensures AllAllowed(g, t, a + b)
  {
    hide TrustAfter;
    forall k | 0 <= k < |a + b| ensures Allowed(g, t, a + b, k) {
      if k < |a| {
        assert (a + b)[..k] == a[..k];
        assert Allowed(g, t, a, k);
      } else {
        var j := k - |a|;
        assert (a + b)[..k] == a + b[..j];
        TrustAfterConcat(t, a, b[..j]);
        assert Allowed(g, TrustAfter(t, a), b, j);
        assert j > 0 ==> (a + b)[k - 1] == b[j - 1];
      }
    }
  }

  lemma NoActs(g: Guards, t: Trust)
    ensures TrustAfter(t, []) == t && AllAllowed(g, t, [])
  {
  }

  /** One act, and one act behind a question. */
  lemma OneAct(g: Guards, t: Trust, a: Act)
    ensures TrustAfter(t, [a]) == match a
                                  case Revoked => t.(computer := false)
                                  case AskedComputer(answer) => if answer.Always? then t.(computer := true) else t
                                  case AskedCommand(name, answer) =>
                                    if answer.Always? then t.(commands := t.commands + {name}) else t
                                  case _ => t
    ensures AllAllowed(g, t, [a]) <==> Allowed(g, t, [a], 0)
    ensures [a][..0] == [] && TrustAfter(t, []) == t
  {
    assert [a][..0] == [];
  }

  lemma QuestionAndAct(g: Guards, t: Trust, q: Act, a: Act)
    requires Allowed(g, t, [q], 0) && Allowed(g, t, [q, a], 1)
    ensures AllAllowed(g, t, [q, a]) && TrustAfter(t, [q, a]) == TrustAfter(TrustAfter(t, [q]), [a])
  {
    hide TrustAfter;
    assert [q, a] == [q] + [a] && [q, a][..0] == [q][..0];
    TrustAfterConcat(t, [q], [a]);
  }

  lemma CommandIsAllowed(g: Guards, t: Trust, f: Facts)
    ensures var s := CommandStep(g, t, f); AllAllowed(g, t, s.acts) && s.trust == TrustAfter(t, s.acts)
  {
    hide TrustAfter;
    var act := Commanded(f.name, f.dangerous, f.elsewhere);
    OneAct(g, t, act);
    if AsksForCommand(g, t, f) {
      var q := AskedCommand(f.name, f.answer);
      OneAct(g, t, q);
      OneAct(g, TrustAfter(t, [q]), act);
      assert [q] + [act] == [q, act] && [q, act][..1] == [q];
      if !f.answer.Reject? && !f.answer.Silence? {
        QuestionAndAct(g, t, q, act);
      }
    } else {
      assert [] + [act] == [act];
    }
  }

  lemma ActionIsAllowed(g: Guards, offered: bool, t: Trust, f: Facts)
    ensures var s := ComputerStep(g, offered, t, f); AllAllowed(g, t, s.acts) && s.trust == TrustAfter(t, s.acts)
    ensures !offered ==> ComputerStep(g, offered, t, f).acts == []
  {
    hide TrustAfter;
    var act := Performed(f.readOnly, f.enabled, f.supported, f.invalid.None?);
    NoActs(g, t);
    OneAct(g, t, act);
    if AsksForAction(g, t, f) {
      var q := AskedComputer(f.answer);
      OneAct(g, t, q);
      OneAct(g, TrustAfter(t, [q]), act);
      assert [q] + [act] == [q, act] && [q, act][..1] == [q];
      if f.enabled && offered && f.supported && f.invalid.None? && (f.answer.Always? || f.answer.Approve?) {
        QuestionAndAct(g, t, q, act);
      }
    } else {
      assert [] + [act] == [act];
    }
  }

  predicate NoAction(acts: seq<Act>) {
    forall a :: a in acts ==> !a.Performed?
  }

  lemma ToolIsAllowed(g: Guards, offered: bool, t: Trust, name: string, f: Facts)
    ensures var s := ToolStep(g, offered, t, name, f); AllAllowed(g, t, s.acts) && s.trust == TrustAfter(t, s.acts)
    ensures !offered ==> NoAction(ToolStep(g, offered, t, name, f).acts)
  {
    hide CommandStep, ComputerStep, TrustAfter, AllAllowed;
    var t' := if f.revoked then t.(computer := false) else t;
    var pre: seq<Act> := if f.revoked then [Revoked] else [];
    OneAct(g, t, Revoked);
    NoActs(g, t);
    NoActs(g, t');
    CommandIsAllowed(g, t', f);
    ActionIsAllowed(g, offered, t', f);
    CommandsOnly(g, t', f);
    var s := if name == COMMAND then CommandStep(g, t', f)
             else if name == COMPUTER then ComputerStep(g, offered, t', f)
             else Step(NotDone("error: unknown tool `" + name + "`"), [], t');
    assert TrustAfter(t, pre) == t';
    RevokedIsAllowed(g, t);
    AllAllowedConcat(g, t, pre, s.acts);
    TrustAfterConcat(t, pre, s.acts);
  }

  lemma RevokedIsAllowed(g: Guards, t: Trust)
    ensures AllAllowed(g, t, [Revoked])
  {
  }

  lemma CommandsOnly(g: Guards, t: Trust, f: Facts)
    ensures NoAction(CommandStep(g, t, f).acts)
  {
  }

  /** The calls of one reply: nothing is done without leave, and no action at all if no tools were offered. */
  lemma {:induction false} ToolsAreAllowed(g: Guards, offered: bool, t: Trust, calls: seq<ToolCall>, facts: seq<Facts>)
    ensures var s := ToolSteps(g, offered, t, calls, facts);
            AllAllowed(g, t, s.acts) && s.trust == TrustAfter(t, s.acts)
    ensures !offered ==> NoAction(ToolSteps(g, offered, t, calls, facts).acts)
    decreases |calls|
  {
    hide ToolStep, TrustAfter, AllAllowed;
    NoActs(g, t);
    if calls != [] && facts != [] {
      var s := ToolStep(g, offered, t, calls[0].name, facts[0]);
      var rest := ToolSteps(g, offered, s.trust, calls[1..], facts[1..]);
      ToolIsAllowed(g, offered, t, calls[0].name, facts[0]);
      ToolsAreAllowed(g, offered, s.trust, calls[1..], facts[1..]);
      AllAllowedConcat(g, t, s.acts, rest.acts);
      TrustAfterConcat(t, s.acts, rest.acts);
    }
  }

  // ---- Commands that run without a yes ----

  /** A dangerous command whose name nobody approved for good runs, and the user has not just said yes to it. */
  predicate WithoutYes(g: Guards, t: Trust, acts: seq<Act>, k: nat)
    requires k < |acts|
  {
    match acts[k]
    case Commanded(name, dangerous, elsewhere) =>
      && !g.skipPermissions && dangerous && !elsewhere && name !in TrustAfter(t, acts[..k]).commands
      && !(k > 0 && acts[k - 1] == AskedCommand(name, Approve))
    case _ => false
  }

  /** A question about a command whose answer is neither yes nor no. */
  predicate Unclearly(acts: seq<Act>, k: nat)
    requires k < |acts|
  {
    acts[k].AskedCommand? && acts[k].answer.Unclear?
  }

  /** Each such question is followed by its command. */
  predicate Followed(acts: seq<Act>) {
    forall k :: 0 <= k < |acts| && Unclearly(acts, k) ==>
      k + 1 < |acts| && acts[k + 1] == Commanded(acts[k].name, true, false)
  }

  /** An answer that is neither yes nor no runs the command it was asked for, and stops the action it was asked for. */
  lemma UnclearAnswer(g: Guards, t: Trust, f: Facts)
    requires f.answer.Unclear?
    ensures AsksForCommand(g, t, f) ==>
              CommandStep(g, t, f).acts == [AskedCommand(f.name, Unclear), Commanded(f.name, true, false)]
    ensures AsksForAction(g, t, f) ==> NoAction(ComputerStep(g, true, t, f).acts)
  {
  }

  lemma FollowedConcat(a: seq<Act>, b: seq<Act>)
    requires Followed(a) && Followed(b)
    ensures Followed(a + b)
  {
    var ab := a + b;
    forall k | 0 <= k < |ab| && Unclearly(ab, k) ensures k + 1 < |ab| && ab[k + 1] == Commanded(ab[k].name, true, false) {
      if k < |a| {
        assert Unclearly(a, k);
      } else {
        assert Unclearly(b, k - |a|);
      }
    }
  }

  lemma CommandIsFollowed(g: Guards, t: Trust, f: Facts)
    ensures Followed(CommandStep(g, t, f).acts)
  {
    if f.answer.Unclear? {
      UnclearAnswer(g, t, f);
    }
  }

  lemma ActionIsFollowed(g: Guards, offered: bool, t: Trust, f: Facts)
    ensures Followed(ComputerStep(g, offered, t, f).acts)
  {
  }

  lemma ToolIsFollowed(g: Guards, offered: bool, t: Trust, name: string, f: Facts)
    ensures Followed(ToolStep(g, offered, t, name, f).acts)
  {
    hide CommandStep, ComputerStep;
    var t' := if f.revoked then t.(computer := false) else t;
    CommandIsFollowed(g, t', f);
    ActionIsFollowed(g, offered, t', f);
    FollowedConcat(if f.revoked then [Revoked] else [],
                   if name == COMMAND then CommandStep(g, t', f).acts
                   else if name == COMPUTER then ComputerStep(g, offered, t', f).acts
                   else []);
  }

  lemma {:induction false} ToolsAreFollowed(g: Guards, offered: bool, t: Trust, calls: seq<ToolCall>, facts: seq<Facts>)
    ensures Followed(ToolSteps(g, offered, t, calls, facts).acts)
    decreases |calls|
  {
    hide ToolStep;
    if calls != [] && facts != [] {
      var s := ToolStep(g, offered, t, calls[0].name, facts[0]);
      ToolIsFollowed(g, offered, t, calls[0].name, facts[0]);
      ToolsAreFollowed(g, offered, s.trust, calls[1..], facts[1..]);
      FollowedConcat(s.acts, ToolSteps(g, offered, s.trust, calls[1..], facts[1..]).acts);
    }
  }

  /** In every history of acts: a command runs without a yes if and only if some answer was neither yes nor no. */
  lemma WithoutYesIff(g: Guards, t: Trust, acts: seq<Act>)
    requires AllAllowed(g, t, acts) && Followed(acts)
    ensures (exists k :: 0 <= k < |acts| && WithoutYes(g, t, acts, k))
            <==> (exists k :: 0 <= k < |acts| && Unclearly(acts, k))
  {
    hide TrustAfter;
    if k :| 0 <= k < |acts| && WithoutYes(g, t, acts, k) {
      assert Allowed(g, t, acts, k);
      assert Unclearly(acts, k - 1);
    }
    if k :| 0 <= k < |acts| && Unclearly(acts, k) {
      assert Allowed(g, t, acts, k);
      UnclearLeavesTrust(t, acts, k);
      assert WithoutYes(g, t, acts, k + 1);
    }
  }

  lemma UnclearLeavesTrust(t: Trust, acts: seq<Act>, k: nat)
    requires k < |acts| && Unclearly(acts, k)
    ensures TrustAfter(t, acts[..k + 1]) == TrustAfter(t, acts[..k])
  {
    assert acts[..k + 1][..k] == acts[..k];
  }
}
