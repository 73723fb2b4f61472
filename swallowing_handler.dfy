/** The handler of the module-packaged lambda: a batched actuator with no
    empty-list guard, a reporter that posts to Teams (when enabled) before it
    emails, senders that re-raise their failures wrapped in a new exception,
    and a handler that validates the action and then reports any failure of
    its `try` block with the error flag instead of re-raising it. */
module SwallowingHandler {
  import opened Effects
  import opened PyText
  import opened Settings

  /** The text of the exception re-raised for a failed SNS publish. */
  function EmailFailureText(e: Error): string
  {
    "[ERROR]: Failed to send SNS notification: " + e.text
  }

  /** The text of the exception re-raised for a failed webhook request. */
  function TeamsFailureText(e: Error): string
  {
    "[ERROR]: Failed to send message to Teams: " + e.text
  }

  /** The text of the exception re-raised for a failed start or stop call;
      both functions say "start". */
  function BatchFailureText(ids: seq<string>, e: Error): string
  {
    "[ERROR]: Failed to start instance " + ListRepr(ids) + ": " + e.text
  }

  /** The call of `send_email_notification` at log position `n`: one
      publish, whose failure is re-raised as a new plain exception. */
  function EmailRun(cfg: Config, subject: string, message: string, faults: Faults, n: nat): Run<()>
  {
    var outcome := match faults(n)
      case None => Ok(())
      case Some(e) => Err(Error(OtherError, EmailFailureText(e)));
    Run([Publish(cfg.snsTopicArn, subject, message)], outcome)
  }

  /** The calls of `send_ms_teams_notification` at log position `n`: none
      when reporting is disabled; otherwise one POST, whose request failure is
      re-raised as a new plain exception while any other exception
      propagates as it is. */
  function TeamsRun(cfg: Config, message: string, faults: Faults, n: nat): Run<()>
  {
    if !cfg.teamsEnabled then Run([], Ok(()))
    else
      var outcome := match faults(n)
        case None => Ok(())
        case Some(e) =>
          if e.kind == RequestsError then Err(Error(OtherError, TeamsFailureText(e))) else Err(e);
      Run([PostJson(cfg.teamsWebhookUrl, message)], outcome)
  }

  /** `send_email_notification`. */
  method SendEmailNotification(cloud: Cloud, cfg: Config, subject: string, message: string) returns (r: Result<()>)
    modifies cloud
    ensures var run := EmailRun(cfg, subject, message, cloud.faults, |old(cloud.log)|);
            cloud.log == old(cloud.log) + run.calls && r == run.result
  {
    r := cloud.Invoke(Publish(cfg.snsTopicArn, subject, message));
    if r.Err? {
      r := Err(Error(OtherError, EmailFailureText(r.error)));
    }
  }

  /** `send_ms_teams_notification`. */
  method SendTeamsNotification(cloud: Cloud, cfg: Config, message: string) returns (r: Result<()>)
    modifies cloud
    ensures var run := TeamsRun(cfg, message, cloud.faults, |old(cloud.log)|);
            cloud.log == old(cloud.log) + run.calls && r == run.result
  {
    if !cfg.teamsEnabled {
      return Ok(());
    }
    r := cloud.Invoke(PostJson(cfg.teamsWebhookUrl, message));
    if r.Err? && r.error.kind == RequestsError {
      r := Err(Error(OtherError, TeamsFailureText(r.error)));
    }
  }

  /** The calls of `log_and_report_process_results` from log position `n`:
      Teams first, then email, the email skipped when the Teams sender
      raised. */
  function ReportRun(cfg: Config, error: bool, message: string, faults: Faults, n: nat): Run<()>
  {
    var text := ReportText(cfg, error, message);
    var teams := TeamsRun(cfg, text, faults, n);
    if teams.result.Err? then teams
    else
      var email := EmailRun(cfg, Subject(cfg, error), text, faults, n + |teams.calls|);
      Run(teams.calls + email.calls, email.result)
  }

  /** `log_and_report_process_results`. */
  method LogAndReportProcessResults(cloud: Cloud, cfg: Config, error: bool, message: string) returns (r: Result<()>)
    modifies cloud
    ensures var run := ReportRun(cfg, error, message, cloud.faults, |old(cloud.log)|);
            cloud.log == old(cloud.log) + run.calls && r == run.result
  {
    var text := ReportText(cfg, error, message);
    r := SendTeamsNotification(cloud, cfg, text);
    if r.Err? {
      return;
    }
    r := SendEmailNotification(cloud, cfg, Subject(cfg, error), text);
  }

  /** The reporter posts the wrapped text to Teams first when enabled (and
      posts nothing, sending just the email, when disabled), and emails it with the subject the flag picks exactly when Teams reporting
      is disabled or the post went out; it returns normally exactly when
      none of its calls raised. */
  lemma ReportOrder(cfg: Config, error: bool, message: string, faults: Faults, n: nat)
    ensures var run := ReportRun(cfg, error, message, faults, n);
            var text := ReportText(cfg, error, message);
            var email := Publish(cfg.snsTopicArn, Subject(cfg, error), text);
            (cfg.teamsEnabled ==> |run.calls| >= 1 && run.calls[0] == PostJson(cfg.teamsWebhookUrl, text)) &&
            (!cfg.teamsEnabled ==> run.calls == [email]) &&
            (email in run.calls <==> !cfg.teamsEnabled || faults(n).None?) &&
            (email in run.calls ==> run.calls[|run.calls| - 1] == email) &&
            |run.calls| <= 2 &&
            (run.result.Ok? <==> NoFaultIn(faults, n, n + |run.calls|))
  {
    var text := ReportText(cfg, error, message);
    var teams := TeamsRun(cfg, text, faults, n);
    if cfg.teamsEnabled && faults(n).None? {
      assert n + |teams.calls| == n + 1;
    }
  }

  /** The reporter returns normally exactly when none of its calls raised. */
  lemma ReportOkIff(cfg: Config, error: bool, message: string, faults: Faults, n: nat)
    ensures var run := ReportRun(cfg, error, message, faults, n);
            run.result.Ok? <==> NoFaultIn(faults, n, n + |run.calls|)
  {
    ReportOrder(cfg, error, message, faults, n);
  }

  /** The reporter only posts to Teams and publishes emails. */
  lemma ReportCallKinds(cfg: Config, error: bool, message: string, faults: Faults, n: nat)
    ensures var run := ReportRun(cfg, error, message, faults, n);
            forall k :: 0 <= k < |run.calls| ==> run.calls[k].PostJson? || run.calls[k].Publish?
  {
  }

  /** A failed webhook request reaches the caller as a plain exception whose
      text names Teams and carries the request error; any other exception
      from the post propagates unchanged. */
  lemma TeamsFailure(cfg: Config, message: string, faults: Faults, n: nat, e: Error)
    requires cfg.teamsEnabled && faults(n) == Some(e)
    ensures var run := TeamsRun(cfg, message, faults, n);
            run.result.Err? &&
            (e.kind == RequestsError ==>
               run.result.error.kind == OtherError &&
               run.result.error.text == "[ERROR]: Failed to send message to Teams: " + e.text) &&
            (e.kind != RequestsError ==> run.result.error == e)
  {
  }

  /** The calls of `start_ec2_instance` (`a == Start`) and
      `stop_ec2_instance` (`a == Stop`) at log position `n`. */
  function BatchRun(a: Action, ids: seq<string>, faults: Faults, n: nat): Run<()>
  {
    var outcome := match faults(n)
      case None => Ok(())
      case Some(e) => Err(Error(OtherError, BatchFailureText(ids, e)));
    Run([ActionCall(a, ids)], outcome)
  }

  /** `start_ec2_instance` and `stop_ec2_instance`. */
  method ActuateBatch(cloud: Cloud, a: Action, ids: seq<string>) returns (r: Result<()>)
    modifies cloud
    ensures var run := BatchRun(a, ids, cloud.faults, |old(cloud.log)|);
            cloud.log == old(cloud.log) + run.calls && r == run.result
  {
    r := cloud.Invoke(ActionCall(a, ids));
    if r.Err? {
      r := Err(Error(OtherError, BatchFailureText(ids, r.error)));
    }
  }

  /** There is no empty-list guard: every list, the empty one included, is
      sent in exactly one call; the call raises exactly when the EC2 call
      did, and for either action the re-raised text says the instances
      failed to start. */
  lemma BatchContract(a: Action, ids: seq<string>, faults: Faults, n: nat)
    ensures var run := BatchRun(a, ids, faults, n);
            run.calls == [ActionCall(a, ids)] &&
            (run.result.Ok? <==> faults(n).None?) &&
            (run.result.Err? ==>
               run.result.error.kind == OtherError &&
               run.result.error.text == "[ERROR]: Failed to start instance " + ListRepr(ids) + ": " + faults(n).value.text)
  {
  }

  /** A failed stop is reported as a failure to start. */
  lemma StopFailureSaysStart(ids: seq<string>, faults: Faults, n: nat)
    requires faults(n).Some?
    ensures var run := BatchRun(Stop, ids, faults, n);
            run.calls == [StopInstances(ids)] &&
            run.result.Err? &&
            run.result.error.text[..35] == "[ERROR]: Failed to start instance ["
  {
    var prefix := "[ERROR]: Failed to start instance [";
    var rest := Join(", ", StrReprs(ids)) + "]" + ": " + faults(n).value.text;
    assert BatchFailureText(ids, faults(n).value) == prefix + rest;
    assert |prefix| == 35;
    assert (prefix + rest)[..35] == prefix;
  }

  /** `f"[INFO]: Successfully {verb} EC2 instances: {'\n'.join([])}"`: the
      join is over an empty list. */
  function SuccessMessage(a: Action): string
  {
    "[INFO]: Successfully " + (match a case Start => "started" case Stop => "stopped") + " EC2 instances: " + Join("\n", [])
  }

  /** The success message names no instance: it ends right after the
      colon. */
  lemma SuccessMessageWording()
    ensures SuccessMessage(Start) == "[INFO]: Successfully started EC2 instances: "
    ensures SuccessMessage(Stop) == "[INFO]: Successfully stopped EC2 instances: "
  {
    assert Join("\n", []) == "";
  }

  /** The text of the invalid-action exception. */
  const InvalidActionText := "[ERROR]: Invalid action provided. Must be 'start' or 'stop'."

  /** `str(e)` of the `NameError` raised at lines 159 and 164, where the
      undefined `tag_key` is evaluated as an argument. */
  const NameErrorText := "name 'tag_key' is not defined"

  /** The outcome of the selection step as the source is written: evaluating
      its arguments raises before any call is made. */
  const AsWrittenSelection: Result<seq<string>> := Err(Error(OtherError, NameErrorText))

  /** The calls of the `try` block, given the outcome of the selection step:
      act on the selection, then report success. */
  function TryRun(cfg: Config, a: Action, selection: Result<seq<string>>, faults: Faults, n: nat): Run<()>
  {
    if selection.Err? then Run([], Err(selection.error))
    else
      var act := BatchRun(a, selection.value, faults, n);
      if act.result.Err? then act
      else
        var rep := ReportRun(cfg, false, SuccessMessage(a), faults, n + 1);
        Run(act.calls + rep.calls, rep.result)
  }

  /** The calls of `handler` from log position `n`. */
  function HandlerRun(cfg: Config, action: Option<string>, selection: Result<seq<string>>, faults: Faults, n: nat): Run<()>
  {
    match ParseAction(action)
    case None => Run([], Err(Error(OtherError, InvalidActionText)))
    case Some(a) =>
      var t := TryRun(cfg, a, selection, faults, n);
      if t.result.Ok? then t
      else
        var rep := ReportRun(cfg, true, t.result.error.text, faults, n + |t.calls|);
        Run(t.calls + rep.calls, rep.result)
  }

  /** The `try` block of `handler`. */
  method TryBlock(cloud: Cloud, cfg: Config, a: Action, selection: Result<seq<string>>) returns (r: Result<()>)
    modifies cloud
    ensures var run := TryRun(cfg, a, selection, cloud.faults, |old(cloud.log)|);
            cloud.log == old(cloud.log) + run.calls && r == run.result
  {
    if selection.Err? {
      return Err(selection.error);
    }
    ghost var log0 := cloud.log;
    r := ActuateBatch(cloud, a, selection.value);
    if r.Err? {
      return;
    }
    ghost var log1 := cloud.log;
    r := LogAndReportProcessResults(cloud, cfg, false, SuccessMessage(a));
    AppendAssoc(log0, log1[|log0|..], cloud.log[|log1|..]);
  }

  /** `handler`: `action` is `event.get('action')`, `selection` the outcome
      of the selection step. */
  method Handler(cloud: Cloud, cfg: Config, action: Option<string>, selection: Result<seq<string>>) returns (r: Result<()>)
    modifies cloud
    ensures var run := HandlerRun(cfg, action, selection, cloud.faults, |old(cloud.log)|);
            cloud.log == old(cloud.log) + run.calls && r == run.result
  {
    var a := ParseAction(action);
    if a.None? {
      return Err(Error(OtherError, InvalidActionText));
    }
    ghost var log0 := cloud.log;
    ghost var t := TryRun(cfg, a.value, selection, cloud.faults, |log0|);
    ghost var run := HandlerRun(cfg, action, selection, cloud.faults, |log0|);
    HandlerRunSplit(cfg, action, selection, cloud.faults, |log0|);
    r := TryBlock(cloud, cfg, a.value, selection);
    if r.Err? {
      var message := r.error.text;
      assert message == t.result.error.text && |cloud.log| == |log0| + |t.calls|;
      ghost var rep := ReportRun(cfg, true, message, cloud.faults, |cloud.log|);
      assert run == Run(t.calls + rep.calls, rep.result);
      r := LogAndReportProcessResults(cloud, cfg, true, message);
      assert r == rep.result;
      AppendAssoc(log0, t.calls, rep.calls);
    } else {
      assert run == t;
    }
    assert cloud.log == log0 + run.calls && r == run.result;
  }

  /** For a valid action the handler's run is the `try` block's, followed by
      the error report when the block raised. */
  lemma HandlerRunSplit(cfg: Config, action: Option<string>, selection: Result<seq<string>>, faults: Faults, n: nat)
    requires ParseAction(action).Some?
    ensures var t := TryRun(cfg, ParseAction(action).value, selection, faults, n);
            HandlerRun(cfg, action, selection, faults, n) ==
              if t.result.Ok? then t
              else
                var rep := ReportRun(cfg, true, t.result.error.text, faults, n + |t.calls|);
                Run(t.calls + rep.calls, rep.result)
  {
  }

  // ---------------------------------------------------------------------
  // Properties of the handler

  /** A missing or unknown action raises before any remote call. */
  lemma InvalidActionRaisesFirst(cfg: Config, action: Option<string>, selection: Result<seq<string>>, faults: Faults, n: nat)
    requires action != Some("start") && action != Some("stop")
    ensures HandlerRun(cfg, action, selection, faults, n) == Run([], Err(Error(OtherError, InvalidActionText)))
  {
  }

  /** A failure anywhere in the `try` block is followed by exactly one error
      report carrying `str(e)`, and is not re-raised: the handler returns
      normally unless that report raises in turn. */
  lemma FailureReportedAndSwallowed(cfg: Config, action: Option<string>, selection: Result<seq<string>>, faults: Faults, n: nat)
    requires ParseAction(action).Some?
    requires TryRun(cfg, ParseAction(action).value, selection, faults, n).result.Err?
    ensures var t := TryRun(cfg, ParseAction(action).value, selection, faults, n);
            var rep := ReportRun(cfg, true, t.result.error.text, faults, n + |t.calls|);
            var run := HandlerRun(cfg, action, selection, faults, n);
            run.calls == t.calls + rep.calls &&
            (run.result.Ok? <==> NoFaultIn(faults, n + |t.calls|, n + |run.calls|))
  {
    var t := TryRun(cfg, ParseAction(action).value, selection, faults, n);
    var rep := ReportRun(cfg, true, t.result.error.text, faults, n + |t.calls|);
    ReportOkIff(cfg, true, t.result.error.text, faults, n + |t.calls|);
    assert HandlerRun(cfg, action, selection, faults, n) == Run(t.calls + rep.calls, rep.result);
  }

  /** For a valid action the handler raises only when the last report it
      sends raises: a failed success report, in particular, is caught and
      followed by an error report. */
  lemma RaisesOnlyFromErrorReport(cfg: Config, action: Option<string>, selection: Result<seq<string>>, faults: Faults, n: nat)
    requires ParseAction(action).Some?
    ensures var t := TryRun(cfg, ParseAction(action).value, selection, faults, n);
            var run := HandlerRun(cfg, action, selection, faults, n);
            run.result.Err? <==>
              t.result.Err? && ReportRun(cfg, true, t.result.error.text, faults, n + |t.calls|).result.Err?
  {
  }

  /** As written, every valid invocation fails in the selection step with a
      `NameError`, makes no EC2 call, and only sends the error report naming
      the undefined variable. */
  lemma AsWrittenOnlyReportsNameError(cfg: Config, action: Option<string>, faults: Faults, n: nat)
    requires ParseAction(action).Some?
    ensures var run := HandlerRun(cfg, action, AsWrittenSelection, faults, n);
            run == ReportRun(cfg, true, "name 'tag_key' is not defined", faults, n) &&
            forall k :: 0 <= k < |run.calls| ==> run.calls[k].PostJson? || run.calls[k].Publish?
  {
    var rep := ReportRun(cfg, true, NameErrorText, faults, n);
    assert TryRun(cfg, ParseAction(action).value, AsWrittenSelection, faults, n) == Run([], Err(Error(OtherError, NameErrorText)));
    assert [] + rep.calls == rep.calls;
    ReportCallKinds(cfg, true, NameErrorText, faults, n);
  }

  /** When a selection is given and no remote call raises, the handler makes
      one batched call with the selection, posts the success text to Teams
      when enabled, emails it, and returns normally. */
  lemma SuccessfulInvocation(cfg: Config, action: Option<string>, ids: seq<string>, faults: Faults, n: nat)
    requires ParseAction(action).Some?
    requires forall j :: n <= j ==> faults(j).None?
    ensures var a := ParseAction(action).value;
            var text := ReportText(cfg, false, SuccessMessage(a));
            HandlerRun(cfg, action, Ok(ids), faults, n) ==
              Run([ActionCall(a, ids)] +
                  ((if cfg.teamsEnabled then [PostJson(cfg.teamsWebhookUrl, text)] else []) +
                   [Publish(cfg.snsTopicArn, cfg.successSubject, text)]),
                  Ok(()))
  {
    var a := ParseAction(action).value;
    assert faults(n).None? && faults(n + 1).None? && faults(n + 2).None?;
  }
}
