/** The handler of the top-level lambda: the configured id string split on
    commas, one start or stop call per id with failures collected in a list
    instead of raised, a success report naming every id, an error report if
    the success report raised, and a follow-up error report listing the
    failed ids. Its senders swallow their own failures, except that the
    Teams sender lets exceptions other than request errors through. */
module CollectingHandler {
  import opened Effects
  import opened PyText
  import opened Settings
  import opened InstanceActuator

  /** `EC2_INSTANCE_IDS_LIST`: `EC2_INSTANCE_IDS.split(",")`. */
  function InstanceIdList(cfg: Config): seq<string>
  {
    Split(cfg.instanceIds, ',')
  }

  /** An unset or empty id string gives one empty id, not an empty list. */
  lemma EmptyIdStringGivesOneEmptyId(cfg: Config)
    requires cfg.instanceIds == ""
    ensures InstanceIdList(cfg) == [""]
  {
  }

  /** A list of comma-free ids written out with commas splits back into
      exactly that list. */
  lemma IdListRoundTrip(cfg: Config, ids: seq<string>)
    requires |ids| >= 1
    requires forall k :: 0 <= k < |ids| ==> ',' !in ids[k]
    requires cfg.instanceIds == Join(",", ids)
    ensures InstanceIdList(cfg) == ids
  {
    SplitJoin(ids, ',');
  }

  /** `send_email_notification`: one publish; any failure is swallowed. */
  method SendEmailNotification(cloud: Cloud, cfg: Config, subject: string, message: string)
    modifies cloud
    ensures cloud.log == old(cloud.log) + [Publish(cfg.snsTopicArn, subject, message)]
  {
    var _ := cloud.Invoke(Publish(cfg.snsTopicArn, subject, message));
  }

  /** The calls of `send_ms_teams_notification` at log position `n`: none
      when reporting is disabled; otherwise one POST, whose request failure
      is swallowed while any other exception propagates. */
  function TeamsRun(cfg: Config, message: string, faults: Faults, n: nat): Run<()>
  {
    if !cfg.teamsEnabled then Run([], Ok(()))
    else
      var outcome := match faults(n)
        case Some(e) => if e.kind == RequestsError then Ok(()) else Err(e)
        case None => Ok(());
      Run([PostJson(cfg.teamsWebhookUrl, message)], outcome)
  }

  /** `send_ms_teams_notification`. */
  method SendTeamsNotification(cloud: Cloud, cfg: Config, message: string) returns (r: Result<()>)
    modifies cloud
    ensures var run := TeamsRun(cfg, message, cloud.faults, |old(cloud.log)|);
            cloud.log == old(cloud.log) + run.calls && r == run.result
  {
    if !cfg.teamsEnabled {
      return Ok(());
    }
    r := cloud.Invoke(PostJson(cfg.teamsWebhookUrl, message));
    if r.Err? && r.error.kind == RequestsError {
      r := Ok(());
    }
  }

  /** The calls of `report_status` at log position `n`: the email with the
      subject the flag picks and the message as it is, then the Teams
      sender. */
  function ReportStatusRun(cfg: Config, error: bool, message: string, faults: Faults, n: nat): Run<()>
  {
    var teams := TeamsRun(cfg, message, faults, n + 1);
    Run([Publish(cfg.snsTopicArn, Subject(cfg, error), message)] + teams.calls, teams.result)
  }

  /** `report_status`. */
  method ReportStatus(cloud: Cloud, cfg: Config, error: bool, message: string) returns (r: Result<()>)
    modifies cloud
    ensures var run := ReportStatusRun(cfg, error, message, cloud.faults, |old(cloud.log)|);
            cloud.log == old(cloud.log) + run.calls && r == run.result
  {
    SendEmailNotification(cloud, cfg, Subject(cfg, error), message);
    r := SendTeamsNotification(cloud, cfg, message);
  }

  /** The report always emails the message unwrapped, with the subject the
      flag picks, whatever the publish does; it posts the same message when
      Teams reporting is enabled; it raises only when that post raises with
      something other than a request error, and then with that exception. */
  lemma ReportStatusChannels(cfg: Config, error: bool, message: string, faults: Faults, n: nat)
    ensures var run := ReportStatusRun(cfg, error, message, faults, n);
            run.calls[0] == Publish(cfg.snsTopicArn, Subject(cfg, error), message) &&
            |run.calls| == (if cfg.teamsEnabled then 2 else 1) &&
            (cfg.teamsEnabled ==> run.calls[1] == PostJson(cfg.teamsWebhookUrl, message)) &&
            (run.result.Err? <==> cfg.teamsEnabled && faults(n + 1).Some? && faults(n + 1).value.kind != RequestsError) &&
            (run.result.Err? ==> run.result.error == faults(n + 1).value)
  {
  }

  /** `f"Successfully {verb} EC2 instances: {', '.join(ids)}"`. */
  function SuccessMessage(a: Action, ids: seq<string>): string
  {
    "Successfully " + (match a case Start => "started" case Stop => "stopped") + " EC2 instances: " + Join(", ", ids)
  }

  /** The text of the report sent when the success report raised. */
  function ErrorDuringText(a: Action, ids: seq<string>, e: Error): string
  {
    "Error occurred during " + Verb(a) + " action on EC2 instances: " + ListRepr(ids) + ". Error: " + e.text
  }

  /** The text of the follow-up report listing the failed ids. */
  function FailedText(a: Action, failed: seq<string>): string
  {
    "The following EC2 instances failed to " + Verb(a) + ":\n" + Join("\n", failed)
  }

  /** The reports of the `try` block at log position `m`: the success
      report and, if that raised, the error report of the `except` clause. */
  function ReportsRun(cfg: Config, a: Action, ids: seq<string>, faults: Faults, m: nat): Run<()>
  {
    var succ := ReportStatusRun(cfg, false, SuccessMessage(a, ids), faults, m);
    if succ.result.Ok? then succ
    else
      var err := ReportStatusRun(cfg, true, ErrorDuringText(a, ids, succ.result.error), faults, m + |succ.calls|);
      Run(succ.calls + err.calls, err.result)
  }

  /** The calls of the `try`/`except` part of `handler` for a valid action:
      one call per id, then the reports, which start right after those
      `|ids|` calls (`LoopCallsLength`). */
  function TryRun(cfg: Config, a: Action, ids: seq<string>, faults: Faults, n: nat): Run<()>
  {
    var reports := ReportsRun(cfg, a, ids, faults, n + |ids|);
    Run(LoopCalls(a, ids) + reports.calls, reports.result)
  }

  /** The follow-up of `handler` at log position `m`, after a `try`/`except`
      part that ended with `prior`: nothing when that raised or no id
      failed, otherwise the error report listing the failed ids. */
  function FollowUpRun(cfg: Config, a: Action, prior: Result<()>, failed: seq<string>, faults: Faults, m: nat): Run<()>
  {
    if prior.Err? || failed == [] then Run([], prior)
    else ReportStatusRun(cfg, true, FailedText(a, failed), faults, m)
  }

  /** The calls of `handler` for a valid action over the given ids, from
      log position `n`: the `try`/`except` part, then the follow-up. */
  function ActionRun(cfg: Config, a: Action, ids: seq<string>, faults: Faults, n: nat): Run<()>
  {
    var t := TryRun(cfg, a, ids, faults, n);
    var follow := FollowUpRun(cfg, a, t.result, FailedIds(ids, faults, n), faults, n + |t.calls|);
    Run(t.calls + follow.calls, follow.result)
  }

  /** The calls of `handler` from log position `n`. */
  function HandlerRun(cfg: Config, action: Option<string>, faults: Faults, n: nat): Run<()>
  {
    match ParseAction(action)
    case None => Run([], Ok(()))
    case Some(a) => ActionRun(cfg, a, InstanceIdList(cfg), faults, n)
  }

  /** The loop of `handler` over the ids. */
  method ActOnEach(cloud: Cloud, a: Action, ids: seq<string>, failed: IdList)
    modifies cloud, failed
    ensures cloud.log == old(cloud.log) + LoopCalls(a, ids)
    ensures failed.items == old(failed.items) + FailedIds(ids, cloud.faults, |old(cloud.log)|)
  {
    ghost var n := |cloud.log|;
    var i := 0;
    while i < |ids|
      invariant 0 <= i <= |ids|
      invariant |cloud.log| == n + i
      invariant cloud.log == old(cloud.log) + LoopCalls(a, ids[..i])
      invariant failed.items == old(failed.items) + FailedIds(ids[..i], cloud.faults, n)
    {
      ActuateInstance(cloud, a, ids[i], failed);
      LoopStep(a, ids, i, cloud.faults, n);
      AppendAssoc(old(cloud.log), LoopCalls(a, ids[..i]), [ActionCall(a, [ids[i]])]);
      AppendAssoc(old(failed.items), FailedIds(ids[..i], cloud.faults, n), if CallFailed(cloud.faults, n, i) then [ids[i]] else []);
      i := i + 1;
    }
    assert ids[..i] == ids;
  }

  /** The reports of the `try` block. */
  method Reports(cloud: Cloud, cfg: Config, a: Action, ids: seq<string>) returns (r: Result<()>)
    modifies cloud
    ensures var run := ReportsRun(cfg, a, ids, cloud.faults, |old(cloud.log)|);
            cloud.log == old(cloud.log) + run.calls && r == run.result
  {
    r := ReportStatus(cloud, cfg, false, SuccessMessage(a, ids));
    if r.Err? {
      ghost var log1 := cloud.log;
      r := ReportStatus(cloud, cfg, true, ErrorDuringText(a, ids, r.error));
      AppendAssoc(old(cloud.log), log1[|old(cloud.log)|..], cloud.log[|log1|..]);
    }
  }

  /** The `try`/`except` part of `handler` for a valid action. */
  method TryBlock(cloud: Cloud, cfg: Config, a: Action, ids: seq<string>, failed: IdList) returns (r: Result<()>)
    modifies cloud, failed
    ensures var run := TryRun(cfg, a, ids, cloud.faults, |old(cloud.log)|);
            cloud.log == old(cloud.log) + run.calls && r == run.result
    ensures failed.items == old(failed.items) + FailedIds(ids, cloud.faults, |old(cloud.log)|)
  {
    ghost var log0 := cloud.log;
    ActOnEach(cloud, a, ids, failed);
    ghost var log1 := cloud.log;
    r := Reports(cloud, cfg, a, ids);
    TryLogs(cfg, a, ids, cloud.faults, log0, log1, cloud.log, r);
  }

  /** Chaining the log of the loop with that of the reports gives the log
      of the `try`/`except` part. */
  lemma TryLogs(cfg: Config, a: Action, ids: seq<string>, faults: Faults,
                log0: seq<Call>, log1: seq<Call>, log2: seq<Call>, r: Result<()>)
    requires log1 == log0 + LoopCalls(a, ids)
    requires var reports := ReportsRun(cfg, a, ids, faults, |log1|);
             log2 == log1 + reports.calls && r == reports.result
    ensures var run := TryRun(cfg, a, ids, faults, |log0|);
            log2 == log0 + run.calls && r == run.result
  {
    LoopCallsLength(a, ids);
    assert |log1| == |log0| + |ids|;
    var reports := ReportsRun(cfg, a, ids, faults, |log1|);
    assert TryRun(cfg, a, ids, faults, |log0|) == Run(LoopCalls(a, ids) + reports.calls, reports.result);
    AppendAssoc(log0, LoopCalls(a, ids), reports.calls);
  }

  /** The follow-up of `handler`. */
  method FollowUp(cloud: Cloud, cfg: Config, a: Action, prior: Result<()>, failed: seq<string>) returns (r: Result<()>)
    modifies cloud
    ensures var run := FollowUpRun(cfg, a, prior, failed, cloud.faults, |old(cloud.log)|);
            cloud.log == old(cloud.log) + run.calls && r == run.result
  {
    if prior.Err? || failed == [] {
      return prior;
    }
    r := ReportStatus(cloud, cfg, true, FailedText(a, failed));
  }

  /** Chaining the log of the `try`/`except` part with that of the
      follow-up gives the log of `handler` for a valid action. */
  lemma ActionLogs(cfg: Config, a: Action, ids: seq<string>, faults: Faults,
                   log0: seq<Call>, log1: seq<Call>, log2: seq<Call>, t: Result<()>, r: Result<()>)
    requires var tr := TryRun(cfg, a, ids, faults, |log0|);
             log1 == log0 + tr.calls && t == tr.result
    requires var follow := FollowUpRun(cfg, a, t, FailedIds(ids, faults, |log0|), faults, |log1|);
             log2 == log1 + follow.calls && r == follow.result
    ensures var run := ActionRun(cfg, a, ids, faults, |log0|);
            log2 == log0 + run.calls && r == run.result
  {
    var tr := TryRun(cfg, a, ids, faults, |log0|);
    var follow := FollowUpRun(cfg, a, t, FailedIds(ids, faults, |log0|), faults, |log1|);
    AppendAssoc(log0, tr.calls, follow.calls);
  }

  /** `handler`: `action` is `event.get('action')`. */
  method Handler(cloud: Cloud, cfg: Config, action: Option<string>) returns (r: Result<()>)
    modifies cloud
    ensures var run := HandlerRun(cfg, action, cloud.faults, |old(cloud.log)|);
            cloud.log == old(cloud.log) + run.calls && r == run.result
  {
    var a := ParseAction(action);
    if a.None? {
      return Ok(());
    }
    var ids := InstanceIdList(cfg);
    var failed := new IdList();
    var t := TryBlock(cloud, cfg, a.value, ids, failed);
    assert failed.items == FailedIds(ids, cloud.faults, |old(cloud.log)|);
    ghost var log1 := cloud.log;
    r := FollowUp(cloud, cfg, a.value, t, failed.items);
    ActionLogs(cfg, a.value, ids, cloud.faults, old(cloud.log), log1, cloud.log, t, r);
  }

  /** An action other than "start" or "stop" makes no call and returns
      normally. */
  lemma UnknownActionDoesNothing(cfg: Config, action: Option<string>, faults: Faults, n: nat)
    requires action != Some("start") && action != Some("stop")
    ensures HandlerRun(cfg, action, faults, n) == Run([], Ok(()))
  {
  }

  /** The reports of the `try` block open with the success email. */
  lemma ReportsOpenWithSuccess(cfg: Config, a: Action, ids: seq<string>, faults: Faults, m: nat)
    ensures var calls := ReportsRun(cfg, a, ids, faults, m).calls;
            |calls| > 0 && calls[0] == Publish(cfg.snsTopicArn, cfg.successSubject, SuccessMessage(a, ids))
  {
    ReportStatusChannels(cfg, false, SuccessMessage(a, ids), faults, m);
  }

  /** The success message names every id. */
  lemma SuccessMessageNamesEachId(a: Action, ids: seq<string>, k: nat)
    requires k < |ids|
    ensures Contains(SuccessMessage(a, ids), ids[k])
  {
    var pre := "Successfully " + (match a case Start => "started" case Stop => "stopped") + " EC2 instances: ";
    JoinContainsEach(", ", ids, k);
    var i :| OccursAt(Join(", ", ids), ids[k], i);
    OccursShift(pre, Join(", ", ids), "", ids[k], i);
    assert pre + Join(", ", ids) + "" == SuccessMessage(a, ids);
  }

  /** The `try`/`except` part over `ids` opens with one EC2 call per id, in
      order, and then the success email. */
  lemma TryRunOpens(cfg: Config, a: Action, ids: seq<string>, faults: Faults, n: nat)
    ensures var calls := TryRun(cfg, a, ids, faults, n).calls;
            |calls| > |ids| &&
            (forall k :: 0 <= k < |ids| ==> calls[k] == ActionCall(a, [ids[k]])) &&
            calls[|ids|] == Publish(cfg.snsTopicArn, cfg.successSubject, SuccessMessage(a, ids))
  {
    TryRunAfterLoop(cfg, a, ids, faults, n);
    OneCallPerId(a, ids);
    ReportsOpenWithSuccess(cfg, a, ids, faults, n + |ids|);
    OpensWith(LoopCalls(a, ids), ReportsRun(cfg, a, ids, faults, n + |ids|).calls, a, ids,
              Publish(cfg.snsTopicArn, cfg.successSubject, SuccessMessage(a, ids)));
  }

  /** The `try`/`except` part is the loop's calls, one per id, followed by the
      reports issued from the position after them. */
  lemma TryRunAfterLoop(cfg: Config, a: Action, ids: seq<string>, faults: Faults, n: nat)
    ensures var loop := LoopCalls(a, ids);
            var reports := ReportsRun(cfg, a, ids, faults, n + |ids|);
            |loop| == |ids| && TryRun(cfg, a, ids, faults, n) == Run(loop + reports.calls, reports.result)
  {
    LoopCallsLength(a, ids);
  }

  /** One call per id followed by calls opening with `c`: the whole opens
      with the per-id calls and then `c`. */
  lemma OpensWith(loop: seq<Call>, rest: seq<Call>, a: Action, ids: seq<string>, c: Call)
    requires |loop| == |ids| && forall k :: 0 <= k < |ids| ==> loop[k] == ActionCall(a, [ids[k]])
    requires |rest| > 0 && rest[0] == c
    ensures var calls := loop + rest;
            |calls| > |ids| &&
            (forall k :: 0 <= k < |ids| ==> calls[k] == ActionCall(a, [ids[k]])) &&
            calls[|ids|] == c
  {
  }

  /** So does the run of a valid action over `ids`. */
  lemma ActionRunOpens(cfg: Config, a: Action, ids: seq<string>, faults: Faults, n: nat)
    ensures var calls := ActionRun(cfg, a, ids, faults, n).calls;
            |calls| > |ids| &&
            (forall k :: 0 <= k < |ids| ==> calls[k] == ActionCall(a, [ids[k]])) &&
            calls[|ids|] == Publish(cfg.snsTopicArn, cfg.successSubject, SuccessMessage(a, ids))
  {
    var t := TryRun(cfg, a, ids, faults, n);
    var follow := FollowUpRun(cfg, a, t.result, FailedIds(ids, faults, n), faults, n + |t.calls|);
    TryRunOpens(cfg, a, ids, faults, n);
    assert ActionRun(cfg, a, ids, faults, n).calls == t.calls + follow.calls;
  }

  /** For a valid action, the run opens with one EC2 call per configured id,
      in order, each for that id alone, and then emails the success report
      with the success subject, whichever of those calls raised; that report
      names every configured id. */
  lemma ActsOnEachIdThenReportsSuccess(cfg: Config, action: Option<string>, a: Action, faults: Faults, n: nat)
    requires ParseAction(action) == Some(a)
    ensures var ids := InstanceIdList(cfg);
            var calls := HandlerRun(cfg, action, faults, n).calls;
            |calls| > |ids| &&
            (forall k :: 0 <= k < |ids| ==> calls[k] == ActionCall(a, [ids[k]])) &&
            calls[|ids|] == Publish(cfg.snsTopicArn, cfg.successSubject, SuccessMessage(a, ids)) &&
            (forall k :: 0 <= k < |ids| ==> Contains(SuccessMessage(a, ids), ids[k]))
  {
    var ids := InstanceIdList(cfg);
    ActionRunOpens(cfg, a, ids, faults, n);
    forall k | 0 <= k < |ids| ensures Contains(SuccessMessage(a, ids), ids[k]) {
      SuccessMessageNamesEachId(a, ids, k);
    }
  }

  /** The follow-up report is sent exactly when the `try`/`except` part
      returned and one of the EC2 calls raised; it is an error report whose
      message lists the failed ids, and its outcome is the handler's. */
  lemma FollowUpIffSomeCallFailed(cfg: Config, action: Option<string>, a: Action, faults: Faults, n: nat)
    requires ParseAction(action) == Some(a)
    requires TryRun(cfg, a, InstanceIdList(cfg), faults, n).result.Ok?
    ensures var ids := InstanceIdList(cfg);
            var t := TryRun(cfg, a, ids, faults, n);
            var run := HandlerRun(cfg, action, faults, n);
            var failed := FailedIds(ids, faults, n);
            (|run.calls| > |t.calls| <==> !NoFaultIn(faults, n, n + |ids|)) &&
            (|run.calls| > |t.calls| ==>
               run.calls[|t.calls|] == Publish(cfg.snsTopicArn, cfg.errorSubject, FailedText(a, failed)) &&
               run.result == ReportStatusRun(cfg, true, FailedText(a, failed), faults, n + |t.calls|).result) &&
            (|run.calls| == |t.calls| ==> run.result.Ok?)
  {
    var ids := InstanceIdList(cfg);
    var t := TryRun(cfg, a, ids, faults, n);
    FailedEmptyIff(ids, faults, n);
    ReportStatusChannels(cfg, true, FailedText(a, FailedIds(ids, faults, n)), faults, n + |t.calls|);
  }

  /** A run that raises only from a report raises what that report's Teams
      post raised, at its own last call. */
  ghost predicate RaisesFromTeams(cfg: Config, run: Run<()>, faults: Faults, n: nat)
  {
    run.result.Err? ==>
      cfg.teamsEnabled && run.result.error.kind != RequestsError && |run.calls| > 0 &&
      run.calls[|run.calls| - 1].PostJson? && run.calls[|run.calls| - 1].url == cfg.teamsWebhookUrl &&
      faults(n + |run.calls| - 1) == Some(run.result.error)
  }

  /** Putting calls that raise nothing in front keeps that property. */
  lemma RaisesFromTeamsAfter(cfg: Config, prefix: seq<Call>, run: Run<()>, whole: Run<()>, faults: Faults, n: nat, m: nat)
    requires m == n + |prefix| && RaisesFromTeams(cfg, run, faults, m)
    requires whole == Run(prefix + run.calls, run.result)
    ensures RaisesFromTeams(cfg, whole, faults, n)
  {
  }

  lemma ReportRaisesFromTeams(cfg: Config, error: bool, message: string, faults: Faults, m: nat)
    ensures RaisesFromTeams(cfg, ReportStatusRun(cfg, error, message, faults, m), faults, m)
  {
    ReportStatusChannels(cfg, error, message, faults, m);
  }

  /** The reports of the `try` block raise only from a Teams post. */
  lemma ReportsRunRaisesFromTeams(cfg: Config, a: Action, ids: seq<string>, faults: Faults, m: nat)
    ensures RaisesFromTeams(cfg, ReportsRun(cfg, a, ids, faults, m), faults, m)
  {
    var reports := ReportsRun(cfg, a, ids, faults, m);
    var succ := ReportStatusRun(cfg, false, SuccessMessage(a, ids), faults, m);
    ReportRaisesFromTeams(cfg, false, SuccessMessage(a, ids), faults, m);
    if succ.result.Err? {
      var err := ReportStatusRun(cfg, true, ErrorDuringText(a, ids, succ.result.error), faults, m + |succ.calls|);
      ReportRaisesFromTeams(cfg, true, ErrorDuringText(a, ids, succ.result.error), faults, m + |succ.calls|);
      assert reports == Run(succ.calls + err.calls, err.result);
      RaisesFromTeamsAfter(cfg, succ.calls, err, reports, faults, m, m + |succ.calls|);
    } else {
      assert reports == succ;
    }
  }

  /** So do they after any calls made before them: `whole` is those calls
      followed by the reports. */
  lemma ReportsRaiseFromTeams(cfg: Config, a: Action, ids: seq<string>, prefix: seq<Call>, whole: Run<()>, faults: Faults, n: nat)
    requires var reports := ReportsRun(cfg, a, ids, faults, n + |prefix|);
             whole == Run(prefix + reports.calls, reports.result)
    ensures RaisesFromTeams(cfg, whole, faults, n)
  {
    var m := n + |prefix|;
    ReportsRunRaisesFromTeams(cfg, a, ids, faults, m);
    RaisesFromTeamsAfter(cfg, prefix, ReportsRun(cfg, a, ids, faults, m), whole, faults, n, m);
  }

  /** The `try`/`except` part raises only from a Teams post. */
  lemma TryRaisesFromTeams(cfg: Config, a: Action, ids: seq<string>, faults: Faults, n: nat)
    ensures RaisesFromTeams(cfg, TryRun(cfg, a, ids, faults, n), faults, n)
  {
    TryRunAfterLoop(cfg, a, ids, faults, n);
    ReportsRaiseFromTeams(cfg, a, ids, LoopCalls(a, ids), TryRun(cfg, a, ids, faults, n), faults, n);
  }

  /** So does the whole run of a valid action. */
  lemma ActionRaisesFromTeams(cfg: Config, a: Action, ids: seq<string>, faults: Faults, n: nat)
    ensures RaisesFromTeams(cfg, ActionRun(cfg, a, ids, faults, n), faults, n)
  {
    TryRaisesFromTeams(cfg, a, ids, faults, n);
    var t := TryRun(cfg, a, ids, faults, n);
    var failed := FailedIds(ids, faults, n);
    var follow := FollowUpRun(cfg, a, t.result, failed, faults, n + |t.calls|);
    if t.result.Err? || failed == [] {
      assert t.calls + follow.calls == t.calls;
    } else {
      ReportRaisesFromTeams(cfg, true, FailedText(a, failed), faults, n + |t.calls|);
      RaisesFromTeamsAfter(cfg, t.calls, follow, ActionRun(cfg, a, ids, faults, n), faults, n, n + |t.calls|);
    }
  }

  /** The handler raises only what its last call, a Teams post, raised, and
      never a request error: EC2 and email failures never escape. */
  lemma RaisesOnlyNonRequestTeamsErrors(cfg: Config, action: Option<string>, faults: Faults, n: nat)
    ensures RaisesFromTeams(cfg, HandlerRun(cfg, action, faults, n), faults, n)
  {
    if ParseAction(action).Some? {
      ActionRaisesFromTeams(cfg, ParseAction(action).value, InstanceIdList(cfg), faults, n);
    }
  }
}
