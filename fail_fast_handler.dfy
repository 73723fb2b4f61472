/** The newest handler: batched start/stop guarded against an empty
    selection, a reporter that emails unconditionally and posts to Teams when
    enabled, every remote failure re-raised, and a handler that validates the
    action first, reports any failure of selection, actuation or the success
    report once with the error flag, and then re-raises it. */
module FailFastHandler {
  import opened Effects
  import opened PyText
  import opened Settings
  import opened TagSelector

  /** `send_email_notification`: one publish; its failure is re-raised. */
  method SendEmailNotification(cloud: Cloud, cfg: Config, subject: string, message: string) returns (r: Result<()>)
    modifies cloud
    ensures cloud.log == old(cloud.log) + [Publish(cfg.snsTopicArn, subject, message)]
    ensures r == Reply(cloud.faults, |old(cloud.log)|)
  {
    r := cloud.Invoke(Publish(cfg.snsTopicArn, subject, message));
  }

  /** `send_ms_teams_notification`: one POST of `{"text": message}`; a
      `RequestException` is re-raised and anything else propagates, so every
      failure comes out unchanged. */
  method SendTeamsNotification(cloud: Cloud, cfg: Config, message: string) returns (r: Result<()>)
    modifies cloud
    ensures cloud.log == old(cloud.log) + [PostJson(cfg.teamsWebhookUrl, message)]
    ensures r == Reply(cloud.faults, |old(cloud.log)|)
  {
    r := cloud.Invoke(PostJson(cfg.teamsWebhookUrl, message));
  }

  /** The calls of `log_and_report_process_results` from log position `n`. */
  function ReportRun(cfg: Config, error: bool, message: string, faults: Faults, n: nat): Run<()>
  {
    var text := ReportText(cfg, error, message);
    var email := Publish(cfg.snsTopicArn, Subject(cfg, error), text);
    if Reply(faults, n).Err? then Run([email], Reply(faults, n))
    else if cfg.teamsEnabled then Run([email, PostJson(cfg.teamsWebhookUrl, text)], Reply(faults, n + 1))
    else Run([email], Ok(()))
  }

  /** `log_and_report_process_results`. */
  method LogAndReportProcessResults(cloud: Cloud, cfg: Config, error: bool, message: string) returns (r: Result<()>)
    modifies cloud
    ensures var run := ReportRun(cfg, error, message, cloud.faults, |old(cloud.log)|);
            cloud.log == old(cloud.log) + run.calls && r == run.result
  {
    var text := ReportText(cfg, error, message);
    r := SendEmailNotification(cloud, cfg, Subject(cfg, error), text);
    if r.Err? {
      return;
    }
    if cfg.teamsEnabled {
      r := SendTeamsNotification(cloud, cfg, text);
    }
  }

  /** The reporter always emails first, with the subject and the
      header/footer pair the flag picks; it posts the same text to Teams
      exactly when Teams reporting is enabled and the email went out; it
      raises exactly when one of its calls raised, with that call's
      exception. */
  lemma ReportChannels(cfg: Config, error: bool, message: string, faults: Faults, n: nat)
    ensures var run := ReportRun(cfg, error, message, faults, n);
            var text := ReportText(cfg, error, message);
            1 <= |run.calls| <= 2 &&
            run.calls[0] == Publish(cfg.snsTopicArn, Subject(cfg, error), text) &&
            (|run.calls| == 2 <==> cfg.teamsEnabled && faults(n).None?) &&
            (|run.calls| == 2 ==> run.calls[1] == PostJson(cfg.teamsWebhookUrl, text)) &&
            Transparent(run, faults, n)
  {
  }

  /** The calls of `start_ec2_instances`/`stop_ec2_instances`. */
  function BatchRun(a: Action, ids: seq<string>, faults: Faults, n: nat): Run<()>
  {
    if ids == [] then Run([], Ok(()))
    else Run([ActionCall(a, ids)], Reply(faults, n))
  }

  /** `start_ec2_instances` (`a == Start`) and `stop_ec2_instances`
      (`a == Stop`). */
  method ActuateBatch(cloud: Cloud, a: Action, ids: seq<string>) returns (r: Result<()>)
    modifies cloud
    ensures var run := BatchRun(a, ids, cloud.faults, |old(cloud.log)|);
            cloud.log == old(cloud.log) + run.calls && r == run.result
  {
    if ids == [] {
      return Ok(());
    }
    r := cloud.Invoke(ActionCall(a, ids));
  }

  /** An empty list is a no-op that returns normally; any other list is
      acted on by exactly one call carrying exactly that list, whose
      exception, if it raises, is raised unchanged. */
  lemma BatchContract(a: Action, ids: seq<string>, faults: Faults, n: nat)
    ensures var run := BatchRun(a, ids, faults, n);
            (ids == [] ==> run.calls == [] && run.result == Ok(())) &&
            (ids != [] ==> run.calls == [ActionCall(a, ids)]) &&
            Transparent(run, faults, n)
  {
  }

  /** `f"Successfully {action}ed EC2 instances: {...}"`, the ids joined with
      ", ", or "None" for an empty selection. */
  function SuccessMessage(a: Action, ids: seq<string>): string
  {
    "Successfully " + Verb(a) + "ed EC2 instances: " + (if ids == [] then "None" else Join(", ", ids))
  }

  /** The success message names every acted-on id. */
  lemma SuccessMessageNamesIds(a: Action, ids: seq<string>, k: nat)
    requires k < |ids|
    ensures Contains(SuccessMessage(a, ids), ids[k])
  {
    var prefix := "Successfully " + Verb(a) + "ed EC2 instances: ";
    JoinContainsEach(", ", ids, k);
    var i :| 0 <= i <= |Join(", ", ids)| && OccursAt(Join(", ", ids), ids[k], i);
    OccursShift(prefix, Join(", ", ids), "", ids[k], i);
    assert prefix + Join(", ", ids) + "" == SuccessMessage(a, ids);
  }

  /** An empty selection is reported as "None". */
  lemma SuccessMessageStartWording()
    ensures SuccessMessage(Start, []) == "Successfully started EC2 instances: None"
  {
  }

  /** For "stop" the f-string spells "stoped". */
  lemma SuccessMessageStopWording()
    ensures SuccessMessage(Stop, []) == "Successfully stoped EC2 instances: None"
  {
  }

  /** The text of the invalid-action `ValueError`. */
  const InvalidActionText := "Invalid action provided. Must be 'start' or 'stop'."

  /** The calls of the handler's `try` block once the selection is known:
      act on it, then report success. */
  function ActAndReportRun(cfg: Config, a: Action, ids: seq<string>, faults: Faults, n: nat): Run<()>
  {
    var act := BatchRun(a, ids, faults, n);
    if act.result.Err? then act
    else
      var rep := ReportRun(cfg, false, SuccessMessage(a, ids), faults, n + |act.calls|);
      Run(act.calls + rep.calls, rep.result)
  }

  /** The calls of the handler's `try` block once the selector has run, as
      `sel`, from log position `n`: its exception passes on, or its
      selection is acted on and reported. */
  function AfterSelectionRun(cfg: Config, a: Action, sel: Run<seq<string>>, faults: Faults, n: nat): Run<()>
  {
    if sel.result.Err? then Run(sel.calls, Err(sel.result.error))
    else
      var rest := ActAndReportRun(cfg, a, sel.result.value, faults, n + |sel.calls|);
      Run(sel.calls + rest.calls, rest.result)
  }

  /** The calls of the handler's `try` block: select, act, report success. */
  function TryRun(cfg: Config, a: Action, pages: seq<Page>, faults: Faults, n: nat): Run<()>
  {
    var tag := ScheduleTag(cfg, a);
    AfterSelectionRun(cfg, a, SelectorRun(pages, tag.0, tag.1, faults, n), faults, n)
  }

  /** The calls of `handler` from log position `n`. */
  function HandlerRun(cfg: Config, action: Option<string>, pages: seq<Page>, faults: Faults, n: nat): Run<()>
  {
    match ParseAction(action)
    case None => Run([], Err(Error(ValueError, InvalidActionText)))
    case Some(a) =>
      var t := TryRun(cfg, a, pages, faults, n);
      if t.result.Ok? then t
      else
        var rep := ReportRun(cfg, true, t.result.error.text, faults, n + |t.calls|);
        Run(t.calls + rep.calls, if rep.result.Err? then rep.result else t.result)
  }

  /** The second half of the `try` block: act on the selection, then
      report success naming it. */
  method ActAndReport(cloud: Cloud, cfg: Config, a: Action, ids: seq<string>) returns (r: Result<()>)
    modifies cloud
    ensures var run := ActAndReportRun(cfg, a, ids, cloud.faults, |old(cloud.log)|);
            cloud.log == old(cloud.log) + run.calls && r == run.result
  {
    r := ActuateBatch(cloud, a, ids);
    if r.Ok? {
      r := LogAndReportProcessResults(cloud, cfg, false, SuccessMessage(a, ids));
    }
  }

  /** When the selector raises, the `try` block's run is the selector's
      run, ending with its exception. */
  lemma TryRunOnSelectorError(cfg: Config, a: Action, pages: seq<Page>, faults: Faults, n: nat)
    requires SelectorRun(pages, ScheduleTag(cfg, a).0, ScheduleTag(cfg, a).1, faults, n).result.Err?
    ensures var sel := SelectorRun(pages, ScheduleTag(cfg, a).0, ScheduleTag(cfg, a).1, faults, n);
            TryRun(cfg, a, pages, faults, n) == Run(sel.calls, Err(sel.result.error))
  {
  }

  /** When the selector returns, the `try` block's run is the selector's run
      followed by the run of acting and reporting on the selection. */
  lemma TryRunOnSelection(cfg: Config, a: Action, pages: seq<Page>, faults: Faults, n: nat)
    requires SelectorRun(pages, ScheduleTag(cfg, a).0, ScheduleTag(cfg, a).1, faults, n).result.Ok?
    ensures var sel := SelectorRun(pages, ScheduleTag(cfg, a).0, ScheduleTag(cfg, a).1, faults, n);
            var rest := ActAndReportRun(cfg, a, sel.result.value, faults, n + |sel.calls|);
            TryRun(cfg, a, pages, faults, n) == Run(sel.calls + rest.calls, rest.result)
  {
  }

  /** A log that grew by the selector's run and then, when the selector
      returned, by the run of acting and reporting on the selection, grew by
      the `try` block's run. */
  lemma TryRunSplit(cfg: Config, a: Action, pages: seq<Page>, faults: Faults,
                    log0: seq<Call>, log1: seq<Call>, log2: seq<Call>,
                    selected: Result<seq<string>>, r: Result<()>)
    requires var sel := SelectorRun(pages, ScheduleTag(cfg, a).0, ScheduleTag(cfg, a).1, faults, |log0|);
             log1 == log0 + sel.calls && selected == sel.result
    requires selected.Err? ==> log2 == log1 && r == Err(selected.error)
    requires selected.Ok? ==>
               var rest := ActAndReportRun(cfg, a, selected.value, faults, |log1|);
               log2 == log1 + rest.calls && r == rest.result
    ensures var t := TryRun(cfg, a, pages, faults, |log0|);
            log2 == log0 + t.calls && r == t.result
  {
    var sel := SelectorRun(pages, ScheduleTag(cfg, a).0, ScheduleTag(cfg, a).1, faults, |log0|);
    var t := TryRun(cfg, a, pages, faults, |log0|);
    if selected.Ok? {
      TryRunOnSelection(cfg, a, pages, faults, |log0|);
      var rest := ActAndReportRun(cfg, a, selected.value, faults, |log1|);
      AppendAssoc(log0, sel.calls, rest.calls);
    } else {
      TryRunOnSelectorError(cfg, a, pages, faults, |log0|);
    }
  }

  /** The `try` block of `handler`. */
  method TryBlock(cloud: Cloud, cfg: Config, a: Action, pages: seq<Page>) returns (r: Result<()>)
    modifies cloud
    ensures var run := TryRun(cfg, a, pages, cloud.faults, |old(cloud.log)|);
            cloud.log == old(cloud.log) + run.calls && r == run.result
  {
    ghost var log0 := cloud.log;
    var tag := ScheduleTag(cfg, a);
    var selected := GetInstanceIdsByScheduleTag(cloud, pages, tag.0, tag.1);
    ghost var log1 := cloud.log;
    if selected.Err? {
      r := Err(selected.error);
    } else {
      r := ActAndReport(cloud, cfg, a, selected.value);
    }
    TryRunSplit(cfg, a, pages, cloud.faults, log0, log1, cloud.log, selected, r);
  }

  /** `handler`: `action` is `event.get('action')`, `pages` what the
      `describe_instances` paginator would list. */
  method Handler(cloud: Cloud, cfg: Config, action: Option<string>, pages: seq<Page>) returns (r: Result<()>)
    modifies cloud
    ensures var run := HandlerRun(cfg, action, pages, cloud.faults, |old(cloud.log)|);
            cloud.log == old(cloud.log) + run.calls && r == run.result
  {
    var a := ParseAction(action);
    if a.None? {
      return Err(Error(ValueError, InvalidActionText));
    }
    ghost var log0 := cloud.log;
    ghost var t := TryRun(cfg, a.value, pages, cloud.faults, |log0|);
    ghost var run := HandlerRun(cfg, action, pages, cloud.faults, |log0|);
    HandlerRunSplit(cfg, action, pages, cloud.faults, |log0|);
    r := TryBlock(cloud, cfg, a.value, pages);
    if r.Err? {
      var message := r.error.text;
      assert message == t.result.error.text && |cloud.log| == |log0| + |t.calls|;
      ghost var rep := ReportRun(cfg, true, message, cloud.faults, |cloud.log|);
      assert run == Run(t.calls + rep.calls, if rep.result.Err? then rep.result else t.result);
      var reported := LogAndReportProcessResults(cloud, cfg, true, message);
      assert reported == rep.result;
      AppendAssoc(log0, t.calls, rep.calls);
      if reported.Err? {
        r := reported;
      }
    } else {
      assert run == t;
    }
    assert cloud.log == log0 + run.calls && r == run.result;
  }

  /** For a valid action the handler's run is the `try` block's, followed by
      the error report when the block raised. */
  lemma HandlerRunSplit(cfg: Config, action: Option<string>, pages: seq<Page>, faults: Faults, n: nat)
    requires ParseAction(action).Some?
    ensures var t := TryRun(cfg, ParseAction(action).value, pages, faults, n);
            HandlerRun(cfg, action, pages, faults, n) ==
              if t.result.Ok? then t
              else
                var rep := ReportRun(cfg, true, t.result.error.text, faults, n + |t.calls|);
                Run(t.calls + rep.calls, if rep.result.Err? then rep.result else t.result)
  {
  }

  // ---------------------------------------------------------------------
  // Properties of the handler

  /** A missing or unknown action raises `ValueError` before any remote
      call. */
  lemma InvalidActionRaisesFirst(cfg: Config, action: Option<string>, pages: seq<Page>, faults: Faults, n: nat)
    requires action != Some("start") && action != Some("stop")
    ensures HandlerRun(cfg, action, pages, faults, n) == Run([], Err(Error(ValueError, InvalidActionText)))
  {
  }

  /** Acting on a selection and reporting success swallow nothing. */
  lemma ActAndReportTransparent(cfg: Config, a: Action, ids: seq<string>, faults: Faults, n: nat)
    ensures Transparent(ActAndReportRun(cfg, a, ids, faults, n), faults, n)
  {
    var act := BatchRun(a, ids, faults, n);
    BatchContract(a, ids, faults, n);
    if act.result.Ok? {
      var rep := ReportRun(cfg, false, SuccessMessage(a, ids), faults, n + |act.calls|);
      ReportChannels(cfg, false, SuccessMessage(a, ids), faults, n + |act.calls|);
      SequenceTransparent(act, rep, ActAndReportRun(cfg, a, ids, faults, n), faults, n);
    }
  }

  /** Whatever a selector that swallows nothing did, the rest of the `try`
      block swallows nothing either. */
  lemma AfterSelectionTransparent(cfg: Config, a: Action, sel: Run<seq<string>>, faults: Faults, n: nat)
    requires Transparent(sel, faults, n)
    ensures Transparent(AfterSelectionRun(cfg, a, sel, faults, n), faults, n)
  {
    if sel.result.Ok? {
      var m := n + |sel.calls|;
      var rest := ActAndReportRun(cfg, a, sel.result.value, faults, m);
      ActAndReportTransparent(cfg, a, sel.result.value, faults, m);
      SequenceTransparent(sel, rest, AfterSelectionRun(cfg, a, sel, faults, n), faults, n);
    } else {
      ReraiseTransparent(sel, AfterSelectionRun(cfg, a, sel, faults, n), faults, n);
    }
  }

  /** Neither does the whole `try` block. */
  lemma TryRunTransparent(cfg: Config, a: Action, pages: seq<Page>, faults: Faults, n: nat)
    ensures Transparent(TryRun(cfg, a, pages, faults, n), faults, n)
  {
    var tag := ScheduleTag(cfg, a);
    SelectorTransparent(pages, tag.0, tag.1, faults, n);
    AfterSelectionTransparent(cfg, a, SelectorRun(pages, tag.0, tag.1, faults, n), faults, n);
  }

  /** Nothing is swallowed: for a valid action the handler returns normally
      exactly when none of the remote calls it made raised. */
  lemma HandlerOkIffNoFault(cfg: Config, action: Option<string>, pages: seq<Page>, faults: Faults, n: nat)
    requires ParseAction(action).Some?
    ensures var run := HandlerRun(cfg, action, pages, faults, n);
            run.result.Ok? <==> NoFaultIn(faults, n, n + |run.calls|)
  {
    var a := ParseAction(action).value;
    var t := TryRun(cfg, a, pages, faults, n);
    TryRunTransparent(cfg, a, pages, faults, n);
    if t.result.Err? {
      var run := HandlerRun(cfg, action, pages, faults, n);
      assert n <= n + |t.calls| - 1 < n + |run.calls|;
    }
  }

  /** A failure anywhere in the `try` block (selection, actuation or the
      success report) is followed by exactly one error report, whose email
      carries the error subject and `str(e)` between the error header and
      footer; the handler then raises, with `e` itself unless the error report
      raised in turn. */
  lemma FailureReportedThenRaised(cfg: Config, action: Option<string>, pages: seq<Page>, faults: Faults, n: nat)
    requires ParseAction(action).Some?
    requires TryRun(cfg, ParseAction(action).value, pages, faults, n).result.Err?
    ensures var t := TryRun(cfg, ParseAction(action).value, pages, faults, n);
            var e := t.result.error;
            var run := HandlerRun(cfg, action, pages, faults, n);
            var rep := ReportRun(cfg, true, e.text, faults, n + |t.calls|);
            run.calls == t.calls + rep.calls &&
            rep.calls[0] == Publish(cfg.snsTopicArn, cfg.errorSubject, cfg.errorHeader + "\n" + e.text + "\n" + cfg.errorFooter) &&
            run.result.Err? &&
            (rep.result.Ok? ==> run.result.error == e)
  {
    var t := TryRun(cfg, ParseAction(action).value, pages, faults, n);
    ReportChannels(cfg, true, t.result.error.text, faults, n + |t.calls|);
  }

  /** When no remote call raises from log position `m` on, acting on a
      selection and reporting success issue at most one batched call, then
      the success email and, when enabled, the Teams post, and return
      normally. */
  lemma QuietActAndReport(cfg: Config, a: Action, ids: seq<string>, faults: Faults, m: nat)
    requires forall j :: m <= j ==> faults(j).None?
    ensures var text := ReportText(cfg, false, SuccessMessage(a, ids));
            ActAndReportRun(cfg, a, ids, faults, m) ==
              Run((if ids == [] then [] else [ActionCall(a, ids)]) +
                  ([Publish(cfg.snsTopicArn, cfg.successSubject, text)] +
                   (if cfg.teamsEnabled then [PostJson(cfg.teamsWebhookUrl, text)] else [])),
                  Ok(()))
  {
    var act := BatchRun(a, ids, faults, m);
    assert act.result == Ok(()) by {
      if ids != [] {
        assert faults(m).None?;
      }
    }
    var k := m + |act.calls|;
    assert faults(k).None?;
    if cfg.teamsEnabled {
      assert faults(k + 1).None?;
    }
  }

  /** When none of the page fetches raises, the `try` block fetches every
      page and then acts and reports on the whole selection. */
  lemma TryRunAfterAllPages(cfg: Config, a: Action, pages: seq<Page>, faults: Faults, n: nat)
    requires NoFaultIn(faults, n, n + |pages|)
    ensures var sel := SelectorRun(pages, ScheduleTag(cfg, a).0, ScheduleTag(cfg, a).1, faults, n);
            var ids := SelectedIds(pages, ScheduleTag(cfg, a).0, ScheduleTag(cfg, a).1);
            var rest := ActAndReportRun(cfg, a, ids, faults, n + |pages|);
            TryRun(cfg, a, pages, faults, n) == Run(sel.calls + rest.calls, rest.result)
  {
    SelectorQuiet(pages, ScheduleTag(cfg, a).0, ScheduleTag(cfg, a).1, faults, n);
    TryRunOnSelection(cfg, a, pages, faults, n);
  }

  /** When no remote call raises, the `try` block fetches every page, acts
      on the selection with at most one batched call, reports success once,
      and returns normally. */
  lemma QuietTryRun(cfg: Config, a: Action, pages: seq<Page>, faults: Faults, n: nat)
    requires forall j :: n <= j ==> faults(j).None?
    ensures var ids := SelectedIds(pages, ScheduleTag(cfg, a).0, ScheduleTag(cfg, a).1);
            var text := ReportText(cfg, false, SuccessMessage(a, ids));
            TryRun(cfg, a, pages, faults, n) ==
              Run(DescribeCalls(|pages|) +
                  ((if ids == [] then [] else [ActionCall(a, ids)]) +
                   ([Publish(cfg.snsTopicArn, cfg.successSubject, text)] +
                    (if cfg.teamsEnabled then [PostJson(cfg.teamsWebhookUrl, text)] else []))),
                  Ok(()))
  {
    var ids := SelectedIds(pages, ScheduleTag(cfg, a).0, ScheduleTag(cfg, a).1);
    assert NoFaultIn(faults, n, n + |pages|);
    TryRunAfterAllPages(cfg, a, pages, faults, n);
    SelectorQuiet(pages, ScheduleTag(cfg, a).0, ScheduleTag(cfg, a).1, faults, n);
    QuietActAndReport(cfg, a, ids, faults, n + |pages|);
  }

  /** When no remote call raises, the handler fetches every page, acts on the
      selection with at most one batched call, and sends one success report
      naming the selection (or "None"). */
  lemma SuccessfulInvocation(cfg: Config, action: Option<string>, pages: seq<Page>, faults: Faults, n: nat)
    requires ParseAction(action).Some?
    requires forall j :: n <= j ==> faults(j).None?
    ensures var a := ParseAction(action).value;
            var ids := SelectedIds(pages, ScheduleTag(cfg, a).0, ScheduleTag(cfg, a).1);
            var text := ReportText(cfg, false, SuccessMessage(a, ids));
            HandlerRun(cfg, action, pages, faults, n) ==
              Run(DescribeCalls(|pages|) +
                  ((if ids == [] then [] else [ActionCall(a, ids)]) +
                   ([Publish(cfg.snsTopicArn, cfg.successSubject, text)] +
                    (if cfg.teamsEnabled then [PostJson(cfg.teamsWebhookUrl, text)] else []))),
                  Ok(()))
  {
    QuietTryRun(cfg, ParseAction(action).value, pages, faults, n);
  }
}
