/** The senders of the oldest lambda: a Teams post with no enable flag, and
    an error email sent only when some instance failed. Its per-instance
    start and stop functions are those of `InstanceActuator`. */
module LegacyNotifier {
  import opened Effects
  import opened PyText
  import opened Settings

  /** The calls of `send_message_to_teams` at log position `n`: always one
      POST to the configured webhook; a request failure is swallowed, any
      other exception propagates. */
  function TeamsRun(cfg: Config, message: string, faults: Faults, n: nat): Run<()>
  {
    var outcome := match faults(n)
      case Some(e) => if e.kind == RequestsError then Ok(()) else Err(e)
      case None => Ok(());
    Run([PostJson(cfg.teamsWebhookUrl, message)], outcome)
  }

  /** `send_message_to_teams`; the webhook URL is `TEAMS_WEBHOOK_URL`. */
  method SendMessageToTeams(cloud: Cloud, cfg: Config, message: string) returns (r: Result<()>)
    modifies cloud
    ensures var run := TeamsRun(cfg, message, cloud.faults, |old(cloud.log)|);
            cloud.log == old(cloud.log) + run.calls && r == run.result
  {
    r := cloud.Invoke(PostJson(cfg.teamsWebhookUrl, message));
    if r.Err? && r.error.kind == RequestsError {
      r := Ok(());
    }
  }

  /** The post goes out whatever the configuration says, carries the
      message as it is, and raises only with what it raised itself when
      that is not a request error. */
  lemma TeamsAlwaysPosts(cfg: Config, message: string, faults: Faults, n: nat)
    ensures var run := TeamsRun(cfg, message, faults, n);
            run.calls == [PostJson(cfg.teamsWebhookUrl, message)] &&
            (run.result.Err? <==> faults(n).Some? && faults(n).value.kind != RequestsError) &&
            (run.result.Err? ==> run.result.error == faults(n).value)
  {
  }

  /** The fixed subject of the error email. */
  const ErrorSubject: string := "EC2 Instance Stop/Start Errors"

  /** The fixed first line of the error email. */
  const ErrorIntro: string := "The following EC2 instances failed to stop or start:\n"

  /** The body of the error email. */
  function ErrorMessage(failed: seq<string>): string
  {
    ErrorIntro + Join("\n", failed)
  }

  /** The calls of `send_error_notification`: nothing for an empty list,
      otherwise one publish; it never raises. */
  function ErrorNotificationCalls(cfg: Config, failed: seq<string>): seq<Call>
  {
    if failed == [] then [] else [Publish(cfg.snsTopicArn, ErrorSubject, ErrorMessage(failed))]
  }

  /** `send_error_notification`: a failed publish is swallowed. */
  method SendErrorNotification(cloud: Cloud, cfg: Config, failed: seq<string>)
    modifies cloud
    ensures cloud.log == old(cloud.log) + ErrorNotificationCalls(cfg, failed)
  {
    if failed == [] {
      return;
    }
    var _ := cloud.Invoke(Publish(cfg.snsTopicArn, ErrorSubject, ErrorMessage(failed)));
  }

  /** No email without a failure; with one, exactly one email to the
      configured topic under the fixed subject. */
  lemma ErrorNotificationOnlyOnFailure(cfg: Config, failed: seq<string>)
    ensures var calls := ErrorNotificationCalls(cfg, failed);
            (calls == [] <==> failed == []) &&
            (failed != [] ==> |calls| == 1 && calls[0].Publish? &&
                              calls[0].topic == cfg.snsTopicArn && calls[0].subject == ErrorSubject)
  {
  }

  /** The email body is the fixed first line followed by the failed ids one
      per line, in order: stripping that line and splitting the rest at line
      breaks gives the list back when no id holds a line break. */
  lemma ErrorMessageListsFailed(failed: seq<string>)
    requires failed != []
    requires forall k :: 0 <= k < |failed| ==> '\n' !in failed[k]
    ensures |ErrorMessage(failed)| >= |ErrorIntro| && ErrorMessage(failed)[..|ErrorIntro|] == ErrorIntro
    ensures Split(ErrorMessage(failed)[|ErrorIntro|..], '\n') == failed
  {
    assert ErrorMessage(failed)[|ErrorIntro|..] == Join("\n", failed);
    SplitJoin(failed, '\n');
  }
}
