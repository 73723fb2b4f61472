/** The environment variables the handlers read at import time, passed in as
    one record, and the header/footer wrapping that the two batched handlers
    apply to every report. */
module Settings {
  import opened Effects

  datatype Config = Config(
    snsTopicArn: string,
    errorSubject: string,
    errorHeader: string,
    errorFooter: string,
    successSubject: string,
    successHeader: string,
    successFooter: string,
    teamsEnabled: bool,        // MS_TEAMS_REPORTING_ENABLED, already compared with "true"
    teamsWebhookUrl: string,
    startTagKey: string,
    startTagValue: string,
    stopTagKey: string,
    stopTagValue: string,
    instanceIds: string)       // EC2_INSTANCE_IDS, before splitting

  /** The subject the email of a report carries. */
  function Subject(cfg: Config, error: bool): string
  {
    if error then cfg.errorSubject else cfg.successSubject
  }

  /** `f"{HEADER}\n{message}\n{FOOTER}"` with the pair the error flag picks. */
  function ReportText(cfg: Config, error: bool, message: string): string
  {
    if error then cfg.errorHeader + "\n" + message + "\n" + cfg.errorFooter
    else cfg.successHeader + "\n" + message + "\n" + cfg.successFooter
  }

  /** The tag pair an action selects instances by. */
  function ScheduleTag(cfg: Config, a: Action): (string, string)
  {
    match a
    case Start => (cfg.startTagKey, cfg.startTagValue)
    case Stop => (cfg.stopTagKey, cfg.stopTagValue)
  }

  /** The wrapped report carries the message unchanged between the chosen
      header and footer, each on its own line. */
  lemma ReportTextFraming(cfg: Config, error: bool, message: string)
    ensures var header := if error then cfg.errorHeader else cfg.successHeader;
            var footer := if error then cfg.errorFooter else cfg.successFooter;
            var r := ReportText(cfg, error, message);
            |r| == |header| + |message| + |footer| + 2 &&
            r[..|header|] == header && r[|header|] == '\n' &&
            r[|header| + 1..|header| + 1 + |message|] == message &&
            r[|header| + 1 + |message|] == '\n' &&
            r[|header| + 2 + |message|..] == footer
  {
  }

  /** Wrapping loses nothing: two different messages never give the same
      report under the same flag. */
  lemma ReportTextInjective(cfg: Config, error: bool, m1: string, m2: string)
    requires ReportText(cfg, error, m1) == ReportText(cfg, error, m2)
    ensures m1 == m2
  {
    ReportTextFraming(cfg, error, m1);
    ReportTextFraming(cfg, error, m2);
  }
}
