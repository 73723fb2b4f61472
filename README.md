# EC2 start/stop lambdas: a Dafny model

This project models four AWS Lambda handlers that start or stop EC2
instances on a schedule and report the outcome by SNS email and,
optionally, a Microsoft Teams webhook. The four are:

- **Fail-fast tag-scheduled handler** (`FailFastHandler`). It selects
  instances by a schedule tag over the paginated `describe_instances`
  listing. It starts or stops them in one batched call and sends a success
  report. An action other than "start" or "stop" raises at once, with no
  report. Any failure inside the `try` block is reported once as an error
  and then re-raised, unless that report raises in turn.
- **Swallowing tag-scheduled handler** (`SwallowingHandler`). It has the
  same shape, but Teams is posted before email. A failed email, a failed
  start or stop call and a request error from Teams are re-raised as new
  plain exceptions that carry the cause; a failed page call and any other
  exception from the Teams post propagate unchanged. The handler reports a
  failure and then returns normally, unless that error report raises in
  turn.
- **Collecting handler** (`CollectingHandler`). It splits a configured
  comma-separated id list and makes one call per id. Failed ids go into a
  list instead of being raised. It sends a success report naming every id
  and, when some call failed, a follow-up error report listing the failed
  ids.
- **Legacy notifier** (`LegacyNotifier`). It holds the Teams sender and the
  error email of the oldest lambda. Its per-instance start and stop
  functions are shared with the collecting handler (`InstanceActuator`).

Shared pieces:

- `Effects` models every remote call (EC2, SNS, the webhook) as an entry
  in a call log held by a `Cloud` object. A fault oracle `faults` says
  which call, by its position in the log, raises and with what exception.
  Each handler therefore has two parts:
  - a method that appends its calls to `cloud.log`;
  - a pure `...Run` function giving the calls and the outcome for any
    oracle.
  Each method's `ensures` ties the two together. The properties are
  lemmas about the `...Run` functions.
- `TagSelector` is the instance selector. It appears twice in the code.
  The two copies differ in signature, type hints and docstring, but their
  loop bodies are the same, so it is modelled once.
- `Settings` holds the environment configuration as a record, and the
  header/footer wrapping of reports.
- `PyText` covers Python's `lower`, `join`, `split`, `in` on strings and
  `repr` of a list of strings.

The model keeps these quirks of the code:
- the fail-fast success message builds its verb as `f"{action}ed"`, so a
  stop reads "stoped";
- the swallowing reporter posts to Teams before it emails;
- the swallowing handler words a failed stop "Failed to start instance";
- the swallowing handler has no empty-list guard, so it sends `[]` to EC2;
- the collecting handler splits an empty id string into `[""]` and so
  makes one call with the empty id.

Source paths in the table are relative to the repository root.

## Model

| member | source | states |
|---|---|---|
| Effects.ParseAction | modules/terraform-aws-automate-ec2-start-stop/lambda/automate-ec2-start-stop.py:175-178 | The action is rejected exactly when `event.get('action')` is neither "start" nor "stop" (missing included); "start" gives Start and "stop" gives Stop. |
| Effects.Cloud.Invoke | automate-ec2-start-stop/index.py:24-113 | Every remote call is appended to the log and raises exactly when the oracle says so for its position. |
| Effects.IdList.Append | automate-ec2-start-stop/index.py:93 | `failed_instances.append(id)` extends the caller's list in place by that id. |
| Effects.TransparentOkIff | modules/terraform-aws-automate-ec2-start-stop/lambda/automate-ec2-start-stop.py:180-193 | A run that swallows nothing returns normally iff none of its calls raised. |
| Effects.SequenceTransparent | modules/terraform-aws-automate-ec2-start-stop/lambda/automate-ec2-start-stop.py:180-193 | A piece that swallows nothing, run after one that returned normally and swallowed nothing, gives a whole that swallows nothing: the whole returns iff no call raised, and otherwise ends at the first raising call, with its exception, every earlier call having returned. |
| Effects.ReraiseTransparent | modules/terraform-aws-automate-ec2-start-stop/lambda/automate-ec2-start-stop.py:191-193 | Re-raising the exception of a run that swallowed nothing, after the same calls, swallows nothing. |
| PyText.Join | modules/terraform-aws-automate-ec2-start-stop/lambda/automate-ec2-start-stop.py:189 | `sep.join(parts)`: the parts in order with the separator between neighbours; its properties are `JoinContainsEach`, `JoinInjective` and `SplitJoin`. |
| PyText.Lower | modules/terraform-aws-automate-ec2-start-stop/lambda/automate-ec2-start-stop.py:117 | `lower()` keeps the length and lower-cases each character. |
| PyText.JoinContainsEach | modules/terraform-aws-automate-ec2-start-stop/lambda/automate-ec2-start-stop.py:189 | Every part of a `join` occurs in the joined string. |
| PyText.Split | automate-ec2-start-stop/index.py:21 | `split(sep)` gives at least one piece, no piece holds the separator, and joining the pieces with it gives the string back. |
| PyText.JoinInjective | automate-ec2-start-stop/index.py:141 | Joining separator-free parts is injective. |
| PyText.SplitJoin | automate-ec2-start-stop/index.py:21 | Splitting a join of separator-free parts gives the parts back. |
| PyText.StrRepr | modules/terraform-aws-automate-ec2-start-stop/lambda/automate-ec2-start-stop/index.py:127 | `repr` of one string is enclosed in the quote character Python picks: a double quote only when the string holds a single quote and no double quote. |
| PyText.StrReprs | modules/terraform-aws-automate-ec2-start-stop/lambda/automate-ec2-start-stop/index.py:127 | One `repr` per element, each the `StrRepr` of the element at the same position. |
| PyText.ListRepr | modules/terraform-aws-automate-ec2-start-stop/lambda/automate-ec2-start-stop/index.py:127 | A list of strings prints between square brackets, its elements' `repr`s joined with ", ". |
| Settings.ReportText | modules/terraform-aws-automate-ec2-start-stop/lambda/automate-ec2-start-stop.py:83-87 | The report text: the header and footer the error flag picks around the message, one newline on each side; `ReportTextFraming` states the layout. |
| Settings.ReportTextFraming | modules/terraform-aws-automate-ec2-start-stop/lambda/automate-ec2-start-stop.py:83-87 | The wrapped report is the header the flag picks, a newline, the message unchanged, a newline, and the footer. |
| Settings.ReportTextInjective | modules/terraform-aws-automate-ec2-start-stop/lambda/automate-ec2-start-stop/index.py:79-80 | Under one flag, different messages never give the same wrapped report. |
| TagSelector.FirstMatchingTagMeaning | modules/terraform-aws-automate-ec2-start-stop/lambda/automate-ec2-start-stop.py:116-120 | The tag loop breaks at the first tag with the exact key and case-insensitively equal value, and none earlier matches. It finds none iff no tag matches. |
| TagSelector.IsScheduled | modules/terraform-aws-automate-ec2-start-stop/lambda/automate-ec2-start-stop.py:115-120 | An instance is scheduled when the tag loop breaks at some tag; `ScheduledMeaning` states when that is. |
| TagSelector.Select | modules/terraform-aws-automate-ec2-start-stop/lambda/automate-ec2-start-stop.py:114-120 | The ids the instance loop appends for a run of instances, in order; `SelectOrder` and `SelectMembership` state which. |
| TagSelector.SelectedIds | modules/terraform-aws-automate-ec2-start-stop/lambda/automate-ec2-start-stop.py:112-121 | What the selector returns once every page is fetched: `Select` over the flattened listing; `SelectionOrder` and `SelectedMembership` state which ids. |
| TagSelector.ScheduledMeaning | modules/terraform-aws-automate-ec2-start-stop/lambda/automate-ec2-start-stop.py:115-117 | An instance is scheduled iff its `Tags` entry is present and holds a tag with the very key and the value up to case; no `Tags` means never. |
| TagSelector.SelectAppend | modules/terraform-aws-automate-ec2-start-stop/lambda/automate-ec2-start-stop.py:112-120 | Selecting over two runs of instances is selecting over each and concatenating. |
| TagSelector.FlattenAppend | modules/terraform-aws-automate-ec2-start-stop/lambda/automate-ec2-start-stop.py:112-114 | Listing two runs of pages lists each in turn. |
| TagSelector.SelectionAcrossPages | modules/terraform-aws-automate-ec2-start-stop/lambda/automate-ec2-start-stop.py:112-120 | Pagination loses or repeats nothing: the selection over two runs of pages is the concatenation of the two selections. |
| TagSelector.FlattenPageMembership | modules/terraform-aws-automate-ec2-start-stop/lambda/automate-ec2-start-stop.py:113-114 | An instance is listed on a page iff some reservation of it holds it. |
| TagSelector.FlattenMembership | modules/terraform-aws-automate-ec2-start-stop/lambda/automate-ec2-start-stop.py:112-114 | An instance is listed iff some reservation of some page holds it. |
| TagSelector.SelectSound | modules/terraform-aws-automate-ec2-start-stop/lambda/automate-ec2-start-stop.py:116-118 | Every returned id is the id of a scheduled instance, whose position is returned. |
| TagSelector.SelectComplete | modules/terraform-aws-automate-ec2-start-stop/lambda/automate-ec2-start-stop.py:116-118 | The id of every scheduled instance is returned. |
| TagSelector.SelectMembership | modules/terraform-aws-automate-ec2-start-stop/lambda/automate-ec2-start-stop.py:112-121 | An id is returned iff some instance with that id is scheduled. |
| TagSelector.SelectedMembership | modules/terraform-aws-automate-ec2-start-stop/lambda/automate-ec2-start-stop/index.py:98-109 | The same iff, over all pages and reservations. |
| TagSelector.SelectOrder | modules/terraform-aws-automate-ec2-start-stop/lambda/automate-ec2-start-stop.py:114-120 | The result is the ids of exactly the scheduled instances, in listing order, one per instance however many tags match. The witness positions strictly increase and cover every scheduled instance. |
| TagSelector.SelectionOrder | modules/terraform-aws-automate-ec2-start-stop/lambda/automate-ec2-start-stop.py:112-121 | The same over pages, reservations and instances. |
| TagSelector.PageCountIsLength | modules/terraform-aws-automate-ec2-start-stop/lambda/automate-ec2-start-stop.py:113-114 | Counting a page reservation by reservation counts its listed instances. |
| TagSelector.InstanceCountIsLength | modules/terraform-aws-automate-ec2-start-stop/lambda/automate-ec2-start-stop.py:112-114 | Counting pages page by page counts all listed instances. |
| TagSelector.SelectLength | modules/terraform-aws-automate-ec2-start-stop/lambda/automate-ec2-start-stop.py:114-120 | At most one id per instance. |
| TagSelector.SelectionBounded | modules/terraform-aws-automate-ec2-start-stop/lambda/automate-ec2-start-stop.py:108-121 | The selector never returns more ids than there are instances. |
| TagSelector.FirstMatchCaseInsensitive | modules/terraform-aws-automate-ec2-start-stop/lambda/automate-ec2-start-stop.py:117 | Two configured values that lower-case alike break the tag loop at the same tag. |
| TagSelector.SelectCaseInsensitive | modules/terraform-aws-automate-ec2-start-stop/lambda/automate-ec2-start-stop.py:117-118 | Two configured values that lower-case alike select the same ids from a run of instances. |
| TagSelector.SelectionValueCaseInsensitive | modules/terraform-aws-automate-ec2-start-stop/lambda/automate-ec2-start-stop/index.py:105 | Two configured values that lower-case alike select the same ids from all pages. |
| TagSelector.DescribeCallsInOrder | modules/terraform-aws-automate-ec2-start-stop/lambda/automate-ec2-start-stop.py:109-112 | The listing issues one page call per page, numbered in order. |
| TagSelector.FirstFault | modules/terraform-aws-automate-ec2-start-stop/lambda/automate-ec2-start-stop.py:112 | The number of page calls that return before one raises: all of them are quiet, and the next one raises when it is not the last. |
| TagSelector.FirstFaultAt | modules/terraform-aws-automate-ec2-start-stop/lambda/automate-ec2-start-stop.py:112 | After a quiet prefix, the first raising page call is the one that ends the listing. |
| TagSelector.SelectorOutcome | modules/terraform-aws-automate-ec2-start-stop/lambda/automate-ec2-start-stop.py:108-121 | The pages are fetched in order. The selector stops at the first page call that raises, with its exception and no partial result. When none raises it returns the whole selection. |
| TagSelector.SelectorTransparent | modules/terraform-aws-automate-ec2-start-stop/lambda/automate-ec2-start-stop.py:108-121 | The selector swallows nothing. |
| TagSelector.SelectorQuiet | modules/terraform-aws-automate-ec2-start-stop/lambda/automate-ec2-start-stop.py:108-121 | With no raising page call, every page is fetched and the selection is returned. |
| TagSelector.SelectorStopsAt | modules/terraform-aws-automate-ec2-start-stop/lambda/automate-ec2-start-stop.py:112 | With the page call at `p` the first to raise, the selector makes `p + 1` calls and raises that exception. |
| TagSelector.SelectedIdsStep | modules/terraform-aws-automate-ec2-start-stop/lambda/automate-ec2-start-stop.py:112-120 | One more fetched page appends that page's selection. |
| TagSelector.CollectReservation | modules/terraform-aws-automate-ec2-start-stop/lambda/automate-ec2-start-stop.py:114-120 | The instance loop with its breaking tag loop appends exactly the selection of the reservation. |
| TagSelector.SelectPageStep | modules/terraform-aws-automate-ec2-start-stop/lambda/automate-ec2-start-stop.py:113 | One more reservation appends that reservation's selection. |
| TagSelector.CollectPage | modules/terraform-aws-automate-ec2-start-stop/lambda/automate-ec2-start-stop.py:113-120 | The reservation loop appends exactly the selection of the page. |
| TagSelector.GetInstanceIdsByScheduleTag | modules/terraform-aws-automate-ec2-start-stop/lambda/automate-ec2-start-stop.py:97-121 | `get_ec2_instance_ids_by_schedule_tag` issues the calls of the selector run and ends with its outcome. |
| FailFastHandler.SendEmailNotification | modules/terraform-aws-automate-ec2-start-stop/lambda/automate-ec2-start-stop.py:26-46 | One publish with the given subject and message; its failure is re-raised unchanged. |
| FailFastHandler.SendTeamsNotification | modules/terraform-aws-automate-ec2-start-stop/lambda/automate-ec2-start-stop.py:48-68 | One POST of the message to the webhook; any failure comes out unchanged. |
| FailFastHandler.LogAndReportProcessResults | modules/terraform-aws-automate-ec2-start-stop/lambda/automate-ec2-start-stop.py:70-95 | The reporter issues the calls of `ReportRun` and ends with its outcome. |
| FailFastHandler.ReportChannels | modules/terraform-aws-automate-ec2-start-stop/lambda/automate-ec2-start-stop.py:83-95 | It always emails the wrapped text with the subject the flag picks. It posts the same text iff Teams is enabled and the email went out. It raises iff one of its calls raised, with that exception. |
| FailFastHandler.ActuateBatch | modules/terraform-aws-automate-ec2-start-stop/lambda/automate-ec2-start-stop.py:123-161 | `start_ec2_instances`/`stop_ec2_instances` issue the calls of `BatchRun` and end with its outcome. |
| FailFastHandler.BatchContract | modules/terraform-aws-automate-ec2-start-stop/lambda/automate-ec2-start-stop.py:133-141 | An empty list makes no call and returns normally. Any other list is sent in exactly one call carrying exactly it, whose exception is re-raised unchanged. |
| FailFastHandler.SuccessMessage | modules/terraform-aws-automate-ec2-start-stop/lambda/automate-ec2-start-stop.py:189 | The success text: the action's name with "ed" appended, then the ids joined by ", ", or "None" for an empty selection; `SuccessMessageNamesIds` and the wording lemmas state its content. |
| FailFastHandler.SuccessMessageNamesIds | modules/terraform-aws-automate-ec2-start-stop/lambda/automate-ec2-start-stop.py:189 | The success message names every acted-on id. |
| FailFastHandler.SuccessMessageStartWording | modules/terraform-aws-automate-ec2-start-stop/lambda/automate-ec2-start-stop.py:189 | An empty start selection reads "Successfully started EC2 instances: None". |
| FailFastHandler.SuccessMessageStopWording | modules/terraform-aws-automate-ec2-start-stop/lambda/automate-ec2-start-stop.py:189 | For stop the f-string spells "stoped". |
| FailFastHandler.ActAndReport | modules/terraform-aws-automate-ec2-start-stop/lambda/automate-ec2-start-stop.py:184-190 | Acting on the selection, then reporting success. |
| FailFastHandler.TryRunOnSelectorError | modules/terraform-aws-automate-ec2-start-stop/lambda/automate-ec2-start-stop.py:183 | A raising selector ends the `try` block with its exception: nothing is acted on and no success report is sent. |
| FailFastHandler.TryRunOnSelection | modules/terraform-aws-automate-ec2-start-stop/lambda/automate-ec2-start-stop.py:181-190 | A returning selector is followed by acting and reporting on its result. |
| FailFastHandler.TryBlock | modules/terraform-aws-automate-ec2-start-stop/lambda/automate-ec2-start-stop.py:180-190 | The `try` block issues the calls of `TryRun` and ends with its outcome. |
| FailFastHandler.Handler | modules/terraform-aws-automate-ec2-start-stop/lambda/automate-ec2-start-stop.py:163-193 | `handler` issues the calls of `HandlerRun` and ends with its outcome. |
| FailFastHandler.InvalidActionRaisesFirst | modules/terraform-aws-automate-ec2-start-stop/lambda/automate-ec2-start-stop.py:175-178 | A missing or unknown action raises `ValueError` with the fixed text before any remote call. |
| FailFastHandler.ActAndReportTransparent | modules/terraform-aws-automate-ec2-start-stop/lambda/automate-ec2-start-stop.py:184-190 | Acting and reporting swallow nothing. |
| FailFastHandler.AfterSelectionTransparent | modules/terraform-aws-automate-ec2-start-stop/lambda/automate-ec2-start-stop.py:181-190 | Whatever selector run swallowed nothing, following it by acting and reporting on its result swallows nothing. |
| FailFastHandler.TryRunTransparent | modules/terraform-aws-automate-ec2-start-stop/lambda/automate-ec2-start-stop.py:180-190 | The whole `try` block swallows nothing. |
| FailFastHandler.HandlerOkIffNoFault | modules/terraform-aws-automate-ec2-start-stop/lambda/automate-ec2-start-stop.py:180-193 | For a valid action the handler returns normally iff none of its remote calls raised. |
| FailFastHandler.FailureReportedThenRaised | modules/terraform-aws-automate-ec2-start-stop/lambda/automate-ec2-start-stop.py:191-193 | A failure in selection, actuation or the success report is followed by exactly one error report carrying `str(e)`. Then `e` is re-raised, unless that report raised in turn. |
| FailFastHandler.QuietActAndReport | modules/terraform-aws-automate-ec2-start-stop/lambda/automate-ec2-start-stop.py:184-190 | Without faults, acting and reporting make at most one batched call, then the success email and, when enabled, the Teams post, and return. |
| FailFastHandler.QuietTryRun | modules/terraform-aws-automate-ec2-start-stop/lambda/automate-ec2-start-stop.py:180-190 | Without faults the `try` block fetches every page, makes at most one batched call with the selection, then emails the success text and, when enabled, posts it, and returns. |
| FailFastHandler.TryRunAfterAllPages | modules/terraform-aws-automate-ec2-start-stop/lambda/automate-ec2-start-stop.py:181-190 | With no raising page call, the `try` block fetches every page, then acts and reports on the whole selection. |
| FailFastHandler.SuccessfulInvocation | modules/terraform-aws-automate-ec2-start-stop/lambda/automate-ec2-start-stop.py:163-190 | Without faults the handler makes exactly these calls and returns: every page, at most one batched call, one success email naming the selection (or "None"), and the Teams post when enabled. |
| SwallowingHandler.EmailFailureText | modules/terraform-aws-automate-ec2-start-stop/lambda/automate-ec2-start-stop/index.py:40 | The text of the exception that replaces a failed SNS publish: the fixed prefix and then `str(e)`. |
| SwallowingHandler.TeamsFailureText | modules/terraform-aws-automate-ec2-start-stop/lambda/automate-ec2-start-stop/index.py:64 | The text of the exception that replaces a failed webhook request: the fixed prefix and then `str(e)`. |
| SwallowingHandler.BatchFailureText | modules/terraform-aws-automate-ec2-start-stop/lambda/automate-ec2-start-stop/index.py:127 | The text of the exception that replaces a failed start or stop call: "Failed to start instance", the list as an f-string prints it, and `str(e)`. |
| SwallowingHandler.SendEmailNotification | modules/terraform-aws-automate-ec2-start-stop/lambda/automate-ec2-start-stop/index.py:21-40 | One publish; a failure is re-raised as a new plain exception whose text carries the cause. |
| SwallowingHandler.SendTeamsNotification | modules/terraform-aws-automate-ec2-start-stop/lambda/automate-ec2-start-stop/index.py:42-64 | No call when disabled. Otherwise one POST, whose request failure is re-raised as a new plain exception. |
| SwallowingHandler.LogAndReportProcessResults | modules/terraform-aws-automate-ec2-start-stop/lambda/automate-ec2-start-stop/index.py:66-83 | The reporter issues the calls of `ReportRun` and ends with its outcome. |
| SwallowingHandler.ReportOrder | modules/terraform-aws-automate-ec2-start-stop/lambda/automate-ec2-start-stop/index.py:79-83 | It posts to Teams first when enabled, and posts nothing (sending just the email) when disabled. It emails the same wrapped text with the flag's subject iff Teams is disabled or the post went out. It returns iff no call raised. |
| SwallowingHandler.ReportOkIff | modules/terraform-aws-automate-ec2-start-stop/lambda/automate-ec2-start-stop/index.py:79-83 | The reporter returns normally iff none of its calls raised. |
| SwallowingHandler.ReportCallKinds | modules/terraform-aws-automate-ec2-start-stop/lambda/automate-ec2-start-stop/index.py:79-83 | The reporter makes only webhook posts and SNS publishes. |
| SwallowingHandler.TeamsFailure | modules/terraform-aws-automate-ec2-start-stop/lambda/automate-ec2-start-stop/index.py:59-64 | A request failure becomes a plain exception naming Teams and carrying the cause; anything else propagates unchanged. |
| SwallowingHandler.ActuateBatch | modules/terraform-aws-automate-ec2-start-stop/lambda/automate-ec2-start-stop/index.py:112-144 | `start_ec2_instance`/`stop_ec2_instance` issue the calls of `BatchRun` and end with its outcome. |
| SwallowingHandler.BatchContract | modules/terraform-aws-automate-ec2-start-stop/lambda/automate-ec2-start-stop/index.py:123-127 | With no empty-list guard, every list, `[]` included, is sent in exactly one call. It raises iff that call did, with a text saying the instances failed to start. |
| SwallowingHandler.StopFailureSaysStart | modules/terraform-aws-automate-ec2-start-stop/lambda/automate-ec2-start-stop/index.py:126-127 | A failed stop is re-raised as "[ERROR]: Failed to start instance [...". |
| SwallowingHandler.SuccessMessage | modules/terraform-aws-automate-ec2-start-stop/lambda/automate-ec2-start-stop/index.py:161 | The success text for the action, ending in a join of the empty list; `SuccessMessageWording` states what it evaluates to. |
| SwallowingHandler.SuccessMessageWording | modules/terraform-aws-automate-ec2-start-stop/lambda/automate-ec2-start-stop/index.py:161 | The success messages join an empty list and so name no instance. |
| SwallowingHandler.TryBlock | modules/terraform-aws-automate-ec2-start-stop/lambda/automate-ec2-start-stop/index.py:157-167 | The `try` block issues the calls of `TryRun` and ends with its outcome. |
| SwallowingHandler.Handler | modules/terraform-aws-automate-ec2-start-stop/lambda/automate-ec2-start-stop/index.py:146-169 | `handler` issues the calls of `HandlerRun` and ends with its outcome. |
| SwallowingHandler.InvalidActionRaisesFirst | modules/terraform-aws-automate-ec2-start-stop/lambda/automate-ec2-start-stop/index.py:153-155 | A missing or unknown action raises the fixed plain exception before any remote call. |
| SwallowingHandler.FailureReportedAndSwallowed | modules/terraform-aws-automate-ec2-start-stop/lambda/automate-ec2-start-stop/index.py:168-169 | A failure in the `try` block is followed by exactly one error report carrying `str(e)`. The handler returns iff none of that report's calls raised. |
| SwallowingHandler.RaisesOnlyFromErrorReport | modules/terraform-aws-automate-ec2-start-stop/lambda/automate-ec2-start-stop/index.py:157-169 | For a valid action the handler raises iff the `try` block failed and the error report raised in turn. |
| SwallowingHandler.AsWrittenOnlyReportsNameError | modules/terraform-aws-automate-ec2-start-stop/lambda/automate-ec2-start-stop/index.py:159 | As written, every valid invocation fails on the undefined `tag_key` before any call. It only sends the error report naming it, and makes no EC2 call. |
| SwallowingHandler.SuccessfulInvocation | modules/terraform-aws-automate-ec2-start-stop/lambda/automate-ec2-start-stop/index.py:157-167 | Given a selection and no faults: one batched call, then the Teams post when enabled, then the success email, then a normal return. |
| InstanceActuator.ActuateInstance | lambda/index.py:38-76 | One call with `[id]`. The id is appended to `failed_instances` iff that call raised, and nothing is raised. |
| InstanceActuator.OneCallPerId | automate-ec2-start-stop/index.py:123-130 | A loop over ids makes one call per id, in order, each with that id alone. |
| InstanceActuator.LoopCallsLength | automate-ec2-start-stop/index.py:123-130 | The loop makes exactly one call per id. |
| InstanceActuator.FailedOrder | automate-ec2-start-stop/index.py:92-93 | The failure list is exactly the subsequence of ids whose call raised, in order. |
| InstanceActuator.FailedEmptyIff | automate-ec2-start-stop/index.py:140 | The failure list is empty iff none of the loop's calls raised. |
| CollectingHandler.InstanceIdList | automate-ec2-start-stop/index.py:18-21 | `EC2_INSTANCE_IDS.split(",")`; `EmptyIdStringGivesOneEmptyId` and `IdListRoundTrip` state what it gives. |
| CollectingHandler.EmptyIdStringGivesOneEmptyId | automate-ec2-start-stop/index.py:18-21 | An unset or empty id string gives the list `[""]`. |
| CollectingHandler.IdListRoundTrip | automate-ec2-start-stop/index.py:21 | A comma-joined list of comma-free ids splits back into that list. |
| CollectingHandler.SendEmailNotification | automate-ec2-start-stop/index.py:24-43 | One publish; its failure is swallowed. |
| CollectingHandler.SendTeamsNotification | automate-ec2-start-stop/index.py:46-68 | No call when disabled. Otherwise one POST: a request failure is swallowed and any other exception propagates. |
| CollectingHandler.ReportStatus | automate-ec2-start-stop/index.py:70-76 | `report_status` issues the calls of `ReportStatusRun` and ends with its outcome. |
| CollectingHandler.ReportStatusChannels | automate-ec2-start-stop/index.py:70-76 | It always emails the unwrapped message with the flag's subject, then posts it when enabled. It raises only with a non-request exception from that post. |
| CollectingHandler.ActOnEach | automate-ec2-start-stop/index.py:123-130 | The loop makes the calls of `LoopCalls` and extends the failure list by `FailedIds`. |
| CollectingHandler.Reports | automate-ec2-start-stop/index.py:126-138 | The success report and, if it raised, the error report of the `except` clause. |
| CollectingHandler.TryRunAfterLoop | automate-ec2-start-stop/index.py:122-132 | The `try`/`except` part makes exactly one loop call per id, and its reports start right after them. |
| CollectingHandler.TryBlock | automate-ec2-start-stop/index.py:122-138 | The `try`/`except` part issues the calls of `TryRun` and ends with its outcome. |
| CollectingHandler.FollowUp | automate-ec2-start-stop/index.py:140-142 | The follow-up issues the calls of `FollowUpRun` and ends with its outcome. |
| CollectingHandler.Handler | automate-ec2-start-stop/index.py:115-142 | `handler` issues the calls of `HandlerRun` and ends with its outcome. |
| CollectingHandler.UnknownActionDoesNothing | automate-ec2-start-stop/index.py:133-135 | An unknown action makes no call, sends no report and returns normally. |
| CollectingHandler.ReportsOpenWithSuccess | automate-ec2-start-stop/index.py:126-132 | The reports open with the success email. |
| CollectingHandler.SuccessMessage | automate-ec2-start-stop/index.py:126-131 | The success text: "started" or "stopped", then every configured id joined by ", "; `SuccessMessageNamesEachId` states its content. |
| CollectingHandler.ErrorDuringText | automate-ec2-start-stop/index.py:137 | The text of the `except` report: the action, the id list as an f-string prints it, and `str(e)`. |
| CollectingHandler.FailedText | automate-ec2-start-stop/index.py:141 | The text of the follow-up report: the action and then the failed ids, one per line. |
| CollectingHandler.SuccessMessageNamesEachId | automate-ec2-start-stop/index.py:126-131 | The success message names every configured id. |
| CollectingHandler.TryRunOpens | automate-ec2-start-stop/index.py:122-132 | The `try`/`except` part opens with one call per id, in order, each with that id alone, followed by the success email. |
| CollectingHandler.ActionRunOpens | automate-ec2-start-stop/index.py:122-142 | So does the whole run of a valid action. |
| CollectingHandler.ActsOnEachIdThenReportsSuccess | automate-ec2-start-stop/index.py:123-132 | For a valid action: one call per id, in order, each with that id alone. Then the success email, whatever failed, naming every id, failed ones included. |
| CollectingHandler.FollowUpIffSomeCallFailed | automate-ec2-start-stop/index.py:140-142 | After a returning `try`/`except`, the follow-up error report is sent iff some EC2 call raised. It lists the failed ids, and its outcome is the handler's. |
| CollectingHandler.ReportRaisesFromTeams | automate-ec2-start-stop/index.py:70-76 | A report raises only at its last call, a Teams post, with a non-request exception. |
| CollectingHandler.RaisesFromTeamsAfter | automate-ec2-start-stop/index.py:122-142 | Calls placed in front of a run that raises only from a Teams post keep that property. |
| CollectingHandler.ReportsRunRaisesFromTeams | automate-ec2-start-stop/index.py:126-138 | So do the reports of the `try` block: the success report and, if it raised, the `except` report. |
| CollectingHandler.ReportsRaiseFromTeams | automate-ec2-start-stop/index.py:122-138 | So do those reports after any calls made before them. |
| CollectingHandler.TryRaisesFromTeams | automate-ec2-start-stop/index.py:122-138 | So does the `try`/`except` part: EC2 failures never raise. |
| CollectingHandler.ActionRaisesFromTeams | automate-ec2-start-stop/index.py:122-142 | So does the whole run of a valid action. |
| CollectingHandler.RaisesOnlyNonRequestTeamsErrors | automate-ec2-start-stop/index.py:115-142 | The handler raises only what its last call, a Teams post, raised, never a request error. EC2 and email failures never escape. |
| LegacyNotifier.SendMessageToTeams | lambda/index.py:16-36 | `send_message_to_teams` issues the calls of `TeamsRun` and ends with its outcome. |
| LegacyNotifier.TeamsAlwaysPosts | lambda/index.py:26-36 | There is always exactly one POST of the message, with no enable flag. It raises iff the post raised a non-request exception, and then with it. |
| LegacyNotifier.SendErrorNotification | lambda/index.py:78-104 | `send_error_notification` issues the calls of `ErrorNotificationCalls`, and a failed publish is swallowed. |
| LegacyNotifier.ErrorNotificationOnlyOnFailure | lambda/index.py:88-101 | No email iff the list is empty. Otherwise exactly one publish to the topic under "EC2 Instance Stop/Start Errors". |
| LegacyNotifier.ErrorMessage | lambda/index.py:91-94 | The body of the error email: the fixed first line and then the failed ids, one per line; `ErrorMessageListsFailed` states what can be read back from it. |
| LegacyNotifier.ErrorMessageListsFailed | lambda/index.py:91-94 | The body is the fixed first line followed by the failed ids. Splitting the rest at line breaks gives the list back when no id holds a line break. |

## Left out

- `print` logging everywhere: it has no effect that the model observes.
- The mechanics of `boto3`, `requests.post`, `raise_for_status`, `json.dumps` and the `describe_instances` paginator. Each call is a log entry. Whether and how it raises is the fault oracle. The pages the paginator would list are an input.
- Whether instances really start or stop: no variant reads the state back.
- `os.environ` reads at import time. The configuration is a `Config` record passed in. Every value is assumed to be a string, with the `MS_TEAMS_REPORTING_ENABLED` comparison already evaluated as a boolean. A missing variable giving `None`, and the crash that causes at lambda/index.py:13, are not modelled.
- PyText.Lower: lower-cases ASCII letters only; Python's Unicode case mapping is not modelled.
- PyText.StrRepr: escapes only quotes, backslash, newline, carriage return and tab; other non-printable characters are left as they are.
- The `describe_instances` paginator always makes at least one request. The model makes one page call per page, so an empty `pages` input, which the paginator never yields, makes no call at all.
- The exception texts of the remote services are opaque strings in the oracle.
- `lambda_handler` in lambda/index.py:106-129 is not runnable. It uses the undefined `EC2_INSTANCE_ID` and `send_sns_message`, and calls `send_error_notification` with two arguments, so it is not modelled.
- SwallowingHandler.Handler: it takes the outcome of the selection step as a parameter. As written, lines 159 and 164 evaluate the undefined `tag_key` and raise `NameError`. `AsWrittenSelection` models that outcome, and `SwallowingHandler.AsWrittenOnlyReportsNameError` states its consequence.
- The f-strings at modules/terraform-aws-automate-ec2-start-stop/lambda/automate-ec2-start-stop/index.py:161 and 166 put a backslash inside the braces. That is a syntax error before Python 3.12. The model follows Python 3.12 and later.
- `context` and the rest of `event`: only `event.get('action')` is read.
