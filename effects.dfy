/** The remote world every handler variant talks to, seen as a log of the
    calls it issues (EC2 inventory pages, EC2 start/stop, SNS publish, the
    Teams webhook POST) and an oracle that says which of those calls raise. */
module Effects {

  datatype Option<+T> = None | Some(value: T)

  /** The Python exception classes the handlers tell apart: only the webhook
      senders catch `requests.exceptions.RequestException` specifically;
      the newest handler raises `ValueError` on a bad action; everything
      else is a plain `Exception` as far as the code is concerned. */
  datatype ErrorKind = RequestsError | ValueError | OtherError

  /** A raised exception: its class and `str(e)`. */
  datatype Error = Error(kind: ErrorKind, text: string)

  /** Normal return (with a value) or a raised exception. */
  datatype Result<+T> = Ok(value: T) | Err(error: Error)

  /** The two actions an invocation may request. */
  datatype Action = Start | Stop

  /** One remote call, with the arguments that the code passes. */
  datatype Call =
    | DescribeInstancesPage(page: nat)
    | StartInstances(ids: seq<string>)
    | StopInstances(ids: seq<string>)
    | Publish(topic: string, subject: string, message: string)
    | PostJson(url: string, text: string)

  /** The calls a piece of code issues and how it ends. */
  datatype Run<+T> = Run(calls: seq<Call>, result: Result<T>)

  /** `faults(k)` is the exception raised by the k-th call of the log, if any. */
  type Faults = nat -> Option<Error>

  /** How the k-th remote call returns. */
  function Reply(faults: Faults, k: nat): Result<()>
  {
    match faults(k)
    case Some(e) => Err(e)
    case None => Ok(())
  }

  /** None of the calls at log positions `lo` to `hi - 1` raises. */
  ghost predicate NoFaultIn(faults: Faults, lo: nat, hi: nat)
  {
    forall j :: lo <= j < hi ==> faults(j).None?
  }

  /** A quiet range extends by one quiet call. */
  lemma NoFaultExtend(faults: Faults, lo: nat, hi: nat)
    requires NoFaultIn(faults, lo, hi) && faults(hi).None?
    ensures NoFaultIn(faults, lo, hi + 1)
  {
  }

  /** A run that swallows nothing: when it returns normally none of its
      calls raised, and when it raises it ends at the first call that
      raised, every earlier call having returned, with that call's
      exception. */
  ghost predicate Transparent<T>(run: Run<T>, faults: Faults, n: nat)
  {
    (run.result.Ok? ==> NoFaultIn(faults, n, n + |run.calls|)) &&
    (run.result.Err? ==> |run.calls| >= 1 && NoFaultIn(faults, n, n + |run.calls| - 1) &&
                         faults(n + |run.calls| - 1) == Some(run.result.error))
  }

  /** A transparent run returns normally exactly when none of its calls
      raised. */
  lemma TransparentOkIff<T>(run: Run<T>, faults: Faults, n: nat)
    requires Transparent(run, faults, n)
    ensures run.result.Ok? <==> NoFaultIn(faults, n, n + |run.calls|)
  {
    if run.result.Err? {
      assert n <= n + |run.calls| - 1 < n + |run.calls|;
    }
  }

  /** Running one transparent piece after another that returned normally is
      transparent: `whole` is the two runs' calls in order, ending as the
      second ends. */
  lemma SequenceTransparent<T, U>(first: Run<T>, second: Run<U>, whole: Run<U>, faults: Faults, n: nat)
    requires Transparent(first, faults, n) && first.result.Ok?
    requires Transparent(second, faults, n + |first.calls|)
    requires whole == Run(first.calls + second.calls, second.result)
    ensures Transparent(whole, faults, n)
  {
    var m := n + |first.calls|;
    if NoFaultIn(faults, n, n + |whole.calls|) {
      assert NoFaultIn(faults, m, m + |second.calls|);
    }
    if second.result.Ok? {
      forall j | n <= j < n + |whole.calls| ensures faults(j).None? {
        if j >= m {
          assert m <= j < m + |second.calls|;
        }
      }
    }
  }

  /** Passing on the exception of a transparent run that raised, after the
      same calls, is transparent. */
  lemma ReraiseTransparent<T, U>(run: Run<T>, whole: Run<U>, faults: Faults, n: nat)
    requires Transparent(run, faults, n) && run.result.Err?
    requires whole == Run(run.calls, Err(run.result.error))
    ensures Transparent(whole, faults, n)
  {
  }

  /** Concatenation regroups freely. */
  lemma AppendAssoc<T>(a: seq<T>, b: seq<T>, c: seq<T>)
    ensures a + b + c == a + (b + c)
  {
  }

  /** The batched EC2 call for an action. */
  function ActionCall(a: Action, ids: seq<string>): Call
  {
    match a
    case Start => StartInstances(ids)
    case Stop => StopInstances(ids)
  }

  /** `event.get('action')` compared against "start" and "stop": each of
      the two names selects its own action, anything else none. */
  function ParseAction(raw: Option<string>): (a: Option<Action>)
    ensures a.None? <==> raw != Some("start") && raw != Some("stop")
    ensures a.Some? ==> raw == Some(Verb(a.value))
  {
    if raw == Some("start") then Some(Start)
    else if raw == Some("stop") then Some(Stop)
    else None
  }

  /** The action's name as it appears in the event. */
  function Verb(a: Action): string
  {
    match a
    case Start => "start"
    case Stop => "stop"
  }

  /** The remote services of one invocation: the calls issued so far and the
      oracle deciding which of them raise. */
  class Cloud {
    var log: seq<Call>
    const faults: Faults

    constructor (faults: Faults)
      ensures log == [] && this.faults == faults
    {
      log := [];
      this.faults := faults;
    }

    /** Issues one remote call: it is appended to the log, and it raises
        exactly when the oracle says so for its position. */
    method Invoke(c: Call) returns (r: Result<()>)
      modifies this
      ensures log == old(log) + [c]
      ensures r == Reply(faults, |old(log)|)
    {
      r := Reply(faults, |log|);
      log := log + [c];
    }
  }

  /** A Python list of instance ids owned by a caller and appended to in
      place by the functions it is passed to (`failed_instances`). */
  class IdList {
    var items: seq<string>

    constructor ()
      ensures items == []
    {
      items := [];
    }

    method Append(id: string)
      modifies this
      ensures items == old(items) + [id]
    {
      items := items + [id];
    }
  }
}
