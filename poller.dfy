/**
 * The polling loop of `main` (homework.py): one cycle fetches the payload,
 * validates it, compares the whole list with the one last seen, sends one
 * notification per item when it differs, and on any exception sends an
 * error notification unless the exception's `args` equal the last one's.
 *
 * `Cycle` gives the effect of one iteration on the loop's variables as a
 * function; class `Bot` holds those variables and performs the iteration
 * step by step, as the source does, and is proved to agree with `Cycle`.
 */
module Poller {
  import opened Python
  import opened Homework

  const FailurePrefix := "Сбой в работе программы: "

  /** The text sent for an exception: the f-string `{error}` is `str(error)`. */
  function FailureMessage(e: PyError): (r: string)
    ensures |r| >= |FailurePrefix| && r[..|FailurePrefix|] == FailurePrefix
    ensures |e.args| == 1 && !IsSubclass(e.cls, KeyErr) ==> r[|FailurePrefix|..] == e.args[0]
    ensures |e.args| == 1 && IsSubclass(e.cls, KeyErr) ==> r[|FailurePrefix|..] == StrRepr(e.args[0])
  {
    FailurePrefix + ExcStr(e)
  }

  /**
   * The loop's variables. `lastError` is the last exception caught; the
   * initial value in the source is the class Exception itself, whose `args`
   * attribute is not a tuple and equals no instance's `args`: it is None here.
   */
  datatype PollState = PollState(lastStatus: seq<Value>, lastError: Option<PyError>, currentTimestamp: int)

  /** The state in which the loop is entered. */
  function Initial(startTime: int): (st: PollState)
  {
    PollState([], None, startTime)
  }

  /** The start of `main`: a failed credential check ends the process
      (SystemExit) before the loop, given as None. */
  function Startup(practicumToken: Option<string>, telegramToken: Option<string>,
                   telegramChatId: Option<string>, startTime: int): (r: Option<PollState>)
    ensures r.Some? <==> Present(practicumToken) && Present(telegramToken) && Present(telegramChatId)
    ensures r.Some? ==> r.value.lastStatus == [] && r.value.lastError.None? && r.value.currentTimestamp == startTime
  {
    if CheckTokens(practicumToken, telegramToken, telegramChatId) then Some(Initial(startTime)) else None
  }

  /** What the world supplies to one cycle: the HTTP outcome and the two
      clock readings (the one get_api_answer may take, and the one taken
      after the notifications are sent). */
  datatype CycleInput = CycleInput(fetch: HttpOutcome, fetchNow: int, doneNow: int)

  /** The state after a cycle and the messages it handed to send_message,
      in order. Whether a delivery succeeded has no effect on the state. */
  datatype Transition = Transition(next: PollState, sent: seq<string>)

  /** The `from_date` parameter of the cycle's request. */
  function RequestFromDate(st: PollState, input: CycleInput): (fromDate: int)
  {
    FromDate(st.currentTimestamp, input.fetchNow)
  }

  /** `check_response(get_api_answer(current_timestamp))` */
  function Fetch(input: CycleInput): (r: Result<seq<Value>>)
    ensures input.fetch.RequestFailed? ==> r == Err(PyError(TypeErr, [NotDictMessage]))
    ensures input.fetch.Answered? && input.fetch.statusCode != 200 ==> r == Err(PyError(Exc, [EndpointMessage]))
    ensures input.fetch.Answered? && input.fetch.statusCode == 200 ==> r == CheckResponse(input.fetch.body)
  {
    match ApiAnswer(input.fetch)
    case Err(e) => Err(e)
    case Ok(response) => CheckResponse(response)
  }

  /** The caught exception has the same `args` as the previous one; the
      classes are not compared, and the initial sentinel repeats nothing. */
  predicate IsRepeat(st: PollState, e: PyError)
    ensures st.lastError.None? ==> !IsRepeat(st, e)
    ensures st.lastError.Some? ==> (IsRepeat(st, e) <==> st.lastError.value.args == e.args)
  {
    st.lastError.Some? && st.lastError.value.args == e.args
  }

  /** The except branch, after `sentBefore` were already sent in this cycle. */
  function OnFailure(st: PollState, sentBefore: seq<string>, e: PyError): (t: Transition)
    ensures t.next == PollState(st.lastStatus, Some(e), st.currentTimestamp)
    ensures IsRepeat(t.next, e)
    ensures |t.sent| == |sentBefore| + (if IsRepeat(st, e) then 0 else 1)
    ensures t.sent[..|sentBefore|] == sentBefore
    ensures !IsRepeat(st, e) ==> t.sent[|sentBefore|] == FailureMessage(e)
  {
    if IsRepeat(st, e) then Transition(st.(lastError := Some(e)), sentBefore)
    else Transition(st.(lastError := Some(e)), sentBefore + [FailureMessage(e)])
  }

  /** The notifications produced by the `for` loop before it ends, and the
      exception that ended it early, if any. */
  datatype Formatted = Formatted(messages: seq<string>, failure: Option<PyError>)

  /** Item `k` is the first whose formatting raises. */
  predicate FirstFailureAt(items: seq<Value>, k: int)
  {
    0 <= k < |items| && ParseStatus(items[k]).Err? &&
    forall j :: 0 <= j < k ==> ParseStatus(items[j]).Ok?
  }

  /**
   * Formats the items in list order and stops at the first that raises.
   * Every message is the formatting of the item at its own position; with no
   * failure there is one per item, and with one the messages are exactly
   * those of the items before the first failing item.
   */
  function FormatAll(items: seq<Value>): (f: Formatted)
    ensures |f.messages| <= |items|
    ensures forall j :: 0 <= j < |f.messages| ==> ParseStatus(items[j]) == Ok(f.messages[j])
    ensures f.failure.None? <==> forall j :: 0 <= j < |items| ==> ParseStatus(items[j]).Ok?
    ensures f.failure.None? ==> |f.messages| == |items|
    ensures f.failure.Some? ==>
      FirstFailureAt(items, |f.messages|) && f.failure.value == ParseStatus(items[|f.messages|]).error
    decreases |items|
  {
    if items == [] then Formatted([], None)
    else
      var before := FormatAll(items[..|items| - 1]);
      if before.failure.Some? then before
      else
        match ParseStatus(items[|items| - 1])
        case Ok(m) => Formatted(before.messages + [m], None)
        case Err(e) => Formatted(before.messages, Some(e))
  }

  /** Once a prefix has failed, later items are never formatted. */
  lemma {:induction false} FormatAllStops(items: seq<Value>, k: nat)
    requires k <= |items|
    requires FormatAll(items[..k]).failure.Some?
    ensures FormatAll(items) == FormatAll(items[..k])
    decreases |items| - k
  {
    if k < |items| {
      var init := items[..|items| - 1];
      assert init[..k] == items[..k];
      FormatAllStops(init, k);
    } else {
      assert items[..k] == items;
    }
  }

  /** One iteration of `while True` (homework.py:167-188). */
  function Cycle(st: PollState, input: CycleInput): (t: Transition)
    ensures t.next.lastStatus == st.lastStatus || Fetch(input) == Ok(t.next.lastStatus)
    ensures t.next.currentTimestamp == st.currentTimestamp || t.next.currentTimestamp == input.doneNow
    ensures t.next.lastError == st.lastError
      || (Fetch(input).Err? && t.next.lastError == Some(Fetch(input).error))
      || (Fetch(input).Ok? && FormatAll(Fetch(input).value).failure.Some?
          && t.next.lastError == FormatAll(Fetch(input).value).failure)
  {
    match Fetch(input)
    case Err(e) => OnFailure(st, [], e)
    case Ok(items) =>
      if st.lastStatus == items then Transition(st.(currentTimestamp := input.doneNow), [])
      else
        var f := FormatAll(items);
        if f.failure.Some? then OnFailure(st, f.messages, f.failure.value)
        else Transition(st.(lastStatus := items, currentTimestamp := input.doneNow), f.messages)
  }

  /** A finite prefix of the loop: its cycles in order, their messages
      concatenated. */
  function Run(st: PollState, inputs: seq<CycleInput>): (t: Transition)
    ensures t.next.lastStatus == st.lastStatus
      || exists i :: 0 <= i < |inputs| && Fetch(inputs[i]) == Ok(t.next.lastStatus)
    ensures t.next.currentTimestamp == st.currentTimestamp
      || exists i :: 0 <= i < |inputs| && inputs[i].doneNow == t.next.currentTimestamp
    ensures st.lastError.Some? ==> t.next.lastError.Some?
    ensures inputs == [] ==> t == Transition(st, [])
    decreases |inputs|
  {
    if inputs == [] then Transition(st, [])
    else
      var before := Run(st, inputs[..|inputs| - 1]);
      var last := Cycle(before.next, inputs[|inputs| - 1]);
      Transition(last.next, before.sent + last.sent)
  }

  /** An error remembered after some prefix of a run is still remembered
      (perhaps replaced by a later one) at its end. */
  lemma {:induction false} RunKeepsError(st: PollState, inputs: seq<CycleInput>, i: nat)
    requires i <= |inputs|
    requires Run(st, inputs[..i]).next.lastError.Some?
    ensures Run(st, inputs).next.lastError.Some?
    decreases |inputs| - i
  {
    if i < |inputs| {
      var init := inputs[..|inputs| - 1];
      assert init[..i] == inputs[..i];
      RunKeepsError(st, init, i);
    } else {
      assert inputs[..i] == inputs;
    }
  }

  /** Running one more cycle extends the run by that cycle. */
  lemma RunSnoc(st: PollState, inputs: seq<CycleInput>, i: nat)
    requires i < |inputs|
    ensures Run(st, inputs[..i + 1]).next == Cycle(Run(st, inputs[..i]).next, inputs[i]).next
    ensures Run(st, inputs[..i + 1]).sent == Run(st, inputs[..i]).sent + Cycle(Run(st, inputs[..i]).next, inputs[i]).sent
  {
    assert inputs[..i + 1][..i] == inputs[..i];
  }

  lemma AppendAssoc<T>(a: seq<T>, b: seq<T>, c: seq<T>)
    ensures (a + b) + c == a + (b + c)
  {
  }

  /** The running bot: the loop's variables and the messages sent so far. */
  class Bot {
    var lastStatus: seq<Value>
    var lastError: Option<PyError>
    var currentTimestamp: int
    var sent: seq<string>

    function State(): (st: PollState)
      reads this
    {
      PollState(lastStatus, lastError, currentTimestamp)
    }

    /** The loop variables as `main` sets them before `while True`. */
    constructor (startTime: int)
      ensures State() == Initial(startTime) && sent == []
    {
      lastStatus := [];
      lastError := None;
      currentTimestamp := startTime;
      sent := [];
    }

    /** The except branch. */
    method Report(e: PyError)
      modifies this
      ensures State() == old(State()).(lastError := Some(e))
      ensures sent == old(sent) + if IsRepeat(old(State()), e) then [] else [FailureMessage(e)]
    {
      if lastError.Some? && lastError.value.args == e.args {
        lastError := Some(e);
      } else {
        sent := sent + [FailureMessage(e)];
        lastError := Some(e);
      }
    }

    /** One iteration of the loop; returns the request's `from_date`. */
    method Step(input: CycleInput) returns (fromDate: int)
      modifies this
      ensures fromDate == RequestFromDate(old(State()), input)
      ensures State() == Cycle(old(State()), input).next
      ensures sent == old(sent) + Cycle(old(State()), input).sent
    {
      fromDate := FromDate(currentTimestamp, input.fetchNow);
      var response := ApiAnswer(input.fetch);
      if response.Err? {
        Report(response.error);
        return;
      }
      var checked := CheckResponse(response.value);
      if checked.Err? {
        Report(checked.error);
        return;
      }
      var current := checked.value;
      if lastStatus != current {
        var failure := SendNotifications(current);
        if failure.Some? {
          AppendAssoc(old(sent), FormatAll(current).messages, [FailureMessage(failure.value)]);
          Report(failure.value);
          return;
        }
        lastStatus := current;
      }
      currentTimestamp := input.doneNow;
    }

    /** The `for` loop: one notification per item, in list order, until an
        item raises. */
    method SendNotifications(items: seq<Value>) returns (failure: Option<PyError>)
      modifies this
      ensures failure == FormatAll(items).failure
      ensures sent == old(sent) + FormatAll(items).messages
      ensures State() == old(State())
    {
      var i := 0;
      while i < |items|
        invariant 0 <= i <= |items|
        invariant FormatAll(items[..i]).failure.None?
        invariant sent == old(sent) + FormatAll(items[..i]).messages
        invariant State() == old(State())
      {
        assert items[..i + 1][..i] == items[..i];
        var message := ParseStatus(items[i]);
        if message.Err? {
          FormatAllStops(items, i + 1);
          return Some(message.error);
        }
        AppendAssoc(old(sent), FormatAll(items[..i]).messages, [message.value]);
        sent := sent + [message.value];
        i := i + 1;
      }
      assert items[..i] == items;
      return None;
    }

    /** The loop run for the given cycles (the sleep between them has no
        effect on the state). */
    method RunCycles(inputs: seq<CycleInput>)
      modifies this
      ensures State() == Run(old(State()), inputs).next
      ensures sent == old(sent) + Run(old(State()), inputs).sent
    {
      var i := 0;
      while i < |inputs|
        invariant 0 <= i <= |inputs|
        invariant State() == Run(old(State()), inputs[..i]).next
        invariant sent == old(sent) + Run(old(State()), inputs[..i]).sent
      {
        RunSnoc(old(State()), inputs, i);
        AppendAssoc(old(sent), Run(old(State()), inputs[..i]).sent, Cycle(State(), inputs[i]).sent);
        var _ := Step(inputs[i]);
        i := i + 1;
      }
      assert inputs[..i] == inputs;
    }
  }
}
