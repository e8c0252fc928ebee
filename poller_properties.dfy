/**
 * What the polling loop promises over one cycle and over runs of cycles:
 * change detection by whole-list equality, one notification per item in
 * list order, partial sending when an item cannot be formatted, and error
 * de-duplication by `args` with a memory that a success does not clear.
 */
module PollerProperties {
  import opened Python
  import opened Homework
  import opened Poller

  // ---------------------------------------------------------------------
  // Runs of two and three cycles
  // ---------------------------------------------------------------------

  lemma RunTwo(st: PollState, a: CycleInput, b: CycleInput)
    ensures var t1 := Cycle(st, a); var t2 := Cycle(t1.next, b);
      Run(st, [a, b]) == Transition(t2.next, t1.sent + t2.sent)
  {
    var t1 := Cycle(st, a);
    assert Run(st, [a]) == Transition(t1.next, t1.sent) by {
      assert [a][..0] == [];
      assert [] + t1.sent == t1.sent;
    }
    assert [a, b][..1] == [a];
  }

  lemma RunThree(st: PollState, a: CycleInput, b: CycleInput, c: CycleInput)
    ensures var t1 := Cycle(st, a); var t2 := Cycle(t1.next, b); var t3 := Cycle(t2.next, c);
      Run(st, [a, b, c]) == Transition(t3.next, t1.sent + t2.sent + t3.sent)
  {
    assert [a, b, c][..2] == [a, b];
    RunTwo(st, a, b);
  }

  // ---------------------------------------------------------------------
  // One successful fetch
  // ---------------------------------------------------------------------

  /** The fetched list equals the one last seen: nothing is sent, the list
      and the error memory are kept, and the cursor advances. */
  lemma UnchangedListIsQuiet(st: PollState, input: CycleInput)
    requires Fetch(input) == Ok(st.lastStatus)
    ensures Cycle(st, input).sent == []
    ensures Cycle(st, input).next == PollState(st.lastStatus, st.lastError, input.doneNow)
  {
  }

  /** The fetched list differs and every item formats: one notification per
      item, in list order, and the list becomes the one last seen. The error
      memory is not cleared. */
  lemma ChangedListNotifiesEveryItem(st: PollState, input: CycleInput, items: seq<Value>)
    requires Fetch(input) == Ok(items) && items != st.lastStatus
    requires forall j :: 0 <= j < |items| ==> ParseStatus(items[j]).Ok?
    ensures |Cycle(st, input).sent| == |items|
    ensures forall j :: 0 <= j < |items| ==> Cycle(st, input).sent[j] == ParseStatus(items[j]).value
    ensures Cycle(st, input).next == PollState(items, st.lastError, input.doneNow)
  {
  }

  /** A change anywhere re-notifies every item, also those whose status is
      the same as before: here only the second item changed. */
  lemma OneChangeRenotifiesAll(st: PollState, input: CycleInput, a: Value, b: Value, b': Value)
    requires st.lastStatus == [a, b] && b != b'
    requires Fetch(input) == Ok([a, b'])
    requires ParseStatus(a).Ok? && ParseStatus(b').Ok?
    ensures Cycle(st, input).sent == [ParseStatus(a).value, ParseStatus(b').value]
  {
    ChangedListNotifiesEveryItem(st, input, [a, b']);
  }

  /** The first failing index is unique. */
  lemma FirstFailureUnique(items: seq<Value>, k: int, m: int)
    requires FirstFailureAt(items, k) && FirstFailureAt(items, m)
    ensures k == m
  {
  }

  /** Item `k` is the first that cannot be formatted: the notifications for
      items 0..k-1 have been sent, then the error is handled as any other,
      and the list last seen is kept, as is the cursor. */
  lemma FormatFailureSendsPrefix(st: PollState, input: CycleInput, items: seq<Value>, k: nat)
    requires Fetch(input) == Ok(items) && items != st.lastStatus
    requires FirstFailureAt(items, k)
    ensures var e := ParseStatus(items[k]).error; var t := Cycle(st, input);
      && |t.sent| >= k
      && (forall j :: 0 <= j < k ==> t.sent[j] == ParseStatus(items[j]).value)
      && t.sent[k..] == (if IsRepeat(st, e) then [] else [FailureMessage(e)])
      && t.next == PollState(st.lastStatus, Some(e), st.currentTimestamp)
  {
    var f := FormatAll(items);
    assert f.failure.Some? by {
      assert !ParseStatus(items[k]).Ok?;
    }
    FirstFailureUnique(items, k, |f.messages|);
  }

  /** Because the list last seen is not updated after a formatting failure,
      the same payload on the next cycle sends the notifications for items
      0..k-1 again, while the repeated error itself is suppressed. */
  lemma FormatFailureResendsPrefix(st: PollState, input: CycleInput, items: seq<Value>, k: nat)
    requires Fetch(input) == Ok(items) && items != st.lastStatus
    requires FirstFailureAt(items, k)
    ensures var t1 := Cycle(st, input); var t2 := Cycle(t1.next, input);
      && |t2.sent| == k
      && (forall j :: 0 <= j < k ==> t2.sent[j] == ParseStatus(items[j]).value && t2.sent[j] == t1.sent[j])
      && t2.next == t1.next
  {
    var e := ParseStatus(items[k]).error;
    FormatFailureSendsPrefix(st, input, items, k);
    var t1 := Cycle(st, input);
    assert t1.next.lastStatus == st.lastStatus;
    FormatFailureSendsPrefix(t1.next, input, items, k);
    assert IsRepeat(t1.next, e);
  }

  // ---------------------------------------------------------------------
  // Error de-duplication
  // ---------------------------------------------------------------------

  /** A cycle whose request or validator raises sends the error text exactly
      when the exception's `args` differ from the last one's, and remembers it
      either way. */
  lemma FailureNotifiedIffNew(st: PollState, input: CycleInput, e: PyError)
    requires Fetch(input) == Err(e)
    ensures Cycle(st, input).sent == (if IsRepeat(st, e) then [] else [FailureMessage(e)])
    ensures Cycle(st, input).sent != [] <==> st.lastError.None? || st.lastError.value.args != e.args
    ensures Cycle(st, input).next == PollState(st.lastStatus, Some(e), st.currentTimestamp)
  {
  }

  /** The loop starts with no error remembered, so an error raised by the
      first cycle's request or validator is always sent. */
  lemma FirstFailureAlwaysSent(startTime: int, input: CycleInput, e: PyError)
    requires Fetch(input) == Err(e)
    ensures Cycle(Initial(startTime), input).sent == [FailureMessage(e)]
  {
  }

  /** Only `args` are compared: exceptions of different classes with the same
      arguments count as the same failure. */
  lemma ClassIsIgnored(st: PollState, input: CycleInput, e: PyError, c: ErrorClass)
    requires Fetch(input) == Err(e)
    requires st.lastError == Some(PyError(c, e.args))
    ensures Cycle(st, input).sent == []
  {
  }

  /** A cycle that raises nothing keeps the remembered error. */
  lemma SuccessKeepsLastError(st: PollState, input: CycleInput)
    requires Fetch(input).Ok?
    requires Fetch(input).value == st.lastStatus || FormatAll(Fetch(input).value).failure.None?
    ensures Cycle(st, input).next.lastError == st.lastError
  {
  }

  function Repeat(input: CycleInput, n: nat): (r: seq<CycleInput>)
    ensures |r| == n && forall j :: 0 <= j < n ==> r[j] == input
  {
    seq(n, _ => input)
  }

  /** However many times a cycle input whose request or validator raises is
      repeated, at most one error text is sent, and none if it repeats the one
      remembered. */
  lemma {:induction false} RepeatedFailureNotifiesOnce(st: PollState, input: CycleInput, e: PyError, n: nat)
    requires Fetch(input) == Err(e)
    ensures Run(st, Repeat(input, n)).sent == (if n == 0 || IsRepeat(st, e) then [] else [FailureMessage(e)])
    ensures n > 0 ==> Run(st, Repeat(input, n)).next == PollState(st.lastStatus, Some(e), st.currentTimestamp)
  {
    if n > 0 {
      assert Repeat(input, n)[..n - 1] == Repeat(input, n - 1);
      RepeatedFailureNotifiesOnce(st, input, e, n - 1);
    }
  }

  /** Every status other than 200 raises the same Exception text, so a 500
      followed by a 503 gives one error notification, not two. */
  lemma StatusCodesNotDistinguished(st: PollState, c1: int, c2: int, b1: Value, b2: Value, t1: int, t2: int, t3: int, t4: int)
    requires st.lastError.None?
    requires c1 != 200 && c2 != 200
    ensures Run(st, [CycleInput(Answered(c1, b1), t1, t2), CycleInput(Answered(c2, b2), t3, t4)]).sent ==
      [FailurePrefix + EndpointMessage]
  {
    RunTwo(st, CycleInput(Answered(c1, b1), t1, t2), CycleInput(Answered(c2, b2), t3, t4));
  }

  /** The memory is not cleared by a success: the same request or validator
      error before and after a successful cycle is sent only the first time. */
  lemma RecoveryDoesNotResetErrorMemory(st: PollState, bad: CycleInput, good: CycleInput, e: PyError)
    requires Fetch(bad) == Err(e)
    requires Fetch(good).Ok?
    requires Fetch(good).value == st.lastStatus || FormatAll(Fetch(good).value).failure.None?
    ensures var t1 := Cycle(st, bad); var t2 := Cycle(t1.next, good);
      Run(st, [bad, good, bad]).sent == t1.sent + t2.sent
  {
    RunThree(st, bad, good, bad);
    var t1 := Cycle(st, bad);
    var t2 := Cycle(t1.next, good);
    assert t2.next.lastError == Some(e);
    assert Cycle(t2.next, bad).sent == [];
  }

  // ---------------------------------------------------------------------
  // Repeating a successful cycle
  // ---------------------------------------------------------------------

  /** After a cycle that fetched a list and raised nothing, fetching the same
      list again sends nothing. */
  lemma SamePayloadTwiceIsQuiet(st: PollState, a: CycleInput, b: CycleInput, items: seq<Value>)
    requires Fetch(a) == Ok(items) && Fetch(b) == Ok(items)
    requires items == st.lastStatus || FormatAll(items).failure.None?
    ensures Cycle(Cycle(st, a).next, b).sent == []
    ensures Run(st, [a, b]).sent == Cycle(st, a).sent
  {
    RunTwo(st, a, b);
  }

  // ---------------------------------------------------------------------
  // Worked payloads
  // ---------------------------------------------------------------------

  function Item(nameKey: string, name: string, status: string): (v: Value)
  {
    Dict(map[nameKey := Str(name), "status" := Str(status)])
  }

  function Payload(items: seq<Value>): (v: Value)
  {
    Dict(map["homeworks" := List(items)])
  }

  /** One item under review, on the first cycle. */
  lemma ReviewingItemNotified(now: int, f: int, d: int)
    ensures Cycle(Initial(now), CycleInput(Answered(200, Payload([Item("homework_name", "hw1", "reviewing")])), f, d)).sent ==
      [NotificationPrefix + "hw1" + NotificationInfix + Reviewing]
  {
    var h := Item("homework_name", "hw1", "reviewing");
    assert CheckResponse(Payload([h])) == Ok([h]);
    assert ParseStatus(h) == Ok(Notification("hw1", Reviewing));
    assert FormatAll([h]) == Formatted([Notification("hw1", Reviewing)], None) by {
      assert [h][..0] == [];
    }
  }

  /** The name is read from `homework_name`; under any other key it prints
      as None. */
  lemma OtherNameKeyPrintsNone(now: int, f: int, d: int)
    ensures Cycle(Initial(now), CycleInput(Answered(200, Payload([Item("name", "hw1", "reviewing")])), f, d)).sent ==
      [NotificationPrefix + "None" + NotificationInfix + Reviewing]
  {
    var h := Item("name", "hw1", "reviewing");
    assert CheckResponse(Payload([h])) == Ok([h]);
    assert NameOf(h) == Null;
    assert ParseStatus(h) == Ok(Notification("None", Reviewing));
    assert FormatAll([h]) == Formatted([Notification("None", Reviewing)], None) by {
      assert [h][..0] == [];
    }
  }

  /** An empty list, twice, from the start: the loop starts with an empty
      list last seen, so neither cycle sends anything. */
  lemma EmptyListsAreQuiet(now: int, a: CycleInput, b: CycleInput)
    requires a.fetch == Answered(200, Payload([])) && b.fetch == Answered(200, Payload([]))
    ensures Run(Initial(now), [a, b]).sent == []
  {
    RunTwo(Initial(now), a, b);
  }

  lemma MissingHomeworksPlain()
    ensures forall k :: 0 <= k < |MissingHomeworksMessage| ==>
      !NeedsEscape(MissingHomeworksMessage[k]) && MissingHomeworksMessage[k] != '\''
  {
  }

  /** `str()` of the validator's KeyError is its message in quotes. */
  lemma MissingKeyText()
    ensures FailureMessage(PyError(KeyErr, [MissingHomeworksMessage])) ==
      FailurePrefix + "'" + MissingHomeworksMessage + "'"
  {
    MissingHomeworksPlain();
    StrReprPlain(MissingHomeworksMessage);
    AppendAssoc(FailurePrefix, "'" + MissingHomeworksMessage, "'");
    AppendAssoc(FailurePrefix, "'", MissingHomeworksMessage);
  }

  /** A payload without `homeworks`: the KeyError's text reaches the chat in
      quotes, as `str()` of a KeyError gives them. */
  lemma MissingKeyReported(now: int, f: int, d: int)
    ensures Cycle(Initial(now), CycleInput(Answered(200, Dict(map["status" := Str("ok")])), f, d)).sent ==
      [FailurePrefix + "'" + MissingHomeworksMessage + "'"]
  {
    var e := PyError(KeyErr, [MissingHomeworksMessage]);
    var input := CycleInput(Answered(200, Dict(map["status" := Str("ok")])), f, d);
    assert Fetch(input) == Err(e);
    FirstFailureAlwaysSent(now, input, e);
    MissingKeyText();
  }

  /** A request failure makes get_api_answer return None, which the
      validator rejects as not a dict. */
  lemma RequestFailureReportedAsTypeError(now: int, f: int, d: int)
    ensures Cycle(Initial(now), CycleInput(RequestFailed, f, d)).sent == [FailurePrefix + NotDictMessage]
  {
  }
}
