/**
 * The pure parts of the bot (homework.py): the status catalog, the response
 * validator, the status formatter, the start-up credential check and the
 * non-I/O part of the API call.
 */
module Homework {
  import opened Python

  /** HOMEWORK_STATUSES: review status code to the verdict shown in the chat. */
  const Approved := "Работа проверена: ревьюеру всё понравилось. Ура!"
  const Reviewing := "Работа взята на проверку ревьюером."
  const Rejected := "Работа проверена: у ревьюера есть замечания."
  const HomeworkStatuses: map<string, string> :=
    map["approved" := Approved, "reviewing" := Reviewing, "rejected" := Rejected]

  /** The error texts the validator, the formatter and the API call raise with. */
  const NotDictMessage := "Ответ не в формате Python"
  const MissingHomeworksMessage := "Отсутствует ключ homeworks"
  const NotListMessage := "homeworks не список"
  const UnknownStatusPrefix := "Нет такого статуса: "
  const EndpointMessage := "Не доступен эндпоинт"

  /** The status-change notification template. */
  const NotificationPrefix := "Изменился статус проверки работы \""
  const NotificationInfix := "\". "

  function Notification(name: string, verdict: string): (r: string)
    ensures |r| == |NotificationPrefix| + |name| + |NotificationInfix| + |verdict|
  {
    NotificationPrefix + name + NotificationInfix + verdict
  }

  /** The name and the verdict sit unchanged at fixed offsets of the text. */
  lemma NotificationFields(name: string, verdict: string)
    ensures var r, p, n := Notification(name, verdict), |NotificationPrefix|, |name|;
      && r[..p] == NotificationPrefix
      && r[p..p + n] == name
      && r[p + n..p + n + |NotificationInfix|] == NotificationInfix
      && r[p + n + |NotificationInfix|..] == verdict
  {
    var r := Notification(name, verdict);
    assert r == NotificationPrefix + name + NotificationInfix + verdict;
  }

  // ---------------------------------------------------------------------
  // get_api_answer, without the HTTP request itself
  // ---------------------------------------------------------------------

  /** What the HTTP collaborator produced for one request. */
  datatype HttpOutcome =
    | RequestFailed                              // requests raised RequestException
    | Answered(statusCode: int, body: Value)     // a response, with its decoded JSON body

  /** `current_timestamp or int(time.time())`: an int is falsy only when 0. */
  function FromDate(currentTimestamp: int, now: int): (r: int)
    ensures currentTimestamp != 0 ==> r == currentTimestamp
    ensures currentTimestamp == 0 ==> r == now
  {
    if currentTimestamp == 0 then now else currentTimestamp
  }

  /**
   * The value get_api_answer returns or the exception it raises for a given
   * HTTP outcome: any status other than 200 raises a plain Exception with a
   * fixed text (so the code is not part of it), a RequestException is logged
   * and the function ends without a return, giving None.
   */
  function ApiAnswer(outcome: HttpOutcome): (r: Result<Value>)
    ensures outcome.RequestFailed? ==> r == Ok(Null)
    ensures outcome.Answered? && outcome.statusCode == 200 ==> r == Ok(outcome.body)
    ensures outcome.Answered? && outcome.statusCode != 200 ==> r == Err(PyError(Exc, [EndpointMessage]))
  {
    match outcome
    case RequestFailed => Ok(Null)
    case Answered(code, body) =>
      if code != 200 then Err(PyError(Exc, [EndpointMessage])) else Ok(body)
  }

  // ---------------------------------------------------------------------
  // check_response
  // ---------------------------------------------------------------------

  /**
   * Three shape checks, in order: the payload must be a dict, its
   * `homeworks` must be present and not None, and that value must be a
   * list, which is then returned as it is.
   */
  function CheckResponse(response: Value): (r: Result<seq<Value>>)
    ensures r.Ok? <==> response.Dict? && "homeworks" in response.fields && response.fields["homeworks"].List?
    ensures r.Ok? ==> r.value == response.fields["homeworks"].items
    ensures !response.Dict? ==> r == Err(PyError(TypeErr, [NotDictMessage]))
    ensures response.Dict? && ("homeworks" !in response.fields || response.fields["homeworks"] == Null) ==>
              r == Err(PyError(KeyErr, [MissingHomeworksMessage]))
    ensures response.Dict? && "homeworks" in response.fields &&
            !response.fields["homeworks"].Null? && !response.fields["homeworks"].List? ==>
              r == Err(PyError(TypeErr, [NotListMessage]))
  {
    if !response.Dict? then Err(PyError(TypeErr, [NotDictMessage]))
    else if DictGet(response.fields, "homeworks").Null? then Err(PyError(KeyErr, [MissingHomeworksMessage]))
    else
      var homeworks := DictGet(response.fields, "homeworks");
      if !homeworks.List? then Err(PyError(TypeErr, [NotListMessage]))
      else Ok(homeworks.items)
  }

  /** Whatever else a payload holds, wrapping a list as its `homeworks` and
      validating it gives the list back. */
  lemma CheckResponseRoundTrip(items: seq<Value>, others: map<string, Value>)
    ensures CheckResponse(Dict(others["homeworks" := List(items)])) == Ok(items)
  {
  }

  /** The validator only ever raises TypeError or KeyError, and the None that
      get_api_answer gives after a request failure is rejected as not a dict. */
  lemma CheckResponseErrors(response: Value)
    ensures CheckResponse(response).Err? ==>
      CheckResponse(response).error.cls in {TypeErr, KeyErr} && |CheckResponse(response).error.args| == 1
    ensures CheckResponse(ApiAnswer(RequestFailed).value) == Err(PyError(TypeErr, [NotDictMessage]))
  {
  }

  // ---------------------------------------------------------------------
  // parse_status
  // ---------------------------------------------------------------------

  /** `homework.get('homework_name')` and `homework.get('status')` */
  function NameOf(homework: Value): (v: Value)
    requires homework.Dict?
  {
    DictGet(homework.fields, "homework_name")
  }

  function StatusOf(homework: Value): (v: Value)
    requires homework.Dict?
  {
    DictGet(homework.fields, "status")
  }

  /** The item is a dict whose `status` is one of the three catalog codes. */
  predicate HasKnownStatus(homework: Value)
  {
    homework.Dict? && StatusOf(homework) in {Str("approved"), Str("reviewing"), Str("rejected")}
  }

  /**
   * Formats one item of the list. A missing name is not an error; it is
   * printed as None. Calling `.get` on an item that is not a dict raises
   * AttributeError; a list or dict status cannot be looked up in the catalog
   * (TypeError: unhashable); any other status outside the catalog, None
   * included, raises KeyError.
   */
  function ParseStatus(homework: Value): (r: Result<string>)
    ensures r.Ok? <==> HasKnownStatus(homework)
    ensures r.Ok? ==> r.value == Notification(Display(NameOf(homework)), HomeworkStatuses[StatusOf(homework).s])
    ensures !homework.Dict? ==>
      r == Err(PyError(AttributeErr, ["'" + TypeName(homework) + "' object has no attribute 'get'"]))
    ensures homework.Dict? && (StatusOf(homework).List? || StatusOf(homework).Dict?) ==>
      r == Err(PyError(TypeErr, ["unhashable type: '" + TypeName(StatusOf(homework)) + "'"]))
    ensures homework.Dict? && !HasKnownStatus(homework) && !StatusOf(homework).List? && !StatusOf(homework).Dict? ==>
      r == Err(PyError(KeyErr, [UnknownStatusPrefix + Display(StatusOf(homework))]))
  {
    if !homework.Dict? then
      Err(PyError(AttributeErr, ["'" + TypeName(homework) + "' object has no attribute 'get'"]))
    else
      var name := DictGet(homework.fields, "homework_name");
      var status := DictGet(homework.fields, "status");
      if status.List? || status.Dict? then
        Err(PyError(TypeErr, ["unhashable type: '" + TypeName(status) + "'"]))
      else if status.Str? && status.s in HomeworkStatuses then
        Ok(Notification(Display(name), HomeworkStatuses[status.s]))
      else
        Err(PyError(KeyErr, [UnknownStatusPrefix + Display(status)]))
  }

  /** The last two characters of each verdict tell the three apart. */
  lemma VerdictEndings()
    ensures |Approved| >= 2 && Approved[|Approved| - 2..] == "а!"
    ensures |Reviewing| >= 2 && Reviewing[|Reviewing| - 2..] == "м."
    ensures |Rejected| >= 2 && Rejected[|Rejected| - 2..] == "я."
  {
  }

  /** A notification text determines the name it was built from and the
      verdict it ends with. */
  lemma {:induction false} NotificationDetermines(n1: string, v1: string, n2: string, v2: string)
    requires v1 in HomeworkStatuses.Values && v2 in HomeworkStatuses.Values
    requires Notification(n1, v1) == Notification(n2, v2)
    ensures n1 == n2 && v1 == v2
  {
    var m := Notification(n1, v1);
    VerdictEndings();
    assert HomeworkStatuses.Values == {Approved, Reviewing, Rejected} by {
      assert HomeworkStatuses["approved"] == Approved;
      assert HomeworkStatuses["reviewing"] == Reviewing;
      assert HomeworkStatuses["rejected"] == Rejected;
    }
    assert v1[|v1| - 2..] == m[|m| - 2..] == v2[|v2| - 2..];
    assert v1 == v2;
    NotificationFields(n1, v1);
    NotificationFields(n2, v2);
    assert |n1| == |n2|;
  }

  /** The catalog's codes map to distinct verdicts. */
  lemma CatalogInjective(s1: string, s2: string)
    requires s1 in HomeworkStatuses && s2 in HomeworkStatuses
    requires HomeworkStatuses[s1] == HomeworkStatuses[s2]
    ensures s1 == s2
  {
    VerdictEndings();
  }

  /** Two items that give the same notification have the same status and
      names that print the same. */
  lemma ParseStatusInjective(a: Value, b: Value)
    requires ParseStatus(a).Ok? && ParseStatus(a) == ParseStatus(b)
    ensures StatusOf(a) == StatusOf(b)
    ensures Display(NameOf(a)) == Display(NameOf(b))
  {
    var sa, sb := StatusOf(a).s, StatusOf(b).s;
    NotificationDetermines(Display(NameOf(a)), HomeworkStatuses[sa], Display(NameOf(b)), HomeworkStatuses[sb]);
    CatalogInjective(sa, sb);
  }

  // ---------------------------------------------------------------------
  // check_tokens
  // ---------------------------------------------------------------------

  /** An environment variable that is set to a non-empty text. */
  predicate Present(token: Option<string>)
  {
    token.Some? && token.value != ""
  }

  /** The start-up gate over PRACTICUM_TOKEN, TELEGRAM_TOKEN and
      TELEGRAM_CHAT_ID, checked in that order. */
  function CheckTokens(practicumToken: Option<string>, telegramToken: Option<string>,
                       telegramChatId: Option<string>): (ok: bool)
    ensures ok <==> Present(practicumToken) && Present(telegramToken) && Present(telegramChatId)
  {
    if practicumToken.None? then false
    else if practicumToken.value == "" then false
    else if telegramToken.None? then false
    else if telegramToken.value == "" then false
    else if telegramChatId.None? then false
    else if telegramChatId.value == "" then false
    else true
  }
}
