/** The three stages of one poll: get_api_answer (over an abstract
    transport outcome), check_response and parse_status. */
module Api {
  import opened Wrappers
  import opened Payload
  import opened Errors

  const HttpOk := 200

  /** What `response.json()` makes of the body. */
  datatype Body = Decoded(json: Json) | Undecodable(reason: string)

  /** What `requests.get` did: answered with a status code and a body,
      failed to connect, or failed in some other way. */
  datatype Transport =
    | Responded(statusCode: int, body: Body)
    | ConnectionFailed
    | RequestFailed(reason: string)

  /** get_api_answer: classifies the transport outcome. The request is
      made with `from_date = timestamp` and the credential `token`. */
  function GetApiAnswer(token: string, timestamp: Json, t: Transport): (r: Result<Json, BotError>)
    ensures r.Success? <==> t.Responded? && t.statusCode == HttpOk && t.body.Decoded?
    ensures r.Success? ==> r.value == t.body.json
    ensures t.Responded? && t.statusCode != HttpOk ==> r == Failure(HTTPError(token, timestamp))
    ensures t.Responded? && t.statusCode == HttpOk && t.body.Undecodable? ==> r == Failure(Uncaught(t.body.reason))
    ensures t.ConnectionFailed? ==> r == Failure(ConnectionError)
    ensures t.RequestFailed? ==> r == Failure(Error(t.reason))
  {
    match t
    case Responded(code, body) =>
      if code != HttpOk then Failure(HTTPError(token, timestamp))
      else (match body
            case Decoded(j) => Success(j)
            case Undecodable(reason) => Failure(Uncaught(reason)))
    case ConnectionFailed => Failure(ConnectionError)
    case RequestFailed(reason) => Failure(Error(reason))
  }

  /** The value check_response leaves in REQUEST_TIME: the answer's
      `current_date` whenever the answer is a dict holding it, whatever
      the later checks find; otherwise the old value. */
  function ResponseWatermark(response: Json, watermark: Json): (r: Json)
  {
    if response.JDict? && Find(response.entries, "current_date").Some? then
      Find(response.entries, "current_date").value
    else watermark
  }

  /** check_response's result: `homeworks[0]`, or the error it raises. */
  function ValidateResponse(response: Json): (r: Result<Json, BotError>)
    ensures r.Success? <==>
              && response.JDict?
              && Find(response.entries, "current_date").Some?
              && Find(response.entries, "homeworks").Some?
              && Find(response.entries, "homeworks").value.JList?
              && |Find(response.entries, "homeworks").value.items| > 0
    ensures r.Success? ==> r.value == Find(response.entries, "homeworks").value.items[0]
    ensures r.Failure? ==>
              r.error.KeyError? || r.error == TypeError || r.error == IndexError
  {
    match response
    case JDict(es) =>
      if Find(es, "current_date").None? then Failure(KeyError("current_date", InApiAnswer))
      else (match Find(es, "homeworks")
            case None => Failure(KeyError("homeworks", InApiAnswer))
            case Some(h) =>
              if !h.JList? then Failure(TypeError)
              else if |h.items| == 0 then Failure(IndexError)
              else Success(h.items[0]))
    case _ => Failure(TypeError)
  }

  /** The error classification of check_response. */
  lemma ValidateResponseErrors(response: Json)
    ensures !response.JDict? ==> ValidateResponse(response) == Failure(TypeError)
    ensures response.JDict? && Find(response.entries, "current_date").None? ==>
              ValidateResponse(response) == Failure(KeyError("current_date", InApiAnswer))
    ensures response.JDict? && Find(response.entries, "current_date").Some?
              && Find(response.entries, "homeworks").None? ==>
              ValidateResponse(response) == Failure(KeyError("homeworks", InApiAnswer))
    ensures response.JDict? && Find(response.entries, "current_date").Some?
              && Find(response.entries, "homeworks").Some?
              && !Find(response.entries, "homeworks").value.JList? ==>
              ValidateResponse(response) == Failure(TypeError)
    ensures response.JDict? && Find(response.entries, "current_date").Some?
              && Find(response.entries, "homeworks") == Some(JList([])) ==>
              ValidateResponse(response) == Failure(IndexError)
  {
  }

  /** The watermark moves exactly when the answer is a dict with
      `current_date`, and then to that value, even when validation goes on
      to fail (an empty or malformed homeworks list); when it stays put,
      validation has failed as well. */
  lemma ResponseWatermarkRule(response: Json, watermark: Json)
    ensures response.JDict? && Find(response.entries, "current_date").Some? ==>
              Some(ResponseWatermark(response, watermark)) == Find(response.entries, "current_date")
    ensures !(response.JDict? && Find(response.entries, "current_date").Some?) ==>
              ResponseWatermark(response, watermark) == watermark && ValidateResponse(response).Failure?
    ensures ValidateResponse(response).Success? ==>
              Some(ResponseWatermark(response, watermark)) == Find(response.entries, "current_date")
  {
  }

  /** HOMEWORK_VERDICTS. */
  const Verdicts: map<string, string> := map[
    "approved" := "Работа проверена: ревьюеру всё понравилось. Ура!",
    "reviewing" := "Работа взята на проверку ревьюером.",
    "rejected" := "Работа проверена: у ревьюера есть замечания."
  ]

  /** The sentence parse_status returns. */
  function StatusMessage(name: string, verdict: string): (r: string)
  {
    "Изменился статус проверки работы \"" + name + "\". " + verdict
  }

  /** CPython's TypeError text for `v['status']` on a value that is not a dict. */
  function NotSubscriptable(j: Json): (r: string)
  {
    match j
    case JList(_) => "list indices must be integers or slices, not str"
    case JStr(_) => "string indices must be integers, not 'str'"
    case _ => "'" + TypeName(j) + "' object is not subscriptable"
  }

  /** parse_status: the notification text for one homework, or the error
      it raises. */
  function ParseStatus(homework: Json): (r: Result<string, BotError>)
    ensures r.Failure? ==> r.error.KeyError? || r.error.StatusError? || r.error.Error?
  {
    match homework
    case JDict(es) =>
      (match Find(es, "status")
       case None => Failure(KeyError("status", InHomework))
       case Some(status) =>
         match Find(es, "homework_name")
         case None => Failure(KeyError("homework_name", InHomework))
         case Some(name) =>
           if !Hashable(status) then Failure(Error("unhashable type: '" + TypeName(status) + "'"))
           else if status.JStr? && status.s in Verdicts then
             Success(StatusMessage(Str(name), Verdicts[status.s]))
           else Failure(StatusError(status)))
    case _ => Failure(Error(NotSubscriptable(homework)))
  }

  /** parse_status succeeds exactly for a dict with both keys whose status
      is one of the three table keys, and then names the work and gives
      that status's verdict. */
  lemma ParseStatusSucceeds(homework: Json)
    ensures ParseStatus(homework).Success? <==>
              && homework.JDict?
              && Find(homework.entries, "homework_name").Some?
              && Find(homework.entries, "status").Some?
              && Find(homework.entries, "status").value.JStr?
              && Find(homework.entries, "status").value.s in Verdicts
    ensures ParseStatus(homework).Success? ==>
              ParseStatus(homework).value ==
                StatusMessage(Str(Find(homework.entries, "homework_name").value),
                              Verdicts[Find(homework.entries, "status").value.s])
  {
  }

  /** A missing `status` is reported before a missing `homework_name`;
      a hashable status outside the table is a StatusError carrying it. */
  lemma ParseStatusErrors(homework: Json)
    requires homework.JDict?
    ensures Find(homework.entries, "status").None? ==>
              ParseStatus(homework) == Failure(KeyError("status", InHomework))
    ensures Find(homework.entries, "status").Some? && Find(homework.entries, "homework_name").None? ==>
              ParseStatus(homework) == Failure(KeyError("homework_name", InHomework))
    ensures Find(homework.entries, "homework_name").Some?
              && Find(homework.entries, "status").Some?
              && Hashable(Find(homework.entries, "status").value)
              && !(Find(homework.entries, "status").value.JStr? && Find(homework.entries, "status").value.s in Verdicts) ==>
              ParseStatus(homework) == Failure(StatusError(Find(homework.entries, "status").value))
  {
  }

  /** The status-to-sentence mapping, on concrete homeworks. */
  lemma ParseStatusApproved()
    ensures ParseStatus(JDict([("status", JStr("approved")), ("homework_name", JStr("X"))])) ==
              Success("Изменился статус проверки работы \"" + "X" + "\". " + "Работа проверена: ревьюеру всё понравилось. Ура!")
  {
    var h := [("status", JStr("approved")), ("homework_name", JStr("X"))];
    assert Find(h, "status") == Some(JStr("approved"));
    assert Find(h, "homework_name") == Some(JStr("X"));
    assert "approved" in Verdicts;
    var v := Verdicts["approved"];
    assert v == "Работа проверена: ревьюеру всё понравилось. Ура!";
  }

  lemma ParseStatusPending()
    ensures ParseStatus(JDict([("homework_name", JStr("X")), ("status", JStr("pending"))])) ==
              Failure(StatusError(JStr("pending")))
  {
    var h := [("homework_name", JStr("X")), ("status", JStr("pending"))];
    assert Find(h, "status") == Some(JStr("pending"));
    assert Find(h, "homework_name") == Some(JStr("X"));
  }

  /** Different table statuses give different sentences for the same work,
      because the three verdicts differ. */
  lemma StatusMessageDeterminesVerdict(name: string, s1: string, s2: string)
    requires s1 in Verdicts && s2 in Verdicts
    requires StatusMessage(name, Verdicts[s1]) == StatusMessage(name, Verdicts[s2])
    ensures s1 == s2
  {
    var prefix := "Изменился статус проверки работы \"" + name + "\". ";
    assert Verdicts[s1] == StatusMessage(name, Verdicts[s1])[|prefix|..];
    assert Verdicts[s2] == StatusMessage(name, Verdicts[s2])[|prefix|..];
  }
}
