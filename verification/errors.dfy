/** The exceptions homework.py raises, one constructor per raise site
    kind, and the text `str(error)` gives for each: that text is what the
    poll loop logs, compares with the last message and sends. */
module Errors {
  import opened Payload
  import PyText

  const Endpoint := "https://practicum.yandex.ru/api/user_api/homework_statuses/"

  /** Where a KeyError was raised: the two handlers word it differently. */
  datatype KeySite = InApiAnswer | InHomework

  datatype BotError =
    /** A required environment variable is unset or empty (fatal at startup). */
    | CheckToken(variable: string)
    /** The API answered with a status other than 200 OK; the exception
        carries the request's token and `from_date`. */
    | HTTPError(token: string, fromDate: Json)
    /** `requests.ConnectionError` while requesting. */
    | ConnectionError
    /** Any other failure, wrapped with the underlying error's text. */
    | Error(detail: string)
    /** A key missing from the API answer or from a homework. */
    | KeyError(key: string, site: KeySite)
    /** The plain TypeError: the answer is not a dict, or homeworks not a list. */
    | TypeError
    /** The homeworks list is empty. */
    | IndexError
    /** The homework's status has no verdict. */
    | StatusError(status: Json)
    /** The Telegram client failed to deliver a message. */
    | SendMessage(cause: string, text: string)
    /** An exception that reaches the poll loop unwrapped (a body that is
        not JSON), carrying its own text. */
    | Uncaught(text: string)

  /** `str(error)`. An exception built with one argument prints as that
      argument; one built with two prints as the repr of the tuple. */
  function Message(e: BotError): (m: string)
    ensures !e.Uncaught? ==> |m| > 0
  {
    match e
    case CheckToken(variable) => "Отсутствует переменная окружения " + variable + "."
    case HTTPError(token, fromDate) =>
      PyText.TupleText([
        PyText.QuoteRepr("Неудачный HTTP-запрос."),
        PyText.TupleText([
          PyText.QuoteRepr("URL: " + Endpoint),
          PyText.QuoteRepr("headers: {'Authorization': " + PyText.QuoteRepr("OAuth " + token) + "}"),
          PyText.QuoteRepr("params: {'from_date': " + Repr(fromDate) + "}")])])
    case ConnectionError => "Проблема с подключением."
    case Error(detail) => "Возникла ошибка: " + detail + "."
    case KeyError(key, InApiAnswer) => "Отсутствует ключ " + PyText.QuoteRepr(key) + " в ответе API."
    case KeyError(key, InHomework) =>
      "Отсутствует ключ " + PyText.QuoteRepr(key) + " в информации о домашней работе. "
    case TypeError => "В ответе API структура данных не соответствует ожиданиям."
    case IndexError => "Новых статусов домашней работы нет."
    case StatusError(status) =>
      PyText.TupleText([PyText.QuoteRepr("Неожиданный статус домашней работы: " + Str(status)), Repr(status)])
    case SendMessage(cause, text) =>
      "Ошибка " + cause + " при отправке сообщения \"" + text + "\" в телеграмм."
    case Uncaught(text) => text
  }

  /** Two missing-key errors from the same handler print alike only when
      they name the same key, so de-duplication never merges two of them. */
  lemma KeyErrorMessageInjective(a: string, b: string, site: KeySite)
    requires Message(KeyError(a, site)) == Message(KeyError(b, site))
    ensures a == b
  {
    var prefix := "Отсутствует ключ ";
    var suffix := if site == InApiAnswer then " в ответе API." else " в информации о домашней работе. ";
    var ma, mb := Message(KeyError(a, site)), Message(KeyError(b, site));
    assert ma == prefix + PyText.QuoteRepr(a) + suffix;
    assert mb == prefix + PyText.QuoteRepr(b) + suffix;
    assert |PyText.QuoteRepr(a)| == |PyText.QuoteRepr(b)|;
    assert PyText.QuoteRepr(a) == ma[|prefix|..|ma| - |suffix|] == PyText.QuoteRepr(b);
    PyText.QuoteReprInjective(a, b);
  }

  /** Two HTTP failures at different integer watermarks print differently,
      so de-duplication does not merge them: the request's `from_date`
      shows in the text. */
  lemma HttpErrorMessageDistinguishesWatermark(token: string, a: int, b: int)
    requires Message(HTTPError(token, JInt(a))) == Message(HTTPError(token, JInt(b)))
    ensures a == b
  {
    var head := "(" + PyText.QuoteRepr("Неудачный HTTP-запрос.") + ", (" + PyText.QuoteRepr("URL: " + Endpoint) + ", "
      + PyText.QuoteRepr("headers: {'Authorization': " + PyText.QuoteRepr("OAuth " + token) + "}") + ", ";
    var prefix := "params: {'from_date': ";
    var pa := prefix + PyText.IntText(a) + "}";
    var pb := prefix + PyText.IntText(b) + "}";
    HttpMessageShape(token, JInt(a));
    HttpMessageShape(token, JInt(b));
    PyText.SameMiddle(head, PyText.QuoteRepr(pa), PyText.QuoteRepr(pb), "))");
    PyText.QuoteReprInjective(pa, pb);
    PyText.SameMiddle(prefix, PyText.IntText(a), PyText.IntText(b), "}");
    PyText.IntTextInjective(a, b);
  }

  /** The HTTPError text, written out as one concatenation. */
  lemma HttpMessageShape(token: string, fromDate: Json)
    ensures Message(HTTPError(token, fromDate)) ==
      "(" + PyText.QuoteRepr("Неудачный HTTP-запрос.") + ", (" + PyText.QuoteRepr("URL: " + Endpoint) + ", "
      + PyText.QuoteRepr("headers: {'Authorization': " + PyText.QuoteRepr("OAuth " + token) + "}") + ", "
      + PyText.QuoteRepr("params: {'from_date': " + Repr(fromDate) + "}") + "))"
  {
    PyText.NestedTupleText(PyText.QuoteRepr("Неудачный HTTP-запрос."), PyText.QuoteRepr("URL: " + Endpoint),
      PyText.QuoteRepr("headers: {'Authorization': " + PyText.QuoteRepr("OAuth " + token) + "}"),
      PyText.QuoteRepr("params: {'from_date': " + Repr(fromDate) + "}"));
  }
}
