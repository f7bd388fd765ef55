/** homework.py's `main`: the startup check, then the poll loop whose state
    is the watermark (REQUEST_TIME) and the last error text sent
    (last_message). The Telegram client is an oracle that says whether a
    send succeeds; `requests.get` is the transport outcome of each poll. */
module Watcher {
  import opened Wrappers
  import opened Payload
  import opened Errors
  import opened Api
  import Tokens

  datatype LoopState = LoopState(watermark: Json, lastMessage: string)

  /** What the world does in one iteration: the transport outcome of the
      request, and whether a send attempted in that iteration gets through. */
  datatype Input = Input(fetch: Transport, sendSucceeds: bool)

  /** Continue: the loop sleeps and polls again. Crash: an exception left
      the loop and `main` ended. */
  datatype Outcome = Continue | Crash

  datatype StepResult = StepResult(state: LoopState, sent: seq<string>, outcome: Outcome)

  /** The try block of the loop body: fetch, check, parse. It yields the
      watermark check_response left behind and the message or the error. */
  datatype Evaluation = Evaluation(watermark: Json, message: Result<string, BotError>)

  function Evaluate(token: string, watermark: Json, fetch: Transport): (r: Evaluation)
  {
    match GetApiAnswer(token, watermark, fetch)
    case Failure(e) => Evaluation(watermark, Failure(e))
    case Success(answer) =>
      var w := ResponseWatermark(answer, watermark);
      match ValidateResponse(answer)
      case Failure(e) => Evaluation(w, Failure(e))
      case Success(homework) => Evaluation(w, ParseStatus(homework))
  }

  /** One pass of the `while True` body. A status message is sent every
      time and a failed send is only logged. An error's text is sent only
      when it differs from last_message, which then becomes that text; a
      failed send there is not caught and ends `main`. */
  function Iterate(s: LoopState, token: string, input: Input): (r: StepResult)
  {
    var ev := Evaluate(token, s.watermark, input.fetch);
    match ev.message
    case Success(text) => StepResult(LoopState(ev.watermark, s.lastMessage), [text], Continue)
    case Failure(e) =>
      var text := Message(e);
      if text == s.lastMessage then StepResult(LoopState(ev.watermark, text), [], Continue)
      else if input.sendSucceeds then StepResult(LoopState(ev.watermark, text), [text], Continue)
      else StepResult(LoopState(ev.watermark, s.lastMessage), [text], Crash)
  }

  /** A bounded run of the loop over the given inputs, stopping at a crash:
      the final state, every text handed to the Telegram client, whether
      `main` crashed, and how many iterations ran. */
  datatype Trace = Trace(state: LoopState, sent: seq<string>, crashed: bool, iterations: nat)

  function Run(s: LoopState, token: string, inputs: seq<Input>): (t: Trace)
    ensures t.iterations <= |inputs|
    ensures !t.crashed ==> t.iterations == |inputs|
    decreases |inputs|
  {
    if |inputs| == 0 then Trace(s, [], false, 0)
    else
      var r := Iterate(s, token, inputs[0]);
      if r.outcome == Crash then Trace(r.state, r.sent, true, 1)
      else
        var rest := Run(r.state, token, inputs[1..]);
        Trace(rest.state, r.sent + rest.sent, rest.crashed, rest.iterations + 1)
  }

  /** Run, one iteration at a time. */
  lemma RunStep(s: LoopState, token: string, inputs: seq<Input>)
    requires |inputs| > 0
    ensures var r := Iterate(s, token, inputs[0]);
      var rest := Run(r.state, token, inputs[1..]);
      Run(s, token, inputs) ==
        if r.outcome == Crash then Trace(r.state, r.sent, true, 1)
        else Trace(rest.state, r.sent + rest.sent, rest.crashed, rest.iterations + 1)
  {
  }

  // ---- one iteration ----

  /** The watermark after an iteration: the answer's `current_date` when
      the request returned a dict holding it (whatever validation and
      parsing then find), and the old watermark otherwise. */
  lemma IterateWatermark(s: LoopState, token: string, input: Input)
    ensures var w := Iterate(s, token, input).state.watermark;
      if input.fetch.Responded? && input.fetch.statusCode == HttpOk && input.fetch.body.Decoded?
         && input.fetch.body.json.JDict? && Find(input.fetch.body.json.entries, "current_date").Some?
      then Some(w) == Find(input.fetch.body.json.entries, "current_date")
      else w == s.watermark
  {
  }

  /** A request that fails with a non-200 status reports the `from_date`
      it was made with, which is the current watermark. */
  lemma HttpFailureUsesWatermark(s: LoopState, token: string, input: Input)
    requires input.fetch.Responded? && input.fetch.statusCode != HttpOk
    ensures Evaluate(token, s.watermark, input.fetch) == Evaluation(s.watermark, Failure(HTTPError(token, s.watermark)))
  {
  }

  /** Success path: the status text goes out every time with no comparison,
      a failed send does not stop the loop, and last_message is untouched. */
  lemma IterateSuccessPath(s: LoopState, token: string, input: Input)
    requires Evaluate(token, s.watermark, input.fetch).message.Success?
    ensures var r := Iterate(s, token, input);
      && r.sent == [Evaluate(token, s.watermark, input.fetch).message.value]
      && r.outcome == Continue
      && r.state.lastMessage == s.lastMessage
  {
  }

  /** Error path: the error's text is sent exactly when it differs from
      last_message; if the loop goes on, last_message is that text. */
  lemma IterateErrorPath(s: LoopState, token: string, input: Input)
    requires Evaluate(token, s.watermark, input.fetch).message.Failure?
    ensures var m := Message(Evaluate(token, s.watermark, input.fetch).message.error);
      var r := Iterate(s, token, input);
      && (r.sent == [] <==> m == s.lastMessage)
      && (r.sent != [] ==> r.sent == [m])
      && (r.outcome == Continue ==> r.state.lastMessage == m)
  {
  }

  /** The loop ends only when an error's text is new and its send fails. */
  lemma IterateCrash(s: LoopState, token: string, input: Input)
    ensures var ev := Evaluate(token, s.watermark, input.fetch);
      Iterate(s, token, input).outcome == Crash <==>
        ev.message.Failure? && Message(ev.message.error) != s.lastMessage && !input.sendSucceeds
  {
  }

  /** Two consecutive iterations that fail with the same text send it at
      most once between them. */
  lemma ConsecutiveErrorsSentOnce(s: LoopState, token: string, first: Input, second: Input)
    requires Evaluate(token, s.watermark, first.fetch).message.Failure?
    requires Iterate(s, token, first).outcome == Continue
    requires
      var s1 := Iterate(s, token, first).state;
      && Evaluate(token, s1.watermark, second.fetch).message.Failure?
      && Message(Evaluate(token, s1.watermark, second.fetch).message.error)
         == Message(Evaluate(token, s.watermark, first.fetch).message.error)
    ensures var r1 := Iterate(s, token, first);
      && r1.state.lastMessage == Message(Evaluate(token, s.watermark, first.fetch).message.error)
      && Iterate(r1.state, token, second).sent == []
      && Iterate(r1.state, token, second).outcome == Continue
      && |r1.sent| + |Iterate(r1.state, token, second).sent| <= 1
  {
    IterateErrorPath(s, token, first);
  }

  /** Polling again with the same transport outcome from the watermark an
      evaluation left behind evaluates the same way: the watermark it
      sets is its own fixed point. */
  lemma EvaluateSettles(token: string, watermark: Json, fetch: Transport)
    ensures var ev := Evaluate(token, watermark, fetch);
      Evaluate(token, ev.watermark, fetch) == ev
  {
  }

  /** An answer with an empty homeworks list is the "no new statuses"
    error, and it still moves the watermark to the answer's
    `current_date`. */
  lemma EmptyHomeworksAdvancesWatermark(s: LoopState, token: string, date: Json, input: Input)
    requires input.fetch == Responded(HttpOk, Decoded(JDict([("homeworks", JList([])), ("current_date", date)])))
    ensures Evaluate(token, s.watermark, input.fetch) == Evaluation(date, Failure(IndexError))
    ensures Iterate(s, token, input).state.watermark == date
    ensures s.lastMessage == Message(IndexError) ==> Iterate(s, token, input).sent == []
  {
    var es := [("homeworks", JList([])), ("current_date", date)];
    assert Find(es, "current_date") == Some(date);
    assert Find(es, "homeworks") == Some(JList([]));
  }

  /** A fresh review verdict moves the watermark and is sent. */
  lemma RejectedStatusIsSent(s: LoopState, token: string, date: Json, input: Input)
    requires input.fetch == Responded(HttpOk, Decoded(JDict([
      ("homeworks", JList([JDict([("status", JStr("rejected")), ("homework_name", JStr("HW1"))])])),
      ("current_date", date)])))
    ensures Iterate(s, token, input) == StepResult(
      LoopState(date, s.lastMessage),
      ["Изменился статус проверки работы \"" + "HW1" + "\". " + "Работа проверена: у ревьюера есть замечания."],
      Continue)
  {
    var hw := [("status", JStr("rejected")), ("homework_name", JStr("HW1"))];
    var es := [("homeworks", JList([JDict(hw)])), ("current_date", date)];
    assert Find(es, "current_date") == Some(date);
    assert Find(es, "homeworks") == Some(JList([JDict(hw)]));
    assert Find(hw, "status") == Some(JStr("rejected"));
    assert Find(hw, "homework_name") == Some(JStr("HW1"));
    assert "rejected" in Verdicts;
    assert Verdicts["rejected"] == "Работа проверена: у ревьюера есть замечания.";
  }

  // ---- runs of the loop ----

  predicate SameFetch(inputs: seq<Input>, fetch: Transport)
  {
    forall k :: 0 <= k < |inputs| ==> inputs[k].fetch == fetch
  }

  /** A condition that persists (the same failure on every poll, such as
      an empty homeworks list or no connection) is sent at most once, and
      not at all when it is already the last message; `main` can crash
      only on the first iteration, and never when that text is already the
      last message. */
  lemma {:induction false} PersistentErrorSentAtMostOnce(s: LoopState, token: string, fetch: Transport, inputs: seq<Input>)
    requires SameFetch(inputs, fetch)
    requires Evaluate(token, s.watermark, fetch).message.Failure?
    ensures var t := Run(s, token, inputs);
      && |t.sent| <= 1
      && (t.crashed ==> t.iterations == 1)
      && (s.lastMessage == Message(Evaluate(token, s.watermark, fetch).message.error) ==> t.sent == [] && !t.crashed)
      && (|inputs| > 0 ==> t.state.watermark == Evaluate(token, s.watermark, fetch).watermark)
    decreases |inputs|
  {
    if |inputs| > 0 {
      var ev := Evaluate(token, s.watermark, fetch);
      var r := Iterate(s, token, inputs[0]);
      if r.outcome == Continue {
        EvaluateSettles(token, s.watermark, fetch);
        assert r.state == LoopState(ev.watermark, Message(ev.message.error));
        assert SameFetch(inputs[1..], fetch);
        PersistentErrorSentAtMostOnce(r.state, token, fetch, inputs[1..]);
        var rest := Run(r.state, token, inputs[1..]);
        assert rest.sent == [] && !rest.crashed;
        assert |inputs[1..]| > 0 ==> rest.state.watermark == ev.watermark;
      }
    }
  }

  /** A status that stays the same is sent again on every poll: the
      success path has no de-duplication. */
  lemma {:induction false} PersistentStatusSentEveryTime(s: LoopState, token: string, fetch: Transport, inputs: seq<Input>)
    requires SameFetch(inputs, fetch)
    requires Evaluate(token, s.watermark, fetch).message.Success?
    ensures var t := Run(s, token, inputs);
      && !t.crashed
      && t.sent == seq(|inputs|, k => Evaluate(token, s.watermark, fetch).message.value)
      && t.state.lastMessage == s.lastMessage
    decreases |inputs|
  {
    if |inputs| > 0 {
      var ev := Evaluate(token, s.watermark, fetch);
      var r := Iterate(s, token, inputs[0]);
      EvaluateSettles(token, s.watermark, fetch);
      assert r.state == LoopState(ev.watermark, s.lastMessage);
      assert SameFetch(inputs[1..], fetch);
      PersistentStatusSentEveryTime(r.state, token, fetch, inputs[1..]);
      var rest := Run(r.state, token, inputs[1..]);
      assert r.sent + rest.sent == seq(|inputs|, k => ev.message.value);
    }
  }

  // ---- the imperative loop ----

  class PollLoop {
    /** PRACTICUM_TOKEN, as baked into the request headers. */
    const token: string
    /** REQUEST_TIME. */
    var watermark: Json
    /** last_message. */
    var lastMessage: string

    function State(): (r: LoopState)
      reads this
    {
      LoopState(watermark, lastMessage)
    }

    /** The loop's state as `main` sets it up: REQUEST_TIME from the clock
        at import, last_message empty. */
    constructor (token: string, initialWatermark: Json)
      ensures this.token == token && State() == LoopState(initialWatermark, "")
    {
      this.token := token;
      watermark := initialWatermark;
      lastMessage := "";
    }

    /** check_response, with its write to REQUEST_TIME done before any
        other check. */
    method CheckResponse(response: Json) returns (r: Result<Json, BotError>)
      modifies this`watermark
      ensures watermark == ResponseWatermark(response, old(watermark))
      ensures r == ValidateResponse(response)
    {
      if !response.JDict? {
        return Failure(TypeError);
      }
      var date := Find(response.entries, "current_date");
      if date.None? {
        return Failure(KeyError("current_date", InApiAnswer));
      }
      watermark := date.value;
      var homeworks := Find(response.entries, "homeworks");
      if homeworks.None? {
        return Failure(KeyError("homeworks", InApiAnswer));
      }
      if !homeworks.value.JList? {
        return Failure(TypeError);
      }
      if |homeworks.value.items| == 0 {
        return Failure(IndexError);
      }
      return Success(homeworks.value.items[0]);
    }

    /** One pass of the loop body; `sent` lists the texts handed to the
        Telegram client (at most one). */
    method Step(input: Input) returns (sent: seq<string>, outcome: Outcome)
      modifies this
      ensures StepResult(State(), sent, outcome) == Iterate(old(State()), token, input)
    {
      var timestamp := watermark;
      var message: Result<string, BotError>;
      var answer := GetApiAnswer(token, timestamp, input.fetch);
      if answer.Failure? {
        message := Failure(answer.error);
      } else {
        var homework := CheckResponse(answer.value);
        message := if homework.Failure? then Failure(homework.error) else ParseStatus(homework.value);
      }
      match message {
        case Success(text) =>
          sent, outcome := [text], Continue;
        case Failure(e) =>
          var text := Message(e);
          if text != lastMessage {
            sent := [text];
            if !input.sendSucceeds {
              outcome := Crash;
              return;
            }
          } else {
            sent := [];
          }
          lastMessage := text;
          outcome := Continue;
      }
    }

    /** `while True` over a finite supply of inputs: runs until the inputs
        are used up or an iteration crashes. */
    method Loop(inputs: seq<Input>) returns (sent: seq<string>, crashed: bool, iterations: nat)
      modifies this
      ensures Trace(State(), sent, crashed, iterations) == Run(old(State()), token, inputs)
    {
      sent, crashed, iterations := [], false, 0;
      while iterations < |inputs| && !crashed
        invariant iterations <= |inputs|
        invariant crashed ==> Run(old(State()), token, inputs) == Trace(State(), sent, true, iterations)
        invariant !crashed ==>
          Run(old(State()), token, inputs) == After(sent, iterations, Run(State(), token, inputs[iterations..]))
        decreases |inputs| - iterations, !crashed
      {
        ghost var before := State();
        ghost var tail := inputs[iterations..];
        assert tail[0] == inputs[iterations] && tail[1..] == inputs[iterations + 1..];
        RunStep(before, token, tail);
        var out, outcome := Step(inputs[iterations]);
        ghost var rest := Run(State(), token, inputs[iterations + 1..]);
        if outcome == Crash {
          assert Run(before, token, tail) == Trace(State(), out, true, 1);
        } else {
          assert Run(before, token, tail) == After(out, 1, rest);
          assert sent + (out + rest.sent) == (sent + out) + rest.sent;
        }
        sent := sent + out;
        iterations := iterations + 1;
        crashed := outcome == Crash;
      }
      if !crashed {
        assert inputs[iterations..] == [];
      }
    }
  }

  /** A run whose first `iterations` passes sent `sent`, continued by `t`. */
  function After(sent: seq<string>, iterations: nat, t: Trace): (r: Trace)
  {
    Trace(t.state, sent + t.sent, t.crashed, iterations + t.iterations)
  }

  /** `main`: check the credentials and, only if they are all there, build
      the loop and run it over the inputs. */
  method Serve(practicum: Option<string>, telegram: Option<string>, chatId: Option<string>,
               initialWatermark: Json, inputs: seq<Input>)
    returns (startError: Option<BotError>, sent: seq<string>, crashed: bool, iterations: nat)
    ensures startError.None? <==> Tokens.Present(practicum) && Tokens.Present(telegram) && Tokens.Present(chatId)
    ensures startError.Some? ==> startError.value.CheckToken? && sent == [] && !crashed && iterations == 0
    ensures startError.None? ==>
              var t := Run(LoopState(initialWatermark, ""), practicum.value, inputs);
              sent == t.sent && crashed == t.crashed && iterations == t.iterations
  {
    startError := Tokens.CheckTokens(practicum, telegram, chatId);
    if startError.Some? {
      return startError, [], false, 0;
    }
    var loop := new PollLoop(practicum.value, initialWatermark);
    sent, crashed, iterations := loop.Loop(inputs);
  }
}
