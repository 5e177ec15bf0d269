/** The poll loop of `main`: one cycle fetches the statuses, moves the cursor, validates
    the answer, announces the first record, and turns any failure into a diagnostic message
    for the chat. Sending a message is appending it to the list a cycle returns. */
module Bot {

  import opened Wrappers
  import opened Json
  import opened Homework

  /** The message the except-block sends for a failure whose text is `text`. */
  function Diagnostic(text: string): string {
    "Сбой в работе программы: " + text
  }

  /** The loop's variables after a cycle, with the messages the cycle sent, in order. */
  datatype After = After(timestamp: Json, lastError: Option<string>, sent: seq<string>)

  // ---------------------------------------------------------------------------
  // The specification of one cycle, stage by stage

  /** What the try-block of one cycle comes to: the message it announces (None when the
      batch is empty), or the exception that ends it. */
  function Attempt(f: Fetch): Result<Option<string>, Failure> {
    match GetApiAnswer(f).result
    case Err(e) => Err(e)
    case Ok(response) =>
      if !response.Object? then Err(NoGet(TypeName(response)))
      else match CheckResponse(response)
        case Err(e) => Err(e)
        case Ok(homeworks) =>
          if homeworks == [] then Ok(None)
          else match ParseStatus(homeworks[0])
            case Err(e) => Err(e)
            case Ok(message) => Ok(Some(message))
  }

  /** The cursor after a cycle: the answer's `current_date` (None when absent) as soon as a
      dict has been decoded, whatever happens next; otherwise the old cursor. */
  function NextTimestamp(timestamp: Json, f: Fetch): Json {
    var answer := GetApiAnswer(f);
    if answer.result.Ok? && answer.result.value.Object? then Get(answer.result.value.fields, "current_date")
    else timestamp
  }

  /** One cycle of the loop from the cursor `timestamp` and the marker `lastError`. */
  function Cycle(timestamp: Json, lastError: Option<string>, f: Fetch): After {
    var alerts := GetApiAnswer(f).alerts;
    var next := NextTimestamp(timestamp, f);
    match Attempt(f)
    case Ok(None) => After(next, lastError, alerts)
    case Ok(Some(message)) => After(next, lastError, alerts + [message])
    case Err(e) =>
      var text := Text(e);
      After(next, Some(text), alerts + if text == "" then [] else [Diagnostic(text)])
  }

  /** Consecutive cycles over the outcomes `fs`, with everything they sent. */
  function Run(timestamp: Json, lastError: Option<string>, fs: seq<Fetch>): After
    decreases |fs|
  {
    if fs == [] then After(timestamp, lastError, [])
    else
      var first := Cycle(timestamp, lastError, fs[0]);
      var rest := Run(first.timestamp, first.lastError, fs[1..]);
      After(rest.timestamp, rest.lastError, first.sent + rest.sent)
  }

  // ---------------------------------------------------------------------------
  // The loop itself

  /** The two variables `main` keeps across cycles. `lastError` is None until the
      except-block first assigns it. */
  class PollLoop {
    var timestamp: Json
    var lastError: Option<string>

    /** The loop as it is before the first cycle: the cursor is the current time `now`. */
    constructor (now: int)
      ensures timestamp == Number(now) && lastError == None
    {
      timestamp := Number(now);
      lastError := None;
    }

    /** One pass of the `while True` body on the request outcome `f`. */
    method Step(f: Fetch) returns (sent: seq<string>)
      modifies this
      ensures After(timestamp, lastError, sent) == Cycle(old(timestamp), old(lastError), f)
    {
      var answer := GetApiAnswer(f);
      sent := answer.alerts;
      var failure: Option<Failure> := None;
      if answer.result.Err? {
        failure := Some(answer.result.error);
      } else {
        var response := answer.result.value;
        if !response.Object? {
          failure := Some(NoGet(TypeName(response)));
        } else {
          timestamp := Get(response.fields, "current_date");
          var homeworks := CheckResponse(response);
          if homeworks.Err? {
            failure := Some(homeworks.error);
          } else if |homeworks.value| > 0 {
            var message := ParseStatus(homeworks.value[0]);
            if message.Err? {
              failure := Some(message.error);
            } else {
              sent := sent + [message.value];
            }
          }
        }
      }
      if failure.Some? {
        lastError := Some("");
        var text := Text(failure.value);
        if lastError.value != text {
          sent := sent + [Diagnostic(text)];
          lastError := Some(text);
        }
      }
    }

    /** The loop run over the outcomes `fs` of consecutive requests. */
    method Poll(fs: seq<Fetch>) returns (sent: seq<string>)
      modifies this
      ensures After(timestamp, lastError, sent) == Run(old(timestamp), old(lastError), fs)
    {
      sent := [];
      var i := 0;
      while i < |fs|
        invariant 0 <= i <= |fs|
        invariant var rest := Run(timestamp, lastError, fs[i..]);
                  After(rest.timestamp, rest.lastError, sent + rest.sent) == Run(old(timestamp), old(lastError), fs)
      {
        assert fs[i..][1..] == fs[i + 1..];
        var now := Step(fs[i]);
        sent := sent + now;
        i := i + 1;
      }
    }
  }

  /** `main`: the cursor starts at `now`; if a configuration value is missing the process
      exits before the loop; otherwise the loop runs over the outcomes `fs`. */
  method Start(practicumToken: Option<string>, telegramToken: Option<string>, chatId: Option<string>,
               now: int, fs: seq<Fetch>) returns (exited: bool, sent: seq<string>)
    ensures exited <==> !(IsSet(practicumToken) && IsSet(telegramToken) && IsSet(chatId))
    ensures exited ==> sent == []
    ensures !exited ==> sent == Run(Number(now), None, fs).sent
  {
    var loop := new PollLoop(now);
    if !CheckTokens(practicumToken, telegramToken, chatId) {
      return true, [];
    }
    exited := false;
    sent := loop.Poll(fs);
  }

  // ---------------------------------------------------------------------------
  // What one cycle does

  /** A valid answer with records announces the first record and nothing else, keeps the
      marker, and moves the cursor to `current_date`. */
  lemma CycleAnnouncesFirstRecord(timestamp: Json, lastError: Option<string>, fields: map<string, Json>)
    requires "homeworks" in fields && fields["homeworks"].Array? && |fields["homeworks"].items| > 0
    requires ParseStatus(fields["homeworks"].items[0]).Ok?
    ensures Cycle(timestamp, lastError, Answered(200, Decoded(Object(fields))))
            == After(Get(fields, "current_date"), lastError, [ParseStatus(fields["homeworks"].items[0]).value])
  {
  }

  /** Records after the first never influence a cycle. */
  lemma CycleIgnoresLaterRecords(timestamp: Json, lastError: Option<string>, fields: map<string, Json>,
                                 first: Json, more1: seq<Json>, more2: seq<Json>)
    ensures Cycle(timestamp, lastError, Answered(200, Decoded(Object(fields["homeworks" := Array([first] + more1)]))))
         == Cycle(timestamp, lastError, Answered(200, Decoded(Object(fields["homeworks" := Array([first] + more2)]))))
  {
    var a, b := fields["homeworks" := Array([first] + more1)], fields["homeworks" := Array([first] + more2)];
    assert Get(a, "current_date") == Get(b, "current_date");
    assert Attempt(Answered(200, Decoded(Object(a)))) == Attempt(Answered(200, Decoded(Object(b))));
  }

  /** An empty batch sends nothing, raises nothing and keeps the marker; the cursor still
      moves to `current_date`, so an answer without it leaves the cursor None. */
  lemma CycleEmptyBatch(timestamp: Json, lastError: Option<string>, fields: map<string, Json>)
    requires "homeworks" in fields && fields["homeworks"] == Array([])
    ensures Cycle(timestamp, lastError, Answered(200, Decoded(Object(fields))))
            == After(Get(fields, "current_date"), lastError, [])
    ensures "current_date" !in fields ==> Cycle(timestamp, lastError, Answered(200, Decoded(Object(fields)))).timestamp == Null
  {
  }

  /** A failed cycle always sends its diagnostic when its text is not empty, and records that
      text as the marker, whatever the marker held before. */
  lemma CycleFailureAlwaysNotified(timestamp: Json, lastError: Option<string>, f: Fetch)
    requires Attempt(f).Err?
    ensures var after := Cycle(timestamp, lastError, f);
            var text := Text(Attempt(f).error);
            after.lastError == Some(text)
            && after.sent == GetApiAnswer(f).alerts + (if text == "" then [] else [Diagnostic(text)])
  {
  }

  /** The marker never changes what a cycle sends or where its cursor ends up. */
  lemma CycleIgnoresLastError(timestamp: Json, lastError1: Option<string>, lastError2: Option<string>, f: Fetch)
    ensures Cycle(timestamp, lastError1, f).sent == Cycle(timestamp, lastError2, f).sent
    ensures Cycle(timestamp, lastError1, f).timestamp == Cycle(timestamp, lastError2, f).timestamp
  {
  }

  /** An answer with a status other than 200 yields the one diagnostic naming the endpoint,
      and the cursor stays. */
  lemma CycleEndpointDown(timestamp: Json, lastError: Option<string>, code: int, body: Body)
    requires code != 200
    ensures Cycle(timestamp, lastError, Answered(code, body))
            == After(timestamp, Some("Недоступность эндпоинта " + ENDPOINT),
                     [Diagnostic("Недоступность эндпоинта " + ENDPOINT)])
  {
  }

  /** A request that raises sends the request alert, then the diagnostic of the
      UnboundLocalError that follows it; the cursor stays. */
  lemma CycleRequestRaised(timestamp: Json, lastError: Option<string>, cause: string)
    ensures Cycle(timestamp, lastError, Unreachable(cause))
            == After(timestamp, Some(UNBOUND_RESPONSE), [RequestAlert(cause), Diagnostic(UNBOUND_RESPONSE)])
  {
  }

  /** A decoded answer that is not a dict fails on `.get` before check_response can run:
      an AttributeError, with the cursor unchanged. */
  lemma CycleAnswerNotADict(timestamp: Json, lastError: Option<string>, response: Json)
    requires !response.Object?
    ensures var text := "'" + TypeName(response) + "' object has no attribute 'get'";
            Cycle(timestamp, lastError, Answered(200, Decoded(response)))
            == After(timestamp, Some(text), [Diagnostic(text)])
  {
  }

  /** A dict whose `homeworks` is missing or not a list fails check_response's TypeError, but
      the cursor has already moved to `current_date`. */
  lemma CycleBadHomeworksMovesCursor(timestamp: Json, lastError: Option<string>, fields: map<string, Json>)
    requires !Get(fields, "homeworks").Array?
    ensures Cycle(timestamp, lastError, Answered(200, Decoded(Object(fields))))
            == After(Get(fields, "current_date"), Some(WRONG_TYPE), [Diagnostic(WRONG_TYPE)])
  {
  }

  // ---------------------------------------------------------------------------
  // Across cycles

  /** Over any number of cycles, what is sent and where the cursor ends up do not depend
      on the marker the loop started with. */
  lemma {:induction false} RunIgnoresLastError(timestamp: Json, lastError1: Option<string>,
                                               lastError2: Option<string>, fs: seq<Fetch>)
    ensures Run(timestamp, lastError1, fs).sent == Run(timestamp, lastError2, fs).sent
    ensures Run(timestamp, lastError1, fs).timestamp == Run(timestamp, lastError2, fs).timestamp
    decreases |fs|
  {
    if fs != [] {
      var c1, c2 := Cycle(timestamp, lastError1, fs[0]), Cycle(timestamp, lastError2, fs[0]);
      CycleIgnoresLastError(timestamp, lastError1, lastError2, fs[0]);
      RunIgnoresLastError(c1.timestamp, c1.lastError, c2.lastError, fs[1..]);
    }
  }

  /** The same failure in consecutive cycles is announced every time: nothing is
      deduplicated, because the marker is reset to '' before each comparison. */
  lemma {:induction false} RepeatedFailureAnnouncedEachTime(timestamp: Json, lastError: Option<string>,
                                                            f: Fetch, n: nat)
    requires f.Answered? && Attempt(f).Err? && Text(Attempt(f).error) != ""
    ensures var fs := seq(n, _ => f);
            Run(timestamp, lastError, fs).sent == seq(n, _ => Diagnostic(Text(Attempt(f).error)))
    decreases n
  {
    var fs := seq(n, _ => f);
    if n > 0 {
      var first := Cycle(timestamp, lastError, f);
      assert fs[1..] == seq(n - 1, _ => f);
      RepeatedFailureAnnouncedEachTime(first.timestamp, first.lastError, f, n - 1);
      assert [Diagnostic(Text(Attempt(f).error))] + seq(n - 1, _ => Diagnostic(Text(Attempt(f).error)))
             == seq(n, _ => Diagnostic(Text(Attempt(f).error)));
    }
  }

  // ---------------------------------------------------------------------------
  // Worked answers

  /** A single approved record with a `current_date`: the notice for "hw1" with the approval
      verdict is sent and the cursor moves. */
  lemma ApprovedRecordScenario(timestamp: Json, lastError: Option<string>)
    ensures var record := Object(map["homework_name" := String("hw1"), "status" := String("approved")]);
            var response := Object(map["homeworks" := Array([record]), "current_date" := Number(1700000200)]);
            Cycle(timestamp, lastError, Answered(200, Decoded(response)))
            == After(Number(1700000200), lastError,
                     [Notice("hw1", "Работа проверена: ревьюеру всё понравилось. Ура!")])
  {
  }

  /** A record without `homework_name` is reported by the KeyError's quoted text. */
  lemma MissingNameScenario(timestamp: Json, lastError: Option<string>)
    ensures var record := Object(map["status" := String("approved")]);
            var response := Object(map["homeworks" := Array([record])]);
            var text := "'в ответе API нет ключа homework_name'";
            Cycle(timestamp, lastError, Answered(200, Decoded(response)))
            == After(Null, Some(text), [Diagnostic(text)])
  {
  }
}
