/** The pure part of the bot: the verdict table, the configuration check, the checks on a
    decoded API answer and on one homework record, and the status-code check on the HTTP
    answer. Each Python exception the bot can meet on these paths is a `Failure`, and `Text`
    gives `str()` of it, which is what the poll loop puts in its diagnostic message. */
module Homework {

  import opened Wrappers
  import opened Json

  const ENDPOINT := "https://practicum.yandex.ru/api/user_api/homework_statuses/"

  /** The closed table from status code to the verdict shown to the student. */
  const HOMEWORK_VERDICTS: map<string, string> := map[
    "approved" := "Работа проверена: ревьюеру всё понравилось. Ура!",
    "reviewing" := "Работа взята на проверку ревьюером.",
    "rejected" := "Работа проверена: у ревьюера есть замечания."
  ]

  /** Text of the TypeError raised by both checks of the answer's shape. */
  const WRONG_TYPE := "получен неверный тип данных"

  /** Python's message for reading the local `response` that the failed request never bound
      (the wording of Python 3.11 and later). */
  const UNBOUND_RESPONSE := "cannot access local variable 'response' where it is not associated with a value"

  /** The exceptions raised on the paths of one poll cycle. */
  datatype Failure =
    | WrongType                       // TypeError from check_response
    | MissingName                     // KeyError: no `homework_name` in the record
    | MissingStatus                   // Exception: no `status` in the record
    | UnexpectedStatus(shown: string) // Exception: status is not a key of the verdict table
    | Unhashable(typeName: string)    // TypeError: a list or dict status looked up in the table
    | NotIterable(typeName: string)   // TypeError: `in` applied to None, a bool or an int
    | NoGet(typeName: string)         // AttributeError: `.get` on something that is not a dict
    | EndpointDown                    // Exception: the endpoint answered with a status other than 200
    | ResponseUnbound                 // UnboundLocalError after the request itself raised
    | Raised(text: string)            // any other exception, known only by its text

  /** `str(error)` for each failure. A KeyError shows its argument's repr, hence the quotes. */
  function Text(f: Failure): (t: string)
    ensures f.Raised? ==> t == f.text
    ensures !f.Raised? ==> t != ""
  {
    match f
    case WrongType => WRONG_TYPE
    case MissingName => "'в ответе API нет ключа homework_name'"
    case MissingStatus => "в ответе API нет ключа status"
    case UnexpectedStatus(shown) => "неожиданный статус домашней работы - " + shown
    case Unhashable(t) => "unhashable type: '" + t + "'"
    case NotIterable(t) => "argument of type '" + t + "' is not iterable"
    case NoGet(t) => "'" + t + "' object has no attribute 'get'"
    case EndpointDown => "Недоступность эндпоинта " + ENDPOINT
    case ResponseUnbound => UNBOUND_RESPONSE
    case Raised(text) => text
  }

  // ---------------------------------------------------------------------------
  // check_tokens

  /** Python's truthiness of an environment value: set and not empty. */
  predicate IsSet(token: Option<string>) {
    token.Some? && token.value != ""
  }

  /** `list(filter(None, tokens))`: the truthy tokens, in order. */
  function KeepSet(tokens: seq<Option<string>>): (kept: seq<Option<string>>)
    ensures |kept| <= |tokens|
    ensures forall i | 0 <= i < |kept| :: IsSet(kept[i]) && kept[i] in tokens
    ensures forall t :: multiset(kept)[t] == if IsSet(t) then multiset(tokens)[t] else 0
  {
    if tokens == [] then []
    else if IsSet(tokens[0]) then
      assert tokens == [tokens[0]] + tokens[1..];
      [tokens[0]] + KeepSet(tokens[1..])
    else
      assert tokens == [tokens[0]] + tokens[1..];
      KeepSet(tokens[1..])
  }

  /** Every token is truthy. */
  predicate AllSet(tokens: seq<Option<string>>) {
    tokens == [] || (IsSet(tokens[0]) && AllSet(tokens[1..]))
  }

  /** The filter drops nothing exactly when every token is truthy. */
  lemma {:induction false} KeepSetKeepsAll(tokens: seq<Option<string>>)
    ensures |KeepSet(tokens)| == |tokens| <==> AllSet(tokens)
  {
    if tokens != [] {
      var rest := tokens[1..];
      KeepSetKeepsAll(rest);
      if IsSet(tokens[0]) {
        assert KeepSet(tokens) == [tokens[0]] + KeepSet(rest);
      } else {
        assert KeepSet(tokens) == KeepSet(rest);
        assert |KeepSet(rest)| < |tokens|;
      }
    }
  }

  /** The startup check: passes exactly when all three configuration values are truthy. */
  function CheckTokens(practicumToken: Option<string>, telegramToken: Option<string>, chatId: Option<string>): (ok: bool)
    ensures ok <==> IsSet(practicumToken) && IsSet(telegramToken) && IsSet(chatId)
  {
    var tokens := [practicumToken, telegramToken, chatId];
    KeepSetKeepsAll(tokens);
    assert tokens[1..] == [telegramToken, chatId] && tokens[1..][1..] == [chatId];
    assert AllSet(tokens) <==> IsSet(practicumToken) && AllSet([telegramToken, chatId]);
    assert AllSet([telegramToken, chatId]) <==> IsSet(telegramToken) && AllSet([chatId]);
    |KeepSet(tokens)| == |tokens|
  }

  // ---------------------------------------------------------------------------
  // get_api_answer: the status check on an abstract HTTP exchange

  /** The body of an HTTP answer: decoded JSON, or the text of the decoding error. */
  datatype Body = Decoded(value: Json) | Undecodable(error: string)

  /** What one request produced: the request raised (with that text), or an answer came. */
  datatype Fetch = Unreachable(cause: string) | Answered(statusCode: int, body: Body)

  /** What get_api_answer yields: the messages it sent on its own, then its value or failure. */
  datatype Answer = Answer(alerts: seq<string>, result: Result<Json, Failure>)

  /** The message the request handler sends straight to the chat when the request raises. */
  function RequestAlert(cause: string): string {
    "Сбой при запросе к эндпоинту - " + cause
  }

  /** One call of get_api_answer on the outcome `f` of its request. */
  function GetApiAnswer(f: Fetch): (a: Answer)
    ensures a.result.Ok? <==> f.Answered? && f.statusCode == 200 && f.body.Decoded?
    ensures a.result.Ok? ==> a.result.value == f.body.value
    ensures f.Answered? && f.statusCode != 200 ==> a.result == Err(EndpointDown)
    ensures a.alerts != [] <==> f.Unreachable?
  {
    match f
    case Unreachable(cause) => Answer([RequestAlert(cause)], Err(ResponseUnbound))
    case Answered(code, body) =>
      if code != 200 then Answer([], Err(EndpointDown))
      else match body
        case Decoded(v) => Answer([], Ok(v))
        case Undecodable(e) => Answer([], Err(Raised(e)))
  }

  // ---------------------------------------------------------------------------
  // check_response

  /** The answer is a dict whose `homeworks` entry is a list. */
  predicate WellShaped(response: Json) {
    response.Object? && "homeworks" in response.fields && response.fields["homeworks"].Array?
  }

  /** Accepts a dict whose `homeworks` is a list and returns that list as it is. */
  function CheckResponse(response: Json): (r: Result<seq<Json>, Failure>)
    ensures r.Ok? <==> WellShaped(response)
    ensures r.Ok? ==> r.value == response.fields["homeworks"].items
    ensures r.Err? ==> r.error == WrongType
  {
    if !response.Object? then Err(WrongType)
    else
      var homeworks := Get(response.fields, "homeworks");
      if !homeworks.Array? then Err(WrongType)
      else Ok(homeworks.items)
  }

  /** The check reads nothing of the answer but its `homeworks` entry. */
  lemma CheckResponseReadsOnlyHomeworks(a: map<string, Json>, b: map<string, Json>)
    requires Get(a, "homeworks") == Get(b, "homeworks")
    ensures CheckResponse(Object(a)) == CheckResponse(Object(b))
  {
  }

  // ---------------------------------------------------------------------------
  // parse_status

  /** `needle` occurs in `hay` as a contiguous piece (Python's `needle in hay` on strings). */
  predicate IsSubstring(needle: string, hay: string) {
    exists i | 0 <= i <= |hay| - |needle| :: OccursAt(needle, hay, i)
  }

  predicate OccursAt(needle: string, hay: string, i: nat) {
    i + |needle| <= |hay| && hay[i..i + |needle|] == needle
  }

  /** Python's `key in v`: a key test on a dict, an element test on a list, a substring test
      on a str, and a TypeError on anything else. */
  function Contains(v: Json, key: string): (r: Result<bool, Failure>)
    ensures r.Err? <==> v.Null? || v.Boolean? || v.Number?
    ensures v.Object? ==> r == Ok(key in v.fields)
    ensures v.Array? ==> r == Ok(String(key) in v.items)
    ensures v.String? ==> r == Ok(IsSubstring(key, v.s))
  {
    match v
    case Object(fields) => Ok(key in fields)
    case Array(items) => Ok(String(key) in items)
    case String(s) => Ok(IsSubstring(key, s))
    case _ => Err(NotIterable(TypeName(v)))
  }

  /** `HOMEWORK_VERDICTS[status]` after the `status not in HOMEWORK_VERDICTS` test. */
  function Verdict(status: Json): (r: Result<string, Failure>)
    ensures r.Ok? <==> status.String? && status.s in HOMEWORK_VERDICTS
    ensures r.Ok? ==> r.value == HOMEWORK_VERDICTS[status.s]
    ensures status.String? && status.s !in HOMEWORK_VERDICTS ==> r == Err(UnexpectedStatus(status.s))
    ensures status.Array? || status.Object? ==> r == Err(Unhashable(TypeName(status)))
    ensures status.Null? || status.Boolean? || status.Number? ==> r == Err(UnexpectedStatus(Format(status)))
  {
    match status
    case String(s) => if s in HOMEWORK_VERDICTS then Ok(HOMEWORK_VERDICTS[s]) else Err(UnexpectedStatus(s))
    case Array(_) => Err(Unhashable(TypeName(status)))
    case Object(_) => Err(Unhashable(TypeName(status)))
    case _ => Err(UnexpectedStatus(Format(status)))
  }

  /** Two int statuses that fail the lookup with the same error are the same int. */
  lemma IntStatusTextsDiffer(n: int, m: int)
    requires Verdict(Number(n)) == Verdict(Number(m))
    ensures n == m
  {
    IntTextRoundTrip(n);
    IntTextRoundTrip(m);
  }

  /** The message announcing a new verdict on the work called `name`. */
  function Notice(name: string, verdict: string): string {
    "Изменился статус проверки работы \"" + name + "\". " + verdict
  }

  /** A record parse_status turns into a message: a dict holding both keys, with a status
      that is one of the three known codes. */
  predicate KnownRecord(homework: Json) {
    homework.Object? && "homework_name" in homework.fields && "status" in homework.fields
    && homework.fields["status"].String? && homework.fields["status"].s in HOMEWORK_VERDICTS
  }

  /** Reads a homework record: `homework_name` is required first, then `status`, then the
      status must be a known code; the message is the notice for that name and verdict. */
  function ParseStatus(homework: Json): (r: Result<string, Failure>)
    ensures r.Ok? <==> KnownRecord(homework)
    ensures r.Ok? ==> r.value == Notice(Format(homework.fields["homework_name"]),
                                        HOMEWORK_VERDICTS[homework.fields["status"].s])
    ensures homework.Object? && "homework_name" !in homework.fields ==> r == Err(MissingName)
    ensures homework.Object? && "homework_name" in homework.fields && "status" !in homework.fields
            ==> r == Err(MissingStatus)
    ensures homework.Object? && "homework_name" in homework.fields && "status" in homework.fields
            && homework.fields["status"].String? && homework.fields["status"].s !in HOMEWORK_VERDICTS
            ==> r == Err(UnexpectedStatus(homework.fields["status"].s))
    ensures homework.Object? && "homework_name" in homework.fields && "status" in homework.fields
            && !homework.fields["status"].String?
            ==> r == Err(Verdict(homework.fields["status"]).error)
  {
    match Contains(homework, "homework_name")
    case Err(e) => Err(e)
    case Ok(hasName) =>
      if !hasName then Err(MissingName)
      else match Contains(homework, "status")
        case Err(e) => Err(e)
        case Ok(hasStatus) =>
          if !hasStatus then Err(MissingStatus)
          else if !homework.Object? then Err(NoGet(TypeName(homework)))
          else
            var status := Get(homework.fields, "status");
            var name := Get(homework.fields, "homework_name");
            match Verdict(status)
            case Err(e) => Err(e)
            case Ok(verdict) => Ok(Notice(Format(name), verdict))
  }

  /** The outcome of parsing a dict depends on its `homework_name` and `status` entries only. */
  lemma ParseStatusReadsOnlyNameAndStatus(a: map<string, Json>, b: map<string, Json>)
    requires ("homework_name" in a <==> "homework_name" in b) && ("status" in a <==> "status" in b)
    requires Get(a, "homework_name") == Get(b, "homework_name") && Get(a, "status") == Get(b, "status")
    ensures ParseStatus(Object(a)) == ParseStatus(Object(b))
  {
  }

  /** Each verdict ends in a pair of characters that no other verdict ends in. */
  lemma VerdictEndingsDiffer(c1: string, c2: string)
    requires c1 in HOMEWORK_VERDICTS && c2 in HOMEWORK_VERDICTS && c1 != c2
    ensures var v1, v2 := HOMEWORK_VERDICTS[c1], HOMEWORK_VERDICTS[c2];
            |v1| >= 2 && |v2| >= 2 && v1[|v1| - 2..] != v2[|v2| - 2..]
  {
  }

  /** The last two characters of `prefix + tail` are those of `tail`. */
  lemma EndsWith(prefix: string, tail: string)
    requires |tail| >= 2
    ensures var whole := prefix + tail; whole[|whole| - 2..] == tail[|tail| - 2..]
  {
  }

  /** Equal notices for known codes carry the same verdict, hence the same code. */
  lemma NoticeNamesOneCode(n1: string, c1: string, n2: string, c2: string)
    requires c1 in HOMEWORK_VERDICTS && c2 in HOMEWORK_VERDICTS
    requires Notice(n1, HOMEWORK_VERDICTS[c1]) == Notice(n2, HOMEWORK_VERDICTS[c2])
    ensures c1 == c2
  {
    if c1 != c2 {
      var head, mid := "Изменился статус проверки работы \"", "\". ";
      VerdictEndingsDiffer(c1, c2);
      EndsWith(head + n1 + mid, HOMEWORK_VERDICTS[c1]);
      EndsWith(head + n2 + mid, HOMEWORK_VERDICTS[c2]);
      assert false;
    }
  }

  /** Equal notices with the same verdict name the same work. */
  lemma NoticeNamesOneWork(n1: string, n2: string, verdict: string)
    requires Notice(n1, verdict) == Notice(n2, verdict)
    ensures n1 == n2
  {
    var head, tail := "Изменился статус проверки работы \"", "\". " + verdict;
    var m := Notice(n1, verdict);
    assert m == head + n1 + tail && m == head + n2 + tail;
    assert m[|head|..|head| + |n1|] == n1;
    assert m[|head|..|head| + |n2|] == n2;
  }

  /** Equal notices for known codes have the same code and the same name. */
  lemma NoticeInjective(n1: string, c1: string, n2: string, c2: string)
    requires c1 in HOMEWORK_VERDICTS && c2 in HOMEWORK_VERDICTS
    requires Notice(n1, HOMEWORK_VERDICTS[c1]) == Notice(n2, HOMEWORK_VERDICTS[c2])
    ensures c1 == c2 && n1 == n2
  {
    NoticeNamesOneCode(n1, c1, n2, c2);
    NoticeNamesOneWork(n1, n2, HOMEWORK_VERDICTS[c1]);
  }

  /** A notice names exactly one status code: two records that produce the same message
      carry the same status, and names that show the same. */
  lemma NoticeDeterminesStatus(h1: Json, h2: Json)
    requires ParseStatus(h1).Ok? && ParseStatus(h2).Ok? && ParseStatus(h1).value == ParseStatus(h2).value
    ensures h1.fields["status"] == h2.fields["status"]
    ensures Format(h1.fields["homework_name"]) == Format(h2.fields["homework_name"])
  {
    NoticeInjective(Format(h1.fields["homework_name"]), h1.fields["status"].s,
                    Format(h2.fields["homework_name"]), h2.fields["status"].s);
  }
}
