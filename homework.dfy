/**
 * The Practicum homework-status bot (homework.py): the checks its polling loop applies
 * to each answer of the homework API, the notification it builds from a homework
 * record, the credential check at start-up, and the cursor (`current_timestamp`)
 * that the loop carries from one request to the next.
 *
 * The HTTP request, the Telegram bot, the clock and the logger are not modelled: the
 * clock reading and the outcome of each request are parameters, and a notification is
 * a value the model returns instead of sending it.
 */
module Homework {
  import opened Results
  import opened PyJson

  // ---------------------------------------------------------------------------
  // Credentials

  /** What `os.getenv` gave for YA_TOKEN, TOKEN and TELEGRAM_ID; None when unset. */
  datatype Tokens = Tokens(practicum: Option<string>, telegram: Option<string>, chatId: Option<string>)

  /** check_tokens: every one of the three variables is set; an empty value counts as set. */
  function CheckTokens(t: Tokens): (ok: bool)
    ensures ok <==> None !in [t.practicum, t.telegram, t.chatId]
  {
    !(t.practicum.None? || t.telegram.None? || t.chatId.None?)
  }

  // ---------------------------------------------------------------------------
  // Errors

  /** The exception a polling cycle raises, one value per place that raises it. */
  datatype Error =
    | RequestFailed             // Exception: requests.get itself failed
    | NegativeApiStatus         // exceptions.NegativeApiStatus: status code other than 200
    | UndecodableBody           // the body is not JSON, so .json() raises
    | ResponseNotDict           // TypeError: response['homeworks'] on an answer that is not a dict
    | MissingHomeworksKey       // KeyError: the answer has no 'homeworks'
    | HomeworksNotList          // exceptions.HomeWorkIsNotList
    | EmptyHomeworks            // IndexError: homeworks_list[0] on an empty list
    | HomeworkNotContainer      // TypeError: `in` on None, a bool or an int
    | MissingName               // KeyError: no 'homework_name'
    | MissingStatus             // exceptions.HomewokrStatusError: no 'status'
    | HomeworkNotDict           // TypeError: homework['homework_name'] on a list or a str
    | UnhashableStatus          // TypeError: a list or dict looked up in HOMEWORK_STATUSES
    | UnknownStatus(status: Json) // Exception: a status that is not one of the three keys

  // ---------------------------------------------------------------------------
  // get_api_answer

  /** HTTPStatus.OK */
  const HttpOk := 200

  /** How `requests.get` ended: it raised, or it returned a status code and a body
      that `.json()` decodes (Some) or rejects (None). */
  datatype HttpOutcome = TransportError | Reply(statusCode: int, body: Option<Json>)

  /** The `from_date` parameter of the request: `current_timestamp or int(time.time())`. */
  function FromDate(cursor: Json, clock: int): (d: Json)
    ensures Truthy(cursor) ==> d == cursor
    ensures !Truthy(cursor) ==> d == JInt(clock)
  {
    if Truthy(cursor) then cursor else JInt(clock)
  }

  /** The rest of get_api_answer: what it returns or raises once the request has ended. */
  function ApiAnswer(outcome: HttpOutcome): (r: Result<Json, Error>)
    ensures outcome.TransportError? ==> r == Failure(RequestFailed)
    ensures outcome.Reply? && outcome.statusCode != HttpOk ==> r == Failure(NegativeApiStatus)
    ensures r.Success? <==> outcome.Reply? && outcome.statusCode == HttpOk && outcome.body.Some?
    ensures r.Success? ==> r.value == outcome.body.value
  {
    match outcome
    case TransportError => Failure(RequestFailed)
    case Reply(code, body) =>
      if code != HttpOk then Failure(NegativeApiStatus)
      else if body.None? then Failure(UndecodableBody)
      else Success(body.value)
  }

  // ---------------------------------------------------------------------------
  // check_response

  /** check_response: the first element of the answer's 'homeworks' list. */
  function CheckResponse(response: Json): (r: Result<Json, Error>)
    ensures !response.JObj? ==> r == Failure(ResponseNotDict)
    ensures response.JObj? && Lookup(response.fields, "homeworks").None? ==>
              r == Failure(MissingHomeworksKey)
    ensures response.JObj? && Lookup(response.fields, "homeworks").Some? &&
            !Lookup(response.fields, "homeworks").value.JList? ==>
              r == Failure(HomeworksNotList)
    ensures response.JObj? && Lookup(response.fields, "homeworks") == Some(JList([])) ==>
              r == Failure(EmptyHomeworks)
    ensures r.Success? <==>
              response.JObj? && Lookup(response.fields, "homeworks").Some? &&
              Lookup(response.fields, "homeworks").value.JList? &&
              Lookup(response.fields, "homeworks").value.items != []
    ensures r.Success? ==> r.value == Lookup(response.fields, "homeworks").value.items[0]
  {
    if !response.JObj? then Failure(ResponseNotDict)
    else match Lookup(response.fields, "homeworks")
      case None => Failure(MissingHomeworksKey)
      case Some(homeworks) =>
        if !homeworks.JList? then Failure(HomeworksNotList)
        else if homeworks.items == [] then Failure(EmptyHomeworks)
        else Success(homeworks.items[0])
  }

  /** An answer of the shape the code reads: a `homeworks` list, then `current_date`. */
  function Answer(homeworks: seq<Json>, currentDate: Json): Json {
    JObj([("homeworks", JList(homeworks)), ("current_date", currentDate)])
  }

  /** check_response gives back the first homework of a well-formed answer unchanged,
      and raises IndexError when the list is empty. */
  lemma CheckAnswer(homeworks: seq<Json>, currentDate: Json)
    ensures CheckResponse(Answer(homeworks, currentDate)) ==
              if homeworks == [] then Failure(EmptyHomeworks) else Success(homeworks[0])
  {
  }

  // ---------------------------------------------------------------------------
  // parse_status

  /** HOMEWORK_STATUSES: the verdict for each status the reviewers use. */
  const HomeworkStatuses: map<string, string> := map[
    "approved" := "Работа проверена: ревьюеру всё понравилось. Ура!",
    "reviewing" := "Работа взята на проверку ревьюером.",
    "rejected" := "Работа проверена: у ревьюера есть замечания."
  ]

  /** The notification for a homework whose name prints as `name` and whose status is `status`. */
  function StatusMessage(name: string, status: string): (m: string)
    requires status in HomeworkStatuses
    ensures |m| == |MessagePrefix| + |name| + 3 + |HomeworkStatuses[status]|
    ensures m[..|MessagePrefix|] == MessagePrefix
    ensures m[|MessagePrefix|..|MessagePrefix| + |name|] == name
    ensures m[|MessagePrefix| + |name|..|MessagePrefix| + |name| + 3] == "\". "
    ensures m[|m| - |HomeworkStatuses[status]|..] == HomeworkStatuses[status]
  {
    MessagePrefix + name + "\". " + HomeworkStatuses[status]
  }

  /** The fixed opening of every status notice, up to the quote before the name. */
  const MessagePrefix := "Изменился статус проверки работы \""

  /** Python's `key in homework`, for whatever value check_response handed over. */
  function Member(homework: Json, key: string): (r: Result<bool, Error>)
    ensures r.Failure? <==> homework.JNull? || homework.JBool? || homework.JInt?
    ensures r.Failure? ==> r.error == HomeworkNotContainer
    ensures homework.JObj? ==>
              (r.value <==> exists k :: 0 <= k < |homework.fields| && homework.fields[k].0 == key)
    ensures homework.JList? ==>
              (r.value <==> exists k :: 0 <= k < |homework.items| && homework.items[k] == JStr(key))
  {
    match homework
    case JObj(fields) => Success(Lookup(fields, key).Some?)
    case JList(items) => Success(JStr(key) in items)
    case JStr(s) => Success(Contains(s, key))
    case _ => Failure(HomeworkNotContainer)
  }

  /** parse_status: the notification for one homework record. The name is checked
      before the status, the status against the three keys of HOMEWORK_STATUSES, and
      anything but a dict is refused. */
  function ParseStatus(homework: Json): (r: Result<string, Error>)
    ensures !homework.JObj? ==> r.Failure?
    ensures homework.JObj? && Lookup(homework.fields, "homework_name").None? ==>
              r == Failure(MissingName)
    ensures homework.JObj? && Lookup(homework.fields, "homework_name").Some? &&
            Lookup(homework.fields, "status").None? ==>
              r == Failure(MissingStatus)
    ensures r.Success? <==>
              homework.JObj? && Lookup(homework.fields, "homework_name").Some? &&
              Lookup(homework.fields, "status").Some? &&
              Lookup(homework.fields, "status").value.JStr? &&
              Lookup(homework.fields, "status").value.s in HomeworkStatuses
    ensures r.Success? ==>
              r.value == StatusMessage(Str(Lookup(homework.fields, "homework_name").value),
                                       Lookup(homework.fields, "status").value.s)
  {
    var hasName :- Member(homework, "homework_name");
    if !hasName then Failure(MissingName)
    else
      // the type of homework was accepted by the first `in`, so the second does not raise
      var hasStatus := Member(homework, "status").value;
      if !hasStatus then Failure(MissingStatus)
      else if !homework.JObj? then Failure(HomeworkNotDict)
      else
        var name := Lookup(homework.fields, "homework_name").value;
        var status := Lookup(homework.fields, "status").value;
        if status.JList? || status.JObj? then Failure(UnhashableStatus)
        else if !(status.JStr? && status.s in HomeworkStatuses) then Failure(UnknownStatus(status))
        else Success(StatusMessage(Str(name), status.s))
  }

  /** A status that is present but is not one of the three keys raises, naming the
      status, whatever the rest of the record holds. */
  lemma UnknownStatusRaises(fields: seq<(string, Json)>, status: Json)
    requires Lookup(fields, "homework_name").Some?
    requires Lookup(fields, "status") == Some(status)
    requires !(status.JStr? && status.s in HomeworkStatuses)
    ensures ParseStatus(JObj(fields)) ==
              if status.JList? || status.JObj? then Failure(UnhashableStatus)
              else Failure(UnknownStatus(status))
  {
  }

  /** A record as the API sends it: a name and a status, both strings. */
  function Record(name: string, status: string): Json {
    JObj([("homework_name", JStr(name)), ("status", JStr(status))])
  }

  /** parse_status on such a record: the message carries the name unchanged and the
      status's verdict, and a status outside the three keys raises. */
  lemma ParseRecord(name: string, status: string)
    ensures ParseStatus(Record(name, status)) ==
              if status in HomeworkStatuses then Success(StatusMessage(name, status))
              else Failure(UnknownStatus(JStr(status)))
  {
    var fields := Record(name, status).fields;
    assert Lookup(fields, "homework_name") == Some(JStr(name));
    assert Lookup(fields, "status") == Some(JStr(status));
  }

  /** The three verdicts differ from one another. */
  lemma VerdictsDistinct(s1: string, s2: string)
    requires s1 in HomeworkStatuses && s2 in HomeworkStatuses
    ensures HomeworkStatuses[s1] == HomeworkStatuses[s2] <==> s1 == s2
  {
  }

  /** Two notifications are equal only when they name the same homework and the same
      status: a change of status under one name always changes the message. */
  lemma {:induction false} StatusMessageInjective(name1: string, s1: string, name2: string, s2: string)
    requires s1 in HomeworkStatuses && s2 in HomeworkStatuses
    ensures StatusMessage(name1, s1) == StatusMessage(name2, s2) <==> name1 == name2 && s1 == s2
  {
    if StatusMessage(name1, s1) == StatusMessage(name2, s2) {
      MessageEnding(name1, s1);
      MessageEnding(name2, s2);
      assert s1 == s2;
    }
  }

  /** A message ends with the last two characters of its verdict, which are different
      for each of the three statuses. */
  lemma MessageEnding(name: string, status: string)
    requires status in HomeworkStatuses
    ensures var m := StatusMessage(name, status);
            |m| >= 2 &&
            (status == "approved" ==> m[|m| - 2..] == "а!") &&
            (status == "reviewing" ==> m[|m| - 2..] == "м.") &&
            (status == "rejected" ==> m[|m| - 2..] == "я.")
  {
    var m, v := StatusMessage(name, status), HomeworkStatuses[status];
    assert m[|m| - 2..] == m[|m| - |v|..][|v| - 2..];
  }

  // ---------------------------------------------------------------------------
  // main

  /** One pass of main's try block up to the message: the checks of get_api_answer,
      check_response and parse_status, giving the decoded answer's items and the text. */
  function Cycle(outcome: HttpOutcome): (r: Result<(seq<(string, Json)>, string), Error>)
    ensures ApiAnswer(outcome).Failure? ==> r == Failure(ApiAnswer(outcome).error)
    ensures ApiAnswer(outcome).Success? && CheckResponse(ApiAnswer(outcome).value).Failure? ==>
              r == Failure(CheckResponse(ApiAnswer(outcome).value).error)
    ensures ApiAnswer(outcome).Success? && CheckResponse(ApiAnswer(outcome).value).Success? ==>
              var parsed := ParseStatus(CheckResponse(ApiAnswer(outcome).value).value);
              (parsed.Failure? ==> r == Failure(parsed.error)) &&
              (parsed.Success? ==> r == Success((ApiAnswer(outcome).value.fields, parsed.value)))
    ensures r.Success? ==> ApiAnswer(outcome) == Success(JObj(r.value.0))
  {
    var response :- ApiAnswer(outcome);
    var homework :- CheckResponse(response);
    var text :- ParseStatus(homework);
    Success((response.fields, text))
  }

  /** A reply other than 200 fails the cycle with NegativeApiStatus, whatever its body. */
  lemma NonOkReplyFails(code: int, body: Option<Json>)
    requires code != HttpOk
    ensures Cycle(Reply(code, body)) == Failure(NegativeApiStatus)
  {
  }

  /** A well-formed answer with a known status yields its notice, and one whose list is
      empty fails the cycle with IndexError instead of passing quietly. */
  lemma CycleOnAnswer(homeworks: seq<Json>, currentDate: Json, name: string, status: string)
    requires status in HomeworkStatuses
    ensures Cycle(Reply(HttpOk, Some(Answer([], currentDate)))) == Failure(EmptyHomeworks)
    ensures Cycle(Reply(HttpOk, Some(Answer([Record(name, status)] + homeworks, currentDate)))) ==
              Success((Answer([Record(name, status)] + homeworks, currentDate).fields,
                       StatusMessage(name, status)))
  {
    CheckAnswer([], currentDate);
    CheckAnswer([Record(name, status)] + homeworks, currentDate);
    ParseRecord(name, status);
  }

  /** `response.get('current_date')`: None when the answer does not carry it. */
  function CurrentDate(fields: seq<(string, Json)>): (d: Json)
    ensures Lookup(fields, "current_date").None? ==> d == JNull
    ensures Lookup(fields, "current_date").Some? ==> d == Lookup(fields, "current_date").value
  {
    match Lookup(fields, "current_date")
    case None => JNull
    case Some(v) => v
  }

  /** What one iteration of main's loop consumes: the clock as get_api_answer would read
      it, and how the request it makes ends. */
  datatype Round = Round(clock: int, outcome: HttpOutcome)

  /** What one iteration sends: the status notice, or the report of the exception. */
  datatype Message = Notice(text: string) | Alarm(error: Error)

  /** One iteration: the from_date it requested, the message it sent, the cursor it leaves. */
  datatype Turn = Turn(fromDate: Json, sent: Message, cursor: Json)

  /** One iteration of main's loop from cursor `cursor`. */
  function Step(cursor: Json, round: Round): (t: Turn)
    ensures t.fromDate == FromDate(cursor, round.clock)
    ensures Cycle(round.outcome).Failure? ==>
              t.sent == Alarm(Cycle(round.outcome).error) && t.cursor == cursor
    ensures Cycle(round.outcome).Success? ==>
              t.sent == Notice(Cycle(round.outcome).value.1) &&
              t.cursor == CurrentDate(Cycle(round.outcome).value.0)
  {
    var fromDate := FromDate(cursor, round.clock);
    match Cycle(round.outcome)
    case Success((fields, text)) => Turn(fromDate, Notice(text), CurrentDate(fields))
    case Failure(e) => Turn(fromDate, Alarm(e), cursor)
  }

  /** The from_date values requested, the messages sent and the cursor, after `rounds`. */
  datatype Log = Log(requests: seq<Json>, sent: seq<Message>, cursor: Json)

  /** The first |rounds| iterations of main's loop, started from cursor `start`:
      exactly one request and one message per iteration. */
  function History(start: Json, rounds: seq<Round>): (h: Log)
    ensures |h.requests| == |rounds| && |h.sent| == |rounds|
    decreases |rounds|
  {
    if rounds == [] then Log([], [], start)
    else
      var before := History(start, rounds[..|rounds| - 1]);
      var t := Step(before.cursor, rounds[|rounds| - 1]);
      Log(before.requests + [t.fromDate], before.sent + [t.sent], t.cursor)
  }

  /** Iteration i of a run is one Step from the cursor the first i iterations left. */
  lemma {:induction false} HistoryAt(start: Json, rounds: seq<Round>, i: nat)
    requires i < |rounds|
    ensures var t := Step(History(start, rounds[..i]).cursor, rounds[i]);
            && History(start, rounds).requests[i] == t.fromDate
            && History(start, rounds).sent[i] == t.sent
            && History(start, rounds[..i + 1]).cursor == t.cursor
    decreases |rounds|
  {
    var n := |rounds|;
    if i == n - 1 {
      assert rounds[..i + 1] == rounds;
    } else {
      var shorter := rounds[..n - 1];
      assert i + 1 <= |shorter| && shorter[i] == rounds[i];
      assert shorter[..i] == rounds[..i];
      assert shorter[..i + 1] == rounds[..i + 1];
      HistoryAt(start, shorter, i);
      var before := History(start, shorter);
      assert History(start, rounds).requests == before.requests + [Step(before.cursor, rounds[n - 1]).fromDate];
      assert History(start, rounds).sent == before.sent + [Step(before.cursor, rounds[n - 1]).sent];
    }
  }

  /** An iteration that fails sends exactly one report of its exception and leaves the
      cursor where it was; one that succeeds sends its notice. */
  lemma OneMessagePerIteration(start: Json, rounds: seq<Round>, i: nat)
    requires i < |rounds|
    ensures Cycle(rounds[i].outcome).Failure? ==>
              History(start, rounds).sent[i] == Alarm(Cycle(rounds[i].outcome).error) &&
              History(start, rounds[..i + 1]).cursor == History(start, rounds[..i]).cursor
    ensures Cycle(rounds[i].outcome).Success? ==>
              History(start, rounds).sent[i] == Notice(Cycle(rounds[i].outcome).value.1)
  {
    HistoryAt(start, rounds, i);
  }

  /** The loop keeps no memory of what it sent: when two iterations in a row get the
      same answer and it yields a notice, both send that notice. */
  lemma NoDeduplication(start: Json, rounds: seq<Round>, i: nat)
    requires i + 1 < |rounds|
    requires rounds[i + 1].outcome == rounds[i].outcome
    requires Cycle(rounds[i].outcome).Success?
    ensures History(start, rounds).sent[i] == History(start, rounds).sent[i + 1]
              == Notice(Cycle(rounds[i].outcome).value.1)
  {
    HistoryAt(start, rounds, i);
    HistoryAt(start, rounds, i + 1);
  }

  /** The same well-formed answer twice in a row: its first record's notice is sent twice. */
  lemma RepeatedAnswerRepeatsNotice(start: Json, rounds: seq<Round>, i: nat, homeworks: seq<Json>,
                                    currentDate: Json, name: string, status: string)
    requires i + 1 < |rounds| && status in HomeworkStatuses
    requires rounds[i].outcome == Reply(HttpOk, Some(Answer([Record(name, status)] + homeworks, currentDate)))
    requires rounds[i + 1].outcome == rounds[i].outcome
    ensures History(start, rounds).sent[i] == Notice(StatusMessage(name, status))
    ensures History(start, rounds).sent[i + 1] == Notice(StatusMessage(name, status))
  {
    CycleOnAnswer(homeworks, currentDate, name, status);
    NoDeduplication(start, rounds, i);
  }

  /** After an iteration whose answer has no 'current_date', the cursor is None, so the
      next request falls back to the clock. */
  lemma CursorFallsBackToClock(start: Json, rounds: seq<Round>, i: nat)
    requires i + 1 < |rounds|
    requires Cycle(rounds[i].outcome).Success?
    requires Lookup(Cycle(rounds[i].outcome).value.0, "current_date").None?
    ensures History(start, rounds[..i + 1]).cursor == JNull
    ensures History(start, rounds).requests[i + 1] == JInt(rounds[i + 1].clock)
  {
    HistoryAt(start, rounds, i);
    HistoryAt(start, rounds, i + 1);
  }

  /** How a run of main ends: KeyError before the loop when a token is missing, or the
      log of the iterations it made. */
  datatype Run = MissingTokens | Polled(log: Log)

  /** main, over the finitely many iterations listed in `rounds`; `start` is the clock
      reading that becomes the first cursor. */
  method Poll(tokens: Tokens, start: int, rounds: seq<Round>) returns (run: Run)
    ensures run.MissingTokens? <==> !CheckTokens(tokens)
    ensures run.Polled? ==> run.log == History(JInt(start), rounds)
  {
    if !CheckTokens(tokens) {
      return MissingTokens;
    }
    var cursor := JInt(start);
    var requests: seq<Json> := [];
    var sent: seq<Message> := [];
    var i := 0;
    while i < |rounds|
      invariant 0 <= i <= |rounds|
      invariant Log(requests, sent, cursor) == History(JInt(start), rounds[..i])
    {
      var round := rounds[i];
      var fromDate := FromDate(cursor, round.clock);
      requests := requests + [fromDate];
      match Cycle(round.outcome) {
        case Success((fields, text)) =>
          sent := sent + [Notice(text)];
          cursor := CurrentDate(fields);
        case Failure(e) =>
          sent := sent + [Alarm(e)];
      }
      assert rounds[..i + 1][..i] == rounds[..i];
      i := i + 1;
    }
    assert rounds[..i] == rounds;
    return Polled(Log(requests, sent, cursor));
  }
}
