/** The older chat front-end. Its transcript holds only roles and texts; a truthy
    `generate_sql` result is taken as the SQL itself, run on the warehouse and sent,
    with every result row, to the visualisation endpoint; a falsy one gets the fixed
    fallback reply. */
module ChatOrig {
  import opened Common
  import opened Backend

  /** The decoded JSON object `generate_sql` answers with. */
  type SqlBody = map<string, string>

  /** What `call_generate_sql` returns: the decoded object, or an error string. */
  type SqlResult = StrOr<SqlBody>

  /** Python truthiness of that result: a non-empty object or a non-empty string. */
  predicate Truthy(r: SqlResult)
  {
    match r
    case Value(body) => body != map[]
    case ErrorText(text) => text != ""
  }

  /** A stored message: only `role` and `content`. */
  datatype Message = Message(role: Role, content: string)

  /** A collaborator the handler asked, with what it passed. The warehouse and the
      visualisation endpoint receive the `generate_sql` result as it was returned. */
  datatype Call =
    | GenerateSql(question: string, database: string)
    | RunQuery(sql: SqlResult)
    | GenerateViz(question: string, sqlGenerated: SqlResult, sqlResults: seq<Row>)

  /** What one handler run does: its calls, the messages it appends, whether it raises. */
  datatype Turn = Turn(calls: seq<Call>, appended: seq<Message>, raised: bool)

  /** One run of the prompt handler. A falsy prompt does nothing. Otherwise the human
      message is stored first; a truthy `generate_sql` result is queried, every row
      is sent for charts, and the fixed affirmative reply is stored once the first
      chart has been read from the answer; a falsy one gets the fixed fallback reply
      and nothing else is asked. */
  function Respond(prompt: string, database: string, sqlOutcome: HttpOutcome<SqlBody>,
                   query: QueryOutcome, viz: HttpOutcome<Charts>): (t: Turn)
    ensures prompt == "" ==> t == Turn([], [], false)
    ensures prompt != "" ==> |t.appended| >= 1 && t.appended[0] == Message(Human, prompt)
    ensures prompt != "" ==> |t.calls| >= 1 && t.calls[0] == GenerateSql(prompt, database)
    ensures |t.appended| == 2 <==> prompt != "" && !t.raised
    ensures t.raised ==> |t.appended| == 1
    // falsy result: the fallback reply, and neither the warehouse nor the charts are asked
    ensures prompt != "" && !Truthy(CallGenerateSql(sqlOutcome)) ==>
      t == Turn([GenerateSql(prompt, database)], [Message(Human, prompt), Message(Assistant, LearningText)], false)
    // truthy result: the result itself is the query, and all the rows go to the charts
    ensures prompt != "" && Truthy(CallGenerateSql(sqlOutcome)) ==>
      |t.calls| >= 2 && t.calls[1] == RunQuery(CallGenerateSql(sqlOutcome)) &&
      (t.raised <==> query.QueryRaised? || Fails(viz)) &&
      (query.QueryRaised? ==> t.calls == [GenerateSql(prompt, database), RunQuery(CallGenerateSql(sqlOutcome))]) &&
      (query.QueryRows? ==> |t.calls| == 3 && t.calls[2] == GenerateViz(prompt, CallGenerateSql(sqlOutcome), query.rows)) &&
      (!t.raised ==> t.appended == [Message(Human, prompt), Message(Assistant, AnsweredText)])
  {
    if prompt == "" then Turn([], [], false)
    else
      var human := Message(Human, prompt);
      var asked := [GenerateSql(prompt, database)];
      var result := CallGenerateSql(sqlOutcome);
      if Truthy(result) then
        match query
        case QueryRaised => Turn(asked + [RunQuery(result)], [human], true)
        case QueryRows(rows) =>
          var drawn := asked + [RunQuery(result), GenerateViz(prompt, result, rows)];
          match CallGenerateViz(viz)
          // the `None` sentinel is subscripted for the first chart and raises
          case None => Turn(drawn, [human], true)
          case Some(_) => Turn(drawn, [human, Message(Assistant, AnsweredText)], false)
      else
        Turn(asked, [human, Message(Assistant, LearningText)], false)
  }

  /** A failed `generate_sql` request (a transport failure or an error status)
      returns a non-empty error string, which is truthy: the handler takes the
      answering branch and hands that error text to the warehouse as its query. */
  lemma ErrorStringTakesAnswerBranch(prompt: string, database: string, sqlOutcome: HttpOutcome<SqlBody>,
                                     query: QueryOutcome, viz: HttpOutcome<Charts>)
    requires prompt != "" && Fails(sqlOutcome)
    ensures var t := Respond(prompt, database, sqlOutcome, query, viz);
      |t.calls| >= 2 && t.calls[1] == RunQuery(ErrorText(GenerateSqlPrefix + ExceptionText(sqlOutcome))) &&
      (query.QueryRows? && !Fails(viz) ==> t.appended[1] == Message(Assistant, AnsweredText))
  {
  }

  /** What replaying one stored message draws. */
  datatype Shown = Shown(role: Role, avatar: Avatar, content: string)

  /** The Streamlit session state as far as this front-end uses it: the `messages`
      list, absent until the first run of a browser session. */
  class SessionState {
    var messages: Option<seq<Message>>

    /** A new browser session has no `messages` yet. */
    constructor ()
      ensures messages == None
    {
      messages := None;
    }

    /** Creates the empty list only when the session has none; an existing one is
        kept as it is. */
    method EnsureMessages()
      modifies this
      ensures old(messages).Some? ==> messages == old(messages)
      ensures old(messages).None? ==> messages == Some([])
    {
      if messages.None? {
        messages := Some([]);
      }
    }

    /** Replays the stored messages in insertion order, each with its role, the
        avatar for that role and its content. */
    method Replay() returns (shown: seq<Shown>)
      requires messages.Some?
      ensures |shown| == |messages.value|
      ensures forall i | 0 <= i < |shown| ::
        shown[i] == Shown(messages.value[i].role, AvatarFor(messages.value[i].role), messages.value[i].content)
    {
      var stored := messages.value;
      shown := [];
      for i := 0 to |stored|
        invariant |shown| == i
        invariant forall k | 0 <= k < i :: shown[k] == Shown(stored[k].role, AvatarFor(stored[k].role), stored[k].content)
      {
        var message := stored[i];
        shown := shown + [Shown(message.role, AvatarFor(message.role), message.content)];
      }
    }

    /** Handles one submitted prompt, appending to the stored messages as it goes.
        Returns the calls made, in order, and whether the run ended in an exception. */
    method Submit(prompt: string, database: string, sqlOutcome: HttpOutcome<SqlBody>,
                  query: QueryOutcome, viz: HttpOutcome<Charts>)
      returns (calls: seq<Call>, raised: bool)
      requires messages.Some?
      modifies this
      ensures var t := Respond(prompt, database, sqlOutcome, query, viz);
        messages == Some(old(messages.value) + t.appended) && calls == t.calls && raised == t.raised
      ensures old(messages.value) <= messages.value
      ensures |messages.value| == |old(messages.value)| + (if prompt == "" then 0 else if raised then 1 else 2)
    {
      ghost var before := messages.value;
      ghost var t := Respond(prompt, database, sqlOutcome, query, viz);
      calls, raised := [], false;
      if prompt == "" {
        assert before + [] == before;
        return;
      }
      var human := Message(Human, prompt);
      messages := Some(messages.value + [human]);
      calls := calls + [GenerateSql(prompt, database)];
      var result := CallGenerateSql(sqlOutcome);
      if Truthy(result) {
        calls := calls + [RunQuery(result)];
        if query.QueryRaised? {
          raised := true;
          assert t.appended == [human] && calls == t.calls;
          return;
        }
        calls := calls + [GenerateViz(prompt, result, query.rows)];
        var graph := CallGenerateViz(viz);
        if graph.None? {
          raised := true;
          assert t.appended == [human] && calls == t.calls;
          return;
        }
        var answer := Message(Assistant, AnsweredText);
        messages := Some(messages.value + [answer]);
        assert messages.value == before + [human, answer];
        assert t.appended == [human, answer] && calls == t.calls;
      } else {
        var fallback := Message(Assistant, LearningText);
        messages := Some(messages.value + [fallback]);
        assert messages.value == before + [human, fallback];
        assert t.appended == [human, fallback] && calls == t.calls;
      }
    }
  }
}
