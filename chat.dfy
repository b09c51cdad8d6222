/** The chat front-end: the transcript kept in the session state, the view chosen
    for each stored message, and the handler that turns one submitted question into
    backend calls and transcript entries. The backend, the warehouse and the
    visualisation service are inputs: each handler call is given what they would
    answer, and reports which of them it asked and with what. */
module Chat {
  import opened Common
  import opened Backend

  const NoDataText := "The query was generated successfully, but it did not return any data, please request different data!"

  /** At most this many rows are sent to the visualisation endpoint. */
  const VizRowCap := 12

  /** `ok_code` of an answered turn, of a turn whose query returned no rows, and of a
      turn the backend could not answer. */
  const Answered := 200
  const EmptyResult := 201
  const Unanswerable := 500

  /** The fields of the `generate_sql` response that the handler reads. */
  datatype SqlPayload = SqlPayload(responseCode: int, generatedSql: string)

  /** A stored message. A human message holds `role` and `content`; an assistant
      message also holds `ok_code`, `Dados`, `SQL`, `Graph1` and `Graph2`. The empty
      list the source stores in `SQL`, `Graph1` or `Graph2` of an unanswered turn is
      the empty string here: those fields are never shown for such a turn. */
  datatype Message =
    | HumanMessage(content: string)
    | AssistantMessage(content: string, okCode: int, dados: seq<Row>, sql: string, graph1: string, graph2: string)
  {
    function Role(): Role
    {
      if HumanMessage? then Human else Assistant
    }
  }

  /** A collaborator the handler asked, with what it passed. */
  datatype Call =
    | GenerateSql(question: string, database: string)
    | RunQuery(sql: string)
    | GenerateViz(question: string, sqlGenerated: string, sqlResults: seq<Row>)

  /** What one handler run does: the calls it makes in order, the messages it appends
      in order, and whether it ends by raising an exception. */
  datatype Turn = Turn(calls: seq<Call>, appended: seq<Message>, raised: bool)

  /** The outcome kind of a turn whose SQL generation came back: 500 when the backend
      did not report success, 201 when it did and the query returned no rows, 200
      otherwise. Exactly one applies to every input. */
  function Classify(responseCode: int, rows: seq<Row>): (okCode: int)
    ensures okCode == Unanswerable <==> responseCode != 200
    ensures okCode == EmptyResult <==> responseCode == 200 && |rows| == 0
    ensures okCode == Answered <==> responseCode == 200 && |rows| > 0
  {
    if responseCode != 200 then Unanswerable
    else if |rows| == 0 then EmptyResult
    else Answered
  }

  /** `result_df.head(12)`: the rows sent to the visualisation endpoint. */
  function VizRows(rows: seq<Row>): (sample: seq<Row>)
    ensures |sample| == if |rows| < VizRowCap then |rows| else VizRowCap
    ensures sample <= rows
  {
    if |rows| < VizRowCap then rows else rows[..VizRowCap]
  }

  /** The rows a query outcome carries (none when it raised). */
  function ResultRows(query: QueryOutcome): seq<Row>
  {
    if query.QueryRows? then query.rows else []
  }

  /** The handler from the point where `generate_sql` has returned a response object:
      it reads `ResponseCode`, runs the query, asks for charts and builds the assistant
      message. The calls and messages are those that follow the `generate_sql` call
      and the human message. */
  function Answer(prompt: string, payload: SqlPayload, query: QueryOutcome, viz: HttpOutcome<Charts>): (t: Turn)
    ensures |t.appended| <= 1 && (|t.appended| == 1 <==> !t.raised)
    ensures !t.raised ==> t.appended[0].AssistantMessage?
    ensures !t.raised ==> t.appended[0].okCode == Classify(payload.responseCode, ResultRows(query))
    // the backend could not answer: only the fixed reply, nothing queried
    ensures payload.responseCode != 200 ==>
      t == Turn([], [AssistantMessage(LearningText, Unanswerable, [], "", "", "")], false)
    // the query ran on exactly the generated SQL
    ensures payload.responseCode == 200 ==> |t.calls| >= 1 && t.calls[0] == RunQuery(payload.generatedSql)
    ensures payload.responseCode == 200 && query.QueryRaised? ==> t == Turn([RunQuery(payload.generatedSql)], [], true)
    // no rows: the SQL is kept for inspection and no chart is requested
    ensures payload.responseCode == 200 && query == QueryRows([]) ==>
      t == Turn([RunQuery(payload.generatedSql)], [AssistantMessage(NoDataText, EmptyResult, [], payload.generatedSql, "", "")], false)
    // rows: at most the first twelve go to the chart request; the full result is stored
    ensures payload.responseCode == 200 && query.QueryRows? && query.rows != [] ==>
      var sampled := if |query.rows| < VizRowCap then |query.rows| else VizRowCap;
      |t.calls| == 2 && t.calls[1] == GenerateViz(prompt, payload.generatedSql, query.rows[..sampled]) &&
      (t.raised <==> Fails(viz)) &&
      (!t.raised ==> t.appended[0] == AssistantMessage(AnsweredText, Answered, query.rows, payload.generatedSql, viz.body.chartDiv, viz.body.chartDiv1))
    // charts are requested only for a non-empty result
    ensures forall i | 0 <= i < |t.calls| :: t.calls[i].GenerateViz? ==>
      payload.responseCode == 200 && |ResultRows(query)| > 0
  {
    if payload.responseCode == 200 then
      var sql := payload.generatedSql;
      match query
      case QueryRaised => Turn([RunQuery(sql)], [], true)
      case QueryRows(rows) =>
        if |rows| > 0 then
          var asked := [RunQuery(sql), GenerateViz(prompt, sql, VizRows(rows))];
          match CallGenerateViz(viz)
          // subscripting the `None` sentinel raises before anything is appended
          case None => Turn(asked, [], true)
          case Some(charts) =>
            Turn(asked, [AssistantMessage(AnsweredText, Answered, rows, sql, charts.chartDiv, charts.chartDiv1)], false)
        else
          Turn([RunQuery(sql)], [AssistantMessage(NoDataText, EmptyResult, [], sql, "", "")], false)
    else
      Turn([], [AssistantMessage(LearningText, Unanswerable, [], "", "", "")], false)
  }

  /** One run of the prompt handler, as written. A falsy prompt does nothing.
      Otherwise the human message is stored first and `generate_sql` is asked; when
      that call failed, the wrapper's error string is subscripted as if it were the
      response object, which raises, so only the human message is stored. */
  function Respond(prompt: string, database: string, sqlOutcome: HttpOutcome<SqlPayload>,
                   query: QueryOutcome, viz: HttpOutcome<Charts>): (t: Turn)
    ensures prompt == "" ==> t == Turn([], [], false)
    // the human message comes first, and generate_sql is the first call
    ensures prompt != "" ==> |t.appended| >= 1 && t.appended[0] == HumanMessage(prompt)
    ensures prompt != "" ==> |t.calls| >= 1 && t.calls[0] == GenerateSql(prompt, database)
    // a completed turn adds exactly a human message and then an assistant message
    ensures |t.appended| == 2 <==> prompt != "" && !t.raised
    ensures t.raised ==> |t.appended| == 1
    ensures |t.appended| == 2 ==> t.appended[1].AssistantMessage?
    ensures prompt != "" && Fails(sqlOutcome) ==> t == Turn([GenerateSql(prompt, database)], [HumanMessage(prompt)], true)
    ensures prompt != "" && !Fails(sqlOutcome) ==>
      t == Turn([GenerateSql(prompt, database)] + Answer(prompt, sqlOutcome.body, query, viz).calls,
                [HumanMessage(prompt)] + Answer(prompt, sqlOutcome.body, query, viz).appended,
                Answer(prompt, sqlOutcome.body, query, viz).raised)
  {
    if prompt == "" then Turn([], [], false)
    else
      var asked := [GenerateSql(prompt, database)];
      match CallGenerateSql(sqlOutcome)
      case ErrorText(_) => Turn(asked, [HumanMessage(prompt)], true)
      case Value(payload) =>
        var rest := Answer(prompt, payload, query, viz);
        Turn(asked + rest.calls, [HumanMessage(prompt)] + rest.appended, rest.raised)
  }

  /** The handler with the evident intent of the wrappers' error strings: a failed
      `generate_sql` request is answered like a backend that could not answer, so a
      turn always ends with an assistant message unless the query or the chart
      request raises. */
  function RespondGuarded(prompt: string, database: string, sqlOutcome: HttpOutcome<SqlPayload>,
                          query: QueryOutcome, viz: HttpOutcome<Charts>): (t: Turn)
    ensures prompt != "" && Fails(sqlOutcome) ==>
      t == Turn([GenerateSql(prompt, database)],
                [HumanMessage(prompt), AssistantMessage(LearningText, Unanswerable, [], "", "", "")], false)
    ensures prompt == "" || !Fails(sqlOutcome) ==> t == Respond(prompt, database, sqlOutcome, query, viz)
  {
    if prompt != "" && Fails(sqlOutcome) then
      var rest := Answer(prompt, SqlPayload(0, ""), query, viz);
      Turn([GenerateSql(prompt, database)] + rest.calls, [HumanMessage(prompt)] + rest.appended, rest.raised)
    else
      Respond(prompt, database, sqlOutcome, query, viz)
  }

  /** As written, a transport failure of `generate_sql` leaves the human message
      without a reply, so the transcript grows by one entry, not two. */
  lemma TransportFailureDropsReply(prompt: string, database: string, message: string,
                                   query: QueryOutcome, viz: HttpOutcome<Charts>)
    requires prompt != ""
    ensures var t := Respond(prompt, database, TransportFailure(message), query, viz);
      t.raised && t.appended == [HumanMessage(prompt)]
    ensures var t := RespondGuarded(prompt, database, TransportFailure(message), query, viz);
      !t.raised && |t.appended| == 2 && t.appended[1].okCode == Unanswerable
  {
  }

  /** One submitted question with the answers its collaborators would give. */
  datatype Exchange = Exchange(prompt: string, sqlOutcome: HttpOutcome<SqlPayload>, query: QueryOutcome, viz: HttpOutcome<Charts>)

  function Run(database: string, x: Exchange): Turn
  {
    Respond(x.prompt, database, x.sqlOutcome, x.query, x.viz)
  }

  /** The transcript after handling the exchanges in order, starting from `start`. */
  function Conversation(database: string, start: seq<Message>, xs: seq<Exchange>): seq<Message>
    decreases |xs|
  {
    if xs == [] then start
    else Conversation(database, start, xs[..|xs| - 1]) + Run(database, xs[|xs| - 1]).appended
  }

  /** A question that is submitted and handled without an exception. */
  predicate Completes(database: string, x: Exchange)
  {
    x.prompt != "" && !Run(database, x).raised
  }

  /** Handling never changes an earlier entry, and each exchange adds at most two. */
  lemma {:induction false} ConversationExtends(database: string, start: seq<Message>, xs: seq<Exchange>)
    ensures start <= Conversation(database, start, xs)
    ensures |Conversation(database, start, xs)| <= |start| + 2 * |xs|
    decreases |xs|
  {
    if xs != [] {
      ConversationExtends(database, start, xs[..|xs| - 1]);
    }
  }

  /** When every question is submitted and handled without an exception, the
      transcript holds two entries per question, in submission order: the question's
      human message, then an assistant reply. */
  lemma {:induction false} ConversationAlternates(database: string, start: seq<Message>, xs: seq<Exchange>)
    requires forall i | 0 <= i < |xs| :: Completes(database, xs[i])
    ensures |Conversation(database, start, xs)| == |start| + 2 * |xs|
    ensures Conversation(database, start, xs)[..|start|] == start
    ensures forall i | 0 <= i < |xs| ::
      Conversation(database, start, xs)[|start| + 2 * i] == HumanMessage(xs[i].prompt) &&
      Conversation(database, start, xs)[|start| + 2 * i + 1].AssistantMessage?
    decreases |xs|
  {
    if xs != [] {
      var n := |xs| - 1;
      var prev := Conversation(database, start, xs[..n]);
      ConversationAlternates(database, start, xs[..n]);
      var added := Run(database, xs[n]).appended;
      assert Completes(database, xs[n]);
      assert Conversation(database, start, xs) == prev + added;
      forall i | 0 <= i < |xs|
        ensures Conversation(database, start, xs)[|start| + 2 * i] == HumanMessage(xs[i].prompt)
        ensures Conversation(database, start, xs)[|start| + 2 * i + 1].AssistantMessage?
      {
        if i < n {
          assert xs[..n][i] == xs[i];
        }
      }
    }
  }

  /** What a stored message shows under its heading. */
  datatype Tab = ChartTab(script: string) | DataTab(rows: seq<Row>) | SqlTab(sql: string)
  datatype Body =
    | TextOnly
    | DataTabs(tabs: seq<Tab>)      // "Dados Solicitados:" with its tabs
    | SqlPreview(sql: string)       // "Generated SQL:"
  datatype View = View(role: Role, avatar: Avatar, content: string, body: Body)

  /** The view of one stored message: every message shows its content; an answered
      reply adds the data and SQL tabs, preceded by the two chart tabs when graphs are
      switched on; a reply without rows adds its SQL; any other reply adds nothing. */
  function ViewOf(m: Message, showGraphs: bool): (v: View)
    ensures v.role == m.Role() && v.content == m.content
    ensures v.avatar == UserAvatar <==> m.HumanMessage?
    ensures v.body.DataTabs? <==> m.AssistantMessage? && m.okCode == Answered
    ensures v.body.DataTabs? ==>
      |v.body.tabs| == (if showGraphs then 4 else 2) &&
      v.body.tabs[|v.body.tabs| - 2..] == [DataTab(m.dados), SqlTab(m.sql)] &&
      (showGraphs ==> v.body.tabs[..2] == [ChartTab(m.graph1), ChartTab(m.graph2)])
    ensures v.body.SqlPreview? <==> m.AssistantMessage? && m.okCode == EmptyResult
    ensures v.body.SqlPreview? ==> v.body.sql == m.sql
  {
    var body :=
      match m
      case HumanMessage(_) => TextOnly
      case AssistantMessage(_, okCode, dados, sql, graph1, graph2) =>
        if okCode == Answered then
          DataTabs((if showGraphs then [ChartTab(graph1), ChartTab(graph2)] else []) + [DataTab(dados), SqlTab(sql)])
        else if okCode == EmptyResult then SqlPreview(sql)
        else TextOnly;
    View(m.Role(), AvatarFor(m.Role()), m.content, body)
  }

  /** The Streamlit session state as far as the chat uses it: `session_data` with its
      `messages` list, absent until the first run of a browser session. */
  class SessionState {
    var sessionData: Option<seq<Message>>

    /** A new browser session has no `session_data` yet. */
    constructor ()
      ensures sessionData == None
    {
      sessionData := None;
    }

    /** Creates the empty transcript only when the session has none; an existing one
        is kept as it is. */
    method EnsureTranscript()
      modifies this
      ensures old(sessionData).Some? ==> sessionData == old(sessionData)
      ensures old(sessionData).None? ==> sessionData == Some([])
    {
      if sessionData.None? {
        sessionData := Some([]);
      }
    }

    /** Draws every stored message, oldest first. */
    method Render(showGraphs: bool) returns (views: seq<View>)
      requires sessionData.Some?
      ensures |views| == |sessionData.value|
      ensures forall i | 0 <= i < |views| :: views[i] == ViewOf(sessionData.value[i], showGraphs)
    {
      var messages := sessionData.value;
      views := [];
      for i := 0 to |messages|
        invariant |views| == i
        invariant forall k | 0 <= k < i :: views[k] == ViewOf(messages[k], showGraphs)
      {
        views := views + [ViewOf(messages[i], showGraphs)];
      }
    }

    /** Handles one submitted prompt, appending to the stored transcript as it goes.
        Returns the calls made, in order, and whether the run ended in an exception. */
    method Submit(prompt: string, database: string, sqlOutcome: HttpOutcome<SqlPayload>,
                  query: QueryOutcome, viz: HttpOutcome<Charts>)
      returns (calls: seq<Call>, raised: bool)
      requires sessionData.Some?
      modifies this
      ensures var t := Respond(prompt, database, sqlOutcome, query, viz);
        sessionData == Some(old(sessionData.value) + t.appended) && calls == t.calls && raised == t.raised
      ensures old(sessionData.value) <= sessionData.value
      ensures |sessionData.value| == |old(sessionData.value)| + (if prompt == "" then 0 else if raised then 1 else 2)
    {
      ghost var before := sessionData.value;
      ghost var t := Respond(prompt, database, sqlOutcome, query, viz);
      calls, raised := [], false;
      if prompt == "" {
        assert before + [] == before;
        return;
      }
      sessionData := Some(sessionData.value + [HumanMessage(prompt)]);
      calls := calls + [GenerateSql(prompt, database)];
      var reply := CallGenerateSql(sqlOutcome);
      if reply.ErrorText? {
        // `result_sql_code["ResponseCode"]` on the error string raises
        raised := true;
        assert t.appended == [HumanMessage(prompt)];
        return;
      }
      var sql := reply.value.generatedSql;
      if reply.value.responseCode == 200 {
        calls := calls + [RunQuery(sql)];
        if query.QueryRaised? {
          raised := true;
          assert t.appended == [HumanMessage(prompt)] && calls == t.calls;
          return;
        }
        var rows := query.rows;
        if |rows| > 0 {
          calls := calls + [GenerateViz(prompt, sql, VizRows(rows))];
          var graph := CallGenerateViz(viz);
          if graph.None? {
            raised := true;
            assert t.appended == [HumanMessage(prompt)] && calls == t.calls;
            return;
          }
          var answer := AssistantMessage(AnsweredText, Answered, rows, sql, graph.value.chartDiv, graph.value.chartDiv1);
          sessionData := Some(sessionData.value + [answer]);
          assert sessionData.value == before + [HumanMessage(prompt), answer];
          assert t.appended == [HumanMessage(prompt), answer];
          assert calls == t.calls;
        } else {
          var noData := AssistantMessage(NoDataText, EmptyResult, [], sql, "", "");
          sessionData := Some(sessionData.value + [noData]);
          assert sessionData.value == before + [HumanMessage(prompt), noData];
          assert t.appended == [HumanMessage(prompt), noData];
          assert calls == t.calls;
        }
      } else {
        var learning := AssistantMessage(LearningText, Unanswerable, [], "", "", "");
        sessionData := Some(sessionData.value + [learning]);
        assert sessionData.value == before + [HumanMessage(prompt), learning];
        assert t.appended == [HumanMessage(prompt), learning];
        assert calls == t.calls;
      }
    }

    /** One run of the page script: create the transcript if needed, draw what is
        stored, then handle the prompt (its messages are drawn by the next run). */
    method RunScript(showGraphs: bool, prompt: string, database: string, sqlOutcome: HttpOutcome<SqlPayload>,
                     query: QueryOutcome, viz: HttpOutcome<Charts>)
      returns (views: seq<View>, calls: seq<Call>, raised: bool)
      modifies this
      ensures var before := if old(sessionData).Some? then old(sessionData.value) else [];
        var t := Respond(prompt, database, sqlOutcome, query, viz);
        |views| == |before| &&
        (forall i | 0 <= i < |views| :: views[i] == ViewOf(before[i], showGraphs)) &&
        sessionData == Some(before + t.appended) && calls == t.calls && raised == t.raised
    {
      EnsureTranscript();
      views := Render(showGraphs);
      calls, raised := Submit(prompt, database, sqlOutcome, query, viz);
    }
  }
}
