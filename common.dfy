/** Values shared by both chat front-ends: optional values, chat roles and
    avatars, result rows, chart payloads and what the warehouse query gives back. */
module Common {

  datatype Option<+T> = None | Some(value: T)

  /** The fixed assistant replies both front-ends use for an answered question and
      for one the backend could not answer. */
  const AnsweredText := "I'd be glad to help! Here's your answer!"
  const LearningText := "Hmm, I'm still learning about that. Could you rephrase your question, or provide more context?"

  /** The `role` key of a stored message: "human" or "assistant". */
  datatype Role = Human | Assistant

  /** The two avatar images a chat bubble can carry. */
  datatype Avatar = UserAvatar | AssistantAvatar

  /** Both front-ends pick the user image for "human" and the assistant image for
      every other role. */
  function AvatarFor(role: Role): Avatar
  {
    if role == Human then UserAvatar else AssistantAvatar
  }

  /** One row of a query result, column name to rendered value; the data frame is
      modelled as the sequence of its rows. */
  type Row = map<string, string>

  /** The `GeneratedChartjs` object the visualisation endpoint returns: the scripts
      that fill `chart_div` and `chart_div_1`. */
  datatype Charts = Charts(chartDiv: string, chartDiv1: string)

  /** What running the generated SQL on the warehouse client gives: the result rows,
      or an exception that nothing in the front-end catches. */
  datatype QueryOutcome = QueryRows(rows: seq<Row>) | QueryRaised
}
