/** The page snapshot the extension sends and the chat turns exchanged with
    the model (the interfaces of server/src/types/index.ts and the
    ChatMessage interface of the Claude service). An optional string field
    that is absent is represented by "" — the source only ever tests such
    fields for truthiness, and both are falsy. */
module PageTypes {
  datatype TableData = TableData(index: nat, headers: seq<string>, rows: seq<seq<string>>)

  datatype MetricData = MetricData(selector: string, content: string, value: string, context: string)

  datatype ChartData = ChartData(index: nat, kind: string, ariaLabel: string, title: string, legend: string)

  datatype TextData = TextData(kind: string, content: string)

  datatype PageData = PageData(
    url: string,
    pageTitle: string,
    timestamp: string,
    tables: seq<TableData>,
    metrics: seq<MetricData>,
    charts: seq<ChartData>,
    texts: seq<TextData>)

  /** The two message roles, stored as 'user' and 'assistant'. */
  datatype Role = UserTurn | AssistantTurn

  datatype ChatMessage = ChatMessage(role: Role, content: string)
}
