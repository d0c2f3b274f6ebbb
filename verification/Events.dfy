/**
 * The event vocabulary the projections read. Conversation and event ids stand
 * for their rank under the collation used to sort; timestamps are opaque.
 */
module Events {
  import opened Seqs
  import opened Graphs
  import opened TaskGraphs

  datatype MessageId = MessageId(raw: string)
  datatype TaskId = TaskId(raw: string)
  datatype ToolCallId = ToolCallId(raw: string)

  datatype ContentPart = Text(text: string) | Opaque(kind: string, payload: string)
  datatype Role = SystemRole | UserRole | AssistantRole | ToolRole
  datatype MetaValue = Str(s: string) | Num(n: int)
  type Metadata = map<string, MetaValue>

  /** Node statuses an event may carry; the runtime itself uses six of them. */
  datatype TaskNodeStatus = Runtime(status: NodeStatus) | ReadyStatus | RunningStatus | SkippedStatus

  /** A node as `task.replan` carries it. */
  datatype AddedNode = AddedNode(id: NodeId, parentId: Option<NodeId>, goal: string, status: TaskNodeStatus,
                                 dependsOn: seq<NodeId>, result: Option<string>, error: Option<string>)

  datatype Body =
    | ConversationCreated(title: Option<string>, metadata: Option<Metadata>)
    | MessageStarted(messageId: MessageId, role: Role, startContent: Option<seq<ContentPart>>)
    | MessageCreated(messageId: MessageId, role: Role, content: seq<ContentPart>)
    | MessageDelta(messageId: MessageId, deltaText: Option<string>)
    | MessageCompleted(messageId: MessageId, finishReason: Option<string>, totalTokens: Option<int>)
    | MessageFailed(messageId: MessageId, error: string, code: Option<string>)
    | MessageCancelled(messageId: MessageId, reason: Option<string>)
    | TaskCreated(taskId: TaskId, taskTitle: string, rootNodeIds: seq<NodeId>)
    | TaskStarted(taskId: TaskId)
    | SubtaskCreated(taskId: TaskId, nodeId: NodeId, parentId: Option<NodeId>, goal: string,
                     dependsOn: seq<NodeId>, status: Option<TaskNodeStatus>)
    | NodeStarted(taskId: TaskId, nodeId: NodeId)
    | NodeCompleted(taskId: TaskId, nodeId: NodeId, result: string)
    | NodeFailed(taskId: TaskId, nodeId: NodeId, error: string)
    | TaskProgress(taskId: TaskId, node: Option<NodeId>, status: Option<TaskNodeStatus>)
    | TaskBlocked(taskId: TaskId, node: Option<NodeId>, why: string)
    | TaskReplan(taskId: TaskId, added: seq<AddedNode>, removed: seq<NodeId>,
                 updated: seq<(NodeId, seq<NodeId>)>)
    | TaskCompleted(taskId: TaskId)
    | TaskFailed(taskId: TaskId, error: string)
    | TaskCancelled(taskId: TaskId, reason: Option<string>)
    | ToolStarted(toolCallId: ToolCallId)
    | ToolCompleted(toolCallId: ToolCallId, result: string)
    | ToolFailed(toolCallId: ToolCallId, error: string)
    | OtherEvent(kind: string)

  datatype AIEvent = AIEvent(conversationId: int, sequence: int, eventId: int, schemaVersion: int,
                             timestamp: int, body: Body)

  const CURRENT_SCHEMA_VERSION := 1

  predicate IsMessageBody(b: Body) {
    b.MessageStarted? || b.MessageCreated? || b.MessageDelta? || b.MessageCompleted?
    || b.MessageFailed? || b.MessageCancelled?
  }

  /** Optional strings that JavaScript counts as true. */
  predicate Truthy(o: Option<string>) {
    o.Some? && o.value != ""
  }
}
