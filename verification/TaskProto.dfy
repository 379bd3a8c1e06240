/** Task and its protobuf message. Field widths agree on both sides except for the state. */
module TaskProto {
  import opened JsonStruct
  import opened RoundTrip

  /** An enum class over std::uint8_t, and an open proto3 enum over int32. */
  type Byte = x: int | 0 <= x < 256
  type Int32 = x: int | -0x8000_0000 <= x < 0x8000_0000

  datatype Resource = Resource(cpuCore: real, memMb: nat)
  datatype Shard = Shard(shardId: nat, totalShards: nat)

  datatype Task = Task(
    taskId: string, clientId: string, priority: nat, state: Byte, cancelled: bool,
    funcName: string, funcParams: Json, required: Resource, shard: Shard,
    timeoutMs: nat, maxRetry: nat, retryCount: nat,
    submitTs: int, startTs: int, finishTs: int, result: Json, errorMsg: string)

  datatype PbTask = PbTask(
    taskId: string, clientId: string, priority: nat, state: Int32,
    funcName: string, funcParams: Struct, required: Resource, shard: Shard,
    timeoutMs: nat, maxRetry: nat, retryCount: nat,
    submitTs: int, startTs: int, finishTs: int, result: Struct, errorMsg: string)

  /** A default-constructed task and message. */
  const FRESH_TASK := Task("", "", 0, 0, false, "", Null, Resource(0.0, 0), Shard(0, 1), 30000, 3, 0, 0, 0, 0, Null, "")
  const FRESH_MESSAGE := PbTask(
    "", "", 0, 0, "", Struct(map[]), Resource(0.0, 0), Shard(0, 0), 0, 0, 0, 0, 0, 0, Struct(map[]), "")

  /** The message carries every field of the task but `cancelled`. */
  ghost predicate Carries(p: PbTask, t: Task) {
    && p.taskId == t.taskId && p.clientId == t.clientId && p.priority == t.priority && p.state == t.state
    && p.funcName == t.funcName && p.funcParams == ToStruct(t.funcParams)
    && p.required == t.required && p.shard == t.shard
    && p.timeoutMs == t.timeoutMs && p.maxRetry == t.maxRetry && p.retryCount == t.retryCount
    && p.submitTs == t.submitTs && p.startTs == t.startTs && p.finishTs == t.finishTs
    && p.result == ToStruct(t.result) && p.errorMsg == t.errorMsg
  }

  method TaskToProto(task: Task) returns (proto: PbTask)
    ensures Carries(proto, task)
  {
    proto := FRESH_MESSAGE;
    proto := proto.(taskId := task.taskId);
    proto := proto.(clientId := task.clientId);
    proto := proto.(priority := task.priority);
    proto := proto.(state := task.state);
    proto := proto.(funcName := task.funcName);
    var params := JsonToStruct(task.funcParams);
    proto := proto.(funcParams := params);
    proto := proto.(required := proto.required.(cpuCore := task.required.cpuCore));
    proto := proto.(required := proto.required.(memMb := task.required.memMb));
    proto := proto.(shard := proto.shard.(shardId := task.shard.shardId));
    proto := proto.(shard := proto.shard.(totalShards := task.shard.totalShards));
    proto := proto.(timeoutMs := task.timeoutMs);
    proto := proto.(maxRetry := task.maxRetry);
    proto := proto.(retryCount := task.retryCount);
    proto := proto.(submitTs := task.submitTs);
    proto := proto.(startTs := task.startTs);
    proto := proto.(finishTs := task.finishTs);
    var result := JsonToStruct(task.result);
    proto := proto.(result := result);
    proto := proto.(errorMsg := task.errorMsg);
  }

  /** The task read from a message; the 32-bit state is cut to eight bits and `cancelled` is new. */
  ghost predicate Reads(t: Task, p: PbTask) {
    && t.taskId == p.taskId && t.clientId == p.clientId && t.priority == p.priority && t.state == p.state % 256
    && !t.cancelled
    && t.funcName == p.funcName && t.funcParams == ToJson(p.funcParams)
    && t.required == p.required && t.shard == p.shard
    && t.timeoutMs == p.timeoutMs && t.maxRetry == p.maxRetry && t.retryCount == p.retryCount
    && t.submitTs == p.submitTs && t.startTs == p.startTs && t.finishTs == p.finishTs
    && t.result == ToJson(p.result) && t.errorMsg == p.errorMsg
  }

  method TaskFromProto(proto: PbTask) returns (task: Task)
    ensures Reads(task, proto)
  {
    task := FRESH_TASK;
    task := task.(taskId := proto.taskId);
    task := task.(clientId := proto.clientId);
    task := task.(priority := proto.priority);
    task := task.(state := proto.state % 256);
    task := task.(funcName := proto.funcName);
    var params := StructToJson(proto.funcParams);
    task := task.(funcParams := params);
    task := task.(required := task.required.(cpuCore := proto.required.cpuCore));
    task := task.(required := task.required.(memMb := proto.required.memMb));
    task := task.(shard := task.shard.(shardId := proto.shard.shardId));
    task := task.(shard := task.shard.(totalShards := proto.shard.totalShards));
    task := task.(timeoutMs := proto.timeoutMs);
    task := task.(maxRetry := proto.maxRetry);
    task := task.(retryCount := proto.retryCount);
    task := task.(submitTs := proto.submitTs);
    task := task.(startTs := proto.startTs);
    task := task.(finishTs := proto.finishTs);
    var result := StructToJson(proto.result);
    task := task.(result := result);
    task := task.(errorMsg := proto.errorMsg);
  }

  /**
  A task comes back from its message with every field but `cancelled` unchanged exactly when its
  parameters and its result are null or solid objects.
  */
  lemma TaskTripIff(t: Task, p: PbTask, t': Task)
    requires Carries(p, t) && Reads(t', p)
    ensures t' == t.(cancelled := false, funcParams := Trip(t.funcParams), result := Trip(t.result))
    ensures t' == t.(cancelled := false) <==> Settled(t.funcParams) && Settled(t.result)
  {
    TripIsIdentityIff(t.funcParams);
    TripIsIdentityIff(t.result);
  }

  /** A message comes back from its task unchanged exactly when its state fits a byte and both Structs are full. */
  lemma MessageTripIff(p: PbTask, t: Task, p': PbTask)
    requires Reads(t, p) && Carries(p', t)
    ensures p' == p <==> 0 <= p.state < 256 && Full(p.funcParams) && Full(p.result)
  {
    ReturnIsIdentityIff(p.funcParams);
    ReturnIsIdentityIff(p.result);
  }
}
