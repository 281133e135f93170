/** What the engine and the router write to the append-only file. One constructor per shape of the
    metadata dictionary; MESSAGE_REQUEUE has two shapes. */
module Journal {
  import opened Types

  datatype Meta =
    | QueueDeclare(name: QName, durable: bool, maxLength: Option<int>, visibilityTimeout: Time,
                   maxAttempts: int, deadLetter: bool)
    | QueueDelete(name: QName)
    | ExchangeDeclare(exchange: string, kind: string, durable: bool)
    | ExchangeDelete(exchange: string)
    | Bind(exchange: string, queue: QName, routingKey: string)
    | Unbind(exchange: string, queue: QName, routingKey: string)
    | MessagePublish(id: Id, queue: QName, attempts: nat, maxAttempts: int, priority: int,
                     availableAt: Option<Time>, info: Info)
    | MessageAck(id: Id, queue: QName)
    | MessageNack(id: Id, queue: QName, requeue: bool)
    | MessageRetry(id: Id, queue: QName, retryAt: Time, attempts: nat)
    | MessageRequeue(id: Id, source: QName, target: QName)
    | MessageDead(id: Id, queue: QName, attempts: nat)

  datatype Rec = Rec(meta: Meta, payload: Bytes)

  /** The operation number stored in a record's header. */
  function OpCode(meta: Meta): nat {
    match meta
    case QueueDeclare(_, _, _, _, _, _) => 1
    case QueueDelete(_) => 2
    case ExchangeDeclare(_, _, _) => 3
    case ExchangeDelete(_) => 4
    case Bind(_, _, _) => 5
    case Unbind(_, _, _) => 6
    case MessagePublish(_, _, _, _, _, _, _) => 7
    case MessageAck(_, _) => 8
    case MessageNack(_, _, _) => 9
    case MessageRetry(_, _, _, _) => 10
    case MessageRequeue(_, _, _) => 10
    case MessageDead(_, _, _) => 11
  }

  function PublishRec(m: Message): Rec {
    Rec(MessagePublish(m.id, m.queue, m.attempts, m.maxAttempts, m.priority, m.availableAt, m.info), m.payload)
  }
}
