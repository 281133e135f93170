/** Journal records as the dictionaries in which they are written. The operation is not part of the
    dictionary, and different operations may write the same one: reading a dictionary needs the operation,
    which the record's header holds. */
module Dictionaries {
  import opened Types
  import opened Journal

  datatype Value = Null | Bool(flag: bool) | Number(number: int) | Text(text: string)

  type Dict = map<string, Value>

  function Maybe(n: Option<int>): Value {
    if n.Some? then Number(n.value) else Null
  }

  /** What the program passes to its journal. */
  function ToDict(meta: Meta): Dict {
    match meta
    case QueueDeclare(n, durable, maxLength, visibilityTimeout, maxAttempts, deadLetter) =>
      map["name" := Text(n), "durable" := Bool(durable), "max_length" := Maybe(maxLength),
          "visibility_timeout" := Number(visibilityTimeout), "max_attempts" := Number(maxAttempts),
          "dead_letter" := Bool(deadLetter)]
    case QueueDelete(n) => map["name" := Text(n)]
    case ExchangeDeclare(e, kind, durable) => map["name" := Text(e), "type" := Text(kind), "durable" := Bool(durable)]
    case ExchangeDelete(e) => map["name" := Text(e)]
    case Bind(e, q, key) => map["exchange" := Text(e), "queue" := Text(q), "routing_key" := Text(key)]
    case Unbind(e, q, key) => map["exchange" := Text(e), "queue" := Text(q), "routing_key" := Text(key)]
    case MessagePublish(id, q, attempts, maxAttempts, priority, availableAt, info) =>
      map["id" := Text(id), "queue" := Text(q), "attempts" := Number(attempts), "max_attempts" := Number(maxAttempts),
          "priority" := Number(priority), "created_at" := Number(info.createdAt), "available_at" := Maybe(availableAt),
          "headers" := Text(info.headers), "exchange" := Text(info.exchange), "routing_key" := Text(info.routingKey)]
    case MessageAck(id, q) => map["id" := Text(id), "queue" := Text(q)]
    case MessageNack(id, q, requeue) => map["id" := Text(id), "queue" := Text(q), "requeue" := Bool(requeue)]
    case MessageRetry(id, q, retryAt, attempts) =>
      map["id" := Text(id), "queue" := Text(q), "available_at" := Number(retryAt), "attempts" := Number(attempts)]
    case MessageRequeue(id, source, target) => map["id" := Text(id), "from" := Text(source), "to" := Text(target)]
    case MessageDead(id, q, attempts) => map["id" := Text(id), "queue" := Text(q), "attempts" := Number(attempts)]
  }

  function TextAt(d: Dict, key: string): string {
    if key in d && d[key].Text? then d[key].text else ""
  }

  function FlagAt(d: Dict, key: string): bool {
    key in d && d[key].Bool? ==> d[key].flag
  }

  function NumberAt(d: Dict, key: string): Option<int> {
    if key in d && d[key].Number? then Some(d[key].number) else None
  }

  function CountAt(d: Dict, key: string): nat {
    if NumberAt(d, key).GetOr(0) >= 0 then NumberAt(d, key).GetOr(0) else 0
  }

  predicate Has(d: Dict, key: string) {
    key in d && d[key].Text?
  }

  /** What apply_record makes of an operation and its dictionary; nothing for an operation it does not know,
      and for a dictionary that lacks a name or an id that it looks up, which raises an error. */
  function Parse(op: nat, d: Dict): Option<Meta> {
    if op == 1 then ParseDeclare(d)
    else if op == 7 then ParsePublish(d)
    else if op <= 4 then ParseNamed(op, d)
    else if op <= 6 then ParseBinding(op, d)
    else ParseSettled(op, d)
  }

  function ParseDeclare(d: Dict): Option<Meta> {
    if !Has(d, "name") then None
    else
      Some(QueueDeclare(TextAt(d, "name"), FlagAt(d, "durable"), NumberAt(d, "max_length"),
                        NumberAt(d, "visibility_timeout").GetOr(0), NumberAt(d, "max_attempts").GetOr(0),
                        FlagAt(d, "dead_letter")))
  }

  function ParsePublish(d: Dict): Option<Meta> {
    if !(Has(d, "id") && Has(d, "queue")) then None
    else
      Some(MessagePublish(TextAt(d, "id"), TextAt(d, "queue"), CountAt(d, "attempts"),
                          NumberAt(d, "max_attempts").GetOr(0), NumberAt(d, "priority").GetOr(0),
                          NumberAt(d, "available_at"),
                          Info(NumberAt(d, "created_at").GetOr(0), TextAt(d, "headers"), TextAt(d, "exchange"),
                               TextAt(d, "routing_key"))))
  }

  function ParseNamed(op: nat, d: Dict): Option<Meta> {
    if !Has(d, "name") then None
    else if op == 2 then Some(QueueDelete(TextAt(d, "name")))
    else if op == 3 then Some(ExchangeDeclare(TextAt(d, "name"), TextAt(d, "type"), FlagAt(d, "durable")))
    else if op == 4 then Some(ExchangeDelete(TextAt(d, "name")))
    else None
  }

  function ParseBinding(op: nat, d: Dict): Option<Meta> {
    if !(Has(d, "exchange") && Has(d, "queue")) then None
    else if op == 5 then Some(Bind(TextAt(d, "exchange"), TextAt(d, "queue"), TextAt(d, "routing_key")))
    else if op == 6 then Some(Unbind(TextAt(d, "exchange"), TextAt(d, "queue"), TextAt(d, "routing_key")))
    else None
  }

  function ParseSettled(op: nat, d: Dict): Option<Meta> {
    if op == 8 && Has(d, "id") then Some(MessageAck(TextAt(d, "id"), TextAt(d, "queue")))
    else if op == 9 && Has(d, "id") then Some(MessageNack(TextAt(d, "id"), TextAt(d, "queue"), FlagAt(d, "requeue")))
    else if op == 10 && Has(d, "from") && Has(d, "to") && Has(d, "id") then
      Some(MessageRequeue(TextAt(d, "id"), TextAt(d, "from"), TextAt(d, "to")))
    else if op == 10 && !("from" in d && "to" in d) then
      Some(MessageRetry(TextAt(d, "id"), TextAt(d, "queue"), NumberAt(d, "available_at").GetOr(0), CountAt(d, "attempts")))
    else if op == 11 then Some(MessageDead(TextAt(d, "id"), TextAt(d, "queue"), CountAt(d, "attempts")))
    else None
  }

  /** Every record is read back as it was written, given the operation in its header. */
  lemma ParseDict(meta: Meta)
    ensures Parse(OpCode(meta), ToDict(meta)) == Some(meta)
  {
    hide ParseDeclare, ParsePublish, ParseNamed, ParseBinding, ParseSettled, ToDict;
    if meta.QueueDeclare? {
      DeclareDict(meta);
    } else if meta.MessagePublish? {
      PublishDict(meta);
    } else if OpCode(meta) <= 6 {
      RouterDict(meta);
    } else {
      SettledDict(meta);
    }
  }

  lemma DeclareDict(meta: Meta)
    requires meta.QueueDeclare?
    ensures ParseDeclare(ToDict(meta)) == Some(meta)
  {
  }

  lemma PublishDict(meta: Meta)
    requires meta.MessagePublish?
    ensures ParsePublish(ToDict(meta)) == Some(meta)
  {
  }

  lemma RouterDict(meta: Meta)
    requires OpCode(meta) <= 6 && !meta.QueueDeclare?
    ensures OpCode(meta) <= 4 ==> ParseNamed(OpCode(meta), ToDict(meta)) == Some(meta)
    ensures OpCode(meta) > 4 ==> ParseBinding(OpCode(meta), ToDict(meta)) == Some(meta)
  {
  }

  lemma SettledDict(meta: Meta)
    requires OpCode(meta) > 7
    ensures ParseSettled(OpCode(meta), ToDict(meta)) == Some(meta)
  {
  }

  /** The dictionary alone does not say what was done: deleting a queue and deleting an exchange write the
      same one, and so do binding and unbinding. */
  lemma DictNeedsOperation(n: string, e: string, q: QName, key: string)
    ensures ToDict(QueueDelete(n)) == ToDict(ExchangeDelete(n)) && QueueDelete(n) != ExchangeDelete(n)
    ensures ToDict(Bind(e, q, key)) == ToDict(Unbind(e, q, key)) && Bind(e, q, key) != Unbind(e, q, key)
  {
  }
}
