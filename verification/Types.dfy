/** Values shared by every part of the broker model. */
module Types {

  datatype Option<+T> = None | Some(value: T) {
    function GetOr(default: T): T {
      if Some? then value else default
    }
  }

  type byte = x: int | 0 <= x < 256
  type Bytes = seq<byte>

  type Time = int
  type Id = string
  type QName = string
  type ConsumerId = string

  /** The fields of a message that the engine carries along and never inspects. */
  datatype Info = Info(createdAt: Time, headers: string, exchange: string, routingKey: string)

  datatype Message = Message(
    id: Id,
    queue: QName,
    payload: Bytes,
    attempts: nat,
    maxAttempts: int,
    priority: int,
    availableAt: Option<Time>,
    info: Info)

  /** Where a message is addressed: the queue and the message id. */
  datatype Addr = Addr(queue: QName, id: Id)

  /** One delivery that has not been acknowledged yet. */
  datatype Delivery = Delivery(id: Id, queue: QName, consumer: ConsumerId, deliveredAt: Time, deadline: Time)
}
