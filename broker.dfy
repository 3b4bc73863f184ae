/**
 * Values the broker delivers. Their content is opaque to the modelled code:
 * it only stores, forwards and orders them.
 */
module Broker {

  newtype byte = x: int | 0 <= x < 256

  /** One message delivered on a subscription. */
  datatype Message = Message(subject: string, sequence: nat, payload: seq<byte>)

  /** A stream as the worker reports it to the store. */
  datatype StreamDescriptor = StreamDescriptor(name: string)
}
