/** Whether the client has cancelled its request: unknown, and only asked for when cancellation is enabled. */
module Cancellation {

  method IsCancelled(enableCancellation: bool) returns (cancelled: bool)
    ensures cancelled ==> enableCancellation
  {
    var now: bool := *;
    cancelled := enableCancellation && now;
  }
}
