/** notification.producer.go: the bridge from the handlers to Publish. */
module NotificationProducer {
  import opened Wrappers
  import opened KafkaProducer
  import opened KafkaPublisher
  import GoErrors

  /** What happens around one Publish call: see KafkaProducerObject.Publish. */
  datatype Schedule = Schedule(accepted: bool, preferCtx: bool, arriving: seq<Action>, admitted: seq<Action>,
                               waiting: seq<Action>, leaving: seq<Action>)

  ghost predicate LeavesToItself(s: Schedule, c: CallId) {
    LeavesCall(s.arriving, c) && LeavesCall(s.admitted, c) && LeavesCall(s.waiting, c) && LeavesCall(s.leaving, c)
  }

  /** What is known once a Publish call has returned. */
  ghost predicate Published(s: State, c: CallId, out: Outcome) {
    && Inv(s) && At(s, c, Returned(out)) && out != ErrUnexpectedEvent
    && (out == Delivered ==> c in s.log)
    && (out != Delivered && out != ErrDeliveryUnknown ==> c !in s.log && c !in s.queue && c !in s.delivery)
  }

  /** Publishes and wraps the error, keeping what errors.Is can tell. */
  method HandleSendPayload(kafka: KafkaProducerObject, c: CallId, sched: Schedule)
    returns (err: Option<GoErrors.Error>, out: Outcome)
    requires Inv(kafka.Snapshot()) && c !in kafka.calls && LeavesToItself(sched, c)
    modifies kafka
    ensures Published(kafka.Snapshot(), c, out) && Reaches(old(kafka.Snapshot()), kafka.Snapshot())
    ensures old(kafka.fatalErr).Some? || old(kafka.closing) ==> out.ErrUnavailable? || out.ErrClosing?
    ensures err.None? <==> out.Delivered?
    ensures err.Some? ==> err.value == GoErrors.SendPayloadError(out)
    ensures err.Some? ==> (GoErrors.Is(err.value, GoErrors.DeliveryUnknown) <==> out == ErrDeliveryUnknown)
  {
    out := kafka.Publish(c, sched.accepted, sched.preferCtx, sched.arriving, sched.admitted, sched.waiting, sched.leaving);
    if out.Delivered? {
      err := None;
    } else {
      err := Some(GoErrors.SendPayloadError(out));
      GoErrors.ErrorsIsDeliveryUnknown(out);
    }
  }
}
