/** Error values, fmt.Errorf with %w, and errors.Is along the path from Publish to handleSendOTP. */
module GoErrors {
  import opened KafkaProducer

  datatype Error =
    | ProducerClosing          // utils.ErrProducerClosing
    | DeliveryUnknown          // utils.ErrDeliveryUnknown
    | ContextDone              // ctx.Err()
    | Kafka(code: int)         // an error of the Kafka client
    | Plain(text: string)      // fmt.Errorf without %w
    | Wrap(text: string, causes: seq<Error>)

  predicate Is(e: Error, target: Error) {
    e == target || (e.Wrap? && exists i | 0 <= i < |e.causes| :: Is(e.causes[i], target))
  }

  /** The error of a Publish that did not return nil. */
  function PublishError(out: Outcome): Error
    requires !out.Delivered?
  {
    match out
    case ErrClosing => ProducerClosing
    case ErrUnavailable(cause) => Wrap("Kafka producer unavailable", [Kafka(cause)])
    case ErrEnqueue => Wrap("enqueue Kafka message", [Kafka(0)])
    case ErrDeliveryUnknown => Wrap("", [DeliveryUnknown, ContextDone])
    case ErrUnexpectedEvent => Plain("unexpected Kafka delivery event")
    case ErrDeliver(code) => Wrap("deliver Kafka message", [Kafka(code)])
  }

  /** handleSendPayload wraps what Publish returned. */
  function SendPayloadError(out: Outcome): Error
    requires !out.Delivered?
  {
    Wrap("kafka producer", [PublishError(out)])
  }

  lemma WrapIs(text: string, causes: seq<Error>, target: Error)
    requires target != Wrap(text, causes)
    ensures Is(Wrap(text, causes), target) <==> exists i | 0 <= i < |causes| :: Is(causes[i], target)
  {
  }

  /** The wrapping keeps exactly the distinction that handleSendOTP needs. */
  lemma ErrorsIsDeliveryUnknown(out: Outcome)
    requires !out.Delivered?
    ensures Is(SendPayloadError(out), DeliveryUnknown) <==> out == ErrDeliveryUnknown
  {
    var inner := PublishError(out);
    WrapIs("kafka producer", [inner], DeliveryUnknown);
    assert [inner][0] == inner;
    if inner.Wrap? {
      WrapIs(inner.text, inner.causes, DeliveryUnknown);
      assert out == ErrDeliveryUnknown ==> Is(inner.causes[0], DeliveryUnknown);
    }
  }
}
