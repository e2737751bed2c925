/** `AbstractAS4UserMessageBuilderMIMEPayload`: a user-message builder whose
    payload travels as the first MIME attachment, and its main send step. */
module MimePayloadBuilder {
  import opened Wrappers
  import opened Identifiers
  import opened Exceptions
  import opened BaseBuilder

  datatype MimeBuilder = MimeBuilder(base: BaseFields, payload: Option<OutgoingAttachment>)

  /** An `AS4OutgoingAttachment.Builder`; opaque. */
  datatype AttachmentBuilder = AttachmentBuilder(handle: nat)

  /** `payload(AS4OutgoingAttachment)`: last write wins; `None` clears. */
  function Payload(b: MimeBuilder, p: Option<OutgoingAttachment>): (r: MimeBuilder)
    ensures r.payload == p && r.base == b.base
  {
    b.(payload := p)
  }

  /** `payload(AS4OutgoingAttachment.Builder)`, where `build` is the
      builder's `build()`. */
  function PayloadFromBuilder(b: MimeBuilder, ob: Option<AttachmentBuilder>, build: AttachmentBuilder -> OutgoingAttachment): (r: MimeBuilder)
    ensures r.base == b.base
    ensures ob.None? ==> r.payload.None?
    ensures ob.Some? ==> r.payload == Some(build(ob.value))
  {
    Payload(b, if ob.None? then None else Some(build(ob.value)))
  }

  /** `isEveryRequiredFieldSet`: the base check and a payload. */
  function IsEveryRequiredFieldSet(hooks: BaseHooks, b: MimeBuilder): (r: bool)
    ensures r <==> hooks.isEveryRequiredFieldSet(b.base) && b.payload.Some?
  {
    if !hooks.isEveryRequiredFieldSet(b.base) then false
    else if b.payload.None? then false
    else true
  }

  /** Setting a payload through an attachment builder is setting the built
      attachment; clearing and re-setting is last-write-wins, and a cleared
      payload fails the readiness check. */
  lemma PayloadSettersAgree(hooks: BaseHooks, b: MimeBuilder, ab: AttachmentBuilder, p: Option<OutgoingAttachment>,
                            build: AttachmentBuilder -> OutgoingAttachment)
    ensures PayloadFromBuilder(b, Some(ab), build) == Payload(b, Some(build(ab)))
    ensures PayloadFromBuilder(b, None, build) == Payload(b, None)
    ensures Payload(Payload(b, p), Some(build(ab))) == PayloadFromBuilder(b, Some(ab), build)
    ensures !IsEveryRequiredFieldSet(hooks, PayloadFromBuilder(b, None, build))
  {
  }

  /** An inline SOAP-body payload; the MIME builder never sets one. */
  datatype BodyPayload = BodyPayload(handle: nat)

  /** The outgoing `AS4ClientUserMessage`: the header fields copied from the
      builder, the inline payload, and the MIME parts in the order added. A
      part may be `None` where the attachment factory returned null. */
  datatype UserMessage = UserMessage(
    header: BaseFields,
    inlinePayload: Option<BodyPayload>,
    attachments: seq<Option<MimeAttachment>>)

  /** The collaborators of one send: the instant `ensureSendingDateTime`
      yields, what each registered sending-time callback throws, the
      `WSS4JAttachment` factory (which may return null or throw), and the
      bidirectional transport (which may throw). */
  datatype SendEnvironment = SendEnvironment(
    sendingTime: DateTime,
    sendingTimeBehaviour: (nat, DateTime) -> Option<Exception>,
    createAttachment: Option<OutgoingAttachment> -> Result<Option<MimeAttachment>, Exception>,
    transport: (UserMessage, Option<string>) -> Option<Exception>)

  /** The observable trace of one send. */
  datatype SendEvent =
    | ResourcesAcquired
    | SendingTimeNotified(instant: DateTime)
    | AttachmentAdded(part: Option<MimeAttachment>)
    | TransportInvoked(url: Option<string>)
    | ResourcesReleased

  /** The outcome of `mainSendMessage`: the message as handed to the
      transport, the observed events, the exception thrown (`None` on normal
      return), and the sending-time callback's effects. */
  datatype SendReport = SendReport(
    message: UserMessage,
    events: seq<SendEvent>,
    thrown: Option<Exception>,
    fired: Option<FireResult>)

  const WrappedMessage: string := "Wrapped Phase4Exception"

  /** The catch clauses of `mainSendMessage`: the system's own exception is
      rethrown unchanged, anything else is wrapped. */
  function Normalise(e: Exception): (r: Exception)
    ensures r.Phase4Exception?
    ensures e.Phase4Exception? ==> r == e
    ensures !e.Phase4Exception? ==> r.kind == Plain && r.message == WrappedMessage && r.cause == Some(e)
  {
    if e.Phase4Exception? then e else Phase4Exception(Plain, WrappedMessage, Some(e))
  }

  lemma NormaliseIsIdempotent(e: Exception)
    ensures Normalise(Normalise(e)) == Normalise(e)
  {
  }

  /** The part a successful factory call contributes. */
  function Created(r: Result<Option<MimeAttachment>, Exception>): Option<MimeAttachment> {
    if r.Success? then r.value else None
  }

  /** The main attachment as added to the message: present only when the
      factory returned a non-null part. */
  function MainPart(env: SendEnvironment, b: MimeBuilder): seq<Option<MimeAttachment>> {
    var r := env.createAttachment(b.payload);
    if r.Success? && r.value.Some? then [r.value] else []
  }

  /** The parts made from the extra attachments, in insertion order. */
  function ExtraParts(env: SendEnvironment, extras: seq<OutgoingAttachment>): (r: seq<Option<MimeAttachment>>)
    ensures |r| == |extras|
  {
    seq(|extras|, j requires 0 <= j < |extras| => Created(env.createAttachment(Some(extras[j]))))
  }

  function AddedEvents(parts: seq<Option<MimeAttachment>>): (r: seq<SendEvent>)
    ensures |r| == |parts|
  {
    seq(|parts|, i requires 0 <= i < |parts| => AttachmentAdded(parts[i]))
  }

  function NotifiedEvents(env: SendEnvironment, b: MimeBuilder): seq<SendEvent> {
    if b.base.sendingTimeConsumer.Some? then [SendingTimeNotified(env.sendingTime)] else []
  }

  predicate ExtrasCreated(env: SendEnvironment, extras: seq<OutgoingAttachment>, n: nat)
    requires n <= |extras|
  {
    forall j :: 0 <= j < n ==> env.createAttachment(Some(extras[j])).Success?
  }

  /** `k` is the first extra attachment the factory fails on. */
  predicate FirstFailure(env: SendEnvironment, extras: seq<OutgoingAttachment>, k: int) {
    && 0 <= k < |extras|
    && env.createAttachment(Some(extras[k])).Failure?
    && forall j :: 0 <= j < k ==> env.createAttachment(Some(extras[j])).Success?
  }

  lemma ExtraPartsSnoc(env: SendEnvironment, extras: seq<OutgoingAttachment>, i: nat)
    requires i < |extras|
    ensures ExtraParts(env, extras[..i + 1]) == ExtraParts(env, extras[..i]) + [Created(env.createAttachment(Some(extras[i])))]
  {
    var l := ExtraParts(env, extras[..i + 1]);
    var r := ExtraParts(env, extras[..i]) + [Created(env.createAttachment(Some(extras[i])))];
    assert forall j :: 0 <= j < |l| ==> l[j] == r[j];
  }

  lemma AddedEventsSnoc(parts: seq<Option<MimeAttachment>>, x: Option<MimeAttachment>)
    ensures AddedEvents(parts + [x]) == AddedEvents(parts) + [AttachmentAdded(x)]
  {
    var l := AddedEvents(parts + [x]);
    var r := AddedEvents(parts) + [AttachmentAdded(x)];
    assert forall j :: 0 <= j < |l| ==> l[j] == r[j];
  }

  lemma AddedEventsAppend(a: seq<Option<MimeAttachment>>, b: seq<Option<MimeAttachment>>)
    ensures AddedEvents(a + b) == AddedEvents(a) + AddedEvents(b)
  {
    var l := AddedEvents(a + b);
    var r := AddedEvents(a) + AddedEvents(b);
    assert forall j :: 0 <= j < |l| ==> l[j] == r[j];
  }

  /** Neither acquiring nor releasing the resource helper. */
  predicate Interior(e: SendEvent) {
    !e.ResourcesAcquired? && !e.ResourcesReleased?
  }

  lemma AddedEventsAreInterior(parts: seq<Option<MimeAttachment>>)
    ensures forall i :: 0 <= i < |parts| ==> Interior(AddedEvents(parts)[i])
  {
  }

  /** The loop over the extra attachments: each is turned into a MIME part
      and added, in insertion order, until the factory throws. */
  method AddExtraAttachments(env: SendEnvironment, extras: seq<OutgoingAttachment>,
                             parts0: seq<Option<MimeAttachment>>, events0: seq<SendEvent>)
    returns (parts: seq<Option<MimeAttachment>>, events: seq<SendEvent>, failure: Option<Exception>, k: nat)
    ensures failure.None? ==>
      && ExtrasCreated(env, extras, |extras|)
      && parts == parts0 + ExtraParts(env, extras)
    ensures failure.Some? ==>
      && FirstFailure(env, extras, k)
      && failure.value == env.createAttachment(Some(extras[k])).error
      && parts == parts0 + ExtraParts(env, extras[..k])
    ensures events == events0 + AddedEvents(parts[|parts0|..])
    ensures |parts0| <= |parts|
  {
    parts := parts0;
    events := events0;
    failure := None;
    var i := 0;
    assert extras[..0] == [];
    while i < |extras| && failure.None?
      invariant 0 <= i <= |extras|
      invariant ExtrasCreated(env, extras, i)
      invariant failure.Some? ==> FirstFailure(env, extras, i) && failure.value == env.createAttachment(Some(extras[i])).error
      invariant parts == parts0 + ExtraParts(env, extras[..i])
      invariant events == events0 + AddedEvents(ExtraParts(env, extras[..i]))
      decreases |extras| - i, if failure.None? then 1 else 0
    {
      var part := env.createAttachment(Some(extras[i]));
      if part.Failure? {
        failure := Some(part.error);
      } else {
        ExtraPartsSnoc(env, extras, i);
        AddedEventsSnoc(ExtraParts(env, extras[..i]), part.value);
        parts := parts + [part.value];
        events := events + [AttachmentAdded(part.value)];
        i := i + 1;
      }
    }
    if failure.None? {
      assert extras[..i] == extras;
    }
    k := i;
    assert parts[|parts0|..] == ExtraParts(env, extras[..i]);
  }

  /** The message built inside the try block before transport: its MIME
      parts, the events so far, the factory exception that cut packaging
      short (if any), and what the sending-time callback did. */
  datatype Packaging = Packaging(
    parts: seq<Option<MimeAttachment>>,
    events: seq<SendEvent>,
    failure: Option<Exception>,
    failedAt: nat,
    fired: Option<FireResult>)

  /** Everything `mainSendMessage` does before the transport call: open the
      resource helper, fire the sending-time callback (containing its
      failure), add the main attachment, then the extra ones. */
  method BuildMessage(env: SendEnvironment, b: MimeBuilder) returns (pk: Packaging)
    ensures b.base.sendingTimeConsumer.None? ==> pk.fired.None?
    ensures b.base.sendingTimeConsumer.Some? ==>
      pk.fired == Some(Fire(b.base.sendingTimeConsumer.value, env.sendingTime, env.sendingTimeBehaviour))
    ensures pk.events == [ResourcesAcquired] + NotifiedEvents(env, b) + AddedEvents(pk.parts)
    ensures env.createAttachment(b.payload).Failure? ==>
      pk.parts == [] && pk.failure == Some(env.createAttachment(b.payload).error)
    ensures env.createAttachment(b.payload).Success? && pk.failure.None? ==>
      && ExtrasCreated(env, b.base.attachments, |b.base.attachments|)
      && pk.parts == MainPart(env, b) + ExtraParts(env, b.base.attachments)
    ensures env.createAttachment(b.payload).Success? && pk.failure.Some? ==>
      && FirstFailure(env, b.base.attachments, pk.failedAt)
      && pk.parts == MainPart(env, b) + ExtraParts(env, b.base.attachments[..pk.failedAt])
      && pk.failure == Some(env.createAttachment(Some(b.base.attachments[pk.failedAt])).error)
  {
    // The resource helper's scope opens here.
    var events := [ResourcesAcquired];
    var fired: Option<FireResult> := None;
    if b.base.sendingTimeConsumer.Some? {
      // Any exception of the callback is caught and only logged.
      fired := Some(Fire(b.base.sendingTimeConsumer.value, env.sendingTime, env.sendingTimeBehaviour));
      events := events + [SendingTimeNotified(env.sendingTime)];
    }
    var before := events;
    assert before == [ResourcesAcquired] + NotifiedEvents(env, b);
    var main := env.createAttachment(b.payload);
    if main.Failure? {
      pk := Packaging([], events, Some(main.error), 0, fired);
    } else {
      var parts0: seq<Option<MimeAttachment>> := [];
      if main.value.Some? {
        parts0 := [main.value];
        events := events + [AttachmentAdded(main.value)];
      }
      assert parts0 == MainPart(env, b);
      assert events == before + AddedEvents(parts0);
      var parts, evs, failure, k := AddExtraAttachments(env, b.base.attachments, parts0, events);
      AddedEventsAppend(parts0, parts[|parts0|..]);
      assert parts0 + parts[|parts0|..] == parts;
      calc {
        evs;
        events + AddedEvents(parts[|parts0|..]);
        before + AddedEvents(parts0) + AddedEvents(parts[|parts0|..]);
        { assert (before + AddedEvents(parts0)) + AddedEvents(parts[|parts0|..]) == before + (AddedEvents(parts0) + AddedEvents(parts[|parts0|..])); }
        before + AddedEvents(parts);
      }
      pk := Packaging(parts, evs, failure, k, fired);
    }
  }

  /** What one `mainSendMessage` call produces, stated over its report. */
  predicate MainSendReport(env: SendEnvironment, b: MimeBuilder, report: SendReport) {
    // The message shell: header from the builder, no inline payload.
    && (report.message.header == b.base && report.message.inlinePayload.None?)
    // The resource helper is acquired first and released last, exactly once,
    // on every exit path.
    && (|report.events| >= 2)
    && (report.events[0] == ResourcesAcquired && report.events[|report.events| - 1] == ResourcesReleased)
    && (forall i :: 0 < i < |report.events| - 1 ==> Interior(report.events[i]))
    // Callers only ever see the system's own exception kind.
    && (report.thrown.Some? ==> report.thrown.value.Phase4Exception?)
    // A registered sending-time callback fires once, with the message's
    // sending time; whatever it throws does not reach the caller.
    && (b.base.sendingTimeConsumer.None? ==> report.fired.None?)
    && (b.base.sendingTimeConsumer.Some? ==>
         report.fired == Some(Fire(b.base.sendingTimeConsumer.value, env.sendingTime, env.sendingTimeBehaviour)))
    // The main attachment cannot be created: nothing is added or sent.
    && (env.createAttachment(b.payload).Failure? ==>
         && report.message.attachments == []
         && report.events == [ResourcesAcquired] + NotifiedEvents(env, b) + [ResourcesReleased]
         && report.thrown == Some(Normalise(env.createAttachment(b.payload).error)))
    // An extra attachment cannot be created: the ones before it are added,
    // the transport is never invoked.
    && (env.createAttachment(b.payload).Success? && !ExtrasCreated(env, b.base.attachments, |b.base.attachments|) ==>
         exists k | 0 <= k < |b.base.attachments| :: FirstFailure(env, b.base.attachments, k)
           && report.message.attachments == MainPart(env, b) + ExtraParts(env, b.base.attachments[..k])
           && report.events == [ResourcesAcquired] + NotifiedEvents(env, b) + AddedEvents(report.message.attachments) + [ResourcesReleased]
           && report.thrown == Some(Normalise(env.createAttachment(Some(b.base.attachments[k])).error)))
    // Everything packaged: main part first, extras in insertion order, then
    // exactly one transport call with the builder's endpoint URL.
    && (env.createAttachment(b.payload).Success? && ExtrasCreated(env, b.base.attachments, |b.base.attachments|) ==>
         && report.message.attachments == MainPart(env, b) + ExtraParts(env, b.base.attachments)
         && report.events == [ResourcesAcquired] + NotifiedEvents(env, b) + AddedEvents(report.message.attachments)
                             + [TransportInvoked(b.base.endpointUrl), ResourcesReleased]
         && report.thrown == (match env.transport(report.message, b.base.endpointUrl)
                              case None => None
                              case Some(e) => Some(Normalise(e))))
  }

  /** `mainSendMessage`. */
  method MainSendMessage(env: SendEnvironment, b: MimeBuilder) returns (report: SendReport)
    ensures MainSendReport(env, b, report)
  {
    var pk := BuildMessage(env, b);
    var msg := UserMessage(b.base, None, pk.parts);
    AddedEventsAreInterior(pk.parts);
    if pk.failure.Some? {
      // The exception leaves the try block, closing the helper, and is
      // then normalised by the catch clauses.
      report := SendReport(msg, pk.events + [ResourcesReleased], Some(Normalise(pk.failure.value)), pk.fired);
      if env.createAttachment(b.payload).Success? {
        assert FirstFailure(env, b.base.attachments, pk.failedAt);
      }
    } else {
      var sent := env.transport(msg, b.base.endpointUrl);
      var thrown := if sent.Some? then Some(Normalise(sent.value)) else None;
      report := SendReport(msg, pk.events + [TransportInvoked(b.base.endpointUrl), ResourcesReleased], thrown, pk.fired);
    }
  }
}
