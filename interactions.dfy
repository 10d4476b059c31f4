/**
  An inbound interaction and the protocol for answering it: exactly one
  primary response (an acknowledgement, a message, an update of the source
  message, or autocomplete choices), and only after it, any number of reads,
  edits and deletions of the original response and of follow-up messages.
  The transport is not modelled: a request handed to it is recorded, and the
  promise it would return is the `Outcome` of the call.
*/
module Interactions {
  import opened Wrappers

  /** The kind of interaction received. */
  datatype InteractionType =
    | Ping
    | ApplicationCommand
    | MessageComponent
    | ApplicationCommandAutocomplete
    | ModalSubmit

  /** The kind of primary response sent back. */
  datatype ResponseType =
    | ChannelMessageWithSource
    | DeferredChannelMessageWithSource
    | DeferredUpdateMessage
    | UpdateMessage
    | ApplicationCommandAutocompleteResult

  /** The message flag that makes a message visible to the invoking user only. */
  const EPHEMERAL_FLAG := 64

  /**
    A message builder as it serialises when a request is made. Whether it needs
    a multipart body (attached files) is not part of what is serialised: it is
    carried beside the message by the operations and the builder.
  */
  datatype MessageState = MessageState(content: string, flags: int)

  /** An autocomplete choice, passed through unread. */
  datatype Choice = Choice(name: string, value: string)

  /** The `data` member of a primary response. */
  datatype ResponseData =
    | EmptyData                       // `[]`
    | FlagsData(flags: int)           // `['flags' => 64]`
    | MessageData(message: MessageState)
    | ChoicesData(choices: seq<Choice>)

  /** A primary response: its type, and its `data` when it has one. */
  datatype Payload = Payload(responseType: ResponseType, data: Option<ResponseData>)

  /** `json_encode($payload)`, kept as the term it is: the encoding itself is not modelled. */
  datatype Json = JsonEncoded(payload: Payload)

  /** A part of a multipart body. */
  datatype FormPart =
    | MessageParts(message: MessageState, withPayloadJson: bool)  // what `toMultipart` puts in
    | JsonField(name: string, content: Json, contentType: string)

  datatype Body =
    | NoBody
    | PayloadBody(payload: Payload)
    | MessageBody(message: MessageState)
    | MultipartBody(parts: seq<FormPart>)

  datatype Verb = Get | Post | Patch | Delete

  /** The request targets, by the identifiers they are bound with. */
  datatype Endpoint =
    | InteractionResponse(interactionId: string, token: string)
    | OriginalInteractionResponse(applicationId: string, token: string)
    | CreateInteractionFollowUp(applicationId: string, token: string)
    | InteractionFollowUp(applicationId: string, token: string, messageId: string)

  datatype Request = Request(verb: Verb, endpoint: Endpoint, body: Body)

  /** `LogicException` is the wrong kind of interaction; `RuntimeException` is the wrong moment. */
  datatype Error = LogicError(message: string) | RuntimeError(message: string)

  /** What a call gives back: rejected before anything is sent, or the request handed to the transport. */
  datatype Outcome = Rejected(error: Error) | Dispatched(request: Request)

  const ACKNOWLEDGE_COMPONENT_ONLY := "You can only acknowledge message component interactions."
  const ACKNOWLEDGE_COMMAND_OR_COMPONENT := "You can only acknowledge application command or message component interactions."
  const UPDATE_COMPONENT_ONLY := "You can only update messages that occur due to a message component interaction."
  const AUTOCOMPLETE_ONLY := "You can only respond command option results with auto complete interactions."
  const ALREADY_RESPONDED := "Interaction has already been responded to."
  const NOT_RESPONDED := "Interaction has not been responded to."
  const FOLLOW_UP_NOT_RESPONDED := "Cannot create a follow-up message as the interaction has not been responded to."

  /** The fixed identity of an interaction. */
  datatype Context = Context(id: string, applicationId: string, token: string, kind: InteractionType)

  /** The part `respond` adds to a multipart body. */
  function PayloadJson(payload: Payload): FormPart
  {
    JsonField("payload_json", JsonEncoded(payload), "application/json")
  }

  /**
    The response payload the platform reads from a body: a plain body is the
    payload, and a multipart body carries it in a trailing `payload_json` part.
  */
  function ReceivedPayload(body: Body): Option<Payload>
  {
    match body
    case PayloadBody(p) => Some(p)
    case MultipartBody(parts) =>
      if parts != [] && parts[|parts| - 1].JsonField? && parts[|parts| - 1].name == "payload_json"
      then Some(parts[|parts| - 1].content.payload)
      else None
    case _ => None
  }

  /**
    The message the platform reads from a message body: a plain body is the
    message, and a multipart body carries it in the builder's own parts, with
    their `payload_json`.
  */
  function ReceivedMessage(body: Body): Option<MessageState>
  {
    match body
    case MessageBody(m) => Some(m)
    case MultipartBody(parts) =>
      if parts != [] && parts[0].MessageParts? && parts[0].withPayloadJson then Some(parts[0].message) else None
    case _ => None
  }

  function Sent(o: Outcome): seq<Request>
  {
    if o.Dispatched? then [o.request] else []
  }

  // ---------------------------------------------------------------------------
  // The protocol, as functions of the interaction and its `responded` flag

  /**
    `respond`: refused once responded; otherwise one POST to the interaction's
    response endpoint, whose body delivers `payload` whether it is plain or
    multipart, and a multipart body keeps the builder's parts in front.
  */
  function RespondOutcome(ctx: Context, responded: bool, payload: Payload, multipart: Option<seq<FormPart>>): (o: Outcome)
    ensures o.Dispatched? <==> !responded
    ensures responded ==> o == Rejected(RuntimeError(ALREADY_RESPONDED))
    ensures o.Dispatched? ==> o.request.verb == Post && o.request.endpoint == InteractionResponse(ctx.id, ctx.token)
    ensures o.Dispatched? ==> ReceivedPayload(o.request.body) == Some(payload)
    ensures o.Dispatched? && multipart.Some? ==>
              o.request.body.MultipartBody? && |multipart.value| <= |o.request.body.parts| && o.request.body.parts[..|multipart.value|] == multipart.value
  {
    if responded then Rejected(RuntimeError(ALREADY_RESPONDED))
    else
      var target := InteractionResponse(ctx.id, ctx.token);
      match multipart
      case Some(parts) => Dispatched(Request(Post, target, MultipartBody(parts + [PayloadJson(payload)])))
      case None => Dispatched(Request(Post, target, PayloadBody(payload)))
  }

  /** The primary responses. */
  datatype PrimaryOp =
    | Acknowledge
    | AcknowledgeWithResponse(ephemeral: bool)
    | RespondWithMessage(message: MessageState, ephemeral: bool, requiresMultipart: bool)
    | UpdateMessage(message: MessageState, requiresMultipart: bool)
    | AutoCompleteResult(choices: seq<Choice>)

  /** Which kinds of interaction each primary response is for. */
  predicate Accepts(kind: InteractionType, op: PrimaryOp)
  {
    match op
    case UpdateMessage(_, _) => kind == MessageComponent
    case AutoCompleteResult(_) => kind == ApplicationCommandAutocomplete
    case _ => kind == ApplicationCommand || kind == MessageComponent
  }

  /** The message a builder sends once `ephemeral` has set its flags. */
  function WithEphemeral(m: MessageState, ephemeral: bool): MessageState
  {
    if ephemeral then m.(flags := EPHEMERAL_FLAG) else m
  }

  /** The builder's parts, without its own `payload_json`, when it needs a multipart body. */
  function ResponseMultipart(m: MessageState, requiresMultipart: bool): Option<seq<FormPart>>
  {
    if requiresMultipart then Some([MessageParts(m, false)]) else None
  }

  /**
    A primary response. It is sent exactly when the interaction's kind admits it
    and nothing was sent before; the wrong kind is a `LogicError` whatever the
    state, and a second response of the right kind is a `RuntimeError`.
  */
  function PrimaryOutcome(ctx: Context, responded: bool, op: PrimaryOp): (o: Outcome)
    ensures o.Dispatched? <==> Accepts(ctx.kind, op) && !responded
    ensures !Accepts(ctx.kind, op) ==> o.Rejected? && o.error.LogicError?
    ensures Accepts(ctx.kind, op) && responded ==> o == Rejected(RuntimeError(ALREADY_RESPONDED))
    ensures o.Dispatched? ==> o.request.verb == Post && o.request.endpoint == InteractionResponse(ctx.id, ctx.token)
    decreases if op.Acknowledge? then 1 else 0
  {
    match op
    case Acknowledge =>
      if ctx.kind == ApplicationCommand then PrimaryOutcome(ctx, responded, AcknowledgeWithResponse(false))
      else if ctx.kind != MessageComponent then Rejected(LogicError(ACKNOWLEDGE_COMPONENT_ONLY))
      else RespondOutcome(ctx, responded, Payload(DeferredUpdateMessage, None), None)
    case AcknowledgeWithResponse(ephemeral) =>
      if ctx.kind != ApplicationCommand && ctx.kind != MessageComponent then Rejected(LogicError(ACKNOWLEDGE_COMMAND_OR_COMPONENT))
      else
        var data := if ephemeral then FlagsData(EPHEMERAL_FLAG) else EmptyData;
        RespondOutcome(ctx, responded, Payload(DeferredChannelMessageWithSource, Some(data)), None)
    case RespondWithMessage(m, ephemeral, multipart) =>
      if ctx.kind != ApplicationCommand && ctx.kind != MessageComponent then Rejected(LogicError(ACKNOWLEDGE_COMMAND_OR_COMPONENT))
      else
        var sent := WithEphemeral(m, ephemeral);
        RespondOutcome(ctx, responded, Payload(ChannelMessageWithSource, Some(MessageData(sent))), ResponseMultipart(sent, multipart))
    case UpdateMessage(m, multipart) =>
      if ctx.kind != MessageComponent then Rejected(LogicError(UPDATE_COMPONENT_ONLY))
      else RespondOutcome(ctx, responded, Payload(ResponseType.UpdateMessage, Some(MessageData(m))), ResponseMultipart(m, multipart))
    case AutoCompleteResult(choices) =>
      if ctx.kind != ApplicationCommandAutocomplete then Rejected(LogicError(AUTOCOMPLETE_ONLY))
      else RespondOutcome(ctx, responded, Payload(ApplicationCommandAutocompleteResult, Some(ChoicesData(choices))), None)
  }

  /** The operations on the original response and on follow-up messages. */
  datatype FollowUpOp =
    | GetOriginalResponse
    | UpdateOriginalResponse(message: MessageState, requiresMultipart: bool)
    | DeleteOriginalResponse
    | SendFollowUpMessage(message: MessageState, ephemeral: bool, requiresMultipart: bool)
    | UpdateFollowUpMessage(messageId: string, message: MessageState, requiresMultipart: bool)
    | GetFollowUpMessage(messageId: string)
    | DeleteFollowUpMessage(messageId: string)

  /**
    A message body: multipart, with the builder's own `payload_json`, exactly
    when the builder needs it, and the platform reads the same message from
    either form.
  */
  function MessageRequestBody(m: MessageState, requiresMultipart: bool): (body: Body)
    ensures ReceivedMessage(body) == Some(m)
    ensures body.MultipartBody? <==> requiresMultipart
    ensures !body.MultipartBody? ==> body == MessageBody(m)
  {
    if requiresMultipart then MultipartBody([MessageParts(m, true)]) else MessageBody(m)
  }

  /**
    An operation on the original response or a follow-up. It is sent exactly
    when a primary response was, is refused with a `RuntimeError` otherwise, and
    is addressed through the application and the token, never the response endpoint.
  */
  function FollowUpOutcome(ctx: Context, responded: bool, op: FollowUpOp): (o: Outcome)
    ensures o.Dispatched? <==> responded
    ensures !responded ==> o.Rejected? && o.error.RuntimeError?
    ensures o.Dispatched? ==> !o.request.endpoint.InteractionResponse?
    ensures o.Dispatched? ==> o.request.endpoint.applicationId == ctx.applicationId && o.request.endpoint.token == ctx.token
    ensures o.Dispatched? && (op.UpdateOriginalResponse? || op.UpdateFollowUpMessage?) ==>
              ReceivedMessage(o.request.body) == Some(op.message) && (o.request.body.MultipartBody? <==> op.requiresMultipart)
    ensures o.Dispatched? && op.SendFollowUpMessage? ==>
              ReceivedMessage(o.request.body) == Some(WithEphemeral(op.message, op.ephemeral)) && (o.request.body.MultipartBody? <==> op.requiresMultipart)
    ensures o.Dispatched? && !(op.UpdateOriginalResponse? || op.UpdateFollowUpMessage? || op.SendFollowUpMessage?) ==> o.request.body == NoBody
  {
    var original := OriginalInteractionResponse(ctx.applicationId, ctx.token);
    match op
    case GetOriginalResponse =>
      if !responded then Rejected(RuntimeError(NOT_RESPONDED)) else Dispatched(Request(Get, original, NoBody))
    case UpdateOriginalResponse(m, multipart) =>
      if !responded then Rejected(RuntimeError(NOT_RESPONDED)) else Dispatched(Request(Patch, original, MessageRequestBody(m, multipart)))
    case DeleteOriginalResponse =>
      if !responded then Rejected(RuntimeError(NOT_RESPONDED)) else Dispatched(Request(Delete, original, NoBody))
    case SendFollowUpMessage(m, ephemeral, multipart) =>
      if !responded then Rejected(RuntimeError(FOLLOW_UP_NOT_RESPONDED))
      else Dispatched(Request(Post, CreateInteractionFollowUp(ctx.applicationId, ctx.token), MessageRequestBody(WithEphemeral(m, ephemeral), multipart)))
    case UpdateFollowUpMessage(id, m, multipart) =>
      if !responded then Rejected(RuntimeError(FOLLOW_UP_NOT_RESPONDED))
      else Dispatched(Request(Patch, InteractionFollowUp(ctx.applicationId, ctx.token, id), MessageRequestBody(m, multipart)))
    case GetFollowUpMessage(id) =>
      if !responded then Rejected(RuntimeError(NOT_RESPONDED))
      else Dispatched(Request(Get, InteractionFollowUp(ctx.applicationId, ctx.token, id), NoBody))
    case DeleteFollowUpMessage(id) =>
      if !responded then Rejected(RuntimeError(NOT_RESPONDED))
      else Dispatched(Request(Delete, InteractionFollowUp(ctx.applicationId, ctx.token, id), NoBody))
  }

  // ---------------------------------------------------------------------------
  // Single calls

  /** An application command acknowledges exactly as a non-ephemeral `acknowledgeWithResponse`. */
  lemma AcknowledgeCommandDelegates(ctx: Context, responded: bool)
    requires ctx.kind == ApplicationCommand
    ensures PrimaryOutcome(ctx, responded, Acknowledge) == PrimaryOutcome(ctx, responded, AcknowledgeWithResponse(false))
  {
  }

  /** A message component acknowledges with a deferred update and no `data`. */
  lemma AcknowledgeComponent(ctx: Context)
    requires ctx.kind == MessageComponent
    ensures PrimaryOutcome(ctx, false, Acknowledge)
            == Dispatched(Request(Post, InteractionResponse(ctx.id, ctx.token), PayloadBody(Payload(DeferredUpdateMessage, None))))
  {
  }

  /** A deferred channel message carries `flags: 64` exactly when ephemeral, and empty data otherwise. */
  lemma AcknowledgeWithResponseData(ctx: Context, ephemeral: bool)
    requires Accepts(ctx.kind, AcknowledgeWithResponse(ephemeral))
    ensures var o := PrimaryOutcome(ctx, false, AcknowledgeWithResponse(ephemeral));
            && o.Dispatched?
            && o.request.body.PayloadBody?
            && o.request.body.payload.responseType == DeferredChannelMessageWithSource
            && (o.request.body.payload.data == Some(FlagsData(64)) <==> ephemeral)
            && (!ephemeral ==> o.request.body.payload.data == Some(EmptyData))
  {
  }

  /**
    A message response that needs a multipart body is the builder's parts,
    without their own `payload_json`, followed by a `payload_json` part that
    encodes exactly the payload a plain response of the same message posts.
  */
  lemma MultipartCarriesPlainPayload(ctx: Context, m: MessageState, ephemeral: bool)
    requires Accepts(ctx.kind, RespondWithMessage(m, ephemeral, true))
    ensures var multi := PrimaryOutcome(ctx, false, RespondWithMessage(m, ephemeral, true));
            var plain := PrimaryOutcome(ctx, false, RespondWithMessage(m, ephemeral, false));
            && multi.Dispatched? && plain.Dispatched? && plain.request.body.PayloadBody?
            && multi.request.body == MultipartBody([MessageParts(WithEphemeral(m, ephemeral), false), PayloadJson(plain.request.body.payload)])
  {
  }

  /** Updating the source message of an application command is refused as the wrong kind, with nothing sent. */
  lemma UpdateMessageOnCommandRejected(ctx: Context, responded: bool, m: MessageState, requiresMultipart: bool)
    requires ctx.kind == ApplicationCommand
    ensures PrimaryOutcome(ctx, responded, PrimaryOp.UpdateMessage(m, requiresMultipart)) == Rejected(LogicError(UPDATE_COMPONENT_ONLY))
  {
  }

  /** Autocomplete results of any length go out on an autocomplete interaction: no limit on the number of choices is enforced. */
  lemma AutoCompleteAnyLength(ctx: Context, choices: seq<Choice>)
    requires ctx.kind == ApplicationCommandAutocomplete
    ensures PrimaryOutcome(ctx, false, AutoCompleteResult(choices))
            == Dispatched(Request(Post, InteractionResponse(ctx.id, ctx.token),
                                  PayloadBody(Payload(ApplicationCommandAutocompleteResult, Some(ChoicesData(choices))))))
  {
  }

  // ---------------------------------------------------------------------------
  // Sequences of calls

  /** Any call on an interaction. */
  datatype Op = Primary(primary: PrimaryOp) | FollowUp(followUp: FollowUpOp)

  function StepOutcome(ctx: Context, responded: bool, op: Op): Outcome
  {
    match op
    case Primary(p) => PrimaryOutcome(ctx, responded, p)
    case FollowUp(f) => FollowUpOutcome(ctx, responded, f)
  }

  /** `responded` after a call: only a primary response that went out sets it, and nothing clears it. */
  function NextResponded(responded: bool, op: Op, o: Outcome): bool
  {
    responded || (op.Primary? && o.Dispatched?)
  }

  /** The outcomes of a sequence of calls on one interaction. */
  function Run(ctx: Context, responded: bool, ops: seq<Op>): (os: seq<Outcome>)
    ensures |os| == |ops|
    decreases |ops|
  {
    if ops == [] then []
    else
      var o := StepOutcome(ctx, responded, ops[0]);
      [o] + Run(ctx, NextResponded(responded, ops[0], o), ops[1..])
  }

  /** `responded` after a sequence of calls. */
  function RespondedAfter(ctx: Context, responded: bool, ops: seq<Op>): bool
    decreases |ops|
  {
    if ops == [] then responded
    else
      var o := StepOutcome(ctx, responded, ops[0]);
      RespondedAfter(ctx, NextResponded(responded, ops[0], o), ops[1..])
  }

  /** A primary response: a request to the interaction's response endpoint. */
  predicate IsResponse(r: Request)
  {
    r.endpoint.InteractionResponse?
  }

  /** How many of the outcomes are primary responses that went out. */
  function ResponsesSent(os: seq<Outcome>): nat
  {
    if os == [] then 0
    else (if os[0].Dispatched? && IsResponse(os[0].request) then 1 else 0) + ResponsesSent(os[1..])
  }

  /** How many primary responses a log of sent requests holds. */
  function ResponsesLogged(log: seq<Request>): nat
  {
    if log == [] then 0
    else ResponsesLogged(log[..|log| - 1]) + if IsResponse(log[|log| - 1]) then 1 else 0
  }

  /**
    Whatever the calls, at most one primary response is ever sent, none once
    one has been, `responded` never goes back to false, and it ends true exactly
    when it started true or a response went out.
  */
  lemma {:induction false} AtMostOneResponse(ctx: Context, responded: bool, ops: seq<Op>)
    ensures ResponsesSent(Run(ctx, responded, ops)) <= if responded then 0 else 1
    ensures RespondedAfter(ctx, responded, ops) <==> responded || ResponsesSent(Run(ctx, responded, ops)) == 1
    decreases |ops|
  {
    if ops != [] {
      var o := StepOutcome(ctx, responded, ops[0]);
      var next := NextResponded(responded, ops[0], o);
      AtMostOneResponse(ctx, next, ops[1..]);
      var os := Run(ctx, responded, ops);
      assert os[0] == o && os[1..] == Run(ctx, next, ops[1..]);
    }
  }

  /** Every follow-up call that goes out comes after a primary response that went out. */
  lemma {:induction false} FollowUpsAfterResponse(ctx: Context, ops: seq<Op>, i: nat)
    requires i < |ops| && ops[i].FollowUp?
    requires Run(ctx, false, ops)[i].Dispatched?
    ensures exists j :: 0 <= j < i && ops[j].Primary? && Run(ctx, false, ops)[j].Dispatched?
    decreases |ops|
  {
    var o := StepOutcome(ctx, false, ops[0]);
    var os := Run(ctx, false, ops);
    assert os[0] == o;
    if NextResponded(false, ops[0], o) {
      assert ops[0].Primary? && os[0].Dispatched?;
    } else {
      assert i > 0;
      assert os[1..] == Run(ctx, false, ops[1..]);
      FollowUpsAfterResponse(ctx, ops[1..], i - 1);
      var j :| 0 <= j < i - 1 && ops[1..][j].Primary? && Run(ctx, false, ops[1..])[j].Dispatched?;
      assert ops[j + 1].Primary? && os[j + 1].Dispatched?;
    }
  }

  /** Two primary responses in a row: the first goes out, the second is refused whatever its arguments. */
  lemma SecondResponseRefused(ctx: Context, first: PrimaryOp, second: PrimaryOp)
    requires Accepts(ctx.kind, first) && Accepts(ctx.kind, second)
    ensures Run(ctx, false, [Primary(first), Primary(second)])
            == [PrimaryOutcome(ctx, false, first), Rejected(RuntimeError(ALREADY_RESPONDED))]
    ensures PrimaryOutcome(ctx, false, first).Dispatched?
  {
  }

  // ---------------------------------------------------------------------------
  // The objects

  /** The multipart body under construction. */
  class Multipart {
    var parts: seq<FormPart>

    constructor (parts: seq<FormPart>)
      ensures this.parts == parts
    {
      this.parts := parts;
    }

    /** `add`: one more part at the end. */
    method Add(part: FormPart)
      modifies this
      ensures parts == old(parts) + [part]
    {
      parts := parts + [part];
    }
  }

  /** A message builder: only its flags are changed by the interaction. */
  class MessageBuilder {
    const content: string
    const requiresMultipart: bool
    var flags: int

    constructor (content: string, requiresMultipart: bool, flags: int)
      ensures this.content == content && this.requiresMultipart == requiresMultipart && this.flags == flags
    {
      this.content := content;
      this.requiresMultipart := requiresMultipart;
      this.flags := flags;
    }

    function State(): MessageState
      reads this
    {
      MessageState(content, flags)
    }

    /** `_setFlags` */
    method SetFlags(f: int)
      modifies this
      ensures flags == f
    {
      flags := f;
    }

    /** `toMultipart`: the builder's parts, with its own `payload_json` when asked. */
    method ToMultipart(withPayloadJson: bool) returns (m: Multipart)
      ensures fresh(m) && m.parts == [MessageParts(State(), withPayloadJson)]
    {
      m := new Multipart([MessageParts(State(), withPayloadJson)]);
    }
  }

  class Interaction {
    const id: string
    const applicationId: string
    const token: string
    const kind: InteractionType
    /** Whether a primary response has been handed to the transport. */
    var responded: bool
    /** Every request handed to the transport, in order. */
    ghost var sent: seq<Request>

    /** The log holds one primary response once `responded` is set, and none before. */
    ghost predicate Valid()
      reads this
    {
      ResponsesLogged(sent) == if responded then 1 else 0
    }

    constructor (id: string, applicationId: string, token: string, kind: InteractionType)
      ensures Ctx() == Context(id, applicationId, token, kind)
      ensures !responded && sent == []
      ensures Valid()
    {
      this.id := id;
      this.applicationId := applicationId;
      this.token := token;
      this.kind := kind;
      responded := false;
      sent := [];
    }

    function Ctx(): Context
    {
      Context(id, applicationId, token, kind)
    }

    /** Hands a request to the transport. */
    method Dispatch(r: Request) returns (o: Outcome)
      modifies this`sent
      ensures sent == old(sent) + [r] && o == Dispatched(r)
      ensures ResponsesLogged(sent) == ResponsesLogged(old(sent)) + if IsResponse(r) then 1 else 0
    {
      sent := sent + [r];
      assert sent[..|sent| - 1] == old(sent);
      o := Dispatched(r);
    }

    /**
      `respond`: refused once responded; otherwise `responded` is set first, and
      then the payload goes out, in a `payload_json` part added to the multipart
      body when there is one.
    */
    method Respond(payload: Payload, multipart: Multipart?) returns (o: Outcome)
      modifies this, multipart
      requires Valid()
      ensures Valid()
      ensures o == RespondOutcome(Ctx(), old(responded), payload, if multipart == null then None else Some(old(multipart.parts)))
      ensures responded
      ensures sent == old(sent) + Sent(o)
      ensures multipart != null ==>
                multipart.parts == if o.Dispatched? then old(multipart.parts) + [PayloadJson(payload)] else old(multipart.parts)
    {
      if responded {
        return Rejected(RuntimeError(ALREADY_RESPONDED));
      }
      responded := true;
      if multipart != null {
        multipart.Add(PayloadJson(payload));
        o := Dispatch(Request(Post, InteractionResponse(id, token), MultipartBody(multipart.parts)));
        return;
      }
      o := Dispatch(Request(Post, InteractionResponse(id, token), PayloadBody(payload)));
    }

    /** `acknowledge` */
    method Acknowledge() returns (o: Outcome)
      modifies this
      requires Valid()
      ensures Valid()
      ensures o == PrimaryOutcome(Ctx(), old(responded), PrimaryOp.Acknowledge)
      ensures responded == (old(responded) || o.Dispatched?)
      ensures sent == old(sent) + Sent(o)
    {
      if kind == ApplicationCommand {
        o := AcknowledgeWithResponse(false);
        return;
      }
      if kind != MessageComponent {
        return Rejected(LogicError(ACKNOWLEDGE_COMPONENT_ONLY));
      }
      o := Respond(Payload(DeferredUpdateMessage, None), null);
    }

    /** `acknowledgeWithResponse` */
    method AcknowledgeWithResponse(ephemeral: bool) returns (o: Outcome)
      modifies this
      requires Valid()
      ensures Valid()
      ensures o == PrimaryOutcome(Ctx(), old(responded), PrimaryOp.AcknowledgeWithResponse(ephemeral))
      ensures responded == (old(responded) || o.Dispatched?)
      ensures sent == old(sent) + Sent(o)
    {
      if kind != ApplicationCommand && kind != MessageComponent {
        return Rejected(LogicError(ACKNOWLEDGE_COMMAND_OR_COMPONENT));
      }
      var data := if ephemeral then FlagsData(EPHEMERAL_FLAG) else EmptyData;
      o := Respond(Payload(DeferredChannelMessageWithSource, Some(data)), null);
    }

    /**
      `respondWithMessage`: an ephemeral response sets the builder's flags once
      the kind is accepted, before `respond` checks the state.
    */
    method RespondWithMessage(builder: MessageBuilder, ephemeral: bool) returns (o: Outcome)
      modifies this, builder
      requires Valid()
      ensures Valid()
      ensures o == PrimaryOutcome(Ctx(), old(responded), PrimaryOp.RespondWithMessage(old(builder.State()), ephemeral, builder.requiresMultipart))
      ensures builder.flags == if ephemeral && Accepts(kind, PrimaryOp.RespondWithMessage(old(builder.State()), ephemeral, builder.requiresMultipart))
                               then EPHEMERAL_FLAG else old(builder.flags)
      ensures responded == (old(responded) || o.Dispatched?)
      ensures sent == old(sent) + Sent(o)
    {
      if kind != ApplicationCommand && kind != MessageComponent {
        return Rejected(LogicError(ACKNOWLEDGE_COMMAND_OR_COMPONENT));
      }
      if ephemeral {
        builder.SetFlags(EPHEMERAL_FLAG);
      }
      var multipart: Multipart? := null;
      if builder.requiresMultipart {
        multipart := builder.ToMultipart(false);
      }
      o := Respond(Payload(ChannelMessageWithSource, Some(MessageData(builder.State()))), multipart);
    }

    /** `updateMessage` */
    method UpdateMessage(builder: MessageBuilder) returns (o: Outcome)
      modifies this
      requires Valid()
      ensures Valid()
      ensures o == PrimaryOutcome(Ctx(), old(responded), PrimaryOp.UpdateMessage(builder.State(), builder.requiresMultipart))
      ensures responded == (old(responded) || o.Dispatched?)
      ensures sent == old(sent) + Sent(o)
    {
      if kind != MessageComponent {
        return Rejected(LogicError(UPDATE_COMPONENT_ONLY));
      }
      var multipart: Multipart? := null;
      if builder.requiresMultipart {
        multipart := builder.ToMultipart(false);
      }
      o := Respond(Payload(ResponseType.UpdateMessage, Some(MessageData(builder.State()))), multipart);
    }

    /** `autoCompleteResult` */
    method AutoCompleteResult(choices: seq<Choice>) returns (o: Outcome)
      modifies this
      requires Valid()
      ensures Valid()
      ensures o == PrimaryOutcome(Ctx(), old(responded), PrimaryOp.AutoCompleteResult(choices))
      ensures responded == (old(responded) || o.Dispatched?)
      ensures sent == old(sent) + Sent(o)
    {
      if kind != ApplicationCommandAutocomplete {
        return Rejected(LogicError(AUTOCOMPLETE_ONLY));
      }
      o := Respond(Payload(ApplicationCommandAutocompleteResult, Some(ChoicesData(choices))), null);
    }

    /**
      The request body of a message edit or follow-up: the platform reads the
      builder's message from it, and it is multipart exactly when the builder
      needs it.
    */
    method MessageBodyOf(builder: MessageBuilder) returns (body: Body)
      ensures ReceivedMessage(body) == Some(builder.State())
      ensures body.MultipartBody? <==> builder.requiresMultipart
      ensures body == MessageRequestBody(builder.State(), builder.requiresMultipart)
    {
      if builder.requiresMultipart {
        var multipart := builder.ToMultipart(true);
        return MultipartBody(multipart.parts);
      }
      body := MessageBody(builder.State());
    }

    /** `getOriginalResponse` */
    method GetOriginalResponse() returns (o: Outcome)
      modifies this`sent
      requires Valid()
      ensures Valid()
      ensures o == FollowUpOutcome(Ctx(), responded, FollowUpOp.GetOriginalResponse)
      ensures sent == old(sent) + Sent(o)
    {
      if !responded {
        return Rejected(RuntimeError(NOT_RESPONDED));
      }
      o := Dispatch(Request(Get, OriginalInteractionResponse(applicationId, token), NoBody));
    }

    /** `updateOriginalResponse` */
    method UpdateOriginalResponse(builder: MessageBuilder) returns (o: Outcome)
      modifies this`sent
      requires Valid()
      ensures Valid()
      ensures o == FollowUpOutcome(Ctx(), responded, FollowUpOp.UpdateOriginalResponse(builder.State(), builder.requiresMultipart))
      ensures sent == old(sent) + Sent(o)
    {
      if !responded {
        return Rejected(RuntimeError(NOT_RESPONDED));
      }
      var body := MessageBodyOf(builder);
      o := Dispatch(Request(Patch, OriginalInteractionResponse(applicationId, token), body));
    }

    /** `deleteOriginalResponse` */
    method DeleteOriginalResponse() returns (o: Outcome)
      modifies this`sent
      requires Valid()
      ensures Valid()
      ensures o == FollowUpOutcome(Ctx(), responded, FollowUpOp.DeleteOriginalResponse)
      ensures sent == old(sent) + Sent(o)
    {
      if !responded {
        return Rejected(RuntimeError(NOT_RESPONDED));
      }
      o := Dispatch(Request(Delete, OriginalInteractionResponse(applicationId, token), NoBody));
    }

    /** `sendFollowUpMessage`: an ephemeral follow-up sets the builder's flags once the state is checked. */
    method SendFollowUpMessage(builder: MessageBuilder, ephemeral: bool) returns (o: Outcome)
      modifies this`sent, builder
      requires Valid()
      ensures Valid()
      ensures o == FollowUpOutcome(Ctx(), responded, FollowUpOp.SendFollowUpMessage(old(builder.State()), ephemeral, builder.requiresMultipart))
      ensures builder.flags == if ephemeral && responded then EPHEMERAL_FLAG else old(builder.flags)
      ensures sent == old(sent) + Sent(o)
    {
      if !responded {
        return Rejected(RuntimeError(FOLLOW_UP_NOT_RESPONDED));
      }
      if ephemeral {
        builder.SetFlags(EPHEMERAL_FLAG);
      }
      var body := MessageBodyOf(builder);
      o := Dispatch(Request(Post, CreateInteractionFollowUp(applicationId, token), body));
    }

    /** `updateFollowUpMessage` */
    method UpdateFollowUpMessage(messageId: string, builder: MessageBuilder) returns (o: Outcome)
      modifies this`sent
      requires Valid()
      ensures Valid()
      ensures o == FollowUpOutcome(Ctx(), responded, FollowUpOp.UpdateFollowUpMessage(messageId, builder.State(), builder.requiresMultipart))
      ensures sent == old(sent) + Sent(o)
    {
      if !responded {
        return Rejected(RuntimeError(FOLLOW_UP_NOT_RESPONDED));
      }
      var body := MessageBodyOf(builder);
      o := Dispatch(Request(Patch, InteractionFollowUp(applicationId, token, messageId), body));
    }

    /** `getFollowUpMessage` */
    method GetFollowUpMessage(messageId: string) returns (o: Outcome)
      modifies this`sent
      requires Valid()
      ensures Valid()
      ensures o == FollowUpOutcome(Ctx(), responded, FollowUpOp.GetFollowUpMessage(messageId))
      ensures sent == old(sent) + Sent(o)
    {
      if !responded {
        return Rejected(RuntimeError(NOT_RESPONDED));
      }
      o := Dispatch(Request(Get, InteractionFollowUp(applicationId, token, messageId), NoBody));
    }

    /** `deleteFollowUpMessage` */
    method DeleteFollowUpMessage(messageId: string) returns (o: Outcome)
      modifies this`sent
      requires Valid()
      ensures Valid()
      ensures o == FollowUpOutcome(Ctx(), responded, FollowUpOp.DeleteFollowUpMessage(messageId))
      ensures sent == old(sent) + Sent(o)
    {
      if !responded {
        return Rejected(RuntimeError(NOT_RESPONDED));
      }
      o := Dispatch(Request(Delete, InteractionFollowUp(applicationId, token, messageId), NoBody));
    }
  }
}
