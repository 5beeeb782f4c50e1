/** `POST` of src/app/api/tags/route.ts: validates the new tag's name, fills in
    the colour and icon, and maps what `createTag` does to an HTTP response.
    `createTag` is not part of this model; its outcome is a parameter. */
module TagsRoute {
  import opened Wrappers
  import opened Types
  import opened Text

  const NameRequired: string := "Tag name is required"
  const AlreadyExists: string := "Tag already exists"
  const DefaultColor: string := "#6d28d9"
  const DefaultIcon: string := "tag"
  /** The text of a unique-constraint violation. */
  const UniqueMarker: string := "UNIQUE"

  /** The request body's fields; `None` is a field that is missing or, for the
      name, not a string. */
  datatype Body = Body(name: Option<string>, color: Option<string>, icon: Option<string>)

  /** The arguments of `createTag`. */
  datatype CreateRequest = CreateRequest(name: string, color: string, icon: string)

  /** What `createTag` did: returned the new tag or threw with a message. */
  datatype CreateOutcome = Created(tag: Tag) | Threw(message: string)

  datatype ResponseBody = TagBody(tag: Tag) | ErrorBody(error: string)
  datatype Response = Response(status: int, body: ResponseBody)

  /** The `createTag` call the handler makes, or `None` when the name is rejected. */
  function CreateArgs(body: Body): (req: Option<CreateRequest>)
  {
    if body.name.None? || body.name.value == "" || Trim(body.name.value) == "" then None
    else Some(CreateRequest(Trim(body.name.value), OrDefault(body.color, DefaultColor),
                            OrDefault(body.icon, DefaultIcon)))
  }

  /** The response for a create that went as `outcome`. */
  function CreateResponse(outcome: CreateOutcome): (r: Response)
  {
    match outcome
    case Created(tag) => Response(201, TagBody(tag))
    case Threw(msg) =>
      if Includes(msg, UniqueMarker) then Response(409, ErrorBody(AlreadyExists))
      else Response(500, ErrorBody(msg))
  }

  /** The handler; `outcome` is used only when the name passes. */
  function Post(body: Body, outcome: CreateOutcome): (r: Response)
  {
    if CreateArgs(body).None? then Response(400, ErrorBody(NameRequired))
    else CreateResponse(outcome)
  }

  /** A name is rejected exactly when it is missing, not a string or blank. */
  lemma NameRejectedIff(body: Body, outcome: CreateOutcome)
    ensures CreateArgs(body).None? <==> body.name.None? || IsBlank(body.name.value)
    ensures Post(body, outcome).status == 400 <==> body.name.None? || IsBlank(body.name.value)
    ensures Post(body, outcome).status == 400 ==> Post(body, outcome).body == ErrorBody(NameRequired)
  {
    if body.name.Some? {
      TrimEmptyIffBlank(body.name.value);
    }
  }

  /** The tag asked for carries the trimmed name, which is non-blank and already
      trimmed, and the colour and icon given or their defaults. */
  lemma CreateArgsShape(body: Body)
    requires CreateArgs(body).Some?
    ensures var req := CreateArgs(body).value;
            req.name == Trim(body.name.value) && req.name != [] && Trim(req.name) == req.name &&
            !IsSpace(req.name[0]) && !IsSpace(req.name[|req.name| - 1]) &&
            (body.color.Some? && body.color.value != "" ==> req.color == body.color.value) &&
            (body.color.None? || body.color.value == "" ==> req.color == DefaultColor) &&
            (body.icon.Some? && body.icon.value != "" ==> req.icon == body.icon.value) &&
            (body.icon.None? || body.icon.value == "" ==> req.icon == DefaultIcon)
  {
    TrimIdempotent(body.name.value);
  }

  /** An accepted name maps the create's outcome to 201 with the tag, 409 for a
      unique-constraint violation, and 500 with the message for anything else. */
  lemma StatusMapping(body: Body, outcome: CreateOutcome)
    requires CreateArgs(body).Some?
    ensures Post(body, outcome).status == 201 <==> outcome.Created?
    ensures outcome.Created? ==> Post(body, outcome).body == TagBody(outcome.tag)
    ensures Post(body, outcome).status == 409 <==> outcome.Threw? && Includes(outcome.message, UniqueMarker)
    ensures Post(body, outcome).status == 409 ==> Post(body, outcome).body == ErrorBody(AlreadyExists)
    ensures Post(body, outcome).status == 500 <==> outcome.Threw? && !Includes(outcome.message, UniqueMarker)
    ensures Post(body, outcome).status == 500 ==> Post(body, outcome).body == ErrorBody(outcome.message)
  {
  }

  /** Any message with "UNIQUE" inside reads as a duplicate, wherever it occurs. */
  lemma UniqueAnywhere(body: Body, before: string, after: string)
    requires CreateArgs(body).Some?
    ensures Post(body, Threw(before + UniqueMarker + after)).status == 409
  {
    var msg := before + UniqueMarker + after;
    assert msg[|before|..|before| + |UniqueMarker|] == UniqueMarker;
    assert OccursAt(msg, UniqueMarker, |before|);
    IncludesIff(msg, UniqueMarker);
  }

  /** Every response is one of the four statuses. */
  lemma StatusesPossible(body: Body, outcome: CreateOutcome)
    ensures Post(body, outcome).status in {201, 400, 409, 500}
  {
  }
}
