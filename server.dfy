/** The Express server's `POST /api/gemini` handler: the request type picks
    the medicine or the lab branch, each makes one model call with its
    response schema, and the catch block maps what went wrong to a 500. */
module Server {
  import opened Common
  import opened Types
  import opened Gateway

  // ---------------------------------------------------------------------
  // Response schemas

  const LifestyleSchema := SObject(
    [Property("suggestion", SString), Property("details", SString),
     Property("duration", SString), Property("source", SString)],
    ["suggestion", "details", "duration", "source"])

  const HerbSchema := SObject(
    [Property("name", SString), Property("summary", SString), Property("dosage", SString),
     Property("form", SString), Property("sideEffects", SString)],
    ["name", "summary", "dosage", "form", "sideEffects"])

  /** No property is required: a reply may carry only `error`. */
  const MedicineSchema := SObject(
    [Property("drugSummary", SString), Property("herbSuggestions", SArray(HerbSchema)),
     Property("lifestyleSuggestions", SArray(LifestyleSchema)), Property("error", SString)],
    [])

  const LabFindingSchema := SObject(
    [Property("parameter", SString), Property("status", SString), Property("summary", SString),
     Property("herbSuggestions", SArray(HerbSchema)), Property("lifestyleSuggestions", SArray(LifestyleSchema))],
    ["parameter", "status", "summary", "herbSuggestions", "lifestyleSuggestions"])

  const LabResponseSchema := SObject(
    [Property("findings", SArray(LabFindingSchema)), Property("error", SString)],
    [])

  /** A herb that fits the schema has every field the client renders. */
  lemma HerbReadable(j: Json)
    requires Conforms(j, HerbSchema)
    ensures ReadHerb(j).Some?
  {
    RequiredString(j, HerbSchema, 0);
    RequiredString(j, HerbSchema, 1);
    RequiredString(j, HerbSchema, 2);
    RequiredString(j, HerbSchema, 3);
    RequiredString(j, HerbSchema, 4);
  }

  /** A lifestyle item that fits the schema has every field the client renders. */
  lemma LifestyleReadable(j: Json)
    requires Conforms(j, LifestyleSchema)
    ensures ReadLifestyle(j).Some?
  {
    RequiredString(j, LifestyleSchema, 0);
    RequiredString(j, LifestyleSchema, 1);
    RequiredString(j, LifestyleSchema, 2);
    RequiredString(j, LifestyleSchema, 3);
  }

  lemma {:induction false} HerbsReadable(elems: seq<Json>)
    requires forall x :: x in elems ==> Conforms(x, HerbSchema)
    ensures ReadHerbs(elems).Some?
  {
    if elems != [] {
      HerbsReadable(elems[..|elems| - 1]);
      HerbReadable(elems[|elems| - 1]);
    }
  }

  lemma {:induction false} LifestylesReadable(elems: seq<Json>)
    requires forall x :: x in elems ==> Conforms(x, LifestyleSchema)
    ensures ReadLifestyles(elems).Some?
  {
    if elems != [] {
      LifestylesReadable(elems[..|elems| - 1]);
      LifestyleReadable(elems[|elems| - 1]);
    }
  }

  /** The required lists are what make a finding usable: any finding that
      fits the lab schema, down to each herb and lifestyle item, reads as a
      complete finding for the client. */
  lemma FindingReadable(j: Json)
    requires Conforms(j, LabFindingSchema)
    ensures ReadFinding(j).Some?
  {
    RequiredString(j, LabFindingSchema, 0);
    RequiredString(j, LabFindingSchema, 1);
    RequiredString(j, LabFindingSchema, 2);
    RequiredArray(j, LabFindingSchema, 3, HerbSchema);
    RequiredArray(j, LabFindingSchema, 4, LifestyleSchema);
    HerbsReadable(Get(j.members, "herbSuggestions").value.elems);
    LifestylesReadable(Get(j.members, "lifestyleSuggestions").value.elems);
  }

  // ---------------------------------------------------------------------
  // The handler

  const SyntaxErrorName := "SyntaxError"
  const FormatMessage := "The AI returned an invalid response format. Please try again."
  const DefaultMessage := "An internal server error occurred."
  const LabLead := "Analyze the following lab report data:\n\n"

  /** The catch block: a `SyntaxError` gets the fixed format message, any
      other error its own message or, when that is empty, the default. */
  function CatchReply(name: string, message: string): (r: Response)
    ensures r.status == 500
    ensures name == SyntaxErrorName ==> r.body == ErrorBody(FormatMessage)
    ensures name != SyntaxErrorName && message != "" ==> r.body == ErrorBody(message)
    ensures name != SyntaxErrorName && message == "" ==> r.body == ErrorBody(DefaultMessage)
  {
    if name == SyntaxErrorName then Response(500, ErrorBody(FormatMessage))
    else Response(500, ErrorBody(OrElse(message, DefaultMessage)))
  }

  /** `res.status(200).json(JSON.parse(response.text))` with its catch
      block: `parse` is `JSON.parse`, `None` when it throws. */
  function ModelReply(outcome: CallOutcome<string>, parse: string -> Option<Json>): (r: Response)
    ensures r.status == 200 || r.status == 500
    ensures r.status == 200 <==> outcome.Returned? && parse(outcome.value).Some?
    ensures r.status == 200 ==> r.body == parse(outcome.value).value
    ensures outcome.Returned? && parse(outcome.value).None? ==> r.body == ErrorBody(FormatMessage)
  {
    match outcome
    case Returned(text) =>
      (match parse(text)
       case Some(value) => Response(200, value)
       case None => CatchReply(SyntaxErrorName, ""))
    case Threw(name, message) => CatchReply(name, message)
  }

  /** Text the model sends back that is not JSON never reaches the client:
      two replies that both fail to parse get the same answer. */
  lemma UnparsableTextHidden(t1: string, t2: string, parse: string -> Option<Json>)
    requires parse(t1).None? && parse(t2).None?
    ensures ModelReply(Returned(t1), parse) == ModelReply(Returned(t2), parse)
  {
  }

  /** The handler. It returns the one response it writes and the model
      calls it makes, in order; `model` is the model's reply to a call. */
  method Handle(body: Body, model: ModelRequest -> CallOutcome<string>, parse: string -> Option<Json>)
    returns (response: Response, calls: seq<ModelRequest>)
    ensures body.requestType == Some("medicine") ==>
      var request := PromptRequest(body.medicineName, MedicineSchema);
      calls == [request] && response == ModelReply(model(request), parse)
    ensures body.requestType == Some("lab") && body.input.Some? ==>
      var request := PartsRequest(LabParts(body.input.value, LabLead), LabResponseSchema);
      calls == [request] && response == ModelReply(model(request), parse)
    ensures body.requestType == Some("lab") && body.input.None? ==>
      calls == [] && response == Response(500, ErrorBody(MissingInputMessage))
    ensures body.requestType != Some("medicine") && body.requestType != Some("lab") ==>
      calls == [] && response == Response(400, ErrorBody(InvalidTypeMessage))
  {
    calls := [];
    var thrown: Option<(string, string)> := None;
    response := Response(500, JNull);
    if body.requestType == Some("medicine") {
      var request := PromptRequest(body.medicineName, MedicineSchema);
      calls := calls + [request];
      var outcome := model(request);
      if outcome.Threw? {
        thrown := Some((outcome.name, outcome.message));
      } else if parse(outcome.value).None? {
        thrown := Some((SyntaxErrorName, ""));
      } else {
        response := Response(200, parse(outcome.value).value);
      }
    } else if body.requestType == Some("lab") {
      if body.input.None? {
        thrown := Some((MissingInputName, MissingInputMessage));
      } else {
        var parts := BuildParts(body.input.value, LabLead);
        var request := PartsRequest(parts, LabResponseSchema);
        calls := calls + [request];
        var outcome := model(request);
        if outcome.Threw? {
          thrown := Some((outcome.name, outcome.message));
        } else if parse(outcome.value).None? {
          thrown := Some((SyntaxErrorName, ""));
        } else {
          response := Response(200, parse(outcome.value).value);
        }
      }
    } else {
      response := Response(400, ErrorBody(InvalidTypeMessage));
    }
    if thrown.Some? {
      response := CatchReply(thrown.value.0, thrown.value.1);
    }
  }
}
