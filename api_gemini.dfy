/** The serverless `/api/gemini` handler: the same dispatch as the Express
    server behind a method check, a bare array of findings for lab requests
    with an empty reply read as "all normal", and one fixed message for
    every failure. */
module ApiGemini {
  import opened Common
  import opened Text
  import opened Types
  import opened Gateway

  // ---------------------------------------------------------------------
  // Response schemas

  /** Lifestyle items here declare and require only two of the four fields
      the client renders. */
  const LifestyleSchema := SObject(
    [Property("suggestion", SString), Property("source", SString)],
    ["suggestion", "source"])

  const HerbSchema := SObject(
    [Property("name", SString), Property("summary", SString), Property("dosage", SString),
     Property("form", SString), Property("sideEffects", SString)],
    ["name", "summary", "dosage", "form", "sideEffects"])

  const MedicineSchema := SObject(
    [Property("drugSummary", SString), Property("herbSuggestions", SArray(HerbSchema)),
     Property("lifestyleSuggestions", SArray(LifestyleSchema))],
    ["drugSummary", "herbSuggestions", "lifestyleSuggestions"])

  const LabSchema := SArray(SObject(
    [Property("parameter", SString), Property("status", SString), Property("summary", SString),
     Property("herbSuggestions", SArray(HerbSchema)), Property("lifestyleSuggestions", SArray(LifestyleSchema))],
    ["parameter", "status", "summary", "herbSuggestions", "lifestyleSuggestions"]))

  /** The medicine schema requires its three fields and has no `error`
      property, so a reply held to it cannot use the error path the client
      looks for. */
  lemma MedicineSchemaFields()
    ensures forall k :: k in MedicineSchema.required ==> Declares(MedicineSchema, k)
    ensures |MedicineSchema.required| == 3
    ensures !Declares(MedicineSchema, "error")
  {
    var props := MedicineSchema.properties;
    assert Declares(MedicineSchema, "drugSummary") by { assert props[0].name == "drugSummary"; }
    assert Declares(MedicineSchema, "herbSuggestions") by { assert props[1].name == "herbSuggestions"; }
    assert Declares(MedicineSchema, "lifestyleSuggestions") by { assert props[2].name == "lifestyleSuggestions"; }
  }

  /** A lifestyle item can fit this schema and still lack the `details` and
      `duration` the client renders: the object below has only the two
      required keys. */
  lemma LifestyleItemMayLackDetails()
    ensures var item := JObject([Member("suggestion", JString("Walk")), Member("source", JString("Charaka"))]);
      Conforms(item, LifestyleSchema) && ReadLifestyle(item).None?
  {
  }

  // ---------------------------------------------------------------------
  // The handler

  const MethodNotAllowedMessage := "Method Not Allowed"
  const GenericMessage := "An internal server error occurred."
  const LabLead := "Lab report data:\n\n"

  /** The catch block: every failure, whatever it was, gets the same answer. */
  const FailureReply := Response(500, ErrorBody(GenericMessage))

  /** The medicine branch's answer: the parsed reply, or the generic failure. */
  function MedicineReply(outcome: CallOutcome<string>, parse: string -> Option<Json>): (r: Response)
    ensures r.status == 200 <==> outcome.Returned? && parse(outcome.value).Some?
    ensures r.status == 200 ==> r.body == parse(outcome.value).value
    ensures r.status != 200 ==> r == FailureReply
  {
    if outcome.Returned? && parse(outcome.value).Some? then Response(200, parse(outcome.value).value)
    else FailureReply
  }

  /** The lab branch's answer. The reply is trimmed first; an empty reply is
      the empty list of findings, anything else is parsed, and a failure of
      either the call or the parse is the generic failure. */
  function LabReply(outcome: CallOutcome<string>, parse: string -> Option<Json>): (r: Response)
    ensures outcome.Returned? && AllWhitespace(outcome.value) ==> r == Response(200, JArray([]))
    ensures outcome.Returned? && !AllWhitespace(outcome.value) ==>
      var trimmed := Trim(outcome.value);
      trimmed != "" &&
      (parse(trimmed).Some? ==> r == Response(200, parse(trimmed).value)) &&
      (parse(trimmed).None? ==> r == FailureReply)
    ensures outcome.Threw? ==> r == FailureReply
  {
    match outcome
    case Threw(_, _) => FailureReply
    case Returned(text) =>
      TrimEmptyIffBlank(text);
      var trimmed := Trim(text);
      if trimmed == "" then Response(200, JArray([]))
      else if parse(trimmed).Some? then Response(200, parse(trimmed).value)
      else FailureReply
  }

  /** No failure says anything about its cause: a thrown call and a reply
      that does not parse get the same answer, whatever the message. */
  lemma FailuresLookAlike(name: string, message: string, text: string, parse: string -> Option<Json>)
    requires !AllWhitespace(text) && parse(Trim(text)).None?
    ensures LabReply(Threw(name, message), parse) == LabReply(Returned(text), parse) == FailureReply
  {
  }

  /** The exported handler, returning the one response it writes and the
      model calls it makes. */
  method Handle(httpMethod: string, body: Body, model: ModelRequest -> CallOutcome<string>,
                parse: string -> Option<Json>)
    returns (response: Response, calls: seq<ModelRequest>)
    ensures httpMethod != "POST" ==>
      calls == [] && response == Response(405, ErrorBody(MethodNotAllowedMessage))
    ensures httpMethod == "POST" && body.requestType == Some("medicine") ==>
      var request := PromptRequest(body.medicineName, MedicineSchema);
      calls == [request] && response == MedicineReply(model(request), parse)
    ensures httpMethod == "POST" && body.requestType == Some("lab") && body.input.Some? ==>
      var request := PartsRequest(LabParts(body.input.value, LabLead), LabSchema);
      calls == [request] && response == LabReply(model(request), parse)
    ensures httpMethod == "POST" && body.requestType == Some("lab") && body.input.None? ==>
      calls == [] && response == FailureReply
    ensures httpMethod == "POST" && body.requestType != Some("medicine") && body.requestType != Some("lab") ==>
      calls == [] && response == Response(400, ErrorBody(InvalidTypeMessage))
  {
    calls := [];
    if httpMethod != "POST" {
      return Response(405, ErrorBody(MethodNotAllowedMessage)), calls;
    }
    var failed := false;
    response := FailureReply;
    if body.requestType == Some("medicine") {
      var request := PromptRequest(body.medicineName, MedicineSchema);
      calls := calls + [request];
      var outcome := model(request);
      if outcome.Threw? || parse(outcome.value).None? {
        failed := true;
      } else {
        response := Response(200, parse(outcome.value).value);
      }
    } else if body.requestType == Some("lab") {
      if body.input.None? {
        failed := true;
      } else {
        var parts := BuildParts(body.input.value, LabLead);
        var request := PartsRequest(parts, LabSchema);
        calls := calls + [request];
        var outcome := model(request);
        if outcome.Threw? {
          failed := true;
        } else {
          var responseText := Trim(outcome.value);
          if responseText == "" {
            response := Response(200, JArray([]));
          } else if parse(responseText).None? {
            failed := true;
          } else {
            response := Response(200, parse(responseText).value);
          }
        }
      }
    } else {
      response := Response(400, ErrorBody(InvalidTypeMessage));
    }
    if failed {
      response := FailureReply;
    }
  }
}
