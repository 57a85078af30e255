/** What the two `/api/gemini` handlers share: the JSON values they read and
    write, the response schemas they hand to the model, the request body,
    the `parts` list of a lab request, and the way the client reads a lab
    finding back out of the model's JSON. */
module Gateway {
  import opened Common
  import opened Text
  import opened Types

  // ---------------------------------------------------------------------
  // JSON values

  datatype Json =
    | JNull
    | JBool(b: bool)
    | JNumber(n: int)
    | JString(s: string)
    | JArray(elems: seq<Json>)
    | JObject(members: seq<Member>)

  datatype Member = Member(key: string, value: Json)

  /** `obj[key]` after `JSON.parse`: when a key repeats, the last one wins,
      so the value found is that of a member with the key and none after it
      has the key. */
  function Get(members: seq<Member>, key: string): (r: Option<Json>)
    ensures r.None? <==> forall i :: 0 <= i < |members| ==> members[i].key != key
    ensures r.Some? ==>
      exists i :: 0 <= i < |members| && members[i].key == key && members[i].value == r.value &&
        forall j :: i < j < |members| ==> members[j].key != key
  {
    if members == [] then None
    else if members[|members| - 1].key == key then Some(members[|members| - 1].value)
    else Get(members[..|members| - 1], key)
  }

  /** `{ error: message }`, the body of every error response. */
  function ErrorBody(message: string): Json {
    JObject([Member("error", JString(message))])
  }

  // ---------------------------------------------------------------------
  // Response schemas

  datatype Schema =
    | SString
    | SArray(items: Schema)
    | SObject(properties: seq<Property>, required: seq<string>)

  datatype Property = Property(name: string, schema: Schema)

  /** Whether an object schema lists a property of that name. */
  predicate Declares(s: Schema, name: string) {
    s.SObject? && exists i :: 0 <= i < |s.properties| && s.properties[i].name == name
  }

  /** A JSON value fits a schema: strings are strings, every element of an
      array fits the item schema, and an object has every required key and
      fits the schema of each declared property it has. Undeclared keys are
      not looked at. */
  predicate Conforms(j: Json, s: Schema)
    decreases s
  {
    match s
    case SString => j.JString?
    case SArray(item) => j.JArray? && forall x :: x in j.elems ==> Conforms(x, item)
    case SObject(props, required) =>
      j.JObject? &&
      (forall k :: k in required ==> Get(j.members, k).Some?) &&
      (forall i :: 0 <= i < |props| ==>
        var v := Get(j.members, props[i].name);
        v.Some? ==> Conforms(v.value, props[i].schema))
  }

  /** What a conforming object guarantees about one of its properties: a
      required, declared string property holds a string. */
  lemma RequiredString(j: Json, s: Schema, i: nat)
    requires Conforms(j, s) && s.SObject?
    requires i < |s.properties| && s.properties[i].schema == SString && s.properties[i].name in s.required
    ensures Str(j.members, s.properties[i].name).Some?
  {
    var key := s.properties[i].name;
    assert Get(j.members, key).Some?;
    assert Conforms(Get(j.members, key).value, SString);
  }

  /** A required, declared array property holds an array whose elements
      all fit the item schema. */
  lemma RequiredArray(j: Json, s: Schema, i: nat, item: Schema)
    requires Conforms(j, s) && s.SObject?
    requires i < |s.properties| && s.properties[i].schema == SArray(item) && s.properties[i].name in s.required
    ensures var v := Get(j.members, s.properties[i].name);
      v.Some? && v.value.JArray? && forall x :: x in v.value.elems ==> Conforms(x, item)
  {
    var key := s.properties[i].name;
    assert Get(j.members, key).Some?;
    assert Conforms(Get(j.members, key).value, SArray(item));
  }

  // ---------------------------------------------------------------------
  // Reading a lab finding the way the client uses it

  /** `obj[key]` when it is a string. */
  function Str(members: seq<Member>, key: string): Option<string> {
    match Get(members, key)
    case Some(JString(s)) => Some(s)
    case _ => None
  }

  /** A herb as the client renders it: all five string fields present. */
  function ReadHerb(j: Json): Option<HerbSuggestion> {
    if !j.JObject? then None
    else
      var name, summary := Str(j.members, "name"), Str(j.members, "summary");
      var dosage, form := Str(j.members, "dosage"), Str(j.members, "form");
      var sideEffects := Str(j.members, "sideEffects");
      if name.Some? && summary.Some? && dosage.Some? && form.Some? && sideEffects.Some? then
        Some(HerbSuggestion(name.value, summary.value, dosage.value, form.value, sideEffects.value))
      else None
  }

  /** A lifestyle item as the client renders it: all four string fields present. */
  function ReadLifestyle(j: Json): Option<LifestyleSuggestion> {
    if !j.JObject? then None
    else
      var suggestion, details := Str(j.members, "suggestion"), Str(j.members, "details");
      var duration, source := Str(j.members, "duration"), Str(j.members, "source");
      if suggestion.Some? && details.Some? && duration.Some? && source.Some? then
        Some(LifestyleSuggestion(suggestion.value, details.value, duration.value, source.value))
      else None
  }

  function ReadHerbs(elems: seq<Json>): (r: Option<seq<HerbSuggestion>>)
    ensures r.Some? ==> |r.value| == |elems|
  {
    if elems == [] then Some([])
    else
      var init, last := ReadHerbs(elems[..|elems| - 1]), ReadHerb(elems[|elems| - 1]);
      if init.Some? && last.Some? then Some(init.value + [last.value]) else None
  }

  function ReadLifestyles(elems: seq<Json>): (r: Option<seq<LifestyleSuggestion>>)
    ensures r.Some? ==> |r.value| == |elems|
  {
    if elems == [] then Some([])
    else
      var init, last := ReadLifestyles(elems[..|elems| - 1]), ReadLifestyle(elems[|elems| - 1]);
      if init.Some? && last.Some? then Some(init.value + [last.value]) else None
  }

  /** A finding as the client renders it: three strings and two lists whose
      every entry can be read. */
  function ReadFinding(j: Json): Option<LabFindingAnalysis> {
    if !j.JObject? then None
    else
      var parameter, status := Str(j.members, "parameter"), Str(j.members, "status");
      var summary := Str(j.members, "summary");
      var herbs, lifestyle := Get(j.members, "herbSuggestions"), Get(j.members, "lifestyleSuggestions");
      if parameter.Some? && status.Some? && summary.Some? &&
         herbs.Some? && herbs.value.JArray? && lifestyle.Some? && lifestyle.value.JArray?
      then
        var hs, ls := ReadHerbs(herbs.value.elems), ReadLifestyles(lifestyle.value.elems);
        if hs.Some? && ls.Some? then
          Some(LabFindingAnalysis(parameter.value, status.value, summary.value, hs.value, ls.value))
        else None
      else None
  }

  // ---------------------------------------------------------------------
  // Requests

  /** The fields of a request body the handlers look at. `requestType` is
      `None` when `type` is missing or not a string; `input` is `None` when
      it is missing. */
  datatype Body = Body(requestType: Option<string>, medicineName: Option<string>, input: Option<LabInput>)

  /** One entry of a lab request's `parts`: a text part or the inlined image. */
  datatype Part = TextPart(text: string) | InlinePart(image: ImagePart)

  /** What a handler asks the model for. The prompt's wording is left out;
      what varies with the request is kept: the medicine name interpolated
      into it, or the parts, and the response schema. */
  datatype ModelRequest =
    | PromptRequest(medicineName: Option<string>, schema: Schema)
    | PartsRequest(parts: seq<Part>, schema: Schema)

  datatype Response = Response(status: int, body: Json)

  const InvalidTypeMessage := "Invalid request type"

  /** The `TypeError` the engine raises when a lab body has no `input` and
      the handler reads `input.text`. */
  const MissingInputName := "TypeError"
  const MissingInputMessage := "Cannot read properties of undefined (reading 'text')"

  /** The `parts` of a lab request: a text part, the lead followed by the
      text, when the text is truthy; then the image when there is one. */
  function LabParts(input: LabInput, lead: string): seq<Part> {
    (if Truthy(input.text) then [TextPart(lead + input.text.value)] else []) +
    (if input.image.Some? then [InlinePart(input.image.value)] else [])
  }

  /** The shape of the parts list: a text part exactly when the text is
      truthy, an image part exactly when there is an image, the text first,
      and nothing else. */
  lemma LabPartsShape(input: LabInput, lead: string)
    ensures var parts := LabParts(input, lead);
      |parts| == (if Truthy(input.text) then 1 else 0) + (if input.image.Some? then 1 else 0) &&
      (Truthy(input.text) <==> exists i :: 0 <= i < |parts| && parts[i].TextPart?) &&
      (input.image.Some? <==> exists i :: 0 <= i < |parts| && parts[i].InlinePart?) &&
      (Truthy(input.text) ==> parts[0] == TextPart(lead + input.text.value)) &&
      (input.image.Some? ==> parts[|parts| - 1] == InlinePart(input.image.value))
  {
    var parts := LabParts(input, lead);
    if Truthy(input.text) {
      assert parts[0].TextPart?;
    }
    if input.image.Some? {
      assert parts[|parts| - 1].InlinePart?;
    }
  }

  /** The handler's `parts = []` followed by its two conditional `push`es. */
  method BuildParts(input: LabInput, lead: string) returns (parts: seq<Part>)
    ensures parts == LabParts(input, lead)
  {
    parts := [];
    if input.text.Some? && input.text.value != "" {
      parts := parts + [TextPart(lead + input.text.value)];
    }
    if input.image.Some? {
      parts := parts + [InlinePart(input.image.value)];
    }
  }
}
