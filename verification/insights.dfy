/**
  The two insight operations of the backend: health insights (validate the
  caller's health profile, then run the tool-call protocol under the disparity
  schema) and resource recommendations (no local validation, then the same
  protocol under the recommendations-and-trends schema).
 */
module Insights {
  import opened Js
  import opened Zod
  import opened Chat

  /** The eight gender literals the validator accepts. */
  const Genders: seq<string> := [
    "Man", "Woman", "Transgender Man", "Transgender Woman",
    "Non-Binary", "No Gender", "Other", "Prefer not to state"
  ]

  /** The health profile's fields, in the order the validator, the tool and the prompt list them. */
  const HealthFields: seq<string> := ["age", "gender", "city", "state", "ethnicity", "bloodPressure", "glucose", "bmi"]

  /** The validator's object schema: every field a string, `gender` one of `Genders`. */
  const HealthShape: Shape := [
    ("age", ZString), ("gender", ZEnum(Genders)), ("city", ZString), ("state", ZString),
    ("ethnicity", ZString), ("bloodPressure", ZString), ("glucose", ZString), ("bmi", ZString)
  ]

  /** The tool declared to the model: all eight properties, but `city` is not among the required ones. */
  const HealthTool: ToolDecl := ToolDecl(
    "getHealthInsights", HealthFields,
    ["age", "gender", "state", "ethnicity", "bloodPressure", "glucose", "bmi"])

  /** The twelve fields of the resource-recommendation tool, in declaration and prompt order. */
  const ResourceFields: seq<string> := [
    "state", "city", "employmentStatus", "incomeLevel", "foodAccess", "transportation",
    "housingAccess", "educationAccess", "healthcareAccess", "socialSupport",
    "safetyInNeighborhood", "digitalAccess"
  ]

  /** The tool built from the zod object: every field is a required string parameter. */
  const ResourcesTool: ToolDecl := ToolDecl("resourcesRecommendations", ResourceFields, ResourceFields)

  /** Health data the operation accepts, stated directly: a plain object whose eight
      fields are all strings, with `gender` one of the eight literals. */
  predicate ValidHealthData(v: JsValue) {
    && v.Obj?
    && (forall k :: k in HealthFields ==> Lookup(v.fields, k).Str?)
    && Lookup(v.fields, "gender").Str?
    && Lookup(v.fields, "gender").s in Genders
  }

  /** `data.k` for each key, as interpolated into a prompt; defined for a value that
      is neither null nor undefined (any other non-object has none of these properties). */
  function PropValues(v: JsValue, keys: seq<string>): (r: seq<JsValue>)
    requires !v.Undefined? && !v.Null?
    ensures |r| == |keys|
    ensures forall i :: 0 <= i < |keys| ==> Member(v, keys[i]) == Normal(r[i])
  {
    seq(|keys|, i requires 0 <= i < |keys| => if v.Obj? then PropertyRead(v.fields, keys[i]) else Undefined)
  }

  /** Every value the prompt interpolates for `keys` converts to a string, so building
      the prompt does not throw. */
  predicate PromptStringifies(v: JsValue, keys: seq<string>)
    requires !v.Undefined? && !v.Null?
  {
    forall i :: 0 <= i < |keys| ==> Stringifies(PropValues(v, keys)[i])
  }

  /** The first-round conversation of the health operation. */
  function HealthMessages(data: JsValue): seq<ChatMessage>
    requires !data.Undefined? && !data.Null?
  {
    [SystemTurn(HealthSystemPrompt), UserTurn(HealthUserPrompt, PropValues(data, HealthFields))]
  }

  /** The first-round conversation of the resources operation. */
  function ResourcesMessages(data: JsValue): seq<ChatMessage>
    requires !data.Undefined? && !data.Null?
  {
    [SystemTurn(ResourcesSystemPrompt), UserTurn(ResourcesUserPrompt, PropValues(data, ResourceFields))]
  }

  /** The zod validator agrees with `ValidHealthData`, both ways. */
  lemma HealthValidation(v: JsValue)
    ensures SafeParse(HealthShape, v) == [] <==> ValidHealthData(v)
  {
    if v.Obj? {
      var conforms := forall i :: 0 <= i < |HealthShape| ==> Conforms(HealthShape[i].1, Lookup(v.fields, HealthShape[i].0));
      if conforms {
        forall k | k in HealthFields ensures Lookup(v.fields, k).Str? {
          var i :| 0 <= i < |HealthFields| && HealthFields[i] == k;
          assert HealthShape[i].0 == k;
        }
        assert HealthShape[1] == ("gender", ZEnum(Genders));
      }
      if ValidHealthData(v) {
        forall i | 0 <= i < |HealthShape| ensures Conforms(HealthShape[i].1, Lookup(v.fields, HealthShape[i].0)) {
          assert HealthShape[i].0 == HealthFields[i];
        }
      }
    }
  }

  /** With every field a string, the gender literal alone decides: an unlisted one
      yields exactly one enum issue, at `gender`. */
  lemma GenderMustBeListed(v: JsValue)
    requires v.Obj? && forall k :: k in HealthFields ==> Lookup(v.fields, k).Str?
    ensures Lookup(v.fields, "gender").s in Genders ==> SafeParse(HealthShape, v) == []
    ensures Lookup(v.fields, "gender").s !in Genders ==>
      SafeParse(HealthShape, v) == [Issue(["gender"], InvalidEnumValue)]
  {
    assert forall i :: 0 <= i < |HealthShape| ==> HealthShape[i].0 == HealthFields[i];
    assert forall i :: 0 <= i < |HealthShape| && i != 1 ==> HealthShape[i].1 == ZString;
    if Lookup(v.fields, "gender").s !in Genders {
      SingleFailure(HealthShape, v.fields, 1, InvalidEnumValue);
    } else {
      HealthValidation(v);
    }
  }

  /** Valid health data has all eight fields as own properties, so the prompt
      interpolates exactly their values; being strings, they all convert. */
  lemma ValidDataPrompt(data: JsValue)
    requires ValidHealthData(data)
    ensures forall i :: 0 <= i < |HealthFields| ==>
      HealthFields[i] in data.fields && PropValues(data, HealthFields)[i] == data.fields[HealthFields[i]]
    ensures PromptStringifies(data, HealthFields)
  {
    forall i | 0 <= i < |HealthFields|
      ensures HealthFields[i] in data.fields && PropValues(data, HealthFields)[i] == data.fields[HealthFields[i]]
      ensures Stringifies(PropValues(data, HealthFields)[i])
    {
      assert Lookup(data.fields, HealthFields[i]).Str?;
    }
  }

  /** Health insights. Invalid data throws a validation error before any provider
      call; valid data runs the protocol with the health tool and the disparity
      schema. */
  function GetHealthInsights(data: JsValue, provider: Provider, parse: Parser): (o: Exchange)
    ensures o.requests == [] <==> !ValidHealthData(data)
    ensures !ValidHealthData(data) ==>
      o.result.Throw? && o.result.error.ValidationError? && o.result.error.issues != []
    ensures o.result.Throw? && o.result.error.ValidationError? ==> !ValidHealthData(data)
    ensures ValidHealthData(data) ==>
      o == ToolRound(HealthMessages(data), [HealthTool], DisparityFormat, provider, parse)
    ensures ValidHealthData(data) ==>
      o.requests[0] == FirstRequest(HealthMessages(data), [HealthTool]) &&
      forall i :: 0 <= i < |HealthFields| ==> o.requests[0].messages[1].values[i] == Lookup(data.fields, HealthFields[i])
  {
    HealthValidation(data);
    if ValidHealthData(data) then
      ValidDataPrompt(data);
      ToolRound(HealthMessages(data), [HealthTool], DisparityFormat, provider, parse)
    else
      var issues := SafeParse(HealthShape, data);
      Exchange(Throw(ValidationError(issues)), [])
  }

  /** Resource recommendations. There is no local validation. Building the prompt
      throws a TypeError before any provider call when the body is null or undefined
      (reading its first field) or when a field it interpolates does not convert to a
      string; every other body reaches the provider. */
  function GetResourcesRecommendations(data: JsValue, provider: Provider, parse: Parser): (o: Exchange)
    ensures data.Undefined? || data.Null? ==> o == Exchange(Throw(TypeError), [])
    ensures !data.Undefined? && !data.Null? && !PromptStringifies(data, ResourceFields) ==>
      o == Exchange(Throw(TypeError), [])
    ensures o.requests != [] <==>
      !data.Undefined? && !data.Null? && PromptStringifies(data, ResourceFields)
    ensures !data.Undefined? && !data.Null? && PromptStringifies(data, ResourceFields) ==>
      o == ToolRound(ResourcesMessages(data), [ResourcesTool], RecommendationsAndTrendsFormat, provider, parse) &&
      o.requests[0] == FirstRequest(ResourcesMessages(data), [ResourcesTool])
    ensures !(o.result.Throw? && o.result.error.ValidationError?)
  {
    if data.Undefined? || data.Null? then Exchange(Throw(TypeError), [])
    else if !PromptStringifies(data, ResourceFields) then Exchange(Throw(TypeError), [])
    else ToolRound(ResourcesMessages(data), [ResourcesTool], RecommendationsAndTrendsFormat, provider, parse)
  }

  /** A body whose resource fields are each absent or a string, number, boolean or
      null always reaches the provider: the prompt builds without throwing. */
  lemma FlatBodyReachesProvider(data: JsValue, provider: Provider, parse: Parser)
    requires data.Obj?
    requires forall k :: k in ResourceFields ==> !Lookup(data.fields, k).Obj? && !Lookup(data.fields, k).Arr?
    ensures GetResourcesRecommendations(data, provider, parse).requests != []
  {
    var values := PropValues(data, ResourceFields);
    forall i | 0 <= i < |ResourceFields| ensures Stringifies(values[i]) {
      var k := ResourceFields[i];
      assert k !in InheritedKeys;
      assert values[i] == Lookup(data.fields, k);
    }
    assert PromptStringifies(data, ResourceFields);
  }

  /** A body whose `state` is an object with its own `toString` key. */
  const StateWithToString: JsValue := Obj(map["state" := Obj(map["toString" := Num(1.0)])])

  /** Such a body cannot be interpolated into the prompt: a TypeError, and no provider call. */
  lemma OwnToStringIsRejected(provider: Provider, parse: Parser)
    ensures GetResourcesRecommendations(StateWithToString, provider, parse) == Exchange(Throw(TypeError), [])
  {
    assert !Stringifies(PropValues(StateWithToString, ResourceFields)[0]);
  }

  /** A profile with every field the tool declares required, but no city. */
  const ProfileWithoutCity: JsValue := Obj(map[
    "age" := Str("34"), "gender" := Str("Woman"), "state" := Str("CA"), "ethnicity" := Str("Asian"),
    "bloodPressure" := Str("120/80"), "glucose" := Str("95"), "bmi" := Str("24")])

  /** `city` is required by the validator although the tool does not declare it
      required: any profile that meets the declaration (every declared-required field
      a string, a listed gender) but has no string `city` is rejected with exactly one
      issue, at `city`, and no provider call is made. */
  lemma CityIsRequired(v: JsValue, provider: Provider, parse: Parser)
    requires v.Obj? && !Lookup(v.fields, "city").Str?
    requires forall k :: k in HealthTool.required ==> Lookup(v.fields, k).Str?
    requires Lookup(v.fields, "gender").s in Genders
    ensures "city" in HealthTool.properties && "city" !in HealthTool.required
    ensures SafeParse(HealthShape, v) == [Issue(["city"], InvalidType)]
    ensures GetHealthInsights(v, provider, parse) == Exchange(Throw(ValidationError([Issue(["city"], InvalidType)])), [])
  {
    assert forall j :: 0 <= j < |HealthShape| && j != 2 ==> HealthShape[j].0 in HealthTool.required;
    assert HealthShape[1] == ("gender", ZEnum(Genders));
    SingleFailure(HealthShape, v.fields, 2, InvalidType);
  }

  /** The validator's verdict on `ProfileWithoutCity`: one type issue, at `city`, and no provider call. */
  lemma ProfileWithoutCityIssues(provider: Provider, parse: Parser)
    ensures SafeParse(HealthShape, ProfileWithoutCity) == [Issue(["city"], InvalidType)]
    ensures GetHealthInsights(ProfileWithoutCity, provider, parse) ==
      Exchange(Throw(ValidationError([Issue(["city"], InvalidType)])), [])
  {
    var fields := ProfileWithoutCity.fields;
    forall k | k in HealthTool.required ensures Lookup(fields, k).Str? {
      assert k in fields;
    }
    CityIsRequired(ProfileWithoutCity, provider, parse);
  }
}
