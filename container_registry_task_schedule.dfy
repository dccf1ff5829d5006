/** The ID of a Container Registry task schedule:
    `/subscriptions/{SubscriptionId}/resourceGroups/{ResourceGroup}/providers/
    Microsoft.ContainerRegistry/registries/{RegistryName}/tasks/{TaskName}/
    schedule/{ScheduleName}`. */
module ContainerRegistryTaskSchedule {
  import opened Wrappers
  import opened ResourceIds

  /** The parsed ID. Construction does not validate; parsing does. */
  datatype ContainerRegistryTaskScheduleId = ContainerRegistryTaskScheduleId(
    SubscriptionId: string,
    ResourceGroup: string,
    RegistryName: string,
    TaskName: string,
    ScheduleName: string)

  /** The declared components, in order. */
  const IdShape: Shape :=
    Then(Literal("subscriptions"), Then(Value("SubscriptionId"),
    Then(Literal("resourceGroups"), Then(Value("ResourceGroup"),
    Then(Literal("providers"), Then(Literal("Microsoft.ContainerRegistry"),
    Then(Literal("registries"), Then(Value("RegistryName"),
    Then(Literal("tasks"), Then(Value("TaskName"),
    Then(Literal("schedule"), Then(Value("ScheduleName"), End))))))))))))

  // Each literal token is non-empty and free of separators.
  lemma LeadingTokensValid()
    ensures ValidValue("subscriptions") && ValidValue("resourceGroups") && ValidValue("providers")
  {
  }

  lemma ProviderTokensValid()
    ensures ValidValue("Microsoft.ContainerRegistry") && ValidValue("registries")
  {
  }

  lemma TrailingTokensValid()
    ensures ValidValue("tasks") && ValidValue("schedule")
  {
  }

  lemma ShapeFacts()
    ensures ValidShape(IdShape)
    ensures ValueCount(IdShape) == 5
  {
    LeadingTokensValid(); ProviderTokensValid(); TrailingTokensValid();
    var t10 := Then(Literal("schedule"), Then(Value("ScheduleName"), End));
    assert LiteralsWellFormed(t10);
    var t8 := Then(Literal("tasks"), Then(Value("TaskName"), t10));
    assert LiteralsWellFormed(t8);
    var t6 := Then(Literal("registries"), Then(Value("RegistryName"), t8));
    assert LiteralsWellFormed(t6);
    var t4 := Then(Literal("providers"), Then(Literal("Microsoft.ContainerRegistry"), t6));
    assert LiteralsWellFormed(t4);
    var t2 := Then(Literal("resourceGroups"), Then(Value("ResourceGroup"), t4));
    assert LiteralsWellFormed(t2);
  }

  /** The record's fields in declaration order. */
  function Values(id: ContainerRegistryTaskScheduleId): (vs: seq<string>)
    ensures |vs| == ValueCount(IdShape)
  {
    ShapeFacts();
    [id.SubscriptionId, id.ResourceGroup, id.RegistryName, id.TaskName, id.ScheduleName]
  }

  /** The record with the given fields in declaration order. */
  function FromValues(vs: seq<string>): (id: ContainerRegistryTaskScheduleId)
    requires |vs| == ValueCount(IdShape)
    ensures Values(id) == vs
  {
    ShapeFacts();
    ContainerRegistryTaskScheduleId(vs[0], vs[1], vs[2], vs[3], vs[4])
  }

  /** Every field is non-empty and holds no '/'. */
  predicate WellFormed(id: ContainerRegistryTaskScheduleId) {
    ValidValue(id.SubscriptionId) && ValidValue(id.ResourceGroup) && ValidValue(id.RegistryName)
    && ValidValue(id.TaskName) && ValidValue(id.ScheduleName)
  }

  lemma WellFormedValues(id: ContainerRegistryTaskScheduleId)
    ensures WellFormed(id) <==> ValidValues(Values(id))
  {
    var vs := Values(id);
    assert vs[0] == id.SubscriptionId && vs[1] == id.ResourceGroup && vs[2] == id.RegistryName;
    assert vs[3] == id.TaskName && vs[4] == id.ScheduleName;
  }

  // ---------------------------------------------------------------------------
  // Proof scaffolding, down to `RegroupTemplate`: the literal text of the
  // `.ID()` template equated with the shape's tokens piece by piece, and the
  // template's concatenation regrouped, so that no single proof compares long
  // string literals. These lemmas state nothing about the ID type itself.
  // ---------------------------------------------------------------------------

  // The separators between the values, each built from its tokens.
  lemma SubscriptionsText() ensures "/subscriptions/" == "/" + "subscriptions" + "/" {}
  lemma ResourceGroupsText() ensures "/resourceGroups/" == "/" + "resourceGroups" + "/" {}
  lemma RegistriesText() ensures "/registries/" == "/" + "registries" + "/" {}
  // A literal run is built by appending short pieces on the right.
  lemma NamespaceTokenText() ensures "/" + "Microsoft.ContainerRegistry" == "/Microsoft.ContainerRegistry" {}
  lemma NamespaceRunText() ensures "/Microsoft.ContainerRegistry/registries/" == "/Microsoft.ContainerRegistry" + "/registries/" {}
  lemma ProvidersTokenText() ensures "/" + "providers" == "/providers" {}
  lemma ProvidersNamespaceText() ensures "/providers" + "/Microsoft.ContainerRegistry" == "/providers/Microsoft.ContainerRegistry" {}
  lemma ProvidersRunText() ensures "/providers/Microsoft.ContainerRegistry" + "/registries/" == "/providers/Microsoft.ContainerRegistry/registries/" {}

  lemma ProviderText()
    ensures "/Microsoft.ContainerRegistry/registries/" == "/" + "Microsoft.ContainerRegistry" + "/registries/"
  {
    NamespaceRunText(); NamespaceTokenText();
  }
  lemma ProvidersText()
    ensures "/providers/Microsoft.ContainerRegistry/registries/" == "/" + "providers" + "/Microsoft.ContainerRegistry/registries/"
  {
    NamespaceRunText(); ProvidersTokenText(); ProvidersNamespaceText(); ProvidersRunText();
    AppendAssoc("/providers", "/Microsoft.ContainerRegistry", "/registries/");
  }
  lemma TasksText() ensures "/tasks/" == "/" + "tasks" + "/" {}
  lemma ScheduleText() ensures "/schedule/" == "/" + "schedule" + "/" {}

  /** The generic formatter, unfolded segment by segment for this shape. */
  lemma FormatNested(a: string, b: string, c: string, d: string, e: string)
    ensures ValueCount(IdShape) == 5
    ensures Format(IdShape, [a, b, c, d, e]) ==
      "/subscriptions/" + a + ("/resourceGroups/" + b
      + ("/providers/Microsoft.ContainerRegistry/registries/" + c
      + ("/tasks/" + d + ("/schedule/" + e + ""))))
  {
    SubscriptionsText(); ResourceGroupsText(); RegistriesText(); ProviderText();
    ProvidersText(); TasksText(); ScheduleText();
    var t11 := Then(Value("ScheduleName"), End);
    FormatValue("ScheduleName", End, [e]);
    assert [e][1..] == [];
    var t10 := Then(Literal("schedule"), t11);
    FormatLiteral("schedule", t11, [e], "/", "/schedule/", e, "");
    var t9 := Then(Value("TaskName"), t10);
    FormatValue("TaskName", t10, [d, e]);
    assert [d, e][1..] == [e];
    var t8 := Then(Literal("tasks"), t9);
    FormatLiteral("tasks", t9, [d, e], "/", "/tasks/", d, Format(t10, [e]));
    var t7 := Then(Value("RegistryName"), t8);
    FormatValue("RegistryName", t8, [c, d, e]);
    assert [c, d, e][1..] == [d, e];
    var t6 := Then(Literal("registries"), t7);
    FormatLiteral("registries", t7, [c, d, e], "/", "/registries/", c, Format(t8, [d, e]));
    var t5 := Then(Literal("Microsoft.ContainerRegistry"), t6);
    FormatLiteral("Microsoft.ContainerRegistry", t6, [c, d, e], "/registries/",
      "/Microsoft.ContainerRegistry/registries/", c, Format(t8, [d, e]));
    var t4 := Then(Literal("providers"), t5);
    FormatLiteral("providers", t5, [c, d, e], "/Microsoft.ContainerRegistry/registries/",
      "/providers/Microsoft.ContainerRegistry/registries/", c, Format(t8, [d, e]));
    var t3 := Then(Value("ResourceGroup"), t4);
    FormatValue("ResourceGroup", t4, [b, c, d, e]);
    assert [b, c, d, e][1..] == [c, d, e];
    var t2 := Then(Literal("resourceGroups"), t3);
    FormatLiteral("resourceGroups", t3, [b, c, d, e], "/", "/resourceGroups/", b, Format(t4, [c, d, e]));
    var t1 := Then(Value("SubscriptionId"), t2);
    FormatValue("SubscriptionId", t2, [a, b, c, d, e]);
    assert [a, b, c, d, e][1..] == [b, c, d, e];
    FormatLiteral("subscriptions", t1, [a, b, c, d, e], "/", "/subscriptions/", a, Format(t2, [b, c, d, e]));
  }

  /** Regroups the nested concatenation `FormatNested` gives into the flat
      template. */
  lemma RegroupTemplate(x1: string, x2: string, x3: string, x4: string, x5: string,
                x6: string, x7: string, x8: string, x9: string, x10: string)
    ensures x1 + x2 + (x3 + x4 + (x5 + x6 + (x7 + x8 + (x9 + x10 + ""))))
         == x1 + x2 + x3 + x4 + x5 + x6 + x7 + x8 + x9 + x10
  {
  }

  /** `.ID()`: the canonical string of the ID, the fixed template with the
      fields in order. */
  function ID(id: ContainerRegistryTaskScheduleId): (s: string)
    ensures s ==
      "/subscriptions/" + id.SubscriptionId + "/resourceGroups/" + id.ResourceGroup
      + "/providers/Microsoft.ContainerRegistry/registries/" + id.RegistryName
      + "/tasks/" + id.TaskName + "/schedule/" + id.ScheduleName
  {
    FormatNested(id.SubscriptionId, id.ResourceGroup, id.RegistryName, id.TaskName, id.ScheduleName);
    RegroupTemplate("/subscriptions/", id.SubscriptionId, "/resourceGroups/", id.ResourceGroup,
      "/providers/Microsoft.ContainerRegistry/registries/", id.RegistryName,
      "/tasks/", id.TaskName, "/schedule/", id.ScheduleName);
    Format(IdShape, Values(id))
  }

  /** `ContainerRegistryTaskScheduleID(input)`: parses a string into the ID.
      What it accepts is the canonical string of a well-formed ID. */
  function ContainerRegistryTaskScheduleID(input: string): (r: Result<ContainerRegistryTaskScheduleId, ParseError>)
    ensures input == "" ==> r == Failure(EmptyInput)
    ensures r.Success? ==> WellFormed(r.value) && ID(r.value) == input
  {
    match Parse(IdShape, input)
    case Failure(e) => Failure(e)
    case Success(vs) =>
      FormatParse(IdShape, input, vs);
      var id := FromValues(vs);
      WellFormedValues(id);
      Success(id)
  }

  /** Parsing the canonical string of a well-formed ID gives back the ID. */
  lemma ParseID(id: ContainerRegistryTaskScheduleId)
    requires WellFormed(id)
    ensures ContainerRegistryTaskScheduleID(ID(id)) == Success(id)
  {
    ShapeFacts();
    WellFormedValues(id);
    ParseFormat(IdShape, Values(id));
    assert FromValues(Values(id)) == id;
  }

  /** The parser accepts exactly the canonical strings of well-formed IDs. */
  lemma ParseIffCanonical(input: string, id: ContainerRegistryTaskScheduleId)
    ensures ContainerRegistryTaskScheduleID(input) == Success(id) <==> WellFormed(id) && ID(id) == input
  {
    if WellFormed(id) && ID(id) == input {
      ParseID(id);
    }
  }

  /** An ID upper-cased as a whole never parses, whatever its values: the
      literal tokens are matched in their declared casing. */
  lemma UpperCasedIdRejected(id: ContainerRegistryTaskScheduleId)
    requires WellFormed(id)
    ensures ContainerRegistryTaskScheduleID(Upper(ID(id))).Failure?
  {
    ShapeFacts();
    WellFormedValues(id);
    UpperChangesLowerStart("subscriptions");
    UpperCasedRejected(IdShape, Values(id));
  }

  // ---------------------------------------------------------------------------
  // The fixture table. Strings longer than a few dozen characters are written
  // as the concatenation of their parts.
  // ---------------------------------------------------------------------------

  const ExampleId := ContainerRegistryTaskScheduleId(
    "12345678-1234-9876-4563-123456789012", "group1", "registry1", "task1", "schedule1")

  lemma ExampleSubscriptionValid() ensures ValidValue("12345678-1234-9876-4563-123456789012") {}

  lemma ExampleWellFormed() ensures WellFormed(ExampleId) {
    ExampleSubscriptionValid();
  }

  /** The formatter writes the example ID as the example string. */
  lemma FormatterExample()
    ensures ID(ExampleId) ==
      "/subscriptions/" + "12345678-1234-9876-4563-123456789012" + "/resourceGroups/" + "group1"
      + "/providers/Microsoft.ContainerRegistry/registries/" + "registry1"
      + "/tasks/" + "task1" + "/schedule/" + "schedule1"
  {
  }

  /** The example string parses to the example ID. */
  lemma ValidExampleParses(input: string)
    requires input ==
      "/subscriptions/" + "12345678-1234-9876-4563-123456789012" + "/resourceGroups/" + "group1"
      + "/providers/Microsoft.ContainerRegistry/registries/" + "registry1"
      + "/tasks/" + "task1" + "/schedule/" + "schedule1"
    ensures ContainerRegistryTaskScheduleID(input) == Success(ExampleId)
  {
    FormatterExample();
    ExampleWellFormed();
    ParseID(ExampleId);
  }

  /** Rejects a proper prefix of a well-formed ID that ends in '/'. */
  lemma PrefixOfIdRejected(id: ContainerRegistryTaskScheduleId, input: string)
    requires WellFormed(id)
    requires input < ID(id) && |input| > 0 && input[|input| - 1] == '/'
    ensures ContainerRegistryTaskScheduleID(input).Failure?
  {
    ShapeFacts();
    WellFormedValues(id);
    ProperPrefixRejected(IdShape, Values(id), input);
  }

  // The truncated rows of the table, stated for the example's values and for
  // any other well-formed values alike: each cuts an ID just after a '/'.

  /** Row "missing SubscriptionId". */
  lemma MissingSubscriptionIdRejected(input: string)
    requires input == "/"
    ensures ContainerRegistryTaskScheduleID(input).Failure?
  {
    assert input == "/" + "";
    SplitSlash("");
    SplitNoSeparator("");
  }

  /** Row "missing value for SubscriptionId". */
  lemma MissingSubscriptionIdValueRejected(input: string)
    requires input == "/subscriptions/"
    ensures ContainerRegistryTaskScheduleID(input).Failure?
  {
    SubscriptionsText();
    LiteralThenEmptyValueRejected("subscriptions", "SubscriptionId", IdShape.tail.tail, input);
  }

  /** Row "missing ResourceGroup". */
  lemma MissingResourceGroupRejected(id: ContainerRegistryTaskScheduleId, input: string)
    requires WellFormed(id)
    requires input == "/subscriptions/" + id.SubscriptionId + "/"
    ensures ContainerRegistryTaskScheduleID(input).Failure?
  {
    PrefixOfIdRejected(id, input);
  }

  /** Row "missing value for ResourceGroup". */
  lemma MissingResourceGroupValueRejected(id: ContainerRegistryTaskScheduleId, input: string)
    requires WellFormed(id)
    requires input == "/subscriptions/" + id.SubscriptionId + "/resourceGroups/"
    ensures ContainerRegistryTaskScheduleID(input).Failure?
  {
    PrefixOfIdRejected(id, input);
  }

  /** Row "missing RegistryName". */
  lemma MissingRegistryNameRejected(id: ContainerRegistryTaskScheduleId, input: string)
    requires WellFormed(id)
    requires input == "/subscriptions/" + id.SubscriptionId + "/resourceGroups/" + id.ResourceGroup + "/providers/Microsoft.ContainerRegistry/"
    ensures ContainerRegistryTaskScheduleID(input).Failure?
  {
    PrefixOfIdRejected(id, input);
  }

  /** Row "missing value for RegistryName". */
  lemma MissingRegistryNameValueRejected(id: ContainerRegistryTaskScheduleId, input: string)
    requires WellFormed(id)
    requires input == "/subscriptions/" + id.SubscriptionId + "/resourceGroups/" + id.ResourceGroup
      + "/providers/Microsoft.ContainerRegistry/registries/"
    ensures ContainerRegistryTaskScheduleID(input).Failure?
  {
    PrefixOfIdRejected(id, input);
  }

  /** Row "missing TaskName". */
  lemma MissingTaskNameRejected(id: ContainerRegistryTaskScheduleId, input: string)
    requires WellFormed(id)
    requires input == "/subscriptions/" + id.SubscriptionId + "/resourceGroups/" + id.ResourceGroup
      + "/providers/Microsoft.ContainerRegistry/registries/" + id.RegistryName + "/"
    ensures ContainerRegistryTaskScheduleID(input).Failure?
  {
    PrefixOfIdRejected(id, input);
  }

  /** Row "missing value for TaskName". */
  lemma MissingTaskNameValueRejected(id: ContainerRegistryTaskScheduleId, input: string)
    requires WellFormed(id)
    requires input == "/subscriptions/" + id.SubscriptionId + "/resourceGroups/" + id.ResourceGroup
      + "/providers/Microsoft.ContainerRegistry/registries/" + id.RegistryName + "/tasks/"
    ensures ContainerRegistryTaskScheduleID(input).Failure?
  {
    PrefixOfIdRejected(id, input);
  }

  /** Row "missing ScheduleName". */
  lemma MissingScheduleNameRejected(id: ContainerRegistryTaskScheduleId, input: string)
    requires WellFormed(id)
    requires input == "/subscriptions/" + id.SubscriptionId + "/resourceGroups/" + id.ResourceGroup
      + "/providers/Microsoft.ContainerRegistry/registries/" + id.RegistryName + "/tasks/" + id.TaskName + "/"
    ensures ContainerRegistryTaskScheduleID(input).Failure?
  {
    PrefixOfIdRejected(id, input);
  }

  /** Row "missing value for ScheduleName". */
  lemma MissingScheduleNameValueRejected(id: ContainerRegistryTaskScheduleId, input: string)
    requires WellFormed(id)
    requires input == "/subscriptions/" + id.SubscriptionId + "/resourceGroups/" + id.ResourceGroup
      + "/providers/Microsoft.ContainerRegistry/registries/" + id.RegistryName + "/tasks/" + id.TaskName + "/schedule/"
    ensures ContainerRegistryTaskScheduleID(input).Failure?
  {
    PrefixOfIdRejected(id, input);
  }

  /** Any input that starts with the upper-cased first token is rejected. */
  lemma UpperCasedTokenRejected(rest: string, input: string)
    requires input == "/SUBSCRIPTIONS/" + rest
    ensures ContainerRegistryTaskScheduleID(input).Failure?
  {
    assert "/SUBSCRIPTIONS/" == "/" + "SUBSCRIPTIONS" + "/";
    LeadingLiteralMismatch(IdShape, "SUBSCRIPTIONS", rest, input);
  }

  /** The upper-cased example string is rejected. */
  lemma UpperCasedExampleRejected(input: string)
    requires input ==
      "/SUBSCRIPTIONS/" + "12345678-1234-9876-4563-123456789012" + "/RESOURCEGROUPS/" + "GROUP1"
      + "/PROVIDERS/MICROSOFT.CONTAINERREGISTRY/REGISTRIES/" + "REGISTRY1"
      + "/TASKS/" + "TASK1" + "/SCHEDULE/" + "SCHEDULE1"
    ensures ContainerRegistryTaskScheduleID(input).Failure?
  {
    UpperCasedTokenRejected("12345678-1234-9876-4563-123456789012" + "/RESOURCEGROUPS/" + "GROUP1"
      + "/PROVIDERS/MICROSOFT.CONTAINERREGISTRY/REGISTRIES/" + "REGISTRY1"
      + "/TASKS/" + "TASK1" + "/SCHEDULE/" + "SCHEDULE1", input);
  }
}
