/** The ID of a SQL Managed Instance security alert policy:
    `/subscriptions/{SubscriptionId}/resourceGroups/{ResourceGroup}/providers/
    Microsoft.Sql/managedInstances/{ManagedInstanceName}/securityAlertPolicies/
    {SecurityAlertPolicyName}`. */
module ManagedInstancesSecurityAlertPolicy {
  import opened Wrappers
  import opened ResourceIds

  /** The parsed ID. Construction does not validate; parsing does. */
  datatype ManagedInstancesSecurityAlertPolicyId = ManagedInstancesSecurityAlertPolicyId(
    SubscriptionId: string,
    ResourceGroup: string,
    ManagedInstanceName: string,
    SecurityAlertPolicyName: string)

  /** The declared components, in order. */
  const IdShape: Shape :=
    Then(Literal("subscriptions"), Then(Value("SubscriptionId"),
    Then(Literal("resourceGroups"), Then(Value("ResourceGroup"),
    Then(Literal("providers"), Then(Literal("Microsoft.Sql"),
    Then(Literal("managedInstances"), Then(Value("ManagedInstanceName"),
    Then(Literal("securityAlertPolicies"), Then(Value("SecurityAlertPolicyName"), End))))))))))

  // Each literal token is non-empty and free of separators.
  lemma LeadingTokensValid()
    ensures ValidValue("subscriptions") && ValidValue("resourceGroups") && ValidValue("providers")
  {
  }

  lemma ProviderTokensValid()
    ensures ValidValue("Microsoft.Sql") && ValidValue("managedInstances") && ValidValue("securityAlertPolicies")
  {
  }

  lemma ShapeFacts()
    ensures ValidShape(IdShape)
    ensures ValueCount(IdShape) == 4
  {
    LeadingTokensValid(); ProviderTokensValid();
    var t8 := Then(Literal("securityAlertPolicies"), Then(Value("SecurityAlertPolicyName"), End));
    assert LiteralsWellFormed(t8);
    var t6 := Then(Literal("managedInstances"), Then(Value("ManagedInstanceName"), t8));
    assert LiteralsWellFormed(t6);
    var t4 := Then(Literal("providers"), Then(Literal("Microsoft.Sql"), t6));
    assert LiteralsWellFormed(t4);
    var t2 := Then(Literal("resourceGroups"), Then(Value("ResourceGroup"), t4));
    assert LiteralsWellFormed(t2);
  }

  /** The record's fields in declaration order. */
  function Values(id: ManagedInstancesSecurityAlertPolicyId): (vs: seq<string>)
    ensures |vs| == ValueCount(IdShape)
  {
    ShapeFacts();
    [id.SubscriptionId, id.ResourceGroup, id.ManagedInstanceName, id.SecurityAlertPolicyName]
  }

  /** The record with the given fields in declaration order. */
  function FromValues(vs: seq<string>): (id: ManagedInstancesSecurityAlertPolicyId)
    requires |vs| == ValueCount(IdShape)
    ensures Values(id) == vs
  {
    ShapeFacts();
    ManagedInstancesSecurityAlertPolicyId(vs[0], vs[1], vs[2], vs[3])
  }

  /** Every field is non-empty and holds no '/'. */
  predicate WellFormed(id: ManagedInstancesSecurityAlertPolicyId) {
    ValidValue(id.SubscriptionId) && ValidValue(id.ResourceGroup)
    && ValidValue(id.ManagedInstanceName) && ValidValue(id.SecurityAlertPolicyName)
  }

  lemma WellFormedValues(id: ManagedInstancesSecurityAlertPolicyId)
    ensures WellFormed(id) <==> ValidValues(Values(id))
  {
    var vs := Values(id);
    assert vs[0] == id.SubscriptionId && vs[1] == id.ResourceGroup;
    assert vs[2] == id.ManagedInstanceName && vs[3] == id.SecurityAlertPolicyName;
  }

  // ---------------------------------------------------------------------------
  // Proof scaffolding, down to `RegroupTemplate`: the literal text of the
  // `.ID()` template equated with the shape's tokens piece by piece, and the
  // template's concatenation regrouped, so that no single proof compares long
  // string literals. These lemmas state nothing about the ID type itself.
  // ---------------------------------------------------------------------------

  // The separators between the values, each built from its tokens.
  lemma SubscriptionsText() ensures "/subscriptions/" == "/" + "subscriptions" + "/" {}
  lemma ResourceGroupsText() ensures "/resourceGroups/" == "/" + "resourceGroups" + "/" {}
  lemma ManagedInstancesText() ensures "/managedInstances/" == "/" + "managedInstances" + "/" {}
  // A literal run is built by appending short pieces on the right.
  lemma NamespaceTokenText() ensures "/" + "Microsoft.Sql" == "/Microsoft.Sql" {}
  lemma NamespaceRunText() ensures "/Microsoft.Sql/managedInstances/" == "/Microsoft.Sql" + "/managedInstances/" {}
  lemma ProvidersTokenText() ensures "/" + "providers" == "/providers" {}
  lemma ProvidersNamespaceText() ensures "/providers" + "/Microsoft.Sql" == "/providers/Microsoft.Sql" {}
  lemma ProvidersRunText() ensures "/providers/Microsoft.Sql" + "/managedInstances/" == "/providers/Microsoft.Sql/managedInstances/" {}

  lemma ProviderText()
    ensures "/Microsoft.Sql/managedInstances/" == "/" + "Microsoft.Sql" + "/managedInstances/"
  {
    NamespaceRunText(); NamespaceTokenText();
  }
  lemma ProvidersText()
    ensures "/providers/Microsoft.Sql/managedInstances/" == "/" + "providers" + "/Microsoft.Sql/managedInstances/"
  {
    NamespaceRunText(); ProvidersTokenText(); ProvidersNamespaceText(); ProvidersRunText();
    AppendAssoc("/providers", "/Microsoft.Sql", "/managedInstances/");
  }
  lemma SecurityAlertPoliciesText()
    ensures "/securityAlertPolicies/" == "/" + "securityAlertPolicies" + "/"
  {
  }

  /** The generic formatter, unfolded segment by segment for this shape. */
  lemma FormatNested(a: string, b: string, c: string, d: string)
    ensures ValueCount(IdShape) == 4
    ensures Format(IdShape, [a, b, c, d]) ==
      "/subscriptions/" + a + ("/resourceGroups/" + b
      + ("/providers/Microsoft.Sql/managedInstances/" + c
      + ("/securityAlertPolicies/" + d + "")))
  {
    SubscriptionsText(); ResourceGroupsText(); ManagedInstancesText(); ProviderText();
    ProvidersText(); SecurityAlertPoliciesText();
    var t9 := Then(Value("SecurityAlertPolicyName"), End);
    FormatValue("SecurityAlertPolicyName", End, [d]);
    assert [d][1..] == [];
    var t8 := Then(Literal("securityAlertPolicies"), t9);
    FormatLiteral("securityAlertPolicies", t9, [d], "/", "/securityAlertPolicies/", d, "");
    var t7 := Then(Value("ManagedInstanceName"), t8);
    FormatValue("ManagedInstanceName", t8, [c, d]);
    assert [c, d][1..] == [d];
    var t6 := Then(Literal("managedInstances"), t7);
    FormatLiteral("managedInstances", t7, [c, d], "/", "/managedInstances/", c, Format(t8, [d]));
    var t5 := Then(Literal("Microsoft.Sql"), t6);
    FormatLiteral("Microsoft.Sql", t6, [c, d], "/managedInstances/",
      "/Microsoft.Sql/managedInstances/", c, Format(t8, [d]));
    var t4 := Then(Literal("providers"), t5);
    FormatLiteral("providers", t5, [c, d], "/Microsoft.Sql/managedInstances/",
      "/providers/Microsoft.Sql/managedInstances/", c, Format(t8, [d]));
    var t3 := Then(Value("ResourceGroup"), t4);
    FormatValue("ResourceGroup", t4, [b, c, d]);
    assert [b, c, d][1..] == [c, d];
    var t2 := Then(Literal("resourceGroups"), t3);
    FormatLiteral("resourceGroups", t3, [b, c, d], "/", "/resourceGroups/", b, Format(t4, [c, d]));
    var t1 := Then(Value("SubscriptionId"), t2);
    FormatValue("SubscriptionId", t2, [a, b, c, d]);
    assert [a, b, c, d][1..] == [b, c, d];
    FormatLiteral("subscriptions", t1, [a, b, c, d], "/", "/subscriptions/", a, Format(t2, [b, c, d]));
  }

  /** Regroups the nested concatenation `FormatNested` gives into the flat
      template. */
  lemma RegroupTemplate(x1: string, x2: string, x3: string, x4: string,
                x5: string, x6: string, x7: string, x8: string)
    ensures x1 + x2 + (x3 + x4 + (x5 + x6 + (x7 + x8 + "")))
         == x1 + x2 + x3 + x4 + x5 + x6 + x7 + x8
  {
  }

  /** `.ID()`: the canonical string of the ID, the fixed template with the
      fields in order. */
  function ID(id: ManagedInstancesSecurityAlertPolicyId): (s: string)
    ensures s ==
      "/subscriptions/" + id.SubscriptionId + "/resourceGroups/" + id.ResourceGroup
      + "/providers/Microsoft.Sql/managedInstances/" + id.ManagedInstanceName
      + "/securityAlertPolicies/" + id.SecurityAlertPolicyName
  {
    FormatNested(id.SubscriptionId, id.ResourceGroup, id.ManagedInstanceName, id.SecurityAlertPolicyName);
    RegroupTemplate("/subscriptions/", id.SubscriptionId, "/resourceGroups/", id.ResourceGroup,
      "/providers/Microsoft.Sql/managedInstances/", id.ManagedInstanceName,
      "/securityAlertPolicies/", id.SecurityAlertPolicyName);
    Format(IdShape, Values(id))
  }

  /** `ManagedInstancesSecurityAlertPolicyID(input)`: parses a string into the
      ID. What it accepts is the canonical string of a well-formed ID. */
  function ManagedInstancesSecurityAlertPolicyID(input: string): (r: Result<ManagedInstancesSecurityAlertPolicyId, ParseError>)
    ensures input == "" ==> r == Failure(EmptyInput)
    ensures r.Success? ==> WellFormed(r.value) && ID(r.value) == input
  {
    match Parse(IdShape, input)
    case Failure(e) => Failure(e)
    case Success(vs) =>
      FormatParse(IdShape, input, vs);
      var id := FromValues(vs);
      WellFormedValues(id);
      Success(id)
  }

  /** Parsing the canonical string of a well-formed ID gives back the ID. */
  lemma ParseID(id: ManagedInstancesSecurityAlertPolicyId)
    requires WellFormed(id)
    ensures ManagedInstancesSecurityAlertPolicyID(ID(id)) == Success(id)
  {
    ShapeFacts();
    WellFormedValues(id);
    ParseFormat(IdShape, Values(id));
    assert FromValues(Values(id)) == id;
  }

  /** The parser accepts exactly the canonical strings of well-formed IDs. */
  lemma ParseIffCanonical(input: string, id: ManagedInstancesSecurityAlertPolicyId)
    ensures ManagedInstancesSecurityAlertPolicyID(input) == Success(id) <==> WellFormed(id) && ID(id) == input
  {
    if WellFormed(id) && ID(id) == input {
      ParseID(id);
    }
  }

  /** An ID upper-cased as a whole never parses, whatever its values: the
      literal tokens are matched in their declared casing. */
  lemma UpperCasedIdRejected(id: ManagedInstancesSecurityAlertPolicyId)
    requires WellFormed(id)
    ensures ManagedInstancesSecurityAlertPolicyID(Upper(ID(id))).Failure?
  {
    ShapeFacts();
    WellFormedValues(id);
    UpperChangesLowerStart("subscriptions");
    UpperCasedRejected(IdShape, Values(id));
  }

  // ---------------------------------------------------------------------------
  // The fixture table. Strings longer than a few dozen characters are written
  // as the concatenation of their parts.
  // ---------------------------------------------------------------------------

  const ExampleId := ManagedInstancesSecurityAlertPolicyId(
    "12345678-1234-9876-4563-123456789012", "group1", "instance1", "Default")

  lemma ExampleSubscriptionValid() ensures ValidValue("12345678-1234-9876-4563-123456789012") {}

  lemma ExampleWellFormed() ensures WellFormed(ExampleId) {
    ExampleSubscriptionValid();
  }

  /** The formatter writes the example ID as the example string. */
  lemma FormatterExample()
    ensures ID(ExampleId) ==
      "/subscriptions/" + "12345678-1234-9876-4563-123456789012" + "/resourceGroups/" + "group1"
      + "/providers/Microsoft.Sql/managedInstances/" + "instance1"
      + "/securityAlertPolicies/" + "Default"
  {
  }

  /** The example string parses to the example ID. */
  lemma ValidExampleParses(input: string)
    requires input ==
      "/subscriptions/" + "12345678-1234-9876-4563-123456789012" + "/resourceGroups/" + "group1"
      + "/providers/Microsoft.Sql/managedInstances/" + "instance1"
      + "/securityAlertPolicies/" + "Default"
    ensures ManagedInstancesSecurityAlertPolicyID(input) == Success(ExampleId)
  {
    FormatterExample();
    ExampleWellFormed();
    ParseID(ExampleId);
  }

  /** Rejects a proper prefix of a well-formed ID that ends in '/'. */
  lemma PrefixOfIdRejected(id: ManagedInstancesSecurityAlertPolicyId, input: string)
    requires WellFormed(id)
    requires input < ID(id) && |input| > 0 && input[|input| - 1] == '/'
    ensures ManagedInstancesSecurityAlertPolicyID(input).Failure?
  {
    ShapeFacts();
    WellFormedValues(id);
    ProperPrefixRejected(IdShape, Values(id), input);
  }

  // The truncated rows of the table, stated for the example's values and for
  // any other well-formed values alike: each cuts an ID just after a '/'.

  /** Row "missing SubscriptionId". */
  lemma MissingSubscriptionIdRejected(input: string)
    requires input == "/"
    ensures ManagedInstancesSecurityAlertPolicyID(input).Failure?
  {
    assert input == "/" + "";
    SplitSlash("");
    SplitNoSeparator("");
  }

  /** Row "missing value for SubscriptionId". */
  lemma MissingSubscriptionIdValueRejected(input: string)
    requires input == "/subscriptions/"
    ensures ManagedInstancesSecurityAlertPolicyID(input).Failure?
  {
    SubscriptionsText();
    LiteralThenEmptyValueRejected("subscriptions", "SubscriptionId", IdShape.tail.tail, input);
  }

  /** Row "missing ResourceGroup". */
  lemma MissingResourceGroupRejected(id: ManagedInstancesSecurityAlertPolicyId, input: string)
    requires WellFormed(id)
    requires input == "/subscriptions/" + id.SubscriptionId + "/"
    ensures ManagedInstancesSecurityAlertPolicyID(input).Failure?
  {
    PrefixOfIdRejected(id, input);
  }

  /** Row "missing value for ResourceGroup". */
  lemma MissingResourceGroupValueRejected(id: ManagedInstancesSecurityAlertPolicyId, input: string)
    requires WellFormed(id)
    requires input == "/subscriptions/" + id.SubscriptionId + "/resourceGroups/"
    ensures ManagedInstancesSecurityAlertPolicyID(input).Failure?
  {
    PrefixOfIdRejected(id, input);
  }

  /** Row "missing ManagedInstanceName". */
  lemma MissingManagedInstanceNameRejected(id: ManagedInstancesSecurityAlertPolicyId, input: string)
    requires WellFormed(id)
    requires input == "/subscriptions/" + id.SubscriptionId + "/resourceGroups/" + id.ResourceGroup + "/providers/Microsoft.Sql/"
    ensures ManagedInstancesSecurityAlertPolicyID(input).Failure?
  {
    PrefixOfIdRejected(id, input);
  }

  /** Row "missing value for ManagedInstanceName". */
  lemma MissingManagedInstanceNameValueRejected(id: ManagedInstancesSecurityAlertPolicyId, input: string)
    requires WellFormed(id)
    requires input == "/subscriptions/" + id.SubscriptionId + "/resourceGroups/" + id.ResourceGroup
      + "/providers/Microsoft.Sql/managedInstances/"
    ensures ManagedInstancesSecurityAlertPolicyID(input).Failure?
  {
    PrefixOfIdRejected(id, input);
  }

  /** Row "missing SecurityAlertPolicyName". */
  lemma MissingSecurityAlertPolicyNameRejected(id: ManagedInstancesSecurityAlertPolicyId, input: string)
    requires WellFormed(id)
    requires input == "/subscriptions/" + id.SubscriptionId + "/resourceGroups/" + id.ResourceGroup
      + "/providers/Microsoft.Sql/managedInstances/" + id.ManagedInstanceName + "/"
    ensures ManagedInstancesSecurityAlertPolicyID(input).Failure?
  {
    PrefixOfIdRejected(id, input);
  }

  /** Row "missing value for SecurityAlertPolicyName". */
  lemma MissingSecurityAlertPolicyNameValueRejected(id: ManagedInstancesSecurityAlertPolicyId, input: string)
    requires WellFormed(id)
    requires input == "/subscriptions/" + id.SubscriptionId + "/resourceGroups/" + id.ResourceGroup
      + "/providers/Microsoft.Sql/managedInstances/" + id.ManagedInstanceName + "/securityAlertPolicies/"
    ensures ManagedInstancesSecurityAlertPolicyID(input).Failure?
  {
    PrefixOfIdRejected(id, input);
  }

  /** Any input that starts with the upper-cased first token is rejected. */
  lemma UpperCasedTokenRejected(rest: string, input: string)
    requires input == "/SUBSCRIPTIONS/" + rest
    ensures ManagedInstancesSecurityAlertPolicyID(input).Failure?
  {
    assert "/SUBSCRIPTIONS/" == "/" + "SUBSCRIPTIONS" + "/";
    LeadingLiteralMismatch(IdShape, "SUBSCRIPTIONS", rest, input);
  }

  /** The upper-cased example string is rejected. */
  lemma UpperCasedExampleRejected(input: string)
    requires input ==
      "/SUBSCRIPTIONS/" + "12345678-1234-9876-4563-123456789012" + "/RESOURCEGROUPS/" + "GROUP1"
      + "/PROVIDERS/MICROSOFT.SQL/MANAGEDINSTANCES/" + "INSTANCE1"
      + "/SECURITYALERTPOLICIES/" + "DEFAULT"
    ensures ManagedInstancesSecurityAlertPolicyID(input).Failure?
  {
    UpperCasedTokenRejected("12345678-1234-9876-4563-123456789012" + "/RESOURCEGROUPS/" + "GROUP1"
      + "/PROVIDERS/MICROSOFT.SQL/MANAGEDINSTANCES/" + "INSTANCE1"
      + "/SECURITYALERTPOLICIES/" + "DEFAULT", input);
  }
}
