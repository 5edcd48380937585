/** The decorator's test fixture as client methods. Each method performs the
    steps of one test, over arbitrary references and text instead of the
    test's fixed objects and literals, and its postcondition is the test's
    assertions: they follow from the contracts of the two descriptor classes
    alone. */
module DescriptorTests {
  import opened Handles
  import opened MockDescriptor
  import opened DynamicDescriptors

  /** Wrapping a missing descriptor fails with an argument-null error. */
  method ConstructorDescriptorIsNull() returns (r: Result<DynamicPropertyDescriptor, Error>)
    ensures r == Failure(ArgumentNull)
  {
    r := DynamicPropertyDescriptor.Create(null);
  }

  method CanResetValueReturnsDescriptorResult(component: Ref)
    returns (first: bool, firstSeen: Ref, second: bool, secondSeen: Ref)
    ensures first && firstSeen == component
    ensures !second && secondSeen == component
  {
    var mock := new MockPropertyDescriptor();
    var dynamic := new DynamicPropertyDescriptor(mock);
    mock.canResetValueResult := true;
    first := dynamic.CanResetValue(component);
    firstSeen := mock.canResetValueComponent;
    mock.canResetValueResult := false;
    second := dynamic.CanResetValue(component);
    secondSeen := mock.canResetValueComponent;
  }

  method ComponentTypeReturnsDescriptorComponentType(componentType: Ref) returns (r: Ref)
    ensures r == componentType
  {
    var mock := new MockPropertyDescriptor();
    var dynamic := new DynamicPropertyDescriptor(mock);
    mock.componentTypeResult := componentType;
    r := dynamic.ComponentType();
  }

  method GetValueReturnsDescriptorGetValue(component: Ref, result: Ref) returns (r: Ref, seen: Ref)
    ensures r == result && seen == component
  {
    var mock := new MockPropertyDescriptor();
    var dynamic := new DynamicPropertyDescriptor(mock);
    mock.getValueResult := result;
    r := dynamic.GetValue(component);
    seen := mock.getValueComponent;
  }

  method PropertyTypeReturnsDescriptorPropertyType(propertyType: Ref) returns (r: Ref)
    ensures r == propertyType
  {
    var mock := new MockPropertyDescriptor();
    var dynamic := new DynamicPropertyDescriptor(mock);
    mock.propertyTypeResult := propertyType;
    r := dynamic.PropertyType();
  }

  method ResetValueCallsDescriptorResetValue(component: Ref) returns (seen: Ref, called: bool)
    ensures seen == component && called
  {
    var mock := new MockPropertyDescriptor();
    var dynamic := new DynamicPropertyDescriptor(mock);
    dynamic.ResetValue(component);
    seen, called := mock.resetValueComponent, mock.resetValueCalled;
  }

  method SetValueCallsDescriptorSetValue(component: Ref, value: Ref)
    returns (seenComponent: Ref, seenValue: Ref, called: bool)
    ensures seenComponent == component && seenValue == value && called
  {
    var mock := new MockPropertyDescriptor();
    var dynamic := new DynamicPropertyDescriptor(mock);
    dynamic.SetValue(component, value);
    seenComponent, seenValue, called := mock.setValueComponent, mock.setValueValue, mock.setValueCalled;
  }

  method ShouldSerializeValueReturnsDescriptorResult(component: Ref)
    returns (first: bool, firstSeen: Ref, second: bool, secondSeen: Ref)
    ensures first && firstSeen == component
    ensures !second && secondSeen == component
  {
    var mock := new MockPropertyDescriptor();
    var dynamic := new DynamicPropertyDescriptor(mock);
    mock.shouldSerializeValueResult := true;
    first := dynamic.ShouldSerializeValue(component);
    firstSeen := mock.shouldSerializeValueComponent;
    mock.shouldSerializeValueResult := false;
    second := dynamic.ShouldSerializeValue(component);
    secondSeen := mock.shouldSerializeValueComponent;
  }

  method CategoryNoOverride(baseCategory: string) returns (r: string)
    ensures r == baseCategory
  {
    var mock := new MockPropertyDescriptor();
    mock.categoryResult := baseCategory;
    var dynamic := new DynamicPropertyDescriptor(mock);
    r := dynamic.Category();
  }

  method CategoryOverride(baseCategory: string, category: string) returns (r: string)
    ensures r == category
  {
    var mock := new MockPropertyDescriptor();
    mock.categoryResult := baseCategory;
    var dynamic := new DynamicPropertyDescriptor(mock);
    dynamic.SetCategory(category);
    r := dynamic.Category();
  }

  method ConverterNoOverride(converter: Ref) returns (r: Ref)
    ensures r == converter
  {
    var mock := new MockPropertyDescriptor();
    mock.converterResult := converter;
    var dynamic := new DynamicPropertyDescriptor(mock);
    r := dynamic.Converter();
  }

  method ConverterOverride(converterBase: Ref, converterOverride: Ref) returns (r: Ref)
    ensures r == converterOverride
  {
    var mock := new MockPropertyDescriptor();
    mock.converterResult := converterBase;
    var dynamic := new DynamicPropertyDescriptor(mock);
    dynamic.SetConverter(converterOverride);
    r := dynamic.Converter();
  }

  method DescriptionNoOverride(baseDescription: string) returns (r: string)
    ensures r == baseDescription
  {
    var mock := new MockPropertyDescriptor();
    mock.descriptionResult := baseDescription;
    var dynamic := new DynamicPropertyDescriptor(mock);
    r := dynamic.Description();
  }

  method DescriptionOverride(baseDescription: string, description: string) returns (r: string)
    ensures r == description
  {
    var mock := new MockPropertyDescriptor();
    mock.descriptionResult := baseDescription;
    var dynamic := new DynamicPropertyDescriptor(mock);
    dynamic.SetDescription(description);
    r := dynamic.Description();
  }

  method DisplayNameNoOverride(baseDisplayName: string) returns (r: string)
    ensures r == baseDisplayName
  {
    var mock := new MockPropertyDescriptor();
    mock.displayNameResult := baseDisplayName;
    var dynamic := new DynamicPropertyDescriptor(mock);
    r := dynamic.DisplayName();
  }

  method DisplayNameOverride(baseDisplayName: string, displayName: string) returns (r: string)
    ensures r == displayName
  {
    var mock := new MockPropertyDescriptor();
    mock.displayNameResult := baseDisplayName;
    var dynamic := new DynamicPropertyDescriptor(mock);
    dynamic.SetDisplayName(displayName);
    r := dynamic.DisplayName();
  }

  /** Both test cases at once: `value` is either boolean. */
  method IsReadOnlyNoOverride(value: bool) returns (r: bool)
    ensures r == value
  {
    var mock := new MockPropertyDescriptor();
    mock.isReadOnlyResult := value;
    var dynamic := new DynamicPropertyDescriptor(mock);
    r := dynamic.IsReadOnly();
  }

  /** All four test cases at once: any base flag, any override flag. */
  method IsReadOnlyOverride(descriptorValue: bool, overrideValue: bool) returns (r: bool)
    ensures r == overrideValue
  {
    var mock := new MockPropertyDescriptor();
    mock.isReadOnlyResult := descriptorValue;
    var dynamic := new DynamicPropertyDescriptor(mock);
    dynamic.SetReadOnly(overrideValue);
    r := dynamic.IsReadOnly();
  }

  method GetEditorNoOverride(kind: TypeKey, baseEditor: Ref) returns (r: Ref)
    ensures r == baseEditor
  {
    var mock := new MockPropertyDescriptor();
    mock.getEditorResult := baseEditor;
    var dynamic := new DynamicPropertyDescriptor(mock);
    r := dynamic.GetEditor(kind);
  }

  /** The override editor is a newly created object, so it is not null. */
  method GetEditorOverride(kind: TypeKey, baseEditor: Ref, overrideEditor: Ref) returns (r: Ref)
    requires overrideEditor != Null
    ensures r == overrideEditor
  {
    var mock := new MockPropertyDescriptor();
    mock.getEditorResult := baseEditor;
    var dynamic := new DynamicPropertyDescriptor(mock);
    dynamic.SetEditor(kind, overrideEditor);
    r := dynamic.GetEditor(kind);
  }

  method GetEditorOverrideThenClear(kind: TypeKey, baseEditor: Ref, overrideEditor: Ref) returns (r: Ref)
    ensures r == baseEditor
  {
    var mock := new MockPropertyDescriptor();
    mock.getEditorResult := baseEditor;
    var dynamic := new DynamicPropertyDescriptor(mock);
    dynamic.SetEditor(kind, overrideEditor);
    dynamic.SetEditor(kind, Null);
    r := dynamic.GetEditor(kind);
  }

  method GetEditorMultipleOverrides(kind: TypeKey, baseEditor: Ref, overrideEditor1: Ref, overrideEditor2: Ref)
    returns (r: Ref)
    requires overrideEditor2 != Null
    ensures r == overrideEditor2
  {
    var mock := new MockPropertyDescriptor();
    mock.getEditorResult := baseEditor;
    var dynamic := new DynamicPropertyDescriptor(mock);
    dynamic.SetEditor(kind, overrideEditor1);
    dynamic.SetEditor(kind, overrideEditor2);
    r := dynamic.GetEditor(kind);
  }
}
