/** The recording stand-in for a property descriptor that the decorator's
    tests wrap. Every configured result is a field the test assigns; every
    value-level operation records that it was called and with what. */
module MockDescriptor {
  import opened Handles

  /** What a test configures the descriptor to answer. */
  datatype Configuration = Configuration(
    componentType: Ref,
    isReadOnly: bool,
    propertyType: Ref,
    getValueResult: Ref,
    canResetValueResult: bool,
    shouldSerializeValueResult: bool,
    category: string,
    converter: Ref,
    description: string,
    displayName: string,
    editor: Ref)

  /** What the descriptor has recorded about the calls it received. */
  datatype Recording = Recording(
    getValueCalled: bool,
    getValueComponent: Ref,
    setValueCalled: bool,
    setValueComponent: Ref,
    setValueValue: Ref,
    resetValueCalled: bool,
    resetValueComponent: Ref,
    canResetValueCalled: bool,
    canResetValueComponent: Ref,
    shouldSerializeValueCalled: bool,
    shouldSerializeValueComponent: Ref)

  /** Nothing called yet: every flag false, every recorded reference null. */
  const NothingRecorded := Recording(false, Null, false, Null, Null, false, Null, false, Null, false, Null)

  class MockPropertyDescriptor {
    // Configured results.
    var componentTypeResult: Ref
    var isReadOnlyResult: bool
    var propertyTypeResult: Ref
    var getValueResult: Ref
    var canResetValueResult: bool
    var shouldSerializeValueResult: bool
    var categoryResult: string
    var converterResult: Ref
    var descriptionResult: string
    var displayNameResult: string
    var getEditorResult: Ref

    // Recorded calls.
    var getValueCalled: bool
    var getValueComponent: Ref
    var setValueCalled: bool
    var setValueComponent: Ref
    var setValueValue: Ref
    var resetValueCalled: bool
    var resetValueComponent: Ref
    var canResetValueCalled: bool
    var canResetValueComponent: Ref
    var shouldSerializeValueCalled: bool
    var shouldSerializeValueComponent: Ref

    function Configured(): Configuration
      reads this
    {
      Configuration(componentTypeResult, isReadOnlyResult, propertyTypeResult, getValueResult,
                    canResetValueResult, shouldSerializeValueResult, categoryResult, converterResult,
                    descriptionResult, displayNameResult, getEditorResult)
    }

    function Recorded(): Recording
      reads this
    {
      Recording(getValueCalled, getValueComponent, setValueCalled, setValueComponent, setValueValue,
                resetValueCalled, resetValueComponent, canResetValueCalled, canResetValueComponent,
                shouldSerializeValueCalled, shouldSerializeValueComponent)
    }

    /** A new descriptor answers defaults (null, false, empty text) and has recorded nothing. */
    constructor ()
      ensures Configured() == Configuration(Null, false, Null, Null, false, false, "", Null, "", "", Null)
      ensures Recorded() == NothingRecorded
    {
      componentTypeResult, isReadOnlyResult, propertyTypeResult := Null, false, Null;
      getValueResult, canResetValueResult, shouldSerializeValueResult := Null, false, false;
      categoryResult, converterResult, descriptionResult, displayNameResult := "", Null, "", "";
      getEditorResult := Null;
      getValueCalled, getValueComponent := false, Null;
      setValueCalled, setValueComponent, setValueValue := false, Null, Null;
      resetValueCalled, resetValueComponent := false, Null;
      canResetValueCalled, canResetValueComponent := false, Null;
      shouldSerializeValueCalled, shouldSerializeValueComponent := false, Null;
    }

    /** The configured component type, read without side effects. */
    function ComponentType(): (r: Ref)
      reads this
      ensures r == Configured().componentType
    {
      componentTypeResult
    }

    /** The configured read-only flag, read without side effects. */
    function IsReadOnly(): (r: bool)
      reads this
      ensures r == Configured().isReadOnly
    {
      isReadOnlyResult
    }

    /** The configured property type, read without side effects. */
    function PropertyType(): (r: Ref)
      reads this
      ensures r == Configured().propertyType
    {
      propertyTypeResult
    }

    /** The configured category, read without side effects. */
    function Category(): (r: string)
      reads this
      ensures r == Configured().category
    {
      categoryResult
    }

    /** The configured converter, read without side effects. */
    function Converter(): (r: Ref)
      reads this
      ensures r == Configured().converter
    {
      converterResult
    }

    /** The configured description, read without side effects. */
    function Description(): (r: string)
      reads this
      ensures r == Configured().description
    {
      descriptionResult
    }

    /** The configured display name, read without side effects. */
    function DisplayName(): (r: string)
      reads this
      ensures r == Configured().displayName
    {
      displayNameResult
    }

    /** The configured editor, the same for every editor kind, read without side effects. */
    function GetEditor(kind: TypeKey): (r: Ref)
      reads this
      ensures r == Configured().editor
    {
      getEditorResult
    }

    /** Records the call and its component, and returns the configured value. */
    method GetValue(component: Ref) returns (r: Ref)
      modifies this
      ensures r == Configured().getValueResult
      ensures Configured() == old(Configured())
      ensures Recorded() == old(Recorded()).(getValueCalled := true, getValueComponent := component)
    {
      getValueCalled := true;
      getValueComponent := component;
      r := getValueResult;
    }

    /** Records the call, its component and the value it was asked to store. */
    method SetValue(component: Ref, value: Ref)
      modifies this
      ensures Configured() == old(Configured())
      ensures Recorded() == old(Recorded()).(setValueCalled := true, setValueComponent := component, setValueValue := value)
    {
      setValueCalled := true;
      setValueComponent := component;
      setValueValue := value;
    }

    /** Records the call and its component. */
    method ResetValue(component: Ref)
      modifies this
      ensures Configured() == old(Configured())
      ensures Recorded() == old(Recorded()).(resetValueCalled := true, resetValueComponent := component)
    {
      resetValueCalled := true;
      resetValueComponent := component;
    }

    /** Records the call and its component, and returns the configured answer unchanged. */
    method CanResetValue(component: Ref) returns (r: bool)
      modifies this
      ensures r == Configured().canResetValueResult
      ensures Configured() == old(Configured())
      ensures Recorded() == old(Recorded()).(canResetValueCalled := true, canResetValueComponent := component)
    {
      canResetValueCalled := true;
      canResetValueComponent := component;
      r := canResetValueResult;
    }

    /** Records the call and its component, and returns the configured answer unchanged. */
    method ShouldSerializeValue(component: Ref) returns (r: bool)
      modifies this
      ensures r == Configured().shouldSerializeValueResult
      ensures Configured() == old(Configured())
      ensures Recorded() == old(Recorded()).(shouldSerializeValueCalled := true, shouldSerializeValueComponent := component)
    {
      shouldSerializeValueCalled := true;
      shouldSerializeValueComponent := component;
      r := shouldSerializeValueResult;
    }
  }
}
