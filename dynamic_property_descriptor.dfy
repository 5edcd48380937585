/** The dynamic property descriptor: a decorator around a property descriptor
    whose display metadata and editors can be overridden at run time, while
    everything else is forwarded to the wrapped descriptor unchanged. */
module DynamicDescriptors {
  import opened Handles
  import opened Overlay
  import opened MockDescriptor

  class DynamicPropertyDescriptor {
    /** The wrapped descriptor, fixed for the decorator's lifetime. */
    const descriptor: MockPropertyDescriptor

    var readOnlyOverride: Option<bool>
    var categoryOverride: Option<string>
    var converterOverride: Option<Ref>
    var descriptionOverride: Option<string>
    var displayNameOverride: Option<string>
    var editors: map<TypeKey, Ref>

    /** The setter calls made on this decorator so far, oldest first. */
    ghost var history: seq<Setter>

    /** The decorator's override state as a value. */
    function Overrides(): Overrides
      reads this
    {
      Overlay.Overrides(readOnlyOverride, categoryOverride, converterOverride,
                        descriptionOverride, displayNameOverride, editors)
    }

    /** The state is what the setter calls so far have built, and the editor
        table holds no null editor. */
    ghost predicate Valid()
      reads this
    {
      && Overrides() == Replay(Empty, history)
      && NoNullEditors(Overrides())
    }

    constructor (descriptor: MockPropertyDescriptor)
      ensures Valid() && this.descriptor == descriptor
      ensures Overrides() == Empty && history == []
    {
      this.descriptor := descriptor;
      readOnlyOverride, categoryOverride, converterOverride := None, None, None;
      descriptionOverride, displayNameOverride := None, None;
      editors := map[];
      history := [];
    }

    /** Wrapping: fails with an argument-null error when there is no descriptor
        to wrap; otherwise a new decorator around it, with nothing overridden. */
    static method Create(descriptor: MockPropertyDescriptor?) returns (r: Result<DynamicPropertyDescriptor, Error>)
      ensures descriptor == null <==> r.Failure?
      ensures r.Failure? ==> r.error == ArgumentNull
      ensures r.Success? ==> && fresh(r.value) && r.value.Valid()
                             && r.value.descriptor == descriptor
                             && r.value.Overrides() == Empty && r.value.history == []
    {
      if descriptor == null {
        r := Failure(ArgumentNull);
      } else {
        var d := new DynamicPropertyDescriptor(descriptor);
        r := Success(d);
      }
    }

    // Forwarding members: no override, the wrapped descriptor answers.

    /** The wrapped descriptor's component type. */
    function ComponentType(): (r: Ref)
      reads this, descriptor
      ensures r == descriptor.Configured().componentType
    {
      descriptor.ComponentType()
    }

    /** The wrapped descriptor's property type. */
    function PropertyType(): (r: Ref)
      reads this, descriptor
      ensures r == descriptor.Configured().propertyType
    {
      descriptor.PropertyType()
    }

    /** Reads the value through the wrapped descriptor, which sees the same component. */
    method GetValue(component: Ref) returns (r: Ref)
      modifies descriptor
      ensures r == old(descriptor.Configured()).getValueResult
      ensures descriptor.Configured() == old(descriptor.Configured())
      ensures descriptor.Recorded() == old(descriptor.Recorded()).(getValueCalled := true, getValueComponent := component)
    {
      r := descriptor.GetValue(component);
    }

    /** Writes the value through the wrapped descriptor, which sees the same component and value. */
    method SetValue(component: Ref, value: Ref)
      modifies descriptor
      ensures descriptor.Configured() == old(descriptor.Configured())
      ensures descriptor.Recorded() == old(descriptor.Recorded()).(setValueCalled := true, setValueComponent := component, setValueValue := value)
    {
      descriptor.SetValue(component, value);
    }

    /** Resets the value through the wrapped descriptor, which sees the same component. */
    method ResetValue(component: Ref)
      modifies descriptor
      ensures descriptor.Configured() == old(descriptor.Configured())
      ensures descriptor.Recorded() == old(descriptor.Recorded()).(resetValueCalled := true, resetValueComponent := component)
    {
      descriptor.ResetValue(component);
    }

    /** The wrapped descriptor's answer, for the same component. */
    method CanResetValue(component: Ref) returns (r: bool)
      modifies descriptor
      ensures r == old(descriptor.Configured()).canResetValueResult
      ensures descriptor.Configured() == old(descriptor.Configured())
      ensures descriptor.Recorded() == old(descriptor.Recorded()).(canResetValueCalled := true, canResetValueComponent := component)
    {
      r := descriptor.CanResetValue(component);
    }

    /** The wrapped descriptor's answer, for the same component. */
    method ShouldSerializeValue(component: Ref) returns (r: bool)
      modifies descriptor
      ensures r == old(descriptor.Configured()).shouldSerializeValueResult
      ensures descriptor.Configured() == old(descriptor.Configured())
      ensures descriptor.Recorded() == old(descriptor.Recorded()).(shouldSerializeValueCalled := true, shouldSerializeValueComponent := component)
    {
      r := descriptor.ShouldSerializeValue(component);
    }

    // Overridable members: the override once set, else the wrapped descriptor's value.

    function IsReadOnly(): (r: bool)
      reads this, descriptor
      ensures Flag(r) == Effective(Overrides(), Flag(descriptor.Configured().isReadOnly), ReadOnlyField)
    {
      match readOnlyOverride
      case Some(b) => b
      case None => descriptor.IsReadOnly()
    }

    function Category(): (r: string)
      reads this, descriptor
      ensures Text(r) == Effective(Overrides(), Text(descriptor.Configured().category), CategoryField)
    {
      match categoryOverride
      case Some(c) => c
      case None => descriptor.Category()
    }

    function Converter(): (r: Ref)
      reads this, descriptor
      ensures Handle(r) == Effective(Overrides(), Handle(descriptor.Configured().converter), ConverterField)
    {
      match converterOverride
      case Some(c) => c
      case None => descriptor.Converter()
    }

    function Description(): (r: string)
      reads this, descriptor
      ensures Text(r) == Effective(Overrides(), Text(descriptor.Configured().description), DescriptionField)
    {
      match descriptionOverride
      case Some(d) => d
      case None => descriptor.Description()
    }

    function DisplayName(): (r: string)
      reads this, descriptor
      ensures Text(r) == Effective(Overrides(), Text(descriptor.Configured().displayName), DisplayNameField)
    {
      match displayNameOverride
      case Some(n) => n
      case None => descriptor.DisplayName()
    }

    /** The override for `kind` when one is stored, else the wrapped descriptor's editor. */
    function GetEditor(kind: TypeKey): (r: Ref)
      requires Valid()
      reads this, descriptor
      ensures Handle(r) == Effective(Overrides(), Handle(descriptor.Configured().editor), EditorField(kind))
      ensures r == Null ==> descriptor.Configured().editor == Null
    {
      if kind in editors then editors[kind] else descriptor.GetEditor(kind)
    }

    /** The wrapped descriptor's own answer about field `f`. */
    function BaseAnswer(f: Field): Value
      reads descriptor
    {
      match f
      case ReadOnlyField => Flag(descriptor.IsReadOnly())
      case CategoryField => Text(descriptor.Category())
      case ConverterField => Handle(descriptor.Converter())
      case DescriptionField => Text(descriptor.Description())
      case DisplayNameField => Text(descriptor.DisplayName())
      case EditorField(k) => Handle(descriptor.GetEditor(k))
    }

    /** This decorator's answer about field `f`, through its own accessors. */
    function Answer(f: Field): Value
      requires Valid()
      reads this, descriptor
    {
      match f
      case ReadOnlyField => Flag(IsReadOnly())
      case CategoryField => Text(Category())
      case ConverterField => Handle(Converter())
      case DescriptionField => Text(Description())
      case DisplayNameField => Text(DisplayName())
      case EditorField(k) => Handle(GetEditor(k))
    }

    /** Whatever setter calls were made, each field answers its latest
        override, and the wrapped descriptor's answer when none is in force
        (never set, or an editor cleared last). */
    lemma AnswerFollowsHistory(f: Field)
      requires Valid()
      ensures LatestOverride(history, f).Some? ==> Answer(f) == LatestOverride(history, f).value
      ensures LatestOverride(history, f) == None ==> Answer(f) == BaseAnswer(f)
    {
      if LatestOverride(history, f).Some? {
        OverrideWins(history, BaseAnswer(f), f);
      } else {
        OtherwiseDelegate(history, BaseAnswer(f), f);
      }
    }

    method SetReadOnly(readOnly: bool)
      requires Valid()
      modifies this
      ensures Valid() && history == old(history) + [Overlay.SetReadOnly(readOnly)]
      ensures Overrides() == old(Overrides()).(readOnly := Some(readOnly))
      ensures IsReadOnly() == readOnly
    {
      readOnlyOverride := Some(readOnly);
      ReplayAppend(Empty, history, Overlay.SetReadOnly(readOnly));
      history := history + [Overlay.SetReadOnly(readOnly)];
    }

    method SetCategory(category: string)
      requires Valid()
      modifies this
      ensures Valid() && history == old(history) + [Overlay.SetCategory(category)]
      ensures Overrides() == old(Overrides()).(category := Some(category))
      ensures Category() == category
    {
      categoryOverride := Some(category);
      ReplayAppend(Empty, history, Overlay.SetCategory(category));
      history := history + [Overlay.SetCategory(category)];
    }

    method SetConverter(converter: Ref)
      requires Valid()
      modifies this
      ensures Valid() && history == old(history) + [Overlay.SetConverter(converter)]
      ensures Overrides() == old(Overrides()).(converter := Some(converter))
      ensures Converter() == converter
    {
      converterOverride := Some(converter);
      ReplayAppend(Empty, history, Overlay.SetConverter(converter));
      history := history + [Overlay.SetConverter(converter)];
    }

    method SetDescription(description: string)
      requires Valid()
      modifies this
      ensures Valid() && history == old(history) + [Overlay.SetDescription(description)]
      ensures Overrides() == old(Overrides()).(description := Some(description))
      ensures Description() == description
    {
      descriptionOverride := Some(description);
      ReplayAppend(Empty, history, Overlay.SetDescription(description));
      history := history + [Overlay.SetDescription(description)];
    }

    method SetDisplayName(displayName: string)
      requires Valid()
      modifies this
      ensures Valid() && history == old(history) + [Overlay.SetDisplayName(displayName)]
      ensures Overrides() == old(Overrides()).(displayName := Some(displayName))
      ensures DisplayName() == displayName
    {
      displayNameOverride := Some(displayName);
      ReplayAppend(Empty, history, Overlay.SetDisplayName(displayName));
      history := history + [Overlay.SetDisplayName(displayName)];
    }

    /** Inserts or replaces the override for `kind`; a null editor removes it instead. */
    method SetEditor(kind: TypeKey, editor: Ref)
      requires Valid()
      modifies this
      ensures Valid() && history == old(history) + [Overlay.SetEditor(kind, editor)]
      ensures editor == Null ==> Overrides() == old(Overrides()).(editors := old(editors) - {kind})
      ensures editor != Null ==> Overrides() == old(Overrides()).(editors := old(editors)[kind := editor])
      ensures GetEditor(kind) == if editor == Null then descriptor.Configured().editor else editor
    {
      if editor == Null {
        editors := editors - {kind};
      } else {
        editors := editors[kind := editor];
      }
      ReplayAppend(Empty, history, Overlay.SetEditor(kind, editor));
      history := history + [Overlay.SetEditor(kind, editor)];
    }
  }
}
