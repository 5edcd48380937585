# DynamicDescriptors: the dynamic property descriptor, modelled in Dafny

A `DynamicPropertyDescriptor` wraps an existing property descriptor: an object that reads, writes, resets and describes one property of a component. Five pieces of metadata can be overridden at run time: the read-only flag, category, converter, description and display name. The decorator also keeps a table of editor overrides, one per editor kind. An overridden field answers with its override. Every other query, and every value operation, goes to the wrapped descriptor unchanged. Wrapping a missing (null) descriptor fails with an argument-null error.

The decorator's implementation file is not part of this model. Its behaviour is modelled from its NUnit test fixture, `src/DynamicDescriptors.Tests/DynamicPropertyDescriptorTests.cs`. The wrapped descriptor is the fixture's recording stub, `MockPropertyDescriptor`.

Files:

- `handles.dfy` (module `Handles`): object references compared only by identity. `Ref` is a reference that may be null. `TypeKey` is an editor kind. Also `Option`, `Result` and the `ArgumentNull` error.
- `overlay.dfy` (module `Overlay`): the precedence rules, on values.
  - `Overrides` holds one "unset | set(v)" slot per scalar field and the editor table.
  - `Apply` performs one setter call; `Replay` performs a history of them.
  - `LatestOverride` is an independent reference definition of "the latest write per field wins, a null editor clears".
  - `LatestWriteWins` proves that `Replay` and `LatestOverride` agree.
  - `Effective` is the override-or-delegate rule.
- `mock_property_descriptor.dfy` (module `MockDescriptor`): the recording descriptor as a class.
  - Its configured results and its recordings are fields.
  - Its recording methods state the complete new state: `Configured()` is unchanged, and `Recorded()` changes only in the method's own fields.
- `dynamic_property_descriptor.dfy` (module `DynamicDescriptors`): the decorator as a class.
  - It has a constant reference to the wrapped descriptor, five `Option` slots and an editor `map`.
  - A ghost `history` of setter calls is tied to the slots by `Valid()`.
  - Accessors are stated through `Overlay.Effective`.
  - Forwarding methods are stated through what the wrapped descriptor returns and records.
- `dynamic_property_descriptor_tests.dfy` (module `DescriptorTests`): one client method per test of the fixture. Each is universally quantified over the test's objects and literals. Its postcondition is the test's assertions, proved from the class contracts.

## Model

| member | source | states |
|---|---|---|
| `Overlay.Apply` | src/DynamicDescriptors.Tests/DynamicPropertyDescriptorTests.cs:126-294 | a setter call leaves its own field holding what it wrote (nothing, for a null editor), every other field's override untouched, and no null in the editor table |
| `Overlay.LatestWriteWins` | src/DynamicDescriptors.Tests/DynamicPropertyDescriptorTests.cs:279-294 | after any sequence of setter calls from the empty state, the override in force for each field is the one its latest call left (last write per key wins; a null editor removes the entry) |
| `Overlay.ReplayKeepsNoNullEditors` | src/DynamicDescriptors.Tests/DynamicPropertyDescriptorTests.cs:263-277 | no sequence of setter calls leaves a null editor stored in the table: clearing removes the entry |
| `Overlay.LatestOverrideIsLastCall` | src/DynamicDescriptors.Tests/DynamicPropertyDescriptorTests.cs:279-294 | the reference definition picks the last call that targets a field, whatever earlier calls wrote |
| `Overlay.LatestOverrideUntouched` | src/DynamicDescriptors.Tests/DynamicPropertyDescriptorTests.cs:235-246 | with no call targeting a field, no override is in force for it |
| `Overlay.OverrideWins` | src/DynamicDescriptors.Tests/DynamicPropertyDescriptorTests.cs:223-233 | once the latest call for a field set a value, a query about that field answers it for every base value |
| `Overlay.OtherwiseDelegate` | src/DynamicDescriptors.Tests/DynamicPropertyDescriptorTests.cs:263-277 | with no override in force (never set, or an editor cleared last), a query answers the base value |
| `MockDescriptor.MockPropertyDescriptor.ComponentType` | Source/DynamicDescriptors.Tests/MockPropertyDescriptor.cs:11-12 | returns the configured component type; a function, so reading it changes nothing |
| `MockDescriptor.MockPropertyDescriptor.IsReadOnly` | Source/DynamicDescriptors.Tests/MockPropertyDescriptor.cs:14-15 | returns the configured read-only flag without side effects |
| `MockDescriptor.MockPropertyDescriptor.PropertyType` | Source/DynamicDescriptors.Tests/MockPropertyDescriptor.cs:17-18 | returns the configured property type without side effects |
| `MockDescriptor.MockPropertyDescriptor.Category` | src/DynamicDescriptors.Tests/DynamicPropertyDescriptorTests.cs:115-124 | returns the configured category (the `CategoryResult` the tests assign) without side effects |
| `MockDescriptor.MockPropertyDescriptor.Converter` | src/DynamicDescriptors.Tests/DynamicPropertyDescriptorTests.cs:138-149 | returns the configured converter (`ConverterResult`) without side effects |
| `MockDescriptor.MockPropertyDescriptor.Description` | src/DynamicDescriptors.Tests/DynamicPropertyDescriptorTests.cs:166-175 | returns the configured description (`DescriptionResult`) without side effects |
| `MockDescriptor.MockPropertyDescriptor.DisplayName` | src/DynamicDescriptors.Tests/DynamicPropertyDescriptorTests.cs:189-198 | returns the configured display name (`DisplayNameResult`) without side effects |
| `MockDescriptor.MockPropertyDescriptor.GetEditor` | src/DynamicDescriptors.Tests/DynamicPropertyDescriptorTests.cs:235-246 | returns the configured editor (`GetEditorResult`) for every editor kind, without side effects |
| `MockDescriptor.MockPropertyDescriptor.constructor` | Source/DynamicDescriptors.Tests/MockPropertyDescriptor.cs:8-9 | a new descriptor answers the defaults (null, false) and has recorded no call |
| `MockDescriptor.MockPropertyDescriptor.GetValue` | Source/DynamicDescriptors.Tests/MockPropertyDescriptor.cs:20-28 | sets GetValueCalled, stores the component in GetValueComponent, returns GetValueResult; no other field changes |
| `MockDescriptor.MockPropertyDescriptor.SetValue` | Source/DynamicDescriptors.Tests/MockPropertyDescriptor.cs:30-38 | sets SetValueCalled, stores the component and the value; no other field changes |
| `MockDescriptor.MockPropertyDescriptor.ResetValue` | Source/DynamicDescriptors.Tests/MockPropertyDescriptor.cs:40-46 | sets ResetValueCalled, stores the component; no other field changes |
| `MockDescriptor.MockPropertyDescriptor.CanResetValue` | Source/DynamicDescriptors.Tests/MockPropertyDescriptor.cs:48-56 | sets its called flag, stores the component, returns CanResetValueResult unchanged; no other field changes |
| `MockDescriptor.MockPropertyDescriptor.ShouldSerializeValue` | Source/DynamicDescriptors.Tests/MockPropertyDescriptor.cs:58-66 | sets its called flag, stores the component, returns ShouldSerializeValueResult unchanged; no other field changes |
| `DynamicDescriptors.DynamicPropertyDescriptor.constructor` | src/DynamicDescriptors.Tests/DynamicPropertyDescriptorTests.cs:22-23 | wraps the given descriptor with nothing overridden and an empty setter history |
| `DynamicDescriptors.DynamicPropertyDescriptor.Create` | src/DynamicDescriptors.Tests/DynamicPropertyDescriptorTests.cs:10-17 | fails with an argument-null error exactly when the descriptor is null; otherwise a new decorator around it with nothing overridden |
| `DynamicDescriptors.DynamicPropertyDescriptor.ComponentType` | src/DynamicDescriptors.Tests/DynamicPropertyDescriptorTests.cs:36-45 | is the wrapped descriptor's component type |
| `DynamicDescriptors.DynamicPropertyDescriptor.PropertyType` | src/DynamicDescriptors.Tests/DynamicPropertyDescriptorTests.cs:61-70 | is the wrapped descriptor's property type |
| `DynamicDescriptors.DynamicPropertyDescriptor.GetValue` | src/DynamicDescriptors.Tests/DynamicPropertyDescriptorTests.cs:47-59 | returns the wrapped descriptor's result; the wrapped descriptor records the same component and nothing else |
| `DynamicDescriptors.DynamicPropertyDescriptor.SetValue` | src/DynamicDescriptors.Tests/DynamicPropertyDescriptorTests.cs:84-96 | the wrapped descriptor records one SetValue call with the same component and value, and nothing else |
| `DynamicDescriptors.DynamicPropertyDescriptor.ResetValue` | src/DynamicDescriptors.Tests/DynamicPropertyDescriptorTests.cs:72-82 | the wrapped descriptor records one ResetValue call with the same component, and nothing else |
| `DynamicDescriptors.DynamicPropertyDescriptor.CanResetValue` | src/DynamicDescriptors.Tests/DynamicPropertyDescriptorTests.cs:19-34 | returns exactly the wrapped descriptor's answer; it records the same component |
| `DynamicDescriptors.DynamicPropertyDescriptor.ShouldSerializeValue` | src/DynamicDescriptors.Tests/DynamicPropertyDescriptorTests.cs:98-113 | returns exactly the wrapped descriptor's answer; it records the same component |
| `DynamicDescriptors.DynamicPropertyDescriptor.IsReadOnly` | src/DynamicDescriptors.Tests/DynamicPropertyDescriptorTests.cs:212-233 | the read-only override when set, else the wrapped descriptor's flag |
| `DynamicDescriptors.DynamicPropertyDescriptor.Category` | src/DynamicDescriptors.Tests/DynamicPropertyDescriptorTests.cs:115-136 | the category override when set, else the wrapped descriptor's category |
| `DynamicDescriptors.DynamicPropertyDescriptor.Converter` | src/DynamicDescriptors.Tests/DynamicPropertyDescriptorTests.cs:138-164 | the converter override when set, else the wrapped descriptor's converter |
| `DynamicDescriptors.DynamicPropertyDescriptor.Description` | src/DynamicDescriptors.Tests/DynamicPropertyDescriptorTests.cs:166-187 | the description override when set, else the wrapped descriptor's description |
| `DynamicDescriptors.DynamicPropertyDescriptor.DisplayName` | src/DynamicDescriptors.Tests/DynamicPropertyDescriptorTests.cs:189-210 | the display-name override when set, else the wrapped descriptor's display name |
| `DynamicDescriptors.DynamicPropertyDescriptor.GetEditor` | src/DynamicDescriptors.Tests/DynamicPropertyDescriptorTests.cs:235-294 | the stored editor for the kind when there is one, else the wrapped descriptor's editor |
| `DynamicDescriptors.DynamicPropertyDescriptor.AnswerFollowsHistory` | src/DynamicDescriptors.Tests/DynamicPropertyDescriptorTests.cs:115-294 | for every field, after any sequence of setter calls, the decorator answers the latest override in force, or the wrapped descriptor's answer when none is |
| `DynamicDescriptors.DynamicPropertyDescriptor.SetReadOnly` | src/DynamicDescriptors.Tests/DynamicPropertyDescriptorTests.cs:223-233 | records the read-only override and nothing else; IsReadOnly then answers it |
| `DynamicDescriptors.DynamicPropertyDescriptor.SetCategory` | src/DynamicDescriptors.Tests/DynamicPropertyDescriptorTests.cs:126-136 | records the category override and nothing else; Category then answers it |
| `DynamicDescriptors.DynamicPropertyDescriptor.SetConverter` | src/DynamicDescriptors.Tests/DynamicPropertyDescriptorTests.cs:151-164 | records the converter override and nothing else; Converter then answers it |
| `DynamicDescriptors.DynamicPropertyDescriptor.SetDescription` | src/DynamicDescriptors.Tests/DynamicPropertyDescriptorTests.cs:177-187 | records the description override and nothing else; Description then answers it |
| `DynamicDescriptors.DynamicPropertyDescriptor.SetDisplayName` | src/DynamicDescriptors.Tests/DynamicPropertyDescriptorTests.cs:200-210 | records the display-name override and nothing else; DisplayName then answers it |
| `DynamicDescriptors.DynamicPropertyDescriptor.SetEditor` | src/DynamicDescriptors.Tests/DynamicPropertyDescriptorTests.cs:248-294 | inserts or replaces the kind's entry for a non-null editor; removes it for a null one; no other entry changes; GetEditor then answers the new editor or the wrapped descriptor's |
| `DescriptorTests.ConstructorDescriptorIsNull` | src/DynamicDescriptors.Tests/DynamicPropertyDescriptorTests.cs:10-17 | wrapping null fails with an argument-null error |
| `DescriptorTests.CanResetValueReturnsDescriptorResult` | src/DynamicDescriptors.Tests/DynamicPropertyDescriptorTests.cs:19-34 | the decorator answers true and then false as the base is configured, and the base sees the component both times |
| `DescriptorTests.ComponentTypeReturnsDescriptorComponentType` | src/DynamicDescriptors.Tests/DynamicPropertyDescriptorTests.cs:36-45 | the decorator's component type is the configured one, for every type |
| `DescriptorTests.GetValueReturnsDescriptorGetValue` | src/DynamicDescriptors.Tests/DynamicPropertyDescriptorTests.cs:47-59 | the decorator returns the configured result, and the base sees the component |
| `DescriptorTests.PropertyTypeReturnsDescriptorPropertyType` | src/DynamicDescriptors.Tests/DynamicPropertyDescriptorTests.cs:61-70 | the decorator's property type is the configured one, for every type |
| `DescriptorTests.ResetValueCallsDescriptorResetValue` | src/DynamicDescriptors.Tests/DynamicPropertyDescriptorTests.cs:72-82 | the base sees the component and its called flag is set |
| `DescriptorTests.SetValueCallsDescriptorSetValue` | src/DynamicDescriptors.Tests/DynamicPropertyDescriptorTests.cs:84-96 | the base sees the component and the value and its called flag is set |
| `DescriptorTests.ShouldSerializeValueReturnsDescriptorResult` | src/DynamicDescriptors.Tests/DynamicPropertyDescriptorTests.cs:98-113 | the decorator answers true and then false as the base is configured, and the base sees the component both times |
| `DescriptorTests.CategoryNoOverride` | src/DynamicDescriptors.Tests/DynamicPropertyDescriptorTests.cs:115-124 | without an override the category is the base's, for every base category |
| `DescriptorTests.CategoryOverride` | src/DynamicDescriptors.Tests/DynamicPropertyDescriptorTests.cs:126-136 | after SetCategory(v) the category is v, whatever the base's is |
| `DescriptorTests.ConverterNoOverride` | src/DynamicDescriptors.Tests/DynamicPropertyDescriptorTests.cs:138-149 | without an override the converter is the base's |
| `DescriptorTests.ConverterOverride` | src/DynamicDescriptors.Tests/DynamicPropertyDescriptorTests.cs:151-164 | after SetConverter(c) the converter is c, whatever the base's is |
| `DescriptorTests.DescriptionNoOverride` | src/DynamicDescriptors.Tests/DynamicPropertyDescriptorTests.cs:166-175 | without an override the description is the base's |
| `DescriptorTests.DescriptionOverride` | src/DynamicDescriptors.Tests/DynamicPropertyDescriptorTests.cs:177-187 | after SetDescription(v) the description is v, whatever the base's is |
| `DescriptorTests.DisplayNameNoOverride` | src/DynamicDescriptors.Tests/DynamicPropertyDescriptorTests.cs:189-198 | without an override the display name is the base's |
| `DescriptorTests.DisplayNameOverride` | src/DynamicDescriptors.Tests/DynamicPropertyDescriptorTests.cs:200-210 | after SetDisplayName(v) the display name is v, whatever the base's is |
| `DescriptorTests.IsReadOnlyNoOverride` | src/DynamicDescriptors.Tests/DynamicPropertyDescriptorTests.cs:212-221 | without an override the read-only flag is the base's, for both booleans |
| `DescriptorTests.IsReadOnlyOverride` | src/DynamicDescriptors.Tests/DynamicPropertyDescriptorTests.cs:223-233 | after SetReadOnly(o) the flag is o, in all four combinations of base flag and override |
| `DescriptorTests.GetEditorNoOverride` | src/DynamicDescriptors.Tests/DynamicPropertyDescriptorTests.cs:235-246 | without an override the editor is the base's |
| `DescriptorTests.GetEditorOverride` | src/DynamicDescriptors.Tests/DynamicPropertyDescriptorTests.cs:248-261 | after SetEditor(k, e) with a non-null e, GetEditor(k) is e |
| `DescriptorTests.GetEditorOverrideThenClear` | src/DynamicDescriptors.Tests/DynamicPropertyDescriptorTests.cs:263-277 | after SetEditor(k, e) then SetEditor(k, null), GetEditor(k) is the base's editor again |
| `DescriptorTests.GetEditorMultipleOverrides` | src/DynamicDescriptors.Tests/DynamicPropertyDescriptorTests.cs:279-294 | after SetEditor(k, e1) then SetEditor(k, e2) with a non-null e2, GetEditor(k) is e2 |

## Left out

- The decorator's own implementation file is not part of this model. Its members follow the behaviour its tests fix and the override-or-delegate design. Where the tests are silent (a null category, description, display name or converter override), the model's rule applies: a set override always wins.
- The descriptor base class of the host library is not part of this model. That covers its name, its attribute array, attribute discovery and reflection. Only the capability set the tests use is modelled.
- One concrete base kind: the decorator wraps a `MockPropertyDescriptor`, the descriptor the tests wrap. A decorator wrapping another decorator, or any other descriptor, is not modelled.
- `MockDescriptor.MockPropertyDescriptor.Category`, `Converter`, `Description`, `DisplayName`, `GetEditor`: the stub shown lacks these configured results. The tests assign `CategoryResult`, `ConverterResult`, `DescriptionResult`, `DisplayNameResult` and `GetEditorResult`. The model adds them as plain configured fields. It assumes `GetEditor` answers `GetEditorResult` for every editor kind.
- Text is never null. The stub's unset text results default to the empty string, where .NET would hold null.
- Type converters, editors, `System.Type` objects, components and values are opaque references compared by identity. Their own behaviour is not modelled.
- The exception message text is not modelled. Only "fails with an argument-null error" is.
- Which stub properties have public setters is not modelled (the two called flags that are publicly settable, for instance). Every Dafny field can be assigned by a client.
- The setters' fluent return of the decorator is not modelled. The tests ignore it.
- A failure raised by the wrapped descriptor, which the decorator passes on unchanged, is not modelled. The stub never fails.
- NUnit's fixture, assertion and `TestCase` machinery is not modelled. Each test becomes a method that is universally quantified over the test's objects.
