# ICE registry core: entries, samples, entry types and the strain-with-plasmid form

This project models, in Dafny, the in-memory core of the ICE biological part
registry:

- **Entry** (`EntryModel`): a registry record and the collections it owns —
  names, part numbers, links, selection markers, funding sources and
  parameters. Every collection setter replaces the contents *in place*: a null
  argument clears the collection, the collection itself changes nothing, and
  any other collection is copied in after clearing, so the entry keeps the
  same collection object throughout. The selectors (`getOneName`,
  `getOnePartNumber`, `principalInvestigatorToString`,
  `fundingSourceToString`), `equals`/`hashCode` and the biosafety options are
  modelled as well.
- **Collections** (`Collections`): the insertion-ordered set
  (`LinkedHashSet`) and list (`ArrayList`) the entry owns, as objects whose
  contents are a sequence, with `clear`, `add` and `addAll` proved against
  specification functions.
- **Sample controller** (`SampleControl`): sample construction, the write
  permission check on a sample's entry, save and delete through the sample
  store with the TUBE cascade, the optional search-index rebuild, and the way
  store failures surface.
- **Entry transfer object** (`EntryInfoDto`): the closed set of entry types,
  their case-insensitive lookup by name, and the owned sample storage list.
- **Strain-with-plasmid form** (`StrainWithPlasmidForm`): which required
  field `validateForm` reports, and the text of a field label.
- **Java platform pieces** (`JavaLang`): `String.contains`,
  `equalsIgnoreCase`, and the `String`, `Long` and Guava `Objects` hash codes
  with explicit 32-bit wrap-around.

External collaborators are parameters: the permission engine is a function
`(Account, Entry) -> bool` fixed when the controller is built; whether a store
call throws is an argument of the operation (`daoFails`, `DeleteFault`, or a
`DaoReply` for queries), and so is the object the store's save answers with; the UUID generator and the clock are arguments of
`CreateSampleNow`; the configured local part-number prefix is an argument of
`GetOnePartNumber`; scheduling a search-index rebuild increments the ghost
counter `rebuildsScheduled`.

Where the code differs from the documented design, the model follows the code:

- `getOnePartNumber` is deterministic: the last part number in iteration order
  that contains the prefix, else the first one.
- `deleteSample` removes the sample before its TUBE storage, so a failing
  storage removal leaves the sample deleted and the storage in place; the
  model keeps that partial outcome.
- The entry types of the transfer object are strain, plasmid, part and
  arabidopsis.

## Model

| member | source | states |
|---|---|---|
| Collections.InsertAllNoDups | src/main/java/org/jbei/ice/lib/entry/model/Entry.java:307-310 | adding elements to an insertion-ordered set never creates a duplicate |
| Collections.InsertAllFresh | src/main/java/org/jbei/ice/lib/entry/model/Entry.java:307-310 | adding new distinct elements appends them exactly, in the argument's iteration order |
| Collections.OrderedSet.constructor | src/main/java/org/jbei/ice/lib/entry/model/Entry.java:189 | a new set is empty |
| Collections.OrderedSet.Clear | src/main/java/org/jbei/ice/lib/entry/model/Entry.java:302 | `clear` empties the set |
| Collections.OrderedSet.Add | src/main/java/org/jbei/ice/lib/entry/model/Entry.java:309 | `add` appends an absent element, reports whether it was absent, and keeps the set duplicate-free |
| Collections.OrderedSet.AddAll | src/main/java/org/jbei/ice/lib/entry/model/Entry.java:309 | `addAll` adds each element in turn; contents equal the specification function of the old contents |
| Collections.OrderedSet.ReplaceWith | src/main/java/org/jbei/ice/lib/entry/model/Entry.java:300-310 | replace in place: null clears, the set itself is unchanged, any other set's elements become the contents in its order |
| Collections.ArrayList.constructor | src/main/java/org/jbei/ice/lib/entry/model/Entry.java:219 | a new list is empty |
| Collections.ArrayList.Clear | src/main/java/org/jbei/ice/lib/entry/model/Entry.java:636 | `clear` empties the list |
| Collections.ArrayList.AddAll | src/main/java/org/jbei/ice/lib/entry/model/Entry.java:637 | `addAll` appends the argument's elements as they are at the call |
| JavaLang.ContainsEmpty | src/main/java/org/jbei/ice/lib/entry/model/Entry.java:365-366 | every part number contains an empty prefix |
| JavaLang.ContainsSelf | src/main/java/org/jbei/ice/lib/entry/model/Entry.java:365-366 | a part number equal to the prefix contains it |
| JavaLang.UpperChar | src/main/java/org/jbei/ice/shared/dto/EntryInfo.java:29 | upper-casing a character keeps its case fold |
| JavaLang.EqualsIgnoreCaseUpper | src/main/java/org/jbei/ice/shared/dto/EntryInfo.java:29 | `equalsIgnoreCase` is unaffected by upper-casing one side |
| JavaLang.HashExamples | src/main/java/org/jbei/ice/lib/entry/model/Entry.java:715-716 | the hash functions agree with Java on `"ab"` (3105) and on a small long |
| EntryModel.Entry.constructor | src/main/java/org/jbei/ice/lib/entry/model/Entry.java:185-222 | a new entry has fresh, empty owned collections and no ids |
| EntryModel.Entry.SetNames | src/main/java/org/jbei/ice/lib/entry/model/Entry.java:294-311 | null clears the names; the own set is a no-op; otherwise the names are exactly the input's, in order; only the name set changes |
| EntryModel.Entry.SetPartNumbers | src/main/java/org/jbei/ice/lib/entry/model/Entry.java:377-390 | the same replace-in-place rule for part numbers |
| EntryModel.Entry.SetSelectionMarkers | src/main/java/org/jbei/ice/lib/entry/model/Entry.java:473-487 | the same rule for selection markers, and the field still refers to the same set afterwards |
| EntryModel.Entry.SetLinks | src/main/java/org/jbei/ice/lib/entry/model/Entry.java:510-522 | the same replace-in-place rule for links |
| EntryModel.Entry.SetEntryFundingSources | src/main/java/org/jbei/ice/lib/entry/model/Entry.java:610-621 | the same replace-in-place rule for funding sources |
| EntryModel.Entry.SetParameters | src/main/java/org/jbei/ice/lib/entry/model/Entry.java:627-639 | for another list every input parameter points back at this entry and the list equals the input in order; null clears; the own list leaves list and back-references unchanged |
| EntryModel.Entry.GetOneName | src/main/java/org/jbei/ice/lib/entry/model/Entry.java:313-319 | null exactly when there are no names, else the first name in iteration order |
| EntryModel.Entry.GetOnePartNumber | src/main/java/org/jbei/ice/lib/entry/model/Entry.java:360-375 | null exactly when there are no part numbers; else the last one containing the prefix (none after it does), or the first one when none contains it |
| EntryModel.OnePartNumberForEmptyPrefix | src/main/java/org/jbei/ice/lib/entry/model/Entry.java:364-371 | with an empty prefix every part number contains it, so the answer is the last part number (null when there are none) |
| EntryModel.OnePartNumberForOwnPrefix | src/main/java/org/jbei/ice/lib/entry/model/Entry.java:364-371 | when the prefix is one of the part numbers, the answer contains the prefix: the fallback to the first part number is not taken |
| EntryModel.Entry.PrincipalInvestigatorToString | src/main/java/org/jbei/ice/lib/entry/model/Entry.java:650-663 | the last funding source's investigator, `""` when there is none or it is null |
| EntryModel.Entry.FundingSourceToString | src/main/java/org/jbei/ice/lib/entry/model/Entry.java:670-682 | the last funding source's text, `""` when there is none or it is null |
| EntryModel.Entry.Equals | src/main/java/org/jbei/ice/lib/entry/model/Entry.java:719-732 | `equals` holds for the entry itself and, when it holds, the other entry is non-null and has the same `hashCode` |
| EntryModel.Entry.HashCode | src/main/java/org/jbei/ice/lib/entry/model/Entry.java:714-717 | `Objects.hashCode(id, recordId)` with 32-bit wrap-around; an entry with id 0 and no record id, as a new one is, hashes to 961 |
| EntryModel.MarkersReplacedNotMerged | src/main/java/org/jbei/ice/lib/entry/model/Entry.java:473-487 | setting markers {A, B} and then {B, C} leaves exactly B, C: old markers absent from the input are gone |
| EntryModel.EqualsIsEquivalence | src/main/java/org/jbei/ice/lib/entry/model/Entry.java:719-732 | `equals` is symmetric and transitive (reflexivity is on `Entry.Equals`) |
| EntryModel.BioSafetyLevelOptions | src/main/java/org/jbei/ice/lib/entry/model/Entry.java:690-697 | two options, keys "1" then "2", each shown as "Level " and its key |
| SampleControl.Storage.constructor | src/main/java/org/jbei/ice/lib/entry/sample/SampleController.java:160-164 | a storage location keeps its type |
| SampleControl.Sample.constructor | src/main/java/org/jbei/ice/lib/entry/sample/SampleController.java:63 | a new sample has every field null |
| SampleControl.SampleDao.constructor | src/main/java/org/jbei/ice/lib/entry/sample/SampleController.java:27 | the store starts with the given samples and storage locations |
| SampleControl.SampleController.constructor | src/main/java/org/jbei/ice/lib/entry/sample/SampleController.java:30-33 | the controller uses the given store and permission engine; no rebuild scheduled yet |
| SampleControl.CreateSample | src/main/java/org/jbei/ice/lib/entry/sample/SampleController.java:61-73 | a new unsaved sample whose six fields are the arguments |
| SampleControl.CreateSampleNow | src/main/java/org/jbei/ice/lib/entry/sample/SampleController.java:45-48 | the same with the generated UUID, the current time and a null modification time |
| SampleControl.NumberOfSamples | src/main/java/org/jbei/ice/lib/entry/sample/SampleController.java:183-194 | a store exception becomes a controller failure; a null answer counts 0; otherwise the list's size |
| SampleControl.RetrieveSamplesByIdSet | src/main/java/org/jbei/ice/lib/entry/sample/SampleController.java:289-297 | a store exception is swallowed and answered with null; rows are returned as they are |
| SampleControl.SampleController.HasWritePermission | src/main/java/org/jbei/ice/lib/entry/sample/SampleController.java:82-88 | a controller failure exactly when the sample or its entry is null, else the permission engine's answer for the entry |
| SampleControl.SampleController.SaveSample | src/main/java/org/jbei/ice/lib/entry/sample/SampleController.java:111-130 | succeeds exactly when permitted and the store does not throw, returning what the store's save answers; failures leave the store and rebuild count unchanged; success adds only the sample and schedules a rebuild iff asked |
| SampleControl.SampleController.SaveSampleAndReindex | src/main/java/org/jbei/ice/lib/entry/sample/SampleController.java:98-100 | the two-argument save, with the flag set: the same error kinds as `saveSample`, failures change nothing, success returns what the store answers and schedules one rebuild |
| SampleControl.SampleController.DeleteSample | src/main/java/org/jbei/ice/lib/entry/sample/SampleController.java:153-174 | refusals remove nothing; otherwise the sample is removed and its storage too exactly when it is a TUBE, nothing else changes, store failures give a controller failure, a rebuild is scheduled iff asked on success |
| SampleControl.SampleController.DeleteSampleAndReindex | src/main/java/org/jbei/ice/lib/entry/sample/SampleController.java:140-142 | the two-argument delete, with the flag set: the same error kinds and store states on every path as `deleteSample`, and one rebuild scheduled exactly on success |
| SampleControl.TubeCascadeScenario | src/main/java/org/jbei/ice/lib/entry/sample/SampleController.java:153-174 | deleting a tube sample and a plate sample with permission removes both samples and the tube, and keeps the plate |
| EntryInfoDto.EntryType.Name | src/main/java/org/jbei/ice/shared/dto/EntryInfo.java:36-38 | every type's name is a non-empty word of lower-case letters |
| EntryInfoDto.EntryType.Display | src/main/java/org/jbei/ice/shared/dto/EntryInfo.java:40-42 | the display string is the name with a capital first letter, so equal to it ignoring case |
| EntryInfoDto.EntryType.ToString | src/main/java/org/jbei/ice/shared/dto/EntryInfo.java:44-47 | a type prints as its display string, which differs from its name yet equals it ignoring case |
| EntryInfoDto.ValuesListsEveryType | src/main/java/org/jbei/ice/shared/dto/EntryInfo.java:13-14 | `values()` lists every type |
| EntryInfoDto.FirstMatch | src/main/java/org/jbei/ice/shared/dto/EntryInfo.java:27-34 | the result is one of the candidates and matches the name; nothing is found exactly when no candidate matches |
| EntryInfoDto.NameToType | src/main/java/org/jbei/ice/shared/dto/EntryInfo.java:27-34 | a type found matches the name ignoring case, and null is answered exactly when no type's name matches |
| EntryInfoDto.NamesDistinct | src/main/java/org/jbei/ice/shared/dto/EntryInfo.java:13-14 | no name matches two different types |
| EntryInfoDto.NameToTypeMatches | src/main/java/org/jbei/ice/shared/dto/EntryInfo.java:27-34 | `nameToType(name)` is a type exactly when the name equals that type's name ignoring case (null otherwise) |
| EntryInfoDto.NameToTypeRoundTrip | src/main/java/org/jbei/ice/shared/dto/EntryInfo.java:13-38 | `nameToType(t.getName()) == t` for every type |
| EntryInfoDto.NameToTypeIgnoresCase | src/main/java/org/jbei/ice/shared/dto/EntryInfo.java:29 | upper-casing the name does not change the lookup |
| EntryInfoDto.NameToTypeUpperCaseExample | src/main/java/org/jbei/ice/shared/dto/EntryInfo.java:29 | `nameToType("PLASMID")` is PLASMID |
| EntryInfoDto.NameToTypeMissExample | src/main/java/org/jbei/ice/shared/dto/EntryInfo.java:33 | `nameToType("seed")` is null |
| EntryInfoDto.EntryInfo.constructor | src/main/java/org/jbei/ice/shared/dto/EntryInfo.java:91-94 | the given type and a fresh, empty sample storage list |
| EntryInfoDto.EntryInfo.SetSampleMap | src/main/java/org/jbei/ice/shared/dto/EntryInfo.java:312-315 | as written: the list keeps its identity and equals another argument's elements, is left empty when passed itself, and is left empty with a NullPointerException when passed null |
| EntryInfoDto.EntryInfo.SetSampleMapGuarded | src/main/java/org/jbei/ice/shared/dto/EntryInfo.java:312-315 | corrected: null clears without failing, and otherwise the list equals the argument's elements whichever list is passed |
| EntryInfoDto.SelfSetEmptiesSampleMap | src/main/java/org/jbei/ice/shared/dto/EntryInfo.java:312-315 | a one-element list passed to its own setter ends empty |
| EntryInfoDto.SelfSetKeepsSampleMap | src/main/java/org/jbei/ice/shared/dto/EntryInfo.java:312-315 | with the guard, the same call keeps the one element |
| StrainWithPlasmidForm.ValidateForm | src/main/java/org/jbei/ice/client/entry/add/form/NewStrainWithPlasmidForm.java:489-503 | the reported field is empty and every field checked before it is filled in; nothing is reported exactly when all four are filled in |
| StrainWithPlasmidForm.ValidateFormFirstEmpty | src/main/java/org/jbei/ice/client/entry/add/form/NewStrainWithPlasmidForm.java:489-503 | the first empty field in check order is the one reported |
| StrainWithPlasmidForm.SummariesNotChecked | src/main/java/org/jbei/ice/client/entry/add/form/NewStrainWithPlasmidForm.java:489-503 | changing either summary never changes the validation result |
| StrainWithPlasmidForm.LabelText | src/main/java/org/jbei/ice/client/entry/add/form/NewStrainWithPlasmidForm.java:431-436 | the label text starts with the label, and is the bare label exactly when the field is not required |
| StrainWithPlasmidForm.LabelTextRoundTrip | src/main/java/org/jbei/ice/client/entry/add/form/NewStrainWithPlasmidForm.java:431-436 | a label text ends with the required marker exactly when required, and stripping the marker gives the label back |
| StrainWithPlasmidForm.CheckedFieldsAreLabelledRequired | src/main/java/org/jbei/ice/client/entry/add/form/NewStrainWithPlasmidForm.java:109-244 | every checked field has a required label, while "Summary" is labelled required and is not checked |

## Left out

- The RPC interface, session handling, the Wicket pages and panels, the message DAO, the DAO factory and the plain data holders (folder details, bulk upload info, the shared entry type enum, the part value object): no in-memory behaviour of the core.
- Folder permission propagation, promote/demote, and entry create/update/delete: that code is not part of this model.
- Entry: the plain getters and setters of scalar fields; the `*AsString` helpers, because `Utils.join` is not part of this model; `getStatusOptionsMap`, because `JbeiConstants` is not part of this model; the persistence annotations (orphan deletion, `@OrderBy`).
- Entry elements (names, part numbers, links, markers, funding sources) are values compared by value equality; their own `equals` methods are not part of this model.
- EntryModel.Entry.Equals: only compares against an entry or null; a non-entry argument (always unequal, by `getClass`) is not modelled.
- JavaLang.StringHash: treats each character as one UTF-16 unit, so characters outside the Basic Multilingual Plane are not hashed as surrogate pairs.
- JavaLang.EqualsIgnoreCase: exact only when one side is ASCII, as in every lookup of the model; general Unicode case mapping is not modelled.
- SampleControl.SampleController.DeleteSample: requires a storage location once the permission check passes, instead of modelling the null-pointer failure that follows the sample's removal.
- SampleControl.SampleController.DeleteSampleAndReindex: carries the same requirement, for the same reason.
- SampleControl.SampleController: the permission engine is abstracted as a function of the account and the entry reference; search-index rebuild scheduling is a counter, not an asynchronous job.
- The remaining sample queries (`getSamples`, `getSamplesByDepositor`, `getSamplesByStorage`, `getNumberOfSamplesByDepositor`, `retrieveSamplesByDepositor`, `getSamplesByEntry`, `getSampleCountBy`, `hasSample`) pass the store's answer through and wrap its exception; the store's queries are not part of this model.
- EntryInfoDto.NameToType: a null name, for which `nameToType` throws a NullPointerException, is not modelled; the name is a string.
- EntryModel.Entry.GetOnePartNumber: a part number whose text is null, on which `contains` throws, is not modelled; part-number texts are strings.
- EntryModel.Entry.PrincipalInvestigatorToString: an entry funding source without a funding source (a null `getFundingSource()`, which throws) is not modelled; the same holds for EntryModel.Entry.FundingSourceToString.
- EntryModel.Entry.SetParameters: a null element in the input list, which throws after the earlier elements already point back at the entry and before the list is cleared, is not modelled.
- SampleControl.RetrieveSamplesByIdSet: logging the swallowed store exception is not modelled.
- SampleControl.SampleController.SaveSample: what the store keeps is modelled as the given sample; the object it answers with is an argument, since the store is not part of this model.
- Storage types other than TUBE are not listed in the code shown and are told apart by name only.
- Timestamps are opaque values; UUID generation and the clock are arguments.
- EntryInfo: the plain field setters and getters, and the no-argument constructor (which leaves the sample storage list null).
- The form's widget construction and layout.

## Findings

| source | as written | input that shows it | evidently intended | confidence | as-written member | corrected member |
|---|---|---|---|---|---|---|
| src/main/java/org/jbei/ice/shared/dto/EntryInfo.java:312-315 | `setSampleMap` clears its list and then adds the argument's elements, read after the clear | `info.setSampleMap(info.getSampleStorage())` on a list holding one element leaves the list empty | afterwards the list holds the argument's elements, as the entry's collection setters ensure with an identity test | low, not executed | EntryInfoDto.SelfSetEmptiesSampleMap | EntryInfoDto.EntryInfo.SetSampleMapGuarded |
