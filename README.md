# DXF section framing and the sun-study serialiser

A model of two pieces of the IxMilia DXF codec, which reads and writes the
AutoCAD drawing interchange format as an ordered stream of
(group code, value) pairs.

* **Section framing and dispatch** (`DxfSections`, `sections.dfy`). Writing a
  section brackets its own pairs between `(0, "SECTION")`, `(2, <name>)` and
  `(0, "ENDSEC")`. Reading starts just after a `SECTION` marker. The next
  pair must carry group code 2. Its name selects one of seven section
  readers. An unknown name makes the reader skip everything up to and
  including the first `ENDSEC`, or to the end of the input when there is
  none, and produce no section. The forward-only
  pair reader is the class `CodePairs.PairBuffer` (a sequence and a
  position). `FromBuffer` and `SwallowSection` are methods that advance it.
  They are proved against the functions `Dispatch` and `SwallowEnd`.
* **The sun-study object** (`SunStudyObjects`, `sunstudy.dfy`). The class
  `SunStudy` has the object's 25 fields. Construction gives every field its
  initial value. `AddValuePairs` appends the object's pairs one at a time
  after the base class's pairs. The order is fixed. The dates (code 91) and
  hours (code 73) are count-prefixed. The three range fields (93, 94, 95)
  are written only when `selectRangeOfDates` is set. The method is proved to
  produce exactly `SunStudyPairs(Fields())`. The lemmas about that function
  give positions, lengths, the code order and the initial output.

Doubles and dates are opaque: a `Double` is a bit pattern and a `DateTime`
is a tick count, and the model never computes with either. The converters
the object calls are not part of this model. So a pair holding their result
uses a symbolic value: `DateWhole(d)` is `(int)DateDouble(d)`, `DateReal(d)`
is `DateDouble(d)`, and `Handle(u)` is `UIntHandle(u)`. The C# `(short)`
casts are written out as `ToShort` (keep the low 16 bits, two's
complement).

Files: `wrappers.dfy` (Option), `codepairs.dfy` (values, pairs, the integer
widths, the pair reader), `sections.dfy`, `sunstudy.dfy`.

## Model

| member | source | states |
|---|---|---|
| `DxfSections.GetValuePairs` | src/IxMilia.Dxf/Sections/DxfSection.cs:37-44 | The output has length \|specific\| + 3. It is `(0,"SECTION")`, then `(2, name of the type)`, then the section's own pairs unchanged and in order, then a section-end pair. |
| `DxfSections.NameToType` | src/IxMilia.Dxf/Sections/DxfSection.cs:57-84 | The name switch: a string selects section kind `t` iff it equals `t`'s name, and every other string selects none. |
| `DxfSections.SectionNamesDistinct` | src/IxMilia.Dxf/Sections/DxfSection.cs:9-15 | Two section kinds have the same name iff they are the same kind, so the seven name constants are pairwise distinct. |
| `DxfSections.Dispatch` | src/IxMilia.Dxf/Sections/DxfSection.cs:48-86 | The result is a read error carrying the pair iff the code is not 2. It delegates to kind `t` iff the code is 2 and the name is `t`'s name. It is a skipped (null) section iff the code is 2 and the name is unknown. |
| `DxfSections.FromBuffer` | src/IxMilia.Dxf/Sections/DxfSection.cs:46-87 | Requires a remaining pair. Returns `Dispatch` of the pair that was next. Consumes exactly that pair, except for an unknown name, where it also skips up to `SwallowEnd`. |
| `DxfSections.SwallowEnd` | src/IxMilia.Dxf/Sections/DxfSection.cs:89-98 | Where skipping stops: never before the start position and never past the end of the input. |
| `DxfSections.SwallowSection` | src/IxMilia.Dxf/Sections/DxfSection.cs:89-98 | The loop terminates. It leaves the buffer at `SwallowEnd` of its start position, so the position never decreases or passes the end. |
| `DxfSections.SwallowEndOutcome` | src/IxMilia.Dxf/Sections/DxfSection.cs:91-97 | After skipping, one of two cases holds. Either the input is exhausted and no skipped pair was a section end. Or the last skipped pair is a section end and no earlier one was. |
| `DxfSections.SwallowEndAtFirst` | src/IxMilia.Dxf/Sections/DxfSection.cs:91-97 | Conversely, skipping stops just past the first section end at or after the start. |
| `DxfSections.SwallowEndExhausts` | src/IxMilia.Dxf/Sections/DxfSection.cs:91-97 | With no section end left, skipping consumes the whole input. |
| `DxfSections.FramedSectionReadsBack` | src/IxMilia.Dxf/Sections/DxfSection.cs:37-98 | For a written section followed by any pairs, the pair after `SECTION` selects the section's own kind. If the section's own pairs hold no section end, skipping from there stops exactly after its `ENDSEC` and leaves the following pairs. |
| `DxfSections.UnknownSectionSkipped` | src/IxMilia.Dxf/Sections/DxfSection.cs:80-98 | For a name pair with an unknown name, followed by section pairs holding no section end, an `ENDSEC` and any pairs: the name pair is skipped (`Swallowed`), and skipping from after it stops right after the `ENDSEC`, so reading resumes at the following pairs. |
| `SunStudyObjects.SunStudy.constructor` | src/IxMilia.Dxf/Objects/DxfSunStudyGenerated.cs:47-80 | Every integer, short and uint field is 0. Every flag is false. Every string is null. `spacing` is 0.0. `dates` and `hours` are empty. |
| `SunStudyObjects.SunStudy.AddValuePairs` | src/IxMilia.Dxf/Objects/DxfSunStudyGenerated.cs:82-130 | The result is the input list, then the base class's pairs, then `SunStudyPairs` of the object's fields. So the method only appends, and the earlier pairs are its prefix. |
| `SunStudyObjects.SunStudyPairs` | src/IxMilia.Dxf/Objects/DxfSunStudyGenerated.cs:85-129 | Length is 23 + 2·\|dates\| + \|hours\| + 3 when `selectRangeOfDates` is set (else + 0). |
| `SunStudyObjects.DatePairsAt` | src/IxMilia.Dxf/Objects/DxfSunStudyGenerated.cs:95-99 | Date `i` gives the two code-90 pairs at positions 2i and 2i+1: first the truncated date value, then the full one. |
| `SunStudyObjects.DateCodes` | src/IxMilia.Dxf/Objects/DxfSunStudyGenerated.cs:95-99 | Every pair written for the dates has code 90, and there are 2·\|dates\| of them. |
| `SunStudyObjects.DateBlock` | src/IxMilia.Dxf/Objects/DxfSunStudyGenerated.cs:94-101 | Position 9 holds `(91, \|dates\|)`. It is followed by two code-90 pairs per date, in list order, and then by the `292` range flag. |
| `SunStudyObjects.RangeFieldsFollowFlag` | src/IxMilia.Dxf/Objects/DxfSunStudyGenerated.cs:101-115 | When the range flag is set, the pairs right after the `292` pair are 93, 94 and 95 with the start, end and interval values, in that order. |
| `SunStudyObjects.RangeCodesIff` | src/IxMilia.Dxf/Objects/DxfSunStudyGenerated.cs:101-115 | Each of the codes 93, 94 and 95 occurs in the output iff `selectRangeOfDates` is set. |
| `SunStudyObjects.HourBlock` | src/IxMilia.Dxf/Objects/DxfSunStudyGenerated.cs:117-118 | After the range block comes `(73, (short)\|hours\|)`. It is followed by one code-290 pair per hour, in list order, each holding `(short)hour`. |
| `SunStudyObjects.HourCountExact` | src/IxMilia.Dxf/Objects/DxfSunStudyGenerated.cs:117 | With fewer than 2^15 hours, the count pair holds exactly \|hours\|. |
| `CodePairs.ToShortWraps` | src/IxMilia.Dxf/Objects/DxfSunStudyGenerated.cs:117-125 | The `(short)` cast gives the 16-bit value congruent to its argument modulo 2^16, so it is the identity on values that fit. |
| `SunStudyObjects.FixedBlockCodes` | src/IxMilia.Dxf/Objects/DxfSunStudyGenerated.cs:85-129 | The codes of each block, in order. The head is 100…91. The range block is 292, plus 93, 94, 95 when the flag is set. Then 73, one 290 per hour, and the tail 340…343. |
| `SunStudyObjects.EmittedCodes` | src/IxMilia.Dxf/Objects/DxfSunStudyGenerated.cs:85-129 | The codes written equal `ExpectedCodes(\|dates\|, \|hours\|, selectRangeOfDates)`, an independent description of the code order. |
| `SunStudyObjects.CodesDependOnlyOnShape` | src/IxMilia.Dxf/Objects/DxfSunStudyGenerated.cs:85-129 | Two objects with the same list lengths and range flag write the same code sequence, whatever their other field values. |
| `SunStudyObjects.FirstAndLastPairs` | src/IxMilia.Dxf/Objects/DxfSunStudyGenerated.cs:85-129 | The first appended pair is `(100, "AcDbSunStudy")` and the last is `(343, text style handle)`. |
| `SunStudyObjects.InitialPairs` | src/IxMilia.Dxf/Objects/DxfSunStudyGenerated.cs:52-118 | A freshly initialised object writes exactly 23 pairs, with the codes listed. They include `(91, 0)` and `(73, 0)`. There are no date or hour element pairs and no 93/94/95 pairs. |

## Left out

- `SunStudy.AddValuePairs`: the source appends to the caller's `List` in place. The model passes that list in as a value and returns the extended list. It does not model aliasing of the list.
- `SunStudy.Initialize`: the base-class constructor, not modelled here, is taken to be its only caller. The model runs it as the body of the constructor and has no separate re-initialising method.
- `base.Initialize` and `base.AddValuePairs` (the base object class) are not part of this model. The base class's pairs are the parameter `basePairs`, and its fields are not modelled.
- The seven per-section readers are not part of this model. `FromBuffer` reports the kind it hands the buffer to (`Delegated(t)`), with the buffer just past the name pair. The `parentFile` and `version` arguments it passes on are dropped.
- `DxfCodePair.IsSectionEnd` is not part of this model. It is taken to mean code 0 with the text `ENDSEC`. `StringValue` is taken to be the pair's text, and a non-text value at code 2 matches no section name.
- `ToSectionName` is not part of this model. It is taken to map each section kind to its name constant.
- `DxfCodePairBufferReader` is not part of this model beyond `ItemsRemain`, `Peek` and `Advance` over a sequence and a position.
- The exception message text of the read error. The model returns `ReadError(pair)` carrying the offending pair.
- `DateDouble`, `UIntHandle`, the `(int)` truncation of the date double, and the `spacing` double: floating-point and calendar arithmetic. They appear as opaque or symbolic values.
- Version gating through `MaxVersion`, and the `version`, `outputHandles` and `writtenItems` arguments: they are used only by code that is not part of this model.
- The lazy `yield` enumeration of `GetValuePairs` and the `.ToList()` copy: the result is a plain sequence.
- `ToString` of a section and the unused `TABLE`/`ENDTAB` constants. The constants are declared but no modelled operation uses them.
- Text and binary stream encoding and file I/O.
