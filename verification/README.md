# NameDropper document types, modelled in Dafny

NameDropper marks up recognised names (people, corporate bodies, places) in XML
documents, linking each to its VIAF authority record. This project models the
`DocumentType` enum of its editor plugin: the two supported dialects, EAD
(Encoded Archival Description) and TEI (Text Encoding Initiative), the three kinds
of names, the case-insensitive parsers from free strings to those enums, the two
tables from kind to dialect vocabulary, and `makeTag`, which renders the XML
element for a name and its authority record or throws when the record's kind is
not recognised.

Files:

- `wrappers.dfy` — `Option` (a Java `null` is `None`) and `Result` (a thrown
  exception is `Failure`).
- `java_text.dfy` — nullable strings (`JString`), how `"%s"` and `+` render a
  null (`"null"`), ASCII `equalsIgnoreCase` and `toLowerCase`.
- `document_type.dfy` — the enums `DocumentType`, `NameType`, `EadTag`,
  `TeiType`; the constructor arguments of `DocumentType` (`Vocabulary`); the
  `fromString` and `fromNameType` lookups; `getTagName()`, `getTagName(NameType)`,
  `getTagType` and `makeTag`.
- `document_type_lemmas.dfy` — the properties: the parsers classify every
  string, the tables are bijections onto distinct lower-case words, `makeTag`
  yields exactly one of two templates with its inputs inserted verbatim, the EAD
  `name` fallback never reaches `makeTag`'s output, and concrete scenarios.

The external `ViafResource` is a record of its three getters, `getType()`,
`getUri()` and `getViafId()`; each may be null. Its type field is called
`nameType` (after the local variable that holds it in `makeTag`) because `type`
is a Dafny keyword. A null resource makes `makeTag` throw a
`NullPointerException`, and so does `getTagType` for TEI and a null kind: both
are modelled as `Failure(NullPointerException)`, never as a fallback value.

Behaviour worth knowing:

- Only strings equal to `PERSONAL`, `CORPORATE` or `GEOGRAPHIC` ignoring case
  are kinds. A resource whose type is `person` (the TEI type word) is refused by
  `makeTag` (`ScenarioPersonRejected`); `Personal` is accepted.
- The failure for an unknown kind is a plain `Exception` with the message
  `Unsupported nameType: ` followed by the raw type, `null` included.
- The document type is the enum receiver, so there is no "unrecognised format"
  error inside `makeTag`; `DocumentType.fromString` returns null instead.
- A null display text or URI is not rejected: it is rendered as `null`.
- The EAD template with the generic `name` element is never produced by
  `makeTag` (`EadFallbackUnreachable`); only `getTagName` itself falls back.

## Model

| member | source | states |
|---|---|---|
| JavaText.ToLowerCase | src/edu/emory/library/namedropper/plugins/DocumentType.java:67 | the lower-cased string has no upper-case letter and equals its input ignoring case (with `LowerCaseUnique`, this fixes it uniquely) |
| JavaText.LowerCaseUnique | src/edu/emory/library/namedropper/plugins/DocumentType.java:98 | two lower-case strings that are equal ignoring case are equal, so the `toString()` overrides have exactly one possible result |
| DocumentTypes.FirstMatch | src/edu/emory/library/namedropper/plugins/DocumentType.java:50-55 | the `values()` loop returns a candidate whose name equals the input ignoring case and no earlier candidate's name does, and returns null only when no candidate's name matches |
| DocumentTypes.Vocabulary | src/edu/emory/library/namedropper/plugins/DocumentType.java:28-39 | every constructor argument of EAD and TEI is a lower-case word different from the generic tag `name` |
| DocumentTypes.EadTag.ToString | src/edu/emory/library/namedropper/plugins/DocumentType.java:65-68 | an EAD tag prints as its constant's name lower-cased: no upper-case letter, and equal to the name ignoring case |
| DocumentTypes.TeiType.ToString | src/edu/emory/library/namedropper/plugins/DocumentType.java:96-99 | a TEI type prints as its constant's name lower-cased: no upper-case letter, and equal to the name ignoring case |
| DocumentTypes.NameTypeFromString | src/edu/emory/library/namedropper/plugins/DocumentType.java:47-56 | null gives null; a returned kind's name equals the input ignoring case; null for a non-null input means no kind's name matches |
| DocumentTypes.DocumentTypeFromString | src/edu/emory/library/namedropper/plugins/DocumentType.java:125-134 | null gives null; a returned document type's name equals the input ignoring case; null for a non-null input means neither EAD nor TEI matches |
| DocumentTypes.EadTagFromNameType | src/edu/emory/library/namedropper/plugins/DocumentType.java:74-87 | null maps to null and only null does; the tag returned for a kind stands for that kind again under the inverse table `EadTagKind` |
| DocumentTypes.TeiTypeFromNameType | src/edu/emory/library/namedropper/plugins/DocumentType.java:105-118 | null maps to null and only null does; the type returned for a kind stands for that kind again under the inverse table `TeiTypeKind` |
| DocumentTypes.EadTagsMatchVocabulary | src/edu/emory/library/namedropper/plugins/DocumentType.java:28-39 | the EAD tag chosen for each kind prints as the EAD constructor argument for that kind (persname, corpname, geogname) |
| DocumentTypes.TeiTypesMatchVocabulary | src/edu/emory/library/namedropper/plugins/DocumentType.java:28-39 | the TEI type chosen for each kind prints as the TEI constructor argument for that kind (person, org, place) |
| DocumentTypes.EadTagStrings | src/edu/emory/library/namedropper/plugins/DocumentType.java:62-68 | the EAD tags print as `persname`, `corpname`, `geogname` |
| DocumentTypes.TeiTypeStrings | src/edu/emory/library/namedropper/plugins/DocumentType.java:93-99 | the TEI types print as `person`, `org`, `place` |
| DocumentTypes.GetTagName | src/edu/emory/library/namedropper/plugins/DocumentType.java:151-171 | TEI always gives `name`; EAD gives the kind's EAD word for a known kind and `name` for a null kind |
| DocumentTypes.GetDefaultTagName | src/edu/emory/library/namedropper/plugins/DocumentType.java:141-143 | `getTagName()` is `getTagName(null)`, which is `name` for both document types |
| DocumentTypes.GetTagType | src/edu/emory/library/namedropper/plugins/DocumentType.java:173-183 | EAD gives null (no type attribute); TEI gives the kind's TEI word for a known kind and throws `NullPointerException` for a null kind |
| DocumentTypes.MakeTag | src/edu/emory/library/namedropper/plugins/DocumentType.java:195-227 | a null resource throws `NullPointerException`; an unparseable type throws `Unsupported nameType: <raw>` for both dialects; a parseable type always yields output |
| DocumentTypeLemmas.NameTypeNamesDistinct | src/edu/emory/library/namedropper/plugins/DocumentType.java:44-45 | two kinds' names are equal ignoring case exactly when the kinds are the same |
| DocumentTypeLemmas.NameTypeFromStringSpec | src/edu/emory/library/namedropper/plugins/DocumentType.java:47-56 | a string parses to a kind if and only if it equals that kind's name ignoring case, and to null if and only if it equals none |
| DocumentTypeLemmas.NameTypeFromStringAnyCase | src/edu/emory/library/namedropper/plugins/DocumentType.java:47-56 | every casing of a kind's name parses to that kind, the exact name and its lower-case form included |
| DocumentTypeLemmas.DocumentTypeNamesDistinct | src/edu/emory/library/namedropper/plugins/DocumentType.java:28-29 | `EAD` and `TEI` are equal ignoring case only to themselves |
| DocumentTypeLemmas.DocumentTypeFromStringSpec | src/edu/emory/library/namedropper/plugins/DocumentType.java:125-134 | a string parses to a document type if and only if it equals its name ignoring case, and to null if and only if it equals neither |
| DocumentTypeLemmas.DocumentTypeFromStringAnyCase | src/edu/emory/library/namedropper/plugins/DocumentType.java:125-134 | every casing of `EAD` or `TEI` parses to that document type |
| DocumentTypeLemmas.EadTagBijection | src/edu/emory/library/namedropper/plugins/DocumentType.java:74-87 | a kind maps to an EAD tag if and only if that tag's kind (the inverse table) is the kind |
| DocumentTypeLemmas.TeiTypeBijection | src/edu/emory/library/namedropper/plugins/DocumentType.java:105-118 | a kind maps to a TEI type if and only if that type's kind (the inverse table) is the kind |
| DocumentTypeLemmas.EadTagStringsInjective | src/edu/emory/library/namedropper/plugins/DocumentType.java:62-68 | EAD tag strings are lower case, and two are equal if and only if the tags are |
| DocumentTypeLemmas.TeiTypeStringsInjective | src/edu/emory/library/namedropper/plugins/DocumentType.java:93-99 | TEI type strings are lower case, and two are equal if and only if the types are |
| DocumentTypeLemmas.MakeTagTei | src/edu/emory/library/namedropper/plugins/DocumentType.java:209-217 | for TEI and a known kind the output is exactly `<name ref="` uri `" type="` type `">` text `</name>`, type being person, org or place |
| DocumentTypeLemmas.MakeTagEad | src/edu/emory/library/namedropper/plugins/DocumentType.java:219-223 | for EAD and a known kind the output is exactly `<` tag ` source="viaf" authfilenumber="` id `">` text `</` tag `>`, tag being persname, corpname or geogname |
| DocumentTypeLemmas.EadTemplateParts | src/edu/emory/library/namedropper/plugins/DocumentType.java:221-222 | an EAD element splits back into its opening tag, the unescaped text and a closing tag with the same element name |
| DocumentTypeLemmas.TeiTemplateParts | src/edu/emory/library/namedropper/plugins/DocumentType.java:214-215 | a TEI element splits back into its opening tag (with the URI and type verbatim), the unescaped text and the matching closing tag |
| DocumentTypeLemmas.EadFallbackUnreachable | src/edu/emory/library/namedropper/plugins/DocumentType.java:203-223 | `getTagName(null)` is `name` for EAD, yet for every input, id and text `makeTag` does not return the EAD template with the `name` element |
| DocumentTypeLemmas.MakeTagFailsOnlyForUnknownKind | src/edu/emory/library/namedropper/plugins/DocumentType.java:203-207 | on a non-null resource `makeTag` fails if and only if the type does not parse, and then with the unsupported-kind message |
| DocumentTypeLemmas.ScenarioTeiPersonal | src/edu/emory/library/namedropper/plugins/DocumentType.java:209-216 | type `Personal` in TEI gives `<name ref="` uri `" type="person">` text `</name>` |
| DocumentTypeLemmas.ScenarioPersonRejected | src/edu/emory/library/namedropper/plugins/DocumentType.java:203-207 | type `person` is refused with `Unsupported nameType: person` |
| DocumentTypeLemmas.ScenarioEadCorporate | src/edu/emory/library/namedropper/plugins/DocumentType.java:219-223 | type `corporate` in EAD gives `<corpname source="viaf" authfilenumber="` id `">` text `</corpname>` |
| DocumentTypeLemmas.ScenarioUnknownKind | src/edu/emory/library/namedropper/plugins/DocumentType.java:203-207 | type `unknown-kind-xyz` in EAD is refused with `Unsupported nameType: unknown-kind-xyz` |
| DocumentTypeLemmas.ScenarioNullKind | src/edu/emory/library/namedropper/plugins/DocumentType.java:203-207 | a null type is refused with `Unsupported nameType: null` in either dialect |

## Left out

- Case folding is ASCII only: Java's `equalsIgnoreCase` also matches characters such as dotless ı or long ſ against `I` and `S`, which this model does not. None of the constant names the code lower-cases contains an `I`, so a locale-sensitive `toLowerCase` would give the same words.
- `String.format` is modelled only for the two fixed templates, as concatenation; `%s` of a null renders `null`.
- The `ViafResource` class (its VIAF network lookup and its getters) is not part of this model; the resource is a record of three nullable strings.
- The Java enum machinery (`values()`, `super.toString()`) is replaced by explicit lists and name functions; `FirstMatch` scans the kinds in declaration order, which cannot change the answer because the names are distinct ignoring case.
- The Oxygen editor plugin and UI code that call `makeTag` and insert its result are not part of this model.
- Purity and repeatability of `makeTag` need no lemma: every Dafny function returns the same result for the same arguments.
