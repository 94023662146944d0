# TypeAPI editor: document ↔ specification translation

The TypeAPI editor keeps an API as an editable *document*. A document holds:

- imports;
- operations, each with arguments, a payload, throws and a return type;
- definitions (`Type`s with their `Property`s);
- a root definition;
- a base URL;
- a security scheme.

Two engines translate between that document and a TypeAPI/TypeSchema specification.

- The **parser** walks a decoded specification and builds the document. It reads the legacy spellings too: `target`/`$ref`, `$generic`/`name`, `parent`/`$extends`, `reference` for `object`, and `object` for `struct`. It turns `body` arguments into the payload. It finds the root definition by name.
- The **generator** walks the document and writes the specification. It chooses the base URL and decides payload against legacy body argument. It writes 204 responses as `any`. It leaves out incomplete entries.

This project models both engines over a JSON tree. A `Json` value has objects whose members are an ordered `seq<(string, Json)>`, since member order decides "last wins" and root indexes. The project also models the editor's mutable records (`Type`, `Property`, `Security`, `Import`, `Error`, `Argument`) as classes. Each has a constructor from a PHP array, setters, lookups and a serialiser. It proves:

- that the keyword lookups, shape resolution and definition/property resolution behave as the source intends;
- that every loop of either engine computes its specification function;
- that each record's serialiser and constructor are inverse to each other;
- that the parser inverts the generator, for shapes, property types, properties, definitions, arguments, throws, returns, whole operations and whole documents, on the inputs the generator writes without loss.

Modules:

- `Wrappers`: `Option`, `Result` and the failures both engines raise.
- `JsonTree`: the JSON tree, PHP lookups and casts, and `getString`/`getObject`/`getBoolean`.
- `PropertyModel`, `TypeModel`, `SecurityModel`, `ImportModel`, `ErrorModel`, `ArgumentModel`: the editor records.
- `DocumentModel`: the operation and document records.
- `Parser` and `Generator`: the two engines.
- `RoundTrip`, `OperationRoundTrip` and `DocumentRoundTrip`: the lemmas relating the two engines.

The engines work on value snapshots of the records (each class's `Data()`), the way they only read them.

## Model

| member | source | states |
|---|---|---|
| JsonTree.GetFirst | src/Parser.php:572-581 | a property lookup finds a key exactly when it occurs, and then reports its first occurrence |
| JsonTree.GetAppend | src/Parser.php:572-581 | looking a key up in a concatenation of members looks in the left part first |
| JsonTree.FirstOfKindFound | src/Parser.php:572-603 | the shared keyword lookup finds a value exactly when some keyword holds one of the wanted kind, and then it is the first such keyword's value |
| JsonTree.FirstOfKindAbsent | src/Parser.php:572-603 | when none of the keywords is present the lookup finds nothing |
| JsonTree.FirstOfKindAt | src/Parser.php:572-603 | the lookup returns the value of the first keyword present with the wanted kind, skipping earlier keywords present with another kind |
| JsonTree.FindOfKind | src/Parser.php:583-592 | the loop over the keywords returns what the keyword lookup specifies |
| JsonTree.GetStringOnly | src/Parser.php:583-592 | getString over keywords of which only one is present reads that one |
| JsonTree.GetObjectOnly | src/Parser.php:572-581 | getObject over keywords of which only one is present reads that one |
| JsonTree.GetBooleanOnly | src/Parser.php:594-603 | getBoolean over keywords of which only one is present reads that one |
| JsonTree.ObjectIsMember | src/Parser.php:572-581 | an object getObject returns is the value of one of the members |
| JsonTree.Put | src/Generator.php:198 | assigning a record key makes the key read the new value and leaves every other key's value as it was |
| JsonTree.PutKeys | src/Generator.php:198 | assigning a key adds that key and keeps exactly the keys already there |
| JsonTree.PutAbsent | src/Generator.php:198 | assigning a key that is not yet present appends it at the end |
| JsonTree.PutEntries | src/Generator.php:128 | assigning a key adds at most one entry, and every entry afterwards was there before or is the assigned pair |
| JsonTree.Keys | src/Model/Security.php:48-49 | the key list of an object has one entry per member, in member order |
| JsonTree.Field | src/Model/Property.php:142-153 | a field that is null is left out of the serialised object, and a set one is present under its key |
| JsonTree.FieldsGet | src/Model/Property.php:142-153 | each key of a serialised field list reads its field's value, null fields being absent |
| JsonTree.FieldsOrder | src/Model/Property.php:142-153 | the keys of a serialised field list are the names of its set fields, in list order |
| PropertyModel.ByLayer | src/Model/Property.php:156-170 | with no legacy `refs` entry the input is returned unchanged; `refs[0] == "T"` on a map or array sets reference `generic` and generic `T`; `refs[0] == "T"` on any other type changes nothing; any other `refs[0]` becomes the reference; all keys except reference and generic are kept |
| PropertyModel.PropertyFromArray | src/Model/Property.php:51-63 | the name, description, type, format and deprecated flag are the values under their own keys, null when missing or of another kind; without a legacy `refs` entry the reference and generic are the values under `reference` and `generic` |
| PropertyModel.PropertyFromArrayLegacy | src/Model/Property.php:156-170 | with a legacy `refs` entry: a first entry other than `T` becomes the reference and the generic is kept; `T` on a map or array gives reference `generic` and generic `T`; `T` on any other type leaves both as read |
| PropertyModel.PropertyFromArrayDefaults | src/Model/Property.php:51-63 | with no reference and no `refs` the reference is null; a missing or null template stays null; an object template is kept as its members |
| PropertyModel.PropertyToArray | src/Model/Property.php:140-154 | jsonSerialize reports each non-null field under its own key and nothing under any other key; the keys appear in the order name, description, type, format, deprecated, reference, generic, template, each only when its field is set |
| PropertyModel.PropertyArrayRoundTrip | src/Model/Property.php:51-154 | constructing a property from its serialised form gives the same property back |
| PropertyModel.PropertyTextRoundTrip | src/Model/Property.php:140-154 | name, description, type and format read back from the serialised form |
| PropertyModel.PropertyLinkRoundTrip | src/Model/Property.php:140-154 | deprecated, reference, generic and template read back from the serialised form |
| PropertyModel.Property.constructor | src/Model/Property.php:51-63 | a new property holds the fields its array gives after byLayer |
| PropertyModel.Property.SetName | src/Model/Property.php:70-73 | changes the name and no other field |
| PropertyModel.Property.SetDescription | src/Model/Property.php:80-83 | changes the description and no other field |
| PropertyModel.Property.SetType | src/Model/Property.php:90-93 | changes the type and no other field |
| PropertyModel.Property.SetFormat | src/Model/Property.php:100-103 | changes the format and no other field |
| PropertyModel.Property.SetDeprecated | src/Model/Property.php:105-108 | changes the deprecation flag and no other field |
| PropertyModel.Property.SetReference | src/Model/Property.php:115-118 | changes the reference and no other field |
| PropertyModel.Property.SetGeneric | src/Model/Property.php:125-128 | changes the generic and no other field |
| PropertyModel.Property.SetTemplate | src/Model/Property.php:135-138 | changes the template and no other field |
| PropertyModel.Property.JsonSerialize | src/Model/Property.php:140-154 | the serialised object holds exactly the property's non-null fields, in the order name, description, type, format, deprecated, reference, generic, template |
| TypeModel.Records | src/Model/Type.php:193-205 | keeps only the object and list entries, never more than given |
| TypeModel.ConvertedProperties | src/Model/Type.php:193-205 | one property per object or list entry, constructed from that entry, in order |
| TypeModel.TypeFromArray | src/Model/Type.php:54-70 | each of name, type, description, parent, ref and template is null when its key is missing and the given value otherwise; `required` is the given list, and null when it is not a list; `properties` is the converted list, and empty when it is not a list; the engine-only fields are null |
| TypeModel.PropertiesJson | src/Model/Type.php:177-191 | each property is serialised as an object, in order |
| TypeModel.TypeToArray | src/Model/Type.php:177-191 | jsonSerialize reports the non-null fields and always the property list; the keys appear in the order of the declared fields, each only when its field is set |
| TypeModel.RecordsOfRecords | src/Model/Type.php:193-205 | a list made only of records keeps every entry |
| TypeModel.PropertiesRoundTrip | src/Model/Type.php:177-205 | converting a serialised property list gives the properties back |
| TypeModel.TypeArrayRoundTrip | src/Model/Type.php:54-191 | constructing a definition from its serialised form gives it back, when it sets none of the fields the serialiser omits |
| TypeModel.TypeFieldsRoundTrip | src/Model/Type.php:177-191 | name, type, description, parent and ref read back from the serialised form |
| TypeModel.TypeListsRoundTrip | src/Model/Type.php:177-191 | template, required and the property list read back from the serialised form |
| TypeModel.PropertiesData | src/Model/Type.php:193-205 | the snapshot of a property list has one entry per property, in order |
| TypeModel.Type.constructor | src/Model/Type.php:54-70 | a new definition holds the fields its array gives, and its properties are fresh objects |
| TypeModel.Type.ConvertProperties | src/Model/Type.php:193-205 | the loop makes a fresh property for each record entry, in order, and drops other entries |
| TypeModel.Type.AppendProperty | src/Model/Type.php:197-201 | one record entry becomes a fresh property read from that record, appended after the ones before it |
| TypeModel.Type.SetName | src/Model/Type.php:77-80 | changes the name and no other field |
| TypeModel.Type.SetType | src/Model/Type.php:87-90 | changes the type and no other field |
| TypeModel.Type.SetDescription | src/Model/Type.php:97-100 | changes the description and no other field |
| TypeModel.Type.SetParent | src/Model/Type.php:107-110 | changes the parent and no other field |
| TypeModel.Type.SetRef | src/Model/Type.php:117-120 | changes the ref and no other field |
| TypeModel.Type.SetTemplate | src/Model/Type.php:127-130 | changes the template and no other field |
| TypeModel.Type.SetRequired | src/Model/Type.php:143-146 | changes the required list and no other field |
| TypeModel.Type.SetBase | src/Parser.php:370-373 | changes the base flag and no other field |
| TypeModel.Type.SetDiscriminator | src/Parser.php:398-401 | changes the discriminator and no other field |
| TypeModel.Type.SetMapping | src/Parser.php:403-406 | changes the mapping and no other field |
| TypeModel.Type.SetReference | src/Parser.php:418-421 | changes the reference and no other field |
| TypeModel.Type.SetProperties | src/Model/Type.php:156-159 | replaces the whole property list and no other field |
| TypeModel.Type.GetProperty | src/Model/Type.php:161-164 | gives the property at the index exactly when the index is in range, else null |
| TypeModel.Type.IndexOf | src/Model/Type.php:166-175 | returns the smallest index whose property has that name, or null when no property has it |
| TypeModel.Type.JsonSerialize | src/Model/Type.php:177-191 | the serialised object holds the definition's non-null fields and always its property list, in the declared order |
| SecurityModel.KeyList | src/Model/Security.php:47-52 | the keys of an object as a list of strings, in member order |
| SecurityModel.ScopesEntry | src/Model/Security.php:47-52 | object scopes become the list of their keys, list scopes are kept, and anything else gives no scopes |
| SecurityModel.SecurityFromArray | src/Model/Security.php:39-53 | type, name, in, tokenUrl and authorizationUrl are each null when the key is missing and the string when one is there; the scopes are normalised as above |
| SecurityModel.SecurityToArray | src/Model/Security.php:115-127 | jsonSerialize reports exactly the non-null fields under their keys; the keys appear in the order type, name, in, tokenUrl, authorizationUrl, scopes, each only when its field is set |
| SecurityModel.SecurityArrayRoundTrip | src/Model/Security.php:39-127 | constructing a scheme from its serialised form gives it back |
| SecurityModel.SecurityNamesRoundTrip | src/Model/Security.php:115-127 | type, name and location read back from the serialised form |
| SecurityModel.SecurityFlowRoundTrip | src/Model/Security.php:115-127 | token URL, authorization URL and scopes read back from the serialised form |
| SecurityModel.Security.constructor | src/Model/Security.php:39-53 | a new scheme holds the fields its array gives |
| SecurityModel.Security.SetType | src/Model/Security.php:60-63 | changes the type and no other field |
| SecurityModel.Security.SetName | src/Model/Security.php:70-73 | changes the name and no other field |
| SecurityModel.Security.SetIn | src/Model/Security.php:80-83 | changes the location and no other field |
| SecurityModel.Security.SetTokenUrl | src/Model/Security.php:90-93 | changes the token URL and no other field |
| SecurityModel.Security.SetAuthorizationUrl | src/Model/Security.php:100-103 | changes the authorization URL and no other field |
| SecurityModel.Security.SetScopes | src/Model/Security.php:110-113 | changes the scopes and no other field |
| SecurityModel.Security.JsonSerialize | src/Model/Security.php:115-127 | the serialised object holds exactly the scheme's non-null fields, in the order type, name, in, tokenUrl, authorizationUrl, scopes |
| ImportModel.Kept | src/Model/Import.php:82-96 | keeps only records and `Type` objects, in order |
| ImportModel.RawEntries | src/Model/Import.php:38-40 | the decoded entries, one per list item |
| ImportModel.KeptRaw | src/Model/Import.php:82-96 | among decoded entries exactly the records are kept |
| ImportModel.ConvertedTypes | src/Model/Import.php:82-96 | one definition per record entry, constructed from it, in order |
| ImportModel.ImportFromArray | src/Model/Import.php:36-41 | alias and url are null when missing and the string when one is there; a `types` list gives its converted definitions; the definitions are never null, and are empty when the array has none |
| ImportModel.TypesJson | src/Model/Import.php:73-80 | each definition is serialised as an object, in order |
| ImportModel.ImportToArray | src/Model/Import.php:73-80 | jsonSerialize always writes the keys alias, url and types, in that order, nulls included |
| ImportModel.TypesRoundTrip | src/Model/Import.php:73-96 | converting a serialised definition list gives the definitions back |
| ImportModel.ImportArrayRoundTrip | src/Model/Import.php:36-96 | constructing an import from its serialised form gives it back, with a null definition list coming back empty |
| ImportModel.ImportFieldsRoundTrip | src/Model/Import.php:73-80 | alias, url and the definition list read back from the serialised form |
| ImportModel.TypesData | src/Model/Import.php:82-96 | the snapshot of a definition list has one entry per definition, in order |
| ImportModel.Import.constructor | src/Model/Import.php:36-41 | a new import holds its alias, its url and fresh definitions converted from its list |
| ImportModel.Import.ConvertTypes | src/Model/Import.php:82-96 | the loop gives a fresh definition for each record, keeps each `Type` object as it is, and drops other entries, in order |
| ImportModel.Import.SetAlias | src/Model/Import.php:48-51 | changes the alias, leaving url and definitions as they were |
| ImportModel.Import.SetUrl | src/Model/Import.php:58-61 | changes the url, leaving alias and definitions as they were |
| ImportModel.Import.SetTypes | src/Model/Import.php:68-71 | the definitions become exactly the given list, and alias and url are unchanged |
| ImportModel.Import.JsonSerialize | src/Model/Import.php:73-80 | the serialised object always has the three keys, in order |
| ErrorModel.ErrorFromArray | src/Model/Error.php:36-41 | a missing code, type or type shape is null; a present integer code and present type and type shape strings are stored as given |
| ErrorModel.ErrorToArray | src/Model/Error.php:73-82 | jsonSerialize reports exactly the non-null fields, at most three; the keys appear in the order code, type, typeShape, each only when its field is set |
| ErrorModel.ErrorArrayRoundTrip | src/Model/Error.php:36-82 | constructing a throw descriptor from its serialised form gives it back |
| ErrorModel.Error.constructor | src/Model/Error.php:36-41 | a new descriptor holds the fields its array gives |
| ErrorModel.Error.SetCode | src/Model/Error.php:48-51 | changes the code and no other field |
| ErrorModel.Error.SetType | src/Model/Error.php:58-61 | changes the type and no other field |
| ErrorModel.Error.SetTypeShape | src/Model/Error.php:68-71 | changes the type shape and no other field |
| ErrorModel.Error.JsonSerialize | src/Model/Error.php:73-82 | the serialised object holds exactly the non-null fields, in the order code, type, typeShape |
| ArgumentModel.ArgumentFromArray | src/Model/Argument.php:36-41 | a missing name, location or type is null; a present name, `in` or type string is stored as given |
| ArgumentModel.ArgumentToArray | src/Model/Argument.php:73-82 | jsonSerialize reports exactly the non-null fields, at most three; the keys appear in the order name, in, type, each only when its field is set |
| ArgumentModel.ArgumentArrayRoundTrip | src/Model/Argument.php:36-82 | constructing an argument from its serialised form gives it back |
| ArgumentModel.Argument.constructor | src/Model/Argument.php:36-41 | a new argument holds the fields its array gives |
| ArgumentModel.Argument.SetName | src/Model/Argument.php:48-51 | changes the name and no other field |
| ArgumentModel.Argument.SetIn | src/Model/Argument.php:58-61 | changes the location and no other field |
| ArgumentModel.Argument.SetType | src/Model/Argument.php:68-71 | changes the type and no other field |
| ArgumentModel.Argument.JsonSerialize | src/Model/Argument.php:73-82 | the serialised object holds exactly the non-null fields, in the order name, in, type |
| Parser.ResolveType | src/Parser.php:330-354 | a resolved name is never empty and its shape is none, map or array; with no target, generic or type the schema is invalid; a shape is reported only when a nested schema is present |
| Parser.ResolveTypeCases | src/Parser.php:330-354 | a `target`/`$ref` string wins and is the name, with no shape; else a `$generic`/`name` string; else the `type`, with no shape unless an object or map, or an array, has a nested schema object, in which case the shape is map or array |
| Parser.ResolveTypeNested | src/Parser.php:340-347 | an object, map or array type with a nested `schema`/`items`/`additionalProperties` object resolves exactly when the nested schema does, to the nested name with shape map or array |
| Parser.ResolveDefinitionType | src/Parser.php:472-504 | the kind is struct, map or array; an explicit type is accepted exactly when it is one of those or `object`, which reads as struct; without one, properties or a parent give struct, else additionalProperties gives map, else items gives array, and with none of them it fails |
| Parser.DefinitionTypeName | src/Parser.php:474-488 | an explicit type is kept; without one, a kind is inferred exactly when properties, a parent or additionalProperties or items are present |
| Parser.ResolvePropertyType | src/Parser.php:509-570 | the kind is one of the nine property types; with no type to start from it fails; outside maps and arrays a generic is reported exactly for a generic with a `$generic`/`name`; a map or array always had a value schema |
| Parser.PropertyTypeName | src/Parser.php:511-521 | an explicit type is kept; without one, a kind is found exactly when additionalProperties or items is present, and it is map or array |
| Parser.ValueReference | src/Parser.php:541-550 | the reference of a map or array: an object value gives its reference, a map or array value gives `map:X`/`array:X`, any other value gives its kind |
| Parser.ResolvePropertyTypeCases | src/Parser.php:509-570 | a map or array without a value schema fails; outside maps and arrays the kind is accepted exactly when it is a property type, `$ref`/`target` makes it `object` with that reference, `$generic`/`name` makes it `generic` with that name, and `reference` reads as `object` |
| Parser.ResolvePropertyTypeCollection | src/Parser.php:531-550 | a map or array with a value schema resolves exactly when that schema does, and then carries the value's reference and generic up |
| Parser.ParsePropertyType | src/Parser.php:429-467 | a non-object fails; a parsed property carries its name and one of the nine kinds, and never an empty reference or generic |
| Parser.ParsedProperties | src/Parser.php:408-416 | one property per member of the properties object |
| Parser.ParsedPropertiesEach | src/Parser.php:408-416 | the i-th property is the i-th member parsed under its key |
| Parser.ParsedPropertiesFails | src/Parser.php:408-416 | once a property fails to parse, the whole definition fails with that error |
| Parser.DefinitionParent | src/Parser.php:375-396 | a template comes only with a parent; without a parent object the `parent`/`$extends` string is the parent; a parent object next to a parent string is replaced by that string, and its template is lost; a parent object with a `target` string gives that target and its `template`/`$template` object, and one without gives the parent string, if any, and no template |
| Parser.DefinitionProperties | src/Parser.php:408-416 | without a properties object a definition has no properties |
| Parser.SchemaReference | src/Parser.php:418-421 | a value reference is never empty, and there is none without a value schema |
| Parser.ParsedDefinition | src/Parser.php:359-424 | a parsed definition carries its name and a kind among struct, map and array, never a ref or required list, a template only with a parent, and a discriminator only when non-empty |
| Parser.ParseDefinitionType | src/Parser.php:359-424 | the step-by-step method computes the parsed definition |
| Parser.ParseProperties | src/Parser.php:408-416 | the properties loop computes the parsed property list |
| Parser.ParseArgument | src/Parser.php:281-302 | a non-object or a non-string `in` fails; a parsed argument has its name, its `in` string and a type; its shape is `mime` exactly when there is no schema object, and otherwise none, map or array |
| Parser.ParseArgumentCases | src/Parser.php:281-302 | neither a schema object nor a `contentType` string fails; with a schema object the argument parses exactly when the schema resolves, with the resolved name and shape; otherwise the type is the `contentType` |
| Parser.ParseThrow | src/Parser.php:307-328 | a non-object or a non-integer code fails; a parsed throw has that code, a non-empty type and a shape among none, map and array |
| Parser.ParseThrowCases | src/Parser.php:307-328 | no schema object fails; with one the throw parses exactly when the schema resolves, with the resolved name and shape |
| Parser.ParsedArguments | src/Parser.php:204-224 | no kept argument is a body argument, and each has a location and a type; there is no payload shape without a payload; a trailing body argument becomes the payload with its shape |
| Parser.KeptArguments | src/Parser.php:204-224 | the arguments kept are the entries that parse as non-body arguments, in order, never more than there are entries |
| Parser.BodyEntry | src/Parser.php:208-213 | an entry stands for the payload exactly when it parses as a body argument, and then it gives that argument and its shape |
| Parser.LastSomeIsLast | src/Parser.php:204-224 | the last value picked from a list is none exactly when no element gives one, and otherwise that of an element after which no element gives one |
| Parser.ParsedArgumentsLastBody | src/Parser.php:204-224 | wherever the body arguments sit, the kept arguments are exactly the non-body ones in order, and the payload and its shape are those of the last body argument, or none when there is no body argument |
| Parser.ParsedArgumentsFails | src/Parser.php:204-224 | once an argument fails to parse, the whole operation fails with that error |
| Parser.ParsedThrows | src/Parser.php:226-232 | one throw per entry of the throws list |
| Parser.ParsedThrowsEach | src/Parser.php:226-232 | the i-th throw is the i-th entry parsed |
| Parser.ParsedThrowsFails | src/Parser.php:226-232 | once a throw fails to parse, the whole operation fails with that error |
| Parser.ParsedReturn | src/Parser.php:234-253 | a 204 return has no type and no shape; there is no shape without a type; the shape is none, map, array or `mime`; only an invalid schema fails |
| Parser.ParsedReturnCases | src/Parser.php:234-253 | the code is the integer `code`, if any; away from 204 a schema object gives the resolved name and shape, else a `contentType` string gives that type with shape `mime`, else nothing |
| Parser.ParsedOperation | src/Parser.php:189-276 | a parsed operation carries its name and no body arguments, has no payload shape without a payload, and has no return type with code 204 |
| Parser.ParseArguments | src/Parser.php:204-224 | the arguments loop computes the parsed arguments state |
| Parser.ParseThrows | src/Parser.php:226-232 | the throws loop computes the parsed throws |
| Parser.ParseOperation | src/Parser.php:189-276 | the field-by-field method computes the parsed operation |
| Parser.ParsedImportTypes | src/Parser.php:164-184 | one definition per definition of the imported schema |
| Parser.ParsedImportTypesEach | src/Parser.php:172-179 | the i-th definition of an import is the i-th definition of the schema parsed under its own name |
| Parser.ParsedImportTypesFails | src/Parser.php:164-184 | once an imported definition fails, the whole import fails |
| Parser.ParsedImport | src/Parser.php:164-184 | an unloadable schema fails the import; an import carries its alias, its url and exactly the schema's definitions as parsed, in order; a definition that fails to parse fails the import with its error |
| Parser.ParseImport | src/Parser.php:164-184 | the import loop computes the parsed import |
| Parser.ParsedImports | src/Parser.php:87-100 | at most one import per entry, each with an alias and a url |
| Parser.ParsedImportsEach | src/Parser.php:87-100 | every string entry is imported by parseImport under its key with its value as URL, and every import comes from such an entry |
| Parser.ParsedImportsFails | src/Parser.php:87-100 | once an import fails, the whole parse fails |
| Parser.ParsedOperations | src/Parser.php:102-111 | at most one operation per entry, each named by a key of the operations object |
| Parser.Gathered | src/Parser.php:102-130 | the loop shared by operations and definitions: object entries parsed in order under their keys, others skipped, at most one result per entry |
| Parser.GatheredEntries | src/Parser.php:102-130 | every object entry is parsed into the result |
| Parser.GatheredSources | src/Parser.php:102-130 | every result element is an object entry, parsed under its key |
| Parser.ParsedOperationsGathered | src/Parser.php:102-111 | the operations loop is that loop over parseOperation |
| Parser.ParsedOperationsEach | src/Parser.php:102-111 | every object entry is parsed as the operation named by its key, and every operation comes from such an entry |
| Parser.ParsedOperationsFails | src/Parser.php:102-111 | once an operation fails, the whole parse fails |
| Parser.DefinitionStep | src/Parser.php:119-129 | an object entry is appended under its key and becomes the root when its key is the root name; a non-object entry changes nothing |
| Parser.ParsedDefinitions | src/Parser.php:113-130 | at most one definition per entry |
| Parser.ParsedDefinitionsGathered | src/Parser.php:113-130 | the definitions loop succeeds exactly when that loop over parseDefinitionType does, with the same definitions |
| Parser.ParsedDefinitionsEach | src/Parser.php:113-130 | every object entry is parsed as the definition named by its key, and every definition comes from such an entry |
| Parser.ParsedDefinitionsRoot | src/Parser.php:113-130 | the root index names a parsed definition called by the root name, and no later one; with no root index no definition is called so |
| Parser.ParsedDefinitionsFails | src/Parser.php:113-130 | once a definition fails, the whole parse fails |
| Parser.ParsedDocument | src/Parser.php:75-133 | the document's base URL is the string under `baseUrl`, and its security is constructed from the security object |
| Parser.ParsedDocumentRoot | src/Parser.php:113-130 | a document's root index is in range and names the definition the `root`/`$ref` string names |
| Parser.ParseImports | src/Parser.php:87-100 | the import loop computes the parsed imports |
| Parser.ParseOperations | src/Parser.php:102-111 | the operations loop computes the parsed operations |
| Parser.ParseDefinitionEntry | src/Parser.php:124-128 | one object-valued definition takes the root index when its name is the root reference, then is parsed and appended, or its failure is returned |
| Parser.ParseDefinitions | src/Parser.php:113-130 | the definitions loop with its running index computes the parsed definitions and root |
| Parser.Parse | src/Parser.php:75-133 | parse computes the parsed document |
| Generator.SchemaNode | src/Generator.php:379-431 | a property type object reports each set field under its key and nothing else |
| Generator.ReferenceNode | src/Generator.php:292-294 | a reference node has type `reference` and the given target |
| Generator.TypeShape | src/Generator.php:290-309 | an array or map shape wraps a reference to the type in a node of that type; any other shape gives the reference itself |
| Generator.ResolveReferenceType | src/Generator.php:436-471 | fails exactly on an empty reference; otherwise the type is the reference itself for string, generic, integer, number, boolean and any, and `reference` for every other name |
| Generator.GeneratePropertyType | src/Generator.php:379-431 | an unknown kind fails; every kind but map and array always succeeds; the node carries the property's description; `format` is written on string nodes only, as the property's format; only an unknown kind or an empty reference fails |
| Generator.GeneratePropertyTypeKinds | src/Generator.php:380-420 | the node's `type` is `reference` for an object, `any` for the legacy union and the kind itself otherwise; `target` is written exactly for an object, as its reference; `schema` exactly for a map or array, as the resolved value schema; `name` exactly for a generic, as its generic name |
| Generator.DefinitionNode | src/Generator.php:314-374 | a definition type object reports each set field under its key and nothing else |
| Generator.ParentNode | src/Generator.php:328-337 | a parent node is written exactly when there is a parent: a reference to it, with the template only when that is not empty |
| Generator.GeneratedDefinition | src/Generator.php:314-374 | outside maps and arrays a definition is written exactly when its properties are, and it fails only on an unknown property type or an empty reference |
| Generator.CollectFails | src/Generator.php:84-95 | once an entry's node fails, the whole record fails with that error |
| Generator.Collect | src/Generator.php:77-95 | the record fails only with the error of an item that has a key |
| Generator.CollectGet | src/Generator.php:77-95 | the last item with a given key is in the record under it, as its node |
| Generator.CollectOk | src/Generator.php:84-95 | a record is built exactly when every keyed entry's node can be generated |
| Generator.CollectKeys | src/Generator.php:84-95 | the record's keys are exactly the keys of the entries |
| Generator.CollectionDefinitionShape | src/Generator.php:316-323 | a map or array definition fails exactly when its reference is empty, and otherwise carries its kind and description |
| Generator.StructDefinitionShape | src/Generator.php:324-374 | any other definition is written as a struct with its description, and has a properties record exactly when it has properties |
| Generator.GenerateProperties | src/Generator.php:354-366 | the properties loop computes the properties record |
| Generator.GenerateDefinitionType | src/Generator.php:314-374 | the step-by-step method computes the generated definition |
| Generator.ArgumentNode | src/Generator.php:259-273 | an argument object holds exactly its location and schema |
| Generator.ResponseNode | src/Generator.php:275-288 | a response object holds exactly its code and schema |
| Generator.GenerateResponse | src/Generator.php:275-288 | the response has the code; its schema is `any` at 204 and the type in its shape otherwise |
| Generator.GeneratedArguments | src/Generator.php:184-203 | only a missing location, a missing type or an empty reference fails; an argument set aside as the legacy payload is a body argument |
| Generator.ArgumentKey | src/Generator.php:188-196 | an argument is keyed by its name exactly when it is not a body argument and its name is not empty |
| Generator.GeneratedArgumentsKeys | src/Generator.php:184-203 | the record's keys are exactly the names of the arguments that are not body arguments and have a name |
| Generator.GeneratedArgumentsValue | src/Generator.php:193-201 | the last argument with a given name is in the record under it, with its location and the schema its type names |
| Generator.GeneratedArgumentsLegacy | src/Generator.php:185-191 | the legacy payload is absent exactly when no argument is a body argument, and otherwise is the last body argument |
| Generator.PayloadArgument | src/Generator.php:205-216 | an explicit payload on POST, PUT or PATCH is written in its shape; otherwise a legacy body argument with a non-empty type is written without a shape; the payload is always `in: body` |
| Generator.GeneratedArgumentsFails | src/Generator.php:184-203 | once an argument fails, the whole operation fails with that error |
| Generator.GeneratedThrows | src/Generator.php:222-232 | one response per throw; it fails exactly when some throw has no type |
| Generator.GeneratedThrowsEach | src/Generator.php:224-229 | each throw becomes the response for its code, 500 when unset, and its type and shape, in order |
| Generator.ReturnNode | src/Generator.php:234-242 | a 204 code (200 when unset) always gives an `any` response with code 204; any other code gives a response exactly when there is a return type, in its shape |
| Generator.OperationNode | src/Generator.php:244-254 | an operation object reports each set field under its key and nothing else |
| Generator.OperationObject | src/Generator.php:167-257 | an operation is written exactly when its arguments and throws are; the throws are written exactly when there are any |
| Generator.OperationObjectArguments | src/Generator.php:183-220 | the arguments are left out exactly when there are no arguments and no payload; otherwise each key reads the payload under `payload` when there is one, and the argument record otherwise |
| Generator.GeneratedOperation | src/Generator.php:167-257 | an operation node is generated exactly when its arguments and throws are |
| Generator.GeneratedOperationOk | src/Generator.php:167-257 | an operation is generated exactly when its arguments are and every throw has a type |
| Generator.GeneratedOperationKeys | src/Generator.php:222-257 | `return` is written exactly when the code (200 by default) is 204 or a return type is set; `throws` exactly when there are throws; method and path as given; tags never |
| Generator.OperationNodeKeys | src/Generator.php:244-254 | return, throws, method and path read back as set, and tags are absent |
| Generator.OperationObjectFields | src/Generator.php:234-254 | the operation's response is its return node, the throws are set exactly when there are any, and method and path are the operation's own |
| Generator.GenerateArguments | src/Generator.php:184-203 | the arguments loop computes the arguments record and the legacy payload |
| Generator.GenerateThrows | src/Generator.php:222-232 | the throws loop computes the throws |
| Generator.GenerateOperation | src/Generator.php:167-257 | the step-by-step method computes the generated operation |
| Generator.OperationHead | src/Generator.php:171-182 | a fresh operation object gets exactly the description, method and path |
| Generator.OperationTail | src/Generator.php:244-254 | the operation object additionally gets exactly the stability, security and authorization |
| Generator.GeneratedSecurity | src/Generator.php:134-162 | a security object is written exactly for an `httpBasic`, `httpBearer`, `apiKey` or `oauth2` scheme; it keeps the `type`; `name` and `in` are kept for an API key and absent otherwise; `tokenUrl`, `authorizationUrl` and `scopes` are kept for OAuth2 and absent otherwise |
| Generator.ImportRecordKeys | src/Generator.php:112-132 | the import record's keys are exactly the aliases of imports with a non-empty alias and url |
| Generator.ImportRecord | src/Generator.php:112-132 | at most one entry per import |
| Generator.ImportRecordEntries | src/Generator.php:120-129 | every entry maps a non-empty alias to a non-empty URL string |
| Generator.ImportRecordValue | src/Generator.php:120-129 | the last complete import with a given alias maps it to its URL |
| Generator.GeneratedImport | src/Generator.php:112-132 | an import object is written exactly when there are imports |
| Generator.GenerateImport | src/Generator.php:112-132 | the import loop computes the import record |
| Generator.BaseUrl | src/Generator.php:60-65 | a non-empty document base URL wins; otherwise the fallback is used when non-empty; if both are empty none is set |
| Generator.RootName | src/Generator.php:97-103 | a root name is written exactly when the root index is in range and that definition is named, and it is that name |
| Generator.GeneratedModel | src/Generator.php:56-106 | the TypeAPI object is written exactly when its operations and definitions records are |
| Generator.ModelNode | src/Generator.php:56-106 | a TypeAPI object reports each set section under its key and nothing else |
| Generator.GeneratedModelOk | src/Generator.php:56-106 | toModel succeeds exactly when every operation and every named definition can be generated |
| Generator.GeneratedModelSections | src/Generator.php:56-106 | the TypeAPI object holds the operations and definitions records, the chosen base URL and the root name |
| Generator.ModelNodeKeys | src/Generator.php:56-106 | operations, definitions, base URL and root read back as set |
| Generator.GenerateOperations | src/Generator.php:78-82 | the operations loop computes the operations record |
| Generator.GenerateDefinitions | src/Generator.php:85-95 | the definitions loop computes the definitions record |
| Generator.ToModel | src/Generator.php:56-106 | toModel computes the generated TypeAPI object |
| RoundTrip.SchemaStrings | src/Generator.php:290-309 | the parser's string lookups find a written property type's type, target and generic name |
| RoundTrip.SchemaTexts | src/Generator.php:379-431 | the parser's lookups find a written node's format and description, and no deprecation |
| RoundTrip.SchemaObjects | src/Generator.php:290-309 | the parser's nested-schema lookups, in either keyword order, find the written value schema |
| RoundTrip.SchemaOtherObjects | src/Generator.php:379-431 | a written node has no additionalProperties or items object, and its template is found under `template`/`$template` |
| RoundTrip.ReferenceResolves | src/Parser.php:330-354 | resolveType reads a bare reference back as its target with no shape |
| RoundTrip.TypeShapeRoundTrip | src/Generator.php:290-309 | resolveType inverts getTypeShape: the name comes back, and so does a map, array or absent shape |
| RoundTrip.TypeShapeDropsOtherShapes | src/Generator.php:290-309 | any other shape, `mime` included, is not written and reads back as none |
| RoundTrip.PlainNodeResolves | src/Parser.php:509-570 | resolvePropertyType reads a written node without a value schema back as its kind (`reference` as object), with its target and generic name |
| RoundTrip.PlainPropertyParses | src/Parser.php:429-467 | parsePropertyType reads such a node back as the property of that kind, description and format |
| RoundTrip.CollectionPropertyParses | src/Parser.php:429-467 | parsePropertyType reads a written map or array node back with the reference and generic of its value schema |
| RoundTrip.CollectionMembersParse | src/Parser.php:429-467 | any object whose lookups show a map or array with that value schema parses as that collection property |
| RoundTrip.ReferenceTypeRoundTrip | src/Generator.php:436-471 | resolvePropertyType inverts resolveReferenceType: the reference comes back, and a generic value schema gives its generic name |
| RoundTrip.PropertyRoundTrip | src/Generator.php:379-431 | parsePropertyType inverts generatePropertyType for every property written without loss |
| RoundTrip.UnionReadsBackAsAny | src/Generator.php:379-431 | a legacy `union` property is written as `any` and reads back as `any` |
| RoundTrip.DefinitionStrings | src/Generator.php:314-374 | the parser's lookups find a written definition's type, description, discriminator and base flag |
| RoundTrip.DefinitionObjects | src/Generator.php:314-374 | the parser's lookups find a written definition's value schema, properties, mapping and parent |
| RoundTrip.DefinitionParentStrings | src/Generator.php:328-337 | a parent written as an object leaves no string under any parent keyword |
| RoundTrip.PropertiesRoundTrip | src/Generator.php:354-366 | the written properties record reads back as the same properties in the same order |
| RoundTrip.NamedRecordParsesBack | src/Parser.php:408-416 | distinctly named properties whose nodes each parse back are read back in order from their record |
| RoundTrip.CollectAppends | src/Generator.php:354-366 | a record whose next entry has a fresh key grows by that entry at its end |
| RoundTrip.ParsedPropertiesAppend | src/Parser.php:408-416 | one more member at the end of a properties object gives one more property at the end |
| RoundTrip.DefinitionNoParent | src/Parser.php:375-396 | a written definition without a parent reads back with no parent and no template |
| RoundTrip.DefinitionParentRoundTrip | src/Parser.php:375-396 | a written parent object reads back as the parent's name and its template |
| RoundTrip.ReferenceTypeResolves | src/Parser.php:418-421 | resolveType reads a written value schema back as the definition's reference |
| RoundTrip.CollectionDefinitionRoundTrip | src/Generator.php:316-323 | a map or array definition written without loss reads back as itself |
| RoundTrip.StructDefinitionRoundTrip | src/Generator.php:324-374 | a struct definition written without loss reads back as itself |
| RoundTrip.ParsedDefinitionOf | src/Parser.php:359-423 | a definition whose kind, parent and template, properties, reference, description, base flag, discriminator and mapping each read back as its own reads back as the whole definition |
| RoundTrip.DefinitionRoundTrip | src/Parser.php:359-424 | parseDefinitionType inverts generateDefinitionType for every definition written without loss |
| OperationRoundTrip.ArgumentRoundTrip | src/Parser.php:281-302 | a written argument reads back as its name, location and type, with no shape |
| OperationRoundTrip.PayloadRoundTrip | src/Generator.php:205-216 | the written payload reads back as a body argument of the payload type with its shape |
| OperationRoundTrip.ThrowRoundTrip | src/Parser.php:307-328 | a written throw reads back with its code, type and shape |
| OperationRoundTrip.ThrowsRoundTrip | src/Generator.php:222-232 | the written throws list reads back as the throws, in order |
| OperationRoundTrip.ArgumentJson | src/Generator.php:259-265 | the node written for an argument parses back as that argument |
| OperationRoundTrip.WrittenArguments | src/Generator.php:184-203 | the written record has one entry per argument |
| OperationRoundTrip.WrittenArgumentsNames | src/Generator.php:184-203 | each entry of the written record is keyed by its argument's name |
| OperationRoundTrip.ArgumentsGenerated | src/Generator.php:184-203 | the arguments loop writes each argument under its own name, in order, and sets no payload aside |
| OperationRoundTrip.ArgumentsParsed | src/Parser.php:204-224 | the arguments loop reads the written record back as the arguments, in order, with no payload |
| OperationRoundTrip.ArgumentsParseStep | src/Parser.php:204-224 | an argument appended to the record is read back at the end |
| OperationRoundTrip.GeneratedArgumentsAppend | src/Generator.php:184-203 | one more argument with a fresh name appends its node to the record |
| OperationRoundTrip.ParsedArgumentsAppend | src/Parser.php:204-224 | a non-body argument at the end of the arguments object is kept at the end |
| OperationRoundTrip.ParsedPayloadAppend | src/Parser.php:209-213 | a body argument at the end of the arguments object becomes the payload with its shape |
| OperationRoundTrip.OperationObjectWritten | src/Generator.php:167-257 | an operation is written with its description, method and path, the record when non-empty, the throws when any, and its response, stability, security and authorization |
| OperationRoundTrip.OperationArgumentsParsed | src/Parser.php:204-224 | the written arguments object reads back as the arguments, payload and payload shape |
| OperationRoundTrip.WrittenRecordParsed | src/Parser.php:204-224 | the written record reads back as arguments, payload and shape, and is empty only when they are |
| OperationRoundTrip.WrittenArgumentsNoPayload | src/Generator.php:184-216 | no argument written without loss takes the `payload` key |
| OperationRoundTrip.PayloadRecordParsed | src/Parser.php:204-224 | a record of plain arguments with the payload under `payload` reads back with that payload and shape |
| OperationRoundTrip.OperationReturnParsed | src/Parser.php:234-253 | the written return reads back as the code, return type and shape |
| OperationRoundTrip.ReturnOfTypeParsed | src/Parser.php:234-247 | a response written with a code other than 204 and a shaped type reads back as that code, type and shape |
| OperationRoundTrip.NoContentReturnParsed | src/Parser.php:234-240 | a written 204 response reads back as the code alone, with no return type |
| OperationRoundTrip.OperationThrowsParsed | src/Parser.php:226-232 | the written throws read back as the throws |
| OperationRoundTrip.OperationRoundTrip | src/Parser.php:189-276 | parseOperation inverts generateOperation for every operation written without loss |
| OperationRoundTrip.OperationSectionsRead | src/Parser.php:204-253 | parseOperation finds the written arguments, throws and return, and no tags |
| OperationRoundTrip.OperationEntriesRead | src/Parser.php:255-273 | parseOperation finds the written description, method, path, stability, security and authorization |
| DocumentRoundTrip.RecordGathersBack | src/Parser.php:102-130 | a record the generator builds from items with distinct keys, each parsing back under its key, is gathered back into the same items in order |
| DocumentRoundTrip.OperationsRoundTrip | src/Parser.php:102-111 | the operations record of distinctly named operations written without loss parses back into the same operations |
| DocumentRoundTrip.DefinitionsRoundTrip | src/Parser.php:113-130 | the definitions record of distinctly named definitions written without loss parses back into the same definitions |
| DocumentRoundTrip.RootRoundTrip | src/Parser.php:113-130 | the root read back through the written root name is the document's root index |
| DocumentRoundTrip.SecurityRoundTrip | src/Generator.php:134-162 | a scheme with only its variant's fields is written as its own serialised form and constructed back as itself |
| DocumentRoundTrip.ModelRootRead | src/Parser.php:113 | the root name parse looks up is the written root field |
| DocumentRoundTrip.DocumentRoundTrip | src/Parser.php:75-133 | parse(toModel(d)) is d for a document with no imports, distinctly named operations and definitions written without loss, a root in range, a non-empty base URL or none, and security with only its variant's fields |

## Left out

- File access and encoding are not modelled: `Parser::parseJson`/`parseFile` and `Generator::generate`. The model starts and ends at a `Json` tree.
- The schema manager that `parseImport` asks for an imported schema is not modelled. It is the `Resolver` parameter, a function from URL to the named definitions of that schema, or nothing when the schema cannot be loaded. Fetching and caching are not modelled.
- `Operation.php` and `Document.php` are not part of this model. `OperationData` and `DocumentData` carry the fields the engines set and read, with the document's fields in its constructor's order.
- The foreign TypeAPI and TypeSchema model classes and `PSX\Record\Record` are plain ordered members. Assigning a record key replaces the first entry with that key in place, or appends the key.
- The generator's output objects list their set fields in an order the model fixes. Every property is stated per key, so nothing depends on that order except where members are appended.
- `oneOf`/`allOf`, `typehub://` URIs, and the writing of `tags` and `deprecated` are absent from the source's engines and from the model.
- PHP runtime coercions are not modelled: loose `in_array`, warnings on undefined keys, and string-to-int casts of numeric keys. The model keeps only the intended string, integer, boolean, list and object kind checks. JSON numbers that are not integers are `JReal` and never match an integer check.
- The round trips hold only for documents the generator writes without loss. Each `*WrittenWithoutLoss` predicate names what is lost otherwise:
  - deprecation and templates on properties;
  - formats outside strings;
  - the `mime` shape (TypeShapeDropsOtherShapes);
  - the legacy `union` kind, which reads back as `any` (UnionReadsBackAsAny);
  - `tags`;
  - a return type with no code, which reads back with code 200;
  - a return or throw with code 204;
  - a legacy body argument, which comes back as the payload;
  - a payload on a method other than POST, PUT or PATCH, which is not written;
  - an argument named `payload`, which the payload replaces, and arguments sharing a name, of which only the last is written;
  - a throw with no code, which comes back with code 500;
  - a definition's `$ref` and `required` list.
  - a code other than 204 with no return type, which writes no response and reads back as no code;
  - an empty name or type, in the sense of PHP's `empty()` ("" or "0"): argument names and types, throw types, the payload, the return type, property names, references and generics, and definition names and collection references. The generator skips or rejects these, and the parser never yields an empty type name.
- A nested collection reference is not covered by the round trips. The parser records it as `map:X`/`array:X`, and the generator writes that text as a reference target.
- DocumentRoundTrip.DocumentRoundTrip: holds only for documents with no imports. The generator writes an import as its alias and URL only, and the parser fetches the definitions again through the schema manager. It also requires distinct operation and definition names, since a later entry replaces an earlier one in the records, and security holding only its variant's fields, since the generator drops the rest.
- `src/Model/Type.php` lacks the `struct` kind constant and the `base`, `discriminator`, `mapping` and `reference` fields, and types `template` as a string. The engines set and read all of these, and pass the template as a map. The model follows the engines: `TypeData` is that superset. TypeArrayRoundTrip and ImportArrayRoundTrip therefore require those four fields to be unset, because Type.php's jsonSerialize (src/Model/Type.php:177-191) does not write them.
- TypeModel.TypeFromArray: a value of another kind under a string key is, in PHP, coerced to a string when it is a number or boolean and a type error when it is an array. The model stores null in both cases.
- ErrorModel.ErrorFromArray: PHP coerces a numeric string or a float under `code`, and a number or boolean under `type` or `typeShape`, and rejects an array. The model stores null for any value of another kind.
- ArgumentModel.ArgumentFromArray: PHP coerces a number or boolean under `name`, `in` or `type` to a string, and rejects an array. The model stores null for any value of another kind.
- Parser.ParsedDocument: states only the base URL and security of the document. ParsedImportsEach, ParsedOperationsEach and ParsedDefinitionsEach state the imports, operations and definitions, and ParsedDocumentRoot states the root.
- SecurityModel.ScopesEntry: a `scopes` value that is neither an object nor a list is a PHP type error in the source, because the field is typed `?array`. The model stores no scopes instead.
- ImportModel.ImportFromArray: a `types` value that is a string or an object is a PHP type error in the source, because `convertTypes` takes an array. The model gives no definitions instead.
