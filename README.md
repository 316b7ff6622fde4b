# Zeroconf discoverer reports, modelled in Dafny

The zeroconf discoverer collects resolved mDNS/DNS-SD service events for a while and then
writes one JSON report per event. This project models the report side of
`ZeroConfDiscoverer`:

- `serialize` turns one service event into one JSON object with a fixed schema. It writes
  the event's `name` and `type`; then the info's `application`, `domain`, `key`, `protocol`,
  `name`, `port`, `priority` and `qn`; then a `urls` array, only when there are urls; then a
  `hostAddresses` array, only when there are host addresses.
- File mode writes each report pretty-printed to the file `zeroconf_<key>.json`.
- Stream mode writes each report compactly to standard output, followed by a newline.
- After the discovery window, `main` drains the stored events, in list order, through stream
  mode. It then removes its listener, unregisters its services and exits.

The JSON is modelled as a stream of generator tokens (`Json.Token`), not as bytes. The
object a stream denotes is a *sequence* of members (`Json.Member`), not a map, so the key
`name` stays visible twice.

The project has two modules:

- `Json` (json.dfy) holds the token and member types and the emitter `EmitObject`.
  `ParseObject` is its exact inverse. `Lookup` gives every member written under a key.
  `Generator` is a class whose methods append one token each; it stands for Jackson's
  streaming `JsonGenerator`.
- `ZeroConfDiscoverer` (zeroconf_discoverer.dfy) holds the event and info values and the
  report schema `Members`/`Document`. It holds `Serialize`, an imperative method that drives
  a `Generator` field by field with a loop per array and is proved to write exactly
  `Document(event)` in both modes. It also holds the schema's inverse `Decode`, the file-name
  rule, stream mode and the drain.

Three facts about the code shape the model:

- `serialize` writes the qualified name (`getQualifiedName()`) under the key `qn`.
- `serialize` drives a stateful generator, so it is modelled as a method over a `Generator`
  object.
- `main` never calls `writeReportToFile`. The drain uses stream mode only.

## Model

| member | source | states |
|---|---|---|
| Json.Generator.constructor | src/main/java/net/trundler/networking/zeroconf/ZeroConfDiscoverer.java:74-76 | a new generator, pretty or compact as asked, has written nothing |
| Json.Generator.WriteStartObject | src/main/java/net/trundler/networking/zeroconf/ZeroConfDiscoverer.java:81 | appends exactly one start-object token and changes nothing else |
| Json.Generator.WriteStringField | src/main/java/net/trundler/networking/zeroconf/ZeroConfDiscoverer.java:82-91 | appends exactly one string field with the given key and value |
| Json.Generator.WriteNumberField | src/main/java/net/trundler/networking/zeroconf/ZeroConfDiscoverer.java:92-93 | appends exactly one number field with the given key and number |
| Json.Generator.WriteArrayFieldStart | src/main/java/net/trundler/networking/zeroconf/ZeroConfDiscoverer.java:98 | appends exactly one array opening under the given key |
| Json.Generator.WriteString | src/main/java/net/trundler/networking/zeroconf/ZeroConfDiscoverer.java:101 | appends exactly one string element |
| Json.Generator.WriteEndArray | src/main/java/net/trundler/networking/zeroconf/ZeroConfDiscoverer.java:104 | appends exactly one array closing |
| Json.Generator.WriteEndObject | src/main/java/net/trundler/networking/zeroconf/ZeroConfDiscoverer.java:120 | appends exactly one end-object token |
| Json.Strings | src/main/java/net/trundler/networking/zeroconf/ZeroConfDiscoverer.java:100-102 | an array's elements give one string token each, same count, element i at position i |
| Json.EmitObjectFraming | src/main/java/net/trundler/networking/zeroconf/ZeroConfDiscoverer.java:81-120 | any emitted object opens with a start token, closes with an end token, and has no object delimiter in between |
| Json.EmitMembersNoDelimiter | src/main/java/net/trundler/networking/zeroconf/ZeroConfDiscoverer.java:82-119 | the member tokens of an object never contain an object delimiter |
| Json.EmitMembersAppend | src/main/java/net/trundler/networking/zeroconf/ZeroConfDiscoverer.java:82-119 | emitting two member lists one after the other gives the concatenation of their tokens |
| Json.ParseArray | src/main/java/net/trundler/networking/zeroconf/ZeroConfDiscoverer.java:98-104 | reading an array body consumes at least its closing token |
| Json.ParseEmitMembers | src/main/java/net/trundler/networking/zeroconf/ZeroConfDiscoverer.java:82-119 | the tokens of any member list read back as exactly that list |
| Json.ParseMembersExact | src/main/java/net/trundler/networking/zeroconf/ZeroConfDiscoverer.java:82-119 | every token sequence that reads as a member list is the emission of that list |
| Json.ParseObjectIff | src/main/java/net/trundler/networking/zeroconf/ZeroConfDiscoverer.java:81-120 | a token sequence reads as object `ms` if and only if it is the emission of `ms` |
| Json.Keys | src/main/java/net/trundler/networking/zeroconf/ZeroConfDiscoverer.java:82-110 | a member list has one key per member, and key i is the key of member i |
| Json.LookupSingle | src/main/java/net/trundler/networking/zeroconf/ZeroConfDiscoverer.java:82-110 | a key written at exactly one position is found as exactly that member |
| Json.LookupAbsent | src/main/java/net/trundler/networking/zeroconf/ZeroConfDiscoverer.java:96-119 | a key written nowhere is found nowhere |
| Json.EmitScalarMembers | src/main/java/net/trundler/networking/zeroconf/ZeroConfDiscoverer.java:82-94 | scalar members emit one token each, member i as token i |
| ZeroConfDiscoverer.ScalarTokens | src/main/java/net/trundler/networking/zeroconf/ZeroConfDiscoverer.java:82-94 | the ten scalar fields are the exact tokens name, type, application, domain, key, protocol, name, port, priority, qn, each carrying its event or info value |
| ZeroConfDiscoverer.OptionalArrayTokens | src/main/java/net/trundler/networking/zeroconf/ZeroConfDiscoverer.java:96-119 | an optional array writes nothing when empty, otherwise an opening, one string per element in order, and a closing |
| ZeroConfDiscoverer.DocumentLayout | src/main/java/net/trundler/networking/zeroconf/ZeroConfDiscoverer.java:81-120 | the document is the start token, the scalar fields, the urls part, the host-addresses part and the end token, in that order |
| ZeroConfDiscoverer.WriteScalarFields | src/main/java/net/trundler/networking/zeroconf/ZeroConfDiscoverer.java:82-94 | appends exactly the ten scalar field tokens of the event to the generator |
| ZeroConfDiscoverer.WriteStrings | src/main/java/net/trundler/networking/zeroconf/ZeroConfDiscoverer.java:100-102 | the loop appends one string token per element, in order, and nothing else |
| ZeroConfDiscoverer.WriteArrayField | src/main/java/net/trundler/networking/zeroconf/ZeroConfDiscoverer.java:96-119 | appends nothing for an empty array, otherwise exactly the array field of its elements |
| ZeroConfDiscoverer.Members | src/main/java/net/trundler/networking/zeroconf/ZeroConfDiscoverer.java:82-119 | a report has ten members plus one for each non-empty array, and its first ten members are not arrays |
| ZeroConfDiscoverer.Document | src/main/java/net/trundler/networking/zeroconf/ZeroConfDiscoverer.java:81-120 | a report has at least two tokens, opens with a start-object token and closes with an end-object token |
| ZeroConfDiscoverer.Serialize | src/main/java/net/trundler/networking/zeroconf/ZeroConfDiscoverer.java:72-125 | a fresh generator driven field by field writes exactly `Document(event)` whichever layout is chosen, and its layout is the one asked for |
| ZeroConfDiscoverer.DocumentFraming | src/main/java/net/trundler/networking/zeroconf/ZeroConfDiscoverer.java:81-120 | a report starts with the start-object token and ends with the only end-object token, with nothing after it |
| ZeroConfDiscoverer.DocumentMembers | src/main/java/net/trundler/networking/zeroconf/ZeroConfDiscoverer.java:81-120 | a report reads back as exactly the members of the schema |
| ZeroConfDiscoverer.ScalarMemberKeys | src/main/java/net/trundler/networking/zeroconf/ZeroConfDiscoverer.java:82-94 | the scalar members carry the keys name, type, application, domain, key, protocol, name, port, priority, qn, in that order |
| ZeroConfDiscoverer.SchemaOrder | src/main/java/net/trundler/networking/zeroconf/ZeroConfDiscoverer.java:82-110 | the keys are the ten scalar keys in order, then `urls` when there are urls, then `hostAddresses` when there are host addresses |
| ZeroConfDiscoverer.NameWrittenTwice | src/main/java/net/trundler/networking/zeroconf/ZeroConfDiscoverer.java:82-91 | `name` is written exactly twice, first with the event's name, then with the info's name, even when they are equal |
| ZeroConfDiscoverer.EnvelopeName | src/main/java/net/trundler/networking/zeroconf/ZeroConfDiscoverer.java:82-83 | the envelope fields hold `name` once, with the event's name |
| ZeroConfDiscoverer.InfoName | src/main/java/net/trundler/networking/zeroconf/ZeroConfDiscoverer.java:87-94 | the info fields hold `name` once, with the info's name |
| ZeroConfDiscoverer.LookupScalarKey | src/main/java/net/trundler/networking/zeroconf/ZeroConfDiscoverer.java:96-119 | the array sections add nothing under any key other than `urls` and `hostAddresses` |
| ZeroConfDiscoverer.LookupScalarParts | src/main/java/net/trundler/networking/zeroconf/ZeroConfDiscoverer.java:82-94 | what the scalar fields hold under a key is what the envelope holds, then what the info holds |
| ZeroConfDiscoverer.ServiceKeyInfo | src/main/java/net/trundler/networking/zeroconf/ZeroConfDiscoverer.java:87-89 | the info fields hold `application`, `domain` and `key` once each, with the info's values |
| ZeroConfDiscoverer.EndpointInfo | src/main/java/net/trundler/networking/zeroconf/ZeroConfDiscoverer.java:90-94 | the info fields hold `protocol`, `port`, `priority` and `qn` once each, with the info's values |
| ZeroConfDiscoverer.IdentityFieldsVerbatim | src/main/java/net/trundler/networking/zeroconf/ZeroConfDiscoverer.java:83-89 | the report holds `type`, `application`, `domain` and `key` exactly once each, copied verbatim |
| ZeroConfDiscoverer.EndpointFieldsVerbatim | src/main/java/net/trundler/networking/zeroconf/ZeroConfDiscoverer.java:90-94 | the report holds `protocol`, `port`, `priority` and `qn` exactly once each, copied verbatim |
| ZeroConfDiscoverer.UrlsField | src/main/java/net/trundler/networking/zeroconf/ZeroConfDiscoverer.java:96-105 | a `urls` array is present if and only if there are urls, and then holds exactly them, in order |
| ZeroConfDiscoverer.HostAddressesField | src/main/java/net/trundler/networking/zeroconf/ZeroConfDiscoverer.java:108-119 | a `hostAddresses` array is present if and only if there are host addresses, holds exactly them in order, and is the last member, after any `urls` |
| ZeroConfDiscoverer.DocumentLength | src/main/java/net/trundler/networking/zeroconf/ZeroConfDiscoverer.java:81-120 | a report has 12 tokens, plus the url count + 2 when there are urls, plus the host-address count + 2 when there are host addresses |
| ZeroConfDiscoverer.FromMembersOfSchema | src/main/java/net/trundler/networking/zeroconf/ZeroConfDiscoverer.java:82-119 | the schema reader recovers the event from the members of its report |
| ZeroConfDiscoverer.FromMembersOnlySchema | src/main/java/net/trundler/networking/zeroconf/ZeroConfDiscoverer.java:82-119 | every member list the schema reader accepts is the member list of the event it reads |
| ZeroConfDiscoverer.FromMembersIff | src/main/java/net/trundler/networking/zeroconf/ZeroConfDiscoverer.java:82-119 | the schema reader gives `e` if and only if the members are those of `e`'s report |
| ZeroConfDiscoverer.DecodeDocument | src/main/java/net/trundler/networking/zeroconf/ZeroConfDiscoverer.java:72-125 | round trip: a report decodes to the event it was written for |
| ZeroConfDiscoverer.DecodeIff | src/main/java/net/trundler/networking/zeroconf/ZeroConfDiscoverer.java:72-125 | a token sequence decodes to `e` if and only if it is `e`'s report |
| ZeroConfDiscoverer.DocumentInjective | src/main/java/net/trundler/networking/zeroconf/ZeroConfDiscoverer.java:72-125 | two events have the same report if and only if they are the same event, so serialization loses nothing |
| ZeroConfDiscoverer.ReportFileName | src/main/java/net/trundler/networking/zeroconf/ZeroConfDiscoverer.java:35-39 | the file name is `zeroconf_`, then the key, then `.json`, in length, prefix and suffix |
| ZeroConfDiscoverer.KeyOfReportFileName | src/main/java/net/trundler/networking/zeroconf/ZeroConfDiscoverer.java:35-39 | the key can be read back from the file name |
| ZeroConfDiscoverer.ReportFileNameCollision | src/main/java/net/trundler/networking/zeroconf/ZeroConfDiscoverer.java:35-39 | two reports get the same file name if and only if their services have the same key |
| ZeroConfDiscoverer.WriteReportToFile | src/main/java/net/trundler/networking/zeroconf/ZeroConfDiscoverer.java:33-46 | the report goes to the file named after the key, is written pretty-printed, and decodes back to the event |
| ZeroConfDiscoverer.WriteReportToStdout | src/main/java/net/trundler/networking/zeroconf/ZeroConfDiscoverer.java:53-62 | standard output gets the report of the event with the compact layout, then one newline |
| ZeroConfDiscoverer.StdoutReport | src/main/java/net/trundler/networking/zeroconf/ZeroConfDiscoverer.java:56-57 | one stream-mode report is two writes: a document with the compact layout, then a newline |
| ZeroConfDiscoverer.DrainToStdout | src/main/java/net/trundler/networking/zeroconf/ZeroConfDiscoverer.java:150 | draining the stored events makes two writes per event |
| ZeroConfDiscoverer.DrainAt | src/main/java/net/trundler/networking/zeroconf/ZeroConfDiscoverer.java:150 | event i is written as the document at position 2i and a newline at 2i+1 |
| ZeroConfDiscoverer.DrainLayout | src/main/java/net/trundler/networking/zeroconf/ZeroConfDiscoverer.java:149-150 | for every stored event in list order: its compact report, then a newline, and nothing else |
| ZeroConfDiscoverer.DrainAppend | src/main/java/net/trundler/networking/zeroconf/ZeroConfDiscoverer.java:150 | draining two event lists one after the other writes the concatenation of their outputs |
| ZeroConfDiscoverer.DocumentsAppend | src/main/java/net/trundler/networking/zeroconf/ZeroConfDiscoverer.java:150 | the documents of two output streams one after the other are their documents concatenated |
| ZeroConfDiscoverer.DocumentsOfStdoutReport | src/main/java/net/trundler/networking/zeroconf/ZeroConfDiscoverer.java:56-57 | one stream-mode report holds exactly one document, the event's |
| ZeroConfDiscoverer.DrainDocumentsLength | src/main/java/net/trundler/networking/zeroconf/ZeroConfDiscoverer.java:149-150 | the drained output holds as many documents as there are stored events |
| ZeroConfDiscoverer.DrainDocumentAt | src/main/java/net/trundler/networking/zeroconf/ZeroConfDiscoverer.java:150 | document i of the drained output is the report of event i |
| ZeroConfDiscoverer.DrainDocuments | src/main/java/net/trundler/networking/zeroconf/ZeroConfDiscoverer.java:149-150 | the drained output holds one document per stored event, in list order, each decoding to its event |

## Left out

- JmDNS creation, `addServiceTypeListener`, `removeServiceTypeListener` and `unregisterAllServices` (lines 133, 142, 154-155): these are foreign network calls.
- The 15-second `Thread.sleep` discovery window and `System.exit` (lines 146, 161): these are timing and process lifetime.
- `MyServiceListener` and `MyServiceTypeListener`, and how they store events: their source is not part of this model. The drain takes the stored events as a plain list.
- DrainToStdout: the drain at line 150 runs before the listener is removed at line 154, so the listeners are still live and may add events while `forEach` iterates. The model assumes the list does not change during the drain.
- ReportFileNameCollision: it is about file-name strings. Path resolution by `Paths.get` and the file system (collapsed separators, case-insensitive names, keys holding `/` or `..`) is not modelled, so distinct names may still reach the same file.
- Logging (lines 36, 130, 145, 149, 153), and the `logger.error` in `main`'s `IOException` catch (lines 157-159): it writes nothing to the report streams.
- Jackson's byte encoding: string escaping, the pretty printer's whitespace, `AUTO_CLOSE_TARGET` and `flush` (lines 74-79, 122). The model writes tokens only; the pretty flag is kept on the generator but does not change the tokens.
- Jackson's check that the writes make a well-nested document: the model's generator accepts every write, and `Serialize` only makes balanced ones.
- File and standard-output I/O, and the `IOException` catch-and-log paths (lines 39-45, 55-60): `WriteReportToFile` and `WriteReportToStdout` return what would be written.
- Null strings and null arrays from `ServiceInfo`: every field is modelled as present.
- Java's 32-bit `int` for port and priority: `int` here is unbounded, and the numbers are copied, never computed with.
