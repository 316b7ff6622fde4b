/**
 The report side of the zeroconf discoverer: one resolved service event is
 serialized to one JSON object with a fixed schema, written either to a file
 named after the service key (pretty-printed) or to standard output as one
 compact document per line.
 */
module ZeroConfDiscoverer {
  import opened Json

  /** The resolved service metadata carried by an event. */
  datatype ServiceInfo = ServiceInfo(
    application: string,
    domain: string,
    key: string,
    protocol: string,
    name: string,
    port: int,
    priority: int,
    qualifiedName: string,
    urls: seq<string>,
    hostAddresses: seq<string>)

  /** A service event: the envelope's name and type, and the resolved info. */
  datatype ServiceEvent = ServiceEvent(name: string, serviceType: string, info: ServiceInfo)

  // ---------------------------------------------------------------------
  // The schema of a report.

  /** The two members taken from the event envelope. */
  function EnvelopeMembers(e: ServiceEvent): seq<Member> {
    [StringMember("name", e.name), StringMember("type", e.serviceType)]
  }

  /** The eight scalar members taken from the service info, in the order they are written. */
  function InfoMembers(info: ServiceInfo): seq<Member> {
    [ StringMember("application", info.application),
      StringMember("domain", info.domain),
      StringMember("key", info.key),
      StringMember("protocol", info.protocol),
      StringMember("name", info.name),
      NumberMember("port", info.port),
      NumberMember("priority", info.priority),
      StringMember("qn", info.qualifiedName) ]
  }

  /** The ten scalar members, in the order they are written. */
  function ScalarMembers(e: ServiceEvent): seq<Member> {
    EnvelopeMembers(e) + InfoMembers(e.info)
  }

  /** An array member that is written only when it has elements. */
  function OptionalArray(key: string, xs: seq<string>): seq<Member> {
    if xs == [] then [] else [ArrayMember(key, xs)]
  }

  /** The members of the report object for `e`, in order. */
  function Members(e: ServiceEvent): (ms: seq<Member>)
    ensures |ms| == 10 + (if e.info.urls == [] then 0 else 1) + (if e.info.hostAddresses == [] then 0 else 1)
    ensures forall i :: 0 <= i < 10 ==> !ms[i].ArrayMember?
  {
    ScalarMembers(e)
    + OptionalArray("urls", e.info.urls)
    + OptionalArray("hostAddresses", e.info.hostAddresses)
  }

  /** The token sequence `Serialize` writes for `e`. */
  function Document(e: ServiceEvent): (d: seq<Token>)
    ensures |d| >= 2 && d[0] == StartObject && d[|d| - 1] == EndObject
  {
    EmitObject(Members(e))
  }

  /** The keys of the scalar members, in the order they are written. */
  const EnvelopeKeys: seq<string> := ["name", "type"]
  const InfoKeys: seq<string> := ["application", "domain", "key", "protocol", "name", "port", "priority", "qn"]
  const ScalarKeys: seq<string> := EnvelopeKeys + InfoKeys

  // ---------------------------------------------------------------------
  // Serializing one event.

  /** The tokens of the ten scalar fields. */
  lemma ScalarTokens(e: ServiceEvent)
    ensures EmitMembers(ScalarMembers(e)) ==
      [ StrField("name", e.name), StrField("type", e.serviceType),
        StrField("application", e.info.application), StrField("domain", e.info.domain),
        StrField("key", e.info.key), StrField("protocol", e.info.protocol),
        StrField("name", e.info.name), NumField("port", e.info.port),
        NumField("priority", e.info.priority), StrField("qn", e.info.qualifiedName) ]
  {
    EmitScalarMembers(ScalarMembers(e));
  }

  lemma OptionalArrayTokens(key: string, xs: seq<string>)
    ensures EmitMembers(OptionalArray(key, xs)) ==
      if xs == [] then [] else [ArrayStart(key)] + Strings(xs) + [EndArray]
  {
  }

  /** The document is the scalar tokens, then each non-empty array, inside one object. */
  lemma DocumentLayout(e: ServiceEvent)
    ensures Document(e) ==
      [StartObject] + EmitMembers(ScalarMembers(e))
      + EmitMembers(OptionalArray("urls", e.info.urls))
      + EmitMembers(OptionalArray("hostAddresses", e.info.hostAddresses))
      + [EndObject]
  {
    var urls, hosts := OptionalArray("urls", e.info.urls), OptionalArray("hostAddresses", e.info.hostAddresses);
    EmitMembersAppend(ScalarMembers(e) + urls, hosts);
    EmitMembersAppend(ScalarMembers(e), urls);
  }

  /** Writes the ten scalar fields: the envelope's name and type, then the info's fields. */
  method WriteScalarFields(generator: Generator, event: ServiceEvent)
    modifies generator
    ensures generator.tokens == old(generator.tokens) + EmitMembers(ScalarMembers(event))
  {
    ghost var before := generator.tokens;
    generator.WriteStringField("name", event.name);
    generator.WriteStringField("type", event.serviceType);

    var info := event.info;

    generator.WriteStringField("application", info.application);
    generator.WriteStringField("domain", info.domain);
    generator.WriteStringField("key", info.key);
    generator.WriteStringField("protocol", info.protocol);
    generator.WriteStringField("name", info.name);
    generator.WriteNumberField("port", info.port);
    generator.WriteNumberField("priority", info.priority);
    generator.WriteStringField("qn", info.qualifiedName);
    ScalarTokens(event);
    assert generator.tokens == before + EmitMembers(ScalarMembers(event));
  }

  /** Writes an array field holding `xs`, one string per element, unless `xs` is empty. */
  method WriteArrayField(generator: Generator, key: string, xs: seq<string>)
    modifies generator
    ensures generator.tokens == old(generator.tokens) + EmitMembers(OptionalArray(key, xs))
  {
    ghost var before := generator.tokens;
    OptionalArrayTokens(key, xs);
    if |xs| > 0 {
      generator.WriteArrayFieldStart(key);
      WriteStrings(generator, xs);
      generator.WriteEndArray();
      assert generator.tokens == before + ([ArrayStart(key)] + Strings(xs) + [EndArray]);
    } else {
      assert EmitMembers(OptionalArray(key, xs)) == [];
    }
  }

  /** Writes each element of `xs` as one string, in order. */
  method WriteStrings(generator: Generator, xs: seq<string>)
    modifies generator
    ensures generator.tokens == old(generator.tokens) + Strings(xs)
  {
    ghost var before := generator.tokens;
    for i := 0 to |xs|
      invariant generator.tokens == before + Strings(xs[..i])
    {
      generator.WriteString(xs[i]);
      StringsSnoc(xs[..i], xs[i]);
      assert xs[..i + 1] == xs[..i] + [xs[i]];
    }
    assert xs[..|xs|] == xs;
  }

  /** Writes the report object of `e` through a fresh generator and returns what it wrote.
      Both layouts write the same token sequence. */
  method Serialize(event: ServiceEvent, usePrettyPrint: bool) returns (tokens: seq<Token>, pretty: bool)
    ensures tokens == Document(event)
    ensures pretty == usePrettyPrint
  {
    var generator := new Generator(usePrettyPrint);

    generator.WriteStartObject();
    assert generator.tokens == [StartObject];
    WriteScalarFields(generator, event);
    WriteArrayField(generator, "urls", event.info.urls);
    WriteArrayField(generator, "hostAddresses", event.info.hostAddresses);
    generator.WriteEndObject();
    tokens, pretty := generator.tokens, generator.pretty;

    DocumentLayout(event);
  }

  // ---------------------------------------------------------------------
  // What the document says.

  /** The document is one object: it opens with the only start token and
      closes with the only end token, with nothing after it. */
  lemma DocumentFraming(e: ServiceEvent)
    ensures var d := Document(e);
      && |d| >= 2 && d[0] == StartObject && d[|d| - 1] == EndObject
      && forall i :: 0 < i < |d| - 1 ==> d[i] != StartObject && d[i] != EndObject
  {
    EmitObjectFraming(Members(e));
  }

  /** The document reads back as exactly the members of the schema. */
  lemma DocumentMembers(e: ServiceEvent)
    ensures ParseObject(Document(e)) == Some(Members(e))
  {
    ParseObjectIff(Document(e), Members(e));
  }

  /** Field order: the ten scalar keys, then "urls" when there are urls,
      then "hostAddresses" when there are host addresses. */
  lemma SchemaOrder(e: ServiceEvent)
    ensures Keys(Members(e)) ==
      ScalarKeys
      + (if e.info.urls != [] then ["urls"] else [])
      + (if e.info.hostAddresses != [] then ["hostAddresses"] else [])
  {
    var urls, hosts := OptionalArray("urls", e.info.urls), OptionalArray("hostAddresses", e.info.hostAddresses);
    KeysAppend(ScalarMembers(e) + urls, hosts);
    KeysAppend(ScalarMembers(e), urls);
    ScalarMemberKeys(e);
  }

  lemma ScalarMemberKeys(e: ServiceEvent)
    ensures Keys(ScalarMembers(e)) == ScalarKeys
  {
    KeysAppend(EnvelopeMembers(e), InfoMembers(e.info));
    EnvelopeMemberKeys(e);
    InfoMemberKeys(e.info);
  }

  lemma EnvelopeMemberKeys(e: ServiceEvent)
    ensures Keys(EnvelopeMembers(e)) == EnvelopeKeys
  {
  }

  lemma InfoMemberKeys(info: ServiceInfo)
    ensures Keys(InfoMembers(info)) == InfoKeys
  {
  }

  /** "name" is written twice: the event's name first, the info's name second,
      even when the two are equal. */
  lemma NameWrittenTwice(e: ServiceEvent)
    ensures Lookup(Members(e), "name") ==
      [StringMember("name", e.name), StringMember("name", e.info.name)]
  {
    LookupScalarKey(e, "name");
    LookupScalarParts(e, "name");
    EnvelopeName(e);
    InfoName(e.info);
  }

  lemma EnvelopeName(e: ServiceEvent)
    ensures Lookup(EnvelopeMembers(e), "name") == [StringMember("name", e.name)]
  {
    LookupSingle(EnvelopeMembers(e), "name", 0);
  }

  lemma InfoName(info: ServiceInfo)
    ensures Lookup(InfoMembers(info), "name") == [StringMember("name", info.name)]
  {
    LookupSingle(InfoMembers(info), "name", 4);
  }

  /** A key that is not an array key is looked up among the scalar members alone. */
  lemma LookupScalarKey(e: ServiceEvent, k: string)
    requires k != "urls" && k != "hostAddresses"
    ensures Lookup(Members(e), k) == Lookup(ScalarMembers(e), k)
  {
    var arrays := OptionalArray("urls", e.info.urls) + OptionalArray("hostAddresses", e.info.hostAddresses);
    assert Members(e) == ScalarMembers(e) + arrays;
    LookupAppend(ScalarMembers(e), arrays, k);
    LookupAbsent(arrays, k);
  }

  /** A scalar key is looked up in the envelope and the info members separately. */
  lemma LookupScalarParts(e: ServiceEvent, k: string)
    ensures Lookup(ScalarMembers(e), k) == Lookup(EnvelopeMembers(e), k) + Lookup(InfoMembers(e.info), k)
  {
    LookupAppend(EnvelopeMembers(e), InfoMembers(e.info), k);
  }

  /** Lookups among the info members alone. */
  lemma ServiceKeyInfo(info: ServiceInfo)
    ensures Lookup(InfoMembers(info), "application") == [StringMember("application", info.application)]
    ensures Lookup(InfoMembers(info), "domain") == [StringMember("domain", info.domain)]
    ensures Lookup(InfoMembers(info), "key") == [StringMember("key", info.key)]
  {
    LookupSingle(InfoMembers(info), "application", 0);
    LookupSingle(InfoMembers(info), "domain", 1);
    LookupSingle(InfoMembers(info), "key", 2);
  }

  /** Lookups among the info members alone. */
  lemma EndpointInfo(info: ServiceInfo)
    ensures Lookup(InfoMembers(info), "protocol") == [StringMember("protocol", info.protocol)]
    ensures Lookup(InfoMembers(info), "port") == [NumberMember("port", info.port)]
    ensures Lookup(InfoMembers(info), "priority") == [NumberMember("priority", info.priority)]
    ensures Lookup(InfoMembers(info), "qn") == [StringMember("qn", info.qualifiedName)]
  {
    LookupSingle(InfoMembers(info), "protocol", 3);
    LookupSingle(InfoMembers(info), "port", 5);
    LookupSingle(InfoMembers(info), "priority", 6);
    LookupSingle(InfoMembers(info), "qn", 7);
  }

  /** The type, application, domain and key are each written once, with their values copied verbatim. */
  lemma IdentityFieldsVerbatim(e: ServiceEvent)
    ensures Lookup(Members(e), "type") == [StringMember("type", e.serviceType)]
    ensures Lookup(Members(e), "application") == [StringMember("application", e.info.application)]
    ensures Lookup(Members(e), "domain") == [StringMember("domain", e.info.domain)]
    ensures Lookup(Members(e), "key") == [StringMember("key", e.info.key)]
  {
    ServiceKeyInfo(e.info);
    LookupScalarKey(e, "type");
    LookupScalarParts(e, "type");
    LookupAbsent(InfoMembers(e.info), "type");
    LookupScalarKey(e, "application");
    LookupScalarParts(e, "application");
    LookupScalarKey(e, "domain");
    LookupScalarParts(e, "domain");
    LookupScalarKey(e, "key");
    LookupScalarParts(e, "key");
  }

  /** The protocol, port, priority and qualified name are each written once, verbatim. */
  lemma EndpointFieldsVerbatim(e: ServiceEvent)
    ensures Lookup(Members(e), "protocol") == [StringMember("protocol", e.info.protocol)]
    ensures Lookup(Members(e), "port") == [NumberMember("port", e.info.port)]
    ensures Lookup(Members(e), "priority") == [NumberMember("priority", e.info.priority)]
    ensures Lookup(Members(e), "qn") == [StringMember("qn", e.info.qualifiedName)]
  {
    EndpointInfo(e.info);
    LookupScalarKey(e, "protocol");
    LookupScalarParts(e, "protocol");
    LookupScalarKey(e, "port");
    LookupScalarParts(e, "port");
    LookupScalarKey(e, "priority");
    LookupScalarParts(e, "priority");
    LookupScalarKey(e, "qn");
    LookupScalarParts(e, "qn");
  }

  /** The "urls" array is present exactly when there are urls, and then holds them in order. */
  lemma UrlsField(e: ServiceEvent)
    ensures Lookup(Members(e), "urls") ==
      if e.info.urls == [] then [] else [ArrayMember("urls", e.info.urls)]
  {
    var ms := Members(e);
    if e.info.urls == [] {
      LookupAbsent(ms, "urls");
    } else {
      LookupSingle(ms, "urls", 10);
    }
  }

  /** The "hostAddresses" array is present exactly when there are host addresses,
      holds them in order, and comes after any "urls" array. */
  lemma HostAddressesField(e: ServiceEvent)
    ensures Lookup(Members(e), "hostAddresses") ==
      if e.info.hostAddresses == [] then [] else [ArrayMember("hostAddresses", e.info.hostAddresses)]
    ensures e.info.hostAddresses != [] ==>
      Members(e)[|Members(e)| - 1] == ArrayMember("hostAddresses", e.info.hostAddresses)
  {
    var ms := Members(e);
    if e.info.hostAddresses == [] {
      LookupAbsent(ms, "hostAddresses");
    } else {
      LookupSingle(ms, "hostAddresses", |ms| - 1);
    }
  }

  /** 12 tokens for the scalars and the object, plus the brackets and elements of each non-empty array. */
  lemma DocumentLength(e: ServiceEvent)
    ensures |Document(e)| ==
      12
      + (if e.info.urls == [] then 0 else |e.info.urls| + 2)
      + (if e.info.hostAddresses == [] then 0 else |e.info.hostAddresses| + 2)
  {
    DocumentLayout(e);
    ScalarTokens(e);
    OptionalArrayTokens("urls", e.info.urls);
    OptionalArrayTokens("hostAddresses", e.info.hostAddresses);
  }

  // ---------------------------------------------------------------------
  // Reading a report back: the inverse of serialization.

  predicate IsString(m: Member, k: string) {
    m.StringMember? && m.key == k
  }

  predicate IsNumber(m: Member, k: string) {
    m.NumberMember? && m.key == k
  }

  /** The elements of a leading non-empty array under `k`, and the members after it. */
  function TakeArray(ms: seq<Member>, k: string): (seq<string>, seq<Member>) {
    if ms != [] && ms[0].ArrayMember? && ms[0].key == k && ms[0].elements != []
    then (ms[0].elements, ms[1..])
    else ([], ms)
  }

  /** The event whose report object has members `ms`, if `ms` follows the schema. */
  function FromMembers(ms: seq<Member>): Option<ServiceEvent> {
    if |ms| < 10
      || !IsString(ms[0], "name") || !IsString(ms[1], "type")
      || !IsString(ms[2], "application") || !IsString(ms[3], "domain")
      || !IsString(ms[4], "key") || !IsString(ms[5], "protocol")
      || !IsString(ms[6], "name") || !IsNumber(ms[7], "port")
      || !IsNumber(ms[8], "priority") || !IsString(ms[9], "qn")
    then None
    else
      var (urls, afterUrls) := TakeArray(ms[10..], "urls");
      var (hosts, afterHosts) := TakeArray(afterUrls, "hostAddresses");
      if afterHosts != [] then None
      else Some(ServiceEvent(ms[0].value, ms[1].value,
        ServiceInfo(ms[2].value, ms[3].value, ms[4].value, ms[5].value, ms[6].value,
                    ms[7].number, ms[8].number, ms[9].value, urls, hosts)))
  }

  /** The event a report document describes, or None if it is not a report. */
  function Decode(d: seq<Token>): Option<ServiceEvent> {
    match ParseObject(d)
    case None => None
    case Some(ms) => FromMembers(ms)
  }

  lemma FromMembersOfSchema(e: ServiceEvent)
    ensures FromMembers(Members(e)) == Some(e)
  {
    var m := Members(e);
    assert m[10..] == OptionalArray("urls", e.info.urls) + OptionalArray("hostAddresses", e.info.hostAddresses);
  }

  lemma FromMembersOnlySchema(ms: seq<Member>)
    requires FromMembers(ms).Some?
    ensures ms == Members(FromMembers(ms).value)
  {
    var e := FromMembers(ms).value;
    var (urls, afterUrls) := TakeArray(ms[10..], "urls");
    assert ms[10..] == OptionalArray("urls", urls) + afterUrls;
    var (hosts, afterHosts) := TakeArray(afterUrls, "hostAddresses");
    assert afterUrls == OptionalArray("hostAddresses", hosts);
    assert ms[..10] == ScalarMembers(e);
    assert ms == ms[..10] + ms[10..];
  }

  /** The schema reader accepts exactly the member lists of reports. */
  lemma FromMembersIff(ms: seq<Member>, e: ServiceEvent)
    ensures FromMembers(ms) == Some(e) <==> ms == Members(e)
  {
    if ms == Members(e) {
      FromMembersOfSchema(e);
    }
    if FromMembers(ms) == Some(e) {
      FromMembersOnlySchema(ms);
    }
  }

  /** Round trip: a report document decodes to the event it was written for. */
  lemma DecodeDocument(e: ServiceEvent)
    ensures Decode(Document(e)) == Some(e)
  {
    DocumentMembers(e);
    FromMembersIff(Members(e), e);
  }

  /** Decoding accepts exactly the report documents: nothing else decodes to `e`. */
  lemma DecodeIff(d: seq<Token>, e: ServiceEvent)
    ensures Decode(d) == Some(e) <==> d == Document(e)
  {
    if d == Document(e) {
      DecodeDocument(e);
    }
    if Decode(d) == Some(e) {
      var ms := ParseObject(d).value;
      FromMembersIff(ms, e);
      ParseObjectIff(d, ms);
    }
  }

  /** Serialization loses nothing: different events give different documents. */
  lemma DocumentInjective(a: ServiceEvent, b: ServiceEvent)
    ensures Document(a) == Document(b) <==> a == b
  {
    DecodeDocument(a);
    DecodeDocument(b);
  }

  // ---------------------------------------------------------------------
  // File mode: one pretty-printed document per file, named after the key.

  const FileNamePrefix: string := "zeroconf_"
  const FileNameSuffix: string := ".json"

  /** The file a report for `e` is written to. */
  function ReportFileName(e: ServiceEvent): (name: string)
    ensures |name| == |FileNamePrefix| + |e.info.key| + |FileNameSuffix|
    ensures name[..|FileNamePrefix|] == FileNamePrefix
    ensures name[|name| - |FileNameSuffix|..] == FileNameSuffix
  {
    FileNamePrefix + e.info.key + FileNameSuffix
  }

  /** The service key a report file name was built from. */
  function KeyOfFileName(name: string): Option<string> {
    var p, s := |FileNamePrefix|, |FileNameSuffix|;
    if |name| < p + s || name[..p] != FileNamePrefix || name[|name| - s..] != FileNameSuffix
    then None
    else Some(name[p..|name| - s])
  }

  lemma KeyOfReportFileName(e: ServiceEvent)
    ensures KeyOfFileName(ReportFileName(e)) == Some(e.info.key)
  {
    var name := ReportFileName(e);
    assert name[|FileNamePrefix|..|name| - |FileNameSuffix|] == e.info.key;
  }

  /** Two reports get the same file name exactly when their services have the same key. */
  lemma ReportFileNameCollision(a: ServiceEvent, b: ServiceEvent)
    ensures ReportFileName(a) == ReportFileName(b) <==> a.info.key == b.info.key
  {
    KeyOfReportFileName(a);
    KeyOfReportFileName(b);
  }

  /** One write of file mode: the path, the layout and the document written there. */
  datatype FileWrite = FileWrite(path: string, pretty: bool, document: seq<Token>)

  /** File mode writes the report pretty-printed to the file named after the key. */
  method WriteReportToFile(event: ServiceEvent) returns (w: FileWrite)
    ensures w.path == ReportFileName(event)
    ensures w.pretty
    ensures Decode(w.document) == Some(event)
  {
    var key := event.info.key;
    var path := FileNamePrefix + key + FileNameSuffix;
    var tokens, pretty := Serialize(event, true);
    DecodeDocument(event);
    w := FileWrite(path, pretty, tokens);
  }

  // ---------------------------------------------------------------------
  // Stream mode: one compact document per line on standard output.

  /** What is written to standard output: a document in the given layout, or raw text. */
  datatype StdoutWrite = DocumentWrite(pretty: bool, tokens: seq<Token>) | Text(text: string)

  /** The writes for one event: its compact document, which decodes to the event, then a newline. */
  function StdoutReport(e: ServiceEvent): (out: seq<StdoutWrite>)
    ensures |out| == 2
    ensures out[0].DocumentWrite? && !out[0].pretty
    ensures out[1] == Text("\n")
  {
    [DocumentWrite(false, Document(e)), Text("\n")]
  }

  method WriteReportToStdout(event: ServiceEvent) returns (out: seq<StdoutWrite>)
    ensures out == StdoutReport(event)
  {
    var tokens, pretty := Serialize(event, false);
    out := [DocumentWrite(pretty, tokens)];
    out := out + [Text("\n")];
  }

  /** Standard output after draining the stored events, in list order. */
  function DrainToStdout(events: seq<ServiceEvent>): (out: seq<StdoutWrite>)
    ensures |out| == 2 * |events|
  {
    if events == [] then [] else StdoutReport(events[0]) + DrainToStdout(events[1..])
  }

  lemma {:induction false} DrainAt(events: seq<ServiceEvent>, i: int)
    requires 0 <= i < |events|
    ensures 2 * i + 1 < |DrainToStdout(events)|
    ensures DrainToStdout(events)[2 * i] == DocumentWrite(false, Document(events[i]))
    ensures DrainToStdout(events)[2 * i + 1] == Text("\n")
  {
    var d, head, rest := DrainToStdout(events), StdoutReport(events[0]), DrainToStdout(events[1..]);
    assert d == head + rest;
    if i == 0 {
      assert d[0] == head[0] && d[1] == head[1];
    } else {
      DrainAt(events[1..], i - 1);
      assert d[2 * i] == rest[2 * (i - 1)];
      assert d[2 * i + 1] == rest[2 * (i - 1) + 1];
      assert events[i] == events[1..][i - 1];
    }
  }

  /** Event i is written as the document at position 2i followed by a newline at 2i+1. */
  lemma DrainLayout(events: seq<ServiceEvent>)
    ensures |DrainToStdout(events)| == 2 * |events|
    ensures forall i :: 0 <= i < |events| ==>
      DrainToStdout(events)[2 * i] == DocumentWrite(false, Document(events[i]))
      && DrainToStdout(events)[2 * i + 1] == Text("\n")
  {
    forall i | 0 <= i < |events|
      ensures DrainToStdout(events)[2 * i] == DocumentWrite(false, Document(events[i]))
      ensures DrainToStdout(events)[2 * i + 1] == Text("\n")
    {
      DrainAt(events, i);
    }
  }

  lemma {:induction false} DrainAppend(a: seq<ServiceEvent>, b: seq<ServiceEvent>)
    ensures DrainToStdout(a + b) == DrainToStdout(a) + DrainToStdout(b)
  {
    if a == [] {
      assert a + b == b;
    } else {
      assert (a + b)[0] == a[0];
      assert (a + b)[1..] == a[1..] + b;
      DrainAppend(a[1..], b);
    }
  }

  /** The documents of a standard-output stream, in order. */
  function Documents(out: seq<StdoutWrite>): seq<seq<Token>> {
    if out == [] then []
    else (if out[0].DocumentWrite? then [out[0].tokens] else []) + Documents(out[1..])
  }

  lemma {:induction false} DocumentsAppend(a: seq<StdoutWrite>, b: seq<StdoutWrite>)
    ensures Documents(a + b) == Documents(a) + Documents(b)
  {
    if a == [] {
      assert a + b == b;
    } else {
      assert (a + b)[0] == a[0];
      assert (a + b)[1..] == a[1..] + b;
      DocumentsAppend(a[1..], b);
    }
  }

  lemma DocumentsOfStdoutReport(e: ServiceEvent)
    ensures Documents(StdoutReport(e)) == [Document(e)]
  {
    var r := StdoutReport(e);
    var tail := r[1..];
    assert tail == [Text("\n")];
    assert tail[1..] == [];
    assert Documents(tail) == [];
    assert Documents(r) == [Document(e)] + Documents(tail);
  }

  lemma {:induction false} DrainDocumentsLength(events: seq<ServiceEvent>)
    ensures |Documents(DrainToStdout(events))| == |events|
  {
    if events != [] {
      DrainDocumentsLength(events[1..]);
      DocumentsAppend(StdoutReport(events[0]), DrainToStdout(events[1..]));
      DocumentsOfStdoutReport(events[0]);
    }
  }

  lemma {:induction false} DrainDocumentAt(events: seq<ServiceEvent>, i: int)
    requires 0 <= i < |events|
    ensures i < |Documents(DrainToStdout(events))|
    ensures Documents(DrainToStdout(events))[i] == Document(events[i])
  {
    DrainDocumentsLength(events);
    var rest := DrainToStdout(events[1..]);
    DocumentsAppend(StdoutReport(events[0]), rest);
    DocumentsOfStdoutReport(events[0]);
    if i > 0 {
      DrainDocumentAt(events[1..], i - 1);
      assert events[i] == events[1..][i - 1];
    }
  }

  /** Reading the drained stream back document by document gives one document per
      stored event, in list order, each decoding to its event. */
  lemma DrainDocuments(events: seq<ServiceEvent>)
    ensures |Documents(DrainToStdout(events))| == |events|
    ensures forall i :: 0 <= i < |events| ==> Decode(Documents(DrainToStdout(events))[i]) == Some(events[i])
  {
    DrainDocumentsLength(events);
    forall i | 0 <= i < |events| ensures Decode(Documents(DrainToStdout(events))[i]) == Some(events[i]) {
      DrainDocumentAt(events, i);
      DecodeDocument(events[i]);
    }
  }
}
