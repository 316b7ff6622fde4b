/**
 An abstract JSON token stream, as a streaming generator emits it.

 A document is a sequence of tokens; the object it denotes is a sequence of
 members (key/value pairs in emission order).  Members are kept in a sequence,
 not a map, so that a key written twice stays visible twice.  The module gives
 the emitter (members to tokens), its exact inverse (tokens to members) and
 a token-level generator class whose methods append one token each.
 */
module Json {

  datatype Option<+T> = None | Some(value: T)

  /** One event of a streaming JSON generator. */
  datatype Token =
    | StartObject
    | EndObject
    | StrField(key: string, value: string)   // "key": "value"
    | NumField(key: string, number: int)     // "key": number
    | ArrayStart(key: string)                // "key": [
    | Str(s: string)                         // a string element of an array
    | EndArray                               // ]

  /** One member of a flat JSON object: a string, a number or an array of strings. */
  datatype Member =
    | StringMember(key: string, value: string)
    | NumberMember(key: string, number: int)
    | ArrayMember(key: string, elements: seq<string>)

  /** The string elements of an array, one token each, in order. */
  function Strings(xs: seq<string>): (r: seq<Token>)
    ensures |r| == |xs|
    ensures forall i :: 0 <= i < |xs| ==> r[i] == Str(xs[i])
  {
    if xs == [] then [] else [Str(xs[0])] + Strings(xs[1..])
  }

  lemma StringsSnoc(xs: seq<string>, x: string)
    ensures Strings(xs + [x]) == Strings(xs) + [Str(x)]
  {
    var l, r := Strings(xs + [x]), Strings(xs) + [Str(x)];
    assert |l| == |r|;
    forall i | 0 <= i < |l| ensures l[i] == r[i] {
      assert (xs + [x])[i] == if i < |xs| then xs[i] else x;
    }
  }

  function EmitMember(m: Member): seq<Token> {
    match m
    case StringMember(k, v) => [StrField(k, v)]
    case NumberMember(k, n) => [NumField(k, n)]
    case ArrayMember(k, xs) => [ArrayStart(k)] + Strings(xs) + [EndArray]
  }

  function EmitMembers(ms: seq<Member>): seq<Token> {
    if ms == [] then [] else EmitMember(ms[0]) + EmitMembers(ms[1..])
  }

  /** The tokens of an object with members `ms`, in order. */
  function EmitObject(ms: seq<Member>): seq<Token> {
    [StartObject] + EmitMembers(ms) + [EndObject]
  }

  predicate IsDelimiter(t: Token) {
    t.StartObject? || t.EndObject?
  }

  lemma {:induction false} EmitMembersAppend(a: seq<Member>, b: seq<Member>)
    ensures EmitMembers(a + b) == EmitMembers(a) + EmitMembers(b)
  {
    if a == [] {
      assert a + b == b;
    } else {
      assert (a + b)[0] == a[0];
      assert (a + b)[1..] == a[1..] + b;
      EmitMembersAppend(a[1..], b);
    }
  }

  lemma EmitMemberNoDelimiter(m: Member)
    ensures forall i :: 0 <= i < |EmitMember(m)| ==> !IsDelimiter(EmitMember(m)[i])
  {
    if m.ArrayMember? {
      var h := EmitMember(m);
      forall i | 0 <= i < |h| ensures !IsDelimiter(h[i]) {
        if 0 < i < |h| - 1 {
          assert h[i] == Strings(m.elements)[i - 1];
        }
      }
    }
  }

  /** Object delimiters occur only around the members, never inside them. */
  lemma {:induction false} EmitMembersNoDelimiter(ms: seq<Member>)
    ensures forall i :: 0 <= i < |EmitMembers(ms)| ==> !IsDelimiter(EmitMembers(ms)[i])
  {
    if ms != [] {
      EmitMembersNoDelimiter(ms[1..]);
      EmitMemberNoDelimiter(ms[0]);
      var h, t := EmitMember(ms[0]), EmitMembers(ms[1..]);
      assert EmitMembers(ms) == h + t;
      forall i | 0 <= i < |h + t| ensures !IsDelimiter((h + t)[i]) {
        if i < |h| {
          assert (h + t)[i] == h[i];
        } else {
          assert (h + t)[i] == t[i - |h|];
        }
      }
    }
  }

  /** An emitted object is framed by exactly one start and one end delimiter. */
  lemma EmitObjectFraming(ms: seq<Member>)
    ensures var t := EmitObject(ms);
      && |t| >= 2 && t[0] == StartObject && t[|t| - 1] == EndObject
      && forall i :: 0 < i < |t| - 1 ==> !IsDelimiter(t[i])
  {
    EmitMembersNoDelimiter(ms);
    var t := EmitObject(ms);
    assert forall i :: 0 < i < |t| - 1 ==> t[i] == EmitMembers(ms)[i - 1];
  }

  // ---------------------------------------------------------------------
  // Reading a token stream back.

  /** The string elements of an array up to and including its EndArray: the elements and what follows. */
  function ParseArray(t: seq<Token>): (r: Option<(seq<string>, seq<Token>)>)
    ensures r.Some? ==> |r.value.1| < |t|
  {
    if t == [] then None
    else match t[0]
      case EndArray => Some(([], t[1..]))
      case Str(s) =>
        (match ParseArray(t[1..])
         case None => None
         case Some((xs, rest)) => Some(([s] + xs, rest)))
      case _ => None
  }

  function Prepend(m: Member, r: Option<seq<Member>>): Option<seq<Member>> {
    match r
    case None => None
    case Some(ms) => Some([m] + ms)
  }

  /** The members of an object body, or None when the tokens are not a sequence of members. */
  function ParseMembers(t: seq<Token>): Option<seq<Member>>
    decreases |t|
  {
    if t == [] then Some([])
    else match t[0]
      case StrField(k, v) => Prepend(StringMember(k, v), ParseMembers(t[1..]))
      case NumField(k, n) => Prepend(NumberMember(k, n), ParseMembers(t[1..]))
      case ArrayStart(k) =>
        (match ParseArray(t[1..])
         case None => None
         case Some((xs, rest)) => Prepend(ArrayMember(k, xs), ParseMembers(rest)))
      case _ => None
  }

  function ParseObject(t: seq<Token>): Option<seq<Member>> {
    if |t| < 2 || t[0] != StartObject || t[|t| - 1] != EndObject then None
    else ParseMembers(t[1..|t| - 1])
  }

  lemma {:induction false} ParseArrayStrings(xs: seq<string>, rest: seq<Token>)
    ensures ParseArray(Strings(xs) + [EndArray] + rest) == Some((xs, rest))
  {
    var t := Strings(xs) + [EndArray] + rest;
    if xs == [] {
      assert t == [EndArray] + rest;
    } else {
      assert t[0] == Str(xs[0]);
      assert t[1..] == Strings(xs[1..]) + [EndArray] + rest;
      ParseArrayStrings(xs[1..], rest);
      assert [xs[0]] + xs[1..] == xs;
    }
  }

  lemma {:induction false} ParseArrayExact(t: seq<Token>)
    requires ParseArray(t).Some?
    ensures var (xs, rest) := ParseArray(t).value; t == Strings(xs) + [EndArray] + rest
  {
    if t[0].Str? {
      ParseArrayExact(t[1..]);
      var (xs, rest) := ParseArray(t[1..]).value;
      assert t == [t[0]] + t[1..];
    } else {
      assert t == [t[0]] + t[1..];
    }
  }

  lemma {:induction false} ParseEmitMembers(ms: seq<Member>)
    ensures ParseMembers(EmitMembers(ms)) == Some(ms)
  {
    if ms != [] {
      var m, tail := ms[0], EmitMembers(ms[1..]);
      var t := EmitMember(m) + tail;
      assert EmitMembers(ms) == t;
      ParseEmitMembers(ms[1..]);
      assert [m] + ms[1..] == ms;
      ParseEmitMember(m, tail);
    }
  }

  lemma ParseEmitMember(m: Member, tail: seq<Token>)
    ensures ParseMembers(EmitMember(m) + tail) == Prepend(m, ParseMembers(tail))
  {
    var t := EmitMember(m) + tail;
    match m
    case StringMember(k, v) =>
      assert t[0] == StrField(k, v) && t[1..] == tail;
    case NumberMember(k, n) =>
      assert t[0] == NumField(k, n) && t[1..] == tail;
    case ArrayMember(k, xs) =>
      assert t[0] == ArrayStart(k);
      assert t[1..] == Strings(xs) + [EndArray] + tail;
      ParseArrayStrings(xs, tail);
  }

  lemma EmitMembersCons(m: Member, ms: seq<Member>)
    ensures EmitMembers([m] + ms) == EmitMember(m) + EmitMembers(ms)
  {
    var l := [m] + ms;
    assert l[0] == m && l[1..] == ms;
  }

  lemma {:induction false} ParseMembersExact(t: seq<Token>)
    requires ParseMembers(t).Some?
    ensures t == EmitMembers(ParseMembers(t).value)
    decreases |t|
  {
    if t != [] {
      var ms := ParseMembers(t).value;
      match t[0]
      case StrField(k, v) =>
        var m, tail := StringMember(k, v), ParseMembers(t[1..]).value;
        assert ms == [m] + tail;
        ParseMembersExact(t[1..]);
        EmitMembersCons(m, tail);
        assert t == EmitMember(m) + t[1..];
      case NumField(k, n) =>
        var m, tail := NumberMember(k, n), ParseMembers(t[1..]).value;
        assert ms == [m] + tail;
        ParseMembersExact(t[1..]);
        EmitMembersCons(m, tail);
        assert t == EmitMember(m) + t[1..];
      case ArrayStart(k) =>
        var (xs, rest) := ParseArray(t[1..]).value;
        var m, tail := ArrayMember(k, xs), ParseMembers(rest).value;
        assert ms == [m] + tail;
        ParseArrayExact(t[1..]);
        ParseMembersExact(rest);
        EmitMembersCons(m, tail);
        assert t == [t[0]] + t[1..];
        assert t == EmitMember(m) + rest;
    }
  }

  /** Parsing is the exact inverse of emitting: a token sequence reads as
      the members `ms` exactly when it is the emission of `ms`. */
  lemma ParseObjectIff(t: seq<Token>, ms: seq<Member>)
    ensures ParseObject(t) == Some(ms) <==> t == EmitObject(ms)
  {
    if t == EmitObject(ms) {
      ParseEmitMembers(ms);
      assert t[1..|t| - 1] == EmitMembers(ms);
    }
    if ParseObject(t) == Some(ms) {
      ParseMembersExact(t[1..|t| - 1]);
      assert t == [t[0]] + t[1..|t| - 1] + [t[|t| - 1]];
    }
  }

  // ---------------------------------------------------------------------
  // What a reader of the object sees under one key.

  /** The keys of the members, one per member, in member order. */
  function Keys(ms: seq<Member>): (r: seq<string>)
    ensures |r| == |ms|
    ensures forall i :: 0 <= i < |ms| ==> r[i] == ms[i].key
  {
    if ms == [] then [] else [ms[0].key] + Keys(ms[1..])
  }

  lemma {:induction false} KeysAppend(a: seq<Member>, b: seq<Member>)
    ensures Keys(a + b) == Keys(a) + Keys(b)
  {
    if a == [] {
      assert a + b == b;
    } else {
      assert (a + b)[0] == a[0];
      assert (a + b)[1..] == a[1..] + b;
      KeysAppend(a[1..], b);
    }
  }

  /** Every member written under key `k`, in order (a key may be written more than once). */
  function Lookup(ms: seq<Member>, k: string): seq<Member> {
    if ms == [] then []
    else (if ms[0].key == k then [ms[0]] else []) + Lookup(ms[1..], k)
  }

  lemma {:induction false} LookupAppend(a: seq<Member>, b: seq<Member>, k: string)
    ensures Lookup(a + b, k) == Lookup(a, k) + Lookup(b, k)
  {
    if a == [] {
      assert a + b == b;
    } else {
      var hit := if a[0].key == k then [a[0]] else [];
      assert (a + b)[0] == a[0];
      assert (a + b)[1..] == a[1..] + b;
      assert Lookup(a + b, k) == hit + Lookup(a[1..] + b, k);
      LookupAppend(a[1..], b, k);
      assert Lookup(a, k) == hit + Lookup(a[1..], k);
    }
  }

  lemma {:induction false} LookupAbsent(ms: seq<Member>, k: string)
    requires forall j :: 0 <= j < |ms| ==> ms[j].key != k
    ensures Lookup(ms, k) == []
  {
    if ms != [] {
      LookupAbsent(ms[1..], k);
    }
  }

  /** A key written at exactly one position is looked up as that one member. */
  lemma LookupSingle(ms: seq<Member>, k: string, i: nat)
    requires i < |ms| && ms[i].key == k
    requires forall j :: 0 <= j < |ms| && j != i ==> ms[j].key != k
    ensures Lookup(ms, k) == [ms[i]]
  {
    assert ms == ms[..i] + [ms[i]] + ms[i + 1..];
    LookupAppend(ms[..i] + [ms[i]], ms[i + 1..], k);
    LookupAppend(ms[..i], [ms[i]], k);
    LookupAbsent(ms[..i], k);
    LookupAbsent(ms[i + 1..], k);
  }

  /** Members that are not arrays emit one token each. */
  lemma {:induction false} EmitScalarMembers(ms: seq<Member>)
    requires forall i :: 0 <= i < |ms| ==> !ms[i].ArrayMember?
    ensures |EmitMembers(ms)| == |ms|
    ensures forall i :: 0 <= i < |ms| ==> EmitMembers(ms)[i] == EmitMember(ms[i])[0]
  {
    if ms != [] {
      EmitScalarMembers(ms[1..]);
      assert forall i :: 1 <= i < |ms| ==> ms[1..][i - 1] == ms[i];
    }
  }

  // ---------------------------------------------------------------------
  // Token-level model of a streaming generator.

  /** A generator writing to a target stream; `tokens` is everything written so far.
      The pretty-printing choice affects only the layout of the bytes, which this
      model does not represent. */
  class Generator {
    const pretty: bool
    var tokens: seq<Token>

    constructor (pretty: bool)
      ensures this.pretty == pretty && tokens == []
    {
      this.pretty := pretty;
      tokens := [];
    }

    method WriteStartObject()
      modifies this
      ensures tokens == old(tokens) + [StartObject]
    {
      tokens := tokens + [StartObject];
    }

    method WriteEndObject()
      modifies this
      ensures tokens == old(tokens) + [EndObject]
    {
      tokens := tokens + [EndObject];
    }

    method WriteStringField(key: string, value: string)
      modifies this
      ensures tokens == old(tokens) + [StrField(key, value)]
    {
      tokens := tokens + [StrField(key, value)];
    }

    method WriteNumberField(key: string, number: int)
      modifies this
      ensures tokens == old(tokens) + [NumField(key, number)]
    {
      tokens := tokens + [NumField(key, number)];
    }

    method WriteArrayFieldStart(key: string)
      modifies this
      ensures tokens == old(tokens) + [ArrayStart(key)]
    {
      tokens := tokens + [ArrayStart(key)];
    }

    method WriteString(s: string)
      modifies this
      ensures tokens == old(tokens) + [Str(s)]
    {
      tokens := tokens + [Str(s)];
    }

    method WriteEndArray()
      modifies this
      ensures tokens == old(tokens) + [EndArray]
    {
      tokens := tokens + [EndArray];
    }
  }
}
