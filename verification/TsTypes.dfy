/**
 The translation of JSON Schema nodes to TypeScript type expressions
 (contract/scripts/export_ts_types.py), as text, together with a reader of that text.
 */
module TsTypes {
  import opened Basics

  // ---------------------------------------------------------------- JSON values and schemas

  datatype Json = JNull | JBool(b: bool) | JNum(n: real) | JStr(text: string)
                | JArr(items: seq<Json>) | JObj(members: seq<Member>)
  datatype Member = Member(key: string, value: Json)

  /** What Python's `str` makes of a number: digits, signs, a point, `e`, `inf` or `nan`. */
  type Numeral = s: string | forall c :: c in s ==> NumeralChar(c)

  predicate NumeralChar(c: char) {
    '0' <= c <= '9' || 'a' <= c <= 'z' || c == '+' || c == '-' || c == '.'
  }

  /** A value of `const` or `enum`; a number comes with its text. */
  datatype Scalar = SNull | SBool(b: bool) | SNum(n: real, numeral: Numeral) | SStr(text: string)

  datatype Subschemas = NoList | List(schemas: seq<Schema>)
  datatype Subschema = NoSchema | Sub(schema: Schema)
  datatype Extra = NoExtra | Flag(allowed: bool) | ExtraSchema(schema: Schema)
  datatype Types = NoType | OneType(name: string) | TypeList(names: seq<string>)

  /** A schema node with the keywords that the translation looks at. */
  datatype Schema = Schema(
    ref: Option<string>, anyOf: Subschemas, oneOf: Subschemas, constant: Option<Scalar>,
    enumeration: Option<seq<Scalar>>,
    types: Types, items: Subschema, additionalProperties: Extra, format: Option<string>)

  const EMPTY_SCHEMA := Schema(None, NoList, NoList, None, None, NoType, NoSchema, NoExtra, None)

  function AsJson(c: Scalar): Json {
    match c
    case SNull => JNull
    case SBool(b) => JBool(b)
    case SNum(n, _) => JNum(n)
    case SStr(text) => JStr(text)
  }

  /** What values a `$ref` or a type name stands for. */
  type Denotation = (string, Json) -> bool

  predicate HasType(name: string, v: Json) {
    match v
    case JNull => name == "null"
    case JBool(_) => name == "boolean"
    case JNum(n) => name == "number" || (name == "integer" && n.Floor as real == n)
    case JStr(_) => name == "string"
    case JArr(_) => name == "array"
    case JObj(_) => name == "object"
  }

  /** Validity, JSON Schema draft 2020-12: every keyword present must hold (Core, sections
      8.2.3, 10.2.1.2, 10.2.1.3, 10.3.1.2, 10.3.2.3; Validation, section 6.1). `format` only annotates. */
  ghost predicate Valid(s: Schema, v: Json, refs: Denotation)
    decreases s, 1
  {
    && ValidHere(s, v, refs)
    && (s.anyOf.List? ==> exists i :: 0 <= i < |s.anyOf.schemas| && Valid(s.anyOf.schemas[i], v, refs))
    && (s.oneOf.List? ==> exists i :: ExactlyAt(s.oneOf.schemas, i, v, refs))
    && (s.items.Sub? && v.JArr? ==> forall i :: 0 <= i < |v.items| ==> Valid(s.items.schema, v.items[i], refs))
    && (s.additionalProperties.ExtraSchema? && v.JObj? ==>
          forall i :: 0 <= i < |v.members| ==> Valid(s.additionalProperties.schema, v.members[i].value, refs))
  }

  /** Subschema number `i`, and no other, accepts the value. */
  ghost predicate ExactlyAt(schemas: seq<Schema>, i: int, v: Json, refs: Denotation)
    decreases schemas, 0
  {
    && 0 <= i < |schemas| && Valid(schemas[i], v, refs)
    && forall j :: 0 <= j < |schemas| && j != i ==> !Valid(schemas[j], v, refs)
  }

  /** The keywords that do not apply a subschema. */
  ghost predicate ValidHere(s: Schema, v: Json, refs: Denotation) {
    && (s.ref.Some? ==> refs(s.ref.value, v))
    && (s.constant.Some? ==> v == AsJson(s.constant.value))
    && (s.enumeration.Some? ==> exists c :: c in s.enumeration.value && v == AsJson(c))
    && (s.types.OneType? ==> HasType(s.types.name, v))
    && (s.types.TypeList? ==> exists name :: name in s.types.names && HasType(name, v))
    && (s.additionalProperties == Flag(false) && v.JObj? ==> v.members == [])
  }

  // ---------------------------------------------------------------- the translation to text

  function AfterLastSlash(ref: string): string {
    if '/' !in ref then ref
    else if ref[0] == '/' && '/' !in ref[1..] then ref[1..]
    else AfterLastSlash(ref[1..])
  }

  /** A reference names what stands after its last slash. */
  lemma {:induction false} ReferenceNames(path: string, name: string)
    requires '/' !in name
    ensures AfterLastSlash(name) == name && AfterLastSlash(path + "/" + name) == name
    decreases |path|
  {
    var ref := path + "/" + name;
    assert ref[|path|] == '/';
    if path == "" {
      assert ref[1..] == name;
    } else {
      assert ref[1..] == path[1..] + "/" + name;
      assert ref[1..][|path| - 1] == '/';
      ReferenceNames(path[1..], name);
    }
  }

  /** Python's `str` of a constant. */
  function Shown(c: Scalar): string {
    match c
    case SNull => "None"
    case SBool(b) => if b then "True" else "False"
    case SNum(_, numeral) => numeral
    case SStr(text) => text
  }

  function Quoted(text: string): string { "\"" + text + "\"" }

  function AllQuoted(cs: seq<Scalar>): (r: seq<string>)
    ensures |r| == |cs| && forall i :: 0 <= i < |cs| ==> r[i] == Quoted(Shown(cs[i]))
  {
    seq(|cs|, i requires 0 <= i < |cs| => Quoted(Shown(cs[i])))
  }

  function Primitive(name: string): string {
    if name == "string" then "string"
    else if name == "integer" || name == "number" then "number"
    else if name == "boolean" then "boolean"
    else if name == "null" then "null"
    else "unknown"
  }

  function AllPrimitive(names: seq<string>): (r: seq<string>)
    ensures |r| == |names| && forall i :: 0 <= i < |names| ==> r[i] == Primitive(names[i])
  {
    seq(|names|, i requires 0 <= i < |names| => Primitive(names[i]))
  }

  /** `" | ".join(parts)`. */
  function Join(parts: seq<string>): string {
    if parts == [] then "" else if |parts| == 1 then parts[0] else parts[0] + (" | " + Join(parts[1..]))
  }

  /** `list(dict.fromkeys(parts))`: each string once, at its first place. */
  function Dedup(parts: seq<string>): (r: seq<string>)
    ensures forall t :: t in r <==> t in parts
  {
    if parts == [] then []
    else
      var init, last := parts[..|parts| - 1], parts[|parts| - 1];
      assert parts == init + [last];
      Dedup(init) + (if last in init then [] else [last])
  }

  function ArrayOf(inner: string): string {
    if '|' in inner then "(" + inner + ")[]" else inner + "[]"
  }

  function RecordOf(inner: string): string { "Record<string, " + inner + ">" }

  /** `ts_type`. */
  function TsType(s: Schema): string
    decreases s, 1
  {
    if s.ref.Some? then AfterLastSlash(s.ref.value)
    else if s.anyOf.List? then Join(Dedup(TsTypes(s.anyOf.schemas)))
    else if s.oneOf.List? then Join(Dedup(TsTypes(s.oneOf.schemas)))
    else if s.constant.Some? then Quoted(Shown(s.constant.value))
    else if s.enumeration.Some? then Join(AllQuoted(s.enumeration.value))
    else if s.types == OneType("array") then
      ArrayOf(if s.items.Sub? && s.items.schema != EMPTY_SCHEMA then TsType(s.items.schema) else "unknown")
    else if s.types == OneType("object") then
      RecordOf(if s.additionalProperties.ExtraSchema? then TsType(s.additionalProperties.schema) else "unknown")
    else match s.types
      case TypeList(names) => Join(AllPrimitive(names))
      case OneType(name) => if name == "string" && s.format == Some("date-time") then "string" else Primitive(name)
      case NoType => "unknown"
  }

  function TsTypes(schemas: seq<Schema>): (r: seq<string>)
    ensures |r| == |schemas| && forall i :: 0 <= i < |r| ==> r[i] == TsType(schemas[i])
    decreases schemas, 0
  {
    seq(|schemas|, i requires 0 <= i < |schemas| => TsType(schemas[i]))
  }

  // ---------------------------------------------------------------- TypeScript types and their values

  /** A type is a union of atoms. */
  datatype Atom = Name(id: string) | Literal(text: string) | Array(element: seq<Atom>) | Record(element: seq<Atom>)
  type Ts = seq<Atom>

  const BUILTINS := {"string", "number", "boolean", "null", "unknown"}

  ghost predicate Inhabits(ts: Ts, v: Json, names: Denotation)
    decreases ts, 1
  {
    exists i :: 0 <= i < |ts| && InhabitsAtom(ts[i], v, names)
  }

  ghost predicate InhabitsAtom(a: Atom, v: Json, names: Denotation)
    decreases a, 0
  {
    match a
    case Name(id) =>
      if id == "unknown" then true
      else if id in BUILTINS then HasType(id, v)
      else names(id, v)
    case Literal(text) => v == JStr(text)
    case Array(element) => v.JArr? && forall i :: 0 <= i < |v.items| ==> Inhabits(element, v.items[i], names)
    case Record(element) => v.JObj? && forall i :: 0 <= i < |v.members| ==> Inhabits(element, v.members[i].value, names)
  }

  // ---------------------------------------------------------------- reading type expressions

  datatype Parsed = Parsed(ts: Ts, rest: string)

  predicate IdentifierChar(c: char) {
    'a' <= c <= 'z' || 'A' <= c <= 'Z' || '0' <= c <= '9' || c == '_' || c == '$'
  }

  predicate LiteralChar(c: char) {
    c != '"' && c != '\\' && c != '\n' && c != '\r'
  }

  const RECORD := "Record<string, "

  /** How many characters at the front satisfy the test. */
  function Span(s: string, p: char -> bool): (n: nat)
    ensures n <= |s| && (forall i :: 0 <= i < n ==> p(s[i])) && (n < |s| ==> !p(s[n]))
  {
    if s != [] && p(s[0]) then 1 + Span(s[1..], p) else 0
  }

  /** union := postfix (" | " postfix)* */
  function ParseUnion(s: string): (r: Option<Parsed>)
    ensures r.Some? ==> |r.value.rest| < |s|
    decreases |s|, 2
  {
    match ParsePostfix(s)
    case None => None
    case Some(p) =>
      if " | " <= p.rest then
        match ParseUnion(p.rest[3..])
        case None => None
        case Some(q) => Some(Parsed(p.ts + q.ts, q.rest))
      else Some(p)
  }

  /** postfix := primary "[]"* */
  function ParsePostfix(s: string): (r: Option<Parsed>)
    ensures r.Some? ==> |r.value.rest| < |s|
    decreases |s|, 1
  {
    match ParsePrimary(s)
    case None => None
    case Some(p) => Some(Brackets(p.ts, p.rest))
  }

  function Brackets(ts: Ts, rest: string): (r: Parsed)
    ensures |r.rest| <= |rest|
    decreases |rest|
  {
    if "[]" <= rest then Brackets([Array(ts)], rest[2..]) else Parsed(ts, rest)
  }

  /** primary := "(" union ")" | "Record<string, " union ">" | a string literal | an identifier */
  function ParsePrimary(s: string): (r: Option<Parsed>)
    ensures r.Some? ==> |r.value.rest| < |s|
    decreases |s|, 0
  {
    if s == [] then None
    else if s[0] == '(' then
      match ParseUnion(s[1..])
      case None => None
      case Some(p) => if ")" <= p.rest then Some(Parsed(p.ts, p.rest[1..])) else None
    else if RECORD <= s then
      match ParseUnion(s[|RECORD|..])
      case None => None
      case Some(p) => if ">" <= p.rest then Some(Parsed([Record(p.ts)], p.rest[1..])) else None
    else if s[0] == '"' then
      var n := Span(s[1..], LiteralChar);
      if n + 1 < |s| && s[n + 1] == '"' then Some(Parsed([Literal(s[1..n + 1])], s[n + 2..])) else None
    else
      var n := Span(s, IdentifierChar);
      if n == 0 then None else Some(Parsed([Name(s[..n])], s[n..]))
  }

  /** The type that a whole text spells, if it is a type expression. */
  function Parse(s: string): Option<Ts> {
    match ParseUnion(s)
    case None => None
    case Some(p) => if p.rest == "" then Some(p.ts) else None
  }

  // ---------------------------------------------------------------- phrases: texts that parse in any context

  predicate Follows(rest: string) {
    rest == "" || rest[0] == ' ' || rest[0] == ')' || rest[0] == '>'
  }

  /** What a union parser makes of the rest after it has read `ts`. */
  function Continue(ts: Ts, rest: string): Option<Parsed> {
    if " | " <= rest then
      match ParseUnion(rest[3..])
      case None => None
      case Some(q) => Some(Parsed(ts + q.ts, q.rest))
    else Some(Parsed(ts, rest))
  }

  /** Wherever a type may stand, the text is read as `ts`. */
  ghost predicate Phrase(t: string, ts: Ts) {
    forall rest: string :: Follows(rest) ==> ParseUnion(t + rest) == Continue(ts, rest)
  }

  /** The same for a text without a bare union, which may be followed by brackets. */
  ghost predicate Unit(t: string, ts: Ts) {
    forall rest: string :: Follows(rest) || "[]" <= rest ==> ParsePostfix(t + rest) == Some(Brackets(ts, rest))
  }

  lemma UnitIsPhrase(t: string, ts: Ts)
    requires Unit(t, ts)
    ensures Phrase(t, ts)
  {
    forall rest: string | Follows(rest) ensures ParseUnion(t + rest) == Continue(ts, rest) {
      assert ParsePostfix(t + rest) == Some(Brackets(ts, rest));
      assert Brackets(ts, rest) == Parsed(ts, rest);
    }
  }

  lemma PhraseParses(t: string, ts: Ts)
    requires Phrase(t, ts)
    ensures Parse(t) == Some(ts)
  {
    assert Follows("") && t + "" == t;
  }

  lemma BarFollows(rest: string)
    requires " | " <= rest
    ensures Follows(rest)
  {
  }

  lemma UnionPhrase(a: string, xs: Ts, b: string, ys: Ts)
    requires Phrase(a, xs) && Phrase(b, ys)
    ensures Phrase(a + (" | " + b), xs + ys)
  {
    hide ParseUnion, Follows;
    forall rest: string | Follows(rest) ensures ParseUnion(a + (" | " + b) + rest) == Continue(xs + ys, rest) {
      var more := " | " + b + rest;
      assert a + (" | " + b) + rest == a + more;
      assert " | " <= more && more[3..] == b + rest;
      assert Follows(more) by { BarFollows(more); }
      assert ParseUnion(a + more) == Continue(xs, more);
      if " | " <= rest && ParseUnion(rest[3..]).Some? {
        var q := ParseUnion(rest[3..]).value;
        assert xs + (ys + q.ts) == xs + ys + q.ts;
      }
    }
  }

  lemma BracketsUnit(t: string, ts: Ts)
    requires Unit(t, ts)
    ensures Unit(t + "[]", [Array(ts)])
  {
    forall rest: string | Follows(rest) || "[]" <= rest
      ensures ParsePostfix(t + "[]" + rest) == Some(Brackets([Array(ts)], rest))
    {
      assert t + "[]" + rest == t + ("[]" + rest);
      assert ("[]" + rest)[2..] == rest;
    }
  }

  lemma ParenthesesUnit(t: string, ts: Ts)
    requires Phrase(t, ts)
    ensures Unit("(" + t + ")", ts)
  {
    forall rest: string | Follows(rest) || "[]" <= rest
      ensures ParsePostfix("(" + t + ")" + rest) == Some(Brackets(ts, rest))
    {
      var s := "(" + t + ")" + rest;
      assert s[1..] == t + (")" + rest);
      assert (")" + rest)[1..] == rest;
      assert ParseUnion(t + (")" + rest)) == Continue(ts, ")" + rest);
    }
  }

  lemma RecordPrefix(t: string, rest: string)
    ensures var s := RecordOf(t) + rest; RECORD <= s && s[|RECORD|..] == t + (">" + rest) && s[0] == 'R'
  {
    assert RecordOf(t) + rest == RECORD + (t + (">" + rest));
  }

  lemma RecordUnit(t: string, ts: Ts)
    requires Phrase(t, ts)
    ensures Unit(RecordOf(t), [Record(ts)])
  {
    hide ParseUnion, RecordOf;
    forall rest: string | Follows(rest) || "[]" <= rest
      ensures ParsePostfix(RecordOf(t) + rest) == Some(Brackets([Record(ts)], rest))
    {
      RecordPrefix(t, rest);
      assert (">" + rest)[1..] == rest;
      assert ParseUnion(t + (">" + rest)) == Continue(ts, ">" + rest);
    }
  }

  predicate Clean(text: string) {
    forall c :: c in text ==> LiteralChar(c)
  }

  lemma {:induction false} SpanStops(a: string, b: string, p: char -> bool)
    requires (forall c :: c in a ==> p(c)) && (b == "" || !p(b[0]))
    ensures Span(a + b, p) == |a|
  {
    if a == "" {
      assert a + b == b;
    } else {
      assert (a + b)[1..] == a[1..] + b;
      SpanStops(a[1..], b, p);
    }
  }

  lemma QuoteIsNoLiteralChar()
    ensures !LiteralChar('"')
  {
  }

  lemma CleanText(text: string)
    requires Clean(text)
    ensures forall c :: c in text ==> LiteralChar(c)
  {
  }

  lemma LiteralUnit(text: string)
    requires Clean(text)
    ensures Unit(Quoted(text), [Literal(text)])
  {
    hide ParseUnion, Span, Clean, LiteralChar;
    assert !LiteralChar('"') by { QuoteIsNoLiteralChar(); }
    CleanText(text);
    forall rest: string | Follows(rest) || "[]" <= rest
      ensures ParsePostfix(Quoted(text) + rest) == Some(Brackets([Literal(text)], rest))
    {
      var s := Quoted(text) + rest;
      assert s[1..] == text + ("\"" + rest);
      SpanStops(text, "\"" + rest, LiteralChar);
      assert s[1..|text| + 1] == text && s[|text| + 2..] == rest;
    }
  }

  predicate Identifier(id: string) {
    id != "" && forall c :: c in id ==> IdentifierChar(c)
  }

  lemma NotARecord(id: string, rest: string)
    requires Identifier(id) && (Follows(rest) || "[]" <= rest)
    ensures !(RECORD <= id + rest)
  {
    hide Identifier;
    var s := id + rest;
    if |id| > 6 {
      assert s[6] == id[6] && id[6] in id;
      assert IdentifierChar(s[6]) by { IdentifierCharAt(id, 6); }
    } else if rest != "" {
      assert s[|id|] == rest[0];
    }
  }

  lemma IdentifierCharAt(id: string, i: nat)
    requires Identifier(id) && i < |id|
    ensures IdentifierChar(id[i])
  {
    assert id[i] in id;
  }

  lemma NameUnit(id: string)
    requires Identifier(id)
    ensures Unit(id, [Name(id)])
  {
    forall rest: string | Follows(rest) || "[]" <= rest
      ensures ParsePostfix(id + rest) == Some(Brackets([Name(id)], rest))
    {
      var s := id + rest;
      assert s[0] == id[0] && id[0] in id;
      NotARecord(id, rest);
      SpanStops(id, rest, IdentifierChar);
      assert s[..|id|] == id && s[|id|..] == rest;
    }
  }

  // ---------------------------------------------------------------- the emitted text is a type expression

  function Tree(t: string): Ts {
    match Parse(t)
    case Some(ts) => ts
    case None => []
  }

  /** A text that parses on its own and in any context, brackets included if it shows no bar. */
  ghost predicate Good(t: string) {
    Phrase(t, Tree(t)) && ('|' !in t ==> Unit(t, Tree(t)))
  }

  lemma GoodUnit(t: string, ts: Ts)
    requires Unit(t, ts)
    ensures Good(t) && Tree(t) == ts && Parse(t) == Some(ts)
  {
    hide Phrase, Unit, Parse;
    UnitIsPhrase(t, ts);
    PhraseParses(t, ts);
  }

  function Trees(parts: seq<string>): Ts {
    if parts == [] then [] else Tree(parts[0]) + Trees(parts[1..])
  }

  lemma {:induction false} JoinIsGood(parts: seq<string>)
    requires parts != [] && forall t :: t in parts ==> Good(t)
    ensures Good(Join(parts)) && Tree(Join(parts)) == Trees(parts)
  {
    hide Phrase, Unit, Parse, Tree;
    assert parts[0] in parts;
    if |parts| == 1 {
      assert Trees(parts[1..]) == [];
    } else {
      JoinIsGood(parts[1..]);
      UnionPhrase(parts[0], Tree(parts[0]), Join(parts[1..]), Trees(parts[1..]));
      PhraseParses(Join(parts), Trees(parts));
      TreeIsParse(Join(parts));
      assert (" | " + Join(parts[1..]))[1] == '|';
    }
  }

  lemma TreeIsParse(t: string)
    ensures Parse(t).Some? ==> Tree(t) == Parse(t).value
  {
  }

  lemma {:induction false} TreesMean(parts: seq<string>, v: Json, names: Denotation)
    ensures Inhabits(Trees(parts), v, names) <==> exists t :: t in parts && Inhabits(Tree(t), v, names)
  {
    hide Tree, InhabitsAtom;
    if parts != [] {
      TreesMean(parts[1..], v, names);
      ConcatMeans(Tree(parts[0]), Trees(parts[1..]), v, names);
      assert parts[0] in parts;
      assert forall t :: t in parts <==> t == parts[0] || t in parts[1..];
    }
  }

  lemma ConcatMeans(a: Ts, b: Ts, v: Json, names: Denotation)
    ensures Inhabits(a + b, v, names) <==> Inhabits(a, v, names) || Inhabits(b, v, names)
  {
    hide InhabitsAtom;
    if i :| 0 <= i < |a| && InhabitsAtom(a[i], v, names) {
      assert (a + b)[i] == a[i];
    }
    if i :| 0 <= i < |b| && InhabitsAtom(b[i], v, names) {
      assert (a + b)[|a| + i] == b[i];
    }
  }

  lemma OneAtom(a: Atom, v: Json, names: Denotation)
    ensures Inhabits([a], v, names) <==> InhabitsAtom(a, v, names)
  {
    assert [a][0] == a;
  }

  lemma ArrayIsGood(inner: string)
    requires Good(inner)
    ensures Good(ArrayOf(inner)) && Tree(ArrayOf(inner)) == [Array(Tree(inner))]
  {
    hide Phrase, Unit, Parse, Tree;
    if '|' in inner {
      ParenthesesUnit(inner, Tree(inner));
      BracketsUnit("(" + inner + ")", Tree(inner));
      assert "(" + inner + ")" + "[]" == ArrayOf(inner);
    } else {
      BracketsUnit(inner, Tree(inner));
    }
    GoodUnit(ArrayOf(inner), [Array(Tree(inner))]);
  }

  lemma RecordIsGood(inner: string)
    requires Good(inner)
    ensures Good(RecordOf(inner)) && Tree(RecordOf(inner)) == [Record(Tree(inner))]
  {
    hide Phrase, Unit, Parse, Tree;
    RecordUnit(inner, Tree(inner));
    GoodUnit(RecordOf(inner), [Record(Tree(inner))]);
  }

  lemma QuotedIsGood(text: string)
    requires Clean(text)
    ensures Good(Quoted(text)) && Tree(Quoted(text)) == [Literal(text)]
  {
    hide Phrase, Unit, Parse, Tree;
    LiteralUnit(text);
    GoodUnit(Quoted(text), [Literal(text)]);
  }

  lemma NameIsGood(id: string)
    requires Identifier(id)
    ensures Good(id) && Tree(id) == [Name(id)]
  {
    hide Phrase, Unit, Parse, Tree;
    NameUnit(id);
    GoodUnit(id, [Name(id)]);
  }

  lemma PrimitiveIsGood(name: string)
    ensures Good(Primitive(name)) && Tree(Primitive(name)) == [Name(Primitive(name))]
  {
    hide Good, Tree;
    NameIsGood(Primitive(name));
  }

  // ---------------------------------------------------------------- which schemas are translated

  /** Lists of alternatives are not empty, references end in a type name, quoted texts need no escapes. */
  predicate Translatable(s: Schema)
    decreases s
  {
    if s.ref.Some? then Identifier(AfterLastSlash(s.ref.value)) && AfterLastSlash(s.ref.value) !in BUILTINS
    else if s.anyOf.List? then s.anyOf.schemas != [] && forall i :: 0 <= i < |s.anyOf.schemas| ==>
        Translatable(s.anyOf.schemas[i])
    else if s.oneOf.List? then s.oneOf.schemas != [] && forall i :: 0 <= i < |s.oneOf.schemas| ==>
        Translatable(s.oneOf.schemas[i])
    else if s.constant.Some? then Clean(Shown(s.constant.value))
    else if s.enumeration.Some? then s.enumeration.value != [] && forall c :: c in s.enumeration.value ==>
        Clean(Shown(c))
    else if s.types == OneType("array") then s.items.Sub? ==> Translatable(s.items.schema)
    else if s.types == OneType("object") then s.additionalProperties.ExtraSchema? ==>
        Translatable(s.additionalProperties.schema)
    else s.types != TypeList([])
  }

  /** The type a schema is translated to, without the text: only the first keyword in the order
      of the translation counts, constants count as their texts, and numbers need not be whole. */
  ghost predicate Promised(s: Schema, v: Json, names: Denotation)
    decreases s
  {
    if s.ref.Some? then names(AfterLastSlash(s.ref.value), v)
    else if s.anyOf.List? then exists i :: 0 <= i < |s.anyOf.schemas| && Promised(s.anyOf.schemas[i], v, names)
    else if s.oneOf.List? then exists i :: 0 <= i < |s.oneOf.schemas| && Promised(s.oneOf.schemas[i], v, names)
    else if s.constant.Some? then v == JStr(Shown(s.constant.value))
    else if s.enumeration.Some? then exists c :: c in s.enumeration.value && v == JStr(Shown(c))
    else if s.types == OneType("array") then
      v.JArr? && (s.items.Sub? ==> forall i :: 0 <= i < |v.items| ==> Promised(s.items.schema, v.items[i], names))
    else if s.types == OneType("object") then
      && v.JObj?
      && (s.additionalProperties.ExtraSchema? ==>
            forall i :: 0 <= i < |v.members| ==> Promised(s.additionalProperties.schema, v.members[i].value, names))
    else match s.types
      case OneType(name) => PrimitivePromised(name, v)
      case TypeList(list) => exists name :: name in list && PrimitivePromised(name, v)
      case NoType => true
  }

  predicate PrimitivePromised(name: string, v: Json) {
    match Primitive(name)
    case "unknown" => true
    case known => HasType(known, v)
  }

  lemma PrimitiveMeans(name: string, v: Json, names: Denotation)
    ensures Inhabits([Name(Primitive(name))], v, names) <==> PrimitivePromised(name, v)
  {
    OneAtom(Name(Primitive(name)), v, names);
  }

  lemma AlternativesMean(parts: seq<string>, v: Json, names: Denotation)
    requires parts != [] && forall t :: t in parts ==> Good(t)
    ensures Good(Join(parts))
    ensures Inhabits(Tree(Join(parts)), v, names) <==> exists t :: t in parts && Inhabits(Tree(t), v, names)
  {
    hide Good, Tree, Inhabits, Join, Trees;
    JoinIsGood(parts);
    TreesMean(parts, v, names);
  }

  /** Meaning preserved: reading the emitted text back gives a type whose values are exactly the promised ones. */
  lemma {:induction false} TextMeansPromise(s: Schema, v: Json, names: Denotation)
    requires Translatable(s)
    ensures Good(TsType(s))
    ensures Inhabits(Tree(TsType(s)), v, names) <==> Promised(s, v, names)
    decreases s, 1
  {
    hide Good, Tree, Inhabits, Join;
    if s.ref.Some? {
      NameIsGood(AfterLastSlash(s.ref.value));
      OneAtom(Name(AfterLastSlash(s.ref.value)), v, names);
    } else if s.anyOf.List? {
      SubschemasMeanPromise(s.anyOf.schemas, v, names);
    } else if s.oneOf.List? {
      SubschemasMeanPromise(s.oneOf.schemas, v, names);
    } else if s.constant.Some? {
      QuotedIsGood(Shown(s.constant.value));
      OneAtom(Literal(Shown(s.constant.value)), v, names);
    } else if s.enumeration.Some? {
      EnumMeansPromise(s.enumeration.value, v, names);
    } else if s.types == OneType("array") {
      ArrayMeansPromise(s, v, names);
    } else if s.types == OneType("object") {
      ObjectMeansPromise(s, v, names);
    } else if s.types.OneType? {
      PrimitiveIsGood(s.types.name);
      PrimitiveMeans(s.types.name, v, names);
    } else if s.types.TypeList? {
      TypeListMeansPromise(s.types.names, v, names);
    } else {
      PrimitiveIsGood("unknown");
      PrimitiveMeans("unknown", v, names);
    }
  }

  lemma {:induction false} SubschemasMeanPromise(schemas: seq<Schema>, v: Json, names: Denotation)
    requires schemas != [] && forall i :: 0 <= i < |schemas| ==> Translatable(schemas[i])
    ensures var text := Join(Dedup(TsTypes(schemas)));
            Good(text) && (Inhabits(Tree(text), v, names) <==>
                exists i :: 0 <= i < |schemas| && Promised(schemas[i], v, names))
    decreases schemas, 0
  {
    hide Good, Tree, Inhabits, Join, Promised, TsType, Translatable, Dedup;
    var parts := TsTypes(schemas);
    forall i | 0 <= i < |schemas|
      ensures Good(parts[i]) && (Inhabits(Tree(parts[i]), v, names) <==> Promised(schemas[i], v, names))
    {
      TextMeansPromise(schemas[i], v, names);
    }
    assert parts[0] in Dedup(parts);
    AlternativesMean(Dedup(parts), v, names);
    if i :| 0 <= i < |schemas| && Promised(schemas[i], v, names) {
      assert parts[i] in parts && Inhabits(Tree(parts[i]), v, names);
    }
  }

  lemma EnumMeansPromise(cs: seq<Scalar>, v: Json, names: Denotation)
    requires cs != [] && forall c :: c in cs ==> Clean(Shown(c))
    ensures var text := Join(AllQuoted(cs));
            Good(text) && (Inhabits(Tree(text), v, names) <==> exists c :: c in cs && v == JStr(Shown(c)))
  {
    hide Good, Tree, Inhabits, Join, Quoted, Clean, Shown;
    var parts := AllQuoted(cs);
    forall i | 0 <= i < |cs|
      ensures Good(parts[i]) && (Inhabits(Tree(parts[i]), v, names) <==> v == JStr(Shown(cs[i])))
    {
      assert cs[i] in cs;
      QuotedIsGood(Shown(cs[i]));
      OneAtom(Literal(Shown(cs[i])), v, names);
    }
    AlternativesMean(parts, v, names);
    if c :| c in cs && v == JStr(Shown(c)) {
      var i :| 0 <= i < |cs| && cs[i] == c;
      assert parts[i] in parts && Inhabits(Tree(parts[i]), v, names);
    }
  }

  lemma TypeListMeansPromise(list: seq<string>, v: Json, names: Denotation)
    requires list != []
    ensures var text := Join(AllPrimitive(list));
            Good(text) && (Inhabits(Tree(text), v, names) <==>
                exists name :: name in list && PrimitivePromised(name, v))
  {
    hide Good, Tree, Inhabits, Join, Primitive, PrimitivePromised;
    var parts := AllPrimitive(list);
    forall i | 0 <= i < |list|
      ensures Good(parts[i]) && (Inhabits(Tree(parts[i]), v, names) <==> PrimitivePromised(list[i], v))
    {
      PrimitiveIsGood(list[i]);
      PrimitiveMeans(list[i], v, names);
    }
    AlternativesMean(parts, v, names);
    if name :| name in list && PrimitivePromised(name, v) {
      var i :| 0 <= i < |list| && list[i] == name;
      assert parts[i] in parts && Inhabits(Tree(parts[i]), v, names);
    }
  }

  lemma {:induction false} ArrayMeansPromise(s: Schema, v: Json, names: Denotation)
    requires Translatable(s) && s.types == OneType("array")
    requires s.ref.None? && s.anyOf.NoList? && s.oneOf.NoList? && s.constant.None? && s.enumeration.None?
    ensures Good(TsType(s)) && (Inhabits(Tree(TsType(s)), v, names) <==> Promised(s, v, names))
    decreases s, 0
  {
    hide Good, Tree, Inhabits, ArrayOf;
    var inner := if s.items.Sub? && s.items.schema != EMPTY_SCHEMA then TsType(s.items.schema) else "unknown";
    if s.items.Sub? {
      TextMeansPromise(s.items.schema, JNull, names);
    }
    PrimitiveIsGood("unknown");
    ArrayIsGood(inner);
    OneAtom(Array(Tree(inner)), v, names);
    if v.JArr? {
      forall i | 0 <= i < |v.items|
        ensures Inhabits(Tree(inner), v.items[i], names) <==>
                  (s.items.Sub? ==> Promised(s.items.schema, v.items[i], names))
      {
        PrimitiveMeans("unknown", v.items[i], names);
        if s.items.Sub? {
          TextMeansPromise(s.items.schema, v.items[i], names);
        }
      }
    }
  }

  lemma {:induction false} ObjectMeansPromise(s: Schema, v: Json, names: Denotation)
    requires Translatable(s) && s.types == OneType("object")
    requires s.ref.None? && s.anyOf.NoList? && s.oneOf.NoList? && s.constant.None? && s.enumeration.None?
    ensures Good(TsType(s)) && (Inhabits(Tree(TsType(s)), v, names) <==> Promised(s, v, names))
    decreases s, 0
  {
    hide Good, Tree, Inhabits, RecordOf;
    var extra := s.additionalProperties;
    var inner := if extra.ExtraSchema? then TsType(extra.schema) else "unknown";
    if extra.ExtraSchema? {
      TextMeansPromise(extra.schema, JNull, names);
    }
    PrimitiveIsGood("unknown");
    RecordIsGood(inner);
    OneAtom(Record(Tree(inner)), v, names);
    if v.JObj? {
      forall i | 0 <= i < |v.members|
        ensures Inhabits(Tree(inner), v.members[i].value, names)
            <==> (extra.ExtraSchema? ==> Promised(extra.schema, v.members[i].value, names))
      {
        PrimitiveMeans("unknown", v.members[i].value, names);
        if extra.ExtraSchema? {
          TextMeansPromise(extra.schema, v.members[i].value, names);
        }
      }
    }
  }

  // ---------------------------------------------------------------- soundness and exactness

  /** Every value that a reference accepts belongs to the exported type of that name. */
  ghost predicate Resolves(refs: Denotation, names: Denotation) {
    forall ref, v :: refs(ref, v) ==> names(AfterLastSlash(ref), v)
  }

  /** The constants that are translated are strings. */
  predicate Textual(s: Schema)
    decreases s
  {
    if s.ref.Some? then true
    else if s.anyOf.List? then forall i :: 0 <= i < |s.anyOf.schemas| ==> Textual(s.anyOf.schemas[i])
    else if s.oneOf.List? then forall i :: 0 <= i < |s.oneOf.schemas| ==> Textual(s.oneOf.schemas[i])
    else if s.constant.Some? then s.constant.value.SStr?
    else if s.enumeration.Some? then forall c :: c in s.enumeration.value ==> c.SStr?
    else if s.types == OneType("array") then s.items.Sub? ==> Textual(s.items.schema)
    else if s.types == OneType("object") then s.additionalProperties.ExtraSchema? ==>
        Textual(s.additionalProperties.schema)
    else true
  }

  lemma {:induction false} ValidIsPromised(s: Schema, v: Json, refs: Denotation, names: Denotation)
    requires Resolves(refs, names) && Textual(s) && Valid(s, v, refs)
    ensures Promised(s, v, names)
    decreases s
  {
    hide AfterLastSlash;
    if s.ref.Some? {
    } else if s.anyOf.List? {
      var i :| 0 <= i < |s.anyOf.schemas| && Valid(s.anyOf.schemas[i], v, refs);
      ValidIsPromised(s.anyOf.schemas[i], v, refs, names);
    } else if s.oneOf.List? {
      var i :| ExactlyAt(s.oneOf.schemas, i, v, refs);
      ValidIsPromised(s.oneOf.schemas[i], v, refs, names);
    } else if s.constant.Some? || s.enumeration.Some? {
    } else if s.types == OneType("array") {
      if s.items.Sub? {
        forall i | 0 <= i < |v.items| ensures Promised(s.items.schema, v.items[i], names) {
          ValidIsPromised(s.items.schema, v.items[i], refs, names);
        }
      }
    } else if s.types == OneType("object") {
      if s.additionalProperties.ExtraSchema? {
        forall i | 0 <= i < |v.members| ensures Promised(s.additionalProperties.schema, v.members[i].value, names) {
          ValidIsPromised(s.additionalProperties.schema, v.members[i].value, refs, names);
        }
      }
    } else if s.types.TypeList? {
      var name :| name in s.types.names && HasType(name, v);
      assert PrimitivePromised(name, v);
    }
  }

  /** `ts_type` is sound: the emitted text is a type expression, and every JSON value that the schema
      accepts belongs to the type it spells. */
  lemma TranslationIsSound(s: Schema, v: Json, refs: Denotation, names: Denotation)
    requires Translatable(s) && Textual(s) && Resolves(refs, names)
    ensures Parse(TsType(s)).Some?
    ensures Valid(s, v, refs) ==> Inhabits(Parse(TsType(s)).value, v, names)
  {
    hide Valid, Promised, Translatable, Textual, Inhabits;
    TextMeansPromise(s, v, names);
    PhraseParses(TsType(s), Tree(TsType(s)));
    if Valid(s, v, refs) {
      ValidIsPromised(s, v, refs, names);
    }
  }

  /** A schema that says only what its type says: one keyword at each node, no `oneOf`, no
      `integer`, no closed object, string constants. */
  predicate Plain(s: Schema)
    decreases s
  {
    var primitives := {"string", "number", "boolean", "null"};
    if s.ref.Some? then s == EMPTY_SCHEMA.(ref := s.ref)
    else if s.anyOf.List? then
      s == EMPTY_SCHEMA.(anyOf := s.anyOf) && forall i :: 0 <= i < |s.anyOf.schemas| ==> Plain(s.anyOf.schemas[i])
    else if s.constant.Some? then s == EMPTY_SCHEMA.(constant := s.constant) && s.constant.value.SStr?
    else if s.enumeration.Some? then
      s == EMPTY_SCHEMA.(enumeration := s.enumeration) && forall c :: c in s.enumeration.value ==> c.SStr?
    else if s.types == OneType("array") then
      s == EMPTY_SCHEMA.(types := s.types, items := s.items) && (s.items.Sub? ==> Plain(s.items.schema))
    else if s.types == OneType("object") then
      && s == EMPTY_SCHEMA.(types := s.types, additionalProperties := s.additionalProperties)
      && s.additionalProperties != Flag(false)
      && (s.additionalProperties.ExtraSchema? ==> Plain(s.additionalProperties.schema))
    else
      && s == EMPTY_SCHEMA.(types := s.types, format := s.format)
      && (s.types.OneType? ==> s.types.name in primitives)
      && (s.types.TypeList? ==> forall name :: name in s.types.names ==> name in primitives)
  }

  lemma PrimitiveHasType(name: string, v: Json)
    requires name in {"string", "number", "boolean", "null"} && PrimitivePromised(name, v)
    ensures HasType(name, v)
  {
  }

  lemma {:induction false} PromisedIsValid(s: Schema, v: Json, refs: Denotation, names: Denotation)
    requires Plain(s) && Promised(s, v, names) && forall ref, x :: names(AfterLastSlash(ref), x) ==> refs(ref, x)
    ensures Valid(s, v, refs)
    decreases s
  {
    hide AfterLastSlash, PrimitivePromised;
    if s.ref.Some? {
    } else if s.anyOf.List? {
      var i :| 0 <= i < |s.anyOf.schemas| && Promised(s.anyOf.schemas[i], v, names);
      PromisedIsValid(s.anyOf.schemas[i], v, refs, names);
    } else if s.constant.Some? || s.enumeration.Some? {
    } else if s.types == OneType("array") {
      if s.items.Sub? {
        forall i | 0 <= i < |v.items| ensures Valid(s.items.schema, v.items[i], refs) {
          PromisedIsValid(s.items.schema, v.items[i], refs, names);
        }
      }
    } else if s.types == OneType("object") {
      if s.additionalProperties.ExtraSchema? {
        forall i | 0 <= i < |v.members| ensures Valid(s.additionalProperties.schema, v.members[i].value, refs) {
          PromisedIsValid(s.additionalProperties.schema, v.members[i].value, refs, names);
        }
      }
    } else if s.types.TypeList? {
      var name :| name in s.types.names && PrimitivePromised(name, v);
      PrimitiveHasType(name, v);
    } else if s.types.OneType? {
      PrimitiveHasType(s.types.name, v);
    }
  }

  /** For plain schemas nothing is lost: the emitted type holds exactly the valid values. */
  lemma TranslationIsExact(s: Schema, v: Json, refs: Denotation, names: Denotation)
    requires Translatable(s) && Plain(s) && Textual(s)
    requires Resolves(refs, names) && forall ref, x :: names(AfterLastSlash(ref), x) ==> refs(ref, x)
    ensures Parse(TsType(s)).Some?
    ensures Valid(s, v, refs) <==> Inhabits(Parse(TsType(s)).value, v, names)
  {
    hide Valid, Promised, Translatable, Textual, Plain, Inhabits;
    TextMeansPromise(s, v, names);
    PhraseParses(TsType(s), Tree(TsType(s)));
    if Valid(s, v, refs) {
      ValidIsPromised(s, v, refs, names);
    }
    if Promised(s, v, names) {
      PromisedIsValid(s, v, refs, names);
    }
  }

  // ---------------------------------------------------------------- constants, quoted as they are

  /** Only a string constant can have a text that needs escaping. */
  lemma OthersAreClean(c: Scalar)
    requires !c.SStr?
    ensures Clean(Shown(c))
  {
  }

  lemma {:induction false} BracketsNest(ts: Ts, rest: string)
    ensures var r := Brackets(ts, rest); r.ts == ts || exists e: Ts :: r.ts == [Array(e)]
    decreases |rest|
  {
    if "[]" <= rest {
      BracketsNest([Array(ts)], rest[2..]);
      assert Brackets(ts, rest).ts == [Array(ts)] || exists e: Ts :: Brackets(ts, rest).ts == [Array(e)];
    }
  }

  /** Whatever a quoted text goes on with, the first thing read from it is a literal without special
      characters, or an array of such. */
  lemma QuotedStartsWithLiteral(text: string, rest: string)
    ensures var p := ParseUnion(Quoted(text) + rest);
            p.Some? ==>
              p.value.ts != [] && (p.value.ts[0].Array? || (p.value.ts[0].Literal? && Clean(p.value.ts[0].text)))
  {
    hide ParseUnion, Brackets;
    var s := Quoted(text) + rest;
    var n := Span(s[1..], LiteralChar);
    if ParsePrimary(s).Some? {
      var ts, left := ParsePrimary(s).value.ts, ParsePrimary(s).value.rest;
      assert ts == [Literal(s[1..n + 1])] && Clean(s[1..n + 1]) by {
        assert forall i :: 0 <= i < n ==> s[1..n + 1][i] == s[1..][i];
      }
      BracketsNest(ts, left);
    }
    UnionStartsWithPostfix(s);
  }

  lemma UnionStartsWithPostfix(s: string)
    ensures ParseUnion(s).Some? ==> ParsePostfix(s).Some? && ParsePostfix(s).value.ts <= ParseUnion(s).value.ts
  {
  }

  /** A value of the type that a quoted text spells, if it spells one: a string without special
      characters, or the empty array. */
  function Sample(ts: Ts): Json {
    if ts != [] && ts[0].Literal? then JStr(ts[0].text) else JArr([])
  }

  lemma SampleInhabits(text: string, rest: string, names: Denotation)
    requires Parse(Quoted(text) + rest).Some?
    ensures var ts := Parse(Quoted(text) + rest).value;
            Inhabits(ts, Sample(ts), names) && (Sample(ts) == JArr([]) || exists u :: Clean(u) && Sample(ts) == JStr(u))
  {
    hide ParseUnion, Clean, Quoted;
    QuotedStartsWithLiteral(text, rest);
    var ts := Parse(Quoted(text) + rest).value;
    assert InhabitsAtom(ts[0], Sample(ts), names);
  }

  /** The translation of a `const` node is right, that is, the text is a type expression and its
      values are exactly the valid ones, if and only if the constant is a string that needs no
      escaping. A constant that is no string does not even belong to its own type. */
  lemma ConstIsExactIffCleanString(c: Scalar, refs: Denotation, names: Denotation)
    ensures var s := EMPTY_SCHEMA.(constant := Some(c));
            (Parse(TsType(s)).Some? && forall v :: Valid(s, v, refs) <==> Inhabits(Parse(TsType(s)).value, v, names))
            <==> c.SStr? && Clean(c.text)
    ensures !c.SStr? ==> !Inhabits(Tree(TsType(EMPTY_SCHEMA.(constant := Some(c)))), AsJson(c), names)
  {
    hide Parse, Inhabits, Clean, Quoted;
    var s := EMPTY_SCHEMA.(constant := Some(c));
    var text := Shown(c);
    assert TsType(s) == Quoted(text);
    assert forall v :: Valid(s, v, refs) <==> v == AsJson(c);
    if !c.SStr? {
      OthersAreClean(c);
    }
    if Clean(text) {
      TextParses(s);
      forall v ensures Inhabits(Tree(TsType(s)), v, names) <==> v == JStr(text) {
        TextMeansPromise(s, v, names);
      }
      assert Inhabits(Tree(TsType(s)), JStr(text), names);
    } else if Parse(Quoted(text)).Some? {
      assert Quoted(text) + "" == Quoted(text);
      SampleInhabits(text, "", names);
      assert !Valid(s, Sample(Parse(TsType(s)).value), refs);
    }
  }

  lemma TextParses(s: Schema)
    requires Translatable(s)
    ensures Parse(TsType(s)) == Some(Tree(TsType(s)))
  {
    hide Parse, Tree, TsType, Translatable, Phrase, Unit;
    TextMeansPromise(s, JNull, (_, _) => false);
    PhraseParses(TsType(s), Tree(TsType(s)));
  }

  /** Every literal that is read, wherever it stands in the union, is without special characters. */
  ghost predicate CleanLiterals(ts: Ts) {
    forall a :: a in ts && a.Literal? ==> Clean(a.text)
  }

  lemma {:induction false} UnionReadsCleanLiterals(s: string)
    ensures ParseUnion(s).Some? ==> CleanLiterals(ParseUnion(s).value.ts)
    decreases |s|, 2
  {
    hide CleanLiterals, ParsePostfix;
    PostfixReadsCleanLiterals(s);
    if ParsePostfix(s).Some? {
      var p := ParsePostfix(s).value;
      if " | " <= p.rest && ParseUnion(p.rest[3..]).Some? {
        UnionReadsCleanLiterals(p.rest[3..]);
        CleanConcat(p.ts, ParseUnion(p.rest[3..]).value.ts);
      }
    }
  }

  lemma CleanConcat(a: Ts, b: Ts)
    requires CleanLiterals(a) && CleanLiterals(b)
    ensures CleanLiterals(a + b)
  {
  }

  lemma {:induction false} PostfixReadsCleanLiterals(s: string)
    ensures ParsePostfix(s).Some? ==> CleanLiterals(ParsePostfix(s).value.ts)
    decreases |s|, 1
  {
    hide ParsePrimary, Brackets;
    PrimaryReadsCleanLiterals(s);
    if ParsePrimary(s).Some? {
      BracketsNest(ParsePrimary(s).value.ts, ParsePrimary(s).value.rest);
    }
  }

  lemma {:induction false} PrimaryReadsCleanLiterals(s: string)
    ensures ParsePrimary(s).Some? ==> CleanLiterals(ParsePrimary(s).value.ts)
    decreases |s|, 0
  {
    hide ParseUnion;
    if s != "" && s[0] == '(' {
      UnionReadsCleanLiterals(s[1..]);
    } else if ParsePrimary(s).Some? && s[0] == '"' {
      LiteralIsClean(s);
    }
  }

  lemma LiteralIsClean(s: string)
    requires s != "" && s[0] == '"' && ParsePrimary(s).Some?
    ensures CleanLiterals(ParsePrimary(s).value.ts)
  {
    hide ParseUnion, LiteralChar;
    var n := Span(s[1..], LiteralChar);
    assert forall i :: 0 <= i < n ==> s[1..n + 1][i] == s[1..][i];
  }

  function LongestString(cs: seq<Scalar>): (n: nat)
    ensures forall c :: c in cs && c.SStr? ==> |c.text| <= n
  {
    if cs == [] then 0
    else
      var rest := LongestString(cs[1..]);
      if cs[0].SStr? && |cs[0].text| > rest then |cs[0].text| else rest
  }

  lemma TooLong(cs: seq<Scalar>, refs: Denotation)
    ensures !Valid(EMPTY_SCHEMA.(enumeration := Some(cs)), JStr(seq(LongestString(cs) + 1, _ => 'x')), refs)
  {
    var long := JStr(seq(LongestString(cs) + 1, _ => 'x'));
    forall c | c in cs ensures AsJson(c) != long {
      assert c.SStr? ==> |c.text| <= LongestString(cs);
    }
  }

  /** When the text of an `enum` node is right, its string members need no escaping: another one
      could belong to the type only if all strings did. */
  lemma ExactEnumIsClean(cs: seq<Scalar>, ts: Ts, c: Scalar, refs: Denotation, nothing: Denotation)
    requires CleanLiterals(ts) && c in cs && c.SStr? && forall id, v :: !nothing(id, v)
    requires forall v :: Valid(EMPTY_SCHEMA.(enumeration := Some(cs)), v, refs) <==> Inhabits(ts, v, nothing)
    ensures Clean(c.text)
  {
    hide CleanLiterals, Clean, LongestString;
    var v := AsJson(c);
    assert Valid(EMPTY_SCHEMA.(enumeration := Some(cs)), v, refs);
    var i :| 0 <= i < |ts| && InhabitsAtom(ts[i], v, nothing);
    if ts[i].Literal? {
      LiteralOf(ts, i);
    } else {
      TooLong(cs, refs);
      assert InhabitsAtom(ts[i], JStr(seq(LongestString(cs) + 1, _ => 'x')), nothing);
    }
  }

  lemma LiteralOf(ts: Ts, i: nat)
    requires i < |ts| && CleanLiterals(ts) && ts[i].Literal?
    ensures Clean(ts[i].text)
  {
    assert ts[i] in ts;
  }

  /** The text of a schema is a type expression whose values are exactly the valid ones, whatever
      the exported names mean. */
  ghost predicate RightlyTranslated(s: Schema, refs: Denotation) {
    && Parse(TsType(s)).Some?
    && forall v, names :: Valid(s, v, refs) <==> Inhabits(Parse(TsType(s)).value, v, names)
  }

  /** The same for `enum`: the translation is right if and only if there are members and all of
      them are strings that need no escaping. */
  lemma EnumIsExactIffCleanStrings(cs: seq<Scalar>, refs: Denotation)
    ensures RightlyTranslated(EMPTY_SCHEMA.(enumeration := Some(cs)), refs)
            <==> cs != [] && forall c :: c in cs ==> c.SStr? && Clean(c.text)
  {
    hide RightlyTranslated, Clean;
    if cs == [] {
      NothingSpelt(refs);
    } else if c :| c in cs && !Clean(Shown(c)) {
      if !c.SStr? {
        OthersAreClean(c);
      }
      UncleanEnum(cs, c, refs);
    } else if c :| c in cs && !c.SStr? {
      NonStringEnum(cs, c, refs);
    } else {
      assert forall c :: c in cs ==> Clean(Shown(c)) && Shown(c) == c.text;
      CleanStringEnum(cs, refs);
    }
  }

  lemma CleanStringEnum(cs: seq<Scalar>, refs: Denotation)
    requires cs != [] && forall c :: c in cs ==> c.SStr? && Clean(c.text)
    ensures RightlyTranslated(EMPTY_SCHEMA.(enumeration := Some(cs)), refs)
  {
    hide Parse, Inhabits, Clean, TsType;
    var s := EMPTY_SCHEMA.(enumeration := Some(cs));
    TextParses(s);
    forall v, names ensures Valid(s, v, refs) <==> Inhabits(Parse(TsType(s)).value, v, names) {
      TextMeansPromise(s, v, names);
    }
  }

  lemma NonStringEnum(cs: seq<Scalar>, c: Scalar, refs: Denotation)
    requires c in cs && !c.SStr? && forall m :: m in cs ==> Clean(Shown(m))
    ensures !RightlyTranslated(EMPTY_SCHEMA.(enumeration := Some(cs)), refs)
  {
    hide Parse, Inhabits, Clean, TsType;
    var s := EMPTY_SCHEMA.(enumeration := Some(cs));
    var nothing: Denotation := (_, _) => false;
    TextParses(s);
    TextMeansPromise(s, AsJson(c), nothing);
    assert Valid(s, AsJson(c), refs) && !Inhabits(Parse(TsType(s)).value, AsJson(c), nothing);
  }

  lemma UncleanEnum(cs: seq<Scalar>, c: Scalar, refs: Denotation)
    requires c in cs && c.SStr? && !Clean(c.text)
    ensures !RightlyTranslated(EMPTY_SCHEMA.(enumeration := Some(cs)), refs)
  {
    hide Parse, Inhabits, Clean, TsType, Valid;
    var s := EMPTY_SCHEMA.(enumeration := Some(cs));
    if RightlyTranslated(s, refs) {
      var nothing: Denotation := (_, _) => false;
      var read := Parse(TsType(s)).value;
      assert forall v :: Valid(s, v, refs) <==> Inhabits(read, v, nothing);
      TreeReadsCleanLiterals(TsType(s));
      ExactEnumIsClean(cs, read, c, refs, nothing);
    }
  }

  lemma NothingSpelt(refs: Denotation)
    ensures !RightlyTranslated(EMPTY_SCHEMA.(enumeration := Some([])), refs)
  {
    assert AllQuoted([]) == [];
  }

  lemma TreeReadsCleanLiterals(text: string)
    requires Parse(text).Some?
    ensures CleanLiterals(Parse(text).value)
  {
    hide ParseUnion, CleanLiterals;
    UnionReadsCleanLiterals(text);
  }

  /** A quote is not escaped: the constant `"` gives a text that is no type expression, and
      `a" | "b` the type of two other strings. */
  lemma QuotesBreakTheText()
    ensures Parse(TsType(EMPTY_SCHEMA.(constant := Some(SStr("\""))))) == None
    ensures Parse(TsType(EMPTY_SCHEMA.(constant := Some(SStr("a\" | \"b"))))) == Some([Literal("a"), Literal("b")])
  {
    hide Parse, TsType, Quoted;
    ConstText("\"");
    ConstText("a\" | \"b");
    OneQuote();
    TwoStrings();
  }

  lemma ConstText(text: string)
    ensures TsType(EMPTY_SCHEMA.(constant := Some(SStr(text)))) == Quoted(text)
  {
  }

  /** Constants that are no strings appear in quotes as Python writes them, not as JSON does. */
  lemma OtherConstantsAreQuoted()
    ensures TsType(EMPTY_SCHEMA.(constant := Some(SBool(true)))) == "\"True\""
    ensures TsType(EMPTY_SCHEMA.(constant := Some(SBool(false)))) == "\"False\""
    ensures TsType(EMPTY_SCHEMA.(constant := Some(SNull))) == "\"None\""
  {
    assert Shown(SBool(true)) == "True" && Shown(SBool(false)) == "False" && Shown(SNull) == "None";
  }

  lemma OneQuote()
    ensures Parse(Quoted("\"")) == None
  {
    var text := Quoted("\"");
    assert text == "\"\"\"";
    assert Span(text[1..], LiteralChar) == 0;
    assert text[1..1] == "" && text[2..] == "\"" && !(RECORD <= text);
    assert ParsePrimary(text) == Some(Parsed([Literal("")], "\""));
    assert ParsePostfix(text) == Some(Parsed([Literal("")], "\""));
  }

  lemma TwoStrings()
    ensures Parse(Quoted("a\" | \"b")) == Some([Literal("a"), Literal("b")])
  {
    hide Parse, Phrase, Unit, Tree, Good;
    assert Quoted("a\" | \"b") == Join([Quoted("a"), Quoted("b")]) by {
      assert Join([Quoted("a"), Quoted("b")][1..]) == Quoted("b");
    }
    QuotedIsGood("a");
    QuotedIsGood("b");
    JoinIsGood([Quoted("a"), Quoted("b")]);
    assert Trees([Quoted("a"), Quoted("b")]) == [Literal("a"), Literal("b")] by {
      assert [Quoted("a"), Quoted("b")][1..] == [Quoted("b")] && [Quoted("b")][1..] == [];
    }
    GoodParses(Join([Quoted("a"), Quoted("b")]));
  }

  lemma GoodParses(t: string)
    requires Good(t)
    ensures Parse(t) == Some(Tree(t))
  {
    hide Parse, Phrase, Tree;
    PhraseParses(t, Tree(t));
  }
}
