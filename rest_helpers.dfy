/** The REST layer's pure helpers: the method names and operation ids of
    generated routes, the naming of schemas (suffix stripping and
    kebab-casing), the discriminator of a JSON example, and the flattening
    of a schema tree into named schemas. */
module RestHelpers {
  import opened Wrappers
  import opened Text
  import Json

  // ---------------------------------------------------------------- routes

  datatype HttpMethod = Get | Post | Put | Delete | Patch | Options | Head | Trace

  /** `method_to_string`: the lower-case method name. */
  function MethodToString(m: HttpMethod): (r: string)
    ensures |r| >= 3 && forall k :: 0 <= k < |r| ==> IsAsciiLower(r[k])
  {
    match m
    case Get => "get"
    case Post => "post"
    case Put => "put"
    case Delete => "delete"
    case Patch => "patch"
    case Options => "options"
    case Head => "head"
    case Trace => "trace"
  }

  /** The method names are pairwise distinct. */
  lemma MethodToStringInjective(a: HttpMethod, b: HttpMethod)
    ensures MethodToString(a) == MethodToString(b) ==> a == b
  {
  }

  /** The response code `generate_route` documents. */
  function ResponseCode(m: HttpMethod): (r: string)
    ensures r == "201" <==> m == Post
    ensures r != "201" ==> r == "200"
  {
    if m == Post then "201" else "200"
  }

  /** `path.replace("/", "-")`. */
  function ReplaceSlashes(path: string): (r: string)
    ensures |r| == |path|
    ensures forall k :: 0 <= k < |r| ==> r[k] != '/'
    ensures forall k :: 0 <= k < |path| && path[k] != '/' ==> r[k] == path[k]
    ensures forall k :: 0 <= k < |path| && path[k] == '/' ==> r[k] == '-'
  {
    seq(|path|, k requires 0 <= k < |path| => if path[k] == '/' then '-' else path[k])
  }

  /** The operation id of a route: `type-method-path`, slashes made dashes. */
  function OperationId(typeName: string, m: HttpMethod, path: string): string
  {
    typeName + "-" + MethodToString(m) + "-" + ReplaceSlashes(path)
  }

  /** The method name sits right after the type name and its dash. */
  lemma MethodInOperationId(typeName: string, m: HttpMethod, path: string)
    ensures var id := OperationId(typeName, m, path);
      var n := |typeName|;
      && |id| == n + |MethodToString(m)| + |path| + 2
      && id[..n] == typeName
      && id[n + 1..n + 1 + |MethodToString(m)|] == MethodToString(m)
  {
    var ma := MethodToString(m);
    var n := |typeName|;
    var x := OperationId(typeName, m, path);
    assert x == (typeName + "-") + (ma + "-" + ReplaceSlashes(path));
    assert x[..n] == typeName;
    assert forall k :: 0 <= k < |ma| ==> x[n + 1 + k] == ma[k];
  }

  /** After the type name an operation id has no slash left. */
  lemma {:induction false} OperationIdNoSlash(typeName: string, m: HttpMethod, path: string)
    ensures var id := OperationId(typeName, m, path);
      forall k :: |typeName| <= k < |id| ==> id[k] != '/'
  {
    var ma := MethodToString(m);
    var n := |typeName|;
    var x := OperationId(typeName, m, path);
    forall k | n <= k < |x| ensures x[k] != '/' {
      if k == n || k == n + 1 + |ma| {
      } else if k < n + 1 + |ma| {
        assert x[k] == ma[k - n - 1];
      } else {
        assert x[k] == ReplaceSlashes(path)[k - n - 2 - |ma|];
      }
    }
  }

  /** Two methods of one route get different operation ids. */
  lemma OperationIdDistinguishesMethods(typeName: string, a: HttpMethod, b: HttpMethod, path: string)
    ensures OperationId(typeName, a, path) == OperationId(typeName, b, path) ==> a == b
  {
    MethodInOperationId(typeName, a, path);
    MethodInOperationId(typeName, b, path);
    MethodToStringInjective(a, b);
  }

  // ---------------------------------------------------------------- schema names

  /** `str::ends_with`. */
  predicate EndsWith(s: string, suffix: string)
  {
    |suffix| <= |s| && s[|s| - |suffix|..] == suffix
  }

  /** What `strip_suffixes` computes: each suffix checked once, in order,
      and cut off when the string as it stands ends with it. */
  function Stripped(s: string, suffixes: seq<string>): string
    decreases |suffixes|
  {
    if |suffixes| == 0 then s
    else Stripped(if EndsWith(s, suffixes[0]) then s[..|s| - |suffixes[0]|] else s, suffixes[1..])
  }

  /** `strip_suffixes`. */
  method StripSuffixes(s: string, suffixes: seq<string>) returns (r: string)
    ensures r == Stripped(s, suffixes)
  {
    r := s;
    var i := 0;
    while i < |suffixes|
      invariant 0 <= i <= |suffixes|
      invariant Stripped(s, suffixes) == Stripped(r, suffixes[i..])
    {
      var suffix := suffixes[i];
      assert suffixes[i..][0] == suffix && suffixes[i..][1..] == suffixes[i + 1..];
      if EndsWith(r, suffix) {
        r := r[..|r| - |suffix|];
      }
      i := i + 1;
    }
  }

  /** Stripping only ever cuts the end: the result is a prefix of the input. */
  lemma {:induction false} StrippedIsPrefix(s: string, suffixes: seq<string>)
    ensures |Stripped(s, suffixes)| <= |s| && s[..|Stripped(s, suffixes)|] == Stripped(s, suffixes)
    decreases |suffixes|
  {
    if |suffixes| > 0 {
      var t := if EndsWith(s, suffixes[0]) then s[..|s| - |suffixes[0]|] else s;
      StrippedIsPrefix(t, suffixes[1..]);
      assert s[..|Stripped(t, suffixes[1..])|] == t[..|Stripped(t, suffixes[1..])|];
    }
  }

  /** A string none of whose characters is upper-case ASCII ends with no
      suffix that starts with one, so stripping such suffixes leaves it. */
  lemma {:induction false} StrippedNoUpper(s: string, suffixes: seq<string>)
    requires forall k :: 0 <= k < |s| ==> !IsAsciiUpper(s[k])
    requires forall j :: 0 <= j < |suffixes| ==> |suffixes[j]| > 0 && IsAsciiUpper(suffixes[j][0])
    ensures Stripped(s, suffixes) == s
    decreases |suffixes|
  {
    if |suffixes| > 0 {
      StrippedNoUpper(s, suffixes[1..]);
    }
  }

  /** The suffixes `sanitize_schema_name` removes. */
  function ToRemove(): (r: seq<string>)
    ensures forall j :: 0 <= j < |r| ==> |r[j]| > 0 && IsAsciiUpper(r[j][0])
  {
    ["Command", "Commands", "Query", "Queries"]
  }

  /** Which characters count as upper- and lower-case. */
  datatype CharClasses = CharClasses(isUpper: char -> bool, isLower: char -> bool)

  /** `char::is_uppercase` and `char::is_lowercase` (Unicode's `Uppercase`
      and `Lowercase` properties), exact on U+0000..U+00FF. */
  function UnicodeClasses(): CharClasses
  {
    CharClasses(
      (c: char) => ('A' <= c <= 'Z') || ('\U{00C0}' <= c <= '\U{00D6}') || ('\U{00D8}' <= c <= '\U{00DE}'),
      (c: char) => ('a' <= c <= 'z') || c == '\U{00AA}' || c == '\U{00B5}' || c == '\U{00BA}'
                   || ('\U{00DF}' <= c <= '\U{00F6}') || ('\U{00F8}' <= c <= '\U{00FF}'))
  }

  /** `char::is_ascii_uppercase` and `char::is_ascii_lowercase`. */
  function AsciiClasses(): CharClasses
  {
    CharClasses((c: char) => IsAsciiUpper(c), (c: char) => IsAsciiLower(c))
  }

  /** The characters after the first: a dash before each upper-case
      character that follows a lower-case one, every character ASCII
      lower-cased. */
  function KebabRest(cls: CharClasses, prev: char, s: string): string
    decreases |s|
  {
    if |s| == 0 then []
    else
      (if cls.isUpper(s[0]) && cls.isLower(prev) then "-" else "")
      + [AsciiLower(s[0])] + KebabRest(cls, s[0], s[1..])
  }

  /** The loop of `sanitize_schema_name` over the stripped name. */
  function Kebab(cls: CharClasses, s: string): string
  {
    if |s| == 0 then [] else [AsciiLower(s[0])] + KebabRest(cls, s[0], s[1..])
  }

  /** `sanitize_schema_name` under the given classification. */
  function Sanitized(cls: CharClasses, name: string): string
  {
    Kebab(cls, Stripped(name, ToRemove()))
  }

  /** `sanitize_schema_name`: strip the suffixes, then walk the characters,
      remembering the previous one. The classification is an input: the
      crate's code uses `UnicodeClasses()`. */
  method SanitizeSchemaName(cls: CharClasses, name: string) returns (result: string)
    ensures result == Sanitized(cls, name)
  {
    var s := StripSuffixes(name, ToRemove());
    result := "";
    var prev: Option<char> := None;
    var i := 0;
    while i < |s|
      invariant 0 <= i <= |s|
      invariant result == Kebab(cls, s[..i])
      invariant prev == if i == 0 then None else Some(s[i - 1])
    {
      var c := s[i];
      assert s[..i + 1] == s[..i] + [c];
      if i == 0 {
        result := result + [AsciiLower(c)];
      } else {
        KebabSnoc(cls, s[..i], c);
        if cls.isUpper(c) && prev.Some? && cls.isLower(prev.value) {
          result := result + ['-'];
        }
        result := result + [AsciiLower(c)];
      }
      prev := Some(c);
      i := i + 1;
    }
    assert s[..i] == s;
  }

  /** The number of places where an upper-case character follows a
      lower-case one, counted from the end of the string. */
  function Transitions(cls: CharClasses, s: string): nat
    decreases |s|
  {
    if |s| < 2 then 0
    else Transitions(cls, s[..|s| - 1]) + (if cls.isUpper(s[|s| - 1]) && cls.isLower(s[|s| - 2]) then 1 else 0)
  }

  lemma {:induction false} KebabRestSnoc(cls: CharClasses, prev: char, s: string, c: char)
    ensures KebabRest(cls, prev, s + [c]) ==
      KebabRest(cls, prev, s)
      + (if cls.isUpper(c) && cls.isLower(if |s| == 0 then prev else s[|s| - 1]) then "-" else "")
      + [AsciiLower(c)]
    decreases |s|
  {
    if |s| == 0 {
      assert [c][1..] == [];
    } else {
      assert (s + [c])[0] == s[0];
      assert (s + [c])[1..] == s[1..] + [c];
      KebabRestSnoc(cls, s[0], s[1..], c);
    }
  }

  lemma {:induction false} KebabSnoc(cls: CharClasses, s: string, c: char)
    requires |s| > 0
    ensures Kebab(cls, s + [c]) ==
      Kebab(cls, s) + (if cls.isUpper(c) && cls.isLower(s[|s| - 1]) then "-" else "") + [AsciiLower(c)]
  {
    assert (s + [c])[0] == s[0];
    assert (s + [c])[1..] == s[1..] + [c];
    KebabRestSnoc(cls, s[0], s[1..], c);
  }

  /** A dash is added exactly at each lower-to-upper transition: the output
      is as long as the stripped name plus the number of transitions. */
  lemma {:induction false} KebabLength(cls: CharClasses, s: string)
    ensures |Kebab(cls, s)| == |s| + Transitions(cls, s)
    decreases |s|
  {
    if |s| >= 2 {
      var init := s[..|s| - 1];
      assert s == init + [s[|s| - 1]];
      KebabLength(cls, init);
      KebabSnoc(cls, init, s[|s| - 1]);
    } else if |s| == 1 {
      assert s[1..] == [];
    }
  }

  lemma {:induction false} KebabRestNoUpper(cls: CharClasses, prev: char, s: string)
    ensures forall k :: 0 <= k < |KebabRest(cls, prev, s)| ==> !IsAsciiUpper(KebabRest(cls, prev, s)[k])
    decreases |s|
  {
    if |s| > 0 {
      KebabRestNoUpper(cls, s[0], s[1..]);
    }
  }

  /** The output has no upper-case ASCII letter, is empty exactly when the
      stripped name is, and starts with the stripped name's first character
      lower-cased. */
  lemma SanitizedShape(cls: CharClasses, name: string)
    ensures var s := Stripped(name, ToRemove());
      var r := Sanitized(cls, name);
      && (forall k :: 0 <= k < |r| ==> !IsAsciiUpper(r[k]))
      && (r == [] <==> s == [])
      && (s != [] ==> r[0] == AsciiLower(s[0]))
      && |r| == |s| + Transitions(cls, s)
  {
    var s := Stripped(name, ToRemove());
    if |s| > 0 {
      KebabRestNoUpper(cls, s[0], s[1..]);
    }
    KebabLength(cls, s);
  }

  lemma {:induction false} KebabRestFixed(prev: char, s: string)
    requires forall k :: 0 <= k < |s| ==> !IsAsciiUpper(s[k])
    ensures KebabRest(AsciiClasses(), prev, s) == s
    decreases |s|
  {
    if |s| > 0 {
      KebabRestFixed(s[0], s[1..]);
      assert s == [s[0]] + s[1..];
    }
  }

  /** With ASCII classification, sanitizing is idempotent: an output has no
      upper-case ASCII letter, so no suffix comes off, no dash goes in and
      no character changes. */
  lemma SanitizedAsciiIdempotent(name: string)
    ensures Sanitized(AsciiClasses(), Sanitized(AsciiClasses(), name)) == Sanitized(AsciiClasses(), name)
  {
    var r := Sanitized(AsciiClasses(), name);
    SanitizedShape(AsciiClasses(), name);
    StrippedNoUpper(r, ToRemove());
    if |r| > 0 {
      KebabRestFixed(r[0], r[1..]);
      assert r == [r[0]] + r[1..];
    }
  }

  /** As written (Unicode classification, ASCII lower-casing), sanitizing is
      not idempotent: `AÉ` gives `aÉ`, whose `É` now follows a lower-case
      letter and gains a dash. */
  lemma SanitizedUnicodeNotIdempotent()
    ensures Sanitized(UnicodeClasses(), "A\U{00C9}") == "a\U{00C9}"
    ensures Sanitized(UnicodeClasses(), "a\U{00C9}") == "a-\U{00C9}"
  {
    assert Stripped("A\U{00C9}", ToRemove()) == "A\U{00C9}";
    assert Stripped("a\U{00C9}", ToRemove()) == "a\U{00C9}";
    assert "A\U{00C9}"[1..][1..] == [];
    assert "a\U{00C9}"[1..][1..] == [];
  }

  lemma {:induction false} KebabRestAgreeOnAscii(prev: char, s: string)
    requires prev < '\U{0080}' && forall k :: 0 <= k < |s| ==> s[k] < '\U{0080}'
    ensures KebabRest(UnicodeClasses(), prev, s) == KebabRest(AsciiClasses(), prev, s)
    decreases |s|
  {
    if |s| > 0 {
      KebabRestAgreeOnAscii(s[0], s[1..]);
    }
  }

  /** On ASCII-only names the code as written and the ASCII classification
      agree. */
  lemma SanitizedAgreeOnAscii(name: string)
    requires forall k :: 0 <= k < |name| ==> name[k] < '\U{0080}'
    ensures Sanitized(UnicodeClasses(), name) == Sanitized(AsciiClasses(), name)
  {
    var s := Stripped(name, ToRemove());
    StrippedIsPrefix(name, ToRemove());
    assert forall k :: 0 <= k < |s| ==> s[k] == name[k];
    if |s| > 0 {
      KebabRestAgreeOnAscii(s[0], s[1..]);
    }
  }

  /** `CreateCommands` loses `Commands` whole and becomes `create`. */
  lemma CreateCommandsExample()
    ensures Stripped("CreateCommands", ToRemove()) == "Create"
    ensures Sanitized(AsciiClasses(), "CreateCommands") == "create"
  {
    var r := ToRemove();
    assert !EndsWith("CreateCommands", r[0]) && EndsWith("CreateCommands", r[1]);
    assert "CreateCommands"[..|"CreateCommands"| - |r[1]|] == "Create";
    assert !EndsWith("Create", r[2]) && !EndsWith("Create", r[3]);
    assert Stripped("CreateCommands", r) == Stripped("Create", r[2..]);
    assert Stripped("Create", r[2..]) == Stripped("Create", r[3..]);
    assert r[3..][1..] == [];
    CreateKebab();
  }

  lemma CreateKebab()
    ensures Kebab(AsciiClasses(), "Create") == "create"
  {
    assert "Create"[1..] == "reate";
    assert KebabRest(AsciiClasses(), 'C', "reate") == "reate" by {
      KebabRestFixed('C', "reate");
    }
  }

  /** The suffixes are checked in order: `Command` comes off before
      `Commands` is checked. */
  lemma StripOrderExample()
    ensures Stripped("XCommandsCommand", ToRemove()) == "X"
  {
    var r := ToRemove();
    assert EndsWith("XCommandsCommand", r[0]);
    assert "XCommandsCommand"[..|"XCommandsCommand"| - |r[0]|] == "XCommands";
    assert EndsWith("XCommands", r[1]);
    assert "XCommands"[..|"XCommands"| - |r[1]|] == "X";
    assert !EndsWith("X", r[2]) && !EndsWith("X", r[3]);
    assert Stripped("XCommandsCommand", r) == Stripped("X", r[2..]);
    assert Stripped("X", r[2..]) == Stripped("X", r[3..]);
    assert r[3..][1..] == [];
  }

  /** Each suffix is checked once: a repeated `Command` comes off once. */
  lemma StripOnceExample()
    ensures Stripped("SaveCommandCommand", ToRemove()) == "SaveCommand"
  {
    var r := ToRemove();
    assert EndsWith("SaveCommandCommand", r[0]);
    assert "SaveCommandCommand"[..|"SaveCommandCommand"| - |r[0]|] == "SaveCommand";
    assert !EndsWith("SaveCommand", r[1]);
    assert !EndsWith("SaveCommand", r[2]) && !EndsWith("SaveCommand", r[3]);
    assert Stripped("SaveCommandCommand", r) == Stripped("SaveCommand", r[2..]);
    assert Stripped("SaveCommand", r[2..]) == Stripped("SaveCommand", r[3..]);
    assert r[3..][1..] == [];
  }

  // ---------------------------------------------------------------- discriminators

  /** `add_discriminator`: set the field on an object; a missing
      discriminator or a non-object leaves the value as it was. */
  function AddDiscriminator(item: Json.Value, discriminator: Option<(string, string)>): (r: Json.Value)
    ensures discriminator.None? || !item.Object? ==> r == item
    ensures discriminator.Some? && item.Object? ==>
      && r.Object?
      && r.fields.Keys == item.fields.Keys + {discriminator.value.0}
      && r.fields[discriminator.value.0] == Json.String(discriminator.value.1)
      && forall k :: k in item.fields && k != discriminator.value.0 ==> r.fields[k] == item.fields[k]
  {
    match discriminator
    case None => item
    case Some((name, value)) =>
      match item
      case Object(fields) => Json.Object(fields[name := Json.String(value)])
      case _ => item
  }

  /** The discriminator reads back from the value it was added to. */
  lemma AddDiscriminatorReadsBack(item: Json.Value, name: string, value: string)
    requires item.Object?
    ensures Json.Get(AddDiscriminator(item, Some((name, value))), name) == Some(Json.String(value))
  {
  }

  // ---------------------------------------------------------------- schemas

  /** `RefOr<Schema>`, keeping what `read_schema` looks at: an object's
      properties in iteration order and its `enum` values, and the items of
      `oneOf` and `anyOf`; every other schema is `OtherSchema`. */
  datatype RefOr = Ref(location: string) | T(schema: Schema)

  datatype Schema =
    | ObjectSchema(properties: seq<(string, RefOr)>, enumValues: Option<seq<Json.Value>>)
    | OneOf(items: seq<RefOr>)
    | AnyOf(items: seq<RefOr>)
    | OtherSchema

  /** `SchemaData`: a named schema and the discriminator it was named by. */
  datatype SchemaData = SchemaData(name: string, schema: Schema, discriminator: Option<(string, string)>)

  /** A property whose schema is an inline object with a single string in
      its `enum`: that string. */
  function SingleStringEnum(p: RefOr): Option<string>
  {
    match p
    case T(ObjectSchema(_, Some(values))) =>
      if |values| == 1 && values[0].String? then Some(values[0].s) else None
    case _ => None
  }

  /** Property `i` is the first with a single string enum, and gives `d`. */
  predicate FirstDiscriminating(props: seq<(string, RefOr)>, i: int, d: (string, string))
  {
    && 0 <= i < |props|
    && props[i].0 == d.0 && SingleStringEnum(props[i].1) == Some(d.1)
    && forall j :: 0 <= j < i ==> SingleStringEnum(props[j].1).None?
  }

  /** The `find_map` over the properties: the first one with a single
      string enum, as (property name, value). */
  function FindDiscriminator(props: seq<(string, RefOr)>): (r: Option<(string, string)>)
    ensures r.None? <==> forall i :: 0 <= i < |props| ==> SingleStringEnum(props[i].1).None?
    ensures r.Some? ==> exists i :: FirstDiscriminating(props, i, r.value)
    decreases |props|
  {
    if |props| == 0 then None
    else if SingleStringEnum(props[0].1).Some? then
      var d := (props[0].0, SingleStringEnum(props[0].1).value);
      assert FirstDiscriminating(props, 0, d);
      Some(d)
    else
      var r := FindDiscriminator(props[1..]);
      assert forall j :: 1 <= j < |props| ==> props[j] == props[1..][j - 1];
      if r.Some? then
        var i :| FirstDiscriminating(props[1..], i, r.value);
        assert FirstDiscriminating(props, i + 1, r.value);
        r
      else r
  }

  /** `properties.remove(key)`. */
  function RemoveProperty(props: seq<(string, RefOr)>, key: string): (r: seq<(string, RefOr)>)
    ensures forall p :: p in r <==> p in props && p.0 != key
    decreases |props|
  {
    if |props| == 0 then []
    else (if props[0].0 == key then [] else [props[0]]) + RemoveProperty(props[1..], key)
  }

  /** What `read_schema` gives for one schema. */
  function ReadSchemaSpec(name: string, schema: RefOr): seq<SchemaData>
    decreases schema
  {
    match schema
    case Ref(_) => []
    case T(t) =>
      match t
      case ObjectSchema(props, values) =>
        var d := FindDiscriminator(props);
        if d.Some? then [SchemaData(d.value.1, ObjectSchema(RemoveProperty(props, d.value.0), values), d)]
        else [SchemaData(name, t, None)]
      case OneOf(items) => ReadItems(name, items)
      case AnyOf(items) => ReadItems(name, items)
      case OtherSchema => []
  }

  /** The results of the items, concatenated in order. */
  function ReadItems(name: string, items: seq<RefOr>): seq<SchemaData>
    decreases items
  {
    if |items| == 0 then []
    else ReadItems(name, items[..|items| - 1]) + ReadSchemaSpec(name, items[|items| - 1])
  }

  /** `read_schema`. */
  method ReadSchema(name: string, schema: RefOr) returns (result: seq<SchemaData>)
    ensures result == ReadSchemaSpec(name, schema)
    decreases schema
  {
    result := [];
    if schema.T? {
      match schema.schema
      case ObjectSchema(props, values) =>
        var d := FindDiscriminator(props);
        var currentName, body;
        if d.Some? {
          currentName, body := d.value.1, ObjectSchema(RemoveProperty(props, d.value.0), values);
        } else {
          currentName, body := name, schema.schema;
        }
        result := result + [SchemaData(currentName, body, d)];
      case OneOf(items) =>
        result := ReadEach(name, schema, items);
      case AnyOf(items) =>
        result := ReadEach(name, schema, items);
      case OtherSchema =>
    }
  }

  /** The loop over the items of a `oneOf` or `anyOf`. */
  method ReadEach(name: string, ghost parent: RefOr, items: seq<RefOr>) returns (result: seq<SchemaData>)
    requires parent.T? && (parent.schema.OneOf? || parent.schema.AnyOf?) && parent.schema.items == items
    ensures result == ReadItems(name, items)
    decreases parent, 0
  {
    result := [];
    var i := 0;
    while i < |items|
      invariant 0 <= i <= |items|
      invariant result == ReadItems(name, items[..i])
    {
      assert items[..i + 1][..i] == items[..i];
      var part := ReadSchema(name, items[i]);
      result := result + part;
      i := i + 1;
    }
    assert items[..i] == items;
  }

  /** Every entry `read_schema` produces is an object schema. Named by a
      discriminator, it carries that discriminator's value as its name and no
      longer has the discriminating property; otherwise it carries the given
      name and no discriminator. */
  lemma {:induction false} ReadSchemaEntries(name: string, schema: RefOr)
    ensures forall d :: d in ReadSchemaSpec(name, schema) ==> EntryWellFormed(name, d)
    decreases schema
  {
    match schema
    case Ref(_) =>
    case T(t) =>
      match t
      case ObjectSchema(props, values) =>
      case OneOf(items) => ReadItemsEntries(name, items);
      case AnyOf(items) => ReadItemsEntries(name, items);
      case OtherSchema =>
  }

  lemma {:induction false} ReadItemsEntries(name: string, items: seq<RefOr>)
    ensures forall d :: d in ReadItems(name, items) ==> EntryWellFormed(name, d)
    decreases items
  {
    if |items| > 0 {
      ReadItemsEntries(name, items[..|items| - 1]);
      ReadSchemaEntries(name, items[|items| - 1]);
    }
  }

  /** The shape of one `SchemaData` that `read_schema` returns. */
  ghost predicate EntryWellFormed(name: string, d: SchemaData)
  {
    && d.schema.ObjectSchema?
    && (d.discriminator.None? ==> d.name == name)
    && (d.discriminator.Some? ==>
          && d.name == d.discriminator.value.1
          && forall p :: p in d.schema.properties ==> p.0 != d.discriminator.value.0)
  }

  /** An object gives exactly one entry; references and other schemas give
      none; `oneOf`/`anyOf` give as many entries as their items do. */
  lemma {:induction false} ReadSchemaCounts(name: string, schema: RefOr)
    ensures schema.Ref? || schema.schema.OtherSchema? ==> ReadSchemaSpec(name, schema) == []
    ensures schema.T? && schema.schema.ObjectSchema? ==> |ReadSchemaSpec(name, schema)| == 1
    ensures schema.T? && (schema.schema.OneOf? || schema.schema.AnyOf?) ==>
      forall i :: 0 <= i < |schema.schema.items| ==>
        |ReadSchemaSpec(name, schema.schema.items[i])| <= |ReadSchemaSpec(name, schema)|
  {
    if schema.T? && (schema.schema.OneOf? || schema.schema.AnyOf?) {
      forall i | 0 <= i < |schema.schema.items|
        ensures |ReadSchemaSpec(name, schema.schema.items[i])| <= |ReadSchemaSpec(name, schema)|
      {
        ReadItemsContains(name, schema.schema.items, i);
      }
    }
  }

  /** Each item's entries appear in the concatenation. */
  lemma {:induction false} ReadItemsContains(name: string, items: seq<RefOr>, i: nat)
    requires i < |items|
    ensures |ReadSchemaSpec(name, items[i])| <= |ReadItems(name, items)|
    ensures forall d :: d in ReadSchemaSpec(name, items[i]) ==> d in ReadItems(name, items)
    decreases |items|
  {
    var init := items[..|items| - 1];
    if i < |items| - 1 {
      assert init[i] == items[i];
      ReadItemsContains(name, init, i);
    }
  }
}
