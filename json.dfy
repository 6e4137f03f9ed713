/** JSON values as Python's `json` module hands them to the relay, the few Python
    operations the relay applies to them (`dict.get`, truthiness, `type().__name__`),
    and the exact text `json.dumps` writes for them with its default arguments
    (separators ", " and ": ", `ensure_ascii=True`). */
module Json {
  import opened Wrappers

  /** A decoded JSON document. Objects keep their members in the order of the text,
      repeated keys included: `Lookup` resolves a repeated key as the dict does,
      while `Dumps` writes every member. Numbers with a fraction or exponent
      (Python floats) are not represented. */
  datatype Json =
    | Null
    | Bool(b: bool)
    | Int(i: int)
    | Str(s: string)
    | Arr(items: seq<Json>)
    | Obj(members: seq<Member>)

  datatype Member = Member(key: string, value: Json)

  /** The value an object maps `key` to. `json.loads` builds a dict, so of repeated
      keys the last one wins. */
  function Lookup(members: seq<Member>, key: string): (r: Option<Json>)
    ensures r.Some? <==> exists k :: 0 <= k < |members| && members[k].key == key
    ensures r.Some? ==> Member(key, r.value) in members
  {
    if members == [] then None
    else if members[|members| - 1].key == key then Some(members[|members| - 1].value)
    else Lookup(members[..|members| - 1], key)
  }

  /** Of repeated keys the last one wins: the member found has no later member
      with the same key. */
  lemma {:induction false} LookupLastWins(members: seq<Member>, key: string)
    requires Lookup(members, key).Some?
    ensures exists k :: && 0 <= k < |members| && members[k] == Member(key, Lookup(members, key).value)
                        && forall k' :: k < k' < |members| ==> members[k'].key != key
    decreases |members|
  {
    var last := |members| - 1;
    if members[last].key != key {
      var init := members[..last];
      LookupLastWins(init, key);
      var k :| 0 <= k < |init| && init[k] == Member(key, Lookup(init, key).value)
                && forall k' :: k < k' < |init| ==> init[k'].key != key;
      assert members[k] == init[k];
      forall k' | k < k' < |members| ensures members[k'].key != key {
        if k' < last { assert members[k'] == init[k']; }
      }
    } else {
      assert members[last] == Member(key, Lookup(members, key).value);
    }
  }

  /** Python's name for the type `json.loads` decodes each kind of value to. */
  function TypeName(j: Json): string {
    match j
    case Null => "NoneType"
    case Bool(_) => "bool"
    case Int(_) => "int"
    case Str(_) => "str"
    case Arr(_) => "list"
    case Obj(_) => "dict"
  }

  /** `j.get(key, default)`: a dict answers with the member or the default; any
      other value has no `get` and raises AttributeError. */
  function Get(j: Json, key: string, default: Json): (r: Outcome<Json>)
    ensures r.Raise? <==> !j.Obj?
    ensures r.Raise? ==> r.error == "'" + TypeName(j) + "' object has no attribute 'get'"
  {
    if j.Obj? then Ok(Lookup(j.members, key).GetOr(default))
    else Raise("'" + TypeName(j) + "' object has no attribute 'get'")
  }

  /** Python truthiness: None, False, 0 and empty strings, lists and dicts are false. */
  predicate Truthy(j: Json) {
    match j
    case Null => false
    case Bool(b) => b
    case Int(i) => i != 0
    case Str(s) => s != []
    case Arr(items) => items != []
    case Obj(members) => members != []
  }

  // ---------------------------------------------------------------------------
  // json.dumps

  /** The text `json.dumps(j)` returns. */
  function Dumps(j: Json): (t: string)
    ensures |t| > 0
    ensures j.Obj? ==> t[0] == '{' && t[|t| - 1] == '}'
    ensures j.Arr? ==> t[0] == '[' && t[|t| - 1] == ']'
    ensures j.Str? ==> t[0] == '"' && t[|t| - 1] == '"'
    decreases j
  {
    match j
    case Null => "null"
    case Bool(b) => if b then "true" else "false"
    case Int(i) => IntText(i)
    case Str(s) => Quote(s)
    case Arr(items) => "[" + DumpsItems(items) + "]"
    case Obj(members) => "{" + DumpsMembers(members) + "}"
  }

  /** The items of a list, joined by ", ". */
  function DumpsItems(items: seq<Json>): string
    decreases items
  {
    if items == [] then ""
    else if |items| == 1 then Dumps(items[0])
    else Dumps(items[0]) + ", " + DumpsItems(items[1..])
  }

  /** The `"key": value` pairs of a dict, joined by ", ". */
  function DumpsMembers(members: seq<Member>): string
    decreases members
  {
    if members == [] then ""
    else if |members| == 1 then DumpsMember(members[0])
    else DumpsMember(members[0]) + ", " + DumpsMembers(members[1..])
  }

  function DumpsMember(m: Member): string
    decreases m
  {
    Quote(m.key) + ": " + Dumps(m.value)
  }

  /** `repr` of a Python int: optional minus sign, then decimal digits. */
  function IntText(i: int): string {
    if i < 0 then "-" + NatText(-i) else NatText(i)
  }

  function NatText(n: nat): string
    decreases n
  {
    if n < 10 then [DigitChar(n)] else NatText(n / 10) + [DigitChar(n % 10)]
  }

  function DigitChar(d: nat): char
    requires d < 10
  {
    ('0' as int + d) as char
  }

  function HexChar(d: nat): char
    requires d < 16
  {
    if d < 10 then DigitChar(d) else ('a' as int + d - 10) as char
  }

  /** A JSON string literal with every character outside ' '..'~' escaped. */
  function Quote(s: string): string {
    "\"" + Escape(s) + "\""
  }

  function Escape(s: string): string
    decreases |s|
  {
    if s == [] then "" else EscapeChar(s[0]) + Escape(s[1..])
  }

  /** How `ensure_ascii` writes one character: `"` and `\` and the five control
      characters with short escapes get them, other printable ASCII stands for
      itself, everything else becomes `\uXXXX` in lower-case hex (a UTF-16
      surrogate pair above U+FFFF). */
  function EscapeChar(c: char): string {
    if c == '"' then "\\\""
    else if c == '\\' then "\\\\"
    else if ' ' <= c <= '~' then [c]
    else if c == '\n' then "\\n"
    else if c == '\r' then "\\r"
    else if c == '\t' then "\\t"
    else if c as int == 0x08 then "\\b"
    else if c as int == 0x0C then "\\f"
    else if c as int < 0x1_0000 then UnicodeEscape(c as int)
    else
      var v := c as int - 0x1_0000;
      UnicodeEscape(0xD800 + v / 0x400) + UnicodeEscape(0xDC00 + v % 0x400)
  }

  function UnicodeEscape(n: nat): string
    requires n < 0x1_0000
  {
    "\\u" + [HexChar(n / 0x1000), HexChar(n / 0x100 % 16), HexChar(n / 0x10 % 16), HexChar(n % 16)]
  }

  /** Printable ASCII other than the quote and the backslash: the characters a
      JSON string literal holds unescaped. */
  predicate Plain(s: string) {
    forall k :: 0 <= k < |s| ==> ' ' <= s[k] <= '~' && s[k] != '"' && s[k] != '\\'
  }

  lemma {:induction false} EscapePlain(s: string)
    requires Plain(s)
    ensures Escape(s) == s
    decreases |s|
  {
    if s != [] {
      EscapePlain(s[1..]);
      assert [s[0]] + s[1..] == s;
    }
  }

  /** A plain string is written between quotes as it is. */
  lemma QuotePlain(s: string)
    requires Plain(s)
    ensures Quote(s) == "\"" + s + "\""
  {
    EscapePlain(s);
  }

  // ---------------------------------------------------------------------------
  // What ensure_ascii promises: the text is printable ASCII.

  predicate PrintableAscii(s: string) {
    forall k :: 0 <= k < |s| ==> ' ' <= s[k] <= '~'
  }

  lemma PrintableConcat(a: string, b: string)
    requires PrintableAscii(a) && PrintableAscii(b)
    ensures PrintableAscii(a + b)
  {
    forall k | 0 <= k < |a + b| ensures ' ' <= (a + b)[k] <= '~' {
      if k < |a| { assert (a + b)[k] == a[k]; } else { assert (a + b)[k] == b[k - |a|]; }
    }
  }

  lemma {:induction false} NatTextPrintable(n: nat)
    ensures PrintableAscii(NatText(n))
    decreases n
  {
    if n >= 10 {
      NatTextPrintable(n / 10);
      PrintableConcat(NatText(n / 10), [DigitChar(n % 10)]);
    }
  }

  lemma UnicodeEscapePrintable(n: nat)
    requires n < 0x1_0000
    ensures PrintableAscii(UnicodeEscape(n))
  {
  }

  lemma EscapeCharPrintable(c: char)
    ensures PrintableAscii(EscapeChar(c))
  {
    if c as int >= 0x1_0000 {
      var v := c as int - 0x1_0000;
      UnicodeEscapePrintable(0xD800 + v / 0x400);
      UnicodeEscapePrintable(0xDC00 + v % 0x400);
      PrintableConcat(UnicodeEscape(0xD800 + v / 0x400), UnicodeEscape(0xDC00 + v % 0x400));
    } else if c as int < 0x1_0000 && !(' ' <= c <= '~') {
      UnicodeEscapePrintable(c as int);
    }
  }

  lemma {:induction false} EscapePrintable(s: string)
    ensures PrintableAscii(Escape(s))
    decreases |s|
  {
    if s != [] {
      EscapeCharPrintable(s[0]);
      EscapePrintable(s[1..]);
      PrintableConcat(EscapeChar(s[0]), Escape(s[1..]));
    }
  }

  lemma QuotePrintable(s: string)
    ensures PrintableAscii(Quote(s))
  {
    EscapePrintable(s);
    PrintableConcat("\"", Escape(s));
    PrintableConcat("\"" + Escape(s), "\"");
  }

  /** `json.dumps` with `ensure_ascii=True` writes only printable ASCII, whatever
      the strings inside the value hold. */
  lemma {:induction false} DumpsPrintable(j: Json)
    ensures PrintableAscii(Dumps(j))
    decreases j
  {
    match j
    case Null =>
    case Bool(_) =>
    case Int(i) =>
      NatTextPrintable(if i < 0 then -i else i);
      if i < 0 { PrintableConcat("-", NatText(-i)); }
    case Str(s) => QuotePrintable(s);
    case Arr(items) =>
      DumpsItemsPrintable(items);
      PrintableConcat("[", DumpsItems(items));
      PrintableConcat("[" + DumpsItems(items), "]");
    case Obj(members) =>
      DumpsMembersPrintable(members);
      PrintableConcat("{", DumpsMembers(members));
      PrintableConcat("{" + DumpsMembers(members), "}");
  }

  lemma {:induction false} DumpsItemsPrintable(items: seq<Json>)
    ensures PrintableAscii(DumpsItems(items))
    decreases items
  {
    if items != [] {
      DumpsPrintable(items[0]);
      if |items| > 1 {
        DumpsItemsPrintable(items[1..]);
        PrintableConcat(Dumps(items[0]), ", ");
        PrintableConcat(Dumps(items[0]) + ", ", DumpsItems(items[1..]));
      }
    }
  }

  lemma {:induction false} DumpsMembersPrintable(members: seq<Member>)
    ensures PrintableAscii(DumpsMembers(members))
    decreases members
  {
    if members != [] {
      DumpsMemberPrintable(members[0]);
      if |members| > 1 {
        DumpsMembersPrintable(members[1..]);
        PrintableConcat(DumpsMember(members[0]), ", ");
        PrintableConcat(DumpsMember(members[0]) + ", ", DumpsMembers(members[1..]));
      }
    }
  }

  lemma {:induction false} DumpsMemberPrintable(m: Member)
    ensures PrintableAscii(DumpsMember(m))
    decreases m
  {
    QuotePrintable(m.key);
    DumpsPrintable(m.value);
    PrintableConcat(Quote(m.key), ": ");
    PrintableConcat(Quote(m.key) + ": ", Dumps(m.value));
  }
}
