/** The JSON text the scan store keeps in its `processing_stages` and
    `results` columns: an encoder shaped like `json.dumps` with its default
    separators (", " and ": "), a decoder in the manner of `json.loads`,
    and the round trip between them. */
module Json {
  import opened Wrappers
  import opened Text

  datatype Json =
    | JNull
    | JBool(b: bool)
    | JInt(n: int)
    | JStr(s: string)
    | JArr(items: seq<Json>)
    | JObj(members: seq<Member>)

  datatype Member = Member(key: string, value: Json)

  // ---------------------------------------------------------------------
  // Encoding

  /** A lower-case hexadecimal digit. */
  function HexDigit(d: nat): (c: char)
    requires d < 16
  {
    if d < 10 then ('0' as int + d) as char else ('a' as int + d - 10) as char
  }

  /** `'{0:04x}'.format(n)`. */
  function Hex4(n: nat): (r: string)
    requires n < 0x1_0000
    ensures |r| == 4
  {
    [HexDigit(n / 16 / 16 / 16), HexDigit(n / 16 / 16 % 16), HexDigit(n / 16 % 16), HexDigit(n % 16)]
  }

  /** Whether `ensure_ascii` writes the character as `\uXXXX`: a control
      character without a short escape, or one outside printable ASCII
      that fits in four hex digits. */
  predicate UEscaped(c: char)
  {
    (c < ' ' || c >= '\U{7F}') && c as int < 0x1_0000
  }

  /** `json.dumps`' escape of one character of a string, with
      `ensure_ascii`. */
  function EscapeChar(c: char): string
  {
    if c == '"' then "\\\""
    else if c == '\\' then "\\\\"
    else if c == '\n' then "\\n"
    else if c == '\t' then "\\t"
    else if c == '\r' then "\\r"
    else if c == '\U{8}' then "\\b"
    else if c == '\U{C}' then "\\f"
    else if UEscaped(c) then "\\u" + Hex4(c as int)
    else [c]
  }

  function Escape(s: string): string
  {
    if s == [] then [] else EscapeChar(s[0]) + Escape(s[1..])
  }

  function Quote(s: string): string
  {
    "\"" + Escape(s) + "\""
  }

  function IntText(n: int): string
  {
    if n < 0 then "-" + Decimal(-n) else Decimal(n)
  }

  /** `json.dumps`: the first character tells a string and an array from
      the other kinds, and both are closed by their own bracket. */
  function Encode(j: Json): (r: string)
    ensures |r| > 0
    ensures r[0] == '"' <==> j.JStr?
    ensures r[0] == '[' <==> j.JArr?
    ensures j.JStr? ==> |r| >= 2 && r[|r| - 1] == '"'
    ensures j.JArr? ==> r[|r| - 1] == ']'
    decreases j
  {
    match j
    case JNull => "null"
    case JBool(b) => if b then "true" else "false"
    case JInt(n) => IntText(n)
    case JStr(s) => Quote(s)
    case JArr(items) => "[" + EncodeItems(items) + "]"
    case JObj(members) => "{" + EncodeMembers(members) + "}"
  }

  /** The items of an array, separated by ", ". */
  function EncodeItems(items: seq<Json>): string
    decreases items
  {
    if items == [] then ""
    else if |items| == 1 then Encode(items[0])
    else Encode(items[0]) + ", " + EncodeItems(items[1..])
  }

  /** The members of an object, `"key": value`, separated by ", ". */
  /** One member of an object: `"key": value`. */
  function EncodeMember(m: Member): string
  {
    Quote(m.key) + (": " + Encode(m.value))
  }

  /** The members of an object, separated by ", ". */
  function EncodeMembers(members: seq<Member>): string
    decreases members
  {
    if members == [] then ""
    else if |members| == 1 then EncodeMember(members[0])
    else EncodeMember(members[0]) + (", " + EncodeMembers(members[1..]))
  }

  // ---------------------------------------------------------------------
  // Decoding

  function SkipSpaces(s: string): (r: string)
    ensures |r| <= |s|
    ensures r == [] || r[0] != ' '
  {
    if s != [] && s[0] == ' ' then SkipSpaces(s[1..]) else s
  }

  function UnescapeChar(c: char): Option<char>
  {
    if c == '"' then Some('"')
    else if c == '\\' then Some('\\')
    else if c == '/' then Some('/')
    else if c == 'n' then Some('\n')
    else if c == 't' then Some('\t')
    else if c == 'r' then Some('\r')
    else if c == 'b' then Some('\U{8}')
    else if c == 'f' then Some('\U{C}')
    else None
  }

  function HexValue(c: char): Option<nat>
  {
    if '0' <= c <= '9' then Some(c as int - '0' as int)
    else if 'a' <= c <= 'f' then Some(c as int - 'a' as int + 10)
    else if 'A' <= c <= 'F' then Some(c as int - 'A' as int + 10)
    else None
  }

  /** The character four hex digits name; a lone surrogate is refused. */
  function UnescapeHex(h: string): (r: Option<char>)
    requires |h| == 4
  {
    match (HexValue(h[0]), HexValue(h[1]), HexValue(h[2]), HexValue(h[3]))
    case (Some(a), Some(b), Some(c), Some(d)) =>
      var v := ((a * 16 + b) * 16 + c) * 16 + d;
      if v < 0xD800 || 0xE000 <= v < 0x1_0000 then Some(v as char) else None
    case _ => None
  }

  /** The body of a string literal up to its closing quote (the opening quote already read). */
  function ParseString(s: string): (r: Option<(string, string)>)
    ensures r.Some? ==> |r.value.1| < |s|
  {
    if s == [] then None
    else if s[0] == '"' then Some(([], s[1..]))
    else if s[0] == '\\' then
      if |s| < 2 then None
      else if s[1] == 'u' then
        if |s| < 6 then None
        else match UnescapeHex(s[2..6])
          case None => None
          case Some(c) =>
            match ParseString(s[6..])
            case None => None
            case Some((body, rest)) => Some(([c] + body, rest))
      else match UnescapeChar(s[1])
        case None => None
        case Some(c) =>
          match ParseString(s[2..])
          case None => None
          case Some((body, rest)) => Some(([c] + body, rest))
    else
      match ParseString(s[1..])
      case None => None
      case Some((body, rest)) => Some(([s[0]] + body, rest))
  }

  /** A run of digits read as a natural number. */
  function ParseUnsigned(s: string): (r: Option<(nat, string)>)
    ensures r.Some? ==> |r.value.1| < |s|
  {
    var digits := DigitPrefix(s);
    if digits == [] then None else Some((ParseNat(digits), s[|digits|..]))
  }

  function ParseInt(s: string): (r: Option<(int, string)>)
    ensures r.Some? ==> |r.value.1| < |s|
  {
    if s != [] && s[0] == '-' then
      match ParseUnsigned(s[1..])
      case None => None
      case Some((k, rest)) => Some((0 - k, rest))
    else
      match ParseUnsigned(s)
      case None => None
      case Some((k, rest)) => Some((k, rest))
  }

  /** One value, after any leading spaces. */
  function ParseValue(s: string): (r: Option<(Json, string)>)
    ensures r.Some? ==> |r.value.1| < |s|
    decreases |s|, 3
  {
    ParseToken(SkipSpaces(s))
  }

  /** One value starting at its first character, chosen by that character. */
  function ParseToken(u: string): (r: Option<(Json, string)>)
    ensures r.Some? ==> |r.value.1| < |u|
    decreases |u|, 2
  {
    if u == [] then None
    else if u[0] == '"' then
      match ParseString(u[1..])
      case None => None
      case Some((body, rest)) => Some((JStr(body), rest))
    else if u[0] == '[' then ParseArray(u[1..])
    else if u[0] == '{' then ParseObject(u[1..])
    else if u[0] == 'n' || u[0] == 't' || u[0] == 'f' then ParseKeyword(u)
    else
      match ParseInt(u)
      case None => None
      case Some((n, rest)) => Some((JInt(n), rest))
  }

  function ParseKeyword(u: string): (r: Option<(Json, string)>)
    ensures r.Some? ==> |r.value.1| < |u|
  {
    if StartsWith(u, "null") then Some((JNull, u[4..]))
    else if StartsWith(u, "true") then Some((JBool(true), u[4..]))
    else if StartsWith(u, "false") then Some((JBool(false), u[5..]))
    else None
  }

  /** The rest of an array after its opening bracket. */
  function ParseArray(s: string): (r: Option<(Json, string)>)
    ensures r.Some? ==> |r.value.1| < |s|
    decreases |s|, 5
  {
    var v := SkipSpaces(s);
    if v != [] && v[0] == ']' then Some((JArr([]), v[1..]))
    else
      match ParseItems(v)
      case None => None
      case Some((items, rest)) => Some((JArr(items), rest))
  }

  /** The rest of an object after its opening brace. */
  function ParseObject(s: string): (r: Option<(Json, string)>)
    ensures r.Some? ==> |r.value.1| < |s|
    decreases |s|, 5
  {
    var v := SkipSpaces(s);
    if v != [] && v[0] == '}' then Some((JObj([]), v[1..]))
    else
      match ParseMembers(v)
      case None => None
      case Some((members, rest)) => Some((JObj(members), rest))
  }

  /** One or more array items and the closing bracket. */
  function ParseItems(s: string): (r: Option<(seq<Json>, string)>)
    ensures r.Some? ==> |r.value.1| < |s|
    decreases |s|, 4
  {
    match ParseValue(s)
    case None => None
    case Some((item, rest)) =>
      var u := SkipSpaces(rest);
      if u == [] then None
      else if u[0] == ']' then Some(([item], u[1..]))
      else if u[0] == ',' then
        match ParseItems(SkipSpaces(u[1..]))
        case None => None
        case Some((items, rest')) => Some(([item] + items, rest'))
      else None
  }

  /** One `"key": value` pair (leading spaces already skipped). */
  function ParseMember(s: string): (r: Option<(Member, string)>)
    ensures r.Some? ==> |r.value.1| < |s|
    decreases |s|, 3
  {
    if s == [] || s[0] != '"' then None
    else
      match ParseString(s[1..])
      case None => None
      case Some((key, afterKey)) =>
        var v := SkipSpaces(afterKey);
        if v == [] || v[0] != ':' then None
        else
          match ParseValue(SkipSpaces(v[1..]))
          case None => None
          case Some((value, rest)) => Some((Member(key, value), rest))
  }

  /** One or more object members and the closing brace. */
  function ParseMembers(s: string): (r: Option<(seq<Member>, string)>)
    ensures r.Some? ==> |r.value.1| < |s|
    decreases |s|, 4
  {
    match ParseMember(s)
    case None => None
    case Some((m, rest)) =>
      var w := SkipSpaces(rest);
      if w == [] then None
      else if w[0] == '}' then Some(([m], w[1..]))
      else if w[0] == ',' then
        match ParseMembers(SkipSpaces(w[1..]))
        case None => None
        case Some((members, rest')) => Some(([m] + members, rest'))
      else None
  }

  /** `json.loads`: one value and nothing after it but spaces. */
  function Decode(s: string): (r: Option<Json>)
    ensures SkipSpaces(s) == [] ==> r.None?
  {
    match ParseValue(s)
    case None => None
    case Some((j, rest)) => if SkipSpaces(rest) == [] then Some(j) else None
  }

  // ---------------------------------------------------------------------
  // Round trip

  /** What may follow an encoded value without being read as part of it. */
  predicate Boundary(t: string)
  {
    t == [] || !IsDigit(t[0])
  }

  lemma {:induction false} DigitPrefixOfDigits(d: string, t: string)
    requires AllDigits(d) && Boundary(t)
    ensures DigitPrefix(d + t) == d
  {
    if d == [] {
    } else {
      assert (d + t)[1..] == d[1..] + t;
      DigitPrefixOfDigits(d[1..], t);
    }
  }

  lemma UnsignedRoundTrip(n: nat, t: string)
    requires Boundary(t)
    ensures ParseUnsigned(Decimal(n) + t) == Some((n, t))
  {
    var d := Decimal(n);
    DigitPrefixOfDigits(d, t);
    ParsePadded(n, 1);
    assert (d + t)[|d|..] == t;
  }

  lemma NatRoundTrip(n: nat, t: string)
    requires Boundary(t)
    ensures ParseInt(IntText(n) + t) == Some((n, t))
  {
    assert Decimal(n)[0] != '-';
    UnsignedRoundTrip(n, t);
  }

  lemma NegRoundTrip(n: int, t: string)
    requires n < 0 && Boundary(t)
    ensures ParseInt(IntText(n) + t) == Some((n, t))
  {
    var k: nat := -n;
    var d := Decimal(k);
    assert IntText(n) + t == "-" + (d + t);
    UnsignedRoundTrip(k, t);
    NegativeText(d + t, k, t);
  }

  /** A minus sign in front of digits that read as `k` reads as `-k`. */
  lemma NegativeText(x: string, k: nat, t: string)
    requires ParseUnsigned(x) == Some((k, t))
    ensures ParseInt("-" + x) == Some((0 - k, t))
  {
    assert ("-" + x)[1..] == x;
  }

  lemma HexDigitValue(d: nat)
    requires d < 16
    ensures HexValue(HexDigit(d)) == Some(d)
  {
  }

  /** The hex digits written for a character read back as it. */
  lemma Hex4RoundTrip(c: char)
    requires UEscaped(c)
    ensures UnescapeHex(Hex4(c as int)) == Some(c)
  {
    var n := c as int;
    var q1 := n / 16;
    var q2 := q1 / 16;
    var q3 := q2 / 16;
    HexDigitValue(q3);
    HexDigitValue(q2 % 16);
    HexDigitValue(q1 % 16);
    HexDigitValue(n % 16);
    assert q2 == q3 * 16 + q2 % 16;
    assert q1 == q2 * 16 + q1 % 16;
    assert n == q1 * 16 + n % 16;
  }

  /** Reading one escaped character in front of the rest of a string body. */
  lemma ParseStringStep(c: char, tail: string, body: string, rest: string)
    requires ParseString(tail) == Some((body, rest))
    ensures ParseString(EscapeChar(c) + tail) == Some(([c] + body, rest))
  {
    var e := EscapeChar(c);
    if |e| == 6 {
      Hex4RoundTrip(c);
      assert (e + tail)[2..6] == Hex4(c as int);
      assert (e + tail)[6..] == tail;
    } else if |e| == 2 {
      assert (e + tail)[2..] == tail;
    } else {
      assert (e + tail)[1..] == tail;
    }
  }

  lemma {:induction false} StringRoundTrip(s: string, t: string)
    ensures ParseString(Escape(s) + "\"" + t) == Some((s, t))
  {
    if s == [] {
      assert Escape(s) + "\"" + t == "\"" + t;
    } else {
      var e := EscapeChar(s[0]);
      var tail := Escape(s[1..]) + "\"" + t;
      assert Escape(s) == e + Escape(s[1..]);
      assert Escape(s) + "\"" + t == e + tail;
      StringRoundTrip(s[1..], t);
      ParseStringStep(s[0], tail, s[1..], t);
      assert [s[0]] + s[1..] == s;
    }
  }

  lemma EncodeStart(j: Json)
    ensures |Encode(j)| > 0 && Encode(j)[0] != ' ' && Encode(j)[0] != ']' && Encode(j)[0] != '}'
  {
    match j
    case JInt(n) =>
      if n >= 0 { assert IsDigit(Encode(j)[0]); }
    case _ =>
  }

  lemma EncodeItemsHead(items: seq<Json>)
    requires items != []
    ensures |EncodeItems(items)| > 0 && EncodeItems(items)[0] != ' ' && EncodeItems(items)[0] != ']'
  {
    EncodeStart(items[0]);
  }

  lemma EncodeMembersHead(members: seq<Member>)
    requires members != []
    ensures |EncodeMembers(members)| > 0 && EncodeMembers(members)[0] == '"'
  {
  }

  lemma StartsWithHead(u: string, p: string)
    requires |p| > 0
    ensures StartsWith(u, p) ==> u[0] == p[0]
  {
    if StartsWith(u, p) { assert u[..|p|][0] == u[0]; }
  }

  lemma NoKeyword(u: string)
    requires |u| > 0 && u[0] != 'n' && u[0] != 't' && u[0] != 'f'
    ensures !StartsWith(u, "null") && !StartsWith(u, "true") && !StartsWith(u, "false")
  {
    StartsWithHead(u, "null");
    StartsWithHead(u, "true");
    StartsWithHead(u, "false");
  }

  lemma KeywordRoundTrip(j: Json, t: string)
    requires j.JNull? || j.JBool?
    ensures ParseValue(Encode(j) + t) == Some((j, t))
  {
    var s := Encode(j) + t;
    EncodeStart(j);
    assert SkipSpaces(s) == s;
    if j.JNull? {
      assert s[4..] == t;
    } else if j.b {
      assert s[4..] == t;
    } else {
      StartsWithHead(s, "true");
      assert s[5..] == t;
    }
  }

  lemma IntValueRoundTrip(n: int, t: string)
    requires Boundary(t)
    ensures ParseValue(Encode(JInt(n)) + t) == Some((JInt(n), t))
  {
    var s := Encode(JInt(n)) + t;
    EncodeStart(JInt(n));
    assert SkipSpaces(s) == s;
    if n < 0 {
      NegRoundTrip(n, t);
    } else {
      assert IsDigit(s[0]);
      NatRoundTrip(n, t);
    }
  }

  lemma StrValueRoundTrip(str: string, t: string)
    ensures ParseValue(Encode(JStr(str)) + t) == Some((JStr(str), t))
  {
    var s := Encode(JStr(str)) + t;
    EncodeStart(JStr(str));
    assert SkipSpaces(s) == s;
    assert s[1..] == Escape(str) + "\"" + t;
    StringRoundTrip(str, t);
  }

  lemma {:induction false} ValueRoundTrip(j: Json, t: string)
    requires Boundary(t)
    ensures ParseValue(Encode(j) + t) == Some((j, t))
    decreases j, 3
  {
    match j
    case JArr(items) => ArrayRoundTrip(items, t);
    case JObj(members) => ObjectRoundTrip(members, t);
    case JInt(n) => IntValueRoundTrip(n, t);
    case JStr(str) => StrValueRoundTrip(str, t);
    case _ => KeywordRoundTrip(j, t);
  }

  /** Concatenation regrouped around a container's body. */
  lemma Bracketed(open: char, body: string, close: char, t: string)
    ensures [open] + body + [close] + t == [open] + (body + [close] + t)
  {
  }

  /** ParseValue on text that opens with a bracket or a brace hands the rest to ParseArray or ParseObject. */
  lemma OpenContainer(s: string)
    requires |s| > 0 && (s[0] == '[' || s[0] == '{')
    ensures ParseValue(s) == if s[0] == '[' then ParseArray(s[1..]) else ParseObject(s[1..])
  {
    assert SkipSpaces(s) == s;
  }

  lemma {:induction false} ArrayRoundTrip(items: seq<Json>, t: string)
    requires Boundary(t)
    ensures ParseValue(Encode(JArr(items)) + t) == Some((JArr(items), t))
    decreases items, 2
  {
    var s := Encode(JArr(items)) + t;
    var body := EncodeItems(items) + "]" + t;
    Bracketed('[', EncodeItems(items), ']', t);
    assert s[1..] == body;
    OpenContainer(s);
    if items == [] {
      assert body == "]" + t;
      assert SkipSpaces(body) == body;
      assert body[1..] == t;
    } else {
      EncodeItemsHead(items);
      assert SkipSpaces(body) == body;
      ItemsRoundTrip(items, t);
    }
  }

  lemma {:induction false} ObjectRoundTrip(members: seq<Member>, t: string)
    requires Boundary(t)
    ensures ParseValue(Encode(JObj(members)) + t) == Some((JObj(members), t))
    decreases members, 2
  {
    var s := Encode(JObj(members)) + t;
    var body := EncodeMembers(members) + "}" + t;
    Bracketed('{', EncodeMembers(members), '}', t);
    assert s[1..] == body;
    OpenContainer(s);
    if members == [] {
      assert body == "}" + t;
      assert SkipSpaces(body) == body;
      assert body[1..] == t;
    } else {
      EncodeMembersHead(members);
      assert SkipSpaces(body) == body;
      MembersRoundTrip(members, t);
    }
  }

  /** The last item of an array: the value, then the closing bracket. */
  lemma ItemsLast(s: string, v: Json, t: string)
    requires ParseValue(s) == Some((v, "]" + t))
    ensures ParseItems(s) == Some(([v], t))
  {
    assert SkipSpaces("]" + t) == "]" + t;
    assert ("]" + t)[1..] == t;
  }

  /** An item followed by a comma and the rest of the array. */
  lemma ItemsMore(s: string, v: Json, more: string, vs: seq<Json>, t: string)
    requires ParseValue(s) == Some((v, ", " + more))
    requires more != [] && more[0] != ' '
    requires ParseItems(more) == Some((vs, t))
    ensures ParseItems(s) == Some(([v] + vs, t))
  {
    assert SkipSpaces(", " + more) == ", " + more;
    assert (", " + more)[1..] == " " + more;
    assert SkipSpaces(" " + more) == more;
  }

  lemma ItemsTextLast(items: seq<Json>, t: string)
    requires |items| == 1
    ensures EncodeItems(items) + "]" + t == Encode(items[0]) + ("]" + t)
  {
  }

  lemma ItemsTextMore(items: seq<Json>, t: string)
    requires |items| > 1
    ensures EncodeItems(items) + "]" + t == Encode(items[0]) + (", " + (EncodeItems(items[1..]) + "]" + t))
  {
    var a, b := Encode(items[0]), EncodeItems(items[1..]);
    assert EncodeItems(items) == a + ", " + b;
    Joined(a, b, "]", t);
  }

  /** Concatenation regrouped around a ", " separator. */
  lemma Joined(a: string, b: string, c: string, t: string)
    ensures (((a + ", ") + b) + c) + t == a + (", " + ((b + c) + t))
    ensures ((a + (", " + b)) + c) + t == a + (", " + ((b + c) + t))
  {
  }

  lemma {:induction false} ItemsRoundTrip(items: seq<Json>, t: string)
    requires items != [] && Boundary(t)
    ensures ParseItems(EncodeItems(items) + "]" + t) == Some((items, t))
    decreases items, 1
  {
    var first := items[0];
    if |items| == 1 {
      ItemsTextLast(items, t);
      ValueRoundTrip(first, "]" + t);
      ItemsLast(Encode(first) + ("]" + t), first, t);
      assert [first] == items;
    } else {
      var more := EncodeItems(items[1..]) + "]" + t;
      ItemsTextMore(items, t);
      ValueRoundTrip(first, ", " + more);
      ItemsRoundTrip(items[1..], t);
      EncodeItemsHead(items[1..]);
      ItemsMore(Encode(first) + (", " + more), first, more, items[1..], t);
      assert [first] + items[1..] == items;
    }
  }

  /** Concatenation regrouped around a member's key. */
  lemma Regroup(k: string, v: string, after: string)
    ensures (("\"" + k) + "\"") + (": " + v) + after == "\"" + ((k + "\"") + (": " + (v + after)))
  {
  }

  /** One encoded member reads back, whatever follows its value. */
  lemma MemberRoundTrip(m: Member, after: string)
    requires ParseValue(Encode(m.value) + after) == Some((m.value, after))
    ensures ParseMember(EncodeMember(m) + after) == Some((m, after))
  {
    var k := Escape(m.key);
    var valueText := Encode(m.value) + after;
    var s := EncodeMember(m) + after;
    Regroup(k, Encode(m.value), after);
    assert s == "\"" + ((k + "\"") + (": " + valueText));
    assert s[1..] == k + "\"" + (": " + valueText);
    StringRoundTrip(m.key, ": " + valueText);
    assert SkipSpaces(": " + valueText) == ": " + valueText;
    assert (": " + valueText)[1..] == " " + valueText;
    EncodeStart(m.value);
    assert SkipSpaces(valueText) == valueText;
  }

  /** The last member of an object: the member, then the closing brace. */
  lemma MembersLast(s: string, m: Member, t: string)
    requires ParseMember(s) == Some((m, "}" + t))
    ensures ParseMembers(s) == Some(([m], t))
  {
    assert SkipSpaces("}" + t) == "}" + t;
    assert ("}" + t)[1..] == t;
  }

  /** A member followed by a comma and the rest of the object. */
  lemma MembersMore(s: string, m: Member, more: string, ms: seq<Member>, t: string)
    requires ParseMember(s) == Some((m, ", " + more))
    requires more != [] && more[0] != ' '
    requires ParseMembers(more) == Some((ms, t))
    ensures ParseMembers(s) == Some(([m] + ms, t))
  {
    assert SkipSpaces(", " + more) == ", " + more;
    assert (", " + more)[1..] == " " + more;
    assert SkipSpaces(" " + more) == more;
  }

  lemma MembersTextLast(members: seq<Member>, t: string)
    requires |members| == 1
    ensures EncodeMembers(members) + "}" + t == EncodeMember(members[0]) + ("}" + t)
  {
  }

  lemma MembersTextMore(members: seq<Member>, t: string)
    requires |members| > 1
    ensures EncodeMembers(members) + "}" + t == EncodeMember(members[0]) + (", " + (EncodeMembers(members[1..]) + "}" + t))
  {
    var a, b := EncodeMember(members[0]), EncodeMembers(members[1..]);
    assert EncodeMembers(members) == a + (", " + b);
    Joined(a, b, "}", t);
  }

  lemma {:induction false} MembersRoundTrip(members: seq<Member>, t: string)
    requires members != [] && Boundary(t)
    ensures ParseMembers(EncodeMembers(members) + "}" + t) == Some((members, t))
    decreases members, 1
  {
    var m := members[0];
    if |members| == 1 {
      MembersTextLast(members, t);
      ValueRoundTrip(m.value, "}" + t);
      MemberRoundTrip(m, "}" + t);
      MembersLast(EncodeMember(m) + ("}" + t), m, t);
      assert [m] == members;
    } else {
      var more := EncodeMembers(members[1..]) + "}" + t;
      MembersTextMore(members, t);
      ValueRoundTrip(m.value, ", " + more);
      MemberRoundTrip(m, ", " + more);
      MembersRoundTrip(members[1..], t);
      EncodeMembersHead(members[1..]);
      MembersMore(EncodeMember(m) + (", " + more), m, more, members[1..], t);
      assert [m] + members[1..] == members;
    }
  }

  /** Whatever the store writes with `json.dumps` reads back as the same value. */
  lemma DecodeEncode(j: Json)
    ensures Decode(Encode(j)) == Some(j)
  {
    ValueRoundTrip(j, []);
    assert Encode(j) + [] == Encode(j);
  }

  // ---------------------------------------------------------------------
  // Objects read as Python dictionaries built key by key.

  /** `d.get(key)` on the dictionary the members build: the value under the
      first member with that key (`LookupFirst`). Python's dictionary keeps
      the last of duplicate keys instead; every object this model looks
      into is built by the program itself with distinct keys, where the
      first and the last member with a key are the same one
      (`LookupDistinct`). */
  function Lookup(members: seq<Member>, key: string): (r: Option<Json>)
    ensures r.Some? <==> exists i | 0 <= i < |members| :: members[i].key == key
  {
    if members == [] then None
    else if members[0].key == key then Some(members[0].value)
    else Lookup(members[1..], key)
  }

  /** A found value is the one under the first member with the key. */
  lemma {:induction false} LookupFirst(members: seq<Member>, key: string) returns (i: nat)
    requires Lookup(members, key).Some?
    ensures i < |members| && members[i].key == key && Some(members[i].value) == Lookup(members, key)
    ensures forall k | 0 <= k < i :: members[k].key != key
  {
    if members[0].key == key {
      i := 0;
    } else {
      var t := LookupFirst(members[1..], key);
      i := t + 1;
      assert members[i] == members[1..][t];
      forall k | 0 <= k < i ensures members[k].key != key {
        if k > 0 { assert members[k] == members[1..][k - 1]; }
      }
    }
  }

  /** With distinct keys the member holding a key is the only one, so the
      first-member lookup returns what Python's dictionary keeps. */
  lemma LookupDistinct(members: seq<Member>, key: string, i: nat)
    requires DistinctKeys(members)
    requires i < |members| && members[i].key == key
    ensures Lookup(members, key) == Some(members[i].value)
  {
    var k := LookupFirst(members, key);
    assert k == i;
  }

  /** No key appears twice, as in a dictionary. */
  predicate DistinctKeys(members: seq<Member>)
  {
    forall i, j | 0 <= i < j < |members| :: members[i].key != members[j].key
  }
}
