// Canonical serialization of hold requests (harness/node/canonical.go): the bytes a request is
// fingerprinted and replayed by. A reader of JSON text is the partner that gives the value back.
module CanonicalJson {
  import opened Common
  import opened Utf8Text
  import RowSets

  // what the decoder yields; a number keeps the text it was written with
  datatype Value =
    | Null
    | Bool(on: bool)
    | Number(text: Bytes)
    | Words(words: Text)
    | List(items: seq<Value>)
    | Object(members: map<Text, Value>)

  const MAXIMUM_INT64 := 9223372036854775807

  const QUOTE := 34
  const COMMA := 44
  const COLON := 58
  const OPEN_LIST := 91
  const BACKSLASH := 92
  const CLOSE_LIST := 93
  const OPEN_OBJECT := 123
  const CLOSE_OBJECT := 125
  const PLUS := 43
  const MINUS := 45

  const NULL := [110, 117, 108, 108]
  const TRUE := [116, 114, 117, 101]
  const FALSE := [102, 97, 108, 115, 101]

  // ----- numbers -----

  predicate Digit(b: int) {
    48 <= b <= 57
  }

  predicate Digits(t: Bytes) {
    forall i :: 0 <= i < |t| ==> Digit(t[i])
  }

  function Decimal(t: Bytes): (n: int)
    requires Digits(t)
    ensures 0 <= n
  {
    if t == [] then 0 else Decimal(t[..|t| - 1]) * 10 + (t[|t| - 1] - 48)
  }

  // strconv.ParseInt in base 10: an optional sign, at least one digit, within 64 bits
  function ParseInt(t: Bytes): Option<int> {
    var signed := t != [] && (t[0] == PLUS || t[0] == MINUS);
    var body := if signed then t[1..] else t;
    if body == [] || !Digits(body) then None
    else
      var n := if signed && t[0] == MINUS then -Decimal(body) else Decimal(body);
      if n < -MAXIMUM_INT64 - 1 || MAXIMUM_INT64 < n then None else Some(n)
  }

  predicate SafeNumber(t: Bytes) {
    ParseInt(t).Some? && 0 <= ParseInt(t).value <= MAXIMUM_SAFE_INTEGER
  }

  // Safe are the numbers up to 2^53 - 1 written in digits, with a plus or without, and zero also with a minus.
  lemma SafeMeans(t: Bytes)
    ensures SafeNumber(t) <==>
      || (t != [] && Digits(t) && Decimal(t) <= 9007199254740991)
      || (|t| > 1 && t[0] == '+' as int && Digits(t[1..]) && Decimal(t[1..]) <= 9007199254740991)
      || (|t| > 1 && t[0] == '-' as int && Digits(t[1..]) && Decimal(t[1..]) == 0)
  {
    if t != [] && (t[0] == PLUS || t[0] == MINUS) {
      assert !Digit(t[0]);
    }
  }

  // ----- what is written -----

  function Hex(n: int): int {
    if n < 10 then 48 + n else 87 + n
  }

  function Escape(r: Rune): (b: Bytes)
    ensures b != [] && b[0] != QUOTE
  {
    if r == QUOTE || r == BACKSLASH then [BACKSLASH, r]
    else if r == 8 then [BACKSLASH, 98]
    else if r == 12 then [BACKSLASH, 102]
    else if r == 10 then [BACKSLASH, 110]
    else if r == 13 then [BACKSLASH, 114]
    else if r == 9 then [BACKSLASH, 116]
    else if r < 32 then [BACKSLASH, 117, 48, 48, Hex(r / 16), Hex(r % 16)]
    else EncodeRune(r)
  }

  // a text up to its closing quote
  function EscapedFrom(t: Text): Bytes {
    if t == [] then [QUOTE] else Escape(t[0]) + EscapedFrom(t[1..])
  }

  ghost function Written(v: Value): Bytes
    decreases v
  {
    match v
    case Null => NULL
    case Bool(on) => if on then TRUE else FALSE
    case Number(text) => text
    case Words(words) => [QUOTE] + EscapedFrom(words)
    case List(items) => [OPEN_LIST] + ItemsFrom(v, 0)
    case Object(members) => [OPEN_OBJECT] + MembersFrom(v, SortedKeys(members.Keys), 0)
  }

  function Comma(i: nat): Bytes {
    if i > 0 then [COMMA] else []
  }

  // the items from the i-th on, with what separates and closes them
  ghost function ItemsFrom(v: Value, i: nat): Bytes
    requires v.List? && i <= |v.items|
    decreases v, |v.items| - i
  {
    if i == |v.items| then [CLOSE_LIST]
    else Comma(i) + (Written(v.items[i]) + ItemsFrom(v, i + 1))
  }

  ghost function MembersFrom(v: Value, keys: seq<Text>, i: nat): Bytes
    requires v.Object? && i <= |keys| && forall k :: k in keys ==> k in v.members
    decreases v, |keys| - i
  {
    if i == |keys| then [CLOSE_OBJECT]
    else Comma(i) + ([QUOTE] + EscapedFrom(keys[i]) + ([COLON] + (Written(v.members[keys[i]]) + MembersFrom(v, keys, i + 1))))
  }

  // a value is refused exactly for a number that is no safe unsigned integer
  ghost predicate Serializable(v: Value) {
    match v
    case Number(text) => SafeNumber(text)
    case List(items) => forall i :: 0 <= i < |items| ==> Serializable(items[i])
    case Object(members) => forall k :: k in members ==> Serializable(members[k])
    case _ => true
  }

  // ----- what canonical text looks like -----

  function Ascii(s: string): (b: Bytes)
    ensures |b| == |s| && forall i :: 0 <= i < |s| ==> b[i] == s[i] as int
  {
    if s == "" then [] else [s[0] as int] + Ascii(s[1..])
  }

  const HEX_DIGITS := "0123456789abcdef"

  // Quote and backslash are escaped by themselves, five control characters have a letter, the others two lowercase
  // hexadecimal digits, and everything else is written as it is in UTF-8.
  lemma EscapeForms(r: Rune)
    ensures r == '"' as int ==> Escape(r) == Ascii("\\\"")
    ensures r == '\\' as int ==> Escape(r) == Ascii("\\\\")
    ensures r == 8 ==> Escape(r) == Ascii("\\b")
    ensures r == 9 ==> Escape(r) == Ascii("\\t")
    ensures r == 10 ==> Escape(r) == Ascii("\\n")
    ensures r == 12 ==> Escape(r) == Ascii("\\f")
    ensures r == 13 ==> Escape(r) == Ascii("\\r")
    ensures r < 32 && r !in {8, 9, 10, 12, 13} ==> Escape(r) == Ascii("\\u00" + [HEX_DIGITS[r / 16], HEX_DIGITS[r % 16]])
    ensures r >= 32 && r != '"' as int && r != '\\' as int ==> Escape(r) == EncodeRune(r)
  {
    if r < 32 && r !in {8, 9, 10, 12, 13} {
      HexForm(r);
    }
  }

  lemma HexForm(r: Rune)
    requires r < 32 && r !in {8, 9, 10, 12, 13}
    ensures Escape(r) == Ascii("\\u00" + [HEX_DIGITS[r / 16], HEX_DIGITS[r % 16]])
  {
  }

  function Flat(parts: seq<Bytes>): Bytes {
    if parts == [] then [] else parts[0] + Flat(parts[1..])
  }

  // the parts with a comma between each two
  function Joined(parts: seq<Bytes>): Bytes {
    if parts == [] then [] else if |parts| == 1 then parts[0] else parts[0] + Ascii(",") + Joined(parts[1..])
  }

  lemma TokensForm(v: Value)
    ensures v.Null? ==> Written(v) == Ascii("null")
    ensures v.Bool? ==> Written(v) == Ascii(if v.on then "true" else "false")
    ensures v.Number? ==> Written(v) == v.text
  {
  }

  // a text is its escaped code points between quotes
  lemma TextForm(t: Text)
    ensures Written(Words(t)) == Ascii("\"") + Flat(seq(|t|, i requires 0 <= i < |t| => Escape(t[i]))) + Ascii("\"")
  {
    EscapedForm(t);
  }

  lemma {:induction false} EscapedForm(t: Text)
    ensures EscapedFrom(t) == Flat(seq(|t|, i requires 0 <= i < |t| => Escape(t[i]))) + Ascii("\"")
  {
    hide Escape;
    var parts := seq(|t|, i requires 0 <= i < |t| => Escape(t[i]));
    if t != [] {
      var rest := t[1..];
      EscapedForm(rest);
      assert parts[1..] == seq(|rest|, i requires 0 <= i < |rest| => Escape(rest[i]));
    }
  }

  // a list is its items between brackets, with commas and nothing else
  lemma ListForm(v: Value)
    requires v.List?
    ensures Written(v) == Ascii("[") + Joined(seq(|v.items|, i requires 0 <= i < |v.items| => Written(v.items[i]))) + Ascii("]")
  {
    var parts := seq(|v.items|, i requires 0 <= i < |v.items| => Written(v.items[i]));
    assert parts[0..] == parts;
    ItemsForm(v, parts, 0);
  }

  lemma {:induction false} ItemsForm(v: Value, parts: seq<Bytes>, i: nat)
    requires v.List? && i <= |v.items| == |parts| && forall j :: 0 <= j < |parts| ==> parts[j] == Written(v.items[j])
    ensures ItemsFrom(v, i) == (if 0 < i < |v.items| then Ascii(",") else []) + Joined(parts[i..]) + Ascii("]")
    decreases |v.items| - i
  {
    hide Written;
    if i < |v.items| {
      ItemsForm(v, parts, i + 1);
      assert parts[i..][1..] == parts[i + 1..];
    }
  }

  // an object is its members between braces, each key a text followed by a colon and its value, in ascending order
  lemma ObjectForm(v: Value) returns (keys: seq<Text>)
    requires v.Object?
    ensures (forall k :: k in keys <==> k in v.members) && forall i, j :: 0 <= i < j < |keys| ==> ComesFirst(keys[i], keys[j])
    ensures Written(v) == Ascii("{") + Joined(seq(|keys|, i requires 0 <= i < |keys| => Member(v, keys[i]))) + Ascii("}")
  {
    hide Before, ComesFirst, MembersFrom;
    keys := SortedKeys(v.members.Keys);
    forall i, j | 0 <= i < j < |keys| ensures ComesFirst(keys[i], keys[j]) {
      assert Before(keys[i], keys[j]);
      BeforeComesFirst(keys[i], keys[j]);
    }
    var parts := seq(|keys|, i requires 0 <= i < |keys| => Member(v, keys[i]));
    assert parts[0..] == parts;
    MembersForm(v, keys, parts, 0);
  }

  ghost function Member(v: Value, key: Text): Bytes
    requires v.Object?
  {
    if key in v.members then Written(Words(key)) + Ascii(":") + Written(v.members[key]) else []
  }

  // where two texts first differ, this one has the smaller code point or has ended
  ghost predicate ComesFirst(a: Text, b: Text) {
    exists k :: 0 <= k <= |a| && k < |b| && a[..k] == b[..k] && (k == |a| || a[k] < b[k])
  }

  lemma BeforeComesFirst(a: Text, b: Text)
    requires Before(a, b)
    ensures ComesFirst(a, b)
  {
    BytesKeepOrder(a, b);
    LessComesFirst(a, b);
  }

  lemma {:induction false} LessComesFirst(a: Text, b: Text)
    requires Less(a, b)
    ensures ComesFirst(a, b)
  {
    if a == [] || a[0] < b[0] {
      assert a[..0] == b[..0];
    } else {
      LessComesFirst(a[1..], b[1..]);
      var k :| 0 <= k <= |a[1..]| && k < |b[1..]| && a[1..][..k] == b[1..][..k] && (k == |a[1..]| || a[1..][k] < b[1..][k]);
      assert a[..k + 1] == [a[0]] + a[1..][..k] && b[..k + 1] == [b[0]] + b[1..][..k];
    }
  }

  lemma {:induction false} MembersForm(v: Value, keys: seq<Text>, parts: seq<Bytes>, i: nat)
    requires v.Object? && i <= |keys| == |parts| && (forall k :: k in keys ==> k in v.members)
    requires forall j :: 0 <= j < |parts| ==> parts[j] == Member(v, keys[j])
    ensures MembersFrom(v, keys, i) == (if 0 < i < |keys| then Ascii(",") else []) + Joined(parts[i..]) + Ascii("}")
    decreases |keys| - i
  {
    hide Written, EscapedFrom, Joined, Comma, Ascii, MembersFrom;
    Punctuation(i);
    if i < |keys| {
      MembersForm(v, keys, parts, i + 1);
      MemberForm(v, keys, i);
      JoinedFrom(parts, i);
      var next := if i + 1 < |keys| then Ascii(",") else [];
      Regroup(Comma(i), parts[i], next, Joined(parts[i + 1..]), Ascii("}"));
    } else {
      NoneLeft(v, keys, parts);
    }
  }

  lemma MemberForm(v: Value, keys: seq<Text>, i: nat)
    requires v.Object? && i < |keys| && (forall k :: k in keys ==> k in v.members)
    ensures MembersFrom(v, keys, i) == Comma(i) + (Member(v, keys[i]) + MembersFrom(v, keys, i + 1))
  {
    hide Written, EscapedFrom, Comma;
    Quoted(keys[i]);
    Assembled([QUOTE] + EscapedFrom(keys[i]), Ascii(":"), Written(v.members[keys[i]]), MembersFrom(v, keys, i + 1));
  }

  lemma NoneLeft(v: Value, keys: seq<Text>, parts: seq<Bytes>)
    requires v.Object? && (forall k :: k in keys ==> k in v.members)
    ensures MembersFrom(v, keys, |keys|) == [CLOSE_OBJECT] && Joined(parts[|parts|..]) == []
  {
  }

  lemma Punctuation(i: nat)
    ensures Comma(i) == (if i > 0 then Ascii(",") else []) && [CLOSE_OBJECT] == Ascii("}")
  {
  }

  lemma Assembled(q: Bytes, colon: Bytes, w: Bytes, m: Bytes)
    ensures q + (colon + (w + m)) == (q + colon + w) + m
  {
  }

  lemma Regroup(c: Bytes, part: Bytes, next: Bytes, rest: Bytes, close: Bytes)
    ensures c + (part + (next + rest + close)) == c + (part + next + rest) + close
  {
  }

  lemma JoinedFrom(parts: seq<Bytes>, i: nat)
    requires i < |parts|
    ensures Joined(parts[i..]) == parts[i] + (if i + 1 < |parts| then Ascii(",") else []) + Joined(parts[i + 1..])
  {
    assert parts[i..][1..] == parts[i + 1..];
  }

  lemma Quoted(t: Text)
    ensures Written(Words(t)) == [QUOTE] + EscapedFrom(t)
  {
  }

  // ----- a reader of JSON text -----

  datatype Reading<+T> = Reading(value: T, rest: Bytes)

  function HexValue(b: int): (v: Option<int>)
    ensures v.Some? ==> 0 <= v.value < 16
  {
    if Digit(b) then Some(b - 48) else if 97 <= b <= 102 then Some(b - 87) else if 65 <= b <= 70 then Some(b - 55) else None
  }

  // four hexadecimal digits
  function ReadHex(s: Bytes): (v: Option<int>)
    requires |s| >= 4
    ensures v.Some? ==> 0 <= v.value <= 0xFFFF
  {
    var a, b, c, d := HexValue(s[0]), HexValue(s[1]), HexValue(s[2]), HexValue(s[3]);
    if a.None? || b.None? || c.None? || d.None? then None
    else Some(((a.value * 16 + b.value) * 16 + c.value) * 16 + d.value)
  }

  // one character of a text, escaped or not (section 7 of RFC 8259; escaped surrogates are refused)
  function ReadRune(s: Bytes): (r: Option<Reading<Rune>>)
    ensures r.Some? ==> |r.value.rest| < |s|
  {
    if s == [] || 0 <= s[0] < 32 then None
    else if s[0] != BACKSLASH then
      match DecodeRune(s)
      case Malformed => None
      case Decoded(rune, size) => Some(Reading(rune, s[size..]))
    else if |s| < 2 then None
    else if s[1] == QUOTE || s[1] == BACKSLASH || s[1] == 47 then Some(Reading(s[1], s[2..]))
    else if s[1] == 98 then Some(Reading(8, s[2..]))
    else if s[1] == 102 then Some(Reading(12, s[2..]))
    else if s[1] == 110 then Some(Reading(10, s[2..]))
    else if s[1] == 114 then Some(Reading(13, s[2..]))
    else if s[1] == 116 then Some(Reading(9, s[2..]))
    else if s[1] != 117 || |s| < 6 then None
    else
      match ReadHex(s[2..6])
      case None => None
      case Some(c) => if 0xD800 <= c < 0xE000 then None else Some(Reading(c, s[6..]))
  }

  // a text after its opening quote
  function ReadText(s: Bytes): (r: Option<Reading<Text>>)
    ensures r.Some? ==> |r.value.rest| < |s|
    decreases |s|
  {
    if s == [] then None
    else if s[0] == QUOTE then Some(Reading([], s[1..]))
    else
      match ReadRune(s)
      case None => None
      case Some(one) =>
        match ReadText(one.rest)
        case None => None
        case Some(more) => Some(Reading([one.value] + more.value, more.rest))
  }

  predicate NumberByte(b: int) {
    Digit(b) || b == PLUS || b == MINUS
  }

  function NumberRun(s: Bytes): (n: nat)
    ensures n <= |s|
  {
    if s == [] || !NumberByte(s[0]) then 0 else 1 + NumberRun(s[1..])
  }

  function ReadValue(s: Bytes): (r: Option<Reading<Value>>)
    ensures r.Some? ==> |r.value.rest| < |s|
    decreases |s|, 0
  {
    if NULL <= s then Some(Reading(Null, s[4..]))
    else if TRUE <= s then Some(Reading(Bool(true), s[4..]))
    else if FALSE <= s then Some(Reading(Bool(false), s[5..]))
    else if s == [] then None
    else if s[0] == QUOTE then
      match ReadText(s[1..])
      case None => None
      case Some(t) => Some(Reading(Words(t.value), t.rest))
    else if s[0] == OPEN_LIST then ReadItems(s[1..], [])
    else if s[0] == OPEN_OBJECT then ReadMembers(s[1..], map[])
    else
      var n := NumberRun(s);
      if n == 0 || !SafeNumber(s[..n]) then None else Some(Reading(Number(s[..n]), s[n..]))
  }

  // the rest of a list
  function ReadItems(s: Bytes, done: seq<Value>): (r: Option<Reading<Value>>)
    ensures r.Some? ==> |r.value.rest| < |s|
    decreases |s|, 1
  {
    if s == [] then None
    else if s[0] == CLOSE_LIST then Some(Reading(List(done), s[1..]))
    else if done != [] && s[0] != COMMA then None
    else
      match ReadValue(if done == [] then s else s[1..])
      case None => None
      case Some(one) => ReadItems(one.rest, done + [one.value])
  }

  // the rest of an object: a key that comes twice is refused
  function ReadMembers(s: Bytes, done: map<Text, Value>): (r: Option<Reading<Value>>)
    ensures r.Some? ==> |r.value.rest| < |s|
    decreases |s|, 1
  {
    if s == [] then None
    else if s[0] == CLOSE_OBJECT then Some(Reading(Object(done), s[1..]))
    else if done != map[] && s[0] != COMMA then None
    else
      var body := if done == map[] then s else s[1..];
      if body == [] || body[0] != QUOTE then None
      else
        match ReadText(body[1..])
        case None => None
        case Some(key) =>
          if key.value in done || key.rest == [] || key.rest[0] != COLON then None
          else
            match ReadValue(key.rest[1..])
            case None => None
            case Some(one) => ReadMembers(one.rest, done[key.value := one.value])
  }

  // ----- the round trip -----

  lemma RuneRoundTrip(r: Rune, rest: Bytes)
    ensures ReadRune(Escape(r) + rest) == Some(Reading(r, rest))
  {
    var s := Escape(r) + rest;
    if r == QUOTE || r == BACKSLASH || 8 <= r <= 10 || 12 <= r <= 13 {
      assert s[2..] == rest;
    } else if r < 32 {
      assert s[6..] == rest;
    } else {
      hide EncodeRune, DecodeRune;
      RuneReads(r, rest);
      PlainLead(r);
      assert s[|EncodeRune(r)|..] == rest;
    }
  }

  lemma PlainLead(r: Rune)
    requires r >= 32 && r != BACKSLASH
    ensures EncodeRune(r)[0] >= 32 && EncodeRune(r)[0] != BACKSLASH
  {
  }

  lemma {:induction false} TextRoundTrip(t: Text, rest: Bytes)
    ensures ReadText(EscapedFrom(t) + rest) == Some(Reading(t, rest))
  {
    var s := EscapedFrom(t) + rest;
    if t == [] {
      assert s[1..] == rest;
    } else {
      hide Escape, ReadRune;
      assert s == Escape(t[0]) + (EscapedFrom(t[1..]) + rest);
      RuneRoundTrip(t[0], EscapedFrom(t[1..]) + rest);
      TextRoundTrip(t[1..], rest);
      assert t == [t[0]] + t[1..];
    }
  }

  // nothing that may follow a value reads as more of a number
  predicate Follows(rest: Bytes) {
    rest == [] || !NumberByte(rest[0])
  }

  lemma {:induction false} RunEnds(t: Bytes, rest: Bytes)
    requires (forall i :: 0 <= i < |t| ==> NumberByte(t[i])) && Follows(rest)
    ensures NumberRun(t + rest) == |t|
  {
    if t == [] {
      assert t + rest == rest;
    } else {
      assert (t + rest)[1..] == t[1..] + rest;
      RunEnds(t[1..], rest);
    }
  }

  lemma NumberRoundTrip(t: Bytes, rest: Bytes)
    requires SafeNumber(t) && Follows(rest)
    ensures ReadValue(t + rest) == Some(Reading(Number(t), rest))
  {
    var s := t + rest;
    forall i | 0 <= i < |t| ensures NumberByte(t[i]) {
      assert Digits(if t[0] == PLUS || t[0] == MINUS then t[1..] else t);
      if t[0] == PLUS || t[0] == MINUS {
        assert i > 0 ==> t[1..][i - 1] == t[i];
      }
    }
    RunEnds(t, rest);
    assert t != [] && s[0] == t[0] && NumberByte(t[0]);
    assert s[..|t|] == t && s[|t|..] == rest;
  }

  lemma NoLiteral(s: Bytes)
    requires s != [] && s[0] !in [NULL[0], TRUE[0], FALSE[0]]
    ensures !(NULL <= s) && !(TRUE <= s) && !(FALSE <= s)
  {
  }

  lemma BoolRoundTrip(on: bool, rest: Bytes)
    ensures ReadValue((if on then TRUE else FALSE) + rest) == Some(Reading(Bool(on), rest))
  {
    var text := if on then TRUE else FALSE;
    var s := text + rest;
    assert s[0] == text[0] && !(NULL <= s);
    assert s[..|text|] == text && s[|text|..] == rest;
    assert !on ==> !(TRUE <= s);
  }

  // Reading what was written gives the value back and stops where it ended.
  lemma {:induction false} RoundTrip(v: Value, rest: Bytes)
    requires Serializable(v) && Follows(rest)
    ensures ReadValue(Written(v) + rest) == Some(Reading(v, rest))
    decreases v
  {
    hide ReadItems, ReadMembers, ItemsFrom, MembersFrom, ReadText, EscapedFrom, SafeNumber, NumberRun, SortedKeys;
    var s := Written(v) + rest;
    match v
    case Null => assert s[4..] == rest;
    case Bool(on) =>
      assert Written(v) == (if on then TRUE else FALSE);
      BoolRoundTrip(on, rest);
    case Number(text) => NumberRoundTrip(text, rest);
    case Words(words) =>
      NoLiteral(s);
      assert s[1..] == EscapedFrom(words) + rest;
      TextRoundTrip(words, rest);
    case List(items) =>
      ItemsRoundTrip(v, 0, rest);
      NoLiteral(s);
      assert s[1..] == ItemsFrom(v, 0) + rest && v.items[..0] == [];
    case Object(members) =>
      var keys := SortedKeys(members.Keys);
      NoLiteral(s);
      assert s[1..] == MembersFrom(v, keys, 0) + rest && Upto(v, keys, 0) == map[];
      MembersRoundTrip(v, keys, 0, rest);
  }

  lemma ReadsItem(s: Bytes, done: seq<Value>, one: Value, more: Bytes)
    requires s != [] && s[0] != CLOSE_LIST && (done != [] ==> s[0] == COMMA)
    requires ReadValue(if done == [] then s else s[1..]) == Some(Reading(one, more))
    ensures ReadItems(s, done) == ReadItems(more, done + [one])
  {
    hide ReadValue;
  }

  lemma ReadsClose(s: Bytes, done: seq<Value>, rest: Bytes)
    requires s == [CLOSE_LIST] + rest
    ensures ReadItems(s, done) == Some(Reading(List(done), rest))
  {
    assert s[1..] == rest;
  }

  lemma ReadsEnd(s: Bytes, done: map<Text, Value>, rest: Bytes)
    requires s == [CLOSE_OBJECT] + rest
    ensures ReadMembers(s, done) == Some(Reading(Object(done), rest))
  {
    assert s[1..] == rest;
  }

  lemma ReadsMember(s: Bytes, body: Bytes, done: map<Text, Value>, key: Text, tail: Bytes, one: Value, more: Bytes)
    requires s != [] && s[0] != CLOSE_OBJECT && (done != map[] ==> s[0] == COMMA)
    requires body == (if done == map[] then s else s[1..]) && body != [] && body[0] == QUOTE
    requires ReadText(body[1..]) == Some(Reading(key, [COLON] + tail)) && key !in done
    requires ReadValue(tail) == Some(Reading(one, more))
    ensures ReadMembers(s, done) == ReadMembers(more, done[key := one])
  {
    hide ReadValue, ReadText;
    assert ([COLON] + tail)[1..] == tail;
  }

  lemma {:induction false} ItemsRoundTrip(v: Value, i: nat, rest: Bytes)
    requires v.List? && Serializable(v) && i <= |v.items|
    ensures ReadItems(ItemsFrom(v, i) + rest, v.items[..i]) == Some(Reading(v, rest))
    decreases v, |v.items| - i
  {
    hide Written, ReadValue, ReadItems, ItemsFrom;
    var s := ItemsFrom(v, i) + rest;
    if i == |v.items| {
      assert v.items[..i] == v.items;
      ItemsEnd(v);
      ReadsClose(s, v.items, rest);
    } else {
      var one, more := Written(v.items[i]), ItemsFrom(v, i + 1) + rest;
      CommaFollows(v, i + 1, rest);
      RoundTrip(v.items[i], more);
      NeverCloses(v.items[i]);
      ItemsUnfold(v, i, rest);
      assert s == Comma(i) + (one + more) && (if v.items[..i] == [] then s else s[1..]) == one + more;
      ReadsItem(s, v.items[..i], v.items[i], more);
      ItemsRoundTrip(v, i + 1, rest);
      assert v.items[..i + 1] == v.items[..i] + [v.items[i]];
    }
  }

  lemma ItemsEnd(v: Value)
    requires v.List?
    ensures ItemsFrom(v, |v.items|) == [CLOSE_LIST]
  {
  }

  lemma ItemsUnfold(v: Value, i: nat, rest: Bytes)
    requires v.List? && i < |v.items|
    ensures ItemsFrom(v, i) + rest == Comma(i) + (Written(v.items[i]) + (ItemsFrom(v, i + 1) + rest))
  {
    hide Written, Comma;
    var a, b, c := Comma(i), Written(v.items[i]), ItemsFrom(v, i + 1);
    assert (a + (b + c)) + rest == a + (b + (c + rest));
  }

  lemma CommaFollows(v: Value, i: nat, rest: Bytes)
    requires v.List? && 0 < i <= |v.items|
    ensures Follows(ItemsFrom(v, i) + rest)
  {
    hide Written;
  }

  // the first byte of a value is no closing bracket
  lemma NeverCloses(v: Value)
    requires Serializable(v)
    ensures Written(v) != [] && Written(v)[0] != CLOSE_LIST
  {
    if v.Number? {
      assert NumberByte(v.text[0]);
    }
  }

  lemma {:induction false} MembersRoundTrip(v: Value, keys: seq<Text>, i: nat, rest: Bytes)
    requires v.Object? && Serializable(v) && i <= |keys| && Ascending(keys)
    requires forall k :: k in keys <==> k in v.members
    ensures ReadMembers(MembersFrom(v, keys, i) + rest, Upto(v, keys, i)) == Some(Reading(v, rest))
    decreases v, |keys| - i
  {
    hide Ascending, Written, ReadValue, ReadMembers, Upto, MembersFrom;
    if i == |keys| {
      UptoEnds(v, keys, i);
      MembersEnd(v, keys);
      ReadsEnd(MembersFrom(v, keys, i) + rest, v.members, rest);
    } else {
      MemberFollows(v, keys, i + 1, rest);
      RoundTrip(v.members[keys[i]], MembersFrom(v, keys, i + 1) + rest);
      MemberRoundTrip(v, keys, i, rest);
      MembersRoundTrip(v, keys, i + 1, rest);
    }
  }

  // one member is read off
  lemma MemberRoundTrip(v: Value, keys: seq<Text>, i: nat, rest: Bytes)
    requires v.Object? && i < |keys| && Ascending(keys) && forall k :: k in keys <==> k in v.members
    requires var more := MembersFrom(v, keys, i + 1) + rest;
      ReadValue(Written(v.members[keys[i]]) + more) == Some(Reading(v.members[keys[i]], more))
    ensures ReadMembers(MembersFrom(v, keys, i) + rest, Upto(v, keys, i))
         == ReadMembers(MembersFrom(v, keys, i + 1) + rest, Upto(v, keys, i + 1))
  {
    hide Ascending, Written, ReadValue, ReadText, ReadMembers, EscapedFrom, Upto, MembersFrom;
    var key, one := keys[i], v.members[keys[i]];
    var more := MembersFrom(v, keys, i + 1) + rest;
    var tail := Written(one) + more;
    var body := [QUOTE] + (EscapedFrom(key) + ([COLON] + tail));
    MembersUnfold(v, keys, i, rest);
    UptoEnds(v, keys, i);
    UptoNext(v, keys, i);
    assert body[1..] == EscapedFrom(key) + ([COLON] + tail);
    TextRoundTrip(key, [COLON] + tail);
    assert (Comma(i) + body)[|Comma(i)|..] == body;
    ReadsMember(Comma(i) + body, body, Upto(v, keys, i), key, tail, one, more);
  }

  lemma MembersEnd(v: Value, keys: seq<Text>)
    requires v.Object? && forall k :: k in keys ==> k in v.members
    ensures MembersFrom(v, keys, |keys|) == [CLOSE_OBJECT]
  {
  }

  lemma MembersUnfold(v: Value, keys: seq<Text>, i: nat, rest: Bytes)
    requires v.Object? && i < |keys| && forall k :: k in keys ==> k in v.members
    ensures MembersFrom(v, keys, i) + rest
         == Comma(i) + ([QUOTE] + (EscapedFrom(keys[i]) + ([COLON] + (Written(v.members[keys[i]]) + (MembersFrom(v, keys, i + 1) + rest)))))
  {
    hide Written, EscapedFrom, Comma;
    var a, b, c, d := Comma(i), [QUOTE] + EscapedFrom(keys[i]), Written(v.members[keys[i]]), MembersFrom(v, keys, i + 1);
    assert (c + d) + rest == c + (d + rest);
    assert ([COLON] + (c + d)) + rest == [COLON] + (c + (d + rest));
    assert (b + ([COLON] + (c + d))) + rest == b + ([COLON] + (c + (d + rest)));
    assert (a + (b + ([COLON] + (c + d)))) + rest == a + (b + ([COLON] + (c + (d + rest))));
  }

  lemma MemberFollows(v: Value, keys: seq<Text>, i: nat, rest: Bytes)
    requires v.Object? && 0 < i <= |keys| && forall k :: k in keys ==> k in v.members
    ensures Follows(MembersFrom(v, keys, i) + rest)
  {
    hide Written, EscapedFrom;
  }

  // the members whose keys have been read
  ghost function Upto(v: Value, keys: seq<Text>, i: nat): map<Text, Value>
    requires v.Object? && i <= |keys|
  {
    map k | k in v.members && k in keys[..i] :: v.members[k]
  }

  lemma UptoEnds(v: Value, keys: seq<Text>, i: nat)
    requires v.Object? && i <= |keys| && forall k :: k in keys <==> k in v.members
    ensures Upto(v, keys, i) == map[] <==> i == 0
    ensures i == |keys| ==> Upto(v, keys, i) == v.members
  {
    if i > 0 {
      assert keys[0] in keys[..i] && keys[0] in Upto(v, keys, i);
    }
    if i == |keys| {
      assert keys[..i] == keys;
    }
  }

  lemma UptoNext(v: Value, keys: seq<Text>, i: nat)
    requires v.Object? && i < |keys| && Ascending(keys) && keys[i] in v.members
    ensures keys[i] !in Upto(v, keys, i)
    ensures Upto(v, keys, i + 1) == Upto(v, keys, i)[keys[i] := v.members[keys[i]]]
  {
    forall j | 0 <= j < i ensures keys[j] != keys[i] {
      BeforeIsTotal(keys[j], keys[i]);
    }
    assert keys[..i + 1] == keys[..i] + [keys[i]];
  }

  // Equal bytes are equal values: a fingerprint of the bytes stands for the request.
  lemma EqualBytesEqualValues(v: Value, w: Value)
    requires Serializable(v) && Serializable(w)
    ensures Written(v) == Written(w) <==> v == w
  {
    if Written(v) == Written(w) {
      RoundTrip(v, []);
      RoundTrip(w, []);
      assert Written(v) + [] == Written(w) + [];
    }
  }

  // ----- one number, one text, except for minus zero -----

  // a number as JSON spells an integer: no plus sign, no leading zero
  predicate Plain(t: Bytes) {
    t != [] && Digits(t) && (t[0] == 48 ==> |t| == 1)
  }

  predicate JsonInteger(t: Bytes) {
    Plain(t) || (t != [] && t[0] == MINUS && Plain(t[1..]))
  }

  lemma {:induction false} PlainIsPositive(t: Bytes)
    requires Plain(t)
    ensures t != [48] ==> Decimal(t) >= 1
  {
    if |t| > 1 {
      PlainIsPositive(t[..|t| - 1]);
    }
  }

  lemma {:induction false} PlainIsUnique(t: Bytes, u: Bytes)
    requires Plain(t) && Plain(u) && Decimal(t) == Decimal(u)
    ensures t == u
  {
    var a, b := t[..|t| - 1], u[..|u| - 1];
    assert t[|t| - 1] == u[|u| - 1] && Decimal(a) == Decimal(b);
    if |t| > 1 {
      PlainIsPositive(a);
    }
    if |u| > 1 {
      PlainIsPositive(b);
    }
    if |t| > 1 && |u| > 1 {
      PlainIsUnique(a, b);
    }
    assert t == a + [t[|t| - 1]] && u == b + [u[|u| - 1]];
  }

  // Of the spellings JSON allows, a serialized number has one, except that zero may keep a minus sign
  // it was sent with; RFC 8785 (section 3.2.2.3) would drop the sign.
  lemma SameNumberSameText(t: Bytes, u: Bytes)
    requires JsonInteger(t) && JsonInteger(u) && SafeNumber(t) && SafeNumber(u)
    ensures ParseInt(t) == ParseInt(u) <==> t == u || (t in [[48], [MINUS, 48]] && u in [[48], [MINUS, 48]])
  {
    MinusIsZero(t);
    MinusIsZero(u);
    if ParseInt(t) == ParseInt(u) && t[0] != MINUS && u[0] != MINUS {
      PlainIsUnique(t, u);
    }
    assert ParseInt([48]) == Some(0) && ParseInt([MINUS, 48]) == Some(0) by {
      assert [MINUS, 48][1..] == [48] && Decimal([48]) == 0;
    }
  }

  lemma MinusIsZero(t: Bytes)
    requires JsonInteger(t) && SafeNumber(t)
    ensures t[0] == MINUS ==> t == [MINUS, 48]
    ensures ParseInt(t) == Some(0) ==> t == [48] || t == [MINUS, 48]
  {
    if t[0] == MINUS {
      PlainIsPositive(t[1..]);
      assert t == [MINUS] + t[1..];
    } else {
      PlainIsPositive(t);
    }
  }

  // ----- the serializer as it runs, appending to a buffer -----

  // appendJSONString
  method AppendText(destination: Bytes, t: Text) returns (out: Bytes)
    ensures out == destination + [QUOTE] + EscapedFrom(t)
  {
    out := destination + [QUOTE];
    for i := 0 to |t|
      invariant out + EscapedFrom(t[i..]) == destination + [QUOTE] + EscapedFrom(t)
    {
      assert t[i..][1..] == t[i + 1..];
      out := out + Escape(t[i]);
    }
    out := out + [QUOTE];
  }

  // the keys of an object, met in whatever order the map gives them
  method MeetKeys(members: map<Text, Value>) returns (met: seq<Text>)
    ensures Distinct(met) && forall k :: k in met <==> k in members
  {
    met := [];
    var left := members.Keys;
    while left != {}
      invariant left <= members.Keys && Distinct(met)
      invariant forall k :: k in met <==> k in members && k !in left
      decreases |left|
    {
      var k := RowSets.AnyOf(left);
      met, left := met + [k], left - {k};
    }
  }

  // appendCanonical
  method AppendCanonical(destination: Bytes, v: Value) returns (result: Option<Bytes>)
    ensures Serializable(v) ==> result == Some(destination + Written(v))
    ensures !Serializable(v) ==> result == None
    decreases v
  {
    match v
    case Null => result := Some(destination + NULL);
    case Bool(on) => result := Some(destination + (if on then TRUE else FALSE));
    case Number(text) => result := if SafeNumber(text) then Some(destination + text) else None;
    case Words(words) =>
      var out := AppendText(destination, words);
      assert destination + [QUOTE] + EscapedFrom(words) == destination + ([QUOTE] + EscapedFrom(words));
      result := Some(out);
    case List(items) => result := AppendItems(destination, v);
    case Object(members) => result := AppendMembers(destination, v);
  }

  lemma ItemAppended(out: Bytes, v: Value, i: nat, whole: Bytes)
    requires v.List? && i < |v.items| && out + ItemsFrom(v, i) == whole
    ensures (out + Comma(i) + Written(v.items[i])) + ItemsFrom(v, i + 1) == whole
  {
    hide Written, Comma;
    var a, b, c := Comma(i), Written(v.items[i]), ItemsFrom(v, i + 1);
    assert (out + a + b) + c == out + (a + (b + c));
  }

  lemma MemberAppended(out: Bytes, v: Value, keys: seq<Text>, i: nat, whole: Bytes)
    requires v.Object? && i < |keys| && (forall k :: k in keys ==> k in v.members) && out + MembersFrom(v, keys, i) == whole
    ensures (out + Comma(i) + [QUOTE] + EscapedFrom(keys[i]) + [COLON] + Written(v.members[keys[i]])) + MembersFrom(v, keys, i + 1) == whole
  {
    hide Written, Comma, EscapedFrom;
    var a, b, c, d := Comma(i), EscapedFrom(keys[i]), Written(v.members[keys[i]]), MembersFrom(v, keys, i + 1);
    assert (out + a + [QUOTE] + b + [COLON] + c) + d == out + (a + ([QUOTE] + b + ([COLON] + (c + d))));
  }

  method AppendItems(destination: Bytes, v: Value) returns (result: Option<Bytes>)
    requires v.List?
    ensures Serializable(v) ==> result == Some(destination + Written(v))
    ensures !Serializable(v) ==> result == None
    decreases v, 0
  {
    ghost var whole := destination + Written(v);
    var out := destination + [OPEN_LIST];
    assert out + ItemsFrom(v, 0) == whole;
    hide Written, ItemsFrom, Comma, Serializable;
    for i := 0 to |v.items|
      invariant out + ItemsFrom(v, i) == whole
      invariant forall k :: 0 <= k < i ==> Serializable(v.items[k])
    {
      ItemAppended(out, v, i, whole);
      SeparatorAppended(out, i);
      if i > 0 {
        out := out + [COMMA];
      }
      var next := AppendCanonical(out, v.items[i]);
      if next.None? {
        AllSerializable(v);
        return None;
      }
      out := next.value;
    }
    ItemsEnd(v);
    AllSerializable(v);
    result := Some(out + [CLOSE_LIST]);
  }

  lemma SeparatorAppended(out: Bytes, i: nat)
    ensures out + Comma(i) == if i > 0 then out + [COMMA] else out
  {
  }

  lemma AllSerializable(v: Value)
    ensures v.List? ==> (Serializable(v) <==> forall i :: 0 <= i < |v.items| ==> Serializable(v.items[i]))
    ensures v.Object? ==> (Serializable(v) <==> forall k :: k in v.members ==> Serializable(v.members[k]))
  {
  }

  // the object up to its first member
  lemma MembersOpened(destination: Bytes, v: Value, keys: seq<Text>)
    requires v.Object? && keys == SortedKeys(v.members.Keys)
    ensures (destination + [OPEN_OBJECT]) + MembersFrom(v, keys, 0) == destination + Written(v)
  {
    hide MembersFrom;
  }

  method AppendMembers(destination: Bytes, v: Value) returns (result: Option<Bytes>)
    requires v.Object?
    ensures Serializable(v) ==> result == Some(destination + Written(v))
    ensures !Serializable(v) ==> result == None
    decreases v, 0
  {
    hide Ascending, Written, MembersFrom, SortStrings, SortedKeys, EscapedFrom, Comma, Serializable;
    var met := MeetKeys(v.members);
    OrderMetIsForgotten(v.members.Keys, met);
    var keys := SortStrings(met);
    ghost var whole := destination + Written(v);
    var out := destination + [OPEN_OBJECT];
    MembersOpened(destination, v, keys);
    for i := 0 to |keys|
      invariant out + MembersFrom(v, keys, i) == whole
      invariant forall k :: k in keys[..i] ==> Serializable(v.members[k])
    {
      MemberAppended(out, v, keys, i, whole);
      SeparatorAppended(out, i);
      if i > 0 {
        out := out + [COMMA];
      }
      out := AppendText(out, keys[i]);
      var next := AppendCanonical(out + [COLON], v.members[keys[i]]);
      if next.None? {
        AllSerializable(v);
        return None;
      }
      assert keys[..i + 1] == keys[..i] + [keys[i]];
      out := next.value;
    }
    assert keys[..|keys|] == keys;
    MembersEnd(v, keys);
    AllSerializable(v);
    result := Some(out + [CLOSE_OBJECT]);
  }
}
