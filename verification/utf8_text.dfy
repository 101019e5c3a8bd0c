// Text as Go holds it: sequences of code points, written and ordered as UTF-8 bytes (RFC 3629).
module Utf8Text {

  // a Unicode scalar value
  type Rune = c: int | 0 <= c < 0xD800 || 0xE000 <= c <= 0x10FFFF

  type Text = seq<Rune>

  type Bytes = seq<int>

  datatype Decoded = Malformed | Decoded(rune: Rune, size: nat)

  // a continuation byte carries six bits
  function High(c: nat): nat {
    c / 64
  }

  function Low(c: nat): nat {
    c % 64
  }

  // utf8.AppendRune
  function EncodeRune(r: Rune): (b: Bytes)
    ensures 1 <= |b| <= 4
  {
    if r < 0x80 then [r]
    else if r < 0x800 then [0xC0 + High(r), 0x80 + Low(r)]
    else if r < 0x10000 then [0xE0 + High(High(r)), 0x80 + Low(High(r)), 0x80 + Low(r)]
    else [0xF0 + High(High(High(r))), 0x80 + Low(High(High(r))), 0x80 + Low(High(r)), 0x80 + Low(r)]
  }

  function Encode(t: Text): Bytes {
    if t == [] then [] else EncodeRune(t[0]) + Encode(t[1..])
  }

  predicate Continues(s: Bytes, i: nat) {
    i < |s| && 0x80 <= s[i] < 0xC0
  }

  // the first code point of a byte string: overlong forms and surrogates are malformed
  function DecodeRune(s: Bytes): (d: Decoded)
    ensures d.Decoded? ==> 1 <= d.size <= |s|
  {
    if s == [] then Malformed
    else if 0 <= s[0] < 0x80 then Decoded(s[0], 1)
    else if 0xC0 <= s[0] < 0xE0 && Continues(s, 1) then
      var c := (s[0] - 0xC0) * 64 + (s[1] - 0x80);
      if c < 0x80 then Malformed else Decoded(c, 2)
    else if 0xE0 <= s[0] < 0xF0 && Continues(s, 1) && Continues(s, 2) then
      var c := ((s[0] - 0xE0) * 64 + (s[1] - 0x80)) * 64 + (s[2] - 0x80);
      if c < 0x800 || 0xD800 <= c < 0xE000 then Malformed else Decoded(c, 3)
    else if 0xF0 <= s[0] < 0xF8 && Continues(s, 1) && Continues(s, 2) && Continues(s, 3) then
      var c := (((s[0] - 0xF0) * 64 + (s[1] - 0x80)) * 64 + (s[2] - 0x80)) * 64 + (s[3] - 0x80);
      if c < 0x10000 || 0x10FFFF < c then Malformed else Decoded(c, 4)
    else Malformed
  }

  lemma Bits(c: nat)
    ensures c == High(c) * 64 + Low(c) && Low(c) < 64
  {
  }

  lemma BitsCompare(c: nat, d: nat)
    requires c < d
    ensures High(c) < High(d) || (High(c) == High(d) && Low(c) < Low(d))
  {
  }

  lemma RuneReads(r: Rune, rest: Bytes)
    ensures DecodeRune(EncodeRune(r) + rest) == Decoded(r, |EncodeRune(r)|)
  {
    hide High, Low;
    Bits(r);
    Bits(High(r));
    Bits(High(High(r)));
  }

  // one of the four forms of RFC 3629: the shortest for the code point, its bits in order
  lemma RuneForm(r: Rune)
    ensures var b := EncodeRune(r);
      && (forall i :: 1 <= i < |b| ==> 0x80 <= b[i] < 0xC0)
      && (r < 0x80 ==> b == [r])
      && (0x80 <= r < 0x800 ==> |b| == 2 && 0xC0 <= b[0] < 0xE0 && r == (b[0] - 0xC0) * 64 + (b[1] - 0x80))
      && (0x800 <= r < 0x10000 ==> |b| == 3 && 0xE0 <= b[0] < 0xF0 && r == (b[0] - 0xE0) * 4096 + (b[1] - 0x80) * 64 + (b[2] - 0x80))
      && (0x10000 <= r ==> |b| == 4 && 0xF0 <= b[0] < 0xF5
                           && r == (b[0] - 0xF0) * 262144 + (b[1] - 0x80) * 4096 + (b[2] - 0x80) * 64 + (b[3] - 0x80))
  {
    hide High, Low;
    Bits(r);
    Bits(High(r));
    Bits(High(High(r)));
  }

  // strings compare byte by byte
  predicate Less(a: seq<int>, b: seq<int>) {
    b != [] && (a == [] || a[0] < b[0] || (a[0] == b[0] && Less(a[1..], b[1..])))
  }

  // the order of sort.Strings
  predicate Before(a: Text, b: Text) {
    Less(Encode(a), Encode(b))
  }

  lemma LessSkips(p: seq<int>, x: seq<int>, y: seq<int>)
    ensures Less(p + x, p + y) <==> Less(x, y)
  {
    if p == [] {
      assert p + x == x && p + y == y;
    } else {
      assert (p + x)[1..] == p[1..] + x && (p + y)[1..] == p[1..] + y;
      LessSkips(p[1..], x, y);
    }
  }

  // a smaller code point has smaller bytes, whatever follows either
  lemma RuneKeepsOrder(r: Rune, q: Rune, x: Bytes, y: Bytes)
    requires r < q
    ensures Less(EncodeRune(r) + x, EncodeRune(q) + y) && !Less(EncodeRune(q) + y, EncodeRune(r) + x)
  {
    hide High, Low, Less;
    var k := FirstDifference(r, q);
    var a, b := EncodeRune(r) + x, EncodeRune(q) + y;
    var p := EncodeRune(r)[..k];
    assert a == p + a[k..] && b == p + b[k..];
    LessSkips(p, a[k..], b[k..]);
    LessSkips(p, b[k..], a[k..]);
    FirstDecides(a[k..], b[k..]);
  }

  lemma FirstDecides(a: Bytes, b: Bytes)
    requires a != [] && b != [] && a[0] < b[0]
    ensures Less(a, b) && !Less(b, a)
  {
  }

  lemma FirstDifference(r: Rune, q: Rune) returns (k: nat)
    requires r < q
    ensures k < |EncodeRune(r)| && k < |EncodeRune(q)|
    ensures EncodeRune(r)[..k] == EncodeRune(q)[..k] && EncodeRune(r)[k] < EncodeRune(q)[k]
  {
    hide High, Low;
    Leads(r);
    Leads(q);
    BitsCompare(r, q);
    if High(r) < High(q) {
      BitsCompare(High(r), High(q));
      if High(High(r)) < High(High(q)) {
        BitsCompare(High(High(r)), High(High(q)));
      }
    }
    var a, b := EncodeRune(r), EncodeRune(q);
    k := if |a| != |b| || a[0] != b[0] then 0 else if |a| == 2 || a[1] != b[1] then 1 else if |a| == 3 || a[2] != b[2] then 2 else 3;
  }

  // the first byte tells the length, and longer forms start higher
  lemma Leads(r: Rune)
    ensures var b := EncodeRune(r);
      (|b| == 1 && b[0] < 0x80) || (|b| == 2 && 0xC0 <= b[0] < 0xE0) || (|b| == 3 && 0xE0 <= b[0] < 0xF0) || (|b| == 4 && 0xF0 <= b[0])
  {
    hide High, Low;
    Bits(r);
    Bits(High(r));
    Bits(High(High(r)));
  }

  // Sorting by bytes is sorting by code points, not by UTF-16 units.
  lemma {:induction false} BytesKeepOrder(a: Text, b: Text)
    ensures Before(a, b) <==> Less(a, b)
  {
    if a == [] || b == [] {
    } else if a[0] == b[0] {
      LessSkips(EncodeRune(a[0]), Encode(a[1..]), Encode(b[1..]));
      BytesKeepOrder(a[1..], b[1..]);
    } else if a[0] < b[0] {
      RuneKeepsOrder(a[0], b[0], Encode(a[1..]), Encode(b[1..]));
    } else {
      RuneKeepsOrder(b[0], a[0], Encode(b[1..]), Encode(a[1..]));
    }
  }

  lemma LessIsStrict(a: seq<int>, b: seq<int>)
    ensures !(Less(a, b) && Less(b, a))
    ensures Less(a, b) || Less(b, a) || a == b
  {
    if a != [] && b != [] {
      LessIsStrict(a[1..], b[1..]);
      assert a == [a[0]] + a[1..] && b == [b[0]] + b[1..];
    }
  }

  lemma LessChains(a: seq<int>, b: seq<int>, c: seq<int>)
    requires Less(a, b) && Less(b, c)
    ensures Less(a, c)
  {
    if a != [] && a[0] == b[0] == c[0] {
      LessChains(a[1..], b[1..], c[1..]);
    }
  }

  // so different texts are always in one order or the other, never both
  lemma BeforeIsTotal(a: Text, b: Text)
    ensures !(Before(a, b) && Before(b, a))
    ensures Before(a, b) || Before(b, a) || a == b
  {
    BytesKeepOrder(a, b);
    BytesKeepOrder(b, a);
    LessIsStrict(a, b);
  }

  // ----- sort.Strings -----

  ghost predicate Ascending(keys: seq<Text>) {
    forall i, j :: 0 <= i < j < |keys| ==> Before(keys[i], keys[j])
  }

  function Insert(k: Text, sorted: seq<Text>): seq<Text> {
    if sorted == [] || Before(k, sorted[0]) then [k] + sorted else [sorted[0]] + Insert(k, sorted[1..])
  }

  function SortStrings(keys: seq<Text>): seq<Text> {
    if keys == [] then [] else Insert(keys[0], SortStrings(keys[1..]))
  }

  lemma {:induction false} InsertKeeps(k: Text, sorted: seq<Text>)
    requires Ascending(sorted) && k !in sorted
    ensures Ascending(Insert(k, sorted)) && (forall t :: t in Insert(k, sorted) <==> t == k || t in sorted)
  {
    if sorted == [] {
    } else if Before(k, sorted[0]) {
      forall j | 0 <= j < |sorted| ensures Before(k, sorted[j]) {
        if j > 0 {
          LessChains(Encode(k), Encode(sorted[0]), Encode(sorted[j]));
        }
      }
    } else {
      InsertKeeps(k, sorted[1..]);
      BeforeIsTotal(k, sorted[0]);
      var tail := Insert(k, sorted[1..]);
      assert sorted == [sorted[0]] + sorted[1..];
      forall j | 0 <= j < |tail| ensures Before(sorted[0], tail[j]) {
        assert tail[j] in tail;
        if tail[j] != k {
          var i :| 0 <= i < |sorted[1..]| && sorted[1..][i] == tail[j];
          assert sorted[i + 1] == tail[j];
        }
      }
    }
  }

  predicate Distinct(keys: seq<Text>) {
    forall i, j :: 0 <= i < j < |keys| ==> keys[i] != keys[j]
  }

  lemma {:induction false} SortSorts(keys: seq<Text>)
    requires Distinct(keys)
    ensures Ascending(SortStrings(keys)) && (forall t :: t in SortStrings(keys) <==> t in keys)
  {
    if keys != [] {
      SortSorts(keys[1..]);
      InsertKeeps(keys[0], SortStrings(keys[1..]));
      assert keys == [keys[0]] + keys[1..];
    }
  }

  lemma NotIn(a: seq<Text>, b: seq<Text>)
    requires a == [] && b != []
    ensures exists t :: t in b && t !in a
  {
    assert b[0] in b;
  }

  // a set of keys has one ascending listing
  lemma {:induction false} AscendingIsUnique(a: seq<Text>, b: seq<Text>)
    requires Ascending(a) && Ascending(b) && (forall t :: t in a <==> t in b)
    ensures a == b
  {
    if a == [] {
      if b != [] {
        NotIn(a, b);
      }
    } else {
      assert a[0] in b;
      assert b != [] && b[0] in a;
      BeforeIsTotal(a[0], b[0]);
      assert a[0] == b[0] by {
        var i :| 0 <= i < |b| && b[i] == a[0];
        var j :| 0 <= j < |a| && a[j] == b[0];
      }
      forall t ensures t in a[1..] <==> t in b[1..] {
        TailHas(a, t);
        TailHas(b, t);
      }
      AscendingIsUnique(a[1..], b[1..]);
      assert a == [a[0]] + a[1..] && b == [b[0]] + b[1..];
    }
  }

  lemma TailHas(a: seq<Text>, t: Text)
    requires a != [] && Ascending(a)
    ensures t in a[1..] <==> t in a && t != a[0]
  {
    BeforeIsTotal(a[0], a[0]);
    assert a == [a[0]] + a[1..];
    forall i | 0 <= i < |a[1..]| ensures a[1..][i] != a[0] {
      assert a[1..][i] == a[i + 1] && Before(a[0], a[i + 1]);
    }
  }

  ghost function AnyListing(keys: set<Text>): (s: seq<Text>)
    ensures Distinct(s) && (forall t :: t in s <==> t in keys)
  {
    if keys == {} then []
    else
      var k :| k in keys;
      AnyListing(keys - {k}) + [k]
  }

  // the keys of a map in the order they are written
  ghost function SortedKeys(keys: set<Text>): (s: seq<Text>)
    ensures Ascending(s) && (forall t :: t in s <==> t in keys)
  {
    SortSorts(AnyListing(keys));
    SortStrings(AnyListing(keys))
  }

  // and whatever order they were met in
  lemma OrderMetIsForgotten(keys: set<Text>, met: seq<Text>)
    requires Distinct(met) && (forall t :: t in met <==> t in keys)
    ensures SortStrings(met) == SortedKeys(keys)
  {
    SortSorts(met);
    AscendingIsUnique(SortStrings(met), SortedKeys(keys));
  }
}
