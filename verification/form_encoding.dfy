/** The `application/x-www-form-urlencoded` serialisation that
    `URLSearchParams.toString()` performs, and the string facts about query
    strings that the URL builders rely on. */
module FormEncoding {

  /** The characters the serialiser leaves as they are. */
  predicate Unreserved(c: char)
  {
    || 'A' <= c <= 'Z' || 'a' <= c <= 'z' || '0' <= c <= '9'
    || c == '*' || c == '-' || c == '.' || c == '_'
  }

  /** Every character the serialiser can emit for a name or a value. */
  predicate Encoded(c: char)
  {
    Unreserved(c) || c == '+' || c == '%'
  }

  predicate AllEncoded(s: string)
  {
    forall i :: 0 <= i < |s| ==> Encoded(s[i])
  }

  predicate IsByte(b: int)
  {
    0 <= b < 256
  }

  /** The UTF-8 bytes of one Unicode scalar value. */
  function Utf8(c: char): (bytes: seq<int>)
    ensures 1 <= |bytes| <= 4
    ensures forall i :: 0 <= i < |bytes| ==> IsByte(bytes[i])
  {
    var cp := c as int;
    if cp < 0x80 then [cp]
    else if cp < 0x800 then [0xC0 + cp / 0x40, 0x80 + cp % 0x40]
    else if cp < 0x10000 then [0xE0 + cp / 0x1000, 0x80 + cp / 0x40 % 0x40, 0x80 + cp % 0x40]
    else [0xF0 + cp / 0x40000, 0x80 + cp / 0x1000 % 0x40, 0x80 + cp / 0x40 % 0x40, 0x80 + cp % 0x40]
  }

  function HexDigit(d: int): (c: char)
    requires 0 <= d < 16
    ensures Unreserved(c)
  {
    "0123456789ABCDEF"[d]
  }

  /** Each byte written as `%XX` with upper-case hex digits. */
  function Percent(bytes: seq<int>): (s: string)
    requires forall i :: 0 <= i < |bytes| ==> IsByte(bytes[i])
    ensures |s| == 3 * |bytes|
    ensures AllEncoded(s)
  {
    if bytes == [] then []
    else
      assert IsByte(bytes[0]);
      ['%', HexDigit(bytes[0] / 16), HexDigit(bytes[0] % 16)] + Percent(bytes[1..])
  }

  function EncodeChar(c: char): (s: string)
    ensures AllEncoded(s)
  {
    if Unreserved(c) then [c]
    else if c == ' ' then "+"
    else Percent(Utf8(c))
  }

  /** The serialisation of one name or value. */
  function FormEncode(s: string): (r: string)
    ensures AllEncoded(r)
  {
    if s == [] then [] else EncodeChar(s[0]) + FormEncode(s[1..])
  }

  /** One `name=value` pair of a query string. */
  function Field(p: (string, string)): (f: string)
    ensures '&' !in f && '?' !in f
  {
    FormEncode(p.0) + "=" + FormEncode(p.1)
  }

  function Fields(ps: seq<(string, string)>): (fs: seq<string>)
    ensures |fs| == |ps|
    ensures forall i :: 0 <= i < |ps| ==> fs[i] == Field(ps[i])
  {
    if ps == [] then [] else [Field(ps[0])] + Fields(ps[1..])
  }

  /** `new URLSearchParams(ps).toString()`: the pairs' fields, in order,
      joined by `&`. */
  function Query(ps: seq<(string, string)>): (q: string)
    ensures '?' !in q
  {
    if ps == [] then ""
    else if |ps| == 1 then Field(ps[0])
    else Field(ps[0]) + "&" + Query(ps[1..])
  }

  /** Occurrences of `c` in `s`. */
  function Count(c: char, s: string): nat
  {
    if s == [] then 0 else (if s[0] == c then 1 else 0) + Count(c, s[1..])
  }

  /** The pieces of `s` between occurrences of `d`. */
  function Split(s: string, d: char): (parts: seq<string>)
    ensures |parts| >= 1
  {
    if s == [] then [[]]
    else
      var rest := Split(s[1..], d);
      if s[0] == d then [[]] + rest else [[s[0]] + rest[0]] + rest[1..]
  }

  lemma {:induction false} CountConcat(c: char, a: string, b: string)
    ensures Count(c, a + b) == Count(c, a) + Count(c, b)
  {
    if a != [] {
      assert (a + b)[1..] == a[1..] + b;
      CountConcat(c, a[1..], b);
    } else {
      assert a + b == b;
    }
  }

  lemma {:induction false} CountAbsent(c: char, s: string)
    ensures Count(c, s) == 0 <==> c !in s
  {
    if s != [] {
      assert s == [s[0]] + s[1..];
      CountAbsent(c, s[1..]);
    }
  }

  lemma {:induction false} SplitWithout(a: string, d: char)
    requires d !in a
    ensures Split(a, d) == [a]
  {
    if a != [] {
      SplitWithout(a[1..], d);
      assert [a[0]] + a[1..] == a;
    }
  }

  lemma {:induction false} SplitAfter(a: string, d: char, b: string)
    requires d !in a
    ensures Split(a + [d] + b, d) == [a] + Split(b, d)
  {
    if a == [] {
      assert [d] + b == a + [d] + b;
      assert ([d] + b)[1..] == b;
    } else {
      var s := a + [d] + b;
      assert s[1..] == a[1..] + [d] + b;
      SplitAfter(a[1..], d, b);
      assert [a[0]] + a[1..] == a;
    }
  }

  /** Splitting a query string at `&` gives back exactly its fields: no
      encoded name or value contains `&`. */
  lemma {:induction false} QueryFields(ps: seq<(string, string)>)
    requires |ps| >= 1
    ensures Split(Query(ps), '&') == Fields(ps)
  {
    if |ps| == 1 {
      SplitWithout(Field(ps[0]), '&');
    } else {
      SplitAfter(Field(ps[0]), '&', Query(ps[1..]));
      QueryFields(ps[1..]);
    }
  }
}
