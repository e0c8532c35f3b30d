/**
 * Values shared by the converter, the scheduler and the relay: an abstract JSON value with
 * JavaScript's truthiness and property-assignment rules, option/result wrappers, the string
 * operations the services use (startsWith, includes, the first-occurrence replace, ASCII
 * upper-casing, decimal rendering of numbers) and the UTF-8 + base64 encoding that
 * `Buffer.from(s).toString('base64')` performs.
 */
module Wire {

  datatype Option<T> = None | Some(value: T)

  /** A value, or the message of the JavaScript exception the code would throw. */
  datatype Result<T> = Ok(value: T) | Err(error: string)

  /**
   * A parsed JSON value. Objects keep their keys in insertion order, as JavaScript objects
   * iterate them; numbers are integers (fractional numbers are not part of this model).
   */
  datatype Json =
    | JNull
    | JBool(b: bool)
    | JNum(n: int)
    | JStr(s: string)
    | JArr(items: seq<Json>)
    | JObj(fields: seq<Field>)

  datatype Field = Field(key: string, value: Json)

  /** JavaScript truthiness of a JSON value. */
  predicate Truthy(j: Json) {
    match j
    case JNull => false
    case JBool(b) => b
    case JNum(n) => n != 0
    case JStr(s) => s != ""
    case JArr(_) => true
    case JObj(_) => true
  }

  function Keys(fields: seq<Field>): (ks: seq<string>)
    ensures |ks| == |fields|
    ensures forall i :: 0 <= i < |fields| ==> ks[i] == fields[i].key
  {
    if fields == [] then [] else [fields[0].key] + Keys(fields[1..])
  }

  /** `obj[k]` on an object: the value of the first field named `k`. */
  function Lookup(fields: seq<Field>, k: string): (r: Option<Json>)
    ensures r.Some? <==> k in Keys(fields)
    ensures r.Some? ==> Field(k, r.value) in fields
  {
    if fields == [] then None
    else if fields[0].key == k then Some(fields[0].value)
    else Lookup(fields[1..], k)
  }

  /**
   * `obj[k] = v`: an existing key keeps its position and takes the new value,
   * a new key is appended.
   */
  function Put(fields: seq<Field>, k: string, v: Json): (r: seq<Field>)
    ensures Lookup(r, k) == Some(v)
    ensures forall k' :: k' != k ==> Lookup(r, k') == Lookup(fields, k')
  {
    if fields == [] then [Field(k, v)]
    else if fields[0].key == k then [Field(k, v)] + fields[1..]
    else [fields[0]] + Put(fields[1..], k, v)
  }

  /** Assignment keeps the key order: an existing key stays in place, a new one goes last. */
  lemma {:induction false} PutKeys(fields: seq<Field>, k: string, v: Json)
    ensures k in Keys(fields) ==> Keys(Put(fields, k, v)) == Keys(fields)
    ensures k !in Keys(fields) ==> Keys(Put(fields, k, v)) == Keys(fields) + [k]
  {
    if fields != [] && fields[0].key != k {
      PutKeys(fields[1..], k, v);
      assert Keys(fields) == [fields[0].key] + Keys(fields[1..]);
      assert Keys(Put(fields, k, v)) == [fields[0].key] + Keys(Put(fields[1..], k, v));
    }
  }

  /** `delete obj[k]`. */
  function Remove(fields: seq<Field>, k: string): (r: seq<Field>)
    ensures k !in Keys(r)
    ensures forall k' :: k' != k ==> Lookup(r, k') == Lookup(fields, k')
    ensures k !in Keys(fields) ==> r == fields
  {
    if fields == [] then []
    else if fields[0].key == k then Remove(fields[1..], k)
    else [fields[0]] + Remove(fields[1..], k)
  }

  /** `v[k]` on a non-null value: objects have their fields, every other value has none here. */
  function Get(j: Json, k: string): Option<Json> {
    if j.JObj? then Lookup(j.fields, k) else None
  }

  /** `v[k] === 'null'` (undefined on a missing key or a non-object is not the string). */
  predicate IsNullTypeName(j: Json, k: string) {
    Get(j, k) == Some(JStr("null"))
  }

  /** `Object.entries(v)` for a non-null value: fields, array indices or string positions. */
  function Entries(j: Json): (r: seq<Field>)
    ensures j.JObj? ==> r == j.fields
    ensures j.JArr? ==> |r| == |j.items|
    ensures j.JStr? ==> |r| == |j.s|
  {
    match j
    case JObj(fs) => fs
    case JArr(items) => seq(|items|, i requires 0 <= i < |items| => Field(NatToString(i), items[i]))
    case JStr(s) => seq(|s|, i requires 0 <= i < |s| => Field(NatToString(i), JStr([s[i]])))
    case _ => []
  }

  /** `for (const x of v)`: arrays and strings iterate; anything else throws a TypeError. */
  function Iterate(j: Json): (r: Result<seq<Json>>)
    ensures j.JArr? ==> r == Ok(j.items)
    ensures r.Ok? <==> j.JArr? || j.JStr?
  {
    match j
    case JArr(items) => Ok(items)
    case JStr(s) => Ok(seq(|s|, i requires 0 <= i < |s| => JStr([s[i]])))
    case _ => Err("TypeError: value is not iterable")
  }

  // ---------------------------------------------------------------- strings

  predicate StartsWith(s: string, p: string) {
    |p| <= |s| && s[..|p|] == p
  }

  predicate ContainsAt(s: string, sub: string, i: nat) {
    i + |sub| <= |s| && s[i..i + |sub|] == sub
  }

  /** `s.includes(sub)`. */
  predicate Contains(s: string, sub: string) {
    exists i: nat | i <= |s| :: ContainsAt(s, sub, i)
  }

  /** The leftmost position at which `pat` occurs in `s` at or after `from`. */
  function FindFrom(s: string, pat: string, from: nat): (r: Option<nat>)
    requires from <= |s|
    ensures r.Some? ==> from <= r.value && ContainsAt(s, pat, r.value)
    decreases |s| - from
  {
    if ContainsAt(s, pat, from) then Some(from)
    else if from == |s| then None
    else FindFrom(s, pat, from + 1)
  }

  /** The position found is the leftmost one, and `None` means `pat` does not occur. */
  lemma {:induction false} FindFromLeftmost(s: string, pat: string, from: nat)
    requires from <= |s|
    ensures FindFrom(s, pat, from).Some? ==> forall j :: from <= j < FindFrom(s, pat, from).value ==> !ContainsAt(s, pat, j)
    ensures FindFrom(s, pat, from).None? ==> forall j :: from <= j ==> !ContainsAt(s, pat, j)
    decreases |s| - from
  {
    if !ContainsAt(s, pat, from) && from < |s| {
      FindFromLeftmost(s, pat, from + 1);
    }
  }

  /** `s.replace(pat, rep)` with a string pattern: only the first occurrence is replaced. */
  function ReplaceFirst(s: string, pat: string, rep: string): (r: string)
    ensures FindFrom(s, pat, 0).None? ==> r == s
  {
    match FindFrom(s, pat, 0)
    case None => s
    case Some(i) => s[..i] + rep + s[i + |pat|..]
  }

  lemma {:induction false} ReplaceFirstOfPrefix(s: string, p: string)
    requires StartsWith(s, p)
    ensures ReplaceFirst(s, p, "") == s[|p|..]
  {
    assert ContainsAt(s, p, 0);
  }

  function UpperChar(c: char): char {
    if 'a' <= c <= 'z' then (c as int - 32) as char else c
  }

  /** `s.toUpperCase()` on the ASCII letters. */
  function AsciiUpper(s: string): (r: string)
    ensures |r| == |s|
    ensures forall i :: 0 <= i < |s| ==> r[i] == UpperChar(s[i])
  {
    if s == [] then [] else [UpperChar(s[0])] + AsciiUpper(s[1..])
  }

  function DigitChar(d: nat): char
    requires d < 10
  {
    "0123456789"[d]
  }

  /** `String(n)` for a natural number. */
  function NatToString(n: nat): (r: string)
    ensures |r| > 0
    ensures forall i :: 0 <= i < |r| ==> '0' <= r[i] <= '9'
  {
    if n < 10 then [DigitChar(n)] else NatToString(n / 10) + [DigitChar(n % 10)]
  }

  /** `String(n)` for an integer. */
  function IntToString(n: int): string {
    if n < 0 then "-" + NatToString(-n) else NatToString(n)
  }

  // ---------------------------------------------------------------- UTF-8 and base64

  type Byte = x: int | 0 <= x < 256

  function Utf8Char(c: char): (r: seq<Byte>)
    ensures 1 <= |r| <= 4
  {
    var n := c as int;
    if n < 0x80 then [n]
    else if n < 0x800 then [0xC0 + n / 64, 0x80 + n % 64]
    else if n < 0x10000 then [0xE0 + n / 4096, 0x80 + (n / 64) % 64, 0x80 + n % 64]
    else [0xF0 + (n / 262144) % 8, 0x80 + (n / 4096) % 64, 0x80 + (n / 64) % 64, 0x80 + n % 64]
  }

  /** `Buffer.from(s)`: the UTF-8 encoding of a string. */
  function Utf8(s: string): (r: seq<Byte>)
    ensures |r| >= |s|
  {
    if s == [] then [] else Utf8Char(s[0]) + Utf8(s[1..])
  }

  const Base64Alphabet: string := "ABCDEFGHIJKLMNOPQRSTUVWXYZabcdefghijklmnopqrstuvwxyz0123456789+/"

  predicate IsBase64Char(c: char) {
    c in Base64Alphabet || c == '='
  }

  function Sextet(n: nat): (c: char)
    requires n < 64
    ensures IsBase64Char(c)
  {
    Base64Alphabet[n]
  }

  /** The four characters of one full group of three bytes. */
  function Group(b0: Byte, b1: Byte, b2: Byte): (r: string)
    ensures |r| == 4 && forall i :: 0 <= i < 4 ==> IsBase64Char(r[i])
  {
    [Sextet(b0 / 4), Sextet((b0 % 4) * 16 + b1 / 16), Sextet((b1 % 16) * 4 + b2 / 64), Sextet(b2 % 64)]
  }

  /** The last, partial group of one or two bytes, padded with `=`. */
  function Padded(b: seq<Byte>): (r: string)
    requires |b| < 3
    ensures |r| == (if b == [] then 0 else 4)
    ensures forall i :: 0 <= i < |r| ==> IsBase64Char(r[i])
  {
    if |b| == 0 then ""
    else if |b| == 1 then [Sextet(b[0] / 4), Sextet((b[0] % 4) * 16), '=', '=']
    else [Sextet(b[0] / 4), Sextet((b[0] % 4) * 16 + b[1] / 16), Sextet((b[1] % 16) * 4), '=']
  }

  /** `buf.toString('base64')`: standard alphabet, padded with `=`. */
  function Base64(b: seq<Byte>): string
  {
    if |b| < 3 then Padded(b) else Group(b[0], b[1], b[2]) + Base64(b[3..])
  }

  /** Every three bytes become four characters of the alphabet; a partial group is padded. */
  lemma Base64Shape(b: seq<Byte>)
    ensures |Base64(b)| == 4 * ((|b| + 2) / 3)
    ensures forall i :: 0 <= i < |Base64(b)| ==> IsBase64Char(Base64(b)[i])
  {
    Base64Length(b);
    Base64Chars(b);
  }

  lemma {:induction false} Base64Length(b: seq<Byte>)
    ensures |Base64(b)| == 4 * ((|b| + 2) / 3)
  {
    if |b| >= 3 {
      var rest := b[3..];
      Base64Length(rest);
      assert |Base64(b)| == 4 + |Base64(rest)|;
      GroupCountStep(|b|);
    } else {
      PartialGroupCount(|b|);
    }
  }

  lemma PartialGroupCount(n: nat)
    requires n < 3
    ensures (n + 2) / 3 == if n == 0 then 0 else 1
  {
  }

  lemma GroupCountStep(n: nat)
    requires n >= 3
    ensures (n + 2) / 3 == (n - 3 + 2) / 3 + 1
  {
  }

  lemma {:induction false} Base64Chars(b: seq<Byte>)
    ensures forall i :: 0 <= i < |Base64(b)| ==> IsBase64Char(Base64(b)[i])
  {
    if |b| >= 3 {
      var rest := b[3..];
      Base64Chars(rest);
      var head := Group(b[0], b[1], b[2]);
      var tail := Base64(rest);
      assert Base64(b) == head + tail;
      forall i | 0 <= i < |head + tail| ensures IsBase64Char((head + tail)[i]) {
        if i >= 4 { assert (head + tail)[i] == tail[i - 4]; }
      }
    }
  }

  /** The base64 text of a non-empty string is a non-empty string of base64 characters. */
  function EncodeBase64(s: string): (r: string)
    ensures s != "" ==> r != ""
    ensures forall i :: 0 <= i < |r| ==> IsBase64Char(r[i])
  {
    Base64Shape(Utf8(s));
    Base64(Utf8(s))
  }

  // ---------------------------------------------------------------- whitespace

  /** `\s` and the line terminators of ECMAScript regular expressions. */
  predicate IsJsSpace(c: char) {
    c == ' ' || c == '\t' || c == '\n' || c == '\r' || c == '\U{B}' || c == '\U{C}'
    || c == '\U{A0}' || c == '\U{1680}' || ('\U{2000}' <= c <= '\U{200A}')
    || c == '\U{2028}' || c == '\U{2029}' || c == '\U{202F}' || c == '\U{205F}'
    || c == '\U{3000}' || c == '\U{FEFF}'
  }

  /** `s.replace(/^[\n\r\s]+/, '')`: the longest whitespace prefix is removed. */
  function TrimStart(s: string): string {
    if s == [] || !IsJsSpace(s[0]) then s else TrimStart(s[1..])
  }

  /** What `TrimStart` leaves is a suffix not starting with whitespace, and all it removed is whitespace. */
  lemma {:induction false} TrimStartSpec(s: string)
    ensures var r := TrimStart(s);
      && |r| <= |s| && r == s[|s| - |r|..]
      && (r == "" || !IsJsSpace(r[0]))
      && forall i :: 0 <= i < |s| - |r| ==> IsJsSpace(s[i])
  {
    if s != [] && IsJsSpace(s[0]) {
      TrimStartSpec(s[1..]);
      assert s[1..][|s| - 1 - |TrimStart(s)|..] == s[|s| - |TrimStart(s)|..];
    }
  }

  /** `String.prototype.trimEnd`. */
  function TrimEnd(s: string): string {
    if s == [] || !IsJsSpace(s[|s| - 1]) then s else TrimEnd(s[..|s| - 1])
  }

  /** What `TrimEnd` leaves is a prefix not ending in whitespace, and all it removed is whitespace. */
  lemma {:induction false} TrimEndSpec(s: string)
    ensures var r := TrimEnd(s);
      && |r| <= |s| && r == s[..|r|]
      && (r == "" || !IsJsSpace(r[|r| - 1]))
      && forall i :: |r| <= i < |s| ==> IsJsSpace(s[i])
  {
    if s != [] && IsJsSpace(s[|s| - 1]) {
      TrimEndSpec(s[..|s| - 1]);
      assert s[..|s| - 1][..|TrimEnd(s)|] == s[..|TrimEnd(s)|];
    }
  }

  /** `String.prototype.trim`. */
  function Trim(s: string): string {
    TrimEnd(TrimStart(s))
  }
}
