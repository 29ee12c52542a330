/** The JSON printer and parser (json.h). Numbers are integers: a text with a fraction or
    an exponent, `\u` escapes, and reads past the end of the text are `Failed`. */
module Json {
  import opened Options
  import opened Sequences

  /** An object is its map in the order of the keys. */
  datatype Value =
    | Null
    | Bool(b: bool)
    | Int(n: int)
    | String(s: string)
    | Array(items: seq<Value>)
    | Object(members: seq<Member>)

  datatype Member = Member(key: string, value: Value)

  datatype Outcome = Parsed(value: Value, next: nat) | Failed

  const MIN_LONG: int := -0x8000_0000_0000_0000
  const MAX_LONG: int := 0x7fff_ffff_ffff_ffff

  // ---- strings -------------------------------------------------------------

  const BS: char := '\U{08}'
  const FF: char := '\U{0C}'
  const VT: char := '\U{0B}'

  /** The short escapes of section 7 of RFC 8259, without the solidus. */
  function EscapeChar(c: char): string {
    if c == '\"' then "\\\"" else if c == '\\' then "\\\\" else if c == BS then "\\b" else if c == FF then "\\f"
    else if c == '\n' then "\\n" else if c == '\r' then "\\r" else if c == '\t' then "\\t" else [c]
  }

  /** `json_escape` of the first `n` characters. */
  function EscapeFirst(s: string, n: nat): string
    requires n <= |s|
  {
    if n == 0 then "" else EscapeFirst(s, n - 1) + EscapeChar(s[n - 1])
  }

  function Escape(s: string): string { EscapeFirst(s, |s|) }

  method JsonEscape(str: string) returns (output: string)
    ensures output == Escape(str)
  {
    output := "";
    for i := 0 to |str|
      invariant output == EscapeFirst(str, i)
    {
      output := output + EscapeChar(str[i]);
    }
  }

  /** `str[i]`, which is a null character at the end. */
  function At(s: string, i: nat): char { if i < |s| then s[i] else '\0' }

  function Unescaped(c: char): Option<string> {
    match c
    case '\"' => Some("\"")
    case '\\' => Some("\\")
    case '/' => Some("/")
    case 'b' => Some([BS])
    case 'f' => Some([FF])
    case 'n' => Some("\n")
    case 'r' => Some("\r")
    case 't' => Some("\t")
    case 'u' => None
    case _ => Some("\\")
  }

  /** The loop of `parse_string` from character `off` on. */
  function StringFrom(s: string, off: nat, val: string): (r: Outcome)
    ensures r.Parsed? ==> off < r.next <= |s| && r.value.String?
    decreases |s| - off
  {
    if off >= |s| then Failed
    else if s[off] == '\"' then Parsed(String(val), off + 1)
    else if s[off] == '\\' then
      if off + 1 >= |s| || Unescaped(s[off + 1]).None? then Failed
      else StringFrom(s, off + 2, val + Unescaped(s[off + 1]).value)
    else StringFrom(s, off + 1, val + [s[off]])
  }

  // ---- numbers -------------------------------------------------------------

  predicate IsDigit(c: char) { '0' <= c <= '9' }

  function DigitChar(d: nat): (c: char)
    requires d < 10
    ensures IsDigit(c) && DigitValue(c) == d
  {
    "0123456789"[d]
  }

  function DigitValue(c: char): nat
    requires IsDigit(c)
  {
    c as int - '0' as int
  }

  /** `std::to_string` of a number that is not negative. */
  function Decimal(n: nat): (t: string)
    ensures |t| > 0 && forall i :: 0 <= i < |t| ==> IsDigit(t[i])
  {
    if n < 10 then [DigitChar(n)] else Decimal(n / 10) + [DigitChar(n % 10)]
  }

  function Show(n: int): string { if n < 0 then "-" + Decimal(-n) else Decimal(n) }

  /** Where the digits that start at `i` end. */
  function DigitsEnd(t: string, i: nat): (r: nat)
    requires i <= |t|
    ensures i <= r <= |t| && (forall k :: i <= k < r ==> IsDigit(t[k])) && (r < |t| ==> !IsDigit(t[r]))
    decreases |t| - i
  {
    if i < |t| && IsDigit(t[i]) then DigitsEnd(t, i + 1) else i
  }

  function NumberOf(t: string, i: nat, j: nat): nat
    requires i <= j <= |t| && forall k :: i <= k < j ==> IsDigit(t[k])
    decreases j
  {
    if i == j then 0 else 10 * NumberOf(t, i, j - 1) + DigitValue(t[j - 1])
  }

  /** `std::stol` on a text of digits and signs; `None` for its exceptions. */
  function ToLong(t: string): Option<int> {
    var start := if At(t, 0) == '-' then 1 else 0;
    var end := DigitsEnd(t, start);
    var n: int := NumberOf(t, start, end);
    var v := if start == 1 then -n else n;
    if end == start || v < MIN_LONG || v > MAX_LONG then None else Some(v)
  }

  predicate IsSpace(c: char) { c == ' ' || c == '\t' || c == '\n' || c == VT || c == FF || c == '\r' }

  predicate EndsNumber(c: char) { IsSpace(c) || c == ',' || c == ']' || c == '}' }

  /** `parse_number` from character `off` on; the character after the number must be one
      that ends it, otherwise the result is null and the character is skipped. */
  function NumberFrom(s: string, off: nat, val: string): (r: Outcome)
    ensures r.Parsed? ==> off <= r.next <= |s| + 1
    decreases |s| + 1 - off
  {
    var c := At(s, off);
    if off > |s| || c == '.' || c == 'e' || c == 'E' then Failed
    else if c == '-' || IsDigit(c) then NumberFrom(s, off + 1, val + [c])
    else if !EndsNumber(c) then Parsed(Null, off + 1)
    else if ToLong(val).None? then Failed
    else Parsed(Int(ToLong(val).value), off)
  }

  // ---- the printer ---------------------------------------------------------

  /** `pad` at a depth, for the default `tab`. */
  function Pad(depth: nat): string { seq(2 * depth, _ => ' ') }

  function Dump(v: Value, depth: nat): string
    decreases v, 1, 0
  {
    match v
    case Null => "null"
    case Bool(b) => if b then "true" else "false"
    case Int(n) => Show(n)
    case String(s) => "\"" + Escape(s) + "\""
    case Array(items) => "[" + DumpItems(v, |items|, depth) + "]"
    case Object(members) =>
      "{\n" + DumpMembers(v, |members|, depth) + "\n" + Pad(if depth == 0 then 0 else depth - 1) + "}"
  }

  /** The first `n` items of an array, separated by commas. */
  function DumpItems(v: Value, n: nat, depth: nat): string
    requires v.Array? && n <= |v.items|
    decreases v, 0, n
  {
    if n == 0 then ""
    else DumpItems(v, n - 1, depth) + (if n > 1 then ", " else "") + Dump(v.items[n - 1], depth + 1)
  }

  function DumpMember(m: Member, depth: nat): string
    decreases m, 2, 0
  {
    Pad(depth) + "\"" + m.key + "\" : " + Dump(m.value, depth + 1)
  }

  function DumpMembers(v: Value, n: nat, depth: nat): string
    requires v.Object? && n <= |v.members|
    decreases v, 0, n
  {
    if n == 0 then ""
    else DumpMembers(v, n - 1, depth) + (if n > 1 then ",\n" else "") + DumpMember(v.members[n - 1], depth)
  }

  // ---- the parser ----------------------------------------------------------

  /** `consume_ws`. */
  function SkipSpace(s: string, off: nat): (r: nat)
    requires off <= |s|
    ensures off <= r <= |s| && !IsSpace(At(s, r))
    decreases |s| - off
  {
    if off < |s| && IsSpace(s[off]) then SkipSpace(s, off + 1) else off
  }

  /** `Object[key] = value` on a map ordered by keys. */
  function Put(members: seq<Member>, key: string, value: Value): seq<Member> {
    if members == [] then [Member(key, value)]
    else
      var rest, last := members[..|members| - 1], members[|members| - 1];
      if Less(last.key, key) then members + [Member(key, value)]
      else if last.key == key then rest + [Member(key, value)]
      else Put(rest, key, value) + [last]
  }

  /** `ToString`. */
  function KeyOf(v: Value): string { if v.String? then Escape(v.s) else "" }

  /** The `n` characters at `p` are the first ones of `w`. */
  predicate Matches(s: string, p: nat, w: string, n: nat)
    requires n <= |w|
    ensures Matches(s, p, w, n) && n > 0 ==> p + n <= |s|
  {
    n == 0 || (p + n <= |s| && s[p + n - 1] == w[n - 1] && Matches(s, p, w, n - 1))
  }

  /** `parse_bool` and `parse_null`. */
  function WordAt(s: string, p: nat): (r: Outcome)
    ensures r.Parsed? && p <= r.next
  {
    if Matches(s, p, "true", 4) then Parsed(Bool(true), p + 4)
    else if Matches(s, p, "false", 5) then Parsed(Bool(false), p + 5)
    else if Matches(s, p, "null", 4) then Parsed(Null, p + 4)
    else Parsed(Null, p)
  }

  function ParseNext(s: string, off: nat): (r: Outcome)
    requires off <= |s|
    ensures r.Parsed? ==> off <= r.next
    decreases |s| - off, 2
  {
    var p := SkipSpace(s, off);
    if p == |s| then Parsed(Null, p) else ValueAt(s, p)
  }

  /** What `parse_next` does by the first character. */
  function ValueAt(s: string, p: nat): (r: Outcome)
    requires p < |s|
    ensures r.Parsed? ==> p <= r.next
    decreases |s| - p, 1
  {
    var c := s[p];
    if c == '[' then ArrayAt(s, p)
    else if c == '{' then ObjectAt(s, p)
    else if c == '\"' then StringFrom(s, p + 1, "")
    else if c == 't' || c == 'f' || c == 'n' then WordAt(s, p)
    else if IsDigit(c) || c == '-' then NumberFrom(s, p, "")
    else Parsed(Null, p)
  }

  /** `parse_array`. */
  function ArrayAt(s: string, p: nat): (r: Outcome)
    requires p < |s|
    ensures r.Parsed? ==> p <= r.next
    decreases |s| - p, 0
  {
    var q := SkipSpace(s, p + 1);
    if At(s, q) == ']' then Parsed(Array([]), q + 1) else ItemsFrom(s, p + 1, [])
  }

  /** `parse_object`. */
  function ObjectAt(s: string, p: nat): (r: Outcome)
    requires p < |s|
    ensures r.Parsed? ==> p <= r.next
    decreases |s| - p, 0
  {
    var q := SkipSpace(s, p + 1);
    if At(s, q) == '}' then Parsed(Object([]), q + 1) else MembersFrom(s, p + 1, [])
  }

  /** The loop of `parse_array`, with the items so far. */
  function ItemsFrom(s: string, off: nat, items: seq<Value>): (r: Outcome)
    requires off <= |s|
    ensures r.Parsed? ==> off <= r.next
    decreases |s| - off, 3
  {
    var v := ParseNext(s, off);
    if v.Failed? || v.next > |s| then Failed
    else
      var q := SkipSpace(s, v.next);
      var items' := items + [v.value];
      if At(s, q) == ',' then ItemsFrom(s, q + 1, items')
      else if At(s, q) == ']' then Parsed(Array(items'), q + 1)
      else Parsed(Array([]), q)
  }

  /** The loop of `parse_object`, with the members so far: a key, a colon, a value. */
  function MembersFrom(s: string, off: nat, members: seq<Member>): (r: Outcome)
    requires off <= |s|
    ensures r.Parsed? ==> off <= r.next
    decreases |s| - off, 3
  {
    var k := ParseNext(s, off);
    if k.Failed? || k.next > |s| then Failed else AfterKey(s, SkipSpace(s, k.next), members, k.value)
  }

  function AfterKey(s: string, q: nat, members: seq<Member>, key: Value): (r: Outcome)
    requires q <= |s|
    ensures r.Parsed? ==> q <= r.next
    decreases |s| - q, 1
  {
    if At(s, q) != ':' then Parsed(Object(members), q)
    else
      var v := ParseNext(s, SkipSpace(s, q + 1));
      if v.Failed? || v.next > |s| then Failed
      else AfterValue(s, SkipSpace(s, v.next), Put(members, KeyOf(key), v.value))
  }

  function AfterValue(s: string, q: nat, members: seq<Member>): (r: Outcome)
    requires q <= |s|
    ensures r.Parsed? ==> q <= r.next
    decreases |s| - q, 1
  {
    if At(s, q) == ',' then MembersFrom(s, q + 1, members)
    else if At(s, q) == '}' then Parsed(Object(members), q + 1)
    else Parsed(Object(members), q)
  }

  // ---- values that survive -------------------------------------------------

  /** Keys are kept as the parser makes them: escaped. */
  ghost predicate EscapedKey(key: string) { exists raw :: Escape(raw) == key }

  /** Integers fit a `long`; keys are escaped, and in the order of the map. */
  ghost predicate WellFormed(v: Value)
    decreases v
  {
    match v
    case Int(n) => MIN_LONG <= n <= MAX_LONG
    case Array(items) => forall i :: 0 <= i < |items| ==> WellFormed(items[i])
    case Object(members) =>
      && (forall i :: 0 <= i < |members| ==> WellFormed(members[i].value) && EscapedKey(members[i].key))
      && forall i, j :: 0 <= i < j < |members| ==> Less(members[i].key, members[j].key)
    case _ => true
  }

  // ---- spaces --------------------------------------------------------------

  /** From `a` up to `b` there are only spaces. */
  predicate Spaces(s: string, a: nat, b: nat)
    decreases b - a
  {
    a <= b <= |s| && (a == b || (IsSpace(s[a]) && Spaces(s, a + 1, b)))
  }

  lemma {:induction false} SpacesHeld(s: string, a: nat, b: nat)
    requires a <= b <= |s| && forall i :: a <= i < b ==> IsSpace(s[i])
    ensures Spaces(s, a, b)
    decreases b - a
  {
    if a < b { SpacesHeld(s, a + 1, b); }
  }

  lemma {:induction false} SkipTo(s: string, a: nat, b: nat)
    requires Spaces(s, a, b) && !IsSpace(At(s, b))
    ensures SkipSpace(s, a) == b
    decreases b - a
  {
    if a < b { SkipTo(s, a + 1, b); }
  }

  lemma NextIs(s: string, p: nat)
    requires p < |s| && !IsSpace(s[p])
    ensures ParseNext(s, p) == ValueAt(s, p)
  {
    SkipTo(s, p, p);
  }

  lemma NextSkips(s: string, a: nat, b: nat)
    requires Spaces(s, a, b) && !IsSpace(At(s, b))
    ensures ParseNext(s, a) == ParseNext(s, b)
  {
    SkipTo(s, a, b);
    SkipTo(s, b, b);
  }

  // ---- strings -------------------------------------------------------------

  function EscapeLength(x: string, n: nat): nat
    requires n <= |x|
  {
    if n == 0 then 0 else EscapeLength(x, n - 1) + |EscapeChar(x[n - 1])|
  }

  lemma {:induction false} EscapePrefix(x: string, k: nat, n: nat)
    requires k <= n <= |x|
    ensures EscapeFirst(x, k) <= EscapeFirst(x, n)
  {
    if k < n { EscapePrefix(x, k, n - 1); }
  }

  lemma {:induction false} EscapeLengths(x: string, n: nat)
    requires n <= |x|
    ensures |EscapeFirst(x, n)| == EscapeLength(x, n)
  {
    if n > 0 { EscapeLengths(x, n - 1); }
  }

  /** The escaped form of `c` stands at position `p`. */
  predicate CharAt(s: string, p: nat, c: char) {
    var e := EscapeChar(c);
    p + |e| <= |s| && s[p] == e[0] && (|e| == 2 ==> s[p + 1] == e[1])
  }

  lemma CharRead(s: string, p: nat, c: char, val: string)
    requires CharAt(s, p, c)
    ensures StringFrom(s, p, val) == StringFrom(s, p + |EscapeChar(c)|, val + [c])
  {
  }

  /** Character `n` of the string stands escaped in its place. */
  predicate CharInPlace(s: string, off: nat, x: string, n: nat)
    requires n < |x|
  {
    CharAt(s, off + EscapeLength(x, n), x[n])
  }

  lemma CharPlaced(s: string, off: nat, x: string, n: nat)
    requires Holds(s, off, Escape(x)) && n < |x|
    ensures CharInPlace(s, off, x, n)
  {
    var e := EscapeChar(x[n]);
    EscapePrefix(x, n + 1, |x|);
    EscapeLengths(x, n);
    HoldsMiddle(s, off, Escape(x), EscapeFirst(x, n), e);
    assert s[off + EscapeLength(x, n) + 0] == e[0];
    if |e| == 2 { assert s[off + EscapeLength(x, n) + 1] == e[1]; }
  }

  predicate CharsInPlace(s: string, off: nat, x: string) {
    forall k :: 0 <= k < |x| ==> CharInPlace(s, off, x, k)
  }

  lemma CharsPlaced(s: string, off: nat, x: string)
    requires Holds(s, off, Escape(x))
    ensures CharsInPlace(s, off, x) && |Escape(x)| == EscapeLength(x, |x|)
  {
    forall k {:trigger CharInPlace(s, off, x, k)} | 0 <= k < |x| ensures CharInPlace(s, off, x, k) {
      CharPlaced(s, off, x, k);
    }
    EscapeLengths(x, |x|);
  }

  /** The loop has read the first `n` characters. */
  predicate ReadSoFar(s: string, off: nat, x: string, n: nat) {
    n <= |x| && StringFrom(s, off, "") == StringFrom(s, off + EscapeLength(x, n), x[..n])
  }

  lemma {:induction false} StringRead(s: string, off: nat, x: string, n: nat)
    requires n <= |x| && CharsInPlace(s, off, x)
    ensures ReadSoFar(s, off, x, n)
  {
    if n > 0 {
      StringRead(s, off, x, n - 1);
      ReadOneMore(s, off, x, n - 1);
    }
  }

  lemma ReadOneMore(s: string, off: nat, x: string, n: nat)
    requires n < |x| && CharsInPlace(s, off, x) && ReadSoFar(s, off, x, n)
    ensures ReadSoFar(s, off, x, n + 1)
  {
    assert CharInPlace(s, off, x, n);
    StringNext(s, off + EscapeLength(x, n), off + EscapeLength(x, n + 1), x, n);
  }

  /** One character, between `p` and `q`. */
  lemma StringNext(s: string, p: nat, q: nat, x: string, n: nat)
    requires n < |x| && CharAt(s, p, x[n]) && q == p + |EscapeChar(x[n])|
    ensures StringFrom(s, p, x[..n]) == StringFrom(s, q, x[..n + 1])
  {
    assert x[..n + 1] == x[..n] + [x[n]];
    CharRead(s, p, x[n], x[..n]);
  }

  /** A quoted, escaped string is read back. */
  lemma QuotedParts(s: string, at: nat, x: string)
    requires Holds(s, at, "\"" + Escape(x) + "\"")
    ensures Holds(s, at + 1, Escape(x)) && s[at] == '\"' && s[at + 1 + |Escape(x)|] == '\"'
  {
    HoldsPart(s, at, "\"" + Escape(x), "\"");
    HoldsPart(s, at, "\"", Escape(x));
    assert s[at + 0] == "\""[0] && s[at + 1 + |Escape(x)| + 0] == "\""[0];
  }

  lemma StringTrip(s: string, at: nat, x: string)
    requires Holds(s, at, "\"" + Escape(x) + "\"")
    ensures ParseNext(s, at) == Parsed(String(x), at + |Escape(x)| + 2)
  {
    var end := at + 1 + |Escape(x)|;
    assert s[at] == '\"' && s[end] == '\"' by { QuotedParts(s, at, x); }
    assert StringFrom(s, at + 1, "") == StringFrom(s, end, x) by {
      QuotedParts(s, at, x);
      CharsPlaced(s, at + 1, x);
      StringRead(s, at + 1, x, |x|);
      assert x[..|x|] == x;
    }
    NextIs(s, at);
  }

  // ---- numbers -------------------------------------------------------------

  lemma {:induction false} NumberOfDecimal(t: string, at: nat, n: nat)
    requires Holds(t, at, Decimal(n)) && forall k :: at <= k < at + |Decimal(n)| ==> IsDigit(t[k])
    ensures NumberOf(t, at, at + |Decimal(n)|) == n
    decreases n
  {
    if n < 10 {
      assert t[at] == Decimal(n)[0];
      assert NumberOf(t, at, at) == 0;
    } else {
      HoldsPart(t, at, Decimal(n / 10), [DigitChar(n % 10)]);
      assert t[at + |Decimal(n / 10)|] == [DigitChar(n % 10)][0];
      NumberOfDecimal(t, at, n / 10);
    }
  }

  lemma {:induction false} DigitsEndIs(t: string, i: nat)
    requires i <= |t| && forall k :: i <= k < |t| ==> IsDigit(t[k])
    ensures DigitsEnd(t, i) == |t|
    decreases |t| - i
  {
    if i < |t| { DigitsEndIs(t, i + 1); }
  }

  /** `stol` of `to_string`. */
  lemma LongTrip(n: int)
    requires MIN_LONG <= n <= MAX_LONG
    ensures ToLong(Show(n)) == Some(n)
  {
    var t := Show(n);
    if n < 0 {
      assert t[0] == '-' && forall k :: 1 <= k < |t| ==> t[k] == Decimal(-n)[k - 1];
      DigitsEndIs(t, 1);
      NumberOfDecimal(t, 1, -n);
    } else {
      DigitsEndIs(t, 0);
      NumberOfDecimal(t, 0, n);
    }
  }

  lemma {:induction false} NumberRead(s: string, off: nat, t: string, n: nat)
    requires Holds(s, off, t) && n <= |t| && forall i :: 0 <= i < |t| ==> t[i] == '-' || IsDigit(t[i])
    ensures NumberFrom(s, off, "") == NumberFrom(s, off + n, t[..n])
  {
    if n > 0 {
      NumberRead(s, off, t, n - 1);
      assert s[off + (n - 1)] == t[n - 1];
      assert t[..n] == t[..n - 1] + [t[n - 1]];
    }
  }

  /** The digits of a number are read up to the first other character. */
  lemma NumberTrip(s: string, at: nat, n: int)
    requires Holds(s, at, Show(n)) && MIN_LONG <= n <= MAX_LONG
    ensures var end := at + |Show(n)|; ParseNext(s, at) == NumberFrom(s, end, Show(n))
    ensures EndsNumber(At(s, at + |Show(n)|)) ==> ParseNext(s, at) == Parsed(Int(n), at + |Show(n)|)
  {
    var t := Show(n);
    assert s[at] == t[0] && (t[0] == '-' || IsDigit(t[0]));
    SkipTo(s, at, at);
    NumberRead(s, at, t, |t|);
    assert t[..|t|] == t;
    LongTrip(n);
  }

  // ---- the parts of a printed value ------------------------------------------

  /** A printed value starts with a character that the parser goes by. */
  lemma FirstChar(v: Value, depth: nat)
    ensures Dump(v, depth) != "" && !IsSpace(Dump(v, depth)[0]) && Dump(v, depth)[0] != ']' && Dump(v, depth)[0] != '}'
  {
  }

  function ItemSeparator(n: nat): string { if n > 0 then ", " else "" }

  lemma {:induction false} ItemsPrefix(v: Value, k: nat, n: nat, depth: nat)
    requires v.Array? && k <= n <= |v.items|
    ensures DumpItems(v, k, depth) <= DumpItems(v, n, depth)
    decreases n
  {
    if k < n { ItemsPrefix(v, k, n - 1, depth); }
  }

  /** Where item `n` of an array printed at `at` starts. */
  function ItemPosition(v: Value, n: nat, at: nat, depth: nat): nat
    requires v.Array? && n <= |v.items|
  {
    at + 1 + |DumpItems(v, n, depth)| + |ItemSeparator(n)|
  }

  lemma ItemPlaced(s: string, at: nat, v: Value, n: nat, depth: nat)
    requires v.Array? && n < |v.items| && Holds(s, at, Dump(v, depth))
    ensures var p := ItemPosition(v, n, at, depth);
            && Holds(s, p, Dump(v.items[n], depth + 1)) && (n > 0 ==> s[p - 2] == ',' && s[p - 1] == ' ')
            && p + |Dump(v.items[n], depth + 1)| == at + 1 + |DumpItems(v, n + 1, depth)|
  {
    var all, d := DumpItems(v, |v.items|, depth), Dump(v.items[n], depth + 1);
    HoldsPart(s, at, "[" + all, "]");
    HoldsPart(s, at, "[", all);
    ItemsPrefix(v, n + 1, |v.items|, depth);
    HoldsPrefix(s, at + 1, all, DumpItems(v, n + 1, depth));
    HoldsPart(s, at + 1, DumpItems(v, n, depth) + ItemSeparator(n), d);
    HoldsPart(s, at + 1, DumpItems(v, n, depth), ItemSeparator(n));
    if n > 0 {
      var q := at + 1 + |DumpItems(v, n, depth)|;
      assert s[q + 0] == ", "[0] && s[q + 1] == ", "[1];
    }
  }

  /** After an item comes a comma or the closing bracket. */
  lemma AfterItem(s: string, at: nat, v: Value, n: nat, depth: nat)
    requires v.Array? && n < |v.items| && Holds(s, at, Dump(v, depth))
    ensures var e := at + 1 + |DumpItems(v, n + 1, depth)|;
            e < |s| && s[e] == (if n + 1 < |v.items| then ',' else ']')
  {
    if n + 1 < |v.items| {
      ItemPlaced(s, at, v, n + 1, depth);
    } else {
      var all := DumpItems(v, |v.items|, depth);
      HoldsPart(s, at, "[" + all, "]");
      assert s[at + |"[" + all| + 0] == "]"[0];
    }
  }

  /** Where the parser continues after the comma before item `n`. */
  function ItemResume(v: Value, n: nat, at: nat, depth: nat): nat
    requires v.Array? && n <= |v.items|
  {
    ItemPosition(v, n, at, depth) - if n > 0 then 1 else 0
  }

  /** One round of the loop of `parse_array`, for an item between `p` and `e`. */
  lemma ItemStep(s: string, off: nat, p: nat, e: nat, items: seq<Value>, n: nat)
    requires Spaces(s, off, p) && !IsSpace(At(s, p)) && n < |items| && ParseNext(s, p) == Parsed(items[n], e)
    requires e < |s| && (s[e] == ',' || s[e] == ']')
    ensures ItemsFrom(s, off, items[..n]) ==
            if s[e] == ',' then ItemsFrom(s, e + 1, items[..n + 1]) else Parsed(Array(items[..n + 1]), e + 1)
  {
    NextSkips(s, off, p);
    SkipTo(s, e, e);
    assert items[..n + 1] == items[..n] + [items[n]];
  }

  function MemberSeparator(n: nat): string { if n > 0 then ",\n" else "" }

  lemma {:induction false} MembersPrefix(v: Value, k: nat, n: nat, depth: nat)
    requires v.Object? && k <= n <= |v.members|
    ensures DumpMembers(v, k, depth) <= DumpMembers(v, n, depth)
    decreases n
  {
    if k < n { MembersPrefix(v, k, n - 1, depth); }
  }

  function MemberPosition(v: Value, n: nat, at: nat, depth: nat): nat
    requires v.Object? && n <= |v.members|
  {
    at + 2 + |DumpMembers(v, n, depth)| + |MemberSeparator(n)|
  }

  function Closing(depth: nat): string { "\n" + Pad(if depth == 0 then 0 else depth - 1) + "}" }

  lemma DumpObject(v: Value, depth: nat)
    requires v.Object?
    ensures Dump(v, depth) == "{\n" + DumpMembers(v, |v.members|, depth) + Closing(depth)
  {
    var a, b, c, d := "{\n" + DumpMembers(v, |v.members|, depth), "\n", Pad(if depth == 0 then 0 else depth - 1), "}";
    assert ((a + b) + c) + d == a + ((b + c) + d);
  }

  lemma MembersPlaced(s: string, at: nat, v: Value, depth: nat)
    requires v.Object? && Holds(s, at, Dump(v, depth))
    ensures Holds(s, at + 2, DumpMembers(v, |v.members|, depth)) && s[at + 1] == '\n'
  {
    var all := DumpMembers(v, |v.members|, depth);
    DumpObject(v, depth);
    HoldsPart(s, at, "{\n" + all, Closing(depth));
    HoldsPart(s, at, "{\n", all);
    assert s[at + 1] == "{\n"[1];
  }

  lemma MemberPlaced(s: string, at: nat, v: Value, n: nat, depth: nat)
    requires v.Object? && n < |v.members| && Holds(s, at, Dump(v, depth))
    ensures var p := MemberPosition(v, n, at, depth);
            && Holds(s, p, DumpMember(v.members[n], depth)) && s[p - 1] == '\n' && (n > 0 ==> s[p - 2] == ',')
            && p + |DumpMember(v.members[n], depth)| == at + 2 + |DumpMembers(v, n + 1, depth)|
  {
    var before, d, sep := DumpMembers(v, n, depth), DumpMember(v.members[n], depth), MemberSeparator(n);
    assert Holds(s, at + 2, (before + sep) + d) && s[at + 1] == '\n' by {
      MembersPlaced(s, at, v, depth);
      MembersPrefix(v, n + 1, |v.members|, depth);
      HoldsPrefix(s, at + 2, DumpMembers(v, |v.members|, depth), DumpMembers(v, n + 1, depth));
    }
    PartsPlaced(s, at + 2, before, sep, d);
  }

  /** A part after a separator, which may be empty. */
  lemma PartsPlaced(s: string, at: nat, before: string, sep: string, d: string)
    requires Holds(s, at, (before + sep) + d) && (sep == "" || sep == ",\n") && (sep == "" ==> before == "")
    ensures Holds(s, at + |before| + |sep|, d)
    ensures sep != "" ==> s[at + |before|] == ',' && s[at + |before| + 1] == '\n'
  {
    HoldsPart(s, at, before + sep, d);
    HoldsPart(s, at, before, sep);
    if sep != "" { assert s[at + |before| + 0] == sep[0] && s[at + |before| + 1] == sep[1]; }
  }

  /** After the members come a line break, spaces and the closing brace. */
  lemma ObjectEnd(s: string, at: nat, v: Value, depth: nat)
    requires v.Object? && Holds(s, at, Dump(v, depth))
    ensures var e := at + 2 + |DumpMembers(v, |v.members|, depth)|; var f := at + |Dump(v, depth)| - 1;
            Spaces(s, e, f) && e < f && s[f] == '}'
  {
    var all, c := DumpMembers(v, |v.members|, depth), Closing(depth);
    DumpObject(v, depth);
    HoldsPart(s, at, "{\n" + all, c);
    var e := at + 2 + |all|;
    forall i | e <= i < e + |c| - 1 ensures IsSpace(s[i]) { assert s[e + (i - e)] == c[i - e]; }
    SpacesHeld(s, e, e + |c| - 1);
    assert s[e + (|c| - 1)] == c[|c| - 1];
  }

  lemma AfterMember(s: string, at: nat, v: Value, n: nat, depth: nat)
    requires v.Object? && n < |v.members| && Holds(s, at, Dump(v, depth))
    ensures var e := at + 2 + |DumpMembers(v, n + 1, depth)|;
            e < |s| && s[e] == (if n + 1 < |v.members| then ',' else '\n')
  {
    if n + 1 < |v.members| {
      MemberPlaced(s, at, v, n + 1, depth);
    } else {
      var all, c := DumpMembers(v, |v.members|, depth), Closing(depth);
      DumpObject(v, depth);
      HoldsPart(s, at, "{\n" + all, c);
      assert s[at + |"{\n" + all| + 0] == c[0];
    }
  }

  lemma KeyRound(s: string, off: nat, raw: string, x: nat, y: nat, members: seq<Member>)
    requires off <= |s| && ParseNext(s, off) == Parsed(String(raw), x) && x <= |s| && SkipSpace(s, x) == y
    ensures MembersFrom(s, off, members) == AfterKey(s, y, members, String(raw))
  {
  }

  lemma ValueRound(s: string, y: nat, key: Value, p: nat, v: Value, e: nat, f: nat, members: seq<Member>)
    requires y < |s| && s[y] == ':' && SkipSpace(s, y + 1) == p && ParseNext(s, p) == Parsed(v, e)
    requires e <= |s| && SkipSpace(s, e) == f
    ensures AfterKey(s, y, members, key) == AfterValue(s, f, Put(members, KeyOf(key), v))
  {
  }

  /** One round of the loop of `parse_object`: a key that ends at `x`, a colon at `y`, a
      value between `p` and `e`, and the character `f` that decides what follows. */
  lemma MemberRound(s: string, off: nat, raw: string, x: nat, y: nat, p: nat, v: Value, e: nat, f: nat,
      members: seq<Member>)
    requires off <= |s| && ParseNext(s, off) == Parsed(String(raw), x)
    requires x <= |s| && SkipSpace(s, x) == y && y < |s| && s[y] == ':'
    requires SkipSpace(s, y + 1) == p && ParseNext(s, p) == Parsed(v, e)
    requires e <= |s| && SkipSpace(s, e) == f
    ensures MembersFrom(s, off, members) == AfterValue(s, f, Put(members, Escape(raw), v))
  {
    assert MembersFrom(s, off, members) == AfterKey(s, y, members, String(raw)) by {
      KeyRound(s, off, raw, x, y, members);
    }
    ValueRound(s, y, String(raw), p, v, e, f, members);
  }

  /** A key at `k`, a value from `p` to `e`, and the character `f` after it, with spaces
      where `dump` puts them. */
  ghost predicate MemberText(s: string, off: nat, k: nat, p: nat, e: nat, f: nat) {
    && Spaces(s, off, k) && At(s, k) == '\"'
    && 3 <= p <= |s| && s[p - 3] == ' ' && s[p - 2] == ':' && s[p - 1] == ' ' && !IsSpace(At(s, p))
    && Spaces(s, e, f) && f < |s| && (s[f] == ',' || s[f] == '}')
  }

  lemma MemberSkips(s: string, off: nat, k: nat, p: nat, e: nat, f: nat)
    requires MemberText(s, off, k, p, e, f)
    ensures ParseNext(s, off) == ParseNext(s, k)
    ensures SkipSpace(s, p - 3) == p - 2 && SkipSpace(s, p - 1) == p && SkipSpace(s, e) == f
  {
    NextSkips(s, off, k);
    SkipTo(s, p - 3, p - 2);
    SkipTo(s, p - 1, p);
    SkipTo(s, e, f);
  }

  lemma PutNext(members: seq<Member>, n: nat)
    requires n < |members| && forall i, j :: 0 <= i < j < |members| ==> Less(members[i].key, members[j].key)
    ensures Put(members[..n], members[n].key, members[n].value) == members[..n + 1]
  {
    assert members[..n + 1] == members[..n] + [members[n]];
  }

  /** The round for member `n` of an ordered sequence. */
  lemma MemberStep(s: string, off: nat, k: nat, raw: string, p: nat, v: Value, e: nat, f: nat,
                   members: seq<Member>, after: seq<Member>)
    requires MemberText(s, off, k, p, e, f) && after == Put(members, Escape(raw), v)
    requires ParseNext(s, k) == Parsed(String(raw), p - 3) && ParseNext(s, p) == Parsed(v, e)
    ensures MembersFrom(s, off, members) == AfterValue(s, f, after)
  {
    assert ParseNext(s, off) == Parsed(String(raw), p - 3) by { MemberSkips(s, off, k, p, e, f); }
    assert SkipSpace(s, p - 3) == p - 2 && SkipSpace(s, p - 1) == p && SkipSpace(s, e) == f by {
      MemberSkips(s, off, k, p, e, f);
    }
    MemberRound(s, off, raw, p - 3, p - 2, p, v, e, f, members);
  }

  /** A key at `k`, after spaces. */
  ghost predicate KeyLaid(s: string, off: nat, k: nat, key: string) {
    Spaces(s, off, k) && At(s, k) == '\"' && Holds(s, k, "\"" + key + "\"")
  }

  /** A value from `p` to `e`, after a colon between spaces. */
  ghost predicate ValueLaid(s: string, p: nat, v: Value, e: nat, depth: nat) {
    && 3 <= p <= |s| && s[p - 3] == ' ' && s[p - 2] == ':' && s[p - 1] == ' ' && !IsSpace(At(s, p))
    && Holds(s, p, Dump(v, depth)) && p + |Dump(v, depth)| == e
  }

  /** The parts of a printed member: the key... */
  lemma KeyPart(s: string, at: nat, m: Member, depth: nat, k: nat)
    requires Holds(s, at, DumpMember(m, depth)) && k == at + |Pad(depth)|
    ensures KeyLaid(s, at, k, m.key)
  {
    var pad, d := Pad(depth), Dump(m.value, depth + 1);
    HoldsPart(s, at, pad + "\"" + m.key + "\" : ", d);
    HoldsPart(s, at, pad + "\"" + m.key, "\" : ");
    HoldsPart(s, at, pad + "\"", m.key);
    HoldsPart(s, at, pad, "\"");
    forall i | at <= i < k ensures IsSpace(s[i]) { assert s[at + (i - at)] == pad[i - at]; }
    SpacesHeld(s, at, k);
    var c := "\" : ";
    assert s[k + 1 + |m.key| + 0] == c[0] && s[k + 0] == "\""[0];
    KeyQuoted(s, k, m.key);
  }

  /** ...and the value. */
  lemma ValuePart(s: string, at: nat, m: Member, depth: nat, p: nat)
    requires Holds(s, at, DumpMember(m, depth)) && p == at + |Pad(depth)| + |m.key| + 5
    ensures ValueLaid(s, p, m.value, at + |DumpMember(m, depth)|, depth + 1)
  {
    var k, d, c := Pad(depth) + "\"" + m.key, Dump(m.value, depth + 1), "\" : ";
    HoldsPart(s, at, k + c, d);
    HoldsPart(s, at, k, c);
    var q := at + |k|;
    assert s[q + 1] == c[1] && s[q + 2] == c[2] && s[q + 3] == c[3];
    StartsValue(s, p, m.value, depth + 1);
  }

  lemma KeyQuoted(s: string, k: nat, key: string)
    requires Holds(s, k, "\"") && Holds(s, k + 1, key) && k + 1 + |key| < |s| && s[k + 1 + |key|] == '\"'
    ensures Holds(s, k, "\"" + key + "\"")
  {
    var t := "\"" + key + "\"";
    forall i | 0 <= i < |t| ensures s[k + i] == t[i] {
      if i == 0 { assert s[k + 0] == "\""[0]; } else if i <= |key| { assert s[k + 1 + (i - 1)] == key[i - 1]; }
    }
  }

  // ---- the round trip --------------------------------------------------------

  /** Item `n` after the comma and the space before it... */
  lemma ItemFacts(s: string, at: nat, v: Value, n: nat, depth: nat)
    requires v.Array? && n < |v.items| && Holds(s, at, Dump(v, depth))
    ensures var off, p := ItemResume(v, n, at, depth), ItemPosition(v, n, at, depth);
            && Spaces(s, off, p) && !IsSpace(At(s, p)) && At(s, p) != ']' && Holds(s, p, Dump(v.items[n], depth + 1))
            && p + |Dump(v.items[n], depth + 1)| == at + 1 + |DumpItems(v, n + 1, depth)|
  {
    var p, x, e := ItemPosition(v, n, at, depth), v.items[n], at + 1 + |DumpItems(v, n + 1, depth)|;
    assert Holds(s, p, Dump(x, depth + 1)) && p + |Dump(x, depth + 1)| == e && (n > 0 ==> s[p - 1] == ' ') by {
      ItemPlaced(s, at, v, n, depth);
    }
    StartsValue(s, p, x, depth + 1);
    SpaceBefore(s, ItemResume(v, n, at, depth), p);
  }

  lemma SpaceBefore(s: string, off: nat, p: nat)
    requires p <= |s| && (off == p || (off == p - 1 && s[off] == ' '))
    ensures Spaces(s, off, p)
  {
  }

  lemma StartsValue(s: string, p: nat, v: Value, depth: nat)
    requires Holds(s, p, Dump(v, depth))
    ensures !IsSpace(At(s, p)) && At(s, p) != ']' && At(s, p) != '}'
  {
    FirstChar(v, depth);
    assert s[p + 0] == Dump(v, depth)[0];
  }

  /** ...and the comma or bracket after it. */
  lemma ItemEnd(s: string, at: nat, v: Value, n: nat, depth: nat)
    requires v.Array? && n < |v.items| && Holds(s, at, Dump(v, depth))
    ensures var e := at + 1 + |DumpItems(v, n + 1, depth)|;
            e < |s| && if n + 1 < |v.items| then s[e] == ',' && ItemResume(v, n + 1, at, depth) == e + 1
                       else s[e] == ']' && e + 1 == at + |Dump(v, depth)|
  {
    AfterItem(s, at, v, n, depth);
  }

  lemma ItemEquation(s: string, at: nat, v: Value, n: nat, depth: nat)
    requires v.Array? && n < |v.items| && Holds(s, at, Dump(v, depth))
    requires ItemPosition(v, n, at, depth) <= |s|
    requires ParseNext(s, ItemPosition(v, n, at, depth)) == Parsed(v.items[n], at + 1 + |DumpItems(v, n + 1, depth)|)
    ensures ItemResume(v, n, at, depth) <= |s|
    ensures if n + 1 < |v.items| then
              && ItemResume(v, n + 1, at, depth) <= |s|
              && ItemsFrom(s, ItemResume(v, n, at, depth), v.items[..n])
                 == ItemsFrom(s, ItemResume(v, n + 1, at, depth), v.items[..n + 1])
            else ItemsFrom(s, ItemResume(v, n, at, depth), v.items[..n]) == Parsed(v, at + |Dump(v, depth)|)
  {
    var off, p, e := ItemResume(v, n, at, depth), ItemPosition(v, n, at, depth), at + 1 + |DumpItems(v, n + 1, depth)|;
    assert Spaces(s, off, p) && !IsSpace(At(s, p)) by { ItemFacts(s, at, v, n, depth); }
    ItemEnd(s, at, v, n, depth);
    assert n + 1 < |v.items| ==> ItemsFrom(s, off, v.items[..n]) == ItemsFrom(s, e + 1, v.items[..n + 1]) by {
      ItemStep(s, off, p, e, v.items, n);
    }
    assert n + 1 == |v.items| ==> ItemsFrom(s, off, v.items[..n]) == Parsed(v, e + 1) by {
      ItemStep(s, off, p, e, v.items, n);
      if n + 1 == |v.items| { assert v.items[..n + 1] == v.items; }
    }
  }

  lemma {:induction false} ItemTrip(s: string, at: nat, v: Value, n: nat, depth: nat)
    requires v.Array? && WellFormed(v) && n < |v.items| && Holds(s, at, Dump(v, depth))
    ensures ItemPosition(v, n, at, depth) <= |s|
    ensures ParseNext(s, ItemPosition(v, n, at, depth)) == Parsed(v.items[n], at + 1 + |DumpItems(v, n + 1, depth)|)
    decreases v, 0, 0
  {
    var p, x, e := ItemPosition(v, n, at, depth), v.items[n], at + 1 + |DumpItems(v, n + 1, depth)|;
    assert Holds(s, p, Dump(x, depth + 1)) && p + |Dump(x, depth + 1)| == e by { ItemFacts(s, at, v, n, depth); }
    assert EndsNumber(At(s, e)) by { ItemEnd(s, at, v, n, depth); }
    RoundTrip(s, p, x, depth + 1);
  }

  lemma {:induction false} ItemsTrip(s: string, at: nat, v: Value, n: nat, depth: nat)
    requires v.Array? && WellFormed(v) && n < |v.items| && Holds(s, at, Dump(v, depth))
    ensures ItemResume(v, n, at, depth) <= |s|
    ensures ItemsFrom(s, ItemResume(v, n, at, depth), v.items[..n]) == Parsed(v, at + |Dump(v, depth)|)
    decreases v, 1, |v.items| - n
  {
    ItemTrip(s, at, v, n, depth);
    ItemEquation(s, at, v, n, depth);
    if n + 1 < |v.items| { ItemsTrip(s, at, v, n + 1, depth); }
  }

  lemma ArrayStart(s: string, at: nat, v: Value, depth: nat)
    requires v.Array? && Holds(s, at, Dump(v, depth))
    ensures v.items == [] ==> ParseNext(s, at) == Parsed(v, at + |Dump(v, depth)|)
    ensures v.items != [] ==> at < |s| && ParseNext(s, at) == ItemsFrom(s, at + 1, [])
    ensures v.items != [] ==> ItemResume(v, 0, at, depth) == at + 1
  {
    assert ParseNext(s, at) == ArrayAt(s, at) by {
      assert s[at + 0] == Dump(v, depth)[0];
      NextIs(s, at);
    }
    if v.items == [] {
      assert s[at + 1] == Dump(v, depth)[1];
      SkipTo(s, at + 1, at + 1);
    } else {
      ItemFacts(s, at, v, 0, depth);
      SkipTo(s, at + 1, at + 1);
    }
  }

  lemma {:induction false} ArrayTrip(s: string, at: nat, v: Value, depth: nat)
    requires v.Array? && WellFormed(v) && Holds(s, at, Dump(v, depth))
    ensures ParseNext(s, at) == Parsed(v, at + |Dump(v, depth)|)
    decreases v, 2, 0
  {
    ArrayStart(s, at, v, depth);
    if v.items != [] {
      ItemsTrip(s, at, v, 0, depth);
      assert v.items[..0] == [];
    }
  }

  function KeyPosition(v: Value, n: nat, at: nat, depth: nat): nat
    requires v.Object? && n <= |v.members|
  {
    MemberPosition(v, n, at, depth) + |Pad(depth)|
  }

  function ValuePosition(v: Value, n: nat, at: nat, depth: nat): nat
    requires v.Object? && n < |v.members|
  {
    KeyPosition(v, n, at, depth) + |v.members[n].key| + 5
  }

  /** The key of member `n`, after a line break and spaces... */
  lemma KeyFacts(s: string, at: nat, v: Value, n: nat, depth: nat)
    requires v.Object? && n < |v.members| && Holds(s, at, Dump(v, depth))
    ensures KeyLaid(s, MemberPosition(v, n, at, depth) - 1, KeyPosition(v, n, at, depth), v.members[n].key)
  {
    var off, k := MemberPosition(v, n, at, depth), KeyPosition(v, n, at, depth);
    assert Holds(s, off, DumpMember(v.members[n], depth)) && s[off - 1] == '\n' by { MemberPlaced(s, at, v, n, depth); }
    KeyPart(s, off, v.members[n], depth, k);
  }

  /** ...and its value. */
  lemma ValueFacts(s: string, at: nat, v: Value, n: nat, depth: nat)
    requires v.Object? && n < |v.members| && Holds(s, at, Dump(v, depth))
    ensures ValueLaid(s, ValuePosition(v, n, at, depth), v.members[n].value, at + 2 + |DumpMembers(v, n + 1, depth)|,
            depth + 1)
  {
    var off, p, e := MemberPosition(v, n, at, depth), ValuePosition(v, n, at, depth),
        at + 2 + |DumpMembers(v, n + 1, depth)|;
    assert Holds(s, off, DumpMember(v.members[n], depth)) && off + |DumpMember(v.members[n], depth)| == e by {
      MemberPlaced(s, at, v, n, depth);
    }
    ValuePart(s, off, v.members[n], depth, p);
  }

  /** Where the parser is before member `n`, or after the object. */
  function Resume(v: Value, n: nat, at: nat, depth: nat): nat
    requires v.Object? && n <= |v.members|
  {
    if n < |v.members| then MemberPosition(v, n, at, depth) - 1 else at + |Dump(v, depth)|
  }

  /** What follows member `n`, up to the comma or brace before the next position. */
  lemma MemberEnd(s: string, at: nat, v: Value, n: nat, depth: nat)
    requires v.Object? && n < |v.members| && Holds(s, at, Dump(v, depth))
    ensures var e, next := at + 2 + |DumpMembers(v, n + 1, depth)|, Resume(v, n + 1, at, depth);
            && e < next <= |s| && Spaces(s, e, next - 1) && s[next - 1] == (if n + 1 < |v.members| then ',' else '}')
  {
    if n + 1 < |v.members| {
      AfterMember(s, at, v, n, depth);
    } else {
      ObjectEnd(s, at, v, depth);
    }
  }

  /** The loop of `parse_object` gives `r`. */
  ghost predicate MembersGive(s: string, off: int, members: seq<Member>, r: Outcome) {
    0 <= off <= |s| && MembersFrom(s, off, members) == r
  }

  /** Member `n` is printed between `off` and `next`, its key at `k`, its value from `p` to `e`. */
  ghost predicate Between(v: Value, n: nat, at: nat, depth: nat, off: nat, k: nat, p: nat, e: nat, next: nat) {
    && v.Object? && n < |v.members| && k == KeyPosition(v, n, at, depth) && p == ValuePosition(v, n, at, depth)
    && e == at + 2 + |DumpMembers(v, n + 1, depth)|
    && off == Resume(v, n, at, depth) && next == Resume(v, n + 1, at, depth)
  }

  lemma KeyTrip(s: string, at: nat, v: Value, n: nat, depth: nat, off: nat, k: nat, p: nat, e: nat, next: nat,
      raw: string)
    requires Between(v, n, at, depth, off, k, p, e, next) && Holds(s, at, Dump(v, depth))
             && Escape(raw) == v.members[n].key
    ensures k <= |s| && ParseNext(s, k) == Parsed(String(raw), p - 3)
  {
    KeyFacts(s, at, v, n, depth);
    StringTrip(s, k, raw);
  }

  /** From `off` the loop reads member `n`, up to the character before `next`. */
  ghost predicate Ready(s: string, members: seq<Member>, n: nat, off: nat, next: nat)
    requires n < |members|
  {
    && off <= |s| && 0 < next <= |s| && s[next - 1] == (if n + 1 < |members| then ',' else '}')
    && MembersFrom(s, off, members[..n]) == AfterValue(s, next - 1, members[..n + 1])
  }

  lemma Continues(s: string, q: nat, members: seq<Member>)
    requires q < |s|
    ensures s[q] == ',' ==> AfterValue(s, q, members) == MembersFrom(s, q + 1, members)
    ensures s[q] == '}' ==> AfterValue(s, q, members) == Parsed(Object(members), q + 1)
  {
  }

  lemma ReadyStep(s: string, members: seq<Member>, n: nat, off: nat, next: nat, r: Outcome)
    requires n < |members| && Ready(s, members, n, off, next)
    requires if n + 1 < |members| then MembersGive(s, next, members[..n + 1], r) else r == Parsed(Object(members), next)
    ensures MembersGive(s, off, members[..n], r)
  {
    Continues(s, next - 1, members[..n + 1]);
    if n + 1 == |members| { assert members[..n + 1] == members; }
  }

  ghost predicate ReadyBetween(s: string, members: seq<Member>, offs: seq<nat>, i: nat)
    requires |offs| == |members| + 1 && i < |members|
  {
    Ready(s, members, i, offs[i], offs[i + 1])
  }

  /** The loop reads members that follow each other at the positions `offs`. */
  lemma {:induction false} ReadyChain(s: string, members: seq<Member>, offs: seq<nat>, n: nat)
    requires |offs| == |members| + 1 && n < |members|
    requires forall i :: 0 <= i < |members| ==> ReadyBetween(s, members, offs, i)
    ensures MembersGive(s, offs[n], members[..n], Parsed(Object(members), offs[|members|]))
    decreases |members| - n
  {
    if n + 1 < |members| { ReadyChain(s, members, offs, n + 1); }
    assert ReadyBetween(s, members, offs, n);
    ReadyStep(s, members, n, offs[n], offs[n + 1], Parsed(Object(members), offs[|members|]));
  }

  lemma MemberLayout(s: string, at: nat, v: Value, n: nat, depth: nat, off: nat, k: nat, p: nat, e: nat, next: nat)
    requires Between(v, n, at, depth, off, k, p, e, next) && Holds(s, at, Dump(v, depth))
    ensures 0 < next && MemberText(s, off, k, p, e, next - 1)
  {
    assert Spaces(s, off, k) && At(s, k) == '\"' by { KeyFacts(s, at, v, n, depth); }
    assert 3 <= p <= |s| && s[p - 3] == ' ' && s[p - 2] == ':' && s[p - 1] == ' ' && !IsSpace(At(s, p)) by {
      ValueFacts(s, at, v, n, depth);
    }
    MemberEnd(s, at, v, n, depth);
  }

  lemma MemberStop(s: string, at: nat, v: Value, n: nat, depth: nat, off: nat, k: nat, p: nat, e: nat, next: nat)
    requires Between(v, n, at, depth, off, k, p, e, next) && Holds(s, at, Dump(v, depth))
    ensures 0 < next <= |s| && s[next - 1] == (if n + 1 < |v.members| then ',' else '}')
  {
    MemberEnd(s, at, v, n, depth);
  }

  lemma {:induction false} MemberTrip(s: string, at: nat, v: Value, n: nat, depth: nat)
    requires v.Object? && WellFormed(v) && n < |v.members| && Holds(s, at, Dump(v, depth))
    ensures ValuePosition(v, n, at, depth) <= |s|
    ensures ParseNext(s, ValuePosition(v, n, at, depth))
            == Parsed(v.members[n].value, at + 2 + |DumpMembers(v, n + 1, depth)|)
    decreases v, 0, 0
  {
    var p, x, e := ValuePosition(v, n, at, depth), v.members[n].value, at + 2 + |DumpMembers(v, n + 1, depth)|;
    assert p <= |s| && Holds(s, p, Dump(x, depth + 1)) && p + |Dump(x, depth + 1)| == e by {
      ValueFacts(s, at, v, n, depth);
    }
    assert EndsNumber(At(s, e)) by { AfterMember(s, at, v, n, depth); }
    RoundTrip(s, p, x, depth + 1);
  }

  function Positions(v: Value, at: nat, depth: nat): (offs: seq<nat>)
    requires v.Object?
    ensures |offs| == |v.members| + 1
    ensures forall i {:trigger offs[i]} :: 0 <= i < |offs| ==> offs[i] == Resume(v, i, at, depth)
  {
    seq(|v.members| + 1, i requires 0 <= i <= |v.members| => Resume(v, i, at, depth))
  }

  /** The loop reads a member with key `raw` whose text is laid out at `off`, `k`, `p`, `e` and `f`. */
  lemma LaidRound(s: string, members: seq<Member>, n: nat, off: nat, k: nat, raw: string, p: nat, e: nat, f: nat)
    requires n < |members| && MemberText(s, off, k, p, e, f) && Escape(raw) == members[n].key
    requires Put(members[..n], members[n].key, members[n].value) == members[..n + 1]
    requires ParseNext(s, k) == Parsed(String(raw), p - 3) && ParseNext(s, p) == Parsed(members[n].value, e)
    requires s[f] == (if n + 1 < |members| then ',' else '}')
    ensures Ready(s, members, n, off, f + 1)
  {
    MemberStep(s, off, k, raw, p, members[n].value, e, f, members[..n], members[..n + 1]);
  }

  lemma MemberReady(s: string, at: nat, v: Value, n: nat, depth: nat, off: nat, k: nat, p: nat, e: nat, next: nat,
      raw: string)
    requires Between(v, n, at, depth, off, k, p, e, next) && Holds(s, at, Dump(v, depth))
             && Escape(raw) == v.members[n].key
    requires p <= |s| && ParseNext(s, p) == Parsed(v.members[n].value, e)
    requires Put(v.members[..n], v.members[n].key, v.members[n].value) == v.members[..n + 1]
    ensures Ready(s, v.members, n, off, next)
  {
    assert 0 < next && MemberText(s, off, k, p, e, next - 1) by {
      MemberLayout(s, at, v, n, depth, off, k, p, e, next);
    }
    assert next <= |s| && s[next - 1] == (if n + 1 < |v.members| then ',' else '}') by {
      MemberStop(s, at, v, n, depth, off, k, p, e, next);
    }
    assert k <= |s| && ParseNext(s, k) == Parsed(String(raw), p - 3) by {
      KeyTrip(s, at, v, n, depth, off, k, p, e, next, raw);
    }
    assert Ready(s, v.members, n, off, next) by { LaidRound(s, v.members, n, off, k, raw, p, e, next - 1); }
  }

  lemma {:induction false} MembersTrip(s: string, at: nat, v: Value, depth: nat)
    requires v.Object? && WellFormed(v) && v.members != [] && Holds(s, at, Dump(v, depth))
    ensures MembersGive(s, Resume(v, 0, at, depth), [], Parsed(v, at + |Dump(v, depth)|))
    decreases v, 2, 0
  {
    var offs: seq<nat> := Positions(v, at, depth);
    forall i | 0 <= i < |v.members| ensures ReadyBetween(s, v.members, offs, i) {
      MemberTrip(s, at, v, i, depth);
      PutNext(v.members, i);
      var raw :| Escape(raw) == v.members[i].key;
      MemberReady(s, at, v, i, depth, offs[i], KeyPosition(v, i, at, depth), ValuePosition(v, i, at, depth),
                  at + 2 + |DumpMembers(v, i + 1, depth)|, offs[i + 1], raw);
    }
    ReadyChain(s, v.members, offs, 0);
    assert v.members[..0] == [];
  }

  lemma ObjectStart(s: string, at: nat, v: Value, depth: nat)
    requires v.Object? && Holds(s, at, Dump(v, depth))
    ensures v.members == [] ==> ParseNext(s, at) == Parsed(v, at + |Dump(v, depth)|)
    ensures v.members != [] ==> at < |s| && ParseNext(s, at) == MembersFrom(s, at + 1, [])
    ensures v.members != [] ==> Resume(v, 0, at, depth) == at + 1
  {
    assert s[at] == '{' && s[at + 1] == '\n' by {
      DumpObject(v, depth);
      assert s[at + 0] == Dump(v, depth)[0] && s[at + 1] == Dump(v, depth)[1];
    }
    assert ParseNext(s, at) == ObjectAt(s, at) by { NextIs(s, at); }
    if v.members == [] {
      ObjectEnd(s, at, v, depth);
      SkipTo(s, at + 1, at + |Dump(v, depth)| - 1);
    } else {
      KeyFacts(s, at, v, 0, depth);
      SkipTo(s, at + 1, KeyPosition(v, 0, at, depth));
    }
  }

  lemma {:induction false} ObjectTrip(s: string, at: nat, v: Value, depth: nat)
    requires v.Object? && WellFormed(v) && Holds(s, at, Dump(v, depth))
    ensures ParseNext(s, at) == Parsed(v, at + |Dump(v, depth)|)
    decreases v, 3, 0
  {
    ObjectStart(s, at, v, depth);
    if v.members != [] {
      MembersTrip(s, at, v, depth);
    }
  }

  /** A printed value that stands anywhere in a text is read back, up to its end; for an
      integer this needs one of the characters that may follow a number. */
  lemma {:induction false} RoundTrip(s: string, at: nat, v: Value, depth: nat)
    requires WellFormed(v) && Holds(s, at, Dump(v, depth))
    requires v.Int? ==> EndsNumber(At(s, at + |Dump(v, depth)|))
    ensures ParseNext(s, at) == Parsed(v, at + |Dump(v, depth)|)
    decreases v, 4, 0
  {
    match v
    case Null => WordTrip(s, at, "null");
    case Bool(b) => WordTrip(s, at, Dump(v, depth));
    case Int(n) => NumberTrip(s, at, n);
    case String(x) => StringTrip(s, at, x);
    case Array(_) => ArrayTrip(s, at, v, depth);
    case Object(_) => ObjectTrip(s, at, v, depth);
  }

  lemma {:induction false} MatchesHeld(s: string, p: nat, w: string, n: nat)
    requires n <= |w| && Holds(s, p, w)
    ensures Matches(s, p, w, n)
  {
    if n > 0 {
      assert s[p + (n - 1)] == w[n - 1];
      MatchesHeld(s, p, w, n - 1);
    }
  }

  lemma {:induction false} MatchesFirst(s: string, p: nat, w: string, n: nat)
    requires 0 < n <= |w| && Matches(s, p, w, n)
    ensures p < |s| && s[p] == w[0]
  {
    if n > 1 { MatchesFirst(s, p, w, n - 1); }
  }

  lemma WordTrip(s: string, at: nat, w: string)
    requires Holds(s, at, w) && (w == "null" || w == "true" || w == "false")
    ensures ParseNext(s, at) == Parsed(if w == "null" then Null else Bool(w == "true"), at + |w|)
  {
    assert s[at + 0] == w[0];
    SkipTo(s, at, at);
    MatchesHeld(s, at, w, |w|);
    if Matches(s, at, "true", 4) { MatchesFirst(s, at, "true", 4); }
    if Matches(s, at, "false", 5) { MatchesFirst(s, at, "false", 5); }
  }

  /** An integer alone is not read back: the end of the text does not end a number. */
  lemma IntegerAlone(n: int)
    requires MIN_LONG <= n <= MAX_LONG
    ensures ParseNext(Dump(Int(n), 1), 0) == Parsed(Null, |Dump(Int(n), 1)| + 1)
  {
    var s := Show(n);
    NumberTrip(s, 0, n);
  }

  // ---- what the parser makes -------------------------------------------------

  lemma {:induction false} PutBelow(members: seq<Member>, key: string, value: Value, bound: string)
    requires Less(key, bound) && forall i :: 0 <= i < |members| ==> Less(members[i].key, bound)
    ensures forall i :: 0 <= i < |Put(members, key, value)| ==> Less(Put(members, key, value)[i].key, bound)
    decreases |members|
  {
    if members != [] { PutBelow(members[..|members| - 1], key, value, bound); }
  }

  /** A map that is in order stays so. */
  lemma {:induction false} PutOk(members: seq<Member>, key: string, value: Value)
    requires WellFormed(Object(members)) && EscapedKey(key) && WellFormed(value)
    ensures WellFormed(Object(Put(members, key, value)))
    decreases |members|
  {
    if members != [] {
      var rest, last := members[..|members| - 1], members[|members| - 1];
      if Less(last.key, key) {
        forall i | 0 <= i < |members| ensures Less(members[i].key, key) {
          if i < |members| - 1 { LessTransitive(members[i].key, last.key, key, 0); }
        }
      } else if last.key != key {
        LessTotal(key, last.key, 0);
        PutOk(rest, key, value);
        PutBelow(rest, key, value, last.key);
      }
    }
  }

  lemma KeyOfOk(v: Value)
    ensures EscapedKey(KeyOf(v))
  {
    assert Escape("") == "";
    if v.String? { assert Escape(v.s) == KeyOf(v); }
  }

  lemma {:induction false} NumberOk(s: string, off: nat, val: string)
    ensures NumberFrom(s, off, val).Parsed? ==> WellFormed(NumberFrom(s, off, val).value)
    decreases |s| + 1 - off
  {
    if off <= |s| && (At(s, off) == '-' || IsDigit(At(s, off))) { NumberOk(s, off + 1, val + [At(s, off)]); }
  }

  /** Every value that is read is well formed. */
  lemma {:induction false} ParsedOk(s: string, off: nat)
    requires off <= |s| && ParseNext(s, off).Parsed?
    ensures WellFormed(ParseNext(s, off).value)
    decreases |s| - off, 2
  {
    var p := SkipSpace(s, off);
    if p < |s| { ValueOk(s, p); }
  }

  lemma {:induction false} ValueOk(s: string, p: nat)
    requires p < |s| && ValueAt(s, p).Parsed?
    ensures WellFormed(ValueAt(s, p).value)
    decreases |s| - p, 1
  {
    if s[p] == '[' {
      if ArrayAt(s, p) == ItemsFrom(s, p + 1, []) { ItemsOk(s, p + 1, []); }
    } else if s[p] == '{' {
      if ObjectAt(s, p) == MembersFrom(s, p + 1, []) { MembersOk(s, p + 1, []); }
    } else if IsDigit(s[p]) || s[p] == '-' {
      NumberOk(s, p, "");
    }
  }

  lemma {:induction false} ItemsOk(s: string, off: nat, items: seq<Value>)
    requires off <= |s| && WellFormed(Array(items)) && ItemsFrom(s, off, items).Parsed?
    ensures WellFormed(ItemsFrom(s, off, items).value)
    decreases |s| - off, 3
  {
    var v := ParseNext(s, off);
    ParsedOk(s, off);
    var q := SkipSpace(s, v.next);
    if At(s, q) == ',' { ItemsOk(s, q + 1, items + [v.value]); }
  }

  lemma {:induction false} MembersOk(s: string, off: nat, members: seq<Member>)
    requires off <= |s| && WellFormed(Object(members)) && MembersFrom(s, off, members).Parsed?
    ensures WellFormed(MembersFrom(s, off, members).value)
    decreases |s| - off, 3
  {
    var k := ParseNext(s, off);
    AfterKeyOk(s, SkipSpace(s, k.next), members, k.value);
  }

  lemma {:induction false} AfterKeyOk(s: string, q: nat, members: seq<Member>, key: Value)
    requires q <= |s| && WellFormed(Object(members)) && AfterKey(s, q, members, key).Parsed?
    ensures WellFormed(AfterKey(s, q, members, key).value)
    decreases |s| - q, 1
  {
    if At(s, q) == ':' {
      var v := ParseNext(s, SkipSpace(s, q + 1));
      ParsedOk(s, SkipSpace(s, q + 1));
      KeyOfOk(key);
      PutOk(members, KeyOf(key), v.value);
      AfterValueOk(s, SkipSpace(s, v.next), Put(members, KeyOf(key), v.value));
    }
  }

  lemma {:induction false} AfterValueOk(s: string, q: nat, members: seq<Member>)
    requires q <= |s| && WellFormed(Object(members)) && AfterValue(s, q, members).Parsed?
    ensures WellFormed(AfterValue(s, q, members).value)
    decreases |s| - q, 1
  {
    if At(s, q) == ',' { MembersOk(s, q + 1, members); }
  }

  /** `JSON::Load` of a printed value gives the value back exactly when it is no integer, and
      all integers in it fit a `long`, all keys are escaped, and the members of all objects
      are in the order of a map. */
  lemma LoadDump(v: Value)
    ensures ParseNext(Dump(v, 1), 0) == Parsed(v, |Dump(v, 1)|) <==> WellFormed(v) && !v.Int?
  {
    if ParseNext(Dump(v, 1), 0) == Parsed(v, |Dump(v, 1)|) { ParsedOk(Dump(v, 1), 0); }
    if WellFormed(v) {
      if v.Int? { IntegerAlone(v.n); } else { RoundTrip(Dump(v, 1), 0, v, 1); }
    }
  }

  /** Keys are printed as they are: one that holds a quotation mark is not read back. */
  lemma RawKeyLost(value: Value)
    ensures var v := Object([Member("\"", value)]); ParseNext(Dump(v, 1), 0) != Parsed(v, |Dump(v, 1)|)
  {
    var v := Object([Member("\"", value)]);
    LoadDump(v);
    if WellFormed(v) {
      assert EscapedKey(v.members[0].key);
      var raw :| Escape(raw) == "\"";
      QuoteIsEscaped(raw);
    }
  }

  lemma QuoteIsEscaped(raw: string)
    ensures Escape(raw) != "\""
  {
    if raw != "" {
      var before, e := EscapeFirst(raw, |raw| - 1), EscapeChar(raw[|raw| - 1]);
      assert Escape(raw) == before + e && e != "" && e != "\"";
      assert before == "" ==> before + e == e;
    }
  }

  // ---- the parsing loops -----------------------------------------------------

  method ConsumeSpace(str: string, offset: nat) returns (r: nat)
    requires offset <= |str|
    ensures r == SkipSpace(str, offset)
  {
    r := offset;
    while IsSpace(At(str, r))
      invariant offset <= r <= |str| && SkipSpace(str, offset) == SkipSpace(str, r)
      decreases |str| - r
    {
      r := r + 1;
    }
  }

  method ReadString(str: string, offset: nat) returns (v: Value, r: nat)
    requires StringFrom(str, offset + 1, "").Parsed?
    ensures Parsed(v, r) == StringFrom(str, offset + 1, "")
  {
    var val := "";
    r := offset + 1;
    var c := At(str, r);
    while c != '\"'
      invariant StringFrom(str, offset + 1, "") == StringFrom(str, r, val) && c == At(str, r) && r < |str|
      decreases |str| - r
    {
      if c == '\\' {
        r := r + 1;
        val := val + Unescaped(str[r]).value;
      } else {
        val := val + [c];
      }
      r := r + 1;
      c := At(str, r);
    }
    v, r := String(val), r + 1;
  }

  method ReadNumber(str: string, offset: nat) returns (v: Value, r: nat)
    requires NumberFrom(str, offset, "").Parsed?
    ensures Parsed(v, r) == NumberFrom(str, offset, "")
  {
    var val := "";
    r := offset;
    var c := At(str, r);
    r := r + 1;
    while c == '-' || IsDigit(c)
      invariant 0 < r && c == At(str, r - 1) && NumberFrom(str, offset, "") == NumberFrom(str, r - 1, val)
      invariant r <= |str| + 1
      decreases |str| + 1 - r
    {
      val := val + [c];
      c := At(str, r);
      r := r + 1;
    }
    if !EndsNumber(c) { return Null, r; }
    r := r - 1;
    v := Int(ToLong(val).value);
  }

  method ReadArray(str: string, offset: nat) returns (v: Value, r: nat)
    requires offset < |str| && ArrayAt(str, offset).Parsed?
    ensures Parsed(v, r) == ArrayAt(str, offset)
    decreases |str| - offset, 0
  {
    r := ConsumeSpace(str, offset + 1);
    if At(str, r) == ']' { return Array([]), r + 1; }
    var items: seq<Value> := [];
    r := offset + 1;
    while true
      invariant offset < r <= |str| && ArrayAt(str, offset) == ItemsFrom(str, r, items)
      decreases |str| - r
    {
      var item;
      item, r := ReadNext(str, r);
      items := items + [item];
      r := ConsumeSpace(str, r);
      if At(str, r) == ',' {
        r := r + 1;
      } else if At(str, r) == ']' {
        return Array(items), r + 1;
      } else {
        return Array([]), r;
      }
    }
  }

  method ReadObject(str: string, offset: nat) returns (v: Value, r: nat)
    requires offset < |str| && ObjectAt(str, offset).Parsed?
    ensures Parsed(v, r) == ObjectAt(str, offset)
    decreases |str| - offset, 0
  {
    r := ConsumeSpace(str, offset + 1);
    if At(str, r) == '}' { return Object([]), r + 1; }
    var members: seq<Member> := [];
    r := offset + 1;
    var more := true;
    while more
      invariant more ==> offset < r <= |str| && ObjectAt(str, offset) == MembersFrom(str, r, members)
      invariant !more ==> ObjectAt(str, offset) == Parsed(Object(members), r)
      decreases more, |str| - r
    {
      members, r, more := ReadMember(str, r, members);
    }
    v := Object(members);
  }

  /** One round of the loop; `more` after a comma. */
  method ReadMember(str: string, offset: nat, members: seq<Member>) returns (all: seq<Member>, r: nat, more: bool)
    requires offset <= |str| && MembersFrom(str, offset, members).Parsed?
    ensures more ==> offset < r <= |str| && MembersFrom(str, offset, members) == MembersFrom(str, r, all)
    ensures !more ==> MembersFrom(str, offset, members) == Parsed(Object(all), r)
    decreases |str| - offset, 3
  {
    var key, value;
    key, r := ReadKey(str, offset, members);
    if At(str, r) != ':' { return members, r, false; }
    value, r := ReadValue(str, r, members, key);
    all := Put(members, KeyOf(key), value);
    assert MembersFrom(str, offset, members) == AfterValue(str, r, all);
    more := At(str, r) == ',';
    if more || At(str, r) == '}' { r := r + 1; }
  }

  /** The key of a round of the loop, and the spaces after it. */
  method ReadKey(str: string, offset: nat, ghost members: seq<Member>) returns (key: Value, r: nat)
    requires offset <= |str| && MembersFrom(str, offset, members).Parsed?
    ensures offset <= r <= |str| && MembersFrom(str, offset, members) == AfterKey(str, r, members, key)
    decreases |str| - offset, 2
  {
    key, r := ReadNext(str, offset);
    r := ConsumeSpace(str, r);
  }

  /** The value after the colon at `offset`, and the spaces around it. */
  method ReadValue(str: string, offset: nat, ghost members: seq<Member>, ghost key: Value)
      returns (value: Value, r: nat)
    requires offset < |str| && str[offset] == ':' && AfterKey(str, offset, members, key).Parsed?
    ensures offset < r <= |str|
    ensures AfterKey(str, offset, members, key) == AfterValue(str, r, Put(members, KeyOf(key), value))
    decreases |str| - offset, 0
  {
    r := ConsumeSpace(str, offset + 1);
    value, r := ReadNext(str, r);
    r := ConsumeSpace(str, r);
  }

  method ReadNext(str: string, offset: nat) returns (v: Value, r: nat)
    requires offset <= |str| && ParseNext(str, offset).Parsed?
    ensures Parsed(v, r) == ParseNext(str, offset)
    decreases |str| - offset, 1
  {
    r := ConsumeSpace(str, offset);
    var c := At(str, r);
    if r == |str| { return Null, r; }
    if c == '[' {
      v, r := ReadArray(str, r);
    } else if c == '{' {
      v, r := ReadObject(str, r);
    } else if c == '\"' {
      v, r := ReadString(str, r);
    } else if c == 't' || c == 'f' || c == 'n' {
      var w := WordAt(str, r);
      v, r := w.value, w.next;
    } else if IsDigit(c) || c == '-' {
      v, r := ReadNumber(str, r);
    } else {
      v := Null;
    }
  }
}
