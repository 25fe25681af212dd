/** The slice of Cloud Firestore the back end's repositories rely on: field
    values, documents as maps from field names to values, a collection as a
    map from document ids to documents, and the two kinds of write the
    repositories issue — `set(fields)`, which replaces the whole document,
    and `set(fields, merge=True)`, which overwrites only the given fields
    (creating the document when it is missing). `Increment(n)` is the one
    field transform used. Python's `int(...)` conversion of a stored value
    lives here too, since every decoder applies it to raw values. */
module Firestore {
  import opened Common

  /** An instant (a `datetime`), in microseconds since the epoch. */
  type Time = int

  const MicrosPerSecond: int := 1000000

  /** The value of one document field. */
  datatype Value =
    | Null
    | Bool(boolValue: bool)
    | Int(intValue: int)
    | Double(doubleValue: real)
    | Str(stringValue: string)
    | Timestamp(instant: Time)
    | Geo(latitude: real, longitude: real)
    | Record(fields: map<string, Value>)
    | Array(items: seq<Value>)

  type Doc = map<string, Value>

  type Collection = map<string, Doc>

  /** `data.get(name)`: `None` when the field is absent. */
  function Field(doc: Doc, name: string): (r: Option<Value>)
    ensures r.Some? <==> name in doc
    ensures r.Some? ==> r.value == doc[name]
  {
    if name in doc then Some(doc[name]) else None
  }

  /** `document(id).set(fields)`: the document becomes exactly `fields`. */
  function Overwrite(c: Collection, id: string, fields: Doc): (r: Collection)
    ensures id in r && r[id] == fields
    ensures forall other :: other != id ==> (other in r <==> other in c) && (other in c ==> r[other] == c[other])
  {
    c[id := fields]
  }

  /** `document(id).set(fields, merge=True)`: the given fields are
      overwritten, every other field is kept, and a missing document is
      created with just the given fields. */
  function MergeSet(c: Collection, id: string, fields: Doc): (r: Collection)
    ensures id in r
    ensures forall name :: name in fields ==> name in r[id] && r[id][name] == fields[name]
    ensures forall name :: name !in fields ==> (name in r[id] <==> id in c && name in c[id])
    ensures forall name :: name !in fields && name in r[id] ==> r[id][name] == c[id][name]
    ensures forall other :: other != id ==> (other in r <==> other in c) && (other in c ==> r[other] == c[other])
  {
    var current := if id in c then c[id] else map[];
    c[id := current + fields]
  }

  /** The value `Increment(delta)` leaves in a field: a number grows by
      `delta`; an absent or non-numeric field becomes `delta`. */
  function Incremented(current: Option<Value>, delta: int): (r: Value)
    ensures current.Some? && current.value.Int? ==> r == Int(current.value.intValue + delta)
    ensures current.Some? && current.value.Double? ==> r == Double(current.value.doubleValue + delta as real)
    ensures (current.None? || !(current.value.Int? || current.value.Double?)) ==> r == Int(delta)
  {
    match current
    case Some(Int(i)) => Int(i + delta)
    case Some(Double(d)) => Double(d + delta as real)
    case _ => Int(delta)
  }

  /** `document(id).set({name: Increment(delta)}, merge=True)`. */
  function MergeIncrement(c: Collection, id: string, name: string, delta: int): (r: Collection)
    ensures id in r
    ensures r == MergeSet(c, id, map[name := Incremented(if id in c then Field(c[id], name) else None, delta)])
  {
    MergeSet(c, id, map[name := Incremented(if id in c then Field(c[id], name) else None, delta)])
  }

  /** Firestore's order of value types: null, booleans, numbers,
      timestamps, strings, geopoints, arrays, maps. Bytes and references,
      which sit between strings and geopoints, are not values here. */
  function TypeRank(v: Value): (r: nat)
    ensures r <= 7
    ensures r == 2 <==> v.Int? || v.Double?
  {
    match v
    case Null => 0
    case Bool(_) => 1
    case Int(_) => 2
    case Double(_) => 2
    case Timestamp(_) => 3
    case Str(_) => 4
    case Geo(_, _) => 5
    case Array(_) => 6
    case Record(_) => 7
  }

  /** Texts in code-point order, a prefix before its extensions. The UTF-8
      byte order Firestore compares strings by agrees with it. */
  predicate TextAtMost(a: string, b: string) {
    |a| == 0 || (|b| > 0 && (a[0] < b[0] || (a[0] == b[0] && TextAtMost(a[1..], b[1..]))))
  }

  /** Any two texts are comparable. */
  lemma {:induction false} TextOrderTotal(a: string, b: string)
    ensures TextAtMost(a, b) || TextAtMost(b, a)
  {
    if |a| > 0 && |b| > 0 && a[0] == b[0] {
      TextOrderTotal(a[1..], b[1..]);
    }
  }

  /** The text order is transitive. */
  lemma {:induction false} TextOrderTransitive(a: string, b: string, c: string)
    requires TextAtMost(a, b) && TextAtMost(b, c)
    ensures TextAtMost(a, c)
  {
    if |a| > 0 && |b| > 0 && |c| > 0 && a[0] == b[0] && b[0] == c[0] {
      TextOrderTransitive(a[1..], b[1..], c[1..]);
    }
  }

  /** The number an integer or a float field holds. */
  function NumberOf(v: Value): real {
    match v
    case Int(i) => i as real
    case Double(d) => d
    case _ => 0.0
  }

  /** `a` sorts no later than `b` in Firestore's ascending order: by type
      first; then false before true, integers and floats together by
      value, timestamps by instant, strings by `TextAtMost`, geopoints by
      latitude and then longitude. Arrays, and maps, are taken as equal
      among themselves. */
  predicate ValueAtMost(a: Value, b: Value) {
    if TypeRank(a) != TypeRank(b) then TypeRank(a) < TypeRank(b)
    else match a
      case Bool(x) => !x || b.boolValue
      case Int(_) => NumberOf(a) <= NumberOf(b)
      case Double(_) => NumberOf(a) <= NumberOf(b)
      case Timestamp(t) => t <= b.instant
      case Str(s) => TextAtMost(s, b.stringValue)
      case Geo(latitude, longitude) => latitude < b.latitude || (latitude == b.latitude && longitude <= b.longitude)
      case _ => true
  }

  /** Any two values are comparable: `order_by` places every document. */
  lemma ValueOrderTotal(a: Value, b: Value)
    ensures ValueAtMost(a, b) || ValueAtMost(b, a)
  {
    if a.Str? && b.Str? {
      TextOrderTotal(a.stringValue, b.stringValue);
    }
  }

  /** The value order is transitive. */
  lemma ValueOrderTransitive(a: Value, b: Value, c: Value)
    requires ValueAtMost(a, b) && ValueAtMost(b, c)
    ensures ValueAtMost(a, c)
  {
    if a.Str? && b.Str? && c.Str? {
      TextOrderTransitive(a.stringValue, b.stringValue, c.stringValue);
    }
  }

  /** Timestamps compare by instant, and every timestamp sorts after every
      null, boolean and number and before every string. */
  lemma TimestampOrder(t: Time, v: Value)
    ensures v.Timestamp? ==> (ValueAtMost(Timestamp(t), v) <==> t <= v.instant)
    ensures v.Null? || v.Bool? || v.Int? || v.Double? ==> ValueAtMost(v, Timestamp(t)) && !ValueAtMost(Timestamp(t), v)
    ensures v.Str? ==> ValueAtMost(Timestamp(t), v) && !ValueAtMost(v, Timestamp(t))
  {
  }

  /** `int(x)` for a float: truncation toward zero. */
  function TruncateToInt(x: real): (r: int)
    ensures x >= 0.0 ==> r as real <= x < r as real + 1.0
    ensures x < 0.0 ==> r as real - 1.0 < x <= r as real
  {
    if x >= 0.0 then x.Floor else -((-x).Floor)
  }

  /** An ASCII decimal digit. */
  predicate IsDigit(c: char) {
    '0' <= c <= '9'
  }

  function DigitValue(c: char): (r: nat)
    ensures IsDigit(c) ==> r < 10 && r == c as int - '0' as int
  {
    if IsDigit(c) then c as int - '0' as int else 0
  }

  /** Decimal digits with single underscores between them (`1_000`): an
      underscore never comes first, last, or next to another one. */
  predicate IsDigitRun(s: string) {
    && |s| > 0 && IsDigit(s[0]) && IsDigit(s[|s| - 1])
    && (forall i :: 0 <= i < |s| ==> IsDigit(s[i]) || s[i] == '_')
    && (forall i, j :: 0 <= i < |s| && i < j < |s| && j == i + 1 && s[i] == '_' ==> s[j] != '_')
  }

  /** The number a run of digits denotes, underscores skipped. */
  function DigitsValue(s: string): nat
  {
    if |s| == 0 then 0
    else if s[|s| - 1] == '_' then DigitsValue(s[..|s| - 1])
    else DigitsValue(s[..|s| - 1]) * 10 + DigitValue(s[|s| - 1])
  }

  /** An optional sign followed by a digit run, as `int(...)` reads it
      once the whitespace around it is gone. */
  function ParseSigned(t: string): (r: Option<int>)
    ensures r.Some? ==> |t| > 0 && IsDigit(t[|t| - 1])
    ensures r.Some? && r.value < 0 ==> t[0] == '-'
  {
    var signed := |t| > 0 && (t[0] == '-' || t[0] == '+');
    var body := if signed then t[1..] else t;
    if !IsDigitRun(body) then None
    else
      assert body[|body| - 1] == t[|t| - 1];
      var magnitude: int := DigitsValue(body);
      if signed && t[0] == '-' then Some(-magnitude) else Some(magnitude)
  }

  /** `int(text)` with the default base 10: whitespace of `IntSpaces`
      around the literal is ignored, then come an optional sign and a run
      of digits; any other text raises (`None`). Leading zeros are
      allowed in base 10. */
  function PyIntText(text: string): (r: Option<int>)
    ensures r.Some? ==> |Strip(text, IntSpaces)| > 0 && IsDigit(Strip(text, IntSpaces)[|Strip(text, IntSpaces)| - 1])
    ensures r.Some? && r.value < 0 ==> Strip(text, IntSpaces)[0] == '-'
  {
    ParseSigned(Strip(text, IntSpaces))
  }

  /** A digit is not whitespace. */
  lemma DigitIsNotSpace(c: char)
    requires IsDigit(c) || c == '+' || c == '-'
    ensures c !in IntSpaces
  {
  }

  /** A text with no whitespace at either end is read as it stands. */
  lemma PyIntTextOfTrimmed(t: string)
    requires |t| > 0 && t[0] !in IntSpaces && t[|t| - 1] !in IntSpaces
    ensures PyIntText(t) == ParseSigned(t)
  {
    StripKeepsTrimmed(t, IntSpaces);
  }

  /** A digit run is read as its value, and an optional sign before it as
      that sign. */
  lemma SignedRunParses(digits: string)
    requires IsDigitRun(digits)
    ensures ParseSigned(digits) == Some(DigitsValue(digits))
    ensures ParseSigned("+" + digits) == Some(DigitsValue(digits))
    ensures ParseSigned("-" + digits) == Some(-(DigitsValue(digits) as int))
  {
    assert ("+" + digits)[1..] == digits;
    assert ("-" + digits)[1..] == digits;
  }

  /** `int(...)` reads a digit run as its value, with either sign in
      front. */
  lemma PyIntTextOfSignedRun(digits: string)
    requires IsDigitRun(digits)
    ensures PyIntText(digits) == Some(DigitsValue(digits))
    ensures PyIntText("+" + digits) == Some(DigitsValue(digits))
    ensures PyIntText("-" + digits) == Some(-(DigitsValue(digits) as int))
  {
    var last := digits[|digits| - 1];
    DigitIsNotSpace(digits[0]);
    DigitIsNotSpace(last);
    DigitIsNotSpace('+');
    DigitIsNotSpace('-');
    var plus := "+" + digits;
    var minus := "-" + digits;
    assert plus[0] == '+' && plus[|plus| - 1] == last;
    assert minus[0] == '-' && minus[|minus| - 1] == last;
    PyIntTextOfTrimmed(digits);
    PyIntTextOfTrimmed(plus);
    PyIntTextOfTrimmed(minus);
    SignedRunParses(digits);
  }

  /** Whitespace that `int(...)` skips, before or after the text, does not
      change what it makes of it. */
  lemma PyIntTextIgnoresSpace(c: char, text: string)
    requires c in IntSpaces
    ensures PyIntText([c] + text) == PyIntText(text)
    ensures PyIntText(text + [c]) == PyIntText(text)
  {
    StripIgnoresLeadingSpace(c, text, IntSpaces);
    StripIgnoresTrailingSpace(c, text, IntSpaces);
  }

  /** Once stripped, a character that is neither a digit, a sign nor an
      underscore, or two underscores in a row, make the text unreadable. */
  lemma ParseSignedRefuses(t: string, i: nat)
    requires i < |t|
    requires || !(IsDigit(t[i]) || t[i] == '_' || t[i] == '+' || t[i] == '-')
             || (i + 1 < |t| && t[i] == '_' && t[i + 1] == '_')
    ensures ParseSigned(t) == None
  {
    var signed := |t| > 0 && (t[0] == '-' || t[0] == '+');
    var body := if signed then t[1..] else t;
    var j := if signed then i - 1 else i;
    assert body[j] == t[i];
    if i + 1 < |t| && t[i] == '_' && t[i + 1] == '_' {
      assert body[j + 1] == t[i + 1];
    }
  }

  /** `int(...)` raises on a character that is neither a digit, a sign, an
      underscore nor whitespace it skips, and on two underscores in a
      row. */
  lemma PyIntTextRefuses(text: string, k: nat)
    requires k < |text|
    requires || !(IsDigit(text[k]) || text[k] == '_' || text[k] == '+' || text[k] == '-' || text[k] in IntSpaces)
             || (k + 1 < |text| && text[k] == '_' && text[k + 1] == '_')
    ensures PyIntText(text) == None
  {
    StripStartShape(text, IntSpaces);
    StripIsSlice(text, IntSpaces);
    StripLeavesSpaceAfter(text, IntSpaces);
    var t := Strip(text, IntSpaces);
    var start := |text| - |StripStart(text, IntSpaces)|;
    assert t[k - start] == text[k];
    if k + 1 < |text| && text[k] == '_' && text[k + 1] == '_' {
      assert t[k + 1 - start] == text[k + 1];
    }
    ParseSignedRefuses(t, k - start);
  }

  /** An information separator (U+001C..U+001F) before a literal makes
      `int(...)` raise, although `str.strip()` would remove it. */
  lemma SeparatorBeforeLiteralRefused(sep: char, digits: string)
    requires sep in Separators && IsDigitRun(digits)
    ensures Strip([sep] + digits, Spaces) == Strip(digits, Spaces)
    ensures PyIntText([sep] + digits) == None
  {
    StripIgnoresLeadingSpace(sep, digits, Spaces);
    PyIntTextRefuses([sep] + digits, 0);
  }

  /** The digits of a natural number, as `str(n)` writes them. */
  function NatText(n: nat): (r: string)
  {
    if n < 10 then [('0' as int + n) as char]
    else NatText(n / 10) + [('0' as int + n % 10) as char]
  }

  /** `str(n)` for an integer. */
  function DecimalText(n: int): (r: string)
  {
    if n < 0 then "-" + NatText(-n) else NatText(n)
  }

  /** The digits of `n` form a run without underscores whose value is `n`. */
  lemma {:induction false} NatTextDigits(n: nat)
    ensures |NatText(n)| > 0
    ensures forall i :: 0 <= i < |NatText(n)| ==> IsDigit(NatText(n)[i])
    ensures DigitsValue(NatText(n)) == n
  {
    if n < 10 {
      assert NatText(n)[..0] == "";
    } else {
      NatTextDigits(n / 10);
      var s := NatText(n);
      assert s[..|s| - 1] == NatText(n / 10);
    }
  }

  /** `str(n)` is a digit run, possibly after a minus sign, with no
      whitespace around it. */
  lemma DecimalTextShape(n: int)
    ensures var digits := NatText(if n < 0 then -n else n);
      && IsDigitRun(digits) && DigitsValue(digits) == (if n < 0 then -n else n)
      && (n < 0 ==> DecimalText(n) == "-" + digits)
      && (n >= 0 ==> DecimalText(n) == digits)
  {
    NatTextDigits(if n < 0 then -n else n);
  }

  /** `int(str(n)) == n`: the text Python writes for an integer parses back
      to it. */
  lemma PyIntTextRoundTrip(n: int)
    ensures PyIntText(DecimalText(n)) == Some(n)
  {
    DecimalTextShape(n);
    PyIntTextOfSignedRun(NatText(if n < 0 then -n else n));
  }

  /** Python's `int(value)` on a stored value: integers and booleans
      convert, floats truncate toward zero, texts parse as base-10 integer
      literals; any other value raises (`None`). */
  function PyInt(v: Value): (r: Option<int>)
    ensures v.Int? ==> r == Some(v.intValue)
    ensures v.Bool? ==> r == Some(if v.boolValue then 1 else 0)
    ensures v.Double? ==> r == Some(TruncateToInt(v.doubleValue))
    ensures v.Str? ==> r == PyIntText(v.stringValue)
    ensures !(v.Int? || v.Bool? || v.Double? || v.Str?) ==> r.None?
  {
    match v
    case Int(i) => Some(i)
    case Bool(b) => Some(if b then 1 else 0)
    case Double(d) => Some(TruncateToInt(d))
    case Str(s) => PyIntText(s)
    case _ => None
  }

  /** `int(dt.timestamp())`: whole seconds, truncated toward zero. */
  function Seconds(t: Time): (r: int)
    ensures t >= 0 ==> r == t / MicrosPerSecond
    ensures t < 0 ==> r == -((-t) / MicrosPerSecond)
  {
    if t >= 0 then t / MicrosPerSecond else -((-t) / MicrosPerSecond)
  }

  /** Whole seconds added to a non-negative instant add to its seconds. */
  lemma SecondsAfter(t: Time, seconds: nat)
    requires t >= 0
    ensures Seconds(t + seconds * MicrosPerSecond) == Seconds(t) + seconds
  {
    assert (t + seconds * MicrosPerSecond) / MicrosPerSecond == t / MicrosPerSecond + seconds;
  }
}
