/**
 * JavaScript values as the storefront and its backend see them: request
 * bodies, gateway replies and the documents of the store. `undefined` (an
 * absent property) is `Option.None`; everything that can be stored or sent
 * is a `Value`.
 */
module Json {
  import opened Wrappers
  import opened JsNum

  datatype Value =
    | Null
    | Bool(b: bool)
    | Number(n: Num)
    | Str(s: string)
    | List(elems: seq<Value>)
    | Object(fields: map<string, Value>)
    | Timestamp(millis: int)   // a resolved store timestamp

  /** A stored document: field name to value. */
  type Doc = map<string, Value>

  /** JavaScript truthiness; `undefined` is falsy. */
  predicate Truthy(v: Option<Value>) {
    match v
    case None => false
    case Some(Null) => false
    case Some(Bool(b)) => b
    case Some(Number(n)) => NumTruthy(n)
    case Some(Str(s)) => s != ""
    case Some(_) => true
  }

  /** `typeof v === "object" && v`: a non-null object, array or timestamp. */
  predicate IsObject(v: Value) {
    v.Object? || v.List? || v.Timestamp?
  }

  /** `a || b`: the first operand when it is truthy, otherwise the second. */
  function Or(a: Option<Value>, b: Option<Value>): (r: Option<Value>)
    ensures Truthy(a) ==> r == a
    ensures !Truthy(a) ==> r == b
  {
    if Truthy(a) then a else b
  }

  /** Property access `v?.key`: `undefined` unless `v` is an object holding `key`. */
  function Get(v: Option<Value>, key: string): (r: Option<Value>)
    ensures r.Some? <==> v.Some? && v.value.Object? && key in v.value.fields
    ensures r.Some? ==> r.value == v.value.fields[key]
  {
    if v.Some? && v.value.Object? && key in v.value.fields then Some(v.value.fields[key]) else None
  }

  /** Field `key` of a document, `undefined` when absent. */
  function Field(d: Doc, key: string): (r: Option<Value>)
    ensures r.Some? <==> key in d
    ensures r.Some? ==> r.value == d[key]
  {
    if key in d then Some(d[key]) else None
  }

  /**
   * `Number(v)`. Numbers are themselves, `undefined` is NaN, `null` and
   * `false` are 0. A string or array counts only when it is blank or empty
   * (giving 0); every other string, array, object or timestamp gives NaN.
   */
  function ToNumber(v: Option<Value>): (r: Num)
    ensures v.Some? && v.value.Number? ==> r == v.value.n
    ensures v.None? ==> r.NaN?
  {
    match v
    case None => NaN
    case Some(Null) => Zero
    case Some(Bool(b)) => if b then One else Zero
    case Some(Number(n)) => n
    case Some(Str(s)) => if NonBlank(s) then NaN else Zero
    case Some(List(e)) => if e == [] then Zero else NaN
    case Some(_) => NaN
  }

  /** The price coercion of the cart and the menu, `Number.isFinite(price) ? price : Number(price) || 0`: never NaN, and a finite number is kept. */
  function SafePrice(price: Option<Value>): (r: Num)
    ensures !r.NaN?
    ensures price.Some? && price.value.Number? && price.value.n.Fin? ==> r == price.value.n
    ensures !(price.Some? && price.value.Number? && price.value.n.Fin?) && !NumTruthy(ToNumber(price)) ==> r == Zero
  {
    if price.Some? && price.value.Number? && IsFinite(price.value.n) then price.value.n
    else NumOr(ToNumber(price), Zero)
  }

  /** A JSON object whose `undefined` members are dropped, as `res.json` serialises it. */
  function ObjectOf(fields: map<string, Option<Value>>): (r: Value)
    ensures r.Object?
    ensures forall k :: k in r.fields <==> k in fields && fields[k].Some?
    ensures forall k :: k in r.fields ==> r.fields[k] == fields[k].value
  {
    Object(map k | k in fields && fields[k].Some? :: fields[k].value)
  }

  // ---------------------------------------------------------------------
  // Strings: `trim`, `slice`, `String(n)`
  // ---------------------------------------------------------------------

  /** The characters `String.prototype.trim` removes: white space and line terminators. */
  predicate IsSpace(c: char) {
    || c == '\t' || c == '\n' || c == '\U{B}' || c == '\U{C}' || c == '\r' || c == ' '
    || c == '\U{A0}' || c == '\U{1680}' || ('\U{2000}' <= c <= '\U{200A}')
    || c == '\U{2028}' || c == '\U{2029}' || c == '\U{202F}' || c == '\U{205F}'
    || c == '\U{3000}' || c == '\U{FEFF}'
  }

  predicate AllSpace(s: string) {
    forall i :: 0 <= i < |s| ==> IsSpace(s[i])
  }

  /** Drops leading white space. */
  function TrimStart(s: string): (r: string)
    ensures |r| <= |s| && r == s[|s| - |r|..]
    ensures AllSpace(s[..|s| - |r|])
    ensures r != "" ==> !IsSpace(r[0])
  {
    if s != "" && IsSpace(s[0]) then
      var r := TrimStart(s[1..]);
      assert s[..|s| - |r|] == [s[0]] + s[1..][..|s| - 1 - |r|];
      r
    else s
  }

  /** Drops trailing white space. */
  function TrimEnd(s: string): (r: string)
    ensures |r| <= |s| && r == s[..|r|]
    ensures AllSpace(s[|r|..])
    ensures r != "" ==> !IsSpace(r[|r| - 1])
  {
    if s != "" && IsSpace(s[|s| - 1]) then
      var r := TrimEnd(s[..|s| - 1]);
      assert s[|r|..] == s[..|s| - 1][|r|..] + [s[|s| - 1]];
      r
    else s
  }

  /** `s.trim()`. */
  function Trim(s: string): (r: string)
    ensures |r| <= |s|
    ensures r != "" ==> !IsSpace(r[0]) && !IsSpace(r[|r| - 1])
  {
    TrimEnd(TrimStart(s))
  }

  /** `s.trim()` is truthy: some character is not white space (the two agree by `TrimmedIffNonBlank`). */
  predicate NonBlank(s: string) {
    exists i :: 0 <= i < |s| && !IsSpace(s[i])
  }

  /** Trimming keeps a contiguous piece of the string and removes only white space around it. */
  lemma TrimKeepsMiddle(s: string)
    ensures exists a :: 0 <= a <= a + |Trim(s)| <= |s| && Trim(s) == s[a..a + |Trim(s)|]
              && AllSpace(s[..a]) && AllSpace(s[a + |Trim(s)|..])
  {
    var t := TrimStart(s);
    var r := TrimEnd(t);
    var a := |s| - |t|;
    assert t == s[a..];
    assert r == s[a..a + |r|];
    assert s[a + |r|..] == t[|r|..];
  }

  /** `s.trim()` is non-empty exactly when the string has a character that is not white space. */
  lemma TrimmedIffNonBlank(s: string)
    ensures Trim(s) != "" <==> NonBlank(s)
  {
    if Trim(s) != "" {
      TrimmedHasNonSpace(s);
    } else {
      TrimmedEmptyIsAllSpace(s);
    }
  }

  /** What survives trimming starts with a character that is not white space. */
  lemma TrimmedHasNonSpace(s: string)
    requires Trim(s) != ""
    ensures NonBlank(s)
  {
    var t := TrimStart(s);
    assert t != "";
    var k := |s| - |t|;
    assert t[0] == s[k] && !IsSpace(s[k]);
  }

  /** A string that trims to nothing is white space throughout. */
  lemma TrimmedEmptyIsAllSpace(s: string)
    requires Trim(s) == ""
    ensures !NonBlank(s)
  {
    var t := TrimStart(s);
    var k := |s| - |t|;
    assert AllSpace(s[..k]) && t == s[k..];
    assert AllSpace(t) by {
      assert t[0..] == t;
    }
    forall i | 0 <= i < |s|
      ensures IsSpace(s[i])
    {
      if i < k {
        assert s[..k][i] == s[i];
      } else {
        assert t[i - k] == s[i];
      }
    }
  }

  /** `s.slice(0, n)`. */
  function Take<T>(s: seq<T>, n: nat): (r: seq<T>)
    ensures |r| == if |s| < n then |s| else n
    ensures r == s[..|r|]
  {
    if |s| <= n then s else s[..n]
  }

  /** A decimal digit. */
  function Digit(d: nat): char
    requires d < 10
  {
    "0123456789"[d]
  }

  /** `String(n)` for a non-negative integer. */
  function Decimal(n: nat): (r: string)
    ensures r != ""
    ensures forall i :: 0 <= i < |r| ==> '0' <= r[i] <= '9'
    ensures n > 0 ==> r[0] != '0'
    decreases n
  {
    if n < 10 then [Digit(n)] else Decimal(n / 10) + [Digit(n % 10)]
  }

  /** Reads a string of decimal digits back as a number. */
  function ParseDecimal(s: string): nat
    requires forall i :: 0 <= i < |s| ==> '0' <= s[i] <= '9'
  {
    if s == "" then 0 else 10 * ParseDecimal(s[..|s| - 1]) + (s[|s| - 1] as int - '0' as int)
  }

  /** `String(n)` loses nothing: it reads back as `n`. */
  lemma {:induction false} DecimalRoundTrip(n: nat)
    ensures ParseDecimal(Decimal(n)) == n
    decreases n
  {
    var r := Decimal(n);
    if n >= 10 {
      DecimalRoundTrip(n / 10);
      assert r[..|r| - 1] == Decimal(n / 10);
    }
  }

  /** Distinct numbers have distinct decimal forms. */
  lemma DecimalInjective(m: nat, n: nat)
    requires m != n
    ensures Decimal(m) != Decimal(n)
  {
    DecimalRoundTrip(m);
    DecimalRoundTrip(n);
  }

  // ---------------------------------------------------------------------
  // String lists: `Array.isArray(x) ? x.filter(s => typeof s === "string" && s.trim()).slice(0, n) : []`
  // ---------------------------------------------------------------------

  /** Strings as JavaScript values. */
  function StringsOf(ss: seq<string>): (r: seq<Value>)
    ensures |r| == |ss|
    ensures forall i :: 0 <= i < |ss| ==> r[i] == Str(ss[i])
  {
    seq(|ss|, i requires 0 <= i < |ss| => Str(ss[i]))
  }

  /** The filter's test: `typeof s === "string" && s.trim()`. */
  predicate KeptString(v: Value) {
    v.Str? && NonBlank(v.s)
  }

  /** `elems.filter(s => typeof s === "string" && s.trim())`, unchanged strings in their original order. */
  function NonBlankStrings(elems: seq<Value>): (r: seq<string>)
    ensures |r| <= |elems|
    ensures forall i :: 0 <= i < |r| ==> NonBlank(r[i])
  {
    if elems == [] then []
    else
      var rest := NonBlankStrings(elems[1..]);
      if KeptString(elems[0]) then [elems[0].s] + rest else rest
  }

  /** Filtering a concatenation filters each part: the filter keeps order and drops nothing it should keep. */
  lemma {:induction false} NonBlankStringsAppend(a: seq<Value>, b: seq<Value>)
    ensures NonBlankStrings(a + b) == NonBlankStrings(a) + NonBlankStrings(b)
  {
    if a != [] {
      var ab := a + b;
      assert ab[0] == a[0] && ab[1..] == a[1..] + b;
      NonBlankStringsAppend(a[1..], b);
      var head := if KeptString(a[0]) then [a[0].s] else [];
      assert NonBlankStrings(ab) == head + NonBlankStrings(a[1..] + b);
      assert NonBlankStrings(a) == head + NonBlankStrings(a[1..]);
    } else {
      assert a + b == b;
    }
  }

  /** The filter keeps exactly the non-blank strings. */
  lemma {:induction false} NonBlankStringsMembers(elems: seq<Value>, x: string)
    ensures x in NonBlankStrings(elems) <==> Str(x) in elems && NonBlank(x)
  {
    if elems != [] {
      NonBlankStringsMembers(elems[1..], x);
      assert elems == [elems[0]] + elems[1..];
    }
  }

  /** Filtering an already filtered list changes nothing. */
  lemma {:induction false} NonBlankStringsOfStrings(ss: seq<string>)
    requires forall i :: 0 <= i < |ss| ==> NonBlank(ss[i])
    ensures NonBlankStrings(StringsOf(ss)) == ss
  {
    if ss != [] {
      NonBlankStringsOfStrings(ss[1..]);
      StringsOfTail(ss);
      KeptHead(StringsOf(ss));
      assert ss == [ss[0]] + ss[1..];
    }
  }

  /** The values of a non-empty string list: the first string, then the values of the rest. */
  lemma StringsOfTail(ss: seq<string>)
    requires ss != []
    ensures StringsOf(ss)[0] == Str(ss[0]) && StringsOf(ss)[1..] == StringsOf(ss[1..])
  {
  }

  /** A kept first element stays first. */
  lemma KeptHead(elems: seq<Value>)
    requires elems != [] && KeptString(elems[0])
    ensures NonBlankStrings(elems) == [elems[0].s] + NonBlankStrings(elems[1..])
  {
  }

  /**
   * The sanitised string list of the cart and the menu: the first `cap`
   * non-blank strings of an array, in order; a non-array gives the empty list.
   */
  function SafeStrings(v: Option<Value>, cap: nat): (r: seq<string>)
    ensures |r| <= cap
    ensures forall i :: 0 <= i < |r| ==> NonBlank(r[i])
    ensures !(v.Some? && v.value.List?) ==> r == []
    ensures v.Some? && v.value.List? ==>
              var all := NonBlankStrings(v.value.elems);
              |r| == (if |all| < cap then |all| else cap) && r == all[..|r|]
  {
    if v.Some? && v.value.List? then Take(NonBlankStrings(v.value.elems), cap) else []
  }

  /** Sanitising an already sanitised list gives it back. */
  lemma SafeStringsIdempotent(ss: seq<string>, cap: nat)
    requires |ss| <= cap
    requires forall i :: 0 <= i < |ss| ==> NonBlank(ss[i])
    ensures SafeStrings(Some(List(StringsOf(ss))), cap) == ss
  {
    NonBlankStringsOfStrings(ss);
  }
}
