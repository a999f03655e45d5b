/** Ruby's dynamic values as the library sees them: decoded JSON records, hash
    lookups that answer nil for a missing key, the exceptions a lookup on the
    wrong kind of object raises, and string interpolation. */
module RubyValues {

  datatype Option<+T> = None | Some(value: T)

  /** The exceptions the modelled code can raise. */
  datatype RubyError =
    | TypeError                               // e.g. a String method given nil, or Integer#[] given a String
    | NoMethodError                           // `[]` sent to nil, true or false
    | AuthenticationException(message: Value) // raised by Session#login with the server's message

  /** The outcome of a Ruby call: a value, or an exception propagated to the caller. */
  datatype Result<+T> = Ok(value: T) | Raised(error: RubyError)

  /** A Ruby object as produced by the JSON decoder or passed by a caller. */
  datatype Value =
    | Null
    | Bool(b: bool)
    | Int(i: int)
    | Str(s: string)
    | Obj(fields: map<string, Value>)   // a Hash with String keys

  /** `Time.at(seconds)`, kept opaque: only the argument it was built from. */
  datatype Time = TimeAt(epoch: Value)

  /** Ruby truthiness: everything except nil and false. */
  function Truthy(v: Value): (b: bool)
    ensures !b <==> v == Null || v == Bool(false)
  {
    !v.Null? && v != Bool(false)
  }

  /** `hash[key]`: the stored value, or nil when the key is absent. */
  function Lookup(m: map<string, Value>, key: string): (r: Value)
    ensures key in m ==> r == m[key]
    ensures key !in m ==> r.Null?
  {
    if key in m then m[key] else Null
  }

  /** `s.start_with?(p)` */
  predicate StartsWith(s: string, p: string) {
    |p| <= |s| && s[..|p|] == p
  }

  /** `s.include?(sub)`: `sub` occurs in `s` at some position. */
  predicate Occurs(sub: string, s: string)
    decreases |s|
  {
    StartsWith(s, sub) || (|s| > 0 && Occurs(sub, s[1..]))
  }

  /** `sub` occurs in `s` starting at index `i`. */
  predicate MatchAt(s: string, sub: string, i: nat) {
    i + |sub| <= |s| && s[i..i + |sub|] == sub
  }

  /** Occurs agrees with the positional reading of "is a substring of". */
  lemma {:induction false} OccursAt(sub: string, s: string) returns (i: nat)
    requires Occurs(sub, s)
    ensures MatchAt(s, sub, i)
    decreases |s|
  {
    if StartsWith(s, sub) {
      i := 0;
    } else {
      var j := OccursAt(sub, s[1..]);
      assert s[j + 1..j + 1 + |sub|] == s[1..][j..j + |sub|];
      i := j + 1;
    }
  }

  lemma {:induction false} OccursFromPosition(sub: string, s: string, i: nat)
    requires MatchAt(s, sub, i)
    ensures Occurs(sub, s)
    decreases i
  {
    if i > 0 {
      assert s[1..][i - 1..i - 1 + |sub|] == s[i..i + |sub|];
      OccursFromPosition(sub, s[1..], i - 1);
    }
  }

  /** Objects that answer `[]` with a String argument without raising. */
  predicate Indexable(v: Value) {
    v.Obj? || v.Str?
  }

  /** `v[key]` on a Hash (lookup) or a String (the key itself if it is a
      substring, otherwise nil). */
  function At(v: Value, key: string): (r: Value)
    requires Indexable(v)
    ensures v.Obj? ==> r == Lookup(v.fields, key)
    ensures v.Str? ==> (r.Str? <==> Occurs(key, v.s)) && (r.Str? ==> r.s == key) && (!r.Str? ==> r.Null?)
  {
    match v
    case Obj(m) => Lookup(m, key)
    case Str(s) => if Occurs(key, s) then Str(key) else Null
  }

  /** The exception `v[key]` raises when `v` is not indexable by a String. */
  function IndexError(v: Value): (e: RubyError)
    requires !Indexable(v)
    ensures v.Int? <==> e == TypeError
    ensures e == TypeError || e == NoMethodError
  {
    if v.Int? then TypeError else NoMethodError
  }

  /** `v[key]` for any receiver. */
  function Index(v: Value, key: string): (r: Result<Value>)
    ensures r.Raised? <==> !Indexable(v)
    ensures r.Raised? ==> r.error == IndexError(v)
    ensures r.Ok? ==> r.value == At(v, key)
  {
    if Indexable(v) then Ok(At(v, key)) else Raised(IndexError(v))
  }

  function DigitChar(d: nat): (c: char)
    requires d < 10
    ensures '0' <= c <= '9'
    ensures c as int - '0' as int == d
  {
    "0123456789"[d]
  }

  /** The number a run of decimal digits denotes, read most significant
      digit first. */
  function DigitsValue(s: string): nat
    requires forall k :: 0 <= k < |s| ==> '0' <= s[k] <= '9'
  {
    if s == [] then 0 else DigitsValue(s[..|s| - 1]) * 10 + (s[|s| - 1] as int - '0' as int)
  }

  /** `n.to_s` for a non-negative Integer: its decimal digits. */
  function NatDigits(n: nat): (r: string)
    ensures |r| >= 1
    ensures forall k :: 0 <= k < |r| ==> '0' <= r[k] <= '9'
    ensures DigitsValue(r) == n
    ensures (r[0] == '0') <==> n == 0
    ensures n == 0 ==> r == "0"
    decreases n
  {
    if n < 10 then [DigitChar(n)]
    else
      var r := NatDigits(n / 10) + [DigitChar(n % 10)];
      assert r[..|r| - 1] == NatDigits(n / 10);
      r
  }

  /** `"#{v}"`: the text string interpolation inserts for `v`. */
  function ToS(v: Value): (r: string)
    ensures v.Null? ==> r == ""
    ensures v.Str? ==> r == v.s
    ensures v.Bool? ==> r == (if v.b then "true" else "false")
    // an Integer: its decimal digits with no leading zero, after a '-' when negative
    ensures v.Int? && v.i >= 0 ==>
      |r| >= 1 && (forall k :: 0 <= k < |r| ==> '0' <= r[k] <= '9') && DigitsValue(r) == v.i &&
      (r[0] == '0' ==> r == "0")
    ensures v.Int? && v.i < 0 ==>
      |r| >= 2 && r[0] == '-' && r[1] != '0' &&
      (forall k :: 1 <= k < |r| ==> '0' <= r[k] <= '9') && DigitsValue(r[1..]) == -v.i
  {
    match v
    case Null => ""
    case Bool(b) => if b then "true" else "false"
    case Int(i) => if i < 0 then "-" + NatDigits(-i) else NatDigits(i)
    case Str(s) => s
    case Obj(_) => "{...}"
  }
}
