/** The small part of JavaScript's value semantics that the dashboard's handlers rely on:
    property access on records, truthiness, `||` with a fallback, `String(v)`, and the
    string methods `toLowerCase`, `includes` and `startsWith`. */
module Js {

  datatype Option<+T> = None | Some(value: T)

  /** A JavaScript value as the handlers see it. Numbers are integers; `File` stands for an
      opaque browser `File` object, told apart by a handle. */
  datatype Value =
    | Undefined
    | Null
    | Bool(b: bool)
    | Num(n: int)
    | Str(s: string)
    | File(handle: nat)
    | Obj(fields: map<string, Value>)

  /** A plain object such as a form's state or a server record. */
  type Record = map<string, Value>

  /** `r.key`: a missing property reads as `undefined`. */
  function Get(r: Record, key: string): Value {
    if key in r then r[key] else Undefined
  }

  /** `v?.key`: `undefined` unless `v` is an object holding `key`. */
  function Prop(v: Value, key: string): Value {
    if v.Obj? then Get(v.fields, key) else Undefined
  }

  /** The own properties that `{ ...v }` copies; a non-object spreads to nothing. */
  function Fields(v: Value): Record {
    if v.Obj? then v.fields else map[]
  }

  /** `{ ...prev, [key]: v }`: `key` holds `v` and every other property of `prev` is kept. */
  ghost predicate Assigned(r: Record, prev: Record, key: string, v: Value) {
    && r.Keys == prev.Keys + {key}
    && r[key] == v
    && forall k :: k in prev && k != key ==> r[k] == prev[k]
  }

  /** Writing one property into a copy is `{ ...prev, [key]: v }`. */
  lemma AssignedByUpdate(prev: Record, key: string, v: Value)
    ensures Assigned(prev[key := v], prev, key, v)
  {
  }

  /** JavaScript truthiness. */
  predicate Truthy(v: Value) {
    match v
    case Undefined => false
    case Null => false
    case Bool(b) => b
    case Num(n) => n != 0
    case Str(s) => s != ""
    case File(_) => true
    case Obj(_) => true
  }

  /** `v || fallback`. */
  function Or(v: Value, fallback: Value): (r: Value)
    ensures Truthy(v) ==> r == v
    ensures !Truthy(v) ==> r == fallback
  {
    if Truthy(v) then v else fallback
  }

  function DigitChar(d: nat): char
    requires d < 10
  {
    "0123456789"[d]
  }

  function NatToString(n: nat): (r: string)
    ensures |r| >= 1
    decreases n
  {
    if n < 10 then [DigitChar(n)] else NatToString(n / 10) + [DigitChar(n % 10)]
  }

  /** `String(v)`, and so also what a template literal and `localStorage.setItem` store. */
  function ToStr(v: Value): string {
    match v
    case Undefined => "undefined"
    case Null => "null"
    case Bool(b) => if b then "true" else "false"
    case Num(n) => if n < 0 then "-" + NatToString(-n) else NatToString(n)
    case Str(s) => s
    case File(_) => "[object File]"
    case Obj(_) => "[object Object]"
  }

  /** `String(v)` is the empty string only for the empty string itself. */
  lemma ToStrEmpty(v: Value)
    ensures ToStr(v) == "" <==> v == Str("")
  {
  }

  /** The characters that the regular-expression class `\s` matches. */
  predicate IsSpace(c: char) {
    var k := c as int;
    k == 0x09 || k == 0x0A || k == 0x0B || k == 0x0C || k == 0x0D || k == 0x20 ||
    k == 0xA0 || k == 0x1680 || (0x2000 <= k <= 0x200A) ||
    k == 0x2028 || k == 0x2029 || k == 0x202F || k == 0x205F || k == 0x3000 || k == 0xFEFF
  }

  /** `toLowerCase` on one character, for the ASCII letters. */
  function LowerChar(c: char): (r: char)
    ensures 'A' <= c <= 'Z' ==> r as int == c as int + 32
    ensures !('A' <= c <= 'Z') ==> r == c
    ensures !('A' <= r <= 'Z')
  {
    if 'A' <= c <= 'Z' then (c as int + 32) as char else c
  }

  /** `s.toLowerCase()`, for the ASCII letters. */
  function Lower(s: string): (r: string)
    ensures |r| == |s|
    ensures forall i :: 0 <= i < |s| ==> r[i] == LowerChar(s[i])
  {
    seq(|s|, i requires 0 <= i < |s| => LowerChar(s[i]))
  }

  /** Lowering twice is lowering once, so lowering a query first changes nothing. */
  lemma LowerIdempotent(s: string)
    ensures Lower(Lower(s)) == Lower(s)
  {
  }

  /** The position of the first `c` in `s`, if any: `s.indexOf(c)` when it is not -1. */
  function IndexOf(s: string, c: char): (r: Option<nat>)
    ensures r.Some? ==> r.value < |s| && s[r.value] == c && forall k :: 0 <= k < r.value ==> s[k] != c
    ensures r.None? ==> forall k :: 0 <= k < |s| ==> s[k] != c
  {
    if s == [] then None
    else if s[0] == c then Some(0)
    else match IndexOf(s[1..], c)
      case None => None
      case Some(k) => Some(k + 1)
  }

  /** The first `c` of `a + [c] + b` is the one after `a` when `a` has none. */
  lemma {:induction false} IndexOfConcat(a: string, c: char, b: string)
    requires c !in a
    ensures IndexOf(a + [c] + b, c) == Some(|a|)
  {
    var s := a + [c] + b;
    if a == [] {
      assert s[0] == c;
    } else {
      assert a[0] in a;
      assert s[0] == a[0];
      assert s[1..] == a[1..] + [c] + b;
      assert forall x :: x in a[1..] ==> x in a;
      IndexOfConcat(a[1..], c, b);
    }
  }

  /** A string without `c` has no first `c`. */
  lemma {:induction false} IndexOfAbsent(s: string, c: char)
    requires c !in s
    ensures IndexOf(s, c) == None
  {
    if s != [] {
      assert s[0] in s;
      assert forall x :: x in s[1..] ==> x in s;
      IndexOfAbsent(s[1..], c);
    }
  }

  /** `s.startsWith(p)`. */
  predicate StartsWith(s: string, p: string) {
    p <= s
  }

  /** `s.includes(sub)`, scanning start positions left to right. */
  predicate Includes(s: string, sub: string)
    decreases |s|
  {
    sub <= s || (|s| > 0 && Includes(s[1..], sub))
  }

  /** `sub` occurs in `s` starting at position `i`. */
  predicate OccursAt(s: string, sub: string, i: int) {
    0 <= i <= |s| - |sub| && s[i..i + |sub|] == sub
  }

  /** An occurrence after the first position is an occurrence in the tail. */
  lemma OccursShift(s: string, sub: string, i: int)
    requires |s| > 0 && i > 0
    ensures OccursAt(s, sub, i) <==> OccursAt(s[1..], sub, i - 1)
  {
    if 0 <= i <= |s| - |sub| {
      var a, b := s[i..i + |sub|], s[1..][i - 1..i - 1 + |sub|];
      assert |a| == |b|;
      forall k | 0 <= k < |a| ensures a[k] == b[k] {
        assert a[k] == s[i + k];
        assert b[k] == s[1..][i - 1 + k];
      }
      assert a == b;
    }
  }

  /** `includes` holds exactly when `sub` occurs at some position of `s`. */
  lemma {:induction false} IncludesAt(s: string, sub: string)
    ensures Includes(s, sub) <==> exists i :: OccursAt(s, sub, i)
    decreases |s|
  {
    if sub <= s {
      assert OccursAt(s, sub, 0);
    } else if |s| == 0 {
      assert !exists i :: OccursAt(s, sub, i);
    } else {
      IncludesAt(s[1..], sub);
      forall i | i > 0 ensures OccursAt(s, sub, i) <==> OccursAt(s[1..], sub, i - 1) {
        OccursShift(s, sub, i);
      }
      if Includes(s[1..], sub) {
        var i :| OccursAt(s[1..], sub, i);
        assert OccursAt(s, sub, i + 1);
      } else {
        assert !OccursAt(s, sub, 0);
      }
    }
  }

  /** A string is never included in a shorter one. */
  lemma {:induction false} IncludesLonger(s: string, sub: string)
    requires |sub| > |s|
    ensures !Includes(s, sub)
    decreases |s|
  {
    if |s| > 0 {
      IncludesLonger(s[1..], sub);
    }
  }

  /** A string without upper-case ASCII letters is its own lower-case form. */
  lemma LowerOfLower(s: string)
    requires forall i :: 0 <= i < |s| ==> !('A' <= s[i] <= 'Z')
    ensures Lower(s) == s
  {
  }

  /** The empty string is included in every string. */
  lemma IncludesEmpty(s: string)
    ensures Includes(s, "")
  {
  }

  /** A DOM input event: the target's `name`, `type`, `value`, `checked` and selected `files`. */
  datatype InputEvent = InputEvent(name: string, kind: string, value: string, checked: bool, files: seq<nat>)
}

/** The outcome of a request to the server, which the model takes as a parameter. */
module Http {
  import opened Js

  /** Why a request failed: no response at all, or a response whose body may carry a `message`. */
  datatype Failure = NoResponse | Rejected(message: Option<string>)

  datatype Reply<+T> = Ok(data: T) | Fail(failure: Failure)

  /** An error that a handler throws: the request's own error, or one it raised itself. */
  datatype JsError = HttpError(failure: Failure) | LocalError(message: string)

  /** `error.response?.data?.message || fallback`. A raised error has no response. */
  function ErrorText(e: JsError, fallback: string): (m: string)
    ensures e.HttpError? && e.failure.Rejected? && e.failure.message.Some? && e.failure.message.value != ""
            ==> m == e.failure.message.value
    ensures e.LocalError? ==> m == fallback
    ensures m == fallback || (e.HttpError? && e.failure.Rejected? && e.failure.message == Some(m) && m != "")
  {
    match e
    case HttpError(Rejected(Some(msg))) => if msg != "" then msg else fallback
    case _ => fallback
  }

  /** `ErrorText` of a failed request. */
  function FailureText(f: Failure, fallback: string): (m: string)
    ensures m == ErrorText(HttpError(f), fallback)
  {
    ErrorText(HttpError(f), fallback)
  }

  /** A handler's completion: it returned a value or threw. */
  datatype Completion<+T> = Returned(value: T) | Threw(error: JsError)
}

/** The process-wide state that every page shares. */
module Browser {
  import opened Js

  class Env {
    /** `window.localStorage`. */
    var storage: map<string, string>
    /** The default `Authorization` header of the shared client in `lib/axios`. */
    var apiHeader: Option<string>
    /** The default `Authorization` header of the global `axios` object. */
    var axiosHeader: Option<string>

    constructor (stored: map<string, string>)
      ensures storage == stored && apiHeader == None && axiosHeader == None
    {
      storage := stored;
      apiHeader := None;
      axiosHeader := None;
    }
  }

  /** `localStorage.getItem('token')` when it is truthy: a stored empty string counts as no token. */
  function StoredToken(storage: map<string, string>): (t: Option<string>)
    ensures t.Some? <==> "token" in storage && storage["token"] != ""
    ensures t.Some? ==> t.value == storage["token"]
  {
    if "token" in storage && storage["token"] != "" then Some(storage["token"]) else None
  }

  /** The header value that carries a token. */
  function Bearer(token: string): string {
    "Bearer " + token
  }

  /** A client's `Authorization` header agrees with the stored token: a header is only ever `Bearer`
      followed by the stored token, and a truthy stored token always has its header. */
  predicate HeaderInStep(storage: map<string, string>, header: Option<string>) {
    && (header.Some? ==> "token" in storage && header.value == Bearer(storage["token"]))
    && (StoredToken(storage).Some? ==> header.Some?)
  }
}
