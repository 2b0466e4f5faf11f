/**
 * Shared vocabulary of the model: optional values and results, what a
 * JavaScript `catch` clause receives, and the few string operations the
 * TypeScript, Rust and Python code relies on (trimming, splitting on a
 * separator, splitting on whitespace, prefix and substring tests).
 */
module Common {

  datatype Option<T> = None | Some(value: T) {
    function GetOr(default: T): T {
      match this
      case Some(v) => v
      case None => default
    }
  }

  datatype Result<T, E> = Ok(value: T) | Err(error: E)

  /** JavaScript truthiness of a value that is a string, null or undefined: "" is falsy. */
  predicate Truthy(s: Option<string>) {
    s.Some? && s.value != ""
  }

  /** `a || b` where `a` may be null, undefined or a string. */
  function OrDefault(a: Option<string>, b: string): (r: string)
    ensures Truthy(a) ==> r == a.value
    ensures !Truthy(a) ==> r == b
  {
    if Truthy(a) then a.value else b
  }

  /** The value a JavaScript `catch (err)` clause receives. */
  datatype Thrown =
    | ErrorObject(message: string)  // an `Error` instance
    | Plain(text: string)           // any other thrown value, e.g. the string a Tauri command rejects with

  /** `err instanceof Error ? err.message : fallback` */
  function MessageOr(err: Thrown, fallback: string): (m: string)
    ensures err.ErrorObject? ==> m == err.message
    ensures err.Plain? ==> m == fallback
  {
    match err
    case ErrorObject(msg) => msg
    case Plain(_) => fallback
  }

  /**
   * `${err}` / `String(err)`: an Error renders as "Error: <message>", or as its
   * bare name "Error" when the message is empty (`Error.prototype.toString`).
   */
  function Render(err: Thrown): (r: string)
    ensures err.ErrorObject? && err.message != "" ==> r == "Error: " + err.message
    ensures err.ErrorObject? && err.message == "" ==> r == "Error"
    ensures err.Plain? ==> r == err.text
  {
    match err
    case ErrorObject(msg) => if msg == "" then "Error" else "Error: " + msg
    case Plain(text) => text
  }

  // ---------------------------------------------------------------------------
  // Prefixes and substrings

  predicate StartsWith(s: string, prefix: string) {
    |prefix| <= |s| && s[..|prefix|] == prefix
  }

  /** `s.contains(sub)` / `sub in s` / `s.includes(sub)` */
  predicate Contains(s: string, sub: string)
    decreases |s|
  {
    StartsWith(s, sub) || (|s| > 0 && Contains(s[1..], sub))
  }

  // ---------------------------------------------------------------------------
  // Whitespace and trimming

  /** Whose notion of whitespace: JavaScript's `trim`, Rust's `char::is_whitespace`, or Python's `str.isspace`. */
  datatype Flavor = Js | Rust | Py

  predicate IsSpace(f: Flavor, c: char) {
    || c == ' ' || c == '\t' || c == '\n' || c == '\U{000B}' || c == '\U{000C}' || c == '\r'
    || c == '\U{00A0}' || c == '\U{1680}' || ('\U{2000}' <= c <= '\U{200A}')
    || c == '\U{2028}' || c == '\U{2029}' || c == '\U{202F}' || c == '\U{205F}' || c == '\U{3000}'
    || (f == Js && c == '\U{FEFF}')
    || (f != Js && c == '\U{0085}')
    || (f == Py && '\U{001C}' <= c <= '\U{001F}')
  }

  function TrimStart(f: Flavor, s: string): (r: string)
    ensures |r| <= |s| && r == s[|s| - |r|..]
    ensures r == [] || !IsSpace(f, r[0])
    ensures forall i :: 0 <= i < |s| - |r| ==> IsSpace(f, s[i])
  {
    if |s| > 0 && IsSpace(f, s[0]) then TrimStart(f, s[1..]) else s
  }

  function TrimEnd(f: Flavor, s: string): (r: string)
    ensures |r| <= |s| && r == s[..|r|]
    ensures r == [] || !IsSpace(f, r[|r| - 1])
    ensures forall i :: |r| <= i < |s| ==> IsSpace(f, s[i])
  {
    if |s| > 0 && IsSpace(f, s[|s| - 1]) then TrimEnd(f, s[..|s| - 1]) else s
  }

  /** `s.trim()` in JavaScript (f = Js) and in Rust (f = Rust). */
  function Trim(f: Flavor, s: string): string {
    TrimEnd(f, TrimStart(f, s))
  }

  predicate IsBlank(f: Flavor, s: string) {
    Trim(f, s) == ""
  }

  /** Trimming removes exactly leading and trailing whitespace: the result is a slice of the input. */
  lemma TrimIsSlice(f: Flavor, s: string)
    ensures exists i, j :: 0 <= i <= j <= |s| && Trim(f, s) == s[i..j]
  {
    var t := TrimStart(f, s);
    var r := TrimEnd(f, t);
    var i := |s| - |t|;
    assert t == s[i..];
    assert r == t[..|r|];
    assert r == s[i..i + |r|];
  }

  /** A string is blank iff every character of it is whitespace. */
  lemma {:induction false} BlankIffAllSpace(f: Flavor, s: string)
    ensures IsBlank(f, s) <==> forall i :: 0 <= i < |s| ==> IsSpace(f, s[i])
  {
    var t := TrimStart(f, s);
    if t != [] {
      assert !IsSpace(f, t[0]);
      assert t[0] == s[|s| - |t|];
      assert TrimEnd(f, t) != [];
    }
  }

  // ---------------------------------------------------------------------------
  // Splitting on a separator

  /** `s.split(sep)` in Python, JavaScript and Rust: always at least one part. */
  function Split(s: string, sep: char): (parts: seq<string>)
    ensures |parts| >= 1
    decreases |s|
  {
    if |s| == 0 then [""]
    else
      var rest := Split(s[1..], sep);
      if s[0] == sep then [""] + rest else [[s[0]] + rest[0]] + rest[1..]
  }

  /** `sep.join(parts)`. */
  function Join(parts: seq<string>, sep: char): string
    decreases |parts|
  {
    if |parts| == 0 then ""
    else if |parts| == 1 then parts[0]
    else parts[0] + [sep] + Join(parts[1..], sep)
  }

  function Count(s: string, c: char): nat {
    if |s| == 0 then 0 else (if s[0] == c then 1 else 0) + Count(s[1..], c)
  }

  /** Joining the parts of a split with the same separator gives back the string. */
  lemma {:induction false} JoinSplit(s: string, sep: char)
    ensures Join(Split(s, sep), sep) == s
    decreases |s|
  {
    if |s| > 0 {
      var rest := Split(s[1..], sep);
      JoinSplit(s[1..], sep);
      if s[0] != sep {
        if |rest| > 1 {
          assert Join(rest, sep) == rest[0] + [sep] + Join(rest[1..], sep);
          assert ([[s[0]] + rest[0]] + rest[1..])[1..] == rest[1..];
        }
      } else {
        assert ([""] + rest)[1..] == rest;
      }
    }
  }

  /** No part contains the separator, and there is one part more than separators. */
  lemma {:induction false} SplitParts(s: string, sep: char)
    ensures forall k :: 0 <= k < |Split(s, sep)| ==> sep !in Split(s, sep)[k]
    ensures |Split(s, sep)| == Count(s, sep) + 1
    decreases |s|
  {
    if |s| > 0 {
      SplitParts(s[1..], sep);
      var rest := Split(s[1..], sep);
      if s[0] != sep {
        var parts := [[s[0]] + rest[0]] + rest[1..];
        forall k | 0 <= k < |parts| ensures sep !in parts[k] {
          if k > 0 { assert parts[k] == rest[k]; }
        }
      } else {
        var parts := [""] + rest;
        forall k | 0 <= k < |parts| ensures sep !in parts[k] {
          if k > 0 { assert parts[k] == rest[k - 1]; }
        }
      }
    }
  }

  /** Splitting the join of separator-free parts gives back the parts. */
  lemma {:induction false} SplitJoin(parts: seq<string>, sep: char)
    requires |parts| >= 1
    requires forall k :: 0 <= k < |parts| ==> sep !in parts[k]
    ensures Split(Join(parts, sep), sep) == parts
    decreases |parts|
  {
    if |parts| == 1 {
      SplitNoSep(parts[0], sep);
    } else {
      SplitJoin(parts[1..], sep);
      SplitCons(parts[0], sep, Join(parts[1..], sep));
      assert [parts[0]] + parts[1..] == parts;
    }
  }

  /** Joining a list with one more element appends a separator and that element. */
  lemma {:induction false} JoinSnoc(parts: seq<string>, last: string, sep: char)
    requires |parts| >= 1
    ensures Join(parts + [last], sep) == Join(parts, sep) + [sep] + last
    decreases |parts|
  {
    if |parts| > 1 {
      JoinSnoc(parts[1..], last, sep);
      assert (parts + [last])[1..] == parts[1..] + [last];
    }
  }

  /** A string without the separator is a single part. */
  lemma {:induction false} SplitNoSep(s: string, sep: char)
    requires sep !in s
    ensures Split(s, sep) == [s]
    decreases |s|
  {
    if |s| > 0 {
      SplitNoSep(s[1..], sep);
      assert [s[0]] + s[1..] == s;
    }
  }

  /** Splitting at a first separator: the part before it, then the split of the rest. */
  lemma {:induction false} SplitCons(a: string, sep: char, rest: string)
    requires sep !in a
    ensures Split(a + [sep] + rest, sep) == [a] + Split(rest, sep)
    decreases |a|
  {
    if |a| == 0 {
      assert a + [sep] + rest == [sep] + rest;
      assert ([sep] + rest)[1..] == rest;
    } else {
      SplitCons(a[1..], sep, rest);
      var s := a + [sep] + rest;
      assert s[1..] == a[1..] + [sep] + rest;
      assert [a[0]] + a[1..] == a;
    }
  }

  // ---------------------------------------------------------------------------
  // Splitting on whitespace (Rust `split_whitespace`)

  /** The longest prefix of `s` without Rust whitespace. */
  function TakeWord(s: string): (w: string)
    ensures |w| <= |s| && w == s[..|w|]
    ensures forall i :: 0 <= i < |w| ==> !IsSpace(Rust, w[i])
    ensures |s| > 0 && !IsSpace(Rust, s[0]) ==> |w| > 0
  {
    if |s| > 0 && !IsSpace(Rust, s[0]) then [s[0]] + TakeWord(s[1..]) else ""
  }

  /** `s.split_whitespace()`: the maximal runs of non-whitespace characters, in order. */
  function Words(s: string): (ws: seq<string>)
    ensures "" !in ws
    decreases |s|
  {
    var t := TrimStart(Rust, s);
    if t == [] then []
    else
      var w := TakeWord(t);
      [w] + Words(t[|w|..])
  }

  // ---------------------------------------------------------------------------
  // Decimal digits

  predicate IsDigit(c: char) {
    '0' <= c <= '9'
  }

  predicate AllDigits(s: string) {
    forall i :: 0 <= i < |s| ==> IsDigit(s[i])
  }

  function DigitValue(c: char): nat
    requires IsDigit(c)
  {
    c as int - '0' as int
  }

  /** The number a run of decimal digits denotes (leading zeros allowed). */
  function DigitsValue(s: string): nat
    requires AllDigits(s)
  {
    if |s| == 0 then 0 else DigitsValue(s[..|s| - 1]) * 10 + DigitValue(s[|s| - 1])
  }

  function DigitChar(d: nat): (c: char)
    requires d < 10
    ensures IsDigit(c) && DigitValue(c) == d
  {
    ('0' as int + d) as char
  }

  /** `n.to_string()` / `${n}` / `str(n)` for a non-negative integer: no leading zeros. */
  function Decimal(n: nat): (s: string)
    ensures |s| >= 1 && AllDigits(s)
    ensures |s| > 1 ==> s[0] != '0'
  {
    if n < 10 then [DigitChar(n)] else Decimal(n / 10) + [DigitChar(n % 10)]
  }

  /** Reading back the decimal text of a number gives the number. */
  lemma {:induction false} DecimalValue(n: nat)
    ensures DigitsValue(Decimal(n)) == n
  {
    if n >= 10 {
      DecimalValue(n / 10);
      var s := Decimal(n);
      assert s[..|s| - 1] == Decimal(n / 10);
    }
  }
}
