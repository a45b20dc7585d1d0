/** The few JavaScript string operations the core relies on: `split` on a
    one-character separator, `startsWith`, `includes`, truthiness of an
    optional string, template-literal rendering of `undefined`, and decimal
    `parseInt`. */
module JsString {
  import opened Wrappers

  /** `s.split(sep)`: the separator-free pieces of `s`, in order. */
  function Split(s: string, sep: char): (r: seq<string>)
    ensures |r| >= 1
    decreases |s|
  {
    if s == [] then [""]
    else
      var rest := Split(s[1..], sep);
      if s[0] == sep then [""] + rest
      else [[s[0]] + rest[0]] + rest[1..]
  }

  /** `parts.join(sep)`, the inverse of `Split`. */
  function Join(parts: seq<string>, sep: char): string
  {
    if |parts| == 0 then ""
    else if |parts| == 1 then parts[0]
    else parts[0] + [sep] + Join(parts[1..], sep)
  }

  /** Joining the pieces back with the separator gives the original text. */
  lemma {:induction false} SplitJoin(s: string, sep: char)
    ensures Join(Split(s, sep), sep) == s
    decreases |s|
  {
    if s != [] {
      var rest := Split(s[1..], sep);
      SplitJoin(s[1..], sep);
      if s[0] == sep {
        assert Split(s, sep) == [""] + rest;
        assert s == [sep] + s[1..];
      } else {
        var r := Split(s, sep);
        assert r == [[s[0]] + rest[0]] + rest[1..];
        if |rest| == 1 {
          assert s == [s[0]] + rest[0];
        } else {
          assert r[1..] == rest[1..];
          assert Join(rest, sep) == rest[0] + [sep] + Join(rest[1..], sep);
          assert s == [s[0]] + s[1..];
        }
      }
    }
  }

  /** The first piece is the longest separator-free prefix; a second piece
      exists exactly when the separator occurs, and the remaining pieces are
      the split of the text after the first separator. */
  lemma {:induction false} SplitHead(s: string, sep: char)
    ensures var r := Split(s, sep);
      && sep !in r[0]
      && r[0] <= s
      && (|r| == 1 <==> sep !in s)
      && (|r| == 1 ==> r[0] == s)
      && (|r| > 1 ==> |r[0]| < |s| && s[|r[0]|] == sep && Split(s[|r[0]| + 1..], sep) == r[1..])
    decreases |s|
  {
    if s != [] && s[0] != sep {
      SplitHead(s[1..], sep);
      var rest := Split(s[1..], sep);
      var r := Split(s, sep);
      assert r[0] == [s[0]] + rest[0];
      assert s == [s[0]] + s[1..];
      if |r| > 1 {
        assert s[|r[0]| + 1..] == s[1..][|rest[0]| + 1..];
      }
    } else if s != [] {
      assert s[1..] == s[|Split(s, sep)[0]| + 1..];
    }
  }

  /** `s.startsWith(prefix)`. */
  predicate StartsWith(s: string, prefix: string) {
    prefix <= s
  }

  /** `s.includes(t)`. */
  predicate Includes(s: string, t: string)
    decreases |s|
  {
    t <= s || (|s| > 0 && Includes(s[1..], t))
  }

  /** `t` occurs in `s` starting at position `i`. */
  predicate OccursAt(s: string, t: string, i: int) {
    0 <= i && i + |t| <= |s| && s[i..i + |t|] == t
  }

  /** `includes` holds exactly when `t` occurs at some position of `s`. */
  lemma {:induction false} IncludesAt(s: string, t: string)
    ensures Includes(s, t) <==> exists i :: OccursAt(s, t, i)
    decreases |s|
  {
    if t <= s {
      assert OccursAt(s, t, 0);
    } else if |s| > 0 {
      IncludesAt(s[1..], t);
      if exists i :: OccursAt(s, t, i) {
        var i :| OccursAt(s, t, i);
        assert i != 0;
        assert OccursAt(s[1..], t, i - 1);
      }
      if Includes(s[1..], t) {
        var i :| OccursAt(s[1..], t, i);
        assert OccursAt(s, t, i + 1);
      }
    }
  }

  /** Every character of an included text occurs in the containing text. */
  lemma IncludesChar(s: string, t: string, c: char)
    requires Includes(s, t) && c in t
    ensures c in s
  {
    IncludesAt(s, t);
    var i :| OccursAt(s, t, i);
    var k :| 0 <= k < |t| && t[k] == c;
    assert s[i + k] == s[i..i + |t|][k] == c;
  }

  /** JavaScript truthiness of a possibly missing string: present and non-empty. */
  predicate Truthy(o: Option<string>) {
    o.Some? && o.value != ""
  }

  /** A possibly `undefined` string as a template literal renders it. */
  function Text(o: Option<string>): string {
    match o
    case Some(v) => v
    case None => "undefined"
  }

  predicate IsDigit(c: char) {
    '0' <= c <= '9'
  }

  predicate IsSpace(c: char) {
    c == ' ' || c == '\t' || c == '\n' || c == '\r' || c == '\U{000B}' || c == '\U{000C}'
  }

  predicate AllDigits(s: string) {
    forall i :: 0 <= i < |s| ==> IsDigit(s[i])
  }

  /** `s` with its leading white space removed. */
  function TrimStart(s: string): string
    decreases |s|
  {
    if s != [] && IsSpace(s[0]) then TrimStart(s[1..]) else s
  }

  /** The value of the leading run of decimal digits of `s`, read into the
      accumulator `acc` most significant digit first. */
  function ReadDigits(s: string, acc: nat): nat
    decreases |s|
  {
    if s != [] && IsDigit(s[0]) then ReadDigits(s[1..], 10 * acc + (s[0] as int - '0' as int)) else acc
  }

  /** The leading run of digits as a number; `None` when `s` does not start
      with a digit. */
  function DigitsValue(s: string): Option<nat> {
    if s != [] && IsDigit(s[0]) then Some(ReadDigits(s, 0)) else None
  }

  /** `parseInt(s)` with the default radix on decimal text: leading white
      space and one sign are skipped, then the longest run of digits is read;
      no digits gives `NaN`, written `None`. */
  function ParseInt(s: string): Option<int> {
    var t := TrimStart(s);
    if t != [] && (t[0] == '-' || t[0] == '+') then
      match DigitsValue(t[1..])
      case Some(v) => Some(if t[0] == '-' then 0 - v else v)
      case None => None
    else
      match DigitsValue(t)
      case Some(v) => Some(v)
      case None => None
  }

  /** Trimming removes a prefix made only of white space and leaves a text
      that does not start with white space. */
  lemma {:induction false} TrimStartSuffix(s: string)
    ensures var t := TrimStart(s);
      && |t| <= |s| && t == s[|s| - |t|..]
      && (forall i :: 0 <= i < |s| - |t| ==> IsSpace(s[i]))
      && (t != [] ==> !IsSpace(t[0]))
    decreases |s|
  {
    if s != [] && IsSpace(s[0]) {
      TrimStartSuffix(s[1..]);
      var t := TrimStart(s);
      forall i | 1 <= i < |s| - |t|
        ensures IsSpace(s[i])
      {
        assert s[i] == s[1..][i - 1];
      }
    }
  }

  /** Reading stops at the first non-digit: whatever follows a run of digits
      does not change the value read. */
  lemma {:induction false} ReadDigitsStops(ds: string, rest: string, acc: nat)
    requires AllDigits(ds)
    requires rest == [] || !IsDigit(rest[0])
    ensures ReadDigits(ds + rest, acc) == ReadDigits(ds, acc)
    decreases |ds|
  {
    if ds != [] {
      assert (ds + rest)[1..] == ds[1..] + rest;
      ReadDigitsStops(ds[1..], rest, 10 * acc + (ds[0] as int - '0' as int));
    } else {
      assert ds + rest == rest;
    }
  }

  /** Trimming a run of white space in front of a text that does not start
      with white space leaves exactly that text. */
  lemma {:induction false} TrimStartSpaces(ws: string, t: string)
    requires forall i :: 0 <= i < |ws| ==> IsSpace(ws[i])
    requires t == [] || !IsSpace(t[0])
    ensures TrimStart(ws + t) == t
    decreases |ws|
  {
    if ws == [] {
      assert ws + t == t;
    } else {
      assert (ws + t)[0] == ws[0];
      assert (ws + t)[1..] == ws[1..] + t;
      TrimStartSpaces(ws[1..], t);
    }
  }

  /** `parseInt` skips leading white space, reads one optional sign and the
      run of digits after it, and ignores everything that follows: a width
      such as `" 1024px"` parses as `1024`. */
  lemma ParseIntIgnoresSuffix(ws: string, sign: string, ds: string, rest: string)
    requires forall i :: 0 <= i < |ws| ==> IsSpace(ws[i])
    requires sign == "" || sign == "-" || sign == "+"
    requires ds != [] && AllDigits(ds)
    requires rest == [] || !IsDigit(rest[0])
    ensures ParseInt(ws + sign + ds + rest) == Some(if sign == "-" then 0 - ReadDigits(ds, 0) else ReadDigits(ds, 0))
  {
    var t := sign + ds + rest;
    assert ws + sign + ds + rest == ws + t;
    if sign == "" {
      assert t == ds + rest;
      assert t[0] == ds[0];
    } else {
      assert t[0] == sign[0];
      assert t[1..] == ds + rest;
      assert (ds + rest)[0] == ds[0];
    }
    TrimStartSpaces(ws, t);
    ReadDigitsStops(ds, rest, 0);
  }

  /** Concrete readings: a plain number, a signed number with surrounding
      text, and texts with no leading number. */
  lemma ParseIntExamples()
    ensures ParseInt("2048") == Some(2048)
    ensures ParseInt(" -12px") == Some(-12)
    ensures ParseInt("") == None
    ensures ParseInt("wide") == None
    ensures ParseInt("-") == None
  {
    assert TrimStart(" -12px") == "-12px" by {
      assert " -12px"[1..] == "-12px";
    }
    assert "-12px"[1..] == "12px";
    assert "12px"[1..] == "2px";
    assert "2px"[1..] == "px";
    assert "2048"[1..] == "048";
    assert "048"[1..] == "48";
    assert "48"[1..] == "8";
    assert "8"[1..] == "";
  }
}
