/**
 * The pieces of the JavaScript runtime that the application relies on:
 * optional values, thrown values, browser files and blobs, and the string
 * and array built-ins (`includes`, `endsWith`, `toLowerCase`, number
 * formatting, `filter`) the services call.
 */
module JsRuntime {

  datatype Option<+T> = None | Some(value: T)

  /** The outcome of an operation that either returns a value or throws. */
  datatype Result<+T, +E> = Ok(value: T) | Err(error: E)

  /**
   * A value thrown by JavaScript code: an `Error` object, which always has a
   * string `message`, or another object whose `message` property is a
   * string or missing. Thrown `null` or `undefined`, and a `message` that is
   * not a string, are not represented.
   */
  datatype Thrown = Error(text: string) | NonError(messageProperty: Option<string>)
  {
    /** The value of `e.message` (None stands for `undefined`). */
    function Message(): Option<string>
    {
      if Error? then Some(text) else messageProperty
    }
  }

  /** A browser `File`: its name, its declared MIME type and its bytes. */
  datatype File = File(name: string, mimeType: string, bytes: seq<bv8>)

  /** An opaque binary `Blob`. */
  datatype Blob = Blob(bytes: seq<bv8>)

  // ---------------------------------------------------------------------
  // String built-ins

  /** `sub` occurs in `s` starting at index `i`. */
  predicate OccursAt(s: string, sub: string, i: int)
  {
    0 <= i && i + |sub| <= |s| && s[i..i + |sub|] == sub
  }

  /** `s.includes(sub)`. */
  function Includes(s: string, sub: string): bool
    decreases |s|
  {
    if |s| < |sub| then false
    else if s[..|sub|] == sub then true
    else Includes(s[1..], sub)
  }

  /** `Includes` holds exactly when `sub` occurs somewhere in `s`. */
  lemma {:induction false} IncludesIff(s: string, sub: string)
    ensures Includes(s, sub) <==> exists i :: OccursAt(s, sub, i)
    decreases |s|
  {
    if |s| < |sub| {
    } else if s[..|sub|] == sub {
      assert OccursAt(s, sub, 0);
    } else {
      IncludesIff(s[1..], sub);
      if Includes(s[1..], sub) {
        var i :| OccursAt(s[1..], sub, i);
        assert s[i + 1..i + 1 + |sub|] == s[1..][i..i + |sub|];
        assert OccursAt(s, sub, i + 1);
      }
      if i :| OccursAt(s, sub, i) {
        assert i != 0;
        assert s[1..][i - 1..i - 1 + |sub|] == s[i..i + |sub|];
        assert OccursAt(s[1..], sub, i - 1);
      }
    }
  }

  /** A string in which the first character of `sub` never occurs does not include `sub`. */
  lemma NoOccurrenceWithoutFirstChar(s: string, sub: string)
    requires |sub| > 0 && forall i :: 0 <= i < |s| ==> s[i] != sub[0]
    ensures !Includes(s, sub)
  {
    IncludesIff(s, sub);
  }

  /** Whatever `s` includes, every string that has `s` inside it includes too. */
  lemma IncludesInContext(pre: string, s: string, post: string, sub: string)
    requires Includes(s, sub)
    ensures Includes(pre + s + post, sub)
  {
    IncludesIff(s, sub);
    var i :| OccursAt(s, sub, i);
    var t := pre + s + post;
    assert t[|pre| + i..|pre| + i + |sub|] == s[i..i + |sub|];
    assert OccursAt(t, sub, |pre| + i);
    IncludesIff(t, sub);
  }

  /** A string includes itself wherever it is embedded. */
  lemma IncludesEmbedded(pre: string, s: string, post: string)
    ensures Includes(pre + s + post, s)
  {
    var t := pre + s + post;
    assert t[|pre|..|pre| + |s|] == s;
    assert OccursAt(t, s, |pre|);
    IncludesIff(t, s);
  }

  /** `s.endsWith(suffix)`. */
  predicate EndsWith(s: string, suffix: string)
  {
    |suffix| <= |s| && s[|s| - |suffix|..] == suffix
  }

  /** `s.startsWith(prefix)`. */
  predicate StartsWith(s: string, prefix: string)
  {
    |prefix| <= |s| && s[..|prefix|] == prefix
  }

  /** `toLowerCase` on one character (the ASCII letters only). */
  function LowerChar(c: char): char
  {
    if 'A' <= c <= 'Z' then (c as int + ('a' as int - 'A' as int)) as char else c
  }

  /** `s.toLowerCase()`: position by position, upper-case ASCII letters become lower-case. */
  function Lower(s: string): (r: string)
    ensures |r| == |s|
    ensures forall i :: 0 <= i < |s| ==> r[i] == LowerChar(s[i])
  {
    seq(|s|, i requires 0 <= i < |s| => LowerChar(s[i]))
  }

  function DigitChar(d: nat): char
    requires d < 10
  {
    "0123456789"[d]
  }

  /** The decimal digits of `n`, as template literals print a non-negative integer. */
  function NatToString(n: nat): (r: string)
    ensures |r| > 0
    ensures forall i :: 0 <= i < |r| ==> '0' <= r[i] <= '9'
  {
    if n < 10 then [DigitChar(n)] else NatToString(n / 10) + [DigitChar(n % 10)]
  }

  /** How template literals print an integer: a minus sign before negative ones. */
  function IntToString(n: int): string
  {
    if n < 0 then "-" + NatToString(-n) else NatToString(n)
  }

  // ---------------------------------------------------------------------
  // Array built-ins

  /**
   * `s.filter(keep)`: the elements that `keep` accepts, each as often as in
   * `s`, and no others.
   */
  function Filter<T(!new)>(s: seq<T>, keep: T -> bool): (r: seq<T>)
    ensures |r| <= |s|
    ensures forall x :: multiset(r)[x] == if keep(x) then multiset(s)[x] else 0
  {
    if s == [] then []
    else
      assert s == [s[0]] + s[1..];
      (if keep(s[0]) then [s[0]] else []) + Filter(s[1..], keep)
  }

  /** Filtering a concatenation filters each part, keeping the parts in order. */
  lemma {:induction false} FilterAppend<T(!new)>(s: seq<T>, t: seq<T>, keep: T -> bool)
    ensures Filter(s + t, keep) == Filter(s, keep) + Filter(t, keep)
  {
    if s == [] {
      assert s + t == t;
    } else {
      assert (s + t)[1..] == s[1..] + t;
      FilterAppend(s[1..], t, keep);
    }
  }

  /** The elements of a filtered list are exactly the kept elements of the list. */
  lemma FilterMembers<T(!new)>(s: seq<T>, keep: T -> bool)
    ensures forall x :: x in Filter(s, keep) <==> x in s && keep(x)
  {
    forall x
      ensures x in Filter(s, keep) <==> x in s && keep(x)
    {
      assert x in Filter(s, keep) <==> multiset(Filter(s, keep))[x] > 0;
      assert x in s <==> multiset(s)[x] > 0;
    }
  }

  /** A list whose every element is kept comes back unchanged. */
  lemma {:induction false} FilterKeepsAll<T(!new)>(s: seq<T>, keep: T -> bool)
    requires forall i :: 0 <= i < |s| ==> keep(s[i])
    ensures Filter(s, keep) == s
  {
    if s != [] {
      FilterKeepsAll(s[1..], keep);
    }
  }

  /** Filtering twice with the same test is filtering once. */
  lemma {:induction false} FilterIdempotent<T(!new)>(s: seq<T>, keep: T -> bool)
    ensures Filter(Filter(s, keep), keep) == Filter(s, keep)
  {
    if s != [] {
      FilterIdempotent(s[1..], keep);
      var head := if keep(s[0]) then [s[0]] else [];
      FilterAppend(head, Filter(s[1..], keep), keep);
    }
  }
}
