/**
 * The few JavaScript string and object-lookup behaviours the billing code relies on:
 * `String.prototype.split` with a one-character separator, `Array.prototype.join`,
 * `toLowerCase` (on ASCII letters), `replace` with a string pattern (first occurrence only)
 * and the inherited keys that make `obj[key]` truthy on a plain object literal.
 */
module Js {

  /** `parts.join(d)`: the parts with one separator between neighbours. */
  function Join(parts: seq<string>, d: char): string
  {
    if |parts| == 0 then ""
    else if |parts| == 1 then parts[0]
    else parts[0] + [d] + Join(parts[1..], d)
  }

  /**
   * `s.split(d)`. Characterised by its contract: at least one part, no part holds
   * the separator, and joining the parts gives back `s` (SplitUnique shows that
   * these three facts determine the result).
   */
  function Split(s: string, d: char): (parts: seq<string>)
    ensures |parts| >= 1
    ensures forall i :: 0 <= i < |parts| ==> d !in parts[i]
    ensures Join(parts, d) == s
    decreases |s|
  {
    if |s| == 0 then [""]
    else
      var rest := Split(s[1..], d);
      if s[0] == d then
        assert s == [d] + s[1..];
        [""] + rest
      else
        assert s == [s[0]] + s[1..];
        [[s[0]] + rest[0]] + rest[1..]
  }

  /** Splitting a string that does not hold the separator gives that string alone. */
  lemma {:induction false} SplitNoSeparator(a: string, d: char)
    requires d !in a
    ensures Split(a, d) == [a]
    decreases |a|
  {
    if |a| > 0 {
      SplitNoSeparator(a[1..], d);
    }
  }

  /** A separator-free prefix followed by the separator splits off as the first part. */
  lemma {:induction false} SplitCons(a: string, d: char, b: string)
    requires d !in a
    ensures Split(a + [d] + b, d) == [a] + Split(b, d)
    decreases |a|
  {
    var s := a + [d] + b;
    if |a| == 0 {
      assert s == [d] + b;
      assert s[1..] == b;
    } else {
      assert s[1..] == a[1..] + [d] + b;
      SplitCons(a[1..], d, b);
      assert [a[0]] + a[1..] == a;
    }
  }

  /** Split inverts Join on parts free of the separator. */
  lemma {:induction false} SplitJoin(parts: seq<string>, d: char)
    requires |parts| >= 1
    requires forall i :: 0 <= i < |parts| ==> d !in parts[i]
    ensures Split(Join(parts, d), d) == parts
    decreases |parts|
  {
    if |parts| == 1 {
      SplitNoSeparator(parts[0], d);
    } else {
      SplitJoin(parts[1..], d);
      SplitCons(parts[0], d, Join(parts[1..], d));
      assert [parts[0]] + parts[1..] == parts;
    }
  }

  /** Joining two non-empty runs of parts puts one separator between them. */
  lemma {:induction false} JoinAppend(a: seq<string>, b: seq<string>, d: char)
    requires |a| >= 1 && |b| >= 1
    ensures Join(a + b, d) == Join(a, d) + [d] + Join(b, d)
    decreases |a|
  {
    if |a| == 1 {
      assert (a + b)[1..] == b;
    } else {
      assert (a + b)[1..] == a[1..] + b;
      JoinAppend(a[1..], b, d);
    }
  }

  /** Join of five parts written out. */
  lemma JoinFive(a: string, b: string, c: string, e: string, f: string, d: char)
    ensures Join([a, b, c, e, f], d) == a + [d] + b + [d] + c + [d] + e + [d] + f
  {
    JoinCons(e, [f], d);
    assert [e, f] == [e] + [f];
    JoinCons(c, [e, f], d);
    assert [c, e, f] == [c] + [e, f];
    JoinCons(b, [c, e, f], d);
    assert [b, c, e, f] == [b] + [c, e, f];
    JoinCons(a, [b, c, e, f], d);
    assert [a, b, c, e, f] == [a] + [b, c, e, f];
  }

  lemma JoinCons(head: string, tail: seq<string>, d: char)
    requires |tail| >= 1
    ensures Join([head] + tail, d) == head + [d] + Join(tail, d)
  {
    assert ([head] + tail)[1..] == tail;
  }

  /** Splitting the join of separator-free parts, a separator and more text gives those parts first. */
  lemma SplitAfterJoin(parts: seq<string>, d: char, b: string)
    requires |parts| >= 1
    requires forall i :: 0 <= i < |parts| ==> d !in parts[i]
    ensures Split(Join(parts, d) + [d] + b, d) == parts + Split(b, d)
  {
    var all := parts + Split(b, d);
    JoinAppend(parts, Split(b, d), d);
    assert forall i :: 0 <= i < |all| ==> d !in all[i] by {
      forall i | 0 <= i < |all| ensures d !in all[i] {
        if i >= |parts| { assert all[i] == Split(b, d)[i - |parts|]; }
      }
    }
    SplitJoin(all, d);
  }

  /** The three facts of Split's contract determine its result. */
  lemma SplitUnique(s: string, d: char, parts: seq<string>)
    requires |parts| >= 1
    requires forall i :: 0 <= i < |parts| ==> d !in parts[i]
    requires Join(parts, d) == s
    ensures Split(s, d) == parts
  {
    SplitJoin(parts, d);
  }

  predicate IsUpper(c: char) { 'A' <= c <= 'Z' }

  function LowerChar(c: char): (r: char)
    ensures !IsUpper(r)
    ensures IsUpper(c) ==> r as int == c as int + 32
    ensures !IsUpper(c) ==> r == c
  {
    if IsUpper(c) then (c as int + 32) as char else c
  }

  /** `s.toLowerCase()`, restricted to the ASCII letters A to Z. */
  function ToLowerCase(s: string): (r: string)
    ensures |r| == |s|
    ensures forall i :: 0 <= i < |s| ==> r[i] == LowerChar(s[i])
  {
    if |s| == 0 then "" else [LowerChar(s[0])] + ToLowerCase(s[1..])
  }

  /** A string with no upper-case ASCII letter. */
  predicate IsLowerCase(s: string)
  {
    forall i :: 0 <= i < |s| ==> !IsUpper(s[i])
  }

  lemma ToLowerCaseIsLower(s: string)
    ensures IsLowerCase(ToLowerCase(s))
  {
  }

  /** Lower-casing leaves a lower-case string as it is. */
  lemma {:induction false} ToLowerCaseOfLower(s: string)
    requires IsLowerCase(s)
    ensures ToLowerCase(s) == s
  {
    if |s| > 0 {
      ToLowerCaseOfLower(s[1..]);
      assert s == [s[0]] + s[1..];
    }
  }

  /** `s.indexOf(c)`: the first position of `c`, or -1. */
  function IndexOf(s: string, c: char): (i: int)
    ensures -1 <= i < |s|
    ensures i == -1 <==> c !in s
    ensures 0 <= i ==> s[i] == c && c !in s[..i]
  {
    if |s| == 0 then -1
    else if s[0] == c then 0
    else
      var j := IndexOf(s[1..], c);
      if j == -1 then -1
      else
        assert s[..j + 1] == [s[0]] + s[1..][..j];
        j + 1
  }

  /** `s.replace(c, "")` with a one-character string pattern: only the first occurrence goes. */
  function RemoveFirst(s: string, c: char): (r: string)
    ensures c !in s ==> r == s
    ensures c in s ==> |r| == |s| - 1
    ensures forall x :: x in r ==> x in s
    ensures c in s ==> exists i :: 0 <= i < |s| && s[i] == c && c !in s[..i] && r == s[..i] + s[i + 1..]
  {
    var i := IndexOf(s, c);
    if i < 0 then s
    else
      assert forall x :: x in s[..i] + s[i + 1..] ==> x in s;
      s[..i] + s[i + 1..]
  }

  /**
   * The keys every object literal inherits from Object.prototype: looking one of them up
   * on a plain object yields a truthy function or object instead of `undefined`.
   */
  const InheritedObjectKeys: set<string> := {
    "constructor", "__proto__", "toString", "toLocaleString", "valueOf", "hasOwnProperty",
    "isPrototypeOf", "propertyIsEnumerable", "__defineGetter__", "__defineSetter__",
    "__lookupGetter__", "__lookupSetter__"
  }
}
