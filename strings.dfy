/** The few Python string operations the ORM relies on: `sep.join(parts)`,
    counting one character, and `s.replace(c, rep)` for a one-character pattern. */
module Strings {

  /** `sep.join(parts)`: the parts with `sep` between each neighbouring pair. */
  function Join(sep: string, parts: seq<string>): string
    decreases |parts|
  {
    if |parts| == 0 then ""
    else if |parts| == 1 then parts[0]
    else Join(sep, parts[..|parts| - 1]) + sep + parts[|parts| - 1]
  }

  /** Appending one more part adds the separator and the part at the end. */
  lemma JoinSnoc(sep: string, parts: seq<string>, last: string)
    requires |parts| > 0
    ensures Join(sep, parts + [last]) == Join(sep, parts) + sep + last
  {
    assert (parts + [last])[..|parts|] == parts;
  }

  lemma Assoc(a: string, b: string, c: string)
    ensures a + b + c == a + (b + c)
  {
  }

  /** Appending two more parts adds each with its separator. */
  lemma JoinSnoc2(sep: string, parts: seq<string>, a: string, b: string)
    requires |parts| > 0
    ensures Join(sep, parts + [a, b]) == Join(sep, parts) + (sep + a + sep + b)
  {
    var j := Join(sep, parts);
    assert parts + [a, b] == (parts + [a]) + [b];
    JoinSnoc(sep, parts, a);
    JoinSnoc(sep, parts + [a], b);
    Assoc(j, sep, a);
    Assoc(j, sep + a, sep);
    Assoc(j, sep + a + sep, b);
  }

  /** Number of occurrences of `c` in `s` (Python's `s.count(c)`). */
  function Count(c: char, s: string): nat
    decreases |s|
  {
    if |s| == 0 then 0 else (if s[0] == c then 1 else 0) + Count(c, s[1..])
  }

  lemma {:induction false} CountConcat(c: char, a: string, b: string)
    ensures Count(c, a + b) == Count(c, a) + Count(c, b)
    decreases |a|
  {
    if |a| == 0 {
      assert a + b == b;
    } else {
      assert (a + b)[1..] == a[1..] + b;
      CountConcat(c, a[1..], b);
    }
  }

  lemma {:induction false} CountAbsent(c: char, s: string)
    requires c !in s
    ensures Count(c, s) == 0
    decreases |s|
  {
    if |s| > 0 {
      assert s[0] in s;
      assert forall x :: x in s[1..] ==> x in s;
      CountAbsent(c, s[1..]);
    }
  }

  /** Counting over `a + b` when `b` holds no `c`. */
  lemma CountAppendFree(c: char, a: string, b: string)
    requires c !in b
    ensures Count(c, a + b) == Count(c, a)
  {
    CountConcat(c, a, b);
    CountAbsent(c, b);
  }

  /** Text free of `c` on both sides of `x` adds no `c`. */
  lemma CountBetween(c: char, l: string, x: string, r: string)
    requires c !in l && c !in r
    ensures Count(c, l + x + r) == Count(c, x)
  {
    CountAbsent(c, l);
    CountConcat(c, l, x);
    CountAppendFree(c, l + x, r);
  }

  /** Total number of occurrences of `c` over all `parts`. */
  function CountAll(c: char, parts: seq<string>): nat
    decreases |parts|
  {
    if |parts| == 0 then 0 else CountAll(c, parts[..|parts| - 1]) + Count(c, parts[|parts| - 1])
  }

  /** Joining with a separator that does not contain `c` neither adds nor loses any `c`. */
  lemma {:induction false} CountJoin(c: char, sep: string, parts: seq<string>)
    requires Count(c, sep) == 0
    ensures Count(c, Join(sep, parts)) == CountAll(c, parts)
    decreases |parts|
  {
    if |parts| == 1 {
      assert CountAll(c, parts[..0]) == 0;
    } else if |parts| > 1 {
      var init := parts[..|parts| - 1];
      CountJoin(c, sep, init);
      CountConcat(c, Join(sep, init), sep);
      CountConcat(c, Join(sep, init) + sep, parts[|parts| - 1]);
    }
  }

  /** When every part holds `c` exactly once, the parts hold it `|parts|` times. */
  lemma {:induction false} CountAllOnce(c: char, parts: seq<string>)
    requires forall i :: 0 <= i < |parts| ==> Count(c, parts[i]) == 1
    ensures CountAll(c, parts) == |parts|
    decreases |parts|
  {
    if |parts| > 0 {
      CountAllOnce(c, parts[..|parts| - 1]);
    }
  }

  /** When no part holds `c`, the parts hold none. */
  lemma {:induction false} CountAllNone(c: char, parts: seq<string>)
    requires forall i :: 0 <= i < |parts| ==> Count(c, parts[i]) == 0
    ensures CountAll(c, parts) == 0
    decreases |parts|
  {
    if |parts| > 0 {
      CountAllNone(c, parts[..|parts| - 1]);
    }
  }

  /** `n` question-mark placeholders separated by ", " (what `create_args_string(n)` returns). */
  function Placeholders(n: nat): string
  {
    Join(", ", seq(n, _ => "?"))
  }

  /** `Placeholders(n)` holds exactly `n` placeholders, and is empty exactly when `n` is 0. */
  lemma PlaceholdersCount(n: nat)
    ensures Count('?', Placeholders(n)) == n
    ensures Placeholders(n) == "" <==> n == 0
  {
    var parts := seq(n, _ => "?");
    assert Count('?', ", ") == 0;
    CountJoin('?', ", ", parts);
    forall i | 0 <= i < |parts|
      ensures Count('?', parts[i]) == 1
    {
      assert parts[i] == "?";
    }
    CountAllOnce('?', parts);
  }

  /** `s.replace(c, rep)` for a one-character pattern `c`. */
  function Replace(s: string, c: char, rep: string): string
    decreases |s|
  {
    if |s| == 0 then "" else (if s[0] == c then rep else [s[0]]) + Replace(s[1..], c, rep)
  }

  /** Replacing distributes over concatenation. */
  lemma {:induction false} ReplaceConcat(a: string, b: string, c: char, rep: string)
    ensures Replace(a + b, c, rep) == Replace(a, c, rep) + Replace(b, c, rep)
    decreases |a|
  {
    if |a| == 0 {
      assert a + b == b;
    } else {
      assert (a + b)[1..] == a[1..] + b;
      ReplaceConcat(a[1..], b, c, rep);
    }
  }

  /** Text without `c` is left as it is. */
  lemma {:induction false} ReplaceAbsent(s: string, c: char, rep: string)
    requires c !in s
    ensures Replace(s, c, rep) == s
    decreases |s|
  {
    if |s| > 0 {
      assert s[0] in s;
      assert forall x :: x in s[1..] ==> x in s;
      ReplaceAbsent(s[1..], c, rep);
      assert s == [s[0]] + s[1..];
    }
  }

  /** Replacing every `c` by a two-character `rep` that holds one `d` and no `c`:
      no `c` is left, each `c` became one more `d`, and the string grew by one per `c`. */
  lemma {:induction false} ReplaceCounts(s: string, c: char, rep: string, d: char)
    requires c != d && |rep| == 2 && Count(c, rep) == 0 && Count(d, rep) == 1
    ensures Count(c, Replace(s, c, rep)) == 0
    ensures Count(d, Replace(s, c, rep)) == Count(d, s) + Count(c, s)
    ensures |Replace(s, c, rep)| == |s| + Count(c, s)
    decreases |s|
  {
    if |s| > 0 {
      ReplaceCounts(s[1..], c, rep, d);
      var head := if s[0] == c then rep else [s[0]];
      CountConcat(c, head, Replace(s[1..], c, rep));
      CountConcat(d, head, Replace(s[1..], c, rep));
    }
  }
}
