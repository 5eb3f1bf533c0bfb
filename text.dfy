/** String and sequence helpers shared by the domain-health model: the JavaScript
    string operations the engine uses (`startsWith`, `includes`, an ASCII
    `toLowerCase`, a first-occurrence `replace`, `Array.prototype.filter`) and the
    one-group regular expressions of the form `tag([C]+)` that it runs over DNS
    record text. */
module Text {

  datatype Option<+T> = None | Some(value: T) {
    function GetOr(default: T): T {
      if Some? then value else default
    }
  }

  /** An exact fraction `num / den`, for the engine's ratio-valued confidences. */
  datatype Ratio = Ratio(num: nat, den: nat)

  /** `s.startsWith(p)` */
  predicate StartsWith(s: string, p: string) {
    |p| <= |s| && s[..|p|] == p
  }

  /** `s.endsWith(p)` */
  predicate EndsWith(s: string, p: string) {
    |p| <= |s| && s[|s| - |p|..] == p
  }

  /** An occurrence of `p` begins at position `i` of `s`. */
  predicate OccursAt(s: string, p: string, i: int) {
    0 <= i && i + |p| <= |s| && s[i..i + |p|] == p
  }

  /** `s.includes(p)` */
  predicate Contains(s: string, p: string) {
    exists i | 0 <= i <= |s| - |p| :: OccursAt(s, p, i)
  }

  /** Position of the first occurrence of `p` in `s` at or after `from`. */
  function IndexFrom(s: string, p: string, from: nat): (r: Option<nat>)
    decreases |s| - from
    ensures r.Some? ==> from <= r.value && OccursAt(s, p, r.value)
    ensures r.Some? ==> forall j :: from <= j < r.value ==> !OccursAt(s, p, j)
    ensures r.None? ==> forall j :: from <= j ==> !OccursAt(s, p, j)
  {
    if from + |p| > |s| then None
    else if s[from..from + |p|] == p then Some(from)
    else IndexFrom(s, p, from + 1)
  }

  /** `s.indexOf(p)`, with None for -1. */
  function IndexOf(s: string, p: string): (r: Option<nat>)
    ensures r.Some? <==> Contains(s, p)
    ensures r.Some? ==> OccursAt(s, p, r.value) && forall j :: 0 <= j < r.value ==> !OccursAt(s, p, j)
  {
    IndexFrom(s, p, 0)
  }

  /** `s.replace(p, w)` with a string pattern: only the first occurrence is replaced. */
  function ReplaceFirst(s: string, p: string, w: string): (r: string)
    ensures !Contains(s, p) ==> r == s
    ensures Contains(s, p) ==>
      exists i :: OccursAt(s, p, i) && (forall j :: 0 <= j < i ==> !OccursAt(s, p, j)) &&
                  r == s[..i] + w + s[i + |p|..]
  {
    match IndexOf(s, p)
    case None => s
    case Some(i) => s[..i] + w + s[i + |p|..]
  }

  /** ASCII upper-case letters become lower case; every other character is kept. */
  function LowerChar(c: char): char {
    if 'A' <= c <= 'Z' then (c as int + 32) as char else c
  }

  /** `s.toLowerCase()` over the ASCII letters. */
  function ToLower(s: string): (r: string)
    ensures |r| == |s|
    ensures forall i :: 0 <= i < |s| ==> r[i] == LowerChar(s[i])
  {
    seq(|s|, i requires 0 <= i < |s| => LowerChar(s[i]))
  }

  /** A case-insensitive test of a literal, lower-case pattern (`/pattern/i.test(s)`). */
  predicate MatchesIgnoringCase(s: string, pattern: string) {
    Contains(ToLower(s), pattern)
  }

  /** `s.filter(keep)`: the elements that pass, in their original order. */
  function Filter<T>(s: seq<T>, keep: T -> bool): (r: seq<T>)
    ensures |r| <= |s|
  {
    if s == [] then []
    else
      assert s == [s[0]] + s[1..];
      (if keep(s[0]) then [s[0]] else []) + Filter(s[1..], keep)
  }

  /** The filtered sequence holds exactly the elements of `s` that pass `keep`. */
  lemma {:induction false} FilterMembers<T>(s: seq<T>, keep: T -> bool)
    ensures forall x :: x in Filter(s, keep) <==> x in s && keep(x)
  {
    if s != [] {
      FilterMembers(s[1..], keep);
      assert s == [s[0]] + s[1..];
    }
  }

  /** The first element kept is the first element of `s` that passes, as `find` returns it. */
  lemma {:induction false} FilterHead<T>(s: seq<T>, keep: T -> bool)
    requires |Filter(s, keep)| > 0
    ensures exists k :: 0 <= k < |s| && keep(s[k]) && Filter(s, keep)[0] == s[k] &&
                        forall j :: 0 <= j < k ==> !keep(s[j])
  {
    if keep(s[0]) {
      assert Filter(s, keep)[0] == s[0];
    } else {
      var tail := s[1..];
      assert Filter(s, keep) == Filter(tail, keep);
      FilterHead(tail, keep);
      var k :| 0 <= k < |tail| && keep(tail[k]) && Filter(tail, keep)[0] == tail[k] &&
               forall j :: 0 <= j < k ==> !keep(tail[j]);
      assert s[k + 1] == tail[k];
      forall j | 0 <= j < k + 1 ensures !keep(s[j]) {
        if j > 0 { assert s[j] == tail[j - 1]; }
      }
    }
  }

  /** The elements that pass and the elements that fail partition the input. */
  lemma {:induction false} FilterPartition<T>(s: seq<T>, keep: T -> bool, drop: T -> bool)
    requires forall x :: drop(x) == !keep(x)
    ensures |Filter(s, keep)| + |Filter(s, drop)| == |s|
    ensures multiset(Filter(s, keep)) + multiset(Filter(s, drop)) == multiset(s)
  {
    if s != [] {
      var tail := s[1..];
      var kt, dt := Filter(tail, keep), Filter(tail, drop);
      FilterPartition(tail, keep, drop);
      assert multiset(s) == multiset{s[0]} + multiset(tail) by {
        assert s == [s[0]] + tail;
      }
      if keep(s[0]) {
        assert Filter(s, keep) == [s[0]] + kt;
        assert multiset([s[0]] + kt) == multiset{s[0]} + multiset(kt);
        assert Filter(s, drop) == [] + dt;
      } else {
        assert Filter(s, keep) == [] + kt;
        assert Filter(s, drop) == [s[0]] + dt;
        assert multiset([s[0]] + dt) == multiset{s[0]} + multiset(dt);
      }
    }
  }

  /** Filtering a sequence extended at the end extends the filtered sequence the same way. */
  lemma {:induction false} FilterSnoc<T>(s: seq<T>, x: T, keep: T -> bool)
    ensures Filter(s + [x], keep) == Filter(s, keep) + (if keep(x) then [x] else [])
  {
    var last: seq<T> := if keep(x) then [x] else [];
    if s == [] {
      assert s + [x] == [x];
      assert [x][1..] == [];
      assert Filter([x], keep) == last + Filter([], keep);
    } else {
      var t := s + [x];
      assert t[0] == s[0];
      assert t[1..] == s[1..] + [x];
      FilterSnoc(s[1..], x, keep);
      var head: seq<T> := if keep(s[0]) then [s[0]] else [];
      assert Filter(t, keep) == head + Filter(s[1..] + [x], keep);
      assert Filter(s, keep) == head + Filter(s[1..], keep);
      assert head + (Filter(s[1..], keep) + last) == (head + Filter(s[1..], keep)) + last;
    }
  }

  // Character classes of the regular expressions the engine uses.

  predicate NotSemicolon(c: char) { c != ';' }

  predicate IsDigit(c: char) { '0' <= c <= '9' }

  /** `[A-Za-z0-9+/=]` */
  predicate IsBase64Char(c: char) {
    'A' <= c <= 'Z' || 'a' <= c <= 'z' || IsDigit(c) || c == '+' || c == '/' || c == '='
  }

  /** The longest prefix of `s` whose characters are all in `cls`. */
  function TakeWhile(s: string, cls: char -> bool): (r: string)
    ensures |r| <= |s| && r == s[..|r|]
    ensures forall c :: c in r ==> cls(c)
    ensures |r| < |s| ==> !cls(s[|r|])
  {
    if s == [] || !cls(s[0]) then []
    else [s[0]] + TakeWhile(s[1..], cls)
  }

  /** The regular expression `tag([C]+)` (for the class `cls`) has a match starting at `i`. */
  predicate CaptureStartsAt(s: string, tag: string, cls: char -> bool, i: int) {
    OccursAt(s, tag, i) && i + |tag| < |s| && cls(s[i + |tag|])
  }

  /** Start of the leftmost match of `tag([C]+)` at or after `from`. */
  function CaptureIndex(s: string, tag: string, cls: char -> bool, from: nat): (r: Option<nat>)
    decreases |s| - from
    ensures r.Some? ==> from <= r.value && CaptureStartsAt(s, tag, cls, r.value)
    ensures r.Some? ==> forall j :: from <= j < r.value ==> !CaptureStartsAt(s, tag, cls, j)
    ensures r.None? ==> forall j :: from <= j ==> !CaptureStartsAt(s, tag, cls, j)
  {
    if from + |tag| >= |s| then None
    else if CaptureStartsAt(s, tag, cls, from) then Some(from)
    else CaptureIndex(s, tag, cls, from + 1)
  }

  /** The first group of `s.match(/tag([C]+)/)`: the greedy run of class characters
      after the leftmost occurrence of `tag` that is followed by at least one of them. */
  function Capture(s: string, tag: string, cls: char -> bool): (r: Option<string>)
    ensures r.Some? <==> exists i :: CaptureStartsAt(s, tag, cls, i)
    ensures r.Some? ==> |r.value| > 0 && forall c :: c in r.value ==> cls(c)
  {
    match CaptureIndex(s, tag, cls, 0)
    case None => None
    case Some(i) => Some(TakeWhile(s[i + |tag|..], cls))
  }

  /** A match at `i` with none before it is the one `Capture` reads. */
  lemma CaptureAt(s: string, tag: string, cls: char -> bool, i: nat)
    requires CaptureStartsAt(s, tag, cls, i)
    requires forall j :: 0 <= j < i ==> !CaptureStartsAt(s, tag, cls, j)
    ensures Capture(s, tag, cls) == Some(TakeWhile(s[i + |tag|..], cls))
  {
    var r := CaptureIndex(s, tag, cls, 0);
    assert r.Some?;
    assert r.value == i;
  }

  /** The tag written right after `pre`, followed by a class character, starts a
      match there, and the tail follows it. */
  lemma TagAfter(pre: string, tag: string, tail: string, cls: char -> bool)
    requires |tail| > 0 && cls(tail[0])
    ensures CaptureStartsAt(pre + (tag + tail), tag, cls, |pre|)
    ensures (pre + (tag + tail))[|pre| + |tag|..] == tail
  {
    var s := pre + (tag + tail);
    assert s[|pre|..] == tag + tail;
    assert s[|pre|..|pre| + |tag|] == (tag + tail)[..|tag|] == tag;
    assert s[|pre| + |tag|..] == tail;
    assert s[|pre| + |tag|] == tail[0];
  }

  /** A tag whose first character is not in `pre` does not start inside `pre`. */
  lemma NoTagBefore(pre: string, tag: string, tail: string, cls: char -> bool)
    requires |tag| > 0 && tag[0] !in pre
    ensures forall j :: 0 <= j < |pre| ==> !CaptureStartsAt(pre + (tag + tail), tag, cls, j)
  {
    var s := pre + (tag + tail);
    forall j | 0 <= j < |pre| ensures !OccursAt(s, tag, j) {
      assert s[j] == pre[j] && pre[j] in pre;
    }
  }

  /** A tag whose first character does not occur in `pre`, written right after
      `pre` and followed by a class character, is where the capture is read. */
  lemma CaptureAfter(pre: string, tag: string, tail: string, cls: char -> bool)
    requires |tag| > 0 && tag[0] !in pre
    requires |tail| > 0 && cls(tail[0])
    ensures Capture(pre + (tag + tail), tag, cls) == Some(TakeWhile(tail, cls))
  {
    CaptureAfterTag(pre, tag, tail, cls);
    TagAfter(pre, tag, tail, cls);
  }

  lemma CaptureAfterTag(pre: string, tag: string, tail: string, cls: char -> bool)
    requires |tag| > 0 && tag[0] !in pre
    requires |tail| > 0 && cls(tail[0])
    ensures var s := pre + (tag + tail);
            Capture(s, tag, cls) == Some(TakeWhile(s[|pre| + |tag|..], cls))
  {
    TagAfter(pre, tag, tail, cls);
    NoTagBefore(pre, tag, tail, cls);
    CaptureAt(pre + (tag + tail), tag, cls, |pre|);
  }

  /** The run stops where the class does: a run of class characters followed by
      a character outside the class (or nothing) is taken whole. */
  lemma {:induction false} TakeWhileStops(run: string, rest: string, cls: char -> bool)
    requires forall c :: c in run ==> cls(c)
    requires rest == [] || !cls(rest[0])
    ensures TakeWhile(run + rest, cls) == run
  {
    if run != [] {
      assert run[0] in run;
      assert forall c :: c in run[1..] ==> c in run;
      TakeWhileStops(run[1..], rest, cls);
      assert (run + rest)[1..] == run[1..] + rest;
    }
  }

  /** `parseInt` of a run of decimal digits. */
  function DecimalValue(ds: string): nat
    requires forall c :: c in ds ==> IsDigit(c)
    decreases |ds|
  {
    if ds == [] then 0
    else
      var d := ds[|ds| - 1];
      assert d in ds;
      assert IsDigit(d);
      10 * DecimalValue(ds[..|ds| - 1]) + DigitValue(d)
  }

  /** The value of a decimal digit character. */
  function DigitValue(c: char): (v: int)
    ensures IsDigit(c) ==> 0 <= v <= 9
  {
    c as int - '0' as int
  }

  function Pow10(n: nat): nat {
    if n == 0 then 1 else 10 * Pow10(n - 1)
  }

  /** The positional reading of a digit run: digit `i` weighs `10^(|ds| - 1 - i)`. */
  function Positional(ds: string): int
    decreases |ds|
  {
    if ds == [] then 0 else DigitValue(ds[0]) * Pow10(|ds| - 1) + Positional(ds[1..])
  }

  /** Appending a digit shifts the positional value one place to the left. */
  lemma {:induction false} PositionalSnoc(ds: string, d: char)
    ensures Positional(ds + [d]) == 10 * Positional(ds) + DigitValue(d)
    decreases |ds|
  {
    var s := ds + [d];
    if ds == [] {
      assert s[1..] == [];
    } else {
      var rest := ds[1..];
      assert s[0] == ds[0] && s[1..] == rest + [d];
      PositionalSnoc(rest, d);
      var a, p := DigitValue(ds[0]), Pow10(|rest|);
      calc {
        Positional(s);
        a * Pow10(|rest| + 1) + Positional(rest + [d]);
        a * (10 * p) + (10 * Positional(rest) + DigitValue(d));
        { assert a * (10 * p) == 10 * (a * p); }
        10 * (a * p + Positional(rest)) + DigitValue(d);
        10 * Positional(ds) + DigitValue(d);
      }
    }
  }

  /** `DecimalValue` reads a digit run in base 10, and a run of `n` digits stays
      below `10^n`. */
  lemma {:induction false} DecimalValueIsPositional(ds: string)
    requires forall c :: c in ds ==> IsDigit(c)
    ensures DecimalValue(ds) == Positional(ds)
    ensures DecimalValue(ds) < Pow10(|ds|)
    decreases |ds|
  {
    if ds != [] {
      var init, d := ds[..|ds| - 1], ds[|ds| - 1];
      assert ds == init + [d];
      assert d in ds;
      assert forall c :: c in init ==> c in ds;
      DecimalValueIsPositional(init);
      PositionalSnoc(init, d);
    }
  }
}
