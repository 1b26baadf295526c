/** The few JavaScript built-ins the core relies on, stated on `seq<char>`:
    `split(sep)[0]`, `split(sep)[1]`, `replace(pattern, replacement)` with a
    one-character string pattern, and `Array.prototype.map`; `IndexOf` is the
    first-occurrence search behind `split` and `replace`. */
module JsBuiltins {
  import opened Wrappers

  /** Position of the first occurrence of `c` in `s` at or after `from`, if any. */
  function IndexOfFrom(s: string, c: char, from: nat): (r: Option<nat>)
    requires from <= |s|
    ensures r.None? ==> forall k :: from <= k < |s| ==> s[k] != c
    ensures r.Some? ==> from <= r.value < |s| && s[r.value] == c
    ensures r.Some? ==> forall k :: from <= k < r.value ==> s[k] != c
    decreases |s| - from
  {
    if from == |s| then None
    else if s[from] == c then Some(from)
    else IndexOfFrom(s, c, from + 1)
  }

  /** `s.indexOf(c)`: the position of the first occurrence of `c` in `s`, if any. */
  function IndexOf(s: string, c: char): (r: Option<nat>)
    ensures r.None? <==> c !in s
    ensures r.Some? ==> r.value < |s| && s[r.value] == c && c !in s[..r.value]
  {
    IndexOfFrom(s, c, 0)
  }

  /** `s.split(sep)[0]`: the text before the first `sep`, or all of `s` when there is none. */
  function FirstField(s: string, sep: char): (r: string)
    ensures r <= s && sep !in r
    ensures |r| == |s| || s[|r|] == sep
  {
    match IndexOf(s, sep)
    case None => s
    case Some(i) => s[..i]
  }

  /** `s.split(sep)[1]`: the text between the first and the second `sep` (or the end),
      and `undefined` (here `None`) when `s` holds no `sep`. */
  function SecondField(s: string, sep: char): (r: Option<string>)
    ensures r.None? <==> sep !in s
    ensures r.Some? ==>
      var start := |FirstField(s, sep)| + 1;
      && start + |r.value| <= |s|
      && s[start - 1] == sep
      && r.value == s[start..start + |r.value|]
      && sep !in r.value
      && (start + |r.value| == |s| || s[start + |r.value|] == sep)
  {
    match IndexOf(s, sep)
    case None => None
    case Some(i) => Some(FirstField(s[i + 1..], sep))
  }

  /** The three facts FirstField promises pin its result down: no other prefix has them. */
  lemma FirstFieldUnique(s: string, sep: char, p: string)
    requires p <= s && sep !in p
    requires |p| == |s| || s[|p|] == sep
    ensures FirstField(s, sep) == p
  {
  }

  /** Splitting `head + [sep] + tail` at `sep`, when `head` holds no `sep`, gives back `head`
      as the first field and the first field of `tail` as the second. */
  lemma {:induction false} SplitJoined(head: string, sep: char, tail: string)
    requires sep !in head
    ensures FirstField(head + [sep] + tail, sep) == head
    ensures SecondField(head + [sep] + tail, sep) == Some(FirstField(tail, sep))
  {
    var s := head + [sep] + tail;
    FirstFieldUnique(s, sep, head);
    assert s[|head| + 1..] == tail;
  }

  /** `s.replace(from, to)` where the pattern is a one-character string: JavaScript replaces
      only the FIRST occurrence; every other character, later occurrences included, stays. */
  function ReplaceFirst(s: string, from: char, to: char): (r: string)
    ensures |r| == |s|
    ensures from !in s ==> r == s
    ensures forall k :: 0 <= k < |s| ==> r[k] == (if IndexOf(s, from) == Some(k) then to else s[k])
  {
    match IndexOf(s, from)
    case None => s
    case Some(i) => s[..i] + [to] + s[i + 1..]
  }

  /** Replacing the first occurrence keeps every later occurrence: after it, `from` appears
      exactly where it appeared in `s` except at the first position. */
  lemma ReplaceFirstKeepsLaterOccurrences(s: string, from: char, to: char, j: nat)
    requires j < |s| && s[j] == from
    requires exists i :: 0 <= i < j && s[i] == from
    ensures ReplaceFirst(s, from, to)[j] == from
  {
    var i :| 0 <= i < j && s[i] == from;
    var first := IndexOf(s, from);
    assert first.Some?;
    assert first.value != j by {
      assert s[..j][i] == from;
    }
  }

  /** Replacing in `head + [from] + tail`, when `head` holds no `from`, rewrites exactly
      that separator and leaves `tail` alone, whatever it holds. */
  lemma ReplaceFirstJoined(head: string, from: char, to: char, tail: string)
    requires from !in head
    ensures ReplaceFirst(head + [from] + tail, from, to) == head + [to] + tail
  {
    var s := head + [from] + tail;
    assert forall k :: 0 <= k < |head| ==> s[k] == head[k];
    assert s[..|head| + 1][|head|] == from;
    assert IndexOf(s, from) == Some(|head|);
    assert s[|head| + 1..] == tail;
  }

  /** `xs.map(f)`: one output per input, in input order. */
  function Map<A, B>(f: A -> B, xs: seq<A>): (r: seq<B>)
    ensures |r| == |xs|
    ensures forall i :: 0 <= i < |xs| ==> r[i] == f(xs[i])
  {
    if xs == [] then [] else [f(xs[0])] + Map(f, xs[1..])
  }
}
