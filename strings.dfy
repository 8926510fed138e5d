/**
 * The few Python str operations the dispatchers rely on: endswith,
 * startswith, split(sep), split(sep, 1)[-1] and rsplit(sep, 1).
 */
module Strings {

  /** s.startswith(prefix): s is prefix followed by the rest of s. */
  predicate StartsWith(s: string, prefix: string)
    ensures StartsWith(s, prefix) <==> |prefix| <= |s| && s == prefix + s[|prefix|..]
  {
    |prefix| <= |s| && s[..|prefix|] == prefix
  }

  /** s.endswith(suffix): s is the rest of s followed by suffix. */
  predicate EndsWith(s: string, suffix: string)
    ensures EndsWith(s, suffix) <==> |suffix| <= |s| && s == s[..|s| - |suffix|] + suffix
  {
    |suffix| <= |s| && s[|s| - |suffix|..] == suffix
  }

  /** Number of occurrences of sep in s. */
  function Count(s: string, sep: char): nat {
    if s == [] then 0 else (if s[0] == sep then 1 else 0) + Count(s[1..], sep)
  }

  /** s.split(sep): the fields between separators; always at least one field. */
  function Split(s: string, sep: char): (fields: seq<string>)
    ensures |fields| == Count(s, sep) + 1
    ensures forall i | 0 <= i < |fields| :: sep !in fields[i]
  {
    if s == [] then [""]
    else
      var rest := Split(s[1..], sep);
      if s[0] == sep then [""] + rest
      else [[s[0]] + rest[0]] + rest[1..]
  }

  /** fields joined with sep in between ('.'.join(fields)). */
  function Join(fields: seq<string>, sep: char): string
    requires |fields| > 0
  {
    if |fields| == 1 then fields[0] else fields[0] + [sep] + Join(fields[1..], sep)
  }

  /** Splitting the join of separator-free fields gives the fields back. */
  lemma {:induction false} SplitJoin(fields: seq<string>, sep: char)
    requires |fields| > 0
    requires forall i | 0 <= i < |fields| :: sep !in fields[i]
    ensures Split(Join(fields, sep), sep) == fields
  {
    if |fields| == 1 {
      SplitNoSep(fields[0], sep);
    } else {
      SplitJoin(fields[1..], sep);
      SplitAfterField(fields[0], Join(fields[1..], sep), sep);
    }
  }

  lemma {:induction false} SplitNoSep(s: string, sep: char)
    requires sep !in s
    ensures Split(s, sep) == [s]
  {
    if s != [] {
      assert sep !in s[1..];
      SplitNoSep(s[1..], sep);
      assert [s[0]] + s[1..] == s;
    }
  }

  /** A separator-free head followed by sep becomes the first field. */
  lemma {:induction false} SplitAfterField(head: string, tail: string, sep: char)
    requires sep !in head
    ensures Split(head + [sep] + tail, sep) == [head] + Split(tail, sep)
  {
    if head != [] {
      assert (head + [sep] + tail)[1..] == head[1..] + [sep] + tail;
      SplitAfterField(head[1..], tail, sep);
      assert [head[0]] + head[1..] == head;
    } else {
      assert head + [sep] + tail == [sep] + tail;
    }
  }

  /** s.split(sep, 1)[-1]: the text after the first sep, or all of s. */
  function AfterFirst(s: string, sep: char): (r: string)
    ensures |r| <= |s|
  {
    if s == [] then ""
    else if s[0] == sep then s[1..]
    else if sep in s[1..] then AfterFirst(s[1..], sep)
    else s
  }

  lemma {:induction false} AfterFirstOfField(head: string, tail: string, sep: char)
    requires sep !in head
    ensures AfterFirst(head + [sep] + tail, sep) == tail
  {
    var s := head + [sep] + tail;
    if head != [] {
      assert s[1..] == head[1..] + [sep] + tail;
      assert sep in s[1..] by { assert s[1..][|head| - 1] == sep; }
      AfterFirstOfField(head[1..], tail, sep);
    } else {
      assert s == [sep] + tail;
    }
  }

  lemma {:induction false} AfterFirstNoSep(s: string, sep: char)
    requires sep !in s
    ensures AfterFirst(s, sep) == s
  {
  }

  /** s.rsplit(sep, 1): one field if sep does not occur, else the parts around its last occurrence. */
  function RSplitOnce(s: string, sep: char): (parts: seq<string>)
    ensures |parts| == 1 || |parts| == 2
    ensures |parts| == 1 <==> sep !in s
    ensures |parts| == 1 ==> parts[0] == s
    ensures |parts| == 2 ==> parts[0] + [sep] + parts[1] == s && sep !in parts[1]
  {
    if s == [] then [s]
    else
      var last := s[|s| - 1];
      var init := s[..|s| - 1];
      assert s == init + [last];
      if last == sep then [init, ""]
      else
        var r := RSplitOnce(init, sep);
        if |r| == 1 then [s] else [r[0], r[1] + [last]]
  }

  /** rsplit recovers the head however many separators the head itself holds. */
  lemma {:induction false} RSplitOnceOfField(head: string, tail: string, sep: char)
    requires sep !in tail
    ensures RSplitOnce(head + [sep] + tail, sep) == [head, tail]
  {
    var parts := RSplitOnce(head + [sep] + tail, sep);
    assert sep in head + [sep] + tail by { assert (head + [sep] + tail)[|head|] == sep; }
    assert |parts| == 2;
    SeparatorSplitUnique(head, tail, parts[0], parts[1], sep);
  }

  lemma SeparatorSplitUnique(h1: string, t1: string, h2: string, t2: string, sep: char)
    requires sep !in t1 && sep !in t2
    requires h1 + [sep] + t1 == h2 + [sep] + t2
    ensures h1 == h2 && t1 == t2
  {
    var s := h1 + [sep] + t1;
    LastSeparatorAt(h1, t1, sep);
    LastSeparatorAt(h2, t2, sep);
    assert |h1| == |h2|;
    assert h1 == s[..|h1|] == h2;
    assert t1 == s[|h1| + 1..] == t2;
  }

  /** In head + [sep] + tail with a separator-free tail, the last separator is at |head|. */
  lemma LastSeparatorAt(head: string, tail: string, sep: char)
    requires sep !in tail
    ensures (head + [sep] + tail)[|head|] == sep
    ensures forall k | |head| < k < |head| + 1 + |tail| :: (head + [sep] + tail)[k] != sep
  {
    var s := head + [sep] + tail;
    forall k | |head| < k < |head| + 1 + |tail|
      ensures s[k] != sep
    {
      assert s[k] == tail[k - |head| - 1];
    }
  }

  lemma EndsWithConcat(head: string, suffix: string)
    ensures EndsWith(head + suffix, suffix)
    ensures (head + suffix)[..|head + suffix| - |suffix|] == head
  {
  }

  lemma StartsWithConcat(prefix: string, tail: string)
    ensures StartsWith(prefix + tail, prefix)
  {
  }
}
