/** Shared vocabulary of the chat core: messages and options as the vendors
    see them, Go's error-or-value returns, the few string operations of Go's
    `strings` and `sort` packages that the core relies on, the (name, isDir)
    directory entries that the loaders read, and Go's unbuffered channel of
    text fragments. */
module Common {

  datatype Option<T> = None | Some(value: T)

  /** Go's `(value, error)` pair, with the error taken apart from the value. */
  datatype Result<T, E> = Ok(value: T) | Err(error: E)

  /** Chat roles. `Meta` is the internal bookkeeping role (`ChatMessageRoleMeta`). */
  datatype Role = System | User | Assistant | Meta

  datatype Message = Message(role: Role, content: string)

  /** The fields of `common.ChatOptions` the core reads. Floating-point fields
      are kept as `real`; `seed` is Go's `int`, where 0 means "not set". */
  datatype ChatOptions = ChatOptions(
    model: string,
    modelContextLength: int,
    temperature: real,
    topP: real,
    presencePenalty: real,
    frequencyPenalty: real,
    seed: int,
    raw: bool)

  /** What a vendor's streaming call did to the channel it was given: the
      fragments it sent, in order, whether it closed the channel, and the
      error it returned. */
  datatype StreamRun = StreamRun(fragments: seq<string>, closed: bool, err: Option<string>)

  /** One entry of `os.ReadDir`: the entry's base name and whether it is a directory. */
  datatype Entry = Entry(name: string, isDir: bool)

  // ---------------------------------------------------------------------------
  // Strings

  predicate StartsWith(s: string, prefix: string) {
    |prefix| <= |s| && s[..|prefix|] == prefix
  }

  predicate EndsWith(s: string, suffix: string) {
    |suffix| <= |s| && s[|s| - |suffix|..] == suffix
  }

  /** Go's `strings.TrimSuffix`: removes one trailing `suffix` if present. */
  function TrimSuffix(s: string, suffix: string): (r: string)
    ensures EndsWith(s, suffix) ==> r + suffix == s
    ensures !EndsWith(s, suffix) ==> r == s
  {
    if EndsWith(s, suffix) then s[..|s| - |suffix|] else s
  }

  /** Go's `unicode.IsSpace`, the predicate `strings.TrimSpace` trims by. */
  predicate GoIsSpace(c: char) {
    c == '\t' || c == '\n' || c == '\U{000B}' || c == '\U{000C}' || c == '\r' || c == ' '
    || c == '\U{0085}' || c == '\U{00A0}' || c == '\U{1680}'
    || ('\U{2000}' <= c <= '\U{200A}') || c == '\U{2028}' || c == '\U{2029}'
    || c == '\U{202F}' || c == '\U{205F}' || c == '\U{3000}'
  }

  function TrimLeftSpace(s: string): string {
    if s != [] && GoIsSpace(s[0]) then TrimLeftSpace(s[1..]) else s
  }

  function TrimRightSpace(s: string): string {
    if s != [] && GoIsSpace(s[|s| - 1]) then TrimRightSpace(s[..|s| - 1]) else s
  }

  /** `TrimLeftSpace` drops the leading spaces and nothing else. */
  lemma {:induction false} TrimLeftSpaceFacts(s: string)
    ensures var r := TrimLeftSpace(s);
      && |r| <= |s| && r == s[|s| - |r|..]
      && (forall i :: 0 <= i < |s| - |r| ==> GoIsSpace(s[i]))
      && (r == [] || !GoIsSpace(r[0]))
  {
    if s != [] && GoIsSpace(s[0]) {
      var t := s[1..];
      TrimLeftSpaceFacts(t);
      var r := TrimLeftSpace(t);
      assert TrimLeftSpace(s) == r;
      assert s[|s| - |r|..] == t[|t| - |r|..];
      forall i | 0 <= i < |s| - |r| ensures GoIsSpace(s[i]) {
        if i > 0 { assert s[i] == t[i - 1]; }
      }
    }
  }

  /** `TrimRightSpace` drops the trailing spaces and nothing else. */
  lemma {:induction false} TrimRightSpaceFacts(s: string)
    ensures var r := TrimRightSpace(s);
      && |r| <= |s| && r == s[..|r|]
      && (forall i :: |r| <= i < |s| ==> GoIsSpace(s[i]))
      && (r == [] || !GoIsSpace(r[|r| - 1]))
  {
    if s != [] && GoIsSpace(s[|s| - 1]) {
      var t := s[..|s| - 1];
      TrimRightSpaceFacts(t);
      var r := TrimRightSpace(t);
      assert TrimRightSpace(s) == r;
      assert s[..|r|] == t[..|r|];
      forall i | |r| <= i < |s| ensures GoIsSpace(s[i]) {
        if i < |s| - 1 { assert s[i] == t[i]; }
      }
    }
  }

  /** Go's `strings.TrimSpace`: the text between the first and the last
      non-space character, or "" when there is none. */
  function TrimSpace(s: string): (r: string)
  {
    TrimRightSpace(TrimLeftSpace(s))
  }

  /** What `TrimSpace` keeps: a contiguous piece of `s`, neither end of which
      is a space, and everything around it is space. */
  lemma TrimSpaceIsCore(s: string)
    ensures exists i, j ::
      && 0 <= i <= j <= |s| && TrimSpace(s) == s[i..j]
      && (forall k :: 0 <= k < i ==> GoIsSpace(s[k]))
      && (forall k :: j <= k < |s| ==> GoIsSpace(s[k]))
    ensures TrimSpace(s) == [] || (!GoIsSpace(TrimSpace(s)[0]) && !GoIsSpace(TrimSpace(s)[|TrimSpace(s)| - 1]))
  {
    var l := TrimLeftSpace(s);
    var r := TrimRightSpace(l);
    TrimLeftSpaceFacts(s);
    TrimRightSpaceFacts(l);
    var i := |s| - |l|;
    var j := i + |r|;
    assert r == s[i..j];
    if r != [] {
      assert !GoIsSpace(l[0]);
      assert r[0] == l[0];
    }
  }

  /** `TrimSpace` of text that already has no space at either end is that text. */
  lemma TrimSpaceOfTrimmed(s: string)
    requires s == [] || (!GoIsSpace(s[0]) && !GoIsSpace(s[|s| - 1]))
    ensures TrimSpace(s) == s
  {
  }

  /** Go's `strings.Join`. */
  function Join(parts: seq<string>, sep: string): (r: string)
    ensures parts == [] ==> r == ""
    ensures |parts| == 1 ==> r == parts[0]
  {
    if parts == [] then "" else if |parts| == 1 then parts[0]
    else parts[0] + sep + Join(parts[1..], sep)
  }

  /** Concatenation of all pieces, in order. */
  function Concat(pieces: seq<string>): string {
    if pieces == [] then "" else Concat(pieces[..|pieces| - 1]) + pieces[|pieces| - 1]
  }

  function Sum(ns: seq<nat>): nat {
    if ns == [] then 0 else Sum(ns[..|ns| - 1]) + ns[|ns| - 1]
  }

  // ---------------------------------------------------------------------------
  // Go string order (byte order of UTF-8, which is code-point order)

  predicate LessEq(a: string, b: string)
    decreases |a|
  {
    |a| == 0 || (|b| > 0 && (a[0] < b[0] || (a[0] == b[0] && LessEq(a[1..], b[1..]))))
  }

  lemma {:induction false} LessEqReflexive(a: string)
    ensures LessEq(a, a)
    decreases |a|
  {
    if |a| > 0 { LessEqReflexive(a[1..]); }
  }

  lemma {:induction false} LessEqTotal(a: string, b: string)
    ensures LessEq(a, b) || LessEq(b, a)
    decreases |a|
  {
    if |a| > 0 && |b| > 0 && a[0] == b[0] { LessEqTotal(a[1..], b[1..]); }
  }

  lemma {:induction false} LessEqAntisymmetric(a: string, b: string)
    requires LessEq(a, b) && LessEq(b, a)
    ensures a == b
    decreases |a|
  {
    if |a| > 0 {
      LessEqAntisymmetric(a[1..], b[1..]);
      assert a == [a[0]] + a[1..] && b == [b[0]] + b[1..];
    }
  }

  lemma {:induction false} LessEqTransitive(a: string, b: string, c: string)
    requires LessEq(a, b) && LessEq(b, c)
    ensures LessEq(a, c)
    decreases |a|
  {
    if |a| > 0 && a[0] == b[0] && b[0] == c[0] {
      LessEqTransitive(a[1..], b[1..], c[1..]);
    }
  }

  predicate Sorted(s: seq<string>) {
    forall i, j :: 0 <= i < j < |s| ==> LessEq(s[i], s[j])
  }

  /** Sorted and free of duplicates, so each element strictly precedes the next. */
  predicate StrictlySorted(s: seq<string>) {
    forall i, j :: 0 <= i < j < |s| ==> LessEq(s[i], s[j]) && s[i] != s[j]
  }

  /** Places `x` into the sorted sequence `s`, before the first element it precedes. */
  function Insert(x: string, s: seq<string>): (r: seq<string>)
    requires Sorted(s)
    ensures Sorted(r) && multiset(r) == multiset(s) + multiset{x}
  {
    if s == [] then [x]
    else if LessEq(x, s[0]) then
      LessEqFirst(x, s);
      [x] + s
    else
      LessEqTotal(x, s[0]);
      var rest := Insert(x, s[1..]);
      assert forall k :: 0 <= k < |rest| ==> LessEq(s[0], rest[k]) by {
        forall k | 0 <= k < |rest|
          ensures LessEq(s[0], rest[k])
        {
          assert rest[k] in multiset(rest);
          assert rest[k] == x || rest[k] in multiset(s[1..]);
          if rest[k] != x {
            var m :| 0 <= m < |s[1..]| && s[1..][m] == rest[k];
          }
        }
      }
      assert s == [s[0]] + s[1..];
      [s[0]] + rest
  }

  lemma LessEqFirst(x: string, s: seq<string>)
    requires Sorted(s) && s != [] && LessEq(x, s[0])
    ensures Sorted([x] + s)
  {
    forall j | 0 < j < |s| ensures LessEq(x, s[j]) {
      LessEqTransitive(x, s[0], s[j]);
    }
  }

  /** `sort.Strings`: returns the names in ascending order (a sorted permutation). */
  method SortStrings(names: seq<string>) returns (sorted: seq<string>)
    ensures Sorted(sorted) && multiset(sorted) == multiset(names)
  {
    sorted := [];
    var i := 0;
    while i < |names|
      invariant 0 <= i <= |names|
      invariant Sorted(sorted) && multiset(sorted) == multiset(names[..i])
    {
      sorted := Insert(names[i], sorted);
      assert names[..i + 1] == names[..i] + [names[i]];
      i := i + 1;
    }
    assert names[..i] == names;
  }

  /** Insertion sort as a function, the specification `SortStrings` meets. */
  function SortSeq(s: seq<string>): (r: seq<string>)
    ensures Sorted(r) && multiset(r) == multiset(s)
  {
    if s == [] then [] else
      var r := Insert(s[|s| - 1], SortSeq(s[..|s| - 1]));
      assert s == s[..|s| - 1] + [s[|s| - 1]];
      r
  }

  /** The elements of a finite set, in some order. */
  ghost function Elements(s: set<string>): (r: seq<string>)
    ensures multiset(r) == multiset(s)
  {
    if s == {} then [] else
      var x :| x in s;
      var r := [x] + Elements(s - {x});
      assert multiset(s) == multiset{x} + multiset(s - {x});
      r
  }

  /** The elements of a finite set in ascending order. */
  ghost function SortedSet(s: set<string>): (r: seq<string>)
    ensures Sorted(r) && multiset(r) == multiset(s)
  {
    SortSeq(Elements(s))
  }

  /** Go map iteration: the keys are visited once each, in an order the
      program cannot predict (modelled by an arbitrary choice per step). */
  method CollectKeys(keys: set<string>) returns (names: seq<string>)
    ensures multiset(names) == multiset(keys)
  {
    names := [];
    var remaining := keys;
    while remaining != {}
      invariant remaining <= keys
      invariant multiset(names) + multiset(remaining) == multiset(keys)
      decreases remaining
    {
      var n :| n in remaining;
      assert multiset(remaining) == multiset(remaining - {n}) + multiset{n};
      names := names + [n];
      remaining := remaining - {n};
    }
  }

  /** The head of a sorted sequence precedes every element of it. */
  lemma SortedHeadIsLeast(a: seq<string>, x: string)
    requires Sorted(a) && x in a
    ensures LessEq(a[0], x)
  {
    var i :| 0 <= i < |a| && a[i] == x;
    if i == 0 { LessEqReflexive(x); }
  }

  /** Two sorted orderings of the same names are the same sequence: the outcome
      of sorting does not depend on the order the names were collected in. */
  lemma {:induction false} SortedUnique(a: seq<string>, b: seq<string>)
    requires Sorted(a) && Sorted(b) && multiset(a) == multiset(b)
    ensures a == b
    decreases |a|
  {
    assert |a| == |multiset(a)| == |multiset(b)| == |b|;
    if a != [] {
      assert a[0] in multiset(b) && b[0] in multiset(a);
      SortedHeadIsLeast(a, b[0]);
      SortedHeadIsLeast(b, a[0]);
      LessEqAntisymmetric(a[0], b[0]);
      assert a == [a[0]] + a[1..] && b == [b[0]] + b[1..];
      var rest := multiset(a) - multiset{a[0]};
      assert multiset(a[1..]) == rest == multiset(b[1..]);
      SortedUnique(a[1..], b[1..]);
    }
  }

  /** However the names of a set were collected, sorting them gives `SortedSet`. */
  lemma SortedOfSet(xs: seq<string>, s: set<string>)
    requires Sorted(xs) && multiset(xs) == multiset(s)
    ensures xs == SortedSet(s) && StrictlySorted(xs)
  {
    SortedUnique(xs, SortedSet(s));
    forall x | x in multiset(xs) ensures multiset(xs)[x] == 1 {
    }
    SortedDistinctIsStrict(xs);
  }

  /** A sorted sequence without repeated elements is strictly sorted. */
  lemma SortedDistinctIsStrict(s: seq<string>)
    requires Sorted(s)
    requires forall x :: x in multiset(s) ==> multiset(s)[x] == 1
    ensures StrictlySorted(s)
  {
    forall i, j | 0 <= i < j < |s| ensures s[i] != s[j] {
      assert s == s[..i] + [s[i]] + s[i + 1..j] + [s[j]] + s[j + 1..];
      var m := multiset(s[..i]) + multiset{s[i]} + multiset(s[i + 1..j]) + multiset{s[j]} + multiset(s[j + 1..]);
      assert multiset(s) == m;
      assert m[s[i]] >= 1 + multiset{s[j]}[s[i]];
      assert multiset{s[j]}[s[i]] == 0;
    }
  }

  // ---------------------------------------------------------------------------
  // Channels

  /** An unbuffered Go `chan string`, seen through what has been sent on it and
      whether it has been closed. Go panics on a send to, or a close of, a
      closed channel; those are the preconditions here. */
  class Channel {
    var sent: seq<string>
    var closed: bool

    constructor ()
      ensures sent == [] && !closed
    {
      sent := [];
      closed := false;
    }

    method Send(x: string)
      requires !closed
      modifies this
      ensures sent == old(sent) + [x] && !closed
    {
      sent := sent + [x];
    }

    method Close()
      requires !closed
      modifies this
      ensures closed && sent == old(sent)
    {
      closed := true;
    }
  }
}
