/**
  Text made of terminated pieces: the lines of a stream, each followed by
  '\n', and the peer list, each path followed by ' '. Also the left-justified
  padding that `std::setw` with `std::left` applies to a stream item.
 */
module Text {

  /** Each part followed by `sep`, in order. */
  function JoinTerminated(parts: seq<string>, sep: char): string {
    if parts == [] then [] else parts[0] + [sep] + JoinTerminated(parts[1..], sep)
  }

  /** The position of the first `c` in `s`, or `|s|` when there is none. */
  function FirstIndex(s: string, c: char): (k: nat)
    ensures k <= |s|
    ensures forall j :: 0 <= j < k ==> s[j] != c
    ensures k < |s| ==> s[k] == c
  {
    if s == [] || s[0] == c then 0 else 1 + FirstIndex(s[1..], c)
  }

  /**
    Cuts `s` after every `sep`; a last piece that has no `sep` after it is
    kept as it is.
   */
  function SplitTerminated(s: string, sep: char): seq<string>
    decreases |s|
  {
    if s == [] then []
    else
      var k := FirstIndex(s, sep);
      if k == |s| then [s] else [s[..k]] + SplitTerminated(s[k + 1..], sep)
  }

  predicate NoneContains(parts: seq<string>, c: char) {
    forall i :: 0 <= i < |parts| ==> c !in parts[i]
  }

  /** Splitting a joined text gives back its parts, provided no part holds the separator. */
  lemma {:induction false} SplitJoinTerminated(parts: seq<string>, sep: char)
    requires NoneContains(parts, sep)
    ensures SplitTerminated(JoinTerminated(parts, sep), sep) == parts
  {
    if parts != [] {
      var s := JoinTerminated(parts, sep);
      var head := parts[0];
      var rest := JoinTerminated(parts[1..], sep);
      assert s == head + [sep] + rest;
      assert s[|head|] == sep;
      assert forall j :: 0 <= j < |head| ==> s[j] == head[j];
      assert sep !in head;
      var k := FirstIndex(s, sep);
      assert k == |head|;
      assert s[..k] == head;
      assert s[k + 1..] == rest;
      SplitJoinTerminated(parts[1..], sep);
    }
  }

  /** Joining distributes over concatenation of the part lists. */
  lemma {:induction false} JoinTerminatedAppend(a: seq<string>, b: seq<string>, sep: char)
    ensures JoinTerminated(a + b, sep) == JoinTerminated(a, sep) + JoinTerminated(b, sep)
  {
    if a != [] {
      assert (a + b)[1..] == a[1..] + b;
      JoinTerminatedAppend(a[1..], b, sep);
    } else {
      assert a + b == b;
    }
  }

  /** Appending one part adds that part and one separator at the end. */
  lemma JoinTerminatedSnoc(a: seq<string>, part: string, sep: char)
    ensures JoinTerminated(a + [part], sep) == JoinTerminated(a, sep) + part + [sep]
  {
    JoinTerminatedAppend(a, [part], sep);
    assert [part][1..] == [];
  }

  /** Joining one part more of a prefix adds that part and one separator. */
  lemma JoinTerminatedPrefix(parts: seq<string>, k: nat, sep: char)
    requires k < |parts|
    ensures JoinTerminated(parts[..k + 1], sep) == JoinTerminated(parts[..k], sep) + parts[k] + [sep]
  {
    assert parts[..k + 1] == parts[..k] + [parts[k]];
    JoinTerminatedSnoc(parts[..k], parts[k], sep);
  }

  /**
    A text that held the first `k` parts, joined, and then had part `k` and
    the separator appended, holds the first `k + 1` parts.
   */
  lemma AppendedPart(parts: seq<string>, k: nat, sep: char, start: string, before: string, after: string)
    requires k < |parts|
    requires before == start + JoinTerminated(parts[..k], sep)
    requires after == before + parts[k] + [sep]
    ensures after == start + JoinTerminated(parts[..k + 1], sep)
  {
    JoinTerminatedPrefix(parts, k, sep);
  }

  /** Appending in two steps is appending the two pieces at once. */
  lemma AppendAssociates(a: string, b: string, c: string)
    ensures a + b + c == a + (b + c)
  {
  }

  /** A slice of the middle part of `a + b + c`, shifted by `|a|`, is that slice of `b`. */
  lemma SliceOfMiddle<T>(a: seq<T>, b: seq<T>, c: seq<T>, i: nat, j: nat)
    requires i <= j <= |b|
    ensures (a + b + c)[|a| + i..|a| + j] == b[i..j]
  {
  }

  /** A joined text holds no character other than the separator that no part holds. */
  lemma {:induction false} JoinTerminatedAvoids(parts: seq<string>, sep: char, c: char)
    requires c != sep && NoneContains(parts, c)
    ensures c !in JoinTerminated(parts, sep)
  {
    if parts != [] {
      JoinTerminatedAvoids(parts[1..], sep, c);
    }
  }

  /** `n` blanks, the fill character of a stream. */
  function Spaces(n: nat): (s: string)
    ensures |s| == n
    ensures forall i :: 0 <= i < n ==> s[i] == ' '
  {
    if n == 0 then [] else Spaces(n - 1) + [' ']
  }

  /**
    `s` as `std::setw(width)` with `std::left` emits it: followed by blanks
    up to `width` characters, and never cut when it is already as wide.
   */
  function PadRight(s: string, width: nat): (r: string)
    ensures |r| == if |s| < width then width else |s|
    ensures r[..|s|] == s
    ensures forall i :: |s| <= i < |r| ==> r[i] == ' '
  {
    if |s| < width then s + Spaces(width - |s|) else s
  }
}
