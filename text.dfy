/** The few pieces of Go's `strings` and `path/filepath` packages that the
    executor and the coordinator rely on, over `string` = `seq<char>`. */
module Text {
  import opened Wrappers

  /** strings.HasPrefix */
  predicate HasPrefix(s: string, p: string) {
    |p| <= |s| && s[..|p|] == p
  }

  /** strings.HasSuffix */
  predicate HasSuffix(s: string, p: string) {
    |p| <= |s| && s[|s| - |p|..] == p
  }

  /** `sub` occurs in `s` starting at index `j`. */
  predicate OccursAt(s: string, sub: string, j: int) {
    0 <= j && j + |sub| <= |s| && s[j..j + |sub|] == sub
  }

  /** strings.Contains */
  predicate Contains(s: string, sub: string) {
    exists j | 0 <= j <= |s| :: OccursAt(s, sub, j)
  }

  lemma OccursShift(s: string, sub: string, j: nat)
    requires |s| > 0
    ensures OccursAt(s, sub, j + 1) <==> OccursAt(s[1..], sub, j)
  {
    if j + 1 + |sub| <= |s| {
      assert s[j + 1..j + 1 + |sub|] == s[1..][j..j + |sub|];
    }
  }

  /** strings.Index for a non-empty separator: the first occurrence, if any. */
  function IndexOf(s: string, sep: string): (r: Option<nat>)
    requires |sep| > 0
    ensures r.Some? ==> OccursAt(s, sep, r.value)
    ensures forall j :: 0 <= j && (r.None? || j < r.value) ==> !OccursAt(s, sep, j)
    decreases |s|
  {
    if |s| < |sep| then None
    else if s[..|sep|] == sep then Some(0)
    else
      var rest := IndexOf(s[1..], sep);
      assert !OccursAt(s, sep, 0);
      assert forall j :: 1 <= j ==> (OccursAt(s, sep, j) <==> OccursAt(s[1..], sep, j - 1)) by {
        forall j | 1 <= j ensures OccursAt(s, sep, j) <==> OccursAt(s[1..], sep, j - 1) {
          OccursShift(s, sep, j - 1);
        }
      }
      match rest
      case None => None
      case Some(i) => Some(i + 1)
  }

  /** strings.Join */
  function Join(parts: seq<string>, sep: string): string {
    if |parts| == 0 then ""
    else if |parts| == 1 then parts[0]
    else parts[0] + sep + Join(parts[1..], sep)
  }

  /** Text in which `sep` starts nowhere does not contain it. */
  lemma BeforeFirstOccurrence(s: string, sep: string, i: nat)
    requires |sep| > 0 && i <= |s|
    requires forall j :: 0 <= j < i ==> !OccursAt(s, sep, j)
    ensures !Contains(s[..i], sep)
  {
    forall j | 0 <= j <= i ensures !OccursAt(s[..i], sep, j) {
      if j + |sep| <= i {
        assert !OccursAt(s, sep, j);
        assert s[..i][j..j + |sep|] == s[j..j + |sep|];
      }
    }
  }

  /** strings.Split for a non-empty separator: the pieces between the
      occurrences of `sep`, so that joining them with `sep` gives `s` back and
      no piece contains `sep`. */
  function Split(s: string, sep: string): (parts: seq<string>)
    requires |sep| > 0
    ensures |parts| >= 1
    ensures Join(parts, sep) == s
    ensures forall k :: 0 <= k < |parts| ==> !Contains(parts[k], sep)
    decreases |s|
  {
    match IndexOf(s, sep)
    case None => [s]
    case Some(i) =>
      var rest := Split(s[i + |sep|..], sep);
      assert s == s[..i] + sep + s[i + |sep|..];
      BeforeFirstOccurrence(s, sep, i);
      [s[..i]] + rest
  }

  /** The first piece of a split is the longest prefix free of the separator;
      in particular it keeps any prefix of `s` that the separator does not
      start inside of. */
  lemma {:induction false} SplitHeadKeepsPrefix(s: string, sep: string, p: string)
    requires |sep| > 0 && HasPrefix(s, p)
    requires forall j :: 0 <= j < |p| ==> !OccursAt(s, sep, j)
    ensures HasPrefix(Split(s, sep)[0], p)
  {
    match IndexOf(s, sep)
    case None =>
    case Some(i) =>
      assert i >= |p|;
      assert Split(s, sep)[0] == s[..i];
      assert s[..i][..|p|] == s[..|p|];
  }

  /** Splitting a string that starts with the separator gives an empty first
      piece and at least one more. */
  lemma SplitLeadingSeparator(s: string, sep: string)
    requires |sep| > 0 && HasPrefix(s, sep)
    ensures |Split(s, sep)| >= 2 && Split(s, sep)[0] == ""
  {
    assert OccursAt(s, sep, 0);
    assert IndexOf(s, sep) == Some(0);
  }

  /** A string without the separator character is a single piece. */
  lemma SplitAbsent(s: string, c: char)
    requires c !in s
    ensures Split(s, [c]) == [s]
  {
    forall j | 0 <= j ensures !OccursAt(s, [c], j) {
      if j + 1 <= |s| {
        assert s[j..j + 1][0] == s[j];
      }
    }
    assert IndexOf(s, [c]) == None;
  }

  /** `a<c>b` with no other `c` splits into exactly `a` and `b`. */
  lemma SplitOnce(a: string, b: string, c: char)
    requires c !in a && c !in b
    ensures Split(a + [c] + b, [c]) == [a, b]
  {
    var s := a + [c] + b;
    forall j | 0 <= j < |a| ensures !OccursAt(s, [c], j) {
      assert s[j..j + 1][0] == s[j] == a[j];
    }
    assert s[|a|..|a| + 1] == [c];
    assert OccursAt(s, [c], |a|);
    assert IndexOf(s, [c]) == Some(|a|);
    assert s[|a| + 1..] == b;
    SplitAbsent(b, c);
  }

  /** Number of occurrences of `c` in `s`. */
  function Count(s: string, c: char): nat {
    if |s| == 0 then 0 else (if s[0] == c then 1 else 0) + Count(s[1..], c)
  }

  lemma {:induction false} CountConcat(a: string, b: string, c: char)
    ensures Count(a + b, c) == Count(a, c) + Count(b, c)
  {
    if |a| > 0 {
      assert (a + b)[1..] == a[1..] + b;
      CountConcat(a[1..], b, c);
    } else {
      assert a + b == b;
    }
  }

  lemma {:induction false} CountAbsent(s: string, c: char)
    requires forall j :: 0 <= j < |s| ==> s[j] != c
    ensures Count(s, c) == 0
  {
    if |s| > 0 {
      CountAbsent(s[1..], c);
    }
  }

  /** Splitting on one character gives one more piece than there are
      occurrences of that character. */
  lemma {:induction false} SplitCharCount(s: string, c: char)
    ensures |Split(s, [c])| == Count(s, c) + 1
    decreases |s|
  {
    match IndexOf(s, [c])
    case None =>
      forall j | 0 <= j < |s| ensures s[j] != c {
        assert !OccursAt(s, [c], j);
        assert s[j..j + 1] == [s[j]];
      }
      CountAbsent(s, c);
    case Some(i) =>
      forall j | 0 <= j < i ensures s[..i][j] != c {
        assert !OccursAt(s, [c], j);
        assert s[j..j + 1] == [s[j]];
      }
      CountAbsent(s[..i], c);
      assert s[i..i + 1] == [c];
      assert s == s[..i] + [c] + s[i + 1..];
      CountConcat(s[..i] + [c], s[i + 1..], c);
      CountConcat(s[..i], [c], c);
      SplitCharCount(s[i + 1..], c);
  }

  /** The string with every trailing `c` removed. */
  function TrimTrailing(s: string, c: char): (r: string)
    ensures HasPrefix(s, r)
    ensures |r| == 0 || r[|r| - 1] != c
    ensures |s| == 0 || s[|s| - 1] != c ==> r == s
  {
    if |s| > 0 && s[|s| - 1] == c then TrimTrailing(s[..|s| - 1], c) else s
  }

  /** The string with every leading `c` removed. */
  function TrimLeading(s: string, c: char): (r: string)
    ensures HasSuffix(s, r)
    ensures |r| == 0 || r[0] != c
    ensures |s| == 0 || s[0] != c ==> r == s
  {
    if |s| > 0 && s[0] == c then TrimLeading(s[1..], c) else s
  }

  /** strings.Trim with a one-character cutset. */
  function Trim(s: string, c: char): (r: string)
    ensures |r| == 0 || (r[0] != c && r[|r| - 1] != c)
    ensures (|s| == 0 || (s[0] != c && s[|s| - 1] != c)) ==> r == s
  {
    TrimLeading(TrimTrailing(s, c), c)
  }

  /** The part of `s` after its last `c` (all of `s` when there is none). */
  function AfterLast(s: string, c: char): (r: string)
    ensures c !in r
    ensures HasSuffix(s, r)
    ensures |s| > 0 && s[|s| - 1] != c ==> |r| > 0
  {
    if |s| == 0 then ""
    else if s[|s| - 1] == c then ""
    else AfterLast(s[..|s| - 1], c) + [s[|s| - 1]]
  }

  lemma {:induction false} AfterLastOfTail(p: string, t: string, c: char)
    requires |p| == 0 || p[|p| - 1] == c
    requires c !in t
    ensures AfterLast(p + t, c) == t
  {
    if |t| == 0 {
      assert p + t == p;
    } else {
      var u, x := t[..|t| - 1], t[|t| - 1];
      assert t == u + [x];
      var s := (p + u) + [x];
      assert p + t == s;
      assert s[..|s| - 1] == p + u;
      assert s[|s| - 1] == x && x != c;
      AfterLastOfTail(p, u, c);
      assert AfterLast(s, c) == AfterLast(p + u, c) + [x];
    }
  }

  /** filepath.Base on a slash-separated path: "." for the empty path, "/"
      for a path of slashes, otherwise the last element. */
  function Base(path: string): (b: string)
    ensures |b| > 0
    ensures b == "/" || '/' !in b
  {
    if path == "" then "."
    else
      var stripped := TrimTrailing(path, '/');
      if stripped == "" then "/" else AfterLast(stripped, '/')
  }

  /** filepath.Join of a directory and one element (the lexical cleaning of
      `..` and doubled slashes is not modelled). */
  function JoinPath(dir: string, name: string): string {
    if dir == "" then name
    else if dir[|dir| - 1] == '/' then dir + name
    else dir + "/" + name
  }

  /** Base undoes JoinPath for a plain file name. */
  lemma BaseOfJoinPath(dir: string, name: string)
    requires |name| > 0 && '/' !in name
    ensures Base(JoinPath(dir, name)) == name
  {
    var path := JoinPath(dir, name);
    var p := if dir == "" then "" else if dir[|dir| - 1] == '/' then dir else dir + "/";
    assert path == p + name;
    assert path[|path| - 1] == name[|name| - 1];
    AfterLastOfTail(p, name, '/');
  }

  /** What `head -n 1` prints: the text up to and including the first
      newline, or all of it when there is none. */
  function FirstLine(s: string): (line: string)
    ensures HasPrefix(s, line)
  {
    match IndexOf(s, "\n")
    case None => s
    case Some(i) => s[..i + 1]
  }

  /** A prefix without newlines survives FirstLine. */
  lemma FirstLineKeepsPrefix(s: string, p: string)
    requires HasPrefix(s, p) && '\n' !in p
    ensures HasPrefix(FirstLine(s), p)
  {
    match IndexOf(s, "\n")
    case None =>
    case Some(i) =>
      forall j | 0 <= j < |p| ensures !OccursAt(s, "\n", j) {
        assert s[j] == s[..|p|][j];
        assert s[j..j + 1] == [s[j]];
      }
      assert s[..i + 1][..|p|] == s[..|p|];
  }

  function Digit(d: nat): char
    requires d < 10
  {
    "0123456789"[d]
  }

  /** strconv.Itoa on a non-negative number (what %d prints). */
  function Itoa(n: nat): (s: string)
    ensures |s| > 0
    decreases n
  {
    if n < 10 then [Digit(n)] else Itoa(n / 10) + [Digit(n % 10)]
  }
}
