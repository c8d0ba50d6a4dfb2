/**
 * POSIX path manipulation as Python's posixpath does it: join, basename,
 * dirname, split on '/', normpath.
 */
module Paths {

  const Sep: char := '/'

  /** p.rfind('/') + 1: the index just past the last separator, 0 when there is none. */
  function TailStart(p: string): (i: nat)
    ensures i <= |p|
    ensures i > 0 ==> p[i - 1] == Sep
    ensures forall j :: i <= j < |p| ==> p[j] != Sep
  {
    if |p| == 0 then 0
    else if p[|p| - 1] == Sep then |p|
    else TailStart(p[..|p| - 1])
  }

  /** The three facts TailStart ensures pin it down. */
  lemma TailStartUnique(p: string, i: nat)
    requires i <= |p| && (i > 0 ==> p[i - 1] == Sep)
    requires forall j :: i <= j < |p| ==> p[j] != Sep
    ensures TailStart(p) == i
  {
  }

  /** os.path.basename. */
  function Basename(p: string): (b: string)
    ensures Sep !in b
    ensures p == p[..TailStart(p)] + b
  {
    p[TailStart(p)..]
  }

  predicate AllSlashes(s: string) {
    forall i :: 0 <= i < |s| ==> s[i] == Sep
  }

  /** s.rstrip('/'). */
  function RStripSlashes(s: string): (r: string)
    ensures |r| <= |s| && r == s[..|r|]
    ensures |s| > 0 && s[|s| - 1] == Sep ==> |r| < |s|
    ensures r == [] || r[|r| - 1] != Sep
    ensures AllSlashes(s[|r|..])
  {
    if |s| == 0 || s[|s| - 1] != Sep then s else RStripSlashes(s[..|s| - 1])
  }

  /** rstrip('/') never removes a character that is not a separator. */
  lemma {:induction false} RStripKeepsName(s: string, i: nat)
    requires i < |s| && s[i] != Sep
    ensures i < |RStripSlashes(s)|
  {
    if s[|s| - 1] == Sep {
      RStripKeepsName(s[..|s| - 1], i);
    }
  }

  /** os.path.dirname. */
  function Dirname(p: string): (d: string)
    ensures |d| <= |p| && d == p[..|d|]
    ensures d == p || |d| < |p|
  {
    var head := p[..TailStart(p)];
    if |head| > 0 && !AllSlashes(head) then RStripSlashes(head) else head
  }

  /** os.path.join(a, b). */
  function Join(a: string, b: string): string {
    if |b| > 0 && b[0] == Sep then b
    else if |a| == 0 || a[|a| - 1] == Sep then a + b
    else a + [Sep] + b
  }

  /** p.endswith(".csv"). */
  predicate IsCsv(p: string) {
    |p| >= 4 && p[|p| - 4..] == ".csv"
  }

  /** One path component: non-empty and without a separator. */
  predicate IsName(b: string) {
    |b| > 0 && Sep !in b
  }

  /** What Join puts in front of a relative second part. */
  function DirPrefix(a: string): string {
    if |a| == 0 || a[|a| - 1] == Sep then a else a + [Sep]
  }

  lemma JoinName(a: string, b: string)
    requires IsName(b)
    ensures Join(a, b) == DirPrefix(a) + b
  {
  }

  lemma JoinShape(a: string, b: string)
    requires IsName(b)
    ensures exists m :: Join(a, b) == m + b && (m == [] || m[|m| - 1] == Sep)
  {
    JoinName(a, b);
    assert Join(a, b) == DirPrefix(a) + b;
  }

  /** Joining a name onto a path and taking the basename gives the name back. */
  lemma BasenameOfJoin(a: string, b: string)
    requires IsName(b)
    ensures Basename(Join(a, b)) == b
  {
    JoinShape(a, b);
    var m :| Join(a, b) == m + b && (m == [] || m[|m| - 1] == Sep);
    var p := m + b;
    TailStartUnique(p, |m|);
  }

  /** The dirname of a name joined onto a directory without trailing '/' is that directory. */
  lemma DirnameOfJoin(a: string, b: string)
    requires IsName(b) && |a| > 0 && a[|a| - 1] != Sep
    ensures Dirname(Join(a, b)) == a
  {
    var p := a + [Sep] + b;
    assert Join(a, b) == p;
    TailStartUnique(p, |a| + 1);
    var head := p[..|a| + 1];
    assert head == a + [Sep];
    assert !AllSlashes(head) by { assert head[|a| - 1] != Sep; }
    var r := RStripSlashes(head);
    RStripKeepsName(head, |a| - 1);
    assert r == head[..|a|] == a;
  }

  // ---- normpath ----

  /** p.split('/'). */
  function Split(p: string): (parts: seq<string>)
    ensures |parts| >= 1
    ensures forall k :: 0 <= k < |parts| ==> Sep !in parts[k]
    decreases |p|
  {
    var t := TailStart(p);
    if t == 0 then [p] else Split(p[..t - 1]) + [p[t..]]
  }

  /** '/'.join(parts). */
  function JoinAll(parts: seq<string>): string {
    if |parts| == 0 then ""
    else if |parts| == 1 then parts[0]
    else JoinAll(parts[..|parts| - 1]) + [Sep] + parts[|parts| - 1]
  }

  /** A component normpath keeps as a directory name. */
  predicate Plain(c: string) {
    c != "" && c != "." && c != ".."
  }

  /**
   * The component loop of normpath: drop "" and ".", let ".." remove the
   * previous name, keep ".." only where nothing can be removed in a relative path.
   */
  function Resolve(stack: seq<string>, comps: seq<string>, rooted: bool): (r: seq<string>)
    requires forall k :: 0 <= k < |stack| ==> stack[k] != "" && stack[k] != "." && Sep !in stack[k]
    requires forall k :: 0 <= k < |comps| ==> Sep !in comps[k]
    requires rooted ==> ".." !in stack
    ensures forall k :: 0 <= k < |r| ==> r[k] != "" && r[k] != "." && Sep !in r[k]
    ensures rooted ==> ".." !in r
    decreases |comps|
  {
    if comps == [] then stack
    else
      var c := comps[0];
      var next :=
        if c == "" || c == "." then stack
        else if c != ".." || (!rooted && stack == []) || (stack != [] && stack[|stack| - 1] == "..") then stack + [c]
        else if stack != [] then stack[..|stack| - 1]
        else stack;
      Resolve(next, comps[1..], rooted)
  }

  function Slashes(n: nat): (s: string)
    ensures |s| == n && AllSlashes(s)
  {
    if n == 0 then "" else Slashes(n - 1) + [Sep]
  }

  /** Number of leading separators normpath keeps: two stay two, one or three or more become one. */
  function InitialSlashes(p: string): (n: nat)
    ensures n <= 2
    ensures n > 0 <==> (|p| > 0 && p[0] == Sep)
  {
    if |p| == 0 || p[0] != Sep then 0
    else if |p| >= 2 && p[1] == Sep && !(|p| >= 3 && p[2] == Sep) then 2
    else 1
  }

  /** os.path.normpath. */
  function NormPath(p: string): (r: string)
    ensures |r| > 0
    ensures (|p| > 0 && p[0] == Sep) <==> r[0] == Sep
  {
    if p == "" then "."
    else
      var n := InitialSlashes(p);
      var comps := Resolve([], Split(p), n > 0);
      var body := JoinAll(comps);
      assert n == 0 && |body| > 0 ==> body[0] != Sep by {
        if n == 0 && |body| > 0 {
          JoinAllFirst(comps);
        }
      }
      var r := Slashes(n) + body;
      if r == "" then "." else r
  }

  lemma {:induction false} JoinAllFirst(parts: seq<string>)
    requires |JoinAll(parts)| > 0
    requires forall k :: 0 <= k < |parts| ==> parts[k] != ""
    ensures |parts| > 0 && JoinAll(parts)[0] == parts[0][0]
  {
    if |parts| > 1 {
      var init := parts[..|parts| - 1];
      assert init[0] == parts[0];
      JoinAllFirst(init);
    }
  }
}
