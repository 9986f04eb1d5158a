/** The two functions of Python's posixpath that search_download.py uses to name
    the saved file: splitext (genericpath._splitext with sep "/", extsep ".")
    and join. */
module PosixPath {

  /** str.rfind(c): the last index of c in s, or -1 when there is none. */
  function RFind(s: string, c: char): (r: int)
    ensures -1 <= r < |s|
    ensures r >= 0 ==> s[r] == c
    ensures forall i :: r < i < |s| ==> s[i] != c
  {
    if s == [] then -1
    else if s[|s| - 1] == c then |s| - 1
    else RFind(s[..|s| - 1], c)
  }

  /** The index where the last path segment begins. */
  function SegmentStart(p: string): (r: nat)
    ensures r <= |p|
    ensures forall i :: r <= i < |p| ==> p[i] != '/'
    ensures r > 0 ==> p[r - 1] == '/'
  {
    RFind(p, '/') + 1
  }

  /** os.path.splitext: the extension runs from the last "." of the last
      segment, unless everything in that segment before the dot is a dot too
      (".bashrc", "..", "..x" have no extension); a query string after the dot
      stays part of the extension. */
  function SplitExt(p: string): (r: (string, string))
    ensures r.0 + r.1 == p
    ensures r.1 != "" ==>
      && r.1[0] == '.'
      && (forall k :: 0 < k < |r.1| ==> r.1[k] != '.' && r.1[k] != '/')
      && (exists j :: SegmentStart(p) <= j < |r.0| && r.0[j] != '.')
    ensures r.1 == "" ==>
      forall d :: SegmentStart(p) <= d < |p| && p[d] == '.' ==>
        forall j :: SegmentStart(p) <= j < d ==> p[j] == '.'
  {
    var sepIndex := RFind(p, '/');
    var dotIndex := RFind(p, '.');
    if dotIndex > sepIndex && exists i :: sepIndex + 1 <= i < dotIndex && p[i] != '.' then
      assert p[..dotIndex] + p[dotIndex..] == p;
      (p[..dotIndex], p[dotIndex..])
    else
      (p, "")
  }

  /** os.path.join(a, b): an absolute b replaces a; otherwise b is appended
      with a "/" unless a is empty or already ends with one. */
  function Join(a: string, b: string): string {
    if |b| > 0 && b[0] == '/' then b
    else if a == "" || a[|a| - 1] == '/' then a + b
    else a + "/" + b
  }

  lemma JoinRelative(a: string, b: string)
    requires a != "" && a[|a| - 1] != '/'
    requires b == "" || b[0] != '/'
    ensures Join(a, b) == a + "/" + b
  {
  }

  lemma JoinAbsolute(a: string, b: string)
    requires b != "" && b[0] == '/'
    ensures Join(a, b) == b
  {
  }
}
