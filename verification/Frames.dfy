/** What a connection's byte stream means: one left-to-right cut into command lines, job
    bodies, discarded bodies and overlong lines. */
module Frames {
  import opened Lists

  type Byte = x: int | 0 <= x < 256

  const CR: Byte := 13
  const LF: Byte := 10
  const LINE_BUF_SIZE: nat := 208

  /** What do_cmd makes of a line: answered at once, a put whose body (with its trailer) has n
      bytes, or a refused put whose n bytes are thrown away. */
  datatype Kind = Plain | Body(n: nat) | Skip(n: nat)

  type Classifier = seq<Byte> -> Kind

  datatype Frame =
    | Line(line: seq<Byte>)
    | Put(line: seq<Byte>, body: seq<Byte>)
    | Skipped(line: seq<Byte>, junk: seq<Byte>)
    | Overlong(junk: seq<Byte>)

  function Bytes(f: Frame): seq<Byte> {
    match f
    case Line(line) => line
    case Put(line, body) => line + body
    case Skipped(line, junk) => line + junk
    case Overlong(junk) => junk
  }

  /** scan_eol: only the first CR counts, and never one in the last place. */
  function ScanEol(s: seq<Byte>): (n: nat)
    ensures n == 0 || 2 <= n <= |s|
  {
    if s == [] then 0
    else
      var i := Find(s[..|s| - 1], CR);
      if i < |s| - 1 && s[i + 1] == LF then i + 2 else 0
  }

  /** A line ends in CR LF, and that CR is the first one; without one there is no line, even if a CR LF
      comes later. */
  lemma ScanEolExact(s: seq<Byte>)
    ensures ScanEol(s) > 0 ==> var n := ScanEol(s); s[n - 2] == CR && s[n - 1] == LF && CR !in s[..n - 2]
    ensures ScanEol(s) == 0 ==> forall i :: 0 <= i < |s| - 1 && s[i] == CR && s[i + 1] == LF ==> CR in s[..i]
  {
    if s != [] {
      var line := s[..|s| - 1];
      var i := Find(line, CR);
      assert line[..i] == s[..i];
      forall k | 0 <= k < |line| && s[k] == CR && k != i ensures CR in s[..k] {
        assert line[k] == CR && i < k;
        assert s[..k][i] == CR;
      }
    }
  }

  /** The frame at the front of a stream, once all of it is there. */
  datatype Front = Incomplete | Complete(value: Frame)

  /** The line at the front of s, if it is complete and fits the buffer. */
  function LineLength(s: seq<Byte>): (n: nat)
    ensures n == 0 || 2 <= n <= |s|
  {
    ScanEol(if |s| <= LINE_BUF_SIZE then s else s[..LINE_BUF_SIZE])
  }

  /** The frame that starts with the line of n bytes at the front of s, once all of it is there. */
  function Framed(kind: Kind, s: seq<Byte>, n: nat): (r: Front)
    requires 0 < n <= |s|
    ensures r.Complete? ==> 0 < |Bytes(r.value)| <= |s| && Bytes(r.value) == s[..|Bytes(r.value)|]
  {
    match kind
    case Plain => Complete(Line(s[..n]))
    case Body(k) => if |s| < n + k then Incomplete else Complete(Put(s[..n], s[n..n + k]))
    case Skip(k) => if |s| < n + k then Incomplete else Complete(Skipped(s[..n], s[n..n + k]))
  }

  /** The first complete frame of s. */
  function Next(cl: Classifier, s: seq<Byte>): (r: Front)
    ensures r.Complete? ==> 0 < |Bytes(r.value)| <= |s| && Bytes(r.value) == s[..|Bytes(r.value)|]
  {
    var n := LineLength(s);
    if n > 0 then Framed(cl(s[..n - 2]), s, n)
    else if |s| >= LINE_BUF_SIZE then Complete(Overlong(s[..LINE_BUF_SIZE]))
    else Incomplete
  }

  /** All complete frames of s. */
  function Parse(cl: Classifier, s: seq<Byte>): seq<Frame>
    decreases |s|
  {
    match Next(cl, s)
    case Incomplete => []
    case Complete(f) => [f] + Parse(cl, s[|Bytes(f)|..])
  }

  /** s starts with the frames fs, and rest is what follows them. */
  ghost predicate Cut(cl: Classifier, s: seq<Byte>, fs: seq<Frame>, rest: seq<Byte>)
    decreases |fs|
  {
    if fs == [] then s == rest
    else Next(cl, s) == Complete(fs[0]) && Cut(cl, s[|Bytes(fs[0])|..], fs[1..], rest)
  }

  lemma ScanStable(s: seq<Byte>, t: seq<Byte>)
    requires ScanEol(s) > 0
    ensures ScanEol(s + t) == ScanEol(s)
  {
    var a, b := s[..|s| - 1], (s + t)[..|s + t| - 1];
    var i := Find(a, CR);
    assert b[..i] == a[..i] && b[i] == a[i];
    FirstHit(b, CR, i);
  }

  lemma LineStable(s: seq<Byte>, t: seq<Byte>)
    requires LineLength(s) > 0 || |s| >= LINE_BUF_SIZE
    ensures LineLength(s + t) == LineLength(s)
  {
    if |s| >= LINE_BUF_SIZE {
      assert (s + t)[..LINE_BUF_SIZE] == s[..LINE_BUF_SIZE];
      assert |s| == LINE_BUF_SIZE ==> s == s[..LINE_BUF_SIZE];
    } else {
      var u := if |s + t| <= LINE_BUF_SIZE then t else t[..LINE_BUF_SIZE - |s|];
      assert s + u == if |s + t| <= LINE_BUF_SIZE then s + t else (s + t)[..LINE_BUF_SIZE];
      ScanStable(s, u);
    }
  }

  lemma SliceStable(s: seq<Byte>, t: seq<Byte>, a: nat, b: nat)
    requires a <= b <= |s|
    ensures (s + t)[a..b] == s[a..b] && (a == 0 ==> (s + t)[..b] == s[..b])
  {}

  /** Bytes that arrive later do not change a frame that is complete. */
  lemma NextStable(cl: Classifier, s: seq<Byte>, t: seq<Byte>)
    requires Next(cl, s).Complete?
    ensures Next(cl, s + t) == Next(cl, s)
  {
    LineStable(s, t);
    hide LineLength, Bytes, Framed;
    var n := LineLength(s);
    if n > 0 {
      SliceStable(s, t, 0, n - 2);
      FramedStable(cl(s[..n - 2]), s, t, n);
    } else {
      SliceStable(s, t, 0, LINE_BUF_SIZE);
    }
  }

  lemma FramedStable(kind: Kind, s: seq<Byte>, t: seq<Byte>, n: nat)
    requires 0 < n <= |s| && Framed(kind, s, n).Complete?
    ensures Framed(kind, s + t, n) == Framed(kind, s, n)
  {
    hide Bytes;
    SliceStable(s, t, 0, n);
    match kind
    case Plain =>
    case Body(k) => SliceStable(s, t, n, n + k);
    case Skip(k) => SliceStable(s, t, n, n + k);
  }

  lemma {:induction false} CutMore(cl: Classifier, s: seq<Byte>, fs: seq<Frame>, rest: seq<Byte>, t: seq<Byte>)
    requires Cut(cl, s, fs, rest)
    ensures Cut(cl, s + t, fs, rest + t)
    decreases |fs|
  {
    hide Next, Bytes;
    if fs != [] {
      NextStable(cl, s, t);
      var k := |Bytes(fs[0])|;
      CutMore(cl, s[k..], fs[1..], rest, t);
      assert (s + t)[k..] == s[k..] + t;
    }
  }

  lemma {:induction false} CutOne(cl: Classifier, s: seq<Byte>, fs: seq<Frame>, rest: seq<Byte>, f: Frame)
    requires Cut(cl, s, fs, rest) && Next(cl, rest) == Complete(f)
    ensures Cut(cl, s, fs + [f], rest[|Bytes(f)|..])
    decreases |fs|
  {
    hide Next, Bytes;
    if fs == [] {
      assert Cut(cl, s[|Bytes(f)|..], [], rest[|Bytes(f)|..]);
    } else {
      CutOne(cl, s[|Bytes(fs[0])|..], fs[1..], rest, f);
      assert (fs + [f])[1..] == fs[1..] + [f];
    }
  }

  /** A cut is the beginning of the parse, and the rest of the parse is that of the rest. */
  lemma {:induction false} CutIsParse(cl: Classifier, s: seq<Byte>, fs: seq<Frame>, rest: seq<Byte>)
    requires Cut(cl, s, fs, rest)
    ensures Parse(cl, s) == fs + Parse(cl, rest)
    decreases |fs|
  {
    hide Next, Bytes;
    if fs != [] {
      CutIsParse(cl, s[|Bytes(fs[0])|..], fs[1..], rest);
      assert [fs[0]] + (fs[1..] + Parse(cl, rest)) == fs + Parse(cl, rest);
    } else {
      assert fs + Parse(cl, rest) == Parse(cl, rest);
    }
  }

  ghost function Flatten(fs: seq<Frame>): seq<Byte> {
    if fs == [] then [] else Bytes(fs[0]) + Flatten(fs[1..])
  }

  /** Nothing is lost or repeated: the frames and the rest are the stream. */
  lemma {:induction false} CutCovers(cl: Classifier, s: seq<Byte>, fs: seq<Frame>, rest: seq<Byte>)
    requires Cut(cl, s, fs, rest)
    ensures s == Flatten(fs) + rest
    decreases |fs|
  {
    hide Next, Bytes;
    if fs != [] {
      var k := |Bytes(fs[0])|;
      CutCovers(cl, s[k..], fs[1..], rest);
      assert s == s[..k] + s[k..];
    }
  }

  lemma PrefixesAgree<T>(a: seq<T>, b: seq<T>, all: seq<T>)
    requires a <= all && b <= all
    ensures a <= b || b <= a
  {
    assert a == all[..|a|] && b == all[..|b|];
    assert |a| <= |b| ==> a == b[..|a|];
    assert |b| <= |a| ==> b == a[..|b|];
  }

  /** Bytes that arrive later only append frames. */
  lemma ParseGrows(cl: Classifier, s: seq<Byte>, t: seq<Byte>)
    ensures Parse(cl, s) <= Parse(cl, s + t)
  {
    var fs, rest := ParseRest(cl, s);
    CutMore(cl, s, fs, rest, t);
    CutIsParse(cl, s + t, fs, rest + t);
  }

  lemma {:induction false} ParseRest(cl: Classifier, s: seq<Byte>) returns (fs: seq<Frame>, rest: seq<Byte>)
    ensures fs == Parse(cl, s) && Cut(cl, s, fs, rest) && Next(cl, rest) == Incomplete
    decreases |s|
  {
    match Next(cl, s)
    case Incomplete =>
      fs, rest := [], s;
    case Complete(f) =>
      fs, rest := ParseRest(cl, s[|Bytes(f)|..]);
      assert ([f] + fs)[1..] == fs;
      fs := [f] + fs;
  }

  /** A line by itself is recognised at its full length. */
  lemma LineAlone(s: seq<Byte>)
    requires LineLength(s) > 0
    ensures LineLength(s[..LineLength(s)]) == LineLength(s)
  {
    var n := LineLength(s);
    var w := if |s| <= LINE_BUF_SIZE then s else s[..LINE_BUF_SIZE];
    var i := Find(w[..|w| - 1], CR);
    assert n == i + 2 && s[..n] == w[..n];
    assert w[..n][..n - 1][..i] == w[..|w| - 1][..i];
    FirstHit(w[..n][..n - 1], CR, i);
  }

  /** A line followed by as many bytes as its kind asks for is one frame. */
  lemma WholeFrame(cl: Classifier, line: seq<Byte>, rest: seq<Byte>, more: seq<Byte>)
    requires |line| > 0 && LineLength(line) == |line|
    ensures var kind := cl(line[..|line| - 2]);
            && (kind == Body(|rest|) ==> Next(cl, line + rest + more) == Complete(Put(line, rest)))
            && (kind == Skip(|rest|) ==> Next(cl, line + rest + more) == Complete(Skipped(line, rest)))
            && (kind == Plain && rest == [] ==> Next(cl, line + rest + more) == Complete(Line(line)))
  {
    var s := line + rest + more;
    var n := |line|;
    assert s == line + (rest + more);
    LineStable(line, rest + more);
    assert s[..n] == line && s[..n - 2] == line[..n - 2] && s[n..n + |rest|] == rest;
    hide LineLength;
  }

  /** One more frame, when the pending bytes are a whole frame and what follows it. */
  lemma CutFrame(cl: Classifier, s: seq<Byte>, fs: seq<Frame>, f: Frame, more: seq<Byte>)
    requires Cut(cl, s, fs, Bytes(f) + more) && Next(cl, Bytes(f) + more) == Complete(f)
    ensures Cut(cl, s, fs + [f], more)
  {
    hide *;
    CutOne(cl, s, fs, Bytes(f) + more, f);
    assert (Bytes(f) + more)[|Bytes(f)|..] == more;
  }

  lemma OverlongFrame(cl: Classifier, s: seq<Byte>)
    requires |s| == LINE_BUF_SIZE && ScanEol(s) == 0
    ensures Next(cl, s) == Complete(Overlong(s))
  {
    assert s[..LINE_BUF_SIZE] == s;
    hide ScanEol;
  }

  lemma LineLengthIs(s: seq<Byte>)
    requires |s| <= LINE_BUF_SIZE
    ensures LineLength(s) == ScanEol(s)
  {}
}
