/** The static-file middleware's decision: it removes NUL characters from the raw
    request path, URI-decodes it, refuses any decoded path containing "..", resolves
    it under the base directory as POSIX `path.resolve` does, and refuses a
    resolution that does not start with the resolved base directory. What remains is
    a probe of the file system, whose outcome is a parameter here. */
module ServerStatic {
  import opened Wrappers
  import opened Js
  import opened Errors

  const ForbiddenMessage: string := "Доступ запрещён"

  // ---- decodeURIComponent ----

  /** The byte written as `%XY` at index `i` of `s`, if there is one. */
  function PercentByte(s: string, i: nat): (r: Option<nat>)
    ensures r.Some? ==> i + 3 <= |s| && s[i] == '%' && r.value < 256
  {
    if i + 3 <= |s| && s[i] == '%' && HexValue(s[i + 1]).Some? && HexValue(s[i + 2]).Some?
    then Some(16 * HexValue(s[i + 1]).value + HexValue(s[i + 2]).value)
    else None
  }

  /** The payload of a UTF-8 continuation byte `10xxxxxx` written as escape number
      `k` of `s`. */
  function Continuation(s: string, k: nat): (r: Option<nat>)
    ensures r.Some? ==> 3 * k + 3 <= |s| && r.value < 64
  {
    var b := PercentByte(s, 3 * k);
    if b.Some? && 0x80 <= b.value <= 0xBF then Some(b.value - 0x80) else None
  }

  /** A Unicode scalar value: what a `char` holds. */
  predicate IsScalar(cp: int)
  {
    (0 <= cp < 0xD800) || (0xE000 <= cp < 0x110000)
  }

  /** The character encoded in UTF-8 by the escapes at the start of `s`, and how
      many escapes it took. The leading byte fixes the count; a stray continuation
      byte, an overlong form, a surrogate or a value beyond U+10FFFF is malformed. */
  function DecodeSequence(s: string): (r: Result<(char, nat), Error>)
    requires PercentByte(s, 0).Some?
    ensures r.Success? ==> 1 <= r.value.1 <= 4 && 3 * r.value.1 <= |s|
    ensures r.Failure? ==> r.error == UriMalformed
  {
    var b := PercentByte(s, 0).value;
    if b < 0x80 then Success((b as char, 1))
    else if 0xC2 <= b <= 0xDF then
      var c1 := Continuation(s, 1);
      if c1.None? then Failure(UriMalformed)
      else Success((((b - 0xC0) * 64 + c1.value) as char, 2))
    else if 0xE0 <= b <= 0xEF then
      var c1 := Continuation(s, 1);
      var c2 := Continuation(s, 2);
      if c1.None? || c2.None? then Failure(UriMalformed)
      else
        var cp := (b - 0xE0) * 4096 + c1.value * 64 + c2.value;
        if cp < 0x800 || !IsScalar(cp) then Failure(UriMalformed) else Success((cp as char, 3))
    else if 0xF0 <= b <= 0xF4 then
      var c1 := Continuation(s, 1);
      var c2 := Continuation(s, 2);
      var c3 := Continuation(s, 3);
      if c1.None? || c2.None? || c3.None? then Failure(UriMalformed)
      else
        var cp := (b - 0xF0) * 262144 + c1.value * 4096 + c2.value * 64 + c3.value;
        if cp < 0x10000 || !IsScalar(cp) then Failure(UriMalformed) else Success((cp as char, 4))
    else Failure(UriMalformed)
  }

  /** `decodeURIComponent(s)`: every escape sequence is decoded, including those of
      reserved characters such as `/`, `.` and NUL; a `%` that does not start a
      well-formed UTF-8 escape sequence throws a URIError. */
  function DecodeURIComponent(s: string): (r: Result<string, Error>)
    ensures r.Failure? ==> r.error == UriMalformed
    ensures r.Success? ==> |r.value| <= |s|
    decreases |s|
  {
    if s == [] then Success([])
    else if s[0] != '%' then
      var rest := DecodeURIComponent(s[1..]);
      if rest.Failure? then rest else Success([s[0]] + rest.value)
    else if PercentByte(s, 0).None? then Failure(UriMalformed)
    else
      var d := DecodeSequence(s);
      if d.Failure? then Failure(UriMalformed)
      else
        var rest := DecodeURIComponent(s[3 * d.value.1..]);
        if rest.Failure? then rest else Success([d.value.0] + rest.value)
  }

  /** A path without '%' decodes to itself. */
  lemma {:induction false} DecodeWithoutEscapes(s: string)
    requires '%' !in s
    ensures DecodeURIComponent(s) == Success(s)
    decreases |s|
  {
    if s != [] {
      assert '%' !in s[1..] by {
        assert forall c :: c in s[1..] ==> c in s;
      }
      DecodeWithoutEscapes(s[1..]);
      assert s == [s[0]] + s[1..];
    }
  }

  /** A `%` that does not start an escape is a decoding error. */
  lemma LoneEscapeIsMalformed(s: string)
    requires s != [] && s[0] == '%' && PercentByte(s, 0).None?
    ensures DecodeURIComponent(s) == Failure(UriMalformed)
  {
  }

  // ---- the NUL strip ----

  const Nul: char := 0 as char

  /** `p.replace(/\0/g, '')`. */
  function StripNul(p: string): (r: string)
    ensures Nul !in r
    ensures multiset(r) == multiset(p)[Nul := 0]
  {
    RemoveAll(p, Nul)
  }

  /** Characters before the first '%' are copied through unchanged. */
  lemma {:induction false} DecodePlainPrefix(a: string, b: string)
    requires '%' !in a
    ensures DecodeURIComponent(a + b).Success? <==> DecodeURIComponent(b).Success?
    ensures DecodeURIComponent(b).Success? ==> DecodeURIComponent(a + b).value == a + DecodeURIComponent(b).value
    decreases |a|
  {
    if a == [] {
      assert a + b == b;
    } else {
      assert '%' !in a[1..] by {
        assert forall c :: c in a[1..] ==> c in a;
      }
      DecodePlainPrefix(a[1..], b);
      assert (a + b)[0] == a[0];
      assert (a + b)[1..] == a[1..] + b;
      if DecodeURIComponent(b).Success? {
        assert a == [a[0]] + a[1..];
      }
    }
  }

  /** The strip happens before decoding, so an escaped NUL `%00` comes through the
      decoding as a NUL character of the path that is resolved. */
  lemma EscapedNulSurvives(a: string, b: string)
    requires '%' !in a && '%' !in b && Nul !in a && Nul !in b
    ensures StripNul(a + "%00" + b) == a + "%00" + b
    ensures DecodeURIComponent(StripNul(a + "%00" + b)) == Success(a + [Nul] + b)
  {
    var s := "%00" + b;
    assert a + "%00" + b == a + s;
    assert Nul !in s;
    assert Nul !in a + s;
    assert PercentByte(s, 0) == Some(0);
    assert DecodeSequence(s) == Success((Nul, 1));
    assert s[3..] == b;
    DecodeWithoutEscapes(b);
    assert DecodeURIComponent(s) == Success([Nul] + b);
    DecodePlainPrefix(a, s);
    assert a + ([Nul] + b) == a + [Nul] + b;
  }

  // ---- POSIX path.resolve ----

  /** `s.split('/')`. */
  function Split(s: string): (r: seq<string>)
    ensures |r| >= 1
    decreases |s|
  {
    if s == [] then [""] else SplitCons(s[0], Split(s[1..]))
  }

  /** The segments of `[c] + s` from those of `s`: a '/' opens a new empty segment
      in front, any other character joins the first segment. */
  function SplitCons(c: char, rest: seq<string>): (r: seq<string>)
    requires |rest| >= 1
    ensures |r| >= 1
  {
    if c == '/' then [""] + rest else [[c] + rest[0]] + rest[1..]
  }

  /** The segment stack after the segments `segs`: empty segments and "." are
      skipped, ".." drops the last segment and stays put at the root. */
  function NormalizeFrom(stack: seq<string>, segs: seq<string>): (r: seq<string>)
    decreases |segs|
  {
    if segs == [] then stack
    else if segs[0] == "" || segs[0] == "." then NormalizeFrom(stack, segs[1..])
    else if segs[0] == ".." then NormalizeFrom(if stack == [] then [] else stack[..|stack| - 1], segs[1..])
    else NormalizeFrom(stack + [segs[0]], segs[1..])
  }

  /** The joined arguments as `path.resolve` sees them, read from the right until an
      absolute one is met, with `cwd` in front when none is. */
  function ResolveRaw(cwd: string, args: seq<string>): string
    decreases |args|
  {
    if args == [] then cwd
    else
      var last := args[|args| - 1];
      if last == "" then ResolveRaw(cwd, args[..|args| - 1])
      else if last[0] == '/' then last
      else ResolveRaw(cwd, args[..|args| - 1]) + "/" + last
  }

  /** The normalised segments of `path.resolve(...args)`. */
  function ResolvedSegments(cwd: string, args: seq<string>): seq<string>
  {
    NormalizeFrom([], Split(ResolveRaw(cwd, args)))
  }

  /** `path.resolve(...args)` with the working directory `cwd` (an absolute path):
      always absolute, without "." or ".." segments and without a trailing '/'. */
  function Resolve(cwd: string, args: seq<string>): (r: string)
    ensures |r| >= 1 && r[0] == '/'
  {
    "/" + Join(ResolvedSegments(cwd, args), "/")
  }

  lemma SplitPrepend(c: char, s: string)
    ensures Split([c] + s) == SplitCons(c, Split(s))
  {
    assert ([c] + s)[1..] == s;
  }

  /** Segments split off the front are not affected by what follows. */
  lemma SplitConsAppend(c: char, r: seq<string>, rb: seq<string>)
    requires |r| >= 1
    ensures SplitCons(c, r + rb) == SplitCons(c, r) + rb
  {
    if c == '/' {
      assert [""] + (r + rb) == ([""] + r) + rb;
    } else {
      assert (r + rb)[0] == r[0];
      assert (r + rb)[1..] == r[1..] + rb;
      assert [[c] + r[0]] + (r[1..] + rb) == ([[c] + r[0]] + r[1..]) + rb;
    }
  }

  /** One step of `SplitAround`'s induction: prepending a character to `a`. */
  lemma SplitAroundStep(c: char, t: string, b: string)
    requires Split(t + "/" + b) == Split(t) + Split(b)
    ensures Split([c] + t + "/" + b) == Split([c] + t) + Split(b)
  {
    assert [c] + t + "/" + b == [c] + (t + "/" + b);
    SplitPrepend(c, t + "/" + b);
    SplitPrepend(c, t);
    SplitConsAppend(c, Split(t), Split(b));
  }

  lemma {:induction false} SplitAround(a: string, b: string)
    ensures Split(a + "/" + b) == Split(a) + Split(b)
    decreases |a|
  {
    if a == [] {
      assert a + "/" + b == ['/'] + b;
      SplitPrepend('/', b);
    } else {
      SplitAround(a[1..], b);
      SplitAroundStep(a[0], a[1..], b);
      assert [a[0]] + a[1..] == a;
    }
  }

  /** Every segment of `Split(s)` is a substring of `s`; the first one is a prefix. */
  lemma {:induction false} SplitSegmentsOccur(s: string)
    ensures Split(s)[0] <= s
    ensures forall k :: 0 <= k < |Split(s)| ==> Includes(s, Split(s)[k])
    decreases |s|
  {
    if s != [] {
      var rest := Split(s[1..]);
      SplitSegmentsOccur(s[1..]);
      if s[0] != '/' {
        assert Split(s)[0] == [s[0]] + rest[0];
        assert rest[0] == s[1..][..|rest[0]|];
        assert [s[0]] + rest[0] == s[..|rest[0]| + 1];
      }
      forall k | 0 <= k < |Split(s)| ensures Includes(s, Split(s)[k]) {
        var seg := Split(s)[k];
        if s[0] != '/' && k == 0 {
          assert seg == [s[0]] + rest[0];
          assert s[0..|seg|] == seg;
          assert OccursAt(s, seg, 0);
        } else if s[0] == '/' && k == 0 {
          assert OccursAt(s, seg, 0);
        } else {
          var j := if s[0] == '/' then k - 1 else k;
          assert 0 <= j < |rest| && seg == rest[j];
          assert Includes(s[1..], seg);
          var i :| OccursAt(s[1..], seg, i);
          OccursInTail(s, seg, i);
        }
      }
    } else {
      assert OccursAt(s, Split(s)[0], 0);
    }
  }

  /** An occurrence in the tail of `s` is an occurrence in `s`, one place later. */
  lemma OccursInTail(s: string, sub: string, i: int)
    requires s != [] && OccursAt(s[1..], sub, i)
    ensures OccursAt(s, sub, i + 1)
  {
    assert s[1..][i..i + |sub|] == s[i + 1..i + 1 + |sub|];
  }

  /** A segment ".." can only come from a path that contains "..". */
  lemma DotDotSegmentNeedsDotDot(s: string)
    requires !Includes(s, "..")
    ensures forall k :: 0 <= k < |Split(s)| ==> Split(s)[k] != ".."
  {
    SplitSegmentsOccur(s);
  }

  lemma {:induction false} NormalizeConcat(stack: seq<string>, a: seq<string>, b: seq<string>)
    ensures NormalizeFrom(stack, a + b) == NormalizeFrom(NormalizeFrom(stack, a), b)
    decreases |a|
  {
    if a == [] {
      assert a + b == b;
    } else {
      assert (a + b)[0] == a[0];
      assert (a + b)[1..] == a[1..] + b;
      var next := if a[0] == "" || a[0] == "." then stack
        else if a[0] == ".." then (if stack == [] then [] else stack[..|stack| - 1])
        else stack + [a[0]];
      NormalizeConcat(next, a[1..], b);
    }
  }

  /** Without ".." segments, normalising only ever pushes onto the stack. */
  lemma {:induction false} NormalizeWithoutDotDot(stack: seq<string>, segs: seq<string>)
    requires forall k :: 0 <= k < |segs| ==> segs[k] != ".."
    ensures stack <= NormalizeFrom(stack, segs)
    decreases |segs|
  {
    if segs != [] {
      var next := if segs[0] == "" || segs[0] == "." then stack else stack + [segs[0]];
      NormalizeWithoutDotDot(next, segs[1..]);
    }
  }

  lemma {:induction false} JoinPrefix(a: seq<string>, b: seq<string>, sep: string)
    ensures Join(a, sep) <= Join(a + b, sep)
    decreases |a|
  {
    if |a| == 1 {
      if b != [] {
        assert (a + b)[1..] == b;
      } else {
        assert a + b == a;
      }
    } else if |a| > 1 {
      assert (a + b)[1..] == a[1..] + b;
      JoinPrefix(a[1..], b, sep);
    }
  }

  // ---- the decision ----

  /** What the middleware does before touching the file system: answer 403, pass an
      error to `next`, or probe the resolved path. */
  datatype Gate = Forbidden | PassError(error: Error) | Probe(path: string)

  /** `serveStatic(baseDir)` on `req.path`, up to the `fs.access` call. */
  function StaticGate(cwd: string, baseDir: string, reqPath: string): (g: Gate)
    ensures g.PassError? ==> g.error == UriMalformed && DecodeURIComponent(StripNul(reqPath)).Failure?
    ensures DecodeURIComponent(StripNul(reqPath)).Success? && Includes(DecodeURIComponent(StripNul(reqPath)).value, "..")
      ==> g == Forbidden
    ensures g.Probe? ==> StartsWith(g.path, Resolve(cwd, [baseDir]))
    ensures g.Probe? ==> DecodeURIComponent(StripNul(reqPath)).Success? && g.path == Resolve(cwd, [baseDir, "." + DecodeURIComponent(StripNul(reqPath)).value])
  {
    var decoded := DecodeURIComponent(StripNul(reqPath));
    if decoded.Failure? then PassError(decoded.error)
    else
      var safePath := decoded.value;
      if Includes(safePath, "..") then Forbidden
      else
        var resolvedPath := Resolve(cwd, [baseDir, "." + safePath]);
        if !StartsWith(resolvedPath, Resolve(cwd, [baseDir])) then Forbidden
        else Probe(resolvedPath)
  }

  /** What follows a probe: the file is sent when it exists, and otherwise the
      request falls through to `next()` with no error. */
  datatype Outcome = Respond403(message: string) | NextWithError(error: Error) | NextWithoutError | SendFile(path: string)

  function ServeStatic(cwd: string, baseDir: string, reqPath: string, fileExists: string -> bool): (o: Outcome)
    ensures o.SendFile? ==> fileExists(o.path) && StartsWith(o.path, Resolve(cwd, [baseDir]))
    ensures o.NextWithoutError? <==> StaticGate(cwd, baseDir, reqPath).Probe? && !fileExists(StaticGate(cwd, baseDir, reqPath).path)
    ensures o.Respond403? <==> StaticGate(cwd, baseDir, reqPath).Forbidden?
    ensures o.Respond403? ==> o.message == ForbiddenMessage
  {
    match StaticGate(cwd, baseDir, reqPath)
    case Forbidden => Respond403(ForbiddenMessage)
    case PassError(e) => NextWithError(e)
    case Probe(p) => if fileExists(p) then SendFile(p) else NextWithoutError
  }

  /** A decoding failure reaches `next` as an error, which the error handler answers
      with 500, not with 403. */
  lemma DecodingFailureIsNotForbidden(cwd: string, baseDir: string, reqPath: string, fileExists: string -> bool)
    requires DecodeURIComponent(StripNul(reqPath)).Failure?
    ensures ServeStatic(cwd, baseDir, reqPath, fileExists) == NextWithError(UriMalformed)
  {
  }

  /** ".." anywhere in the decoded path is refused, also inside a segment name such
      as "a..b". */
  lemma DotsAnywhereAreRefused(cwd: string, baseDir: string, a: string, b: string)
    requires '%' !in a && '%' !in b && Nul !in a && Nul !in b
    ensures StaticGate(cwd, baseDir, a + ".." + b) == Forbidden
  {
    var p := a + ".." + b;
    assert '%' !in p && Nul !in p;
    assert StripNul(p) == p;
    DecodeWithoutEscapes(p);
    assert p[|a|..|a| + 2] == "..";
    assert OccursAt(p, "..", |a|);
  }

  /** For a decoded path without ".." that does not itself start with '.', the
      resolution lies segment by segment under the resolved base directory, so the
      second 403 branch is never taken. */
  lemma ResolutionStaysUnderBase(cwd: string, baseDir: string, safePath: string)
    requires !Includes(safePath, "..")
    requires safePath == [] || safePath[0] != '.'
    ensures exists ext :: ResolvedSegments(cwd, [baseDir, "." + safePath]) == ResolvedSegments(cwd, [baseDir]) + ext
    ensures StartsWith(Resolve(cwd, [baseDir, "." + safePath]), Resolve(cwd, [baseDir]))
  {
    var baseSegs, full := ResolvedSegments(cwd, [baseDir]), ResolvedSegments(cwd, [baseDir, "." + safePath]);
    ResolvedSegmentsExtend(cwd, baseDir, safePath);
    var ext := full[|baseSegs|..];
    assert full == baseSegs + ext;
    JoinPrefix(baseSegs, ext, "/");
    PrefixAfterSlash(Join(baseSegs, "/"), Join(full, "/"));
  }

  lemma PrefixAfterSlash(a: string, b: string)
    requires a <= b
    ensures "/" + a <= "/" + b
  {
  }

  /** The segments of the resolved base directory are a prefix of the segments of
      the resolved request path. */
  lemma ResolvedSegmentsExtend(cwd: string, baseDir: string, safePath: string)
    requires !Includes(safePath, "..")
    requires safePath == [] || safePath[0] != '.'
    ensures ResolvedSegments(cwd, [baseDir]) <= ResolvedSegments(cwd, [baseDir, "." + safePath])
  {
    var rel := "." + safePath;
    assert [baseDir, rel][..1] == [baseDir];
    var base := ResolveRaw(cwd, [baseDir]);
    assert ResolveRaw(cwd, [baseDir, rel]) == base + "/" + rel;
    SplitAround(base, rel);
    assert rel[1..] == safePath;
    assert !Includes(rel, "..");
    DotDotSegmentNeedsDotDot(rel);
    var baseSegs := NormalizeFrom([], Split(base));
    NormalizeConcat([], Split(base), Split(rel));
    NormalizeWithoutDotDot(baseSegs, Split(rel));
  }

  lemma {:induction false} SplitWithoutSlash(s: string)
    requires '/' !in s
    ensures Split(s) == [s]
    decreases |s|
  {
    if s != [] {
      assert '/' !in s[1..] by {
        assert forall c :: c in s[1..] ==> c in s;
      }
      SplitWithoutSlash(s[1..]);
      assert s == [s[0]] + s[1..];
    }
  }

  /** Normalising keeps every segment non-empty. */
  lemma {:induction false} NormalizeNonEmpty(stack: seq<string>, segs: seq<string>)
    requires forall k :: 0 <= k < |stack| ==> stack[k] != ""
    ensures forall k :: 0 <= k < |NormalizeFrom(stack, segs)| ==> NormalizeFrom(stack, segs)[k] != ""
    decreases |segs|
  {
    if segs != [] {
      var next := if segs[0] == "" || segs[0] == "." then stack
        else if segs[0] == ".." then (if stack == [] then [] else stack[..|stack| - 1])
        else stack + [segs[0]];
      NormalizeNonEmpty(next, segs[1..]);
    }
  }

  lemma {:induction false} JoinSnoc(a: seq<string>, x: string, sep: string)
    requires a != []
    ensures Join(a + [x], sep) == Join(a, sep) + sep + x
    decreases |a|
  {
    if |a| == 1 {
      assert (a + [x])[1..] == [x];
    } else {
      assert (a + [x])[1..] == a[1..] + [x];
      JoinSnoc(a[1..], x, sep);
    }
  }

  /** For a path that does not start with "/", the "." + path form can leave the
      base directory: the decoded path "." has no "..", yet it resolves to the
      parent of the base directory, which only the prefix test refuses. */
  lemma DotPathReachesParent(cwd: string, baseDir: string)
    requires ResolvedSegments(cwd, [baseDir]) != []
    ensures ResolvedSegments(cwd, [baseDir, "." + "."]) ==
      ResolvedSegments(cwd, [baseDir])[..|ResolvedSegments(cwd, [baseDir])| - 1]
    ensures |Resolve(cwd, [baseDir, "." + "."])| < |Resolve(cwd, [baseDir])|
  {
    var rel := "." + ".";
    assert rel == "..";
    assert [baseDir, rel][..1] == [baseDir];
    var raw := ResolveRaw(cwd, [baseDir]);
    assert ResolveRaw(cwd, [baseDir, rel]) == raw + "/" + rel;
    SplitAround(raw, rel);
    SplitWithoutSlash(rel);
    var n := NormalizeFrom([], Split(raw));
    NormalizeConcat([], Split(raw), [rel]);
    assert NormalizeFrom(n, [rel]) == NormalizeFrom(n[..|n| - 1], []);
    var parent := n[..|n| - 1];
    assert ResolvedSegments(cwd, [baseDir, rel]) == parent;
    NormalizeNonEmpty([], Split(raw));
    assert n == parent + [n[|n| - 1]];
    if parent != [] {
      JoinSnoc(parent, n[|n| - 1], "/");
    }
    assert |Join(parent, "/")| < |Join(n, "/")|;
  }

  /** ... and the gate refuses that path at the prefix test; such a path never
      reaches a middleware mounted at the root (see `RootedPathSkipsPrefixTest`). */
  lemma DotPathIsForbidden(cwd: string, baseDir: string)
    requires ResolvedSegments(cwd, [baseDir]) != []
    ensures !StartsWith(Resolve(cwd, [baseDir, "." + "."]), Resolve(cwd, [baseDir]))
    ensures StaticGate(cwd, baseDir, ".") == Forbidden
  {
    DotPathReachesParent(cwd, baseDir);
    assert Nul !in ".";
    assert StripNul(".") == ".";
    assert '%' !in ".";
    DecodeWithoutEscapes(".");
    assert !Includes(".", "..");
  }

  /** A middleware mounted at the root sees request paths that start with "/".
      For those, the prefix test never refuses: the gate answers 403 exactly when
      the decoded path contains "..". */
  lemma RootedPathSkipsPrefixTest(cwd: string, baseDir: string, reqPath: string)
    requires reqPath != [] && reqPath[0] == '/'
    ensures StaticGate(cwd, baseDir, reqPath) == Forbidden <==>
      DecodeURIComponent(StripNul(reqPath)).Success? && Includes(DecodeURIComponent(StripNul(reqPath)).value, "..")
  {
    var head, tail := reqPath[..1], reqPath[1..];
    assert reqPath == head + tail;
    RemoveAllConcat(head, tail, Nul);
    assert RemoveAll(head, Nul) == head;
    DecodePlainPrefix(head, RemoveAll(tail, Nul));
    var decoded := DecodeURIComponent(StripNul(reqPath));
    if decoded.Success? && !Includes(decoded.value, "..") {
      assert decoded.value[0] == '/';
      ResolutionStaysUnderBase(cwd, baseDir, decoded.value);
    }
  }
}
