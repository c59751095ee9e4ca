/** Names in metric prefixes: the plan compiler's labels, and the engine's name for itself. */
module Labels {

  /** What unicode.ToLower makes of a character outside ASCII. */
  type Fold = char -> char

  function AsciiLower(c: char): char {
    if 'A' <= c <= 'Z' then c - 'A' + 'a' else c
  }

  predicate Ascii(s: string) {
    forall i | 0 <= i < |s| :: s[i] < 128 as char
  }

  function Lower(s: string, fold: Fold): (t: string)
    ensures |t| == |s|
  {
    seq(|s|, i requires 0 <= i < |s| => if s[i] < 128 as char then AsciiLower(s[i]) else fold(s[i]))
  }

  predicate Keeps(c: char) {
    'a' <= c <= 'z' || '0' <= c <= '9' || c == '_'
  }

  predicate AllKept(s: string) {
    forall i | 0 <= i < |s| :: Keeps(s[i])
  }

  /** A number as it is printed. */
  function Digits(n: nat): (s: string)
    ensures s != "" && AllKept(s)
  {
    if n < 10 then ["0123456789"[n]] else Digits(n / 10) + ["0123456789"[n % 10]]
  }

  lemma DigitsLength(n: nat)
    ensures |Digits(n)| == 1 <==> n < 10
  {
  }

  /** A number is the only one with its digits. */
  lemma {:induction false} DigitsDiffer(a: nat, b: nat)
    requires Digits(a) == Digits(b)
    ensures a == b
  {
    DigitsLength(a);
    DigitsLength(b);
    var s := Digits(a);
    if a < 10 {
      assert s == ["0123456789"[a]] && s == ["0123456789"[b]];
    } else {
      assert s[..|s| - 1] == Digits(a / 10) == Digits(b / 10);
      assert s[|s| - 1] == "0123456789"[a % 10] == "0123456789"[b % 10];
      DigitsDiffer(a / 10, b / 10);
    }
  }

  // ----- One run of characters, reduced -----

  /** What is left of a lower-case string behind `out`, when a run of other characters is pending or not:
      every run becomes one underscore, and only between two characters that are kept. */
  function Reduce(s: string, out: string, pending: bool): string
    decreases |s|
  {
    if s == "" then out
    else if Keeps(s[0]) then Reduce(s[1..], (if pending && out != "" then out + "_" else out) + [s[0]], false)
    else Reduce(s[1..], out, true)
  }

  /** `Live Metrics` is `live_metrics`. */
  function Segment(s: string, fold: Fold): string {
    Reduce(Lower(s, fold), "", false)
  }

  function Split(s: string): (parts: seq<string>)
    ensures |parts| > 0
    decreases |s|
  {
    var i := FirstSlash(s);
    if i == |s| then [s] else [s[..i]] + Split(s[i + 1..])
  }

  function FirstSlash(s: string): (i: nat)
    ensures i <= |s| && (i < |s| ==> s[i] == '/') && '/' !in s[..i]
  {
    if s == "" || s[0] == '/' then 0 else 1 + FirstSlash(s[1..])
  }

  function Segments(parts: seq<string>, fold: Fold): seq<string> {
    if parts == [] then []
    else
      var last := Segment(parts[|parts| - 1], fold);
      Segments(parts[..|parts| - 1], fold) + if last == "" then [] else [last]
  }

  /** The segments of a label, those that reduce to nothing left out. */
  function LabelSegments(s: string, fold: Fold): seq<string> {
    Segments(Split(s), fold)
  }

  method StatsLabel(s: string, fold: Fold) returns (out: seq<string>)
    ensures out == LabelSegments(s, fold)
  {
    out := [];
    var parts := Split(s);
    for k := 0 to |parts|
      invariant out == Segments(parts[..k], fold)
    {
      var text := Lower(parts[k], fold);
      var b, pending := "", false;
      for i := 0 to |text|
        invariant Reduce(text, "", false) == Reduce(text[i..], b, pending)
      {
        if Keeps(text[i]) {
          if pending && |b| > 0 {
            b := b + "_";
          }
          pending := false;
          b := b + [text[i]];
        } else {
          pending := true;
        }
        assert text[i..][1..] == text[i + 1..];
      }
      assert text[|text|..] == "";
      if |b| > 0 {
        out := out + [b];
      }
      assert parts[..k + 1][..k] == parts[..k];
    }
    assert parts[..|parts|] == parts;
  }

  function Join(parts: seq<string>, sep: string): string {
    if parts == [] then ""
    else if |parts| == 1 then parts[0]
    else Join(parts[..|parts| - 1], sep) + sep + parts[|parts| - 1]
  }

  // ----- The engine's sanitizer -----

  function LowerAscii(s: string): (t: string)
    ensures |t| == |s|
  {
    seq(|s|, i requires 0 <= i < |s| => AsciiLower(s[i]))
  }

  function Sanitized(name: string): string {
    Reduce(LowerAscii(name), "", false)
  }

  method SanitizeBackendName(name: string) returns (out: string)
    ensures out == Sanitized(name)
  {
    out := "";
    var pending := false;
    ghost var text := LowerAscii(name);
    for i := 0 to |name|
      invariant Reduce(text, "", false) == Reduce(text[i..], out, pending)
    {
      var lower := AsciiLower(name[i]);
      if Keeps(lower) {
        if pending && out != "" {
          out := out + "_";
        }
        pending := false;
        out := out + [lower];
      } else {
        pending := true;
      }
      assert text[i..][1..] == text[i + 1..];
    }
    assert text[|text|..] == "";
  }

  // ----- Reduction, piece by piece -----

  lemma {:induction false} ReduceKept(s: string, out: string, pending: bool)
    requires AllKept(out)
    ensures AllKept(Reduce(s, out, pending))
    ensures out != "" ==> Reduce(s, out, pending) != ""
    decreases |s|
  {
    if s != "" {
      if Keeps(s[0]) {
        ReduceKept(s[1..], (if pending && out != "" then out + "_" else out) + [s[0]], false);
      } else {
        ReduceKept(s[1..], out, true);
      }
    }
  }

  /** Text in front of something non-empty stays in front. */
  lemma {:induction false} ReduceBehind(s: string, front: string, out: string, pending: bool)
    requires out != ""
    ensures Reduce(s, front + out, pending) == front + Reduce(s, out, pending)
    decreases |s|
  {
    if s != "" {
      if Keeps(s[0]) {
        var out1 := (if pending then out + "_" else out) + [s[0]];
        ReduceBehind(s[1..], front, out1, false);
        assert front + out1 == (if pending then front + out + "_" else front + out) + [s[0]];
      } else {
        ReduceBehind(s[1..], front, out, true);
      }
    }
  }

  /** A pending run before the first kept character leaves no trace, and one behind something leaves one
      underscore, if anything is kept after it. */
  lemma {:induction false} ReduceAfterRun(s: string, out: string)
    ensures Reduce(s, "", true) == Reduce(s, "", false)
    ensures out != "" ==>
      Reduce(s, out, true) == var rest := Reduce(s, "", false); if rest == "" then out else out + "_" + rest
    decreases |s|
  {
    if s != "" {
      if Keeps(s[0]) {
        var c := [s[0]];
        if out != "" {
          ReduceBehind(s[1..], out + "_", c, false);
        }
        assert "" + c == c;
        ReduceKept(s[1..], c, false);
      } else {
        ReduceAfterRun(s[1..], out);
      }
    }
  }

  lemma {:induction false} ReduceAcrossSlash(x: string, y: string, out: string, pending: bool)
    ensures Reduce(x + "/" + y, out, pending) == Reduce(y, Reduce(x, out, pending), true)
    decreases |x|
  {
    var s := x + "/" + y;
    if x == "" {
      assert s == "/" + y && s[1..] == y;
    } else {
      assert s[1..] == x[1..] + "/" + y;
      if Keeps(x[0]) {
        ReduceAcrossSlash(x[1..], y, (if pending && out != "" then out + "_" else out) + [x[0]], false);
      } else {
        ReduceAcrossSlash(x[1..], y, out, true);
      }
    }
  }

  /** What is kept is left as it is. */
  lemma {:induction false} ReduceKeepsAll(s: string, out: string)
    requires AllKept(s)
    ensures Reduce(s, out, false) == out + s
    decreases |s|
  {
    if s == "" {
      assert out + s == out;
    } else {
      ReduceKeepsAll(s[1..], out + [s[0]]);
      assert out + [s[0]] + s[1..] == out + s;
    }
  }

  // ----- The two sanitizers agree -----

  lemma {:induction false} JoinPrepend(x: string, xs: seq<string>, sep: string)
    ensures Join([x] + xs, sep) == if xs == [] then x else x + sep + Join(xs, sep)
  {
    if xs == [] {
      assert [x] + xs == [x];
    } else {
      var k := |xs| - 1;
      assert ([x] + xs)[..k + 1] == [x] + xs[..k];
      JoinPrepend(x, xs[..k], sep);
      if k == 0 {
        assert xs[..k] == [];
      }
    }
  }

  lemma {:induction false} SegmentsPrepend(a: string, parts: seq<string>, fold: Fold)
    ensures Segments([a] + parts, fold)
            == (if Segment(a, fold) == "" then [] else [Segment(a, fold)]) + Segments(parts, fold)
  {
    if parts == [] {
      assert [a] + parts == [a] && [a][..0] == [];
    } else {
      var k := |parts| - 1;
      assert ([a] + parts)[..k + 1] == [a] + parts[..k];
      SegmentsPrepend(a, parts[..k], fold);
    }
  }

  lemma {:induction false} SegmentsNotEmpty(parts: seq<string>, fold: Fold)
    ensures forall i | 0 <= i < |Segments(parts, fold)| ::
      Segments(parts, fold)[i] != "" && AllKept(Segments(parts, fold)[i])
  {
    if parts != [] {
      SegmentsNotEmpty(parts[..|parts| - 1], fold);
      ReduceKept(Lower(parts[|parts| - 1], fold), "", false);
    }
  }

  lemma {:induction false} FirstSlashAcross(a: string, b: string)
    ensures FirstSlash(a + "/" + b) == FirstSlash(a)
  {
    var s := a + "/" + b;
    if a != "" && a[0] != '/' {
      assert s[1..] == a[1..] + "/" + b;
      FirstSlashAcross(a[1..], b);
    }
  }

  lemma SplitFirst(s: string)
    ensures var i := FirstSlash(s); Split(s) == if i == |s| then [s] else [s[..i]] + Split(s[i + 1..])
  {
    hide FirstSlash;
  }

  lemma {:induction false} SplitAcross(a: string, b: string)
    ensures Split(a + "/" + b) == Split(a) + Split(b)
    decreases |a|
  {
    hide *;
    var s, i := a + "/" + b, FirstSlash(a);
    FirstSlashAcross(a, b);
    SplitFirst(s);
    SplitFirst(a);
    if i == |a| {
      assert s[..i] == a && s[i + 1..] == b;
    } else {
      assert s[..i] == a[..i] && s[i + 1..] == a[i + 1..] + "/" + b;
      SplitAcross(a[i + 1..], b);
    }
  }

  lemma {:induction false} SegmentsConcat(a: seq<string>, b: seq<string>, fold: Fold)
    ensures Segments(a + b, fold) == Segments(a, fold) + Segments(b, fold)
    decreases |b|
  {
    hide Segment;
    if b == [] {
      assert a + b == a;
    } else {
      var k := |b| - 1;
      assert (a + b)[..|a + b| - 1] == a + b[..k];
      SegmentsConcat(a, b[..k], fold);
    }
  }

  /** The segments of a label are those of its parts. */
  lemma SegmentsAcross(a: string, b: string, fold: Fold)
    ensures LabelSegments(a + "/" + b, fold) == LabelSegments(a, fold) + LabelSegments(b, fold)
  {
    hide Split, Segments;
    SplitAcross(a, b);
    SegmentsConcat(Split(a), Split(b), fold);
  }

  lemma AsciiFolds(s: string, fold: Fold)
    requires Ascii(s)
    ensures Lower(s, fold) == LowerAscii(s)
  {
  }

  lemma LowerAcrossSlash(a: string, b: string)
    ensures LowerAscii(a + "/" + b) == LowerAscii(a) + "/" + LowerAscii(b)
  {
  }

  /** For every ASCII name, the engine's sanitizer is the compiler's label, its segments joined with
      underscores, slashes and all. */
  lemma {:induction false} SanitizersAgree(s: string, fold: Fold)
    requires Ascii(s)
    ensures Sanitized(s) == Join(LabelSegments(s, fold), "_")
    decreases |s|
  {
    var i := FirstSlash(s);
    AsciiFolds(s[..i], fold);
    if i == |s| {
      assert s[..i] == s;
      SegmentsPrepend(s, [], fold);
      assert [s] + [] == [s];
    } else {
      var a, b := s[..i], s[i + 1..];
      assert s == a + "/" + b;
      SanitizersAgree(b, fold);
      LowerAcrossSlash(a, b);
      ReduceAcrossSlash(LowerAscii(a), LowerAscii(b), "", false);
      ReduceAfterRun(LowerAscii(b), Segment(a, fold));
      SegmentsPrepend(a, Split(b), fold);
      JoinAfter(Segment(a, fold), Split(b), fold);
    }
  }

  lemma JoinAfter(x: string, parts: seq<string>, fold: Fold)
    ensures var xs := Segments(parts, fold);
      && Join([x] + xs, "_") == (if Join(xs, "_") == "" then x else x + "_" + Join(xs, "_"))
      && [] + xs == xs
  {
    var xs := Segments(parts, fold);
    JoinPrepend(x, xs, "_");
    SegmentsNotEmpty(parts, fold);
    if xs != [] {
      JoinPrepend(xs[0], xs[1..], "_");
      assert [xs[0]] + xs[1..] == xs;
    }
  }

  /** The engine's name for itself holds only [a-z0-9_], and sanitizing it again changes nothing. */
  lemma SanitizedTwice(name: string)
    ensures AllKept(Sanitized(name)) && Sanitized(Sanitized(name)) == Sanitized(name)
  {
    ReduceKept(LowerAscii(name), "", false);
    var t := Sanitized(name);
    assert LowerAscii(t) == t;
    ReduceKeepsAll(t, "");
  }
}
