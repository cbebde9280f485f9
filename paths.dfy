/**
 * The path arithmetic of chunk_dataset_mat.py: pathlib's suffix, stem and
 * with_suffix, the `*.mat` glob, the `{stem}_frame{i:04d}` output names,
 * the choice of a metadata sidecar and the default output root.
 */
module Paths {
  import opened Wrappers

  /** A resolved absolute path, as its components below "/" (so "/" is []). */
  type Path = seq<string>

  /** The index of the last '.' in `name`, or -1 when there is none. */
  function LastDot(name: string): (r: int)
    ensures -1 <= r < |name|
    ensures r >= 0 ==> name[r] == '.'
    ensures forall j :: r < j < |name| ==> name[j] != '.'
    decreases |name|
  {
    if |name| == 0 then -1
    else if name[|name| - 1] == '.' then |name| - 1
    else LastDot(name[..|name| - 1])
  }

  /**
   * `PurePath.suffix`: from the last dot on, unless that dot starts or ends
   * the name.
   */
  function Suffix(name: string): (r: string)
    ensures r == "" || PlainSuffix(r)
    ensures |r| <= |name| && name[|name| - |r|..] == r
    ensures r != "" ==> |r| < |name|
  {
    var i := LastDot(name);
    if 0 < i < |name| - 1 then name[i..] else ""
  }

  /** The suffix is empty exactly when no dot follows the first character, or the name ends with a dot. */
  lemma SuffixEmpty(name: string)
    ensures Suffix(name) == "" <==>
              name == [] || name[|name| - 1] == '.' || forall j :: 0 < j < |name| ==> name[j] != '.'
  {
  }

  /** `PurePath.stem`: the name without its suffix, so that stem and suffix put together give the name back. */
  function Stem(name: string): (s: string)
    ensures s + Suffix(name) == name
    ensures Suffix(name) != "" ==> s != ""
  {
    var i := LastDot(name);
    if 0 < i < |name| - 1 then name[..i] else name
  }

  /** A suffix as the program passes it to `with_suffix`: a dot, then at least one character and no dot. */
  predicate PlainSuffix(s: string) {
    |s| >= 2 && s[0] == '.' && forall j :: 1 <= j < |s| ==> s[j] != '.'
  }

  /** `PurePath.with_suffix` (which raises ValueError on an empty name). */
  function WithSuffix(name: string, suffix: string): (r: string)
    requires name != ""
    requires PlainSuffix(suffix)
    ensures Stem(r) == Stem(name) && Suffix(r) == suffix
  {
    var stem := Stem(name);
    var r := stem + suffix;
    assert r[|stem|] == '.';
    assert LastDot(r) == |stem|;
    r
  }

  /** `cls.glob('*.mat')`, case-sensitive; pathlib's `*` also matches a leading dot. */
  predicate MatchesMatGlob(name: string) {
    |name| >= 4 && name[|name| - 4..] == ".mat"
  }

  predicate IsDigit(c: char) {
    '0' <= c <= '9'
  }

  predicate AllDigits(s: string) {
    forall j :: 0 <= j < |s| ==> IsDigit(s[j])
  }

  function DigitChar(d: nat): (c: char)
    requires d < 10
    ensures IsDigit(c) && c as int - '0' as int == d
  {
    ('0' as int + d) as char
  }

  /** `str(n)` for a non-negative integer: decimal, without leading zeros. */
  function Decimal(n: nat): (s: string)
    ensures |s| >= 1 && AllDigits(s)
    decreases n
  {
    if n < 10 then [DigitChar(n)] else Decimal(n / 10) + [DigitChar(n % 10)]
  }

  /** The number a string of decimal digits denotes. */
  function ParseDecimal(s: string): nat
    requires AllDigits(s)
    decreases |s|
  {
    if s == [] then 0 else ParseDecimal(s[..|s| - 1]) * 10 + (s[|s| - 1] as int - '0' as int)
  }

  function Zeros(k: nat): (z: string)
    ensures |z| == k && forall j :: 0 <= j < k ==> z[j] == '0'
  {
    seq(k, _ => '0')
  }

  /** `f"{n:04d}"`: the decimal digits of `n`, padded with zeros on the left to at least four. */
  function ZeroPad4(n: nat): string {
    var d := Decimal(n);
    if |d| < 4 then Zeros(4 - |d|) + d else d
  }

  lemma {:induction false} DecimalRoundTrip(n: nat)
    ensures ParseDecimal(Decimal(n)) == n
    decreases n
  {
    if n >= 10 {
      DecimalRoundTrip(n / 10);
      var d := Decimal(n);
      assert d[..|d| - 1] == Decimal(n / 10);
    }
  }

  lemma {:induction false} LeadingZerosIgnored(k: nat, d: string)
    requires AllDigits(d)
    ensures AllDigits(Zeros(k) + d)
    ensures ParseDecimal(Zeros(k) + d) == ParseDecimal(d)
    decreases |d|
  {
    var s := Zeros(k) + d;
    if d == [] {
      assert s == Zeros(k);
      ZerosParse(k);
    } else {
      LeadingZerosIgnored(k, d[..|d| - 1]);
      assert s[..|s| - 1] == Zeros(k) + d[..|d| - 1];
    }
  }

  lemma {:induction false} ZerosParse(k: nat)
    ensures AllDigits(Zeros(k)) && ParseDecimal(Zeros(k)) == 0
  {
    if k > 0 {
      ZerosParse(k - 1);
      assert Zeros(k)[..k - 1] == Zeros(k - 1);
    }
  }

  /** The padded index is all digits, at least four of them, and reads back as the index. */
  lemma ZeroPad4RoundTrip(n: nat)
    ensures |ZeroPad4(n)| >= 4 && AllDigits(ZeroPad4(n))
    ensures ParseDecimal(ZeroPad4(n)) == n
  {
    var d := Decimal(n);
    DecimalRoundTrip(n);
    if |d| < 4 {
      LeadingZerosIgnored(4 - |d|, d);
    }
  }

  function Pow10(k: nat): (p: nat)
    ensures p >= 1
  {
    if k == 0 then 1 else 10 * Pow10(k - 1)
  }

  lemma {:induction false} DecimalWidth(n: nat, k: nat)
    requires k >= 1
    ensures |Decimal(n)| <= k <==> n < Pow10(k)
    decreases n
  {
    if n >= 10 {
      if k == 1 {
        assert |Decimal(n)| == |Decimal(n / 10)| + 1;
      } else {
        DecimalWidth(n / 10, k - 1);
      }
    } else if k > 1 {
      assert Pow10(k) == 10 * Pow10(k - 1);
    }
  }

  /** Indices below 10000 take exactly four characters; larger ones take more, unpadded. */
  lemma ZeroPad4Width(n: nat)
    ensures |ZeroPad4(n)| == 4 <==> n < 10000
    ensures n >= 10000 ==> ZeroPad4(n) == Decimal(n)
  {
    DecimalWidth(n, 4);
    assert Pow10(4) == 10000;
  }

  /** `f"{stem}_frame{i:04d}"`, the name of segment `i` before its extension. */
  function FrameName(stem: string, i: nat): string {
    stem + "_frame" + ZeroPad4(i)
  }

  /** A frame name is the stem, "_frame", then at least four digits that read back as the index. */
  lemma FrameNameReadsBack(stem: string, i: nat)
    ensures var r := FrameName(stem, i);
            && |r| >= |stem| + 10 && r[..|stem|] == stem && r[|stem|..|stem| + 6] == "_frame"
            && AllDigits(r[|stem| + 6..]) && ParseDecimal(r[|stem| + 6..]) == i
  {
    ZeroPad4RoundTrip(i);
    var r := FrameName(stem, i);
    assert r[|stem| + 6..] == ZeroPad4(i);
  }

  /** Frame 1 of `rec.mat` is `rec_frame0001.mat`; index 12345 is written out in full, unpadded. */
  lemma FrameNameExamples()
    ensures FrameName("rec", 1) + ".mat" == "rec_frame0001.mat"
    ensures ZeroPad4(12345) == "12345"
  {
  }

  /** The extensions the program writes: the container's and the two sidecar ones. */
  predicate OutputExt(e: string) {
    e == ".mat" || e == ".yaml" || e == ".yml"
  }

  /** The extension of an output name, and so what precedes it, can be read back from the name. */
  lemma OutputExtUnique(a1: string, e1: string, a2: string, e2: string)
    requires OutputExt(e1) && OutputExt(e2)
    requires a1 + e1 == a2 + e2
    ensures e1 == e2 && a1 == a2
  {
    var n := a1 + e1;
    assert n[|n| - 3..] == e1[|e1| - 3..];
    assert n[|n| - 3..] == e2[|e2| - 3..];
    assert e1 == e2;
    assert a1 == n[..|n| - |e1|] == a2;
  }

  /**
   * Splitting a name into a part that ends in a non-digit and a trailing run
   * of digits can be done in one way only.
   */
  lemma DigitTailUnique(x1: string, p1: string, x2: string, p2: string)
    requires x1 + p1 == x2 + p2
    requires AllDigits(p1) && AllDigits(p2)
    requires |x1| > 0 && !IsDigit(x1[|x1| - 1])
    requires |x2| > 0 && !IsDigit(x2[|x2| - 1])
    ensures x1 == x2 && p1 == p2
  {
    var n := x1 + p1;
    assert forall j :: |x1| <= j < |n| ==> IsDigit(n[j]) by {
      forall j | |x1| <= j < |n| ensures IsDigit(n[j]) {
        assert n[j] == p1[j - |x1|];
      }
    }
    assert forall j :: |x2| <= j < |n| ==> IsDigit(n[j]) by {
      forall j | |x2| <= j < |n| ensures IsDigit(n[j]) {
        assert n[j] == (x2 + p2)[j] == p2[j - |x2|];
      }
    }
    assert !IsDigit(n[|x1| - 1]) && !IsDigit(n[|x2| - 1]);
    assert |x1| == |x2|;
    assert x1 == n[..|x1|] == x2;
    assert p1 == n[|x1|..] == p2;
  }

  /**
   * Output file names never collide: the stem, the index and the extension
   * can all be read back from the name, for every index, 10000 and above too.
   */
  lemma FrameFileNamesDistinct(s1: string, i1: nat, e1: string, s2: string, i2: nat, e2: string)
    requires OutputExt(e1) && OutputExt(e2)
    requires FrameName(s1, i1) + e1 == FrameName(s2, i2) + e2
    ensures s1 == s2 && i1 == i2 && e1 == e2
  {
    var a1, a2 := FrameName(s1, i1), FrameName(s2, i2);
    OutputExtUnique(a1, e1, a2, e2);
    ZeroPad4RoundTrip(i1);
    ZeroPad4RoundTrip(i2);
    var x1, x2 := s1 + "_frame", s2 + "_frame";
    assert a1 == x1 + ZeroPad4(i1) && a2 == x2 + ZeroPad4(i2);
    DigitTailUnique(x1, ZeroPad4(i1), x2, ZeroPad4(i2));
    assert s1 == x1[..|s1|] && s2 == x2[..|s2|];
  }

  /**
   * The sidecar of the signal file `matName`, given the names present in its
   * directory: `{stem}.yaml` when it exists (even if `{stem}.yml` does too),
   * else `{stem}.yml`, else none.
   */
  function ChooseSidecar(present: set<string>, matName: string): (r: Option<string>)
    requires matName != ""
    ensures r.Some? ==> r.value in present && Stem(r.value) == Stem(matName)
    ensures r.Some? ==> Suffix(r.value) == ".yaml" || Suffix(r.value) == ".yml"
    ensures r.None? <==> forall y :: y in present && Stem(y) == Stem(matName) ==>
                                       Suffix(y) != ".yaml" && Suffix(y) != ".yml"
    ensures r.Some? && Suffix(r.value) == ".yml" ==>
              forall y :: y in present && Stem(y) == Stem(matName) ==> Suffix(y) != ".yaml"
  {
    var yaml := WithSuffix(matName, ".yaml");
    var yml := WithSuffix(matName, ".yml");
    forall y | y in present && Stem(y) == Stem(matName)
      ensures Suffix(y) == ".yaml" ==> y == yaml
      ensures Suffix(y) == ".yml" ==> y == yml
    {
      assert Stem(y) + Suffix(y) == y;
    }
    if yaml in present then Some(yaml) else if yml in present then Some(yml) else None
  }

  /** What `with_name` and `Path(None)` raise. */
  datatype PathError =
    | EmptyName    // ValueError: "/" has an empty name
    | NoneArgument // TypeError: Path(None)

  /**
   * The output root exactly as lines 95-97 compute it: `Path(args.output_dir)`
   * is evaluated before the `None` test, so an omitted flag raises.
   */
  function OutputRootAsWritten(inRoot: Path, outputDir: Option<Path>): Result<Path, PathError> {
    match outputDir
    case None => Err(NoneArgument)
    case Some(p) => Ok(p)
  }

  /** The omitted flag never reaches the documented default. */
  lemma OutputRootAsWrittenIgnoresDefault(inRoot: Path)
    requires |inRoot| > 0
    ensures OutputRootAsWritten(inRoot, None) == Err(NoneArgument)
    ensures OutputRoot(inRoot, None).Ok?
  {
  }

  /**
   * The output root as intended: the given directory, or else the input
   * root's sibling named `<name>_frames`.
   */
  function OutputRoot(inRoot: Path, outputDir: Option<Path>): (r: Result<Path, PathError>)
    ensures outputDir.Some? ==> r == Ok(outputDir.value)
    ensures outputDir.None? && inRoot == [] ==> r == Err(EmptyName)
    ensures outputDir.None? && inRoot != [] ==>
              r.Ok? && |r.value| == |inRoot| &&
              r.value[..|inRoot| - 1] == inRoot[..|inRoot| - 1] &&
              r.value[|inRoot| - 1] == inRoot[|inRoot| - 1] + "_frames" &&
              r.value != inRoot
  {
    match outputDir
    case Some(p) => Ok(p)
    case None =>
      if inRoot == [] then Err(EmptyName)
      else
        var parent, name := inRoot[..|inRoot| - 1], inRoot[|inRoot| - 1];
        var r := parent + [name + "_frames"];
        assert r[|inRoot| - 1] != inRoot[|inRoot| - 1] by {
          assert |r[|inRoot| - 1]| == |name| + 7;
        }
        Ok(r)
  }
}
