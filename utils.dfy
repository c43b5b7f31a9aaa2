/**
 * The pure helpers of Utils.cs: trimming a time span to whole seconds and
 * combining two path fragments so that the second never escapes the first
 * through its leading slashes.
 */
module Utils {
  import opened Wrappers

  // ---------------------------------------------------------------------
  // Time spans
  // ---------------------------------------------------------------------

  const TicksPerMillisecond: int := 10_000
  const TicksPerSecond: int := 10_000_000
  const TicksPerMinute: int := 600_000_000
  const TicksPerHour: int := 36_000_000_000
  const TicksPerDay: int := 864_000_000_000

  const MinTicks: int := -0x8000_0000_0000_0000
  const MaxTicks: int := 0x7FFF_FFFF_FFFF_FFFF
  /** The range of TimeSpan(d, h, m, s): `long.MaxValue / TicksPerMillisecond` and its negation. */
  const MaxMilliseconds: int := 922_337_203_685_477
  const MinMilliseconds: int := -922_337_203_685_477

  type Int64 = x: int | MinTicks <= x <= MaxTicks
  type Int32 = x: int | -0x8000_0000 <= x <= 0x7FFF_FFFF

  /** A .NET TimeSpan: a signed 64-bit count of 100-nanosecond ticks. */
  datatype TimeSpan = TimeSpan(ticks: Int64)

  /** C#'s `/` on integers: the quotient truncated toward zero. */
  function Quot(a: int, b: int): int
    requires b > 0
  {
    if a >= 0 then a / b else -((-a) / b)
  }

  /** C#'s `%` on integers: the remainder carries the sign of the dividend. */
  function Rem(a: int, b: int): int
    requires b > 0
  {
    a - Quot(a, b) * b
  }

  /** The TimeSpan component properties; each carries the sign of the span. */
  function Days(ts: TimeSpan): (r: Int32)
    ensures r > 0 ==> ts.ticks > 0
    ensures r < 0 ==> ts.ticks < 0
  {
    Quot(ts.ticks, TicksPerDay)
  }

  function Hours(ts: TimeSpan): (r: Int32)
    ensures -24 < r < 24
    ensures ts.ticks >= 0 ==> r >= 0
    ensures ts.ticks <= 0 ==> r <= 0
  {
    Rem(Quot(ts.ticks, TicksPerHour), 24)
  }

  function Minutes(ts: TimeSpan): (r: Int32)
    ensures -60 < r < 60
    ensures ts.ticks >= 0 ==> r >= 0
    ensures ts.ticks <= 0 ==> r <= 0
  {
    Rem(Quot(ts.ticks, TicksPerMinute), 60)
  }

  function Seconds(ts: TimeSpan): (r: Int32)
    ensures -60 < r < 60
    ensures ts.ticks >= 0 ==> r >= 0
    ensures ts.ticks <= 0 ==> r <= 0
  {
    Rem(Quot(ts.ticks, TicksPerSecond), 60)
  }

  function Milliseconds(ts: TimeSpan): (r: Int32)
    ensures -1000 < r < 1000
    ensures ts.ticks >= 0 ==> r >= 0
    ensures ts.ticks <= 0 ==> r <= 0
  {
    Rem(Quot(ts.ticks, TicksPerMillisecond), 1000)
  }

  /** The whole seconds of a span, truncated toward zero. */
  function WholeSeconds(ts: TimeSpan): int { Quot(ts.ticks, TicksPerSecond) }

  /**
   * The constructor TimeSpan(days, hours, minutes, seconds): the total is
   * computed in milliseconds and the constructor throws (None here) when it
   * falls outside what a TimeSpan can hold.
   */
  function FromComponents(days: Int32, hours: Int32, minutes: Int32, seconds: Int32): (r: Option<TimeSpan>)
    ensures r.Some? <==>
      MinMilliseconds <= (days * 86400 + hours * 3600 + minutes * 60 + seconds) * 1000 <= MaxMilliseconds
    ensures r.Some? ==>
      r.value.ticks == (days * 86400 + hours * 3600 + minutes * 60 + seconds) * TicksPerSecond
  {
    var total := (days * 86400 + hours * 3600 + minutes * 60 + seconds) * 1000;
    if MinMilliseconds <= total <= MaxMilliseconds then Some(TimeSpan(total * TicksPerMillisecond))
    else None
  }

  /** The four components of a span add back up to its whole seconds. */
  lemma ComponentsRecompose(ts: TimeSpan)
    ensures Days(ts) * 86400 + Hours(ts) * 3600 + Minutes(ts) * 60 + Seconds(ts) == WholeSeconds(ts)
  {
    var s := WholeSeconds(ts);
    ComponentsFromSeconds(ts.ticks);
    SecondsNested(s);
    var m, h, d := Quot(s, 60), Quot(s, 3600), Quot(s, 86400);
    assert Seconds(ts) == s - m * 60;
    assert Minutes(ts) == m - h * 60;
    assert Hours(ts) == h - d * 24;
    assert Days(ts) == d;
  }

  /**
   * Utils.TrimMiliseconds: rebuild the span from its Days, Hours, Minutes and
   * Seconds, dropping every sub-second tick. The result is the span's whole
   * seconds, truncated toward zero, and the constructor never overflows.
   */
  function TrimMiliseconds(ts: TimeSpan): (r: TimeSpan)
    ensures r.ticks == WholeSeconds(ts) * TicksPerSecond
  {
    ComponentsRecompose(ts);
    FromComponents(Days(ts), Hours(ts), Minutes(ts), Seconds(ts)).value
  }

  /** Truncating a span to seconds and then to minutes, hours or days is truncating it directly. */
  lemma ComponentsFromSeconds(t: int)
    ensures Quot(t, TicksPerMinute) == Quot(Quot(t, TicksPerSecond), 60)
    ensures Quot(t, TicksPerHour) == Quot(Quot(t, TicksPerSecond), 3600)
    ensures Quot(t, TicksPerDay) == Quot(Quot(t, TicksPerSecond), 86400)
  {
    var n := if t >= 0 then t else -t;
    assert (n / 10_000_000) / 60 == n / 600_000_000;
    assert (n / 10_000_000) / 3600 == n / 36_000_000_000;
    assert (n / 10_000_000) / 86400 == n / 864_000_000_000;
  }

  /** Seconds to minutes to hours to days, by successive truncation. */
  lemma SecondsNested(s: int)
    ensures Quot(Quot(s, 60), 60) == Quot(s, 3600)
    ensures Quot(Quot(s, 3600), 24) == Quot(s, 86400)
  {
    var n := if s >= 0 then s else -s;
    assert (n / 60) / 60 == n / 3600;
    assert (n / 3600) / 24 == n / 86400;
  }

  /** A whole number of seconds, in ticks, truncates back to itself. */
  lemma WholeSecondsExact(s: int)
    ensures Quot(s * TicksPerSecond, TicksPerSecond) == s
    ensures Quot(s * TicksPerSecond, TicksPerMillisecond) == s * 1000
    ensures Quot(s * 1000, 1000) == s
  {
  }

  /** Truncation moves a value toward zero, by less than one second. */
  lemma TruncationBounds(t: int)
    ensures t >= 0 ==> 0 <= Quot(t, TicksPerSecond) * TicksPerSecond <= t < Quot(t, TicksPerSecond) * TicksPerSecond + TicksPerSecond
    ensures t < 0 ==> Quot(t, TicksPerSecond) * TicksPerSecond - TicksPerSecond < t <= Quot(t, TicksPerSecond) * TicksPerSecond <= 0
  {
  }

  /** Trimming keeps every component from Days to Seconds and zeroes what lies below a second. */
  lemma TrimKeepsComponents(ts: TimeSpan)
    ensures Days(TrimMiliseconds(ts)) == Days(ts)
    ensures Hours(TrimMiliseconds(ts)) == Hours(ts)
    ensures Minutes(TrimMiliseconds(ts)) == Minutes(ts)
    ensures Seconds(TrimMiliseconds(ts)) == Seconds(ts)
    ensures Milliseconds(TrimMiliseconds(ts)) == 0
    ensures Rem(TrimMiliseconds(ts).ticks, TicksPerSecond) == 0
  {
    var r := TrimMiliseconds(ts);
    var s := WholeSeconds(ts);
    WholeSecondsExact(s);
    assert Quot(r.ticks, TicksPerSecond) == s;
    ComponentsFromSeconds(ts.ticks);
    ComponentsFromSeconds(r.ticks);
    assert Quot(r.ticks, TicksPerMinute) == Quot(ts.ticks, TicksPerMinute);
    assert Quot(r.ticks, TicksPerHour) == Quot(ts.ticks, TicksPerHour);
    assert Quot(r.ticks, TicksPerDay) == Quot(ts.ticks, TicksPerDay);
    assert Quot(r.ticks, TicksPerMillisecond) == s * 1000;
    assert Milliseconds(r) == s * 1000 - Quot(s * 1000, 1000) * 1000;
  }

  /** Trimming truncates toward zero: it never moves a span away from zero, and by less than a second. */
  lemma TrimTowardZero(ts: TimeSpan)
    ensures ts.ticks >= 0 ==> 0 <= TrimMiliseconds(ts).ticks <= ts.ticks < TrimMiliseconds(ts).ticks + TicksPerSecond
    ensures ts.ticks < 0 ==> TrimMiliseconds(ts).ticks - TicksPerSecond < ts.ticks <= TrimMiliseconds(ts).ticks <= 0
  {
    TruncationBounds(ts.ticks);
  }

  /** A span that already holds whole seconds comes back unchanged. */
  lemma TrimWholeSecondsUnchanged(ts: TimeSpan)
    requires Rem(ts.ticks, TicksPerSecond) == 0
    ensures TrimMiliseconds(ts) == ts
  {
  }

  /** Trimming twice is trimming once. */
  lemma TrimIdempotent(ts: TimeSpan)
    ensures TrimMiliseconds(TrimMiliseconds(ts)) == TrimMiliseconds(ts)
  {
    TrimKeepsComponents(ts);
    TrimWholeSecondsUnchanged(TrimMiliseconds(ts));
  }

  // ---------------------------------------------------------------------
  // Paths
  // ---------------------------------------------------------------------

  /**
   * The platform's path conventions: Path.DirectorySeparatorChar,
   * Path.AltDirectorySeparatorChar, Path.VolumeSeparatorChar, and whether a
   * drive letter followed by the volume separator roots a path.
   */
  datatype PathStyle = PathStyle(
    directorySeparator: char,
    altDirectorySeparator: char,
    volumeSeparator: char,
    hasDriveRoots: bool)

  const Windows := PathStyle('\\', '/', ':', true)
  const Unix := PathStyle('/', '/', '/', false)

  predicate IsDirectorySeparator(style: PathStyle, c: char) {
    c == style.directorySeparator || c == style.altDirectorySeparator
  }

  predicate IsValidDriveChar(c: char) {
    'A' <= c <= 'Z' || 'a' <= c <= 'z'
  }

  /** Path.IsPathRooted: a leading separator, or (on Windows) a drive letter and a colon. */
  predicate IsPathRooted(style: PathStyle, path: string)
    ensures IsPathRooted(style, path) ==> path != []
    ensures path != [] && IsDirectorySeparator(style, path[0]) ==> IsPathRooted(style, path)
    ensures !style.hasDriveRoots ==> (IsPathRooted(style, path) <==> path != [] && IsDirectorySeparator(style, path[0]))
  {
    (|path| >= 1 && IsDirectorySeparator(style, path[0])) ||
    (style.hasDriveRoots && |path| >= 2 && IsValidDriveChar(path[0]) && path[1] == style.volumeSeparator)
  }

  predicate EndsWithSeparator(style: PathStyle, path: string) {
    |path| > 0 && IsDirectorySeparator(style, path[|path| - 1])
  }

  /**
   * Path.Combine(path1, path2): an empty argument yields the other, a rooted
   * second argument replaces the first, and otherwise the two are joined
   * with one directory separator unless one is already there.
   */
  function Combine(style: PathStyle, path1: string, path2: string): (r: string)
    ensures path1 == "" || IsPathRooted(style, path2) ==> r == path2
    ensures path1 != "" && !IsPathRooted(style, path2) ==>
      r == path1 + (if path2 != "" && !EndsWithSeparator(style, path1) then [style.directorySeparator] else []) + path2
  {
    if path1 == "" then path2
    else if path2 == "" then path1
    else if IsPathRooted(style, path2) then path2
    else if EndsWithSeparator(style, path1) || IsDirectorySeparator(style, path2[0]) then path1 + path2
    else path1 + [style.directorySeparator] + path2
  }

  /** String.TrimStart(chars): drop the longest prefix made only of the given characters. */
  function TrimStart(s: string, chars: set<char>): (r: string)
    ensures |r| <= |s| && r == s[|s| - |r|..]
    ensures r == [] || r[0] !in chars
    ensures forall i :: 0 <= i < |s| - |r| ==> s[i] in chars
    decreases |s|
  {
    if s != [] && s[0] in chars then TrimStart(s[1..], chars) else s
  }

  /** The second argument of SafePathCombine after its two TrimStart calls. */
  function SafeTail(style: PathStyle, path2: string): (r: string)
    ensures |r| <= |path2|
    ensures r == [] || r[0] != style.altDirectorySeparator
  {
    TrimStart(TrimStart(path2, {style.directorySeparator}), {style.altDirectorySeparator})
  }

  /** What the two trims leave is a suffix of path2. */
  lemma SafeTailSuffix(style: PathStyle, path2: string)
    ensures SafeTail(style, path2) == path2[|path2| - |SafeTail(style, path2)|..]
  {
    var t := TrimStart(path2, {style.directorySeparator});
    var r := TrimStart(t, {style.altDirectorySeparator});
    SuffixOfSuffix(path2, |path2| - |t|, |t| - |r|);
  }

  lemma SuffixOfSuffix(s: string, k: nat, j: nat)
    requires k + j <= |s|
    ensures s[k..][j..] == s[k + j..]
  {
  }

  /**
   * Utils.SafePathCombine. The source's first, guarded Path.Combine call
   * discards its result and has no other effect, so the value returned is
   * always the final Combine of path1 with the trimmed path2.
   */
  function SafePathCombine(style: PathStyle, path1: string, path2: string): (r: string)
    ensures path1 == "" ==> r == SafeTail(style, path2)
    ensures path1 != "" && !IsPathRooted(style, SafeTail(style, path2)) ==> |r| >= |path1| && r[..|path1|] == path1
    ensures IsPathRooted(style, SafeTail(style, path2)) ==> r == SafeTail(style, path2)
  {
    var t := SafeTail(style, path2);
    if !IsPathRooted(style, t) then
      CombineKeepsPrefix(style, path1, t);
      Combine(style, path1, t)
    else
      Combine(style, path1, t)
  }

  /**
   * On Unix, where both separators are '/', the trimmed part is path2
   * without its leading slashes and never starts with a separator.
   */
  lemma SafeTailUnix(path2: string)
    ensures var t := SafeTail(Unix, path2);
      (t == [] || t[0] != '/') &&
      t == path2[|path2| - |t|..] &&
      forall i :: 0 <= i < |path2| - |t| ==> path2[i] == '/'
  {
    var t := TrimStart(path2, {'/'});
    assert SafeTail(Unix, path2) == t by {
      TrimStartIdempotent(t, {'/'});
    }
    forall i | 0 <= i < |path2| - |t| ensures path2[i] == '/' {
      assert path2[i] in {'/'};
    }
  }

  /**
   * On Unix the result never escapes path1: it is path1, a slash unless
   * path1 already ends with one, and the trimmed part.
   */
  lemma SafePathCombineUnix(path1: string, path2: string)
    ensures var t := SafeTail(Unix, path2);
      SafePathCombine(Unix, path1, path2) ==
        if path1 == "" then t
        else if t == "" || EndsWithSeparator(Unix, path1) then path1 + t
        else path1 + "/" + t
  {
    var t := TrimStart(path2, {'/'});
    TrimStartIdempotent(t, {'/'});
    assert SafeTail(Unix, path2) == t;
    assert !IsPathRooted(Unix, t);
  }

  /** A path2 without leading separators passes through SafePathCombine untouched. */
  lemma SafePathCombineNoLeadingSeparator(style: PathStyle, path1: string, path2: string)
    requires path2 == "" || !IsDirectorySeparator(style, path2[0])
    ensures SafePathCombine(style, path1, path2) == Combine(style, path1, path2)
  {
    assert TrimStart(path2, {style.directorySeparator}) == path2;
    assert TrimStart(path2, {style.altDirectorySeparator}) == path2;
  }

  /**
   * As written, SafePathCombine strips the run of backslashes and then the
   * run of slashes, so on Windows a path2 that starts with a slash followed
   * by a backslash keeps that backslash, stays rooted, and discards path1.
   */
  lemma SafePathCombineMixedSeparatorsEscape()
    ensures SafeTail(Windows, "/\\clip.png") == "\\clip.png"
    ensures SafePathCombine(Windows, "C:\\sheets", "/\\clip.png") == "\\clip.png"
  {
    var p := "/\\clip.png";
    assert TrimStart(p, {'\\'}) == p;
    assert TrimStart(p[1..], {'/'}) == p[1..];
    assert TrimStart(p, {'/'}) == p[1..];
    assert IsPathRooted(Windows, p[1..]);
  }

  /** The evidently intended trim: every leading separator of either kind. */
  function SafeTailCorrected(style: PathStyle, path2: string): string {
    TrimStart(path2, {style.directorySeparator, style.altDirectorySeparator})
  }

  function SafePathCombineCorrected(style: PathStyle, path1: string, path2: string): string {
    Combine(style, path1, SafeTailCorrected(style, path2))
  }

  /**
   * With every leading separator stripped, the second part can only be
   * rooted through a drive letter, and otherwise the result starts with path1.
   */
  lemma SafePathCombineCorrectedStaysUnder(style: PathStyle, path1: string, path2: string)
    ensures var t := SafeTailCorrected(style, path2);
      (t == [] || !IsDirectorySeparator(style, t[0])) &&
      (IsPathRooted(style, t) ==> style.hasDriveRoots && |t| >= 2 && t[1] == style.volumeSeparator) &&
      (!IsPathRooted(style, t) ==> SafePathCombineCorrected(style, path1, path2)[..|path1|] == path1)
  {
    var t := SafeTailCorrected(style, path2);
    assert t == [] || !IsDirectorySeparator(style, t[0]) by {
      if t != [] {
        assert t[0] !in {style.directorySeparator, style.altDirectorySeparator};
      }
    }
    if !IsPathRooted(style, t) {
      CombineKeepsPrefix(style, path1, t);
    }
  }

  /** Joining an unrooted second part keeps the first part as a prefix. */
  lemma CombineKeepsPrefix(style: PathStyle, path1: string, path2: string)
    requires !IsPathRooted(style, path2)
    ensures Combine(style, path1, path2)[..|path1|] == path1
  {
    if path1 != "" {
      var joint := if path2 != "" && !EndsWithSeparator(style, path1) then [style.directorySeparator] else [];
      assert Combine(style, path1, path2) == path1 + (joint + path2);
    }
  }

  /** Where both separators are the same character the correction changes nothing. */
  lemma SafePathCombineCorrectedAgrees(style: PathStyle, path1: string, path2: string)
    requires style.directorySeparator == style.altDirectorySeparator
    ensures SafePathCombineCorrected(style, path1, path2) == SafePathCombine(style, path1, path2)
  {
    var c := style.directorySeparator;
    assert {c, style.altDirectorySeparator} == {c};
    var t := TrimStart(path2, {c});
    TrimStartIdempotent(t, {c});
  }

  lemma TrimStartIdempotent(s: string, chars: set<char>)
    requires s == [] || s[0] !in chars
    ensures TrimStart(s, chars) == s
  {
  }
}
