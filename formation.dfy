/**
 * The course screens' logic: lesson durations, chapter completion percentages,
 * the video links the lesson player understands (Google Drive, YouTube and
 * Vimeo identifiers pulled out by regular expressions), the choice of player,
 * and the module state `hasFormationAccess`, `currentLesson`,
 * `formationProgress` and `chapters` that the access check, chapter loading,
 * lesson completion and lesson closing update.
 */
module Formation {
  import opened Basics
  import opened Text
  import opened Api

  // ---------------------------------------------------------------------------
  // Durations

  /** `formatDuration(minutes)`: "m min" under an hour, else "Hh Mmin", or "Hh" on the hour. */
  function FormatDuration(minutes: int): string {
    if minutes < 60 then ShowInt(minutes) + " min"
    else
      var hours := minutes / 60;
      var mins := minutes % 60;
      if mins > 0 then Show(hours) + "h " + Show(mins) + "min" else Show(hours) + "h"
  }

  /** Reads a formatted duration back, for the three shapes `FormatDuration` writes. */
  function ParseDuration(s: string): Option<int> {
    if EndsWith(s, " min") then ParseInt(s[..|s| - 4])
    else if EndsWith(s, "h") then
      match Parse(s[..|s| - 1])
      case Some(h) => Some(60 * h)
      case None => None
    else if EndsWith(s, "min") then ParseHoursAndMinutesText(s)
    else None
  }

  /** "Hh Mmin": the hours before the first `h`, the minutes between "h " and "min". */
  function ParseHoursAndMinutesText(s: string): Option<int> {
    var hoursText := BeforeChar(s, 'h');
    if |hoursText| + 5 <= |s| then HoursAndMinutes(hoursText, s[|hoursText| + 2..|s| - 3]) else None
  }

  function HoursAndMinutes(hoursText: string, minutesText: string): Option<int> {
    match Parse(hoursText)
    case None => None
    case Some(h) =>
      match Parse(minutesText)
      case None => None
      case Some(m) => Some(60 * h + m)
  }

  /** A duration's text determines the number of minutes: reading it back gives them. */
  lemma ParseFormatDuration(minutes: int)
    ensures ParseDuration(FormatDuration(minutes)) == Some(minutes)
  {
    if minutes < 60 {
      ParseMinutesOnly(minutes);
    } else if minutes % 60 > 0 {
      ParseHoursAndMinutes(minutes / 60, minutes % 60);
    } else {
      ParseHoursOnly(minutes / 60);
    }
  }

  lemma ParseMinutesOnly(minutes: int)
    ensures ParseDuration(ShowInt(minutes) + " min") == Some(minutes)
  {
    var s := ShowInt(minutes) + " min";
    assert s[..|s| - 4] == ShowInt(minutes);
    ParseIntShowInt(minutes);
  }

  lemma ParseHoursOnly(hours: nat)
    ensures ParseDuration(Show(hours) + "h") == Some(60 * hours)
  {
    var s := Show(hours) + "h";
    assert s[..|s| - 1] == Show(hours);
    EndsWithLast(s, " min");
    ParseShow(hours);
  }

  lemma DigitsHaveNoH(h: string)
    requires AllDigits(h)
    ensures 'h' !in h
  {
    forall i | 0 <= i < |h| ensures h[i] != 'h' {
      assert IsDigit(h[i]);
    }
  }

  lemma ParseHoursAndMinutes(hours: nat, mins: nat)
    ensures ParseDuration(Show(hours) + "h " + Show(mins) + "min") == Some(60 * hours + mins)
  {
    var h := Show(hours);
    var m := Show(mins);
    var s := h + "h " + m + "min";
    HoursAndMinutesEnds(h, m);
    HoursAndMinutesSplit(h, m);
    ParseShow(hours);
    ParseShow(mins);
    HoursAndMinutesText(s, h, hours, mins);
    DurationDispatch(s);
  }

  /** "Hh Mmin" ends with "min", but neither with " min" nor with "h". */
  lemma HoursAndMinutesEnds(h: string, m: string)
    requires |m| > 0 && AllDigits(m)
    ensures !EndsWith(h + "h " + m + "min", " min")
    ensures !EndsWith(h + "h " + m + "min", "h")
    ensures EndsWith(h + "h " + m + "min", "min")
  {
    var s := h + "h " + m + "min";
    assert s[|s| - 4] == m[|m| - 1];
    assert IsDigit(m[|m| - 1]);
    NotEndsWith(s, " min", 0);
    EndsWithLast(s, "h");
    assert s[|s| - 3..] == "min";
  }

  /** In "Hh Mmin", the hours are the text before the first `h` and the minutes sit between "h " and "min". */
  lemma HoursAndMinutesSplit(h: string, m: string)
    requires AllDigits(h)
    ensures BeforeChar(h + "h " + m + "min", 'h') == h
    ensures |h| + 5 <= |h + "h " + m + "min"|
    ensures (h + "h " + m + "min")[|h| + 2..|h + "h " + m + "min"| - 3] == m
  {
    var s := h + "h " + m + "min";
    assert s == h + ['h'] + (" " + m + "min");
    DigitsHaveNoH(h);
    BeforeCharStops(h, 'h', " " + m + "min");
  }

  lemma HoursAndMinutesText(s: string, hoursText: string, hours: nat, mins: nat)
    requires BeforeChar(s, 'h') == hoursText && |hoursText| + 5 <= |s|
    requires Parse(hoursText) == Some(hours) && Parse(s[|hoursText| + 2..|s| - 3]) == Some(mins)
    ensures ParseHoursAndMinutesText(s) == Some(60 * hours + mins)
  {
    var minutesText := s[|hoursText| + 2..|s| - 3];
    assert ParseHoursAndMinutesText(s) == HoursAndMinutes(hoursText, minutesText);
    BothNumbers(hoursText, minutesText, hours, mins);
  }

  lemma BothNumbers(hoursText: string, minutesText: string, hours: nat, mins: nat)
    requires Parse(hoursText) == Some(hours) && Parse(minutesText) == Some(mins)
    ensures HoursAndMinutes(hoursText, minutesText) == Some(60 * hours + mins)
  {
  }

  lemma DurationDispatch(s: string)
    requires !EndsWith(s, " min") && !EndsWith(s, "h") && EndsWith(s, "min")
    ensures ParseDuration(s) == ParseHoursAndMinutesText(s)
  {
  }

  /** `s` does not end with `p` when they differ at position `k` of `p`, counted from where `p` would start. */
  lemma NotEndsWith(s: string, p: string, k: nat)
    requires k < |p| <= |s| && s[|s| - |p| + k] != p[k]
    ensures !EndsWith(s, p)
  {
    assert s[|s| - |p|..][k] == s[|s| - |p| + k];
  }

  // ---------------------------------------------------------------------------
  // Chapter percentage

  /**
   * `Math.round(completed / total * 100)` when `total > 0`, else 0: the integer
   * nearest to `100 * completed / total`, halves rounded up.
   */
  function ChapterPercent(completed: int, total: int): (p: int)
    ensures total <= 0 ==> p == 0
    ensures total > 0 ==> 2 * total * p <= 200 * completed + total < 2 * total * (p + 1)
  {
    if total > 0 then (200 * completed + total) / (2 * total) else 0
  }

  /** A chapter shows as completed when its percentage is 100. */
  predicate ChapterCompleted(completed: int, total: int) {
    ChapterPercent(completed, total) == 100
  }

  /** It is completed exactly when `completed / total` is within half a percent of 1, below or above. */
  lemma ChapterCompletedIff(completed: int, total: int)
    ensures ChapterCompleted(completed, total) <==> total > 0 && 199 * total <= 200 * completed < 201 * total
  {
    if total > 0 {
      var p := ChapterPercent(completed, total);
      QuotientIsHundred(200 * completed + total, 2 * total, p);
    }
  }

  /** Of the whole numbers `q` with `d * q <= x < d * (q + 1)`, it is 100 exactly when `100 * d <= x < 101 * d`. */
  lemma QuotientIsHundred(x: int, d: int, q: int)
    requires d > 0 && d * q <= x < d * (q + 1)
    ensures q == 100 <==> 100 * d <= x < 101 * d
  {
    if q <= 99 {
      MulMonotone(d, q + 1, 100);
    } else if q >= 101 {
      MulMonotone(d, 101, q);
    }
  }

  lemma MulMonotone(d: int, a: int, b: int)
    requires d > 0 && a <= b
    ensures d * a <= d * b
  {
    assert d * b - d * a == d * (b - a);
  }

  /** All lessons done completes a chapter; with 200 lessons or more, all but one already does. */
  lemma RoundingCompletesEarly(total: int)
    requires total > 0
    ensures ChapterCompleted(total, total)
    ensures total >= 200 ==> ChapterCompleted(total - 1, total)
    ensures total < 200 ==> !ChapterCompleted(total - 1, total)
  {
    ChapterCompletedIff(total, total);
    ChapterCompletedIff(total - 1, total);
  }

  // ---------------------------------------------------------------------------
  // The regular expressions of the link extractors

  /** `[a-zA-Z0-9_-]` */
  predicate IdChar(c: char) {
    'a' <= c <= 'z' || 'A' <= c <= 'Z' || '0' <= c <= '9' || c == '_' || c == '-'
  }

  datatype CharClass = IdChars | Digits

  /** `+` (greedy) or `{n}` */
  datatype Count = OneOrMore | Exactly(n: nat)

  /** A pattern `(?:a1|a2|…)(class count)`: literal alternatives, then one captured run. */
  datatype Pattern = Pattern(alternatives: seq<string>, cls: CharClass, count: Count)

  predicate InClass(c: char, cls: CharClass) {
    match cls
    case IdChars => IdChar(c)
    case Digits => IsDigit(c)
  }

  predicate AllIn(s: string, cls: CharClass) {
    forall i :: 0 <= i < |s| ==> InClass(s[i], cls)
  }

  /** What a capture looks like: class characters, as many as the count asks. */
  predicate Shaped(c: string, cls: CharClass, count: Count) {
    && AllIn(c, cls)
    && (count.Exactly? ==> |c| == count.n)
    && (count.OneOrMore? ==> |c| > 0)
  }

  /** The capture `c` is what the quantifier takes from `s` at `k`; a greedy run stops only at a non-class character or the end. */
  predicate Captures(s: string, k: nat, cls: CharClass, count: Count, c: string) {
    && k + |c| <= |s|
    && s[k..k + |c|] == c
    && Shaped(c, cls, count)
    && (count.OneOrMore? ==> k + |c| == |s| || !InClass(s[k + |c|], cls))
  }

  /** The length of the run of class characters starting at `k`. */
  function Run(s: string, k: nat, cls: CharClass): (n: nat)
    requires k <= |s|
    ensures k + n <= |s| && AllIn(s[k..k + n], cls)
    ensures k + n == |s| || !InClass(s[k + n], cls)
    decreases |s| - k
  {
    if k < |s| && InClass(s[k], cls) then
      var m := Run(s, k + 1, cls);
      assert s[k..k + 1 + m] == [s[k]] + s[k + 1..k + 1 + m];
      1 + m
    else 0
  }

  function CaptureAt(s: string, k: nat, cls: CharClass, count: Count): (r: Option<string>)
    requires k <= |s|
    ensures r.Some? ==> Captures(s, k, cls, count, r.value)
    ensures count.Exactly? && r.None? ==> !(k + count.n <= |s| && AllIn(s[k..k + count.n], cls))
    ensures count.OneOrMore? && r.None? ==> k == |s| || !InClass(s[k], cls)
  {
    match count
    case OneOrMore =>
      var n := Run(s, k, cls);
      if n > 0 then Some(s[k..k + n]) else None
    case Exactly(n) =>
      if k + n <= |s| && AllIn(s[k..k + n], cls) then Some(s[k..k + n]) else None
  }

  /** The match starting at `i`: the first alternative present there whose capture succeeds (backtracking to the next otherwise). */
  function AltMatchAt(s: string, alternatives: seq<string>, cls: CharClass, count: Count, i: nat): (r: Option<string>)
    ensures r.Some? ==> Shaped(r.value, cls, count)
  {
    if |alternatives| == 0 then None
    else
      var a := alternatives[0];
      if OccursAt(s, a, i) && CaptureAt(s, i + |a|, cls, count).Some? then CaptureAt(s, i + |a|, cls, count)
      else AltMatchAt(s, alternatives[1..], cls, count, i)
  }

  /** With a single alternative, a match at `i` is that literal at `i` and a capture right after it. */
  lemma SingleAlternative(s: string, a: string, cls: CharClass, count: Count, i: nat)
    ensures AltMatchAt(s, [a], cls, count, i) == if OccursAt(s, a, i) then CaptureAt(s, i + |a|, cls, count) else None
  {
    assert [a][1..] == [];
  }

  function MatchAt(s: string, p: Pattern, i: nat): Option<string> {
    AltMatchAt(s, p.alternatives, p.cls, p.count, i)
  }

  /** The leftmost start at or after `from` where the pattern matches. */
  function Leftmost(s: string, p: Pattern, from: nat): (r: Option<nat>)
    requires from <= |s| + 1
    ensures r.Some? ==> from <= r.value <= |s| && MatchAt(s, p, r.value).Some?
    ensures forall j :: from <= j <= |s| && (r.None? || j < r.value) ==> MatchAt(s, p, j).None?
    decreases |s| + 1 - from
  {
    if from > |s| then None
    else if MatchAt(s, p, from).Some? then Some(from)
    else Leftmost(s, p, from + 1)
  }

  /** `s.match(p)?.[1]`: the capture of the leftmost match, if any. */
  function Match(s: string, p: Pattern): (r: Option<string>)
    ensures r.Some? ==> Shaped(r.value, p.cls, p.count)
    ensures r.None? <==> forall i :: 0 <= i <= |s| ==> MatchAt(s, p, i).None?
  {
    match Leftmost(s, p, 0)
    case Some(i) => MatchAt(s, p, i)
    case None => None
  }

  /** A match at `i` with none before it is the one `Match` returns. */
  lemma MatchIsLeftmost(s: string, p: Pattern, i: nat)
    requires i <= |s| && MatchAt(s, p, i).Some?
    requires forall j :: 0 <= j < i ==> MatchAt(s, p, j).None?
    ensures Match(s, p) == MatchAt(s, p, i)
  {
    var r := Leftmost(s, p, 0);
    assert r.Some?;
    assert r.value == i;
  }

  /** For a one-literal pattern, a match is a capture right after some occurrence of the literal, at the leftmost such place. */
  lemma SingleLiteralMatch(s: string, p: Pattern)
    requires |p.alternatives| == 1 && Match(s, p).Some?
    ensures exists i: nat :: OccursAt(s, p.alternatives[0], i) && Captures(s, i + |p.alternatives[0]|, p.cls, p.count, Match(s, p).value)
  {
    var a := p.alternatives[0];
    var i := Leftmost(s, p, 0).value;
    var c := Match(s, p).value;
    assert p.alternatives == [a];
    SingleAlternative(s, a, p.cls, p.count, i);
    assert MatchAt(s, p, i) == Some(c);
    assert OccursAt(s, a, i) && CaptureAt(s, i + |a|, p.cls, p.count) == Some(c);
    assert Captures(s, i + |a|, p.cls, p.count, c);
  }

  /** The patterns are tried in order; the first that matches gives the result. */
  function FirstOf(s: string, patterns: seq<Pattern>): (r: Option<string>)
    ensures r.None? <==> forall k :: 0 <= k < |patterns| ==> Match(s, patterns[k]).None?
  {
    if |patterns| == 0 then None
    else
      match Match(s, patterns[0])
      case Some(c) => Some(c)
      case None =>
        var r := FirstOf(s, patterns[1..]);
        assert forall k :: 1 <= k < |patterns| ==> patterns[k] == patterns[1..][k - 1];
        r
  }

  lemma FirstOfStep(s: string, patterns: seq<Pattern>)
    requires |patterns| > 0
    ensures FirstOf(s, patterns) == if Match(s, patterns[0]).Some? then Match(s, patterns[0]) else FirstOf(s, patterns[1..])
  {
  }

  /** Every result of a list of patterns sharing a class and a count has their shape. */
  lemma {:induction false} FirstOfShaped(s: string, patterns: seq<Pattern>, cls: CharClass, count: Count)
    requires forall k :: 0 <= k < |patterns| ==> patterns[k].cls == cls && patterns[k].count == count
    ensures FirstOf(s, patterns).Some? ==> Shaped(FirstOf(s, patterns).value, cls, count)
  {
    if |patterns| > 0 && Match(s, patterns[0]).None? {
      FirstOfShaped(s, patterns[1..], cls, count);
    }
  }

  // ---------------------------------------------------------------------------
  // The three extractors

  const DRIVE_FILE := Pattern(["/file/d/"], IdChars, OneOrMore)
  const DRIVE_ID := Pattern(["id="], IdChars, OneOrMore)
  const DRIVE_OPEN := Pattern(["/open?id="], IdChars, OneOrMore)
  const DRIVE_PATTERNS := [DRIVE_FILE, DRIVE_ID, DRIVE_OPEN]

  const YOUTUBE_SHORT := Pattern(["youtube.com/watch?v=", "youtu.be/"], IdChars, Exactly(11))
  const YOUTUBE_EMBED := Pattern(["youtube.com/embed/"], IdChars, Exactly(11))
  const YOUTUBE_PATTERNS := [YOUTUBE_SHORT, YOUTUBE_EMBED]

  const VIMEO := Pattern(["vimeo.com/"], Digits, OneOrMore)

  /** `extractGoogleDriveId(url)` */
  function ExtractGoogleDriveId(url: string): (r: Option<string>)
    ensures r.Some? ==> |r.value| > 0 && AllIn(r.value, IdChars)
  {
    FirstOfShaped(url, DRIVE_PATTERNS, IdChars, OneOrMore);
    FirstOf(url, DRIVE_PATTERNS)
  }

  /**
   * `/file/d/` links are read first, everything else through `id=`; since
   * every `/open?id=` match is also an `id=` match, the third pattern never
   * decides the result.
   */
  lemma DriveOrder(url: string)
    ensures Match(url, DRIVE_FILE).Some? ==> ExtractGoogleDriveId(url) == Match(url, DRIVE_FILE)
    ensures Match(url, DRIVE_FILE).None? ==> ExtractGoogleDriveId(url) == Match(url, DRIVE_ID)
  {
    OpenImpliesId(url);
    var rest := DRIVE_PATTERNS[1..];
    assert rest == [DRIVE_ID, DRIVE_OPEN];
    assert rest[1..] == [DRIVE_OPEN];
    assert rest[1..][1..] == [];
    FirstOfStep(url, DRIVE_PATTERNS);
    FirstOfStep(url, rest);
    FirstOfStep(url, rest[1..]);
  }

  /** Whenever `/open?id=` matches, `id=` matches too, six characters further on. */
  lemma OpenImpliesId(url: string)
    ensures Match(url, DRIVE_OPEN).Some? ==> Match(url, DRIVE_ID).Some?
  {
    if Match(url, DRIVE_OPEN).Some? {
      var i := Leftmost(url, DRIVE_OPEN, 0).value;
      SingleAlternative(url, "/open?id=", IdChars, OneOrMore, i);
      assert OccursAt(url, "/open?id=", i);
      assert url[i + 6..i + 9] == url[i..i + 9][6..9];
      SingleAlternative(url, "id=", IdChars, OneOrMore, i + 6);
      assert MatchAt(url, DRIVE_ID, i + 6).Some?;
    }
  }

  /** `extractYoutubeId(url)` */
  function ExtractYoutubeId(url: string): (r: Option<string>)
    ensures r.Some? ==> |r.value| == 11 && AllIn(r.value, IdChars)
  {
    FirstOfShaped(url, YOUTUBE_PATTERNS, IdChars, Exactly(11));
    FirstOf(url, YOUTUBE_PATTERNS)
  }

  /** `watch?v=` and `youtu.be/` links are read first, `/embed/` links only when there are none. */
  lemma YoutubeOrder(url: string)
    ensures Match(url, YOUTUBE_SHORT).Some? ==> ExtractYoutubeId(url) == Match(url, YOUTUBE_SHORT)
    ensures Match(url, YOUTUBE_SHORT).None? ==> ExtractYoutubeId(url) == Match(url, YOUTUBE_EMBED)
  {
    var rest := YOUTUBE_PATTERNS[1..];
    assert rest == [YOUTUBE_EMBED];
    assert rest[1..] == [];
    FirstOfStep(url, YOUTUBE_PATTERNS);
    FirstOfStep(url, rest);
  }

  /** `extractVimeoId(url)`: the digits right after the first `vimeo.com/` that has any. */
  function ExtractVimeoId(url: string): (r: Option<string>)
    ensures r.Some? ==> |r.value| > 0 && AllDigits(r.value)
  {
    Match(url, VIMEO)
  }

  /** A Vimeo identifier is the whole run of digits directly after a `vimeo.com/`; without one, no `vimeo.com/` is followed by a digit. */
  lemma VimeoFollows(url: string)
    ensures ExtractVimeoId(url).Some? ==> exists i: nat ::
      OccursAt(url, "vimeo.com/", i) && Captures(url, i + 10, Digits, OneOrMore, ExtractVimeoId(url).value)
    ensures ExtractVimeoId(url).None? ==> forall i: nat :: OccursAt(url, "vimeo.com/", i) ==> i + 10 == |url| || !IsDigit(url[i + 10])
  {
    if ExtractVimeoId(url).Some? {
      SingleLiteralMatch(url, VIMEO);
    } else {
      forall i: nat | OccursAt(url, "vimeo.com/", i) ensures i + 10 == |url| || !IsDigit(url[i + 10]) {
        SingleAlternative(url, "vimeo.com/", Digits, OneOrMore, i);
        assert MatchAt(url, VIMEO, i).None?;
      }
    }
  }

  // ---------------------------------------------------------------------------
  // The player

  datatype Player = DriveFrame(fileId: string) | YoutubeFrame(videoId: string) | VimeoFrame(videoId: string) | DirectVideo(src: string)

  /** The address the player shows. */
  function PlayerSource(p: Player): string {
    match p
    case DriveFrame(id) => "https://drive.google.com/file/d/" + id + "/preview"
    case YoutubeFrame(id) => "https://www.youtube.com/embed/" + id
    case VimeoFrame(id) => "https://player.vimeo.com/video/" + id
    case DirectVideo(url) => url
  }

  predicate IsDrive(url: string) {
    Contains(url, "drive.google.com")
  }

  predicate IsYoutube(url: string) {
    Contains(url, "youtube.com") || Contains(url, "youtu.be")
  }

  predicate IsVimeo(url: string) {
    Contains(url, "vimeo.com")
  }

  /**
   * `renderVideoPlayer(url)`: the first host named in the link decides the
   * extractor; when it finds no identifier the link is played directly, and no
   * later host is tried.
   */
  function RenderVideoPlayer(url: string): (p: Player)
    ensures p.DriveFrame? <==> IsDrive(url) && ExtractGoogleDriveId(url).Some?
    ensures p.YoutubeFrame? <==> !IsDrive(url) && IsYoutube(url) && ExtractYoutubeId(url).Some?
    ensures p.VimeoFrame? <==> !IsDrive(url) && !IsYoutube(url) && IsVimeo(url) && ExtractVimeoId(url).Some?
    ensures p.DirectVideo? ==> p.src == url
  {
    if IsDrive(url) then
      match ExtractGoogleDriveId(url)
      case Some(id) => DriveFrame(id)
      case None => DirectVideo(url)
    else if IsYoutube(url) then
      match ExtractYoutubeId(url)
      case Some(id) => YoutubeFrame(id)
      case None => DirectVideo(url)
    else if IsVimeo(url) then
      match ExtractVimeoId(url)
      case Some(id) => VimeoFrame(id)
      case None => DirectVideo(url)
    else DirectVideo(url)
  }

  /** Every embedded player carries a well-formed identifier, so its address is the host's embed prefix and that identifier. */
  lemma PlayerIdentifiers(url: string)
    ensures RenderVideoPlayer(url).DriveFrame? ==> |RenderVideoPlayer(url).fileId| > 0 && AllIn(RenderVideoPlayer(url).fileId, IdChars)
    ensures RenderVideoPlayer(url).YoutubeFrame? ==> |RenderVideoPlayer(url).videoId| == 11 && AllIn(RenderVideoPlayer(url).videoId, IdChars)
    ensures RenderVideoPlayer(url).VimeoFrame? ==> |RenderVideoPlayer(url).videoId| > 0 && AllDigits(RenderVideoPlayer(url).videoId)
    ensures !IsDrive(url) && !IsYoutube(url) && !IsVimeo(url) ==> PlayerSource(RenderVideoPlayer(url)) == url
  {
  }

  /** A Drive link without a file identifier is played directly even when it also holds a YouTube link. */
  lemma DriveLinkWithoutIdIsDirect(url: string)
    requires IsDrive(url) && ExtractGoogleDriveId(url).None?
    ensures RenderVideoPlayer(url) == DirectVideo(url)
  {
  }

  // ---------------------------------------------------------------------------
  // The module state

  datatype Lesson = Lesson(id: string, completed: bool)

  /** A chapter's lesson counts; a chapter without them counts as 0 of 0. */
  datatype Chapter = Chapter(id: string, progress: Option<(int, int)>)

  function ChapterPercentOf(ch: Chapter): (p: int)
    ensures ch.progress.None? ==> p == 0
  {
    match ch.progress
    case Some((completed, total)) => ChapterPercent(completed, total)
    case None => 0
  }

  class Course {
    var hasAccess: bool
    var chapters: seq<Chapter>
    var currentLesson: Option<Lesson>
    var progress: Progress
    /** The server endpoints contacted, oldest first. */
    var requests: seq<string>

    constructor()
      ensures !hasAccess && chapters == [] && currentLesson == None && progress == NO_PROGRESS && requests == []
    {
      hasAccess := false;
      chapters := [];
      currentLesson := None;
      progress := NO_PROGRESS;
      requests := [];
    }

    /**
     * `checkFormationAccess`: access is the server's answer, or none when the call
     * fails. `updateFormationUI` follows: when access is granted and the page
     * shows the formation view, it starts `loadChapters`, taken here as the step
     * right after.
     */
    method CheckFormationAccess(outcome: Result<bool, string>, viewShown: bool,
                                chaptersOutcome: Result<Option<seq<Chapter>>, string>, progressOutcome: Result<Progress, string>)
      returns (access: bool)
      modifies this
      ensures access == hasAccess
      ensures hasAccess <==> outcome == Success(true)
      ensures currentLesson == old(currentLesson)
      ensures !(hasAccess && viewShown) ==> chapters == old(chapters) && progress == old(progress) && requests == old(requests)
      ensures hasAccess && viewShown ==> requests == old(requests) + ["/courses/chapters", "/courses/progress"]
      ensures hasAccess && viewShown && chaptersOutcome.Success? && progressOutcome.Success? ==>
        chapters == chaptersOutcome.value.GetOr([]) && progress == progressOutcome.value
      ensures chaptersOutcome.Failure? || progressOutcome.Failure? ==> chapters == old(chapters) && progress == old(progress)
    {
      hasAccess := outcome.Success? && outcome.value;
      if hasAccess && viewShown {
        LoadChapters(chaptersOutcome, progressOutcome);
      }
      access := hasAccess;
    }

    /**
     * `loadChapters`: nothing at all without access; otherwise both lists are
     * asked for, and both are replaced only when both calls succeed.
     */
    method LoadChapters(chaptersOutcome: Result<Option<seq<Chapter>>, string>, progressOutcome: Result<Progress, string>)
      modifies this
      ensures hasAccess == old(hasAccess) && currentLesson == old(currentLesson)
      ensures !old(hasAccess) ==> chapters == old(chapters) && progress == old(progress) && requests == old(requests)
      ensures old(hasAccess) ==> requests == old(requests) + ["/courses/chapters", "/courses/progress"]
      ensures old(hasAccess) && chaptersOutcome.Success? && progressOutcome.Success? ==>
        chapters == chaptersOutcome.value.GetOr([]) && progress == progressOutcome.value
      ensures chaptersOutcome.Failure? || progressOutcome.Failure? ==> chapters == old(chapters) && progress == old(progress)
    {
      if !hasAccess {
        return;
      }
      requests := requests + ["/courses/chapters", "/courses/progress"];
      if chaptersOutcome.Success? && progressOutcome.Success? {
        chapters := chaptersOutcome.value.GetOr([]);
        progress := progressOutcome.value;
      }
    }

    /**
     * `completeLesson`: without an open, unfinished lesson nothing happens. Once
     * the server accepts, the lesson is completed whether or not the progress
     * reload that follows succeeds.
     */
    method CompleteLesson(markOutcome: Result<Payload, string>, progressOutcome: Result<Progress, string>)
      modifies this
      ensures hasAccess == old(hasAccess) && chapters == old(chapters)
      ensures old(currentLesson).None? || old(currentLesson).value.completed ==>
        currentLesson == old(currentLesson) && progress == old(progress) && requests == old(requests)
      ensures old(currentLesson).Some? && !old(currentLesson).value.completed ==>
        var lesson := old(currentLesson).value;
        var mark := "/courses/lessons/" + lesson.id + "/complete";
        && (markOutcome.Failure? ==> currentLesson == old(currentLesson) && progress == old(progress) && requests == old(requests) + [mark])
        && (markOutcome.Success? ==>
              && currentLesson == Some(Lesson(lesson.id, true))
              && requests == old(requests) + [mark, "/courses/progress"]
              && progress == (if progressOutcome.Success? then progressOutcome.value else old(progress)))
    {
      if currentLesson.None? || currentLesson.value.completed {
        return;
      }
      var lesson := currentLesson.value;
      requests := requests + ["/courses/lessons/" + lesson.id + "/complete"];
      if markOutcome.Failure? {
        return;
      }
      currentLesson := Some(Lesson(lesson.id, true));
      requests := requests + ["/courses/progress"];
      if progressOutcome.Success? {
        progress := progressOutcome.value;
      }
    }

    /** `closeLesson`: no lesson is open any more, and the chapters are reloaded. */
    method CloseLesson(chaptersOutcome: Result<Option<seq<Chapter>>, string>, progressOutcome: Result<Progress, string>)
      modifies this
      ensures currentLesson == None && hasAccess == old(hasAccess)
      ensures !old(hasAccess) ==> chapters == old(chapters) && progress == old(progress) && requests == old(requests)
      ensures old(hasAccess) ==> requests == old(requests) + ["/courses/chapters", "/courses/progress"]
      ensures old(hasAccess) && chaptersOutcome.Success? && progressOutcome.Success? ==>
        chapters == chaptersOutcome.value.GetOr([]) && progress == progressOutcome.value
      ensures chaptersOutcome.Failure? || progressOutcome.Failure? ==> chapters == old(chapters) && progress == old(progress)
    {
      currentLesson := None;
      LoadChapters(chaptersOutcome, progressOutcome);
    }
  }
}
